/** `ChatTTSService._numpy_to_wav`: clip a floating-point waveform to
    [-1, 1], scale it by 32767, truncate to 16-bit integers and frame the
    result as mono, 2-byte samples at the given rate. Samples are idealised
    as `real`; the frames are the little-endian two's-complement bytes that
    `tobytes()` produces and the WAV writer copies. */
module WavConversion {
  import opened Results

  /** The largest magnitude the conversion produces: the scale factor. */
  const FullScale: int := 32767

  /** The values of numpy's `int16`. */
  type Int16 = x: int | -32768 <= x <= 32767

  type Byte = x: int | 0 <= x < 256

  /** `np.clip(x, -1.0, 1.0)` for one sample. */
  function Clip(x: real): (r: real)
    ensures -1.0 <= r <= 1.0
    ensures -1.0 <= x <= 1.0 ==> r == x
    ensures x > 1.0 ==> r == 1.0
    ensures x < -1.0 ==> r == -1.0
  {
    if x < -1.0 then -1.0 else if x > 1.0 then 1.0 else x
  }

  /** The float-to-integer cast of `np.int16(...)`: it drops the fraction,
      rounding toward zero, not down. */
  function TruncateTowardZero(x: real): (r: int)
    ensures 0.0 <= x ==> 0 <= r && r as real <= x < r as real + 1.0
    ensures x < 0.0 ==> r <= 0 && r as real - 1.0 < x <= r as real
  {
    if x >= 0.0 then x.Floor else -((-x).Floor)
  }

  /** One sample of `np.int16(np.clip(audio, -1.0, 1.0) * 32767)`. */
  function SampleToInt16(x: real): (s: Int16)
    ensures -FullScale <= s <= FullScale
    ensures x >= 1.0 ==> s == FullScale
    ensures x <= -1.0 ==> s == -FullScale
  {
    TruncateTowardZero(Clip(x) * FullScale as real)
  }

  /** The sample value a 16-bit integer stands for, the inverse scaling. */
  function Dequantize(s: int): real
  {
    s as real / FullScale as real
  }

  /** Every integer the conversion can produce is reproduced exactly from
      the sample value it stands for. */
  lemma SampleToInt16Dequantize(k: int)
    requires -FullScale <= k <= FullScale
    ensures SampleToInt16(Dequantize(k)) == k
  {
  }

  /** Quantization loses less than one step and never increases the
      magnitude: the result lies between zero and the scaled, clipped
      sample. */
  lemma SampleToInt16Error(x: real)
    ensures var y := Clip(x) * FullScale as real;
            var s := SampleToInt16(x) as real;
            -1.0 < y - s < 1.0 && (if y >= 0.0 then 0.0 <= s <= y else y <= s <= 0.0)
  {
  }

  /** A larger input never yields a smaller integer sample. */
  lemma SampleToInt16Monotonic(x: real, y: real)
    requires x <= y
    ensures SampleToInt16(x) <= SampleToInt16(y)
  {
  }

  /** Because the cast truncates toward zero, the conversion is symmetric:
      negating the input negates the sample. */
  lemma SampleToInt16Odd(x: real)
    ensures SampleToInt16(-x) == -SampleToInt16(x)
  {
  }

  /** The element-wise clip, scale and cast over the whole waveform. */
  function Quantize(audio: seq<real>): (pcm: seq<Int16>)
    ensures |pcm| == |audio|
    ensures forall i :: 0 <= i < |pcm| ==> pcm[i] == SampleToInt16(audio[i])
  {
    seq(|audio|, i requires 0 <= i < |audio| => SampleToInt16(audio[i]))
  }

  /** Every converted sample lies in [-32767, 32767]; inputs beyond the
      nominal range saturate at the ends. */
  lemma QuantizeInRange(audio: seq<real>, i: int)
    requires 0 <= i < |audio|
    ensures -FullScale <= Quantize(audio)[i] <= FullScale
    ensures audio[i] >= 1.0 ==> Quantize(audio)[i] == FullScale
    ensures audio[i] <= -1.0 ==> Quantize(audio)[i] == -FullScale
  {
  }

  /** One int16 as two bytes, low byte first, two's complement. */
  function EncodeSample(s: Int16): (b: seq<Byte>)
    ensures |b| == 2
  {
    var u := if s < 0 then s + 65536 else s;
    [u % 256, u / 256]
  }

  /** Two bytes, low byte first, read back as a signed 16-bit sample. */
  function DecodeSample(lo: Byte, hi: Byte): Int16
  {
    var u := lo + 256 * hi;
    if u >= 32768 then u - 65536 else u
  }

  /** Encoding a sample and reading it back gives the sample. */
  lemma DecodeEncodeSample(s: Int16)
    ensures DecodeSample(EncodeSample(s)[0], EncodeSample(s)[1]) == s
  {
  }

  /** Every pair of bytes is the encoding of exactly one sample. */
  lemma EncodeDecodeSample(lo: Byte, hi: Byte)
    ensures EncodeSample(DecodeSample(lo, hi)) == [lo, hi]
  {
  }

  /** `audio_int16.tobytes()`: the frames of a mono 16-bit stream. */
  function EncodeFrames(pcm: seq<Int16>): (data: seq<Byte>)
    ensures |data| == 2 * |pcm|
  {
    if pcm == [] then [] else EncodeSample(pcm[0]) + EncodeFrames(pcm[1..])
  }

  /** Reading a mono 16-bit stream back into samples, one per two bytes. */
  function DecodeFrames(data: seq<Byte>): (pcm: seq<Int16>)
    ensures |pcm| == |data| / 2
  {
    if |data| < 2 then [] else [DecodeSample(data[0], data[1])] + DecodeFrames(data[2..])
  }

  /** Decoding the frames of a converted waveform gives back exactly the
      16-bit samples that were written, in order. */
  lemma {:induction false} DecodeEncodeFrames(pcm: seq<Int16>)
    ensures DecodeFrames(EncodeFrames(pcm)) == pcm
  {
    if pcm != [] {
      var data := EncodeFrames(pcm);
      var head := EncodeSample(pcm[0]);
      assert data == head + EncodeFrames(pcm[1..]);
      assert data[0] == head[0] && data[1] == head[1];
      assert data[2..] == EncodeFrames(pcm[1..]);
      DecodeEncodeSample(pcm[0]);
      DecodeEncodeFrames(pcm[1..]);
    }
  }

  /** What `_numpy_to_wav` receives: a numpy array of float samples, or
      some other object. */
  datatype AudioInput = NdArray(samples: seq<real>) | NotAnArray

  /** The WAV file written through the `wave` module, by its parameters and
      its frame bytes; the header layout itself is not modelled. */
  datatype WavAudio = WavAudio(channels: nat, sampleWidth: nat, frameRate: int, frames: seq<Byte>)

  const NotAnArrayMessage := "Audio must be numpy array"

  /** A mono, 16-bit stream at `rate` whose frames decode to `pcm`. */
  predicate IsPcm16Mono(w: WavAudio, rate: int, pcm: seq<Int16>)
  {
    w.channels == 1 && w.sampleWidth == 2 && w.frameRate == rate
    && |w.frames| == 2 * |pcm| && DecodeFrames(w.frames) == pcm
  }

  /** `_numpy_to_wav(audio, sample_rate)`: ValueError for anything but an
      array, otherwise a mono, 2-byte-sample stream at `sampleRate` holding
      one frame per input sample, each the converted sample. */
  function NumpyToWav(audio: AudioInput, sampleRate: int): (r: Result<WavAudio>)
    ensures r.Raise? <==> audio.NotAnArray?
    ensures r.Raise? ==> r.exc == ValueError(NotAnArrayMessage)
    ensures r.Ok? ==> IsPcm16Mono(r.value, sampleRate, Quantize(audio.samples))
  {
    match audio
    case NotAnArray => Raise(ValueError(NotAnArrayMessage))
    case NdArray(samples) =>
      var pcm := Quantize(samples);
      DecodeEncodeFrames(pcm);
      Ok(WavAudio(1, 2, sampleRate, EncodeFrames(pcm)))
  }
}
