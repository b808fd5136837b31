# ChatTTS service lifecycle, sample conversion and example utilities in Dafny

This project models two parts of a small text-to-speech helper.

1. `ChatTTSService` in `python/tts_service.py`. It wraps a neural TTS model. The service is
   a two-state machine: not loaded and loaded. `load_model` loads once and then is a no-op
   returning true. A failed load returns false without raising, and it can be retried.
   `synthesize` loads lazily. It raises "Model loading failed" when that load fails. It
   re-raises every failure of the backend or of the conversion as
   "TTS synthesis failed: …". `get_info` is a read-only snapshot. `_numpy_to_wav` clips each
   sample to [-1, 1], scales it by 32767 and truncates toward zero to `int16`. It then writes
   mono, 2-byte frames at the given rate.
2. `fibonacci` and `factorial` in `examples/util.py`.

Files and modules:

- `results.dfy`, module `Results`: Python exceptions (`ValueError`, `IndexError`,
  `Exception`, each with its `str()` text) and `Result<T>`, which is either the value returned
  or the exception raised.
- `wav_conversion.dfy`, module `WavConversion`: `_numpy_to_wav`. Samples are idealised as
  `real`. Frames are little-endian two's-complement bytes. A decoder is the partner for the
  round trip.
- `tts_service.dfy`, module `TtsService`: the class `ChatTtsService`. Its fields are
  `device`, `model`, `sampleRate` and `modelLoaded`. Ghost counters record how often the
  backend's load and infer were called. A ghost log records the error lines printed to stderr.
  The foreign calls become parameters:
  - the CUDA probe is a boolean `cudaAvailable`;
  - importing torch/ChatTTS and `ChatTTS.load(device=…)` together are a function
    `load: string -> LoadOutcome`, passed to each call, so a retry may see a different outcome;
  - `model.infer` is a function held by the loaded `Model`. It also takes an `entropy`
    argument that stands for the sampler's randomness.
- `util.dfy`, module `Util`: `Fibonacci` is a method with the source's append loop, proved
  against the reference function `Fib`. `Factorial` is a recursive function returning a
  `Result`, proved equal to an independent ascending product.

The conversion at python/tts_service.py:132 truncates toward zero. The comment at
python/tts_service.py:131 says the range is [-32768, 32767], but the values produced lie in
[-32767, 32767], and that is what the model states.

## Model

| member | source | states |
|---|---|---|
| `TtsService.ResolveDevice` | python/tts_service.py:41-52 | a non-empty requested device is kept; no device or "" falls back to the probe: "cuda" exactly when CUDA is available, else "cpu"; never empty |
| `TtsService.ChatTtsService.constructor` | python/tts_service.py:34-44 | a new service is unloaded, holds no model, has rate 24000 and the resolved device, and has made no backend calls |
| `TtsService.ChatTtsService.LoadModel` | python/tts_service.py:54-76 | result equals the flag afterwards; when already loaded, returns true and changes nothing and makes no load call; otherwise exactly one load attempt on the current device: success stores that model, failure logs "Failed to load ChatTTS model: …", leaves no model and returns false; device, rate and infer count never change |
| `TtsService.ChatTtsService.Synthesize` | python/tts_service.py:78-108 | loads only when unloaded; a lazy load that succeeds stores the model the backend loaded and logs nothing, one that fails logs "Failed to load ChatTTS model: …"; if the service is still unloaded afterwards, the result is "Model loading failed" and infer was not called; otherwise infer is called once and the result is `ConvertInference` of its outcome; loaded afterwards exactly when it was loaded before or the load succeeded; a success carries rate 24000 |
| `TtsService.ConvertInference` | python/tts_service.py:98-108 | succeeds exactly when infer returned a non-empty batch whose first entry is an array; then the pair is (rate, mono 16-bit audio whose frames decode to the converted samples); every failure is an `Exception` whose text starts with "TTS synthesis failed: ", followed by the backend exception's text, numpy's index error for an empty batch, or "Audio must be numpy array" for a non-array |
| `TtsService.ChatTtsService.GetInfo` | python/tts_service.py:144-151 | the snapshot reports the current flag, rate 24000, the device and the probe; it has no modifies clause, so it changes nothing and never loads |
| `TtsService.InfoOfFreshService` | python/tts_service.py:144-151 | on a newly constructed service, `get_info` reports not loaded and rate 24000 on the resolved device |
| `TtsService.LoadTwice` | python/tts_service.py:61-76 | two loads on a fresh service: the first succeeds exactly when its backend load does; the second succeeds when either did, so success is sticky and failure is retryable; one backend load call if the first succeeded, two otherwise |
| `WavConversion.Clip` | python/tts_service.py:127-128 | the clipped sample lies in [-1, 1], equals the input inside that range and saturates at the ends outside it |
| `WavConversion.TruncateTowardZero` | python/tts_service.py:130-132 | the integer lies between zero and the input, less than one away from it |
| `WavConversion.SampleToInt16` | python/tts_service.py:127-132 | every converted sample lies in [-32767, 32767]; inputs at or above 1 give 32767, at or below -1 give -32767 |
| `WavConversion.SampleToInt16Dequantize` | python/tts_service.py:130-132 | every integer k in [-32767, 32767] is produced exactly from the sample value k / 32767 |
| `WavConversion.SampleToInt16Error` | python/tts_service.py:130-132 | the integer is less than one step from the scaled, clipped sample and no larger in magnitude |
| `WavConversion.SampleToInt16Monotonic` | python/tts_service.py:127-132 | a larger input never gives a smaller integer sample |
| `WavConversion.SampleToInt16Odd` | python/tts_service.py:130-132 | negating the input negates the integer sample |
| `WavConversion.Quantize` | python/tts_service.py:127-132 | the conversion keeps the sample count and converts each sample independently |
| `WavConversion.QuantizeInRange` | python/tts_service.py:128-132 | every sample of a converted waveform is in [-32767, 32767], with saturation for inputs beyond [-1, 1] |
| `WavConversion.EncodeSample` | python/tts_service.py:140 | each int16 sample is written as two bytes |
| `WavConversion.DecodeEncodeSample` | python/tts_service.py:140 | reading back the two bytes of a sample gives the sample |
| `WavConversion.EncodeDecodeSample` | python/tts_service.py:140 | every byte pair is the encoding of the sample it decodes to |
| `WavConversion.EncodeFrames` | python/tts_service.py:140 | the frame bytes are two per sample |
| `WavConversion.DecodeEncodeFrames` | python/tts_service.py:136-140 | decoding the frames gives back exactly the samples written, in order |
| `WavConversion.NumpyToWav` | python/tts_service.py:110-142 | raises ValueError("Audio must be numpy array") exactly for non-arrays; otherwise 1 channel, sample width 2, the given rate, two bytes per input sample, frames decoding to the converted samples |
| `Util.Fibonacci` | examples/util.py:8-18 | empty for n <= 0; [0] for n = 1; otherwise exactly n entries starting 0, 1, each later entry the sum of the two before it; entry i is F(i) |
| `Util.Factorial` | examples/util.py:21-27 | raises ValueError exactly for n < 0; 1 for n = 0 and n = 1; otherwise at least 1 and at least n, and divisible by every k in 1..n |
| `Util.FactorialIsProduct` | examples/util.py:21-27 | for every n >= 0 the result is the product 1 * 2 * … * n |
| `Util.FactorialStep` | examples/util.py:27 | for n >= 2, factorial(n) = n * factorial(n - 1) |
| `Util.FactorialOfFive` | examples/util.py:32 | factorial(5) = 120 |

## Left out

- The command-line entry point `main` (python/tts_service.py:172-214) is not modelled. It is
  argument parsing, stdout/stderr writes and process exit. Its `duration` field also counts
  header bytes.
- python/setup_tts.py (package installation, model download) and python/test_tts.py (manual
  smoke scripts that play audio) are not part of this model.
- The WAV header bytes come from Python's `wave` module. They are not modelled. `WavAudio`
  records only the channel count, the sample width, the frame rate and the frame bytes.
- The `wave` module's own checks of its parameters (for example, a non-positive frame rate)
  are not modelled. The service always passes 24000.
- Frames are modelled as little-endian. That is what `tobytes()` gives on a little-endian
  host, and it is what WAV stores.
- Floating point: samples are `real`. The rounding of `x * 32767` in binary floating point, NaN
  and infinities are not modelled.
- `_print_error`'s JSON formatting and stderr output are modelled only as the ghost log of
  error messages.
- `_get_device` and `_cuda_available` catch `ImportError`. Both are folded into the boolean
  probe, which is false when torch is missing.
- A missing torch or ChatTTS import inside `load_model` is folded into a failed `LoadOutcome`.
- `ChatTTS.load` returning `None` without raising is not modelled; a successful load always
  yields a model.
- The text of the `IndexError` for an empty batch is taken as numpy's message. Other
  indexing failures are treated the same way.
- The `use_decoder=True` argument of `infer` is a constant of the source,
  so the model's `infer` does not take it.
- Util.Factorial: assumes unlimited recursion depth. CPython stops the recursion at
  examples/util.py:27 near its default limit of 1000 frames and raises RecursionError, so for
  large n the source raises where the model returns n!.
