/** `ChatTTSService`: a two-state machine (model not loaded / loaded) around
    an opaque synthesis backend. Loading happens at most once successfully,
    fails without raising and may be retried; synthesis loads lazily and
    wraps every backend failure in one exception. */
module TtsService {
  import opened Results
  import opened WavConversion

  datatype Option<T> = None | Some(value: T)

  /** The model's native sample rate. */
  const ChatTtsSampleRate: int := 24000

  const ModelLoadingFailed := "Model loading failed"
  const SynthesisFailedPrefix := "TTS synthesis failed: "
  const LoadFailedPrefix := "Failed to load ChatTTS model: "

  /** The text numpy gives when index 0 of an empty batch is taken. */
  const EmptyBatchMessage := "index 0 is out of bounds for axis 0 with size 0"

  /** What one call of the model's `infer` does: return a batch of
      waveforms (the first is used) or raise. */
  datatype InferOutcome = Returned(batch: seq<AudioInput>) | Raised(exc: Exception)

  /** A loaded model, known only by its `infer`. The model samples at
      random, so `infer` also takes the randomness of the call (`entropy`). */
  datatype Model = Model(infer: (string, string, nat) -> InferOutcome)

  /** What importing the libraries and `ChatTTS.load(device=...)` does. */
  datatype LoadOutcome = Loaded(model: Model) | LoadRaised(exc: Exception)

  /** The dictionary `get_info` returns. */
  datatype ServiceInfo = ServiceInfo(device: string, cudaAvailable: bool, sampleRate: int, modelLoaded: bool)

  /** `device or self._get_device()`: a non-empty requested device is kept;
      no device, or the empty string (which Python treats as false), falls
      back to the probe: "cuda" when CUDA is available, else "cpu". */
  function ResolveDevice(requested: Option<string>, cudaAvailable: bool): (d: string)
    ensures d != ""
    ensures requested.Some? && requested.value != "" ==> d == requested.value
    ensures requested == None || requested == Some("") ==> (d == "cuda" <==> cudaAvailable)
    ensures requested == None || requested == Some("") ==> d in {"cuda", "cpu"}
  {
    if requested.Some? && requested.value != "" then requested.value
    else if cudaAvailable then "cuda" else "cpu"
  }

  function SynthesisFailed(cause: Exception): Exception
  {
    Exception(SynthesisFailedPrefix + cause.message)
  }

  /** The `try` block of `synthesize`: take the first waveform of what
      `infer` produced and convert it at `sampleRate`. Any exception on the
      way (raised by `infer`, by indexing an empty batch, or the ValueError
      of the conversion) is re-raised with the "TTS synthesis failed: "
      prefix; on success the pair is the rate and the WAV audio. */
  function ConvertInference(outcome: InferOutcome, sampleRate: int): (r: Result<(int, WavAudio)>)
    ensures r.Ok? <==> outcome.Returned? && |outcome.batch| > 0 && outcome.batch[0].NdArray?
    ensures r.Ok? ==> r.value.0 == sampleRate
    ensures r.Ok? ==> IsPcm16Mono(r.value.1, sampleRate, Quantize(outcome.batch[0].samples))
    ensures r.Raise? ==> r.exc.Exception? && SynthesisFailedPrefix <= r.exc.message
    ensures outcome.Raised? ==> r.exc.message == SynthesisFailedPrefix + outcome.exc.message
    ensures outcome.Returned? && |outcome.batch| == 0 ==>
              r.exc.message == SynthesisFailedPrefix + EmptyBatchMessage
    ensures outcome.Returned? && |outcome.batch| > 0 && outcome.batch[0].NotAnArray? ==>
              r.exc.message == SynthesisFailedPrefix + NotAnArrayMessage
  {
    match outcome
    case Raised(e) => Raise(SynthesisFailed(e))
    case Returned(batch) =>
      if |batch| == 0 then
        Raise(SynthesisFailed(IndexError(EmptyBatchMessage)))
      else
        match NumpyToWav(batch[0], sampleRate)
        case Ok(wav) => Ok((sampleRate, wav))
        case Raise(e) => Raise(SynthesisFailed(e))
  }

  class ChatTtsService {
    var device: string
    var model: Option<Model>
    var sampleRate: int
    var modelLoaded: bool

    /** How often the backend's load and infer have been called, and the
        error messages printed to stderr as JSON. */
    ghost var loadCalls: nat
    ghost var inferCalls: nat
    ghost var errorLog: seq<string>

    /** The flag says whether a model is held; the rate never changes. */
    ghost predicate Valid()
      reads this
    {
      device != "" && sampleRate == ChatTtsSampleRate && (modelLoaded <==> model.Some?)
    }

    /** `__init__(device)`: unloaded, no model, rate 24000. */
    constructor (requested: Option<string>, cudaAvailable: bool)
      ensures Valid()
      ensures device == ResolveDevice(requested, cudaAvailable)
      ensures model == None && sampleRate == ChatTtsSampleRate && !modelLoaded
      ensures loadCalls == 0 && inferCalls == 0 && errorLog == []
    {
      device := ResolveDevice(requested, cudaAvailable);
      model := None;
      sampleRate := ChatTtsSampleRate;
      modelLoaded := false;
      loadCalls, inferCalls, errorLog := 0, 0, [];
    }

    /** `load_model()`: true at once when already loaded, without touching
        anything; otherwise one attempt to load on `device`. Success stores
        the model and sets the flag; failure logs the error, leaves the
        service unloaded and returns false, so that it can be retried. */
    method LoadModel(load: string -> LoadOutcome) returns (ok: bool)
      requires Valid()
      modifies this
      ensures Valid()
      ensures ok == modelLoaded
      ensures device == old(device) && sampleRate == old(sampleRate) && inferCalls == old(inferCalls)
      ensures old(modelLoaded) ==>
                model == old(model) && loadCalls == old(loadCalls) && errorLog == old(errorLog)
      ensures !old(modelLoaded) ==> loadCalls == old(loadCalls) + 1
      ensures !old(modelLoaded) && load(old(device)).Loaded? ==>
                ok && model == Some(load(old(device)).model) && errorLog == old(errorLog)
      ensures !old(modelLoaded) && load(old(device)).LoadRaised? ==>
                !ok && model == None &&
                errorLog == old(errorLog) + [LoadFailedPrefix + load(old(device)).exc.message]
    {
      if modelLoaded {
        return true;
      }
      loadCalls := loadCalls + 1;
      match load(device)
      case Loaded(m) =>
        model := Some(m);
        modelLoaded := true;
        ok := true;
      case LoadRaised(e) =>
        errorLog := errorLog + [LoadFailedPrefix + e.message];
        ok := false;
    }

    /** `synthesize(text, lang)`: loads first only when not loaded, and
        fails with "Model loading failed" without calling `infer` when that
        load fails. Otherwise calls `infer` once and returns what
        `ConvertInference` makes of it: the rate 24000 and the audio, or
        the wrapped failure. */
    method Synthesize(text: string, load: string -> LoadOutcome, entropy: nat, lang: string := "en")
      returns (r: Result<(int, WavAudio)>)
      requires Valid()
      modifies this
      ensures Valid()
      ensures device == old(device) && sampleRate == old(sampleRate)
      ensures old(modelLoaded) ==> model == old(model) && loadCalls == old(loadCalls)
      ensures !old(modelLoaded) ==> loadCalls == old(loadCalls) + 1
      ensures !modelLoaded ==>
                r == Raise(Exception(ModelLoadingFailed)) && inferCalls == old(inferCalls)
      ensures modelLoaded ==>
                inferCalls == old(inferCalls) + 1 &&
                r == ConvertInference(model.value.infer(text, lang, entropy), sampleRate)
      ensures modelLoaded <==> old(modelLoaded) || load(old(device)).Loaded?
      ensures !old(modelLoaded) && load(old(device)).Loaded? ==> model == Some(load(old(device)).model)
      ensures !old(modelLoaded) && load(old(device)).LoadRaised? ==>
                errorLog == old(errorLog) + [LoadFailedPrefix + load(old(device)).exc.message]
      ensures old(modelLoaded) || load(old(device)).Loaded? ==> errorLog == old(errorLog)
      ensures r.Ok? ==> r.value.0 == ChatTtsSampleRate
    {
      if !modelLoaded {
        var ok := LoadModel(load);
        if !ok {
          return Raise(Exception(ModelLoadingFailed));
        }
      }
      inferCalls := inferCalls + 1;
      r := ConvertInference(model.value.infer(text, lang, entropy), sampleRate);
    }

    /** `get_info()`: a snapshot of the device, the CUDA probe, the rate
        and the flag; it changes nothing and never loads. */
    method GetInfo(cudaAvailable: bool) returns (info: ServiceInfo)
      requires Valid()
      ensures info.modelLoaded == modelLoaded && info.sampleRate == ChatTtsSampleRate
      ensures info.device == device && info.cudaAvailable == cudaAvailable
    {
      info := ServiceInfo(device, cudaAvailable, sampleRate, modelLoaded);
    }
  }

  /** A fresh service reports itself unloaded at rate 24000 on the device
      it resolved, before anything has been loaded. */
  method InfoOfFreshService(requested: Option<string>, cudaAvailable: bool) returns (info: ServiceInfo)
    ensures !info.modelLoaded && info.sampleRate == ChatTtsSampleRate
    ensures info.device == ResolveDevice(requested, cudaAvailable)
  {
    var service := new ChatTtsService(requested, cudaAvailable);
    info := service.GetInfo(cudaAvailable);
  }

  /** Two `load_model` calls on a fresh service: once the first succeeds
      the second returns true without loading again; after a failed first
      call the second is a real retry. */
  method LoadTwice(requested: Option<string>, cudaAvailable: bool,
                   first: string -> LoadOutcome, second: string -> LoadOutcome)
    returns (ok1: bool, ok2: bool, ghost attempts: nat)
    ensures var d := ResolveDevice(requested, cudaAvailable);
            ok1 == first(d).Loaded? && ok2 == (first(d).Loaded? || second(d).Loaded?)
    ensures attempts == if ok1 then 1 else 2
  {
    var service := new ChatTtsService(requested, cudaAvailable);
    ok1 := service.LoadModel(first);
    ok2 := service.LoadModel(second);
    attempts := service.loadCalls;
  }
}
