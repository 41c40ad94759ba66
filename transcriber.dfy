/**
 * Offline speech-to-text (src/core/transcriber.py).
 *
 * The Vosk library is a `Vosk` value: whether its two classes imported,
 * what loading a model directory yields, and how a recognizer answers
 * `AcceptWaveform`, `FinalResult` and `Result` for the bytes it has been
 * fed (a reply is either the parsed JSON's `text` field or a failure to
 * produce or parse it). `Recognizer` is one `KaldiRecognizer` instance.
 */
module Transcription {
  import opened Common
  import opened Pcm
  import Paths

  /** An opaque loaded model: the directory it came from. */
  datatype ModelHandle = ModelHandle(path: string)

  /** `AcceptWaveform(data)` returns a flag (ignored by the caller) or raises. */
  datatype AcceptReply = Accepted(endOfUtterance: bool) | AcceptRaised(cause: string)

  /**
   * `json.loads(recognizer.FinalResult())` / `...Result()`: a mapping whose
   * `text` entry is a string (or missing/null), or a call or parse that raised.
   */
  datatype Reply = ResultJson(text: Option<string>) | ResultUnreadable(cause: string)

  datatype Vosk = Vosk(
    modelClass: bool,                           // `from vosk import Model` succeeded
    recognizerClass: bool,                      // `KaldiRecognizer` available
    loadModel: string -> Result<ModelHandle, string>,
    openRecognizer: Option<string>,             // `KaldiRecognizer(model, rate)` raising
    accept: seq<Byte> -> AcceptReply,
    finalResult: seq<Byte> -> Reply,            // as a function of all bytes fed
    result: seq<Byte> -> Reply)

  const NotLoadedError := Error(TranscriberError, "Model not loaded. Call load_model() first.")
  const NoRecognizerError := Error(TranscriberError, "Vosk recognizer unavailable (vosk import failed)")
  const NotInstalledError := Error(TranscriberError, "Vosk is not installed in this environment")
  /** numpy's message for `frombuffer` of an odd number of bytes as int16. */
  const OddBufferMessage: string := "buffer size must be a multiple of element size"

  /** `data.get("text", "") or ""`. */
  function TextOf(r: Reply): string
    requires r.ResultJson?
  {
    if r.text.Some? then r.text.value else ""
  }

  /** The final result's text; `Result()` is consulted only when that fails. */
  function ParseReplies(final: Reply, fallback: Reply): (r: Result<string, Error>)
    ensures final.ResultJson? ==> r == Ok(TextOf(final))
    ensures final.ResultUnreadable? && fallback.ResultJson? ==> r == Ok(TextOf(fallback))
    ensures final.ResultUnreadable? && fallback.ResultUnreadable? ==>
      r == Err(Error(TranscriberError, "Failed to parse recognition result: " + fallback.cause))
  {
    if final.ResultJson? then Ok(TextOf(final))
    else if fallback.ResultJson? then Ok(TextOf(fallback))
    else Err(Error(TranscriberError, "Failed to parse recognition result: " + fallback.cause))
  }

  /** The cause raised by the first chunk `AcceptWaveform` refuses, if any. */
  function FirstFault(chunks: seq<seq<Byte>>, accept: seq<Byte> -> AcceptReply): (r: Option<string>)
    ensures r.None? <==> forall k :: 0 <= k < |chunks| ==> accept(chunks[k]).Accepted?
  {
    if chunks == [] then None
    else match accept(chunks[0])
      case AcceptRaised(cause) => Some(cause)
      case Accepted(_) => FirstFault(chunks[1..], accept)
  }

  /** The bytes, one entry per `AcceptWaveform` call, that `transcribe` feeds for `audio`. */
  function Feed(audio: SampleArray): seq<seq<Byte>>
  {
    EncodeAll(Chunks(AsInt16(audio)))
  }

  /**
   * What `transcribe(audio)` returns or raises on a transcriber whose model
   * is (`loaded`) or is not loaded. `audio` None is Python's None.
   */
  function TranscribeSpec(loaded: bool, audio: Option<SampleArray>, vosk: Vosk): Result<string, Error>
  {
    if !loaded then Err(NotLoadedError)
    else if audio.None? || Size(audio.value) == 0 then Ok("")
    else if !vosk.recognizerClass then Err(NoRecognizerError)
    else if vosk.openRecognizer.Some? then
      Err(Error(TranscriberError, "Transcription failed: " + vosk.openRecognizer.value))
    else Recognize(AsInt16(audio.value), vosk)
  }

  /** A fresh recognizer fed `arr` chunk by chunk, then asked for its result. */
  function Recognize(arr: seq<Int16>, vosk: Vosk): Result<string, Error>
  {
    match FirstFault(EncodeAll(Chunks(arr)), vosk.accept)
    case Some(cause) => Err(Error(TranscriberError, "Transcription failed: " + cause))
    case None => ParseReplies(vosk.finalResult(Encode(arr)), vosk.result(Encode(arr)))
  }

  /** What `feed_pcm(pcm)` returns or raises. */
  function FeedPcmSpec(loaded: bool, pcm: seq<Byte>, vosk: Vosk): Result<string, Error>
  {
    if !loaded then Err(NotLoadedError)
    else if pcm == [] then Ok("")
    else if |pcm| % 2 != 0 then Err(Error(TranscriberError, "feed_pcm failed: " + OddBufferMessage))
    else WrapFeedError(TranscribeSpec(loaded, Some(Int16Array(Decode(pcm))), vosk))
  }

  /** `feed_pcm` re-raises any failure as a `TranscriberError` prefixed "feed_pcm failed: ". */
  function WrapFeedError(r: Result<string, Error>): (w: Result<string, Error>)
    ensures r.Ok? ==> w == r
    ensures r.Err? ==> w == Err(Error(TranscriberError, "feed_pcm failed: " + r.error.message))
  {
    match r
    case Ok(text) => Ok(text)
    case Err(e) => Err(Error(TranscriberError, "feed_pcm failed: " + e.message))
  }

  // ---------------------------------------------------------------------
  // Properties

  /** Without a model every call raises, empty input included. */
  lemma NotLoadedRaises(audio: Option<SampleArray>, pcm: seq<Byte>, vosk: Vosk)
    ensures TranscribeSpec(false, audio, vosk) == Err(NotLoadedError)
    ensures FeedPcmSpec(false, pcm, vosk) == Err(NotLoadedError)
  {
  }

  /**
   * Empty input returns "" without a recognizer: the answer is the same
   * whatever the recognition library would do.
   */
  lemma EmptyInputIgnoresRecognizer(audio: Option<SampleArray>, v1: Vosk, v2: Vosk)
    requires audio.None? || Size(audio.value) == 0
    ensures TranscribeSpec(true, audio, v1) == TranscribeSpec(true, audio, v2) == Ok("")
    ensures FeedPcmSpec(true, [], v1) == Ok("")
  {
  }

  /** Every error `transcribe` and `feed_pcm` raise is a `TranscriberError`. */
  lemma ErrorsAreTyped(loaded: bool, audio: Option<SampleArray>, pcm: seq<Byte>, vosk: Vosk)
    ensures TranscribeSpec(loaded, audio, vosk).Err? ==> TranscribeSpec(loaded, audio, vosk).error.kind == TranscriberError
    ensures FeedPcmSpec(loaded, pcm, vosk).Err? ==> FeedPcmSpec(loaded, pcm, vosk).error.kind == TranscriberError
  {
  }

  /** int16 input reaches the recognizer unchanged: the bytes it is fed, joined, are `audio.tobytes()`. */
  lemma FeedIsInput(samples: seq<Int16>)
    ensures Concat(Feed(Int16Array(samples))) == Encode(samples)
  {
    FedBytesAreInput(samples);
  }

  /**
   * `feed_pcm` of an even, non-empty byte string hands the recognizer exactly
   * those bytes, so its answer is the recognizer's answer for them.
   */
  lemma {:induction false} FeedPcmSeesBytes(pcm: seq<Byte>, vosk: Vosk)
    requires |pcm| > 0 && |pcm| % 2 == 0
    requires vosk.recognizerClass && vosk.openRecognizer.None?
    requires FirstFault(EncodeAll(Chunks(Decode(pcm))), vosk.accept).None?
    ensures FeedPcmSpec(true, pcm, vosk) == WrapFeedError(ParseReplies(vosk.finalResult(pcm), vosk.result(pcm)))
  {
    var a := Decode(pcm);
    EncodeDecode(pcm);
    RecognizeDecoded(pcm, a, vosk);
  }

  lemma {:induction false} RecognizeDecoded(pcm: seq<Byte>, a: seq<Int16>, vosk: Vosk)
    requires |pcm| > 0 && |pcm| % 2 == 0 && Decode(pcm) == a && Encode(a) == pcm
    requires vosk.recognizerClass && vosk.openRecognizer.None?
    requires FirstFault(EncodeAll(Chunks(a)), vosk.accept).None?
    ensures FeedPcmSpec(true, pcm, vosk) == WrapFeedError(ParseReplies(vosk.finalResult(pcm), vosk.result(pcm)))
  {
    assert TranscribeSpec(true, Some(Int16Array(a)), vosk) == Recognize(a, vosk);
  }

  /** A recognizer whose final text is "hello world" once it has heard anything. */
  function EchoVosk(): Vosk
  {
    Vosk(true, true,
      (path: string) => Ok(ModelHandle(path)),
      None,
      (data: seq<Byte>) => Accepted(true),
      (fed: seq<Byte>) => ResultJson(Some(if |fed| > 0 then "hello world" else "")),
      (fed: seq<Byte>) => ResultJson(Some(if |fed| > 0 then "hello world" else "")))
  }

  /** Non-empty PCM through that recognizer transcribes to "hello world". */
  lemma FeedPcmHelloWorld(pcm: seq<Byte>)
    requires |pcm| > 0 && |pcm| % 2 == 0
    ensures FeedPcmSpec(true, pcm, EchoVosk()) == Ok("hello world")
  {
    var v := EchoVosk();
    FeedPcmSeesBytes(pcm, v);
  }

  // ---------------------------------------------------------------------
  // Chunk-loop bookkeeping

  /** The chunks a recognizer accepts before the first one it raises on. */
  function AcceptedPrefix(chunks: seq<seq<Byte>>, accept: seq<Byte> -> AcceptReply): seq<seq<Byte>>
  {
    if chunks == [] then []
    else if accept(chunks[0]).AcceptRaised? then []
    else [chunks[0]] + AcceptedPrefix(chunks[1..], accept)
  }

  /** With no chunk refused, the recognizer accepts every chunk. */
  lemma {:induction false} NoFaultAcceptsAll(chunks: seq<seq<Byte>>, accept: seq<Byte> -> AcceptReply)
    requires FirstFault(chunks, accept).None?
    ensures AcceptedPrefix(chunks, accept) == chunks
  {
    if chunks != [] {
      NoFaultAcceptsAll(chunks[1..], accept);
    }
  }

  lemma {:induction false} EncodeAllJoin(xs: seq<seq<Int16>>, ys: seq<seq<Int16>>)
    ensures EncodeAll(xs + ys) == EncodeAll(xs) + EncodeAll(ys)
  {
    if xs == [] {
      assert xs + ys == ys;
    } else {
      assert (xs + ys)[1..] == xs[1..] + ys;
      EncodeAllJoin(xs[1..], ys);
    }
  }

  lemma {:induction false} FaultJoin(xs: seq<seq<Byte>>, ys: seq<seq<Byte>>, accept: seq<Byte> -> AcceptReply)
    requires FirstFault(xs, accept).None?
    ensures FirstFault(xs + ys, accept) == FirstFault(ys, accept)
    ensures AcceptedPrefix(xs + ys, accept) == xs + AcceptedPrefix(ys, accept)
  {
    if xs == [] {
      assert xs + ys == ys;
    } else {
      assert (xs + ys)[1..] == xs[1..] + ys;
      FaultJoin(xs[1..], ys, accept);
    }
  }

  /** Unfolding the chunk list at the loop position `i`. */
  lemma ChunksFrom(s: seq<Int16>, i: nat)
    requires i < |s|
    ensures Chunks(s[i..]) == [s[i..Min(i + ChunkSize, |s|)]] + Chunks(s[Min(i + ChunkSize, |s|)..])
  {
    var rest := s[i..];
    if |rest| > ChunkSize {
      assert rest[..ChunkSize] == s[i..i + ChunkSize];
      assert rest[ChunkSize..] == s[i + ChunkSize..];
    } else {
      assert s[|s|..] == [];
      assert s[i..|s|] == rest;
    }
  }

  /** The loop step that meets a refused chunk: the fault and the accepted prefix are settled. */
  lemma ChunkRaised(done: seq<seq<Int16>>, chunk: seq<Int16>, rest: seq<seq<Int16>>, accept: seq<Byte> -> AcceptReply)
    requires FirstFault(EncodeAll(done), accept).None?
    requires accept(Encode(chunk)).AcceptRaised?
    ensures FirstFault(EncodeAll(done + [chunk] + rest), accept) == Some(accept(Encode(chunk)).cause)
    ensures AcceptedPrefix(EncodeAll(done + [chunk] + rest), accept) == EncodeAll(done)
  {
    EncodeAllJoin(done, [chunk] + rest);
    assert done + [chunk] + rest == done + ([chunk] + rest);
    EncodeAllJoin([chunk], rest);
    FaultJoin(EncodeAll(done), EncodeAll([chunk] + rest), accept);
  }

  /** The loop step that meets an accepted chunk: the accepted chunks so far grow by it. */
  lemma ChunkAccepted(done: seq<seq<Int16>>, chunk: seq<Int16>, accept: seq<Byte> -> AcceptReply)
    requires FirstFault(EncodeAll(done), accept).None?
    requires accept(Encode(chunk)).Accepted?
    ensures EncodeAll(done + [chunk]) == EncodeAll(done) + [Encode(chunk)]
    ensures FirstFault(EncodeAll(done + [chunk]), accept).None?
  {
    EncodeAllJoin(done, [chunk]);
    FaultJoin(EncodeAll(done), [Encode(chunk)], accept);
  }

  // ---------------------------------------------------------------------
  // The classes

  /** One `KaldiRecognizer`: it keeps what it has been fed. */
  class Recognizer {
    const model: ModelHandle
    const sampleRate: int
    const vosk: Vosk
    var accepted: seq<seq<Byte>>

    constructor(model: ModelHandle, sampleRate: int, vosk: Vosk)
      ensures this.model == model && this.sampleRate == sampleRate && this.vosk == vosk
      ensures accepted == []
    {
      this.model := model;
      this.sampleRate := sampleRate;
      this.vosk := vosk;
      accepted := [];
    }

    method AcceptWaveform(data: seq<Byte>) returns (r: AcceptReply)
      modifies this
      ensures r == vosk.accept(data)
      ensures accepted == old(accepted) + (if r.Accepted? then [data] else [])
    {
      r := vosk.accept(data);
      if r.Accepted? {
        accepted := accepted + [data];
      }
    }

    method FinalResult() returns (r: Reply)
      ensures r == vosk.finalResult(Concat(accepted))
    {
      r := vosk.finalResult(Concat(accepted));
    }

    method Result() returns (r: Reply)
      ensures r == vosk.result(Concat(accepted))
    {
      r := vosk.result(Concat(accepted));
    }
  }

  /**
   * The chunk loop of `transcribe`: every 4000-sample slice, in order, as
   * bytes to `AcceptWaveform`, stopping at the first call that raises.
   */
  method FeedChunks(recognizer: Recognizer, arr: seq<Int16>) returns (fault: Option<string>)
    requires recognizer.accepted == []
    modifies recognizer
    ensures fault == FirstFault(EncodeAll(Chunks(arr)), recognizer.vosk.accept)
    ensures recognizer.accepted == AcceptedPrefix(EncodeAll(Chunks(arr)), recognizer.vosk.accept)
  {
    ghost var accept := recognizer.vosk.accept;
    ghost var done: seq<seq<Int16>> := [];
    var i := 0;
    while i < |arr|
      invariant i <= |arr|
      invariant Chunks(arr) == done + Chunks(arr[i..])
      invariant recognizer.accepted == EncodeAll(done)
      invariant FirstFault(EncodeAll(done), accept).None?
      invariant recognizer.vosk.accept == accept
      decreases |arr| - i
    {
      var end := Min(i + ChunkSize, |arr|);
      var chunk := arr[i..end];
      ChunksFrom(arr, i);
      assert Chunks(arr) == done + [chunk] + Chunks(arr[end..]);
      var reply := recognizer.AcceptWaveform(Encode(chunk));
      if reply.AcceptRaised? {
        ChunkRaised(done, chunk, Chunks(arr[end..]), accept);
        fault := Some(reply.cause);
        return;
      }
      ChunkAccepted(done, chunk, accept);
      done := done + [chunk];
      i := end;
    }
    assert arr[i..] == [];
    assert done == Chunks(arr);
    NoFaultAcceptsAll(EncodeAll(done), accept);
    fault := None;
  }

  class Transcriber {
    const sampleRate: int
    const modelPath: string
    var model: Option<ModelHandle>

    /** `Transcriber(model_path, sample_rate)`: a falsy path means the default model directory. */
    constructor(modelPath: Option<string>, rt: Paths.Runtime, sampleRate: int := 16000)
      ensures this.sampleRate == sampleRate
      ensures this.modelPath ==
        if modelPath.Some? && modelPath.value != "" then modelPath.value
        else Paths.ToText(Paths.GetModelPath(rt))
      ensures model.None?
    {
      this.sampleRate := sampleRate;
      this.modelPath :=
        if modelPath.Some? && modelPath.value != "" then modelPath.value
        else Paths.ToText(Paths.GetModelPath(rt));
      model := None;
    }

    /** `load_model()`: a failure raises and leaves the previous model in place. */
    method LoadModel(vosk: Vosk) returns (out: Outcome<Error>)
      modifies this
      ensures !vosk.modelClass ==> out == Fail(NotInstalledError) && model == old(model)
      ensures vosk.modelClass && vosk.loadModel(modelPath).Ok? ==>
        out == Pass && model == Some(vosk.loadModel(modelPath).value)
      ensures vosk.modelClass && vosk.loadModel(modelPath).Err? ==>
        model == old(model) &&
        out == Fail(Error(TranscriberError, "Failed to load Vosk model from " + modelPath + ": "
          + vosk.loadModel(modelPath).error))
      ensures out.Pass? ==> IsModelLoaded()
    {
      if !vosk.modelClass {
        return Fail(NotInstalledError);
      }
      match vosk.loadModel(modelPath)
      case Ok(handle) =>
        model := Some(handle);
        return Pass;
      case Err(cause) =>
        return Fail(Error(TranscriberError, "Failed to load Vosk model from " + modelPath + ": " + cause));
    }

    function IsModelLoaded(): (r: bool)
      reads this
      ensures r <==> model.Some?
    {
      model.Some?
    }

    /**
     * `transcribe(audio)`. `fed` is what the recognizer created for this
     * call accepted: nothing when none was created, otherwise the chunk
     * bytes up to the first one it raised on.
     */
    method Transcribe(audio: Option<SampleArray>, vosk: Vosk) returns (r: Result<string, Error>, ghost fed: seq<seq<Byte>>)
      ensures r == TranscribeSpec(model.Some?, audio, vosk)
      ensures fed ==
        if model.None? || audio.None? || Size(audio.value) == 0 || !vosk.recognizerClass || vosk.openRecognizer.Some? then []
        else AcceptedPrefix(Feed(audio.value), vosk.accept)
    {
      fed := [];
      if !IsModelLoaded() {
        return Err(NotLoadedError), fed;
      }
      if audio.None? {
        return Ok(""), fed;
      }
      if Size(audio.value) == 0 {
        return Ok(""), fed;
      }
      var arr := AsInt16(audio.value);
      if !vosk.recognizerClass {
        return Err(NoRecognizerError), fed;
      }
      if vosk.openRecognizer.Some? {
        return Err(Error(TranscriberError, "Transcription failed: " + vosk.openRecognizer.value)), fed;
      }
      var recognizer := new Recognizer(model.value, sampleRate, vosk);
      var fault := FeedChunks(recognizer, arr);
      fed := recognizer.accepted;
      if fault.Some? {
        return Err(Error(TranscriberError, "Transcription failed: " + fault.value)), fed;
      }
      NoFaultAcceptsAll(Feed(audio.value), vosk.accept);
      FedBytesAreInput(arr);

      var final := recognizer.FinalResult();
      if final.ResultJson? {
        return Ok(TextOf(final)), fed;
      }
      var fallback := recognizer.Result();
      if fallback.ResultJson? {
        return Ok(TextOf(fallback)), fed;
      }
      return Err(Error(TranscriberError, "Failed to parse recognition result: " + fallback.cause)), fed;
    }

    /** `feed_pcm(pcm_bytes)`. */
    method FeedPcm(pcm: seq<Byte>, vosk: Vosk) returns (r: Result<string, Error>)
      ensures r == FeedPcmSpec(model.Some?, pcm, vosk)
    {
      if !IsModelLoaded() {
        return Err(NotLoadedError);
      }
      if pcm == [] {
        return Ok("");
      }
      if |pcm| % 2 != 0 {
        return Err(Error(TranscriberError, "feed_pcm failed: " + OddBufferMessage));
      }
      var arr := Decode(pcm);
      var text, _ := Transcribe(Some(Int16Array(arr)), vosk);
      match text
      case Ok(t) => r := Ok(t);
      case Err(e) => r := Err(Error(TranscriberError, "feed_pcm failed: " + e.message));
    }
  }
}
