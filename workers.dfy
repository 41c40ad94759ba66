/**
 * The background recording session (src/core/workers.py): start the
 * recorder, wait for the stop flag, stop, transcribe, and report every
 * step on the signal hub. No exception leaves `run`: each becomes one
 * `transcription_error` emission.
 *
 * The thread, its mutex and the 50 ms sleeps are not modelled. What
 * happens while the worker sleeps is a schedule of `Poll`s: the audio
 * callbacks that arrive during that sleep and whether `stop_recording`
 * was called before the next look at the flag.
 */
module Workers {
  import opened Common
  import opened Pcm
  import opened Recorder
  import opened Signals
  import Transcription

  /** The `except` clauses of `run`: the message prefix follows the exception's class. */
  function ErrorMessage(e: Error): (m: string)
    ensures |m| > |e.message| && m[|m| - |e.message|..] == e.message
    ensures e.kind == AudioRecorderError <==> m[..|m| - |e.message|] == "Recording error: "
    ensures e.kind == TranscriberError <==> m[..|m| - |e.message|] == "Transcription error: "
    ensures !e.kind.AudioRecorderError? && !e.kind.TranscriberError? <==>
      m[..|m| - |e.message|] == "Unexpected error: "
  {
    match e.kind
    case AudioRecorderError => "Recording error: " + e.message
    case TranscriberError => "Transcription error: " + e.message
    case _ => "Unexpected error: " + e.message
  }

  /** One sleep of the poll loop: callbacks delivered meanwhile, and whether a stop was requested. */
  datatype Poll = Poll(arrivals: seq<CallbackEvent>, stopRequested: bool)

  /** Some poll of the schedule requests a stop, so the poll loop ends. */
  predicate StopPending(polls: seq<Poll>)
  {
    polls != [] && (polls[0].stopRequested || StopPending(polls[1..]))
  }

  /**
   * The callbacks delivered while the worker waits, with the flag at `stop`
   * when it first looks: nothing when it is already set, otherwise every
   * arrival up to and including the sleep in which the stop comes.
   */
  function Heard(stop: bool, polls: seq<Poll>): seq<CallbackEvent>
    requires stop || StopPending(polls)
    decreases |polls|
  {
    if stop then [] else polls[0].arrivals + Heard(polls[0].stopRequested, polls[1..])
  }

  /** What a session runs against: the audio library, the poll schedule, what closing the stream raises, and Vosk. */
  datatype Env = Env(backend: Backend, polls: seq<Poll>, closeFault: Option<Error>, vosk: Transcription.Vosk)

  /** A finished `run`: what it emitted, and the recorder, flag and stored audio it leaves. */
  datatype Session = Session(trace: seq<Signal>, recorder: RecorderState, shouldStop: bool, audio: Option<seq<Int16>>)

  const Opening: seq<Signal> := [RecordingStarted, StatusUpdate("Recording...")]

  /** The emissions from `transcription_started` to the end, given the transcription's outcome. */
  function TranscriptionTail(r: Result<string, Error>): seq<Signal>
  {
    match r
    case Ok(text) => [TranscriptionStarted, StatusUpdate("Processing..."), TranscriptionComplete(text), StatusUpdate("Ready")]
    case Err(e) => [TranscriptionStarted, StatusUpdate("Processing..."), TranscriptionError(ErrorMessage(e))]
  }

  /**
   * `run()` on a worker whose recorder is `rec`, whose flag is `stop` and
   * whose stored audio is `audio`, with a transcriber whose model is
   * (`loaded`) or is not loaded.
   */
  function RunSpec(rec: RecorderState, stop: bool, audio: Option<seq<Int16>>, loaded: bool, env: Env): Session
    requires StartStep(rec, env.backend).1.Pass? ==> stop || StopPending(env.polls)
  {
    RunFrom(StartStep(rec, env.backend).0, StartStep(rec, env.backend).1, stop, audio, loaded, env)
  }

  /**
   * `run()` after the two opening emissions and `start()`, which left the
   * recorder at `armed` and ended in `started`. Once `start` has succeeded
   * the poll loop only ends if a stop comes, which the precondition demands.
   */
  function RunFrom(armed: RecorderState, started: Outcome<Error>, stop: bool, audio: Option<seq<Int16>>,
                   loaded: bool, env: Env): Session
    requires started.Pass? ==> stop || StopPending(env.polls)
  {
    if started.Fail? then
      Session(Opening + [TranscriptionError(ErrorMessage(started.error))], armed, stop, audio)
    else
      AfterWait(Callbacks(armed, Heard(stop, env.polls)), audio, loaded, env)
  }

  /** The rest of `run()` once the flag has been seen set: `listened` is the recorder at that point. */
  function AfterWait(listened: RecorderState, audio: Option<seq<Int16>>, loaded: bool, env: Env): Session
  {
    var stopped := StopStep(listened, env.closeFault);
    if stopped.1.Err? then
      Session(Opening + [TranscriptionError(ErrorMessage(stopped.1.error))], stopped.0, true, audio)
    else
      Session(Opening + [RecordingStopped] + AfterStop(stopped.1.value, loaded, env.vosk), stopped.0, true, Some(stopped.1.value))
  }

  /** The emissions after `recording_stopped` for the samples `stop()` returned. */
  function AfterStop(samples: seq<Int16>, loaded: bool, vosk: Transcription.Vosk): seq<Signal>
  {
    if samples == [] then [TranscriptionError("No audio recorded")]
    else TranscriptionTail(Transcription.TranscribeSpec(loaded, Some(Int16Array(samples)), vosk))
  }

  // ---------------------------------------------------------------------
  // Properties of a session

  /** `transcription_started`, when emitted, is followed by exactly one result or error. */
  lemma {:induction false} TailReportsOnce(r: Result<string, Error>)
    ensures CountTerminal(TranscriptionTail(r)) == 1
    ensures TranscriptionTail(r)[0] == TranscriptionStarted
  {
    var t := TranscriptionTail(r);
    assert CountTerminal(t[..2]) == 0 by {
      assert t[..2][1..] == [t[1]];
    }
    CountTerminalJoin(t[..2], t[2..]);
    assert t == t[..2] + t[2..];
    if r.Ok? {
      assert t[2..][1..] == [t[3]];
    } else {
      assert t[2..][1..] == [];
    }
  }

  lemma {:induction false} AfterStopReportsOnce(samples: seq<Int16>, loaded: bool, vosk: Transcription.Vosk)
    ensures CountTerminal(AfterStop(samples, loaded, vosk)) == 1
  {
    if samples == [] {
      assert AfterStop(samples, loaded, vosk)[1..] == [];
    } else {
      TailReportsOnce(Transcription.TranscribeSpec(loaded, Some(Int16Array(samples)), vosk));
    }
  }

  /**
   * Every run opens with `recording_started` and "Recording...", and ends
   * in exactly one `transcription_complete` or `transcription_error`,
   * whatever `start` did.
   */
  lemma {:induction false} RunReportsOnce(armed: RecorderState, started: Outcome<Error>, stop: bool,
                                          audio: Option<seq<Int16>>, loaded: bool, env: Env)
    requires started.Pass? ==> stop || StopPending(env.polls)
    ensures var s := RunFrom(armed, started, stop, audio, loaded, env);
      |s.trace| > 2 && s.trace[..2] == Opening && CountTerminal(s.trace) == 1
  {
    var s := RunFrom(armed, started, stop, audio, loaded, env);
    var rest: seq<Signal>;
    if started.Fail? {
      rest := [TranscriptionError(ErrorMessage(started.error))];
      assert rest[1..] == [];
    } else {
      var listened := Callbacks(armed, Heard(stop, env.polls));
      assert s == AfterWait(listened, audio, loaded, env);
      var stopped := StopStep(listened, env.closeFault);
      if stopped.1.Err? {
        rest := [TranscriptionError(ErrorMessage(stopped.1.error))];
        assert rest[1..] == [];
      } else {
        var after := AfterStop(stopped.1.value, loaded, env.vosk);
        rest := [RecordingStopped] + after;
        AfterStopReportsOnce(stopped.1.value, loaded, env.vosk);
        assert rest[1..] == after;
      }
    }
    assert s.trace == Opening + rest;
    assert Opening[1..][1..] == [];
    CountTerminalJoin(Opening, rest);
  }

  /** A `start` that raises is reported as a recording error; nothing is stopped and nothing transcribed. */
  lemma StartFailureNeverStops(rec: RecorderState, stop: bool, audio: Option<seq<Int16>>, loaded: bool, env: Env)
    requires StartStep(rec, env.backend).1.Fail?
    ensures var s := RunSpec(rec, stop, audio, loaded, env);
      var e := StartStep(rec, env.backend).1.error;
      s.trace == Opening + [TranscriptionError("Recording error: " + e.message)] &&
      RecordingStopped !in s.trace && TranscriptionStarted !in s.trace &&
      s.recorder == StartStep(rec, env.backend).0 && s.shouldStop == stop && s.audio == audio
  {
    StartRaisesRecorderErrors(rec, env.backend);
  }

  /**
   * `recording_stopped` is emitted only once the flag was seen set and the
   * recorder stopped, and `transcription_started` only after it.
   */
  lemma StopBeforeTranscription(armed: RecorderState, started: Outcome<Error>, stop: bool,
                                audio: Option<seq<Int16>>, loaded: bool, env: Env)
    requires Consistent(armed)
    requires started.Pass? ==> stop || StopPending(env.polls)
    ensures var s := RunFrom(armed, started, stop, audio, loaded, env);
      (RecordingStopped in s.trace ==> s.shouldStop && !s.recorder.recording && s.recorder.stream.None?) &&
      (forall i :: 0 <= i < |s.trace| && s.trace[i] == TranscriptionStarted ==>
        exists j :: 0 <= j < i && s.trace[j] == RecordingStopped)
  {
    var s := RunFrom(armed, started, stop, audio, loaded, env);
    if started.Pass? {
      var listened := Callbacks(armed, Heard(stop, env.polls));
      CallbacksAppend(armed, Heard(stop, env.polls));
      assert s == AfterWait(listened, audio, loaded, env);
      var stopped := StopStep(listened, env.closeFault);
      if stopped.1.Ok? {
        var after := AfterStop(stopped.1.value, loaded, env.vosk);
        assert s.trace == Opening + [RecordingStopped] + after;
        StoppedFirst(after);
      } else {
        assert s.trace == [RecordingStarted, StatusUpdate("Recording..."), TranscriptionError(ErrorMessage(stopped.1.error))];
      }
    } else {
      assert s.trace == [RecordingStarted, StatusUpdate("Recording..."), TranscriptionError(ErrorMessage(started.error))];
    }
  }

  /** In a trace that opens and then reports the stop, any `transcription_started` comes after `recording_stopped`. */
  lemma StoppedFirst(after: seq<Signal>)
    ensures var t := Opening + [RecordingStopped] + after;
      forall i :: 0 <= i < |t| && t[i] == TranscriptionStarted ==> exists j :: 0 <= j < i && t[j] == RecordingStopped
  {
    var t := Opening + [RecordingStopped] + after;
    assert t[0] == RecordingStarted && t[1] == StatusUpdate("Recording...") && t[2] == RecordingStopped;
  }

  /**
   * An empty recording is reported as "No audio recorded" right after
   * `recording_stopped`, and the transcriber is never consulted: the run is
   * the same whatever model and recognizer are in place.
   */
  lemma EmptyAudioSkipsTranscriber(armed: RecorderState, stop: bool, audio: Option<seq<Int16>>,
                                    loaded: bool, env: Env, loaded2: bool, vosk2: Transcription.Vosk)
    requires stop || StopPending(env.polls)
    requires StopStep(Callbacks(armed, Heard(stop, env.polls)), env.closeFault).1 == Ok([])
    ensures RunFrom(armed, Pass, stop, audio, loaded, env).trace ==
      Opening + [RecordingStopped, TranscriptionError("No audio recorded")]
    ensures RunFrom(armed, Pass, stop, audio, loaded, env).audio == Some([])
    ensures RunFrom(armed, Pass, stop, audio, loaded2, env.(vosk := vosk2)) ==
      RunFrom(armed, Pass, stop, audio, loaded, env)
  {
  }

  /** A fault while closing the stream is reported, and `recording_stopped` is never emitted. */
  lemma StopFailureReported(armed: RecorderState, stop: bool, audio: Option<seq<Int16>>, loaded: bool, env: Env, e: Error)
    requires stop || StopPending(env.polls)
    requires armed.recording && armed.stream.Some? && env.closeFault == Some(e)
    ensures var s := RunFrom(armed, Pass, stop, audio, loaded, env);
      s.trace == Opening + [TranscriptionError(ErrorMessage(e))] && RecordingStopped !in s.trace &&
      s.audio == audio && !s.recorder.recording && s.recorder.stream.None?
  {
    CallbacksAppend(armed, Heard(stop, env.polls));
  }

  /**
   * With audio recorded and a transcription that succeeds, the worker emits
   * exactly the successful sequence, in this order.
   */
  lemma SuccessfulRun(armed: RecorderState, stop: bool, audio: Option<seq<Int16>>, loaded: bool, env: Env,
                      samples: seq<Int16>, text: string)
    requires stop || StopPending(env.polls)
    requires StopStep(Callbacks(armed, Heard(stop, env.polls)), env.closeFault).1 == Ok(samples)
    requires samples != [] && Transcription.TranscribeSpec(loaded, Some(Int16Array(samples)), env.vosk) == Ok(text)
    ensures RunFrom(armed, Pass, stop, audio, loaded, env).trace ==
      [RecordingStarted, StatusUpdate("Recording..."), RecordingStopped,
       TranscriptionStarted, StatusUpdate("Processing..."), TranscriptionComplete(text), StatusUpdate("Ready")]
    ensures RunFrom(armed, Pass, stop, audio, loaded, env).audio == Some(samples)
  {
  }

  /**
   * A session that starts from an idle recorder and stops cleanly leaves
   * the recorder idle and stores, in arrival order, every block delivered
   * from the stream's start until the stop; the overflow counter counts
   * exactly that session's overflow callbacks.
   */
  lemma SessionAudio(rec: RecorderState, stop: bool, audio: Option<seq<Int16>>, loaded: bool, env: Env)
    requires Consistent(rec) && !rec.recording && env.closeFault.None?
    requires StartStep(rec, env.backend).1.Pass? && (stop || StopPending(env.polls))
    ensures var s := RunSpec(rec, stop, audio, loaded, env);
      var delivered := env.backend.startEvents + Heard(stop, env.polls);
      s.audio == Some(Concat(Blocks(delivered))) &&
      s.recorder.overflowCount == OverflowEvents(delivered) &&
      !s.recorder.recording && s.shouldStop
  {
    var b := env.backend;
    var heard := Heard(stop, env.polls);
    var armed := StartStep(rec, b).0;
    StartPassOrigin(rec, b);
    var origin := rec.(audioData := [], overflowCount := 0, recording := true, stream := armed.stream);
    CallbacksJoin(origin, b.startEvents, heard);
    CallbacksAppend(origin, b.startEvents + heard);
    CallbacksCountOverflows(origin, b.startEvents + heard);
    var listened := Callbacks(armed, heard);
    assert listened == Callbacks(origin, b.startEvents + heard);
    assert listened.recording && listened.audioData == Blocks(b.startEvents + heard);
    assert StopStep(listened, env.closeFault).1 == Ok(Concat(Blocks(b.startEvents + heard)));
    assert RunSpec(rec, stop, audio, loaded, env) == AfterWait(listened, audio, loaded, env);
  }

  /**
   * A `start` that raised after arming and before a stream existed (no
   * device, a device failing validation, the stream constructor raising)
   * leaves the worker's recorder marked recording with no stream. Reset and
   * run again, the next `start` returns at once and the session ends in "No
   * audio recorded" whatever the audio library would now do. Callbacks only
   * come from an open stream, so with none open the second session's
   * schedule delivers nothing: that is the `Heard(false, env2.polls) == []`
   * precondition.
   */
  lemma RetryAfterFailedStart(rec: RecorderState, loaded: bool, env: Env, env2: Env)
    requires Consistent(rec) && !rec.recording && env.backend.available
    requires StartStep(rec, env.backend).1.Fail? && StartStep(rec, env.backend).0.stream.None?
    requires env2.backend.available && StopPending(env2.polls) && Heard(false, env2.polls) == []
    ensures var first := RunSpec(rec, false, None, loaded, env);
      first.recorder.recording &&
      RunSpec(first.recorder, false, None, loaded, env2).trace ==
        Opening + [RecordingStopped, TranscriptionError("No audio recorded")]
  {
    StartFromIdle(rec, env.backend);
    var first := StartStep(rec, env.backend).0;
    StartWhileRecording(first, env2.backend);
    assert Callbacks(first, Heard(false, env2.polls)) == first;
    assert first.audioData == [];
    assert StopStep(first, env2.closeFault).1 == Ok([]);
  }

  /**
   * `stream.start()` raising is different: the stream stays set and the
   * blocks delivered before the raise stay buffered. Reset and run again,
   * the next `start` returns at once, the kept stream goes on delivering,
   * and the stop closes it and hands over the kept blocks followed by the
   * new ones, which are transcribed when there are any.
   */
  lemma RetryAfterStreamStartFault(rec: RecorderState, device: int, loaded: bool, env: Env, env2: Env)
    requires Consistent(rec) && !rec.recording && env.backend.available
    requires ResolveDevice(rec, env.backend) == Ok(device) && ValidDevice(env.backend, device, rec.sampleRate, rec.channels)
    requires env.backend.open.Opened? && env.backend.startFault.Some?
    requires env2.backend.available && StopPending(env2.polls) && env2.closeFault.None?
    ensures var first := RunSpec(rec, false, None, loaded, env);
      var kept := Concat(Blocks(env.backend.startEvents) + Blocks(Heard(false, env2.polls)));
      var second := RunSpec(first.recorder, false, None, loaded, env2);
      first.recorder.recording && first.recorder.stream.Some? &&
      second.trace == Opening + [RecordingStopped] + AfterStop(kept, loaded, env2.vosk) &&
      second.audio == Some(kept) && !second.recorder.recording &&
      (kept != [] ==> TranscriptionStarted in second.trace)
  {
    StartFaultKeepsStream(rec, env.backend, device);
    var first := StartStep(rec, env.backend).0;
    StartWhileRecording(first, env2.backend);
    var heard := Heard(false, env2.polls);
    CallbacksAppend(first, heard);
    var listened := Callbacks(first, heard);
    var kept := Concat(Blocks(env.backend.startEvents) + Blocks(heard));
    assert StopStep(listened, env2.closeFault).1 == Ok(kept);
    assert RunSpec(first, false, None, loaded, env2) == AfterWait(listened, None, loaded, env2);
    if kept != [] {
      TailReportsOnce(Transcription.TranscribeSpec(loaded, Some(Int16Array(kept)), env2.vosk));
      var t := Opening + [RecordingStopped] + AfterStop(kept, loaded, env2.vosk);
      assert t[3] == TranscriptionStarted;
    }
  }

  // ---------------------------------------------------------------------
  // The worker

  class RecordingWorker {
    const transcriber: Transcription.Transcriber
    const recorder: AudioRecorder
    var shouldStop: bool
    var audioData: Option<seq<Int16>>

    ghost predicate Valid()
      reads this, recorder
    {
      recorder.Valid()
    }

    /** `RecordingWorker(transcriber)`: its own recorder with the default settings, no stop requested, no audio. */
    constructor(transcriber: Transcription.Transcriber)
      ensures Valid() && fresh(recorder)
      ensures this.transcriber == transcriber
      ensures recorder.State() == Initial(16000, 8000, 1)
      ensures !shouldStop && audioData.None?
    {
      this.transcriber := transcriber;
      recorder := new AudioRecorder();
      shouldStop := false;
      audioData := None;
    }

    /** `stop_recording()`: raise the flag; nothing else changes, so a second call changes nothing. */
    method StopRecording()
      modifies this
      ensures shouldStop && audioData == old(audioData)
    {
      shouldStop := true;
    }

    /** `reset()`: lower the flag and forget the audio; the recorder is left as it is. */
    method Reset()
      modifies this
      ensures !shouldStop && audioData.None?
    {
      shouldStop := false;
      audioData := None;
    }

    /** `run()`, emitting on `hub`, the global signal instance. */
    method Run(hub: SignalHub, env: Env)
      requires Valid()
      requires StartStep(recorder.State(), env.backend).1.Pass? ==> shouldStop || StopPending(env.polls)
      modifies this, recorder, hub
      ensures Valid()
      ensures var s := RunSpec(old(recorder.State()), old(shouldStop), old(audioData), transcriber.model.Some?, env);
        hub.log == old(hub.log) + s.trace && recorder.State() == s.recorder &&
        shouldStop == s.shouldStop && audioData == s.audio
    {
      hub.Emit(RecordingStarted);
      hub.Emit(StatusUpdate("Recording..."));
      var started := recorder.Start(env.backend);
      if started.Fail? {
        hub.Emit(TranscriptionError(ErrorMessage(started.error)));
        return;
      }
      ghost var heard := WaitForStop(env.polls);
      FinishRun(hub, env, old(hub.log));
    }

    /** The poll loop: deliver what arrives during each sleep until the flag is seen set. */
    method WaitForStop(polls: seq<Poll>) returns (ghost heard: seq<CallbackEvent>)
      requires Valid()
      requires shouldStop || StopPending(polls)
      modifies this, recorder
      ensures Valid()
      ensures heard == Heard(old(shouldStop), polls)
      ensures recorder.State() == Callbacks(old(recorder.State()), heard)
      ensures shouldStop && audioData == old(audioData)
    {
      ghost var start := recorder.State();
      heard := [];
      var k := 0;
      while !shouldStop
        invariant Valid()
        invariant k <= |polls|
        invariant shouldStop || StopPending(polls[k..])
        invariant heard + Heard(shouldStop, polls[k..]) == Heard(old(shouldStop), polls)
        invariant recorder.State() == Callbacks(start, heard)
        invariant audioData == old(audioData)
        decreases |polls| - k
      {
        var poll := polls[k];
        assert polls[k..][1..] == polls[k + 1..];
        recorder.DeliverCallbacks(poll.arrivals);
        CallbacksJoin(start, heard, poll.arrivals);
        heard := heard + poll.arrivals;
        if poll.stopRequested {
          StopRecording();
        }
        k := k + 1;
      }
    }

    /** From `recorder.stop()` to the end of `run()`; `before` is the hub's log before the run. */
    method FinishRun(hub: SignalHub, env: Env, ghost before: seq<Signal>)
      requires Valid() && shouldStop
      requires hub.log == before + Opening
      modifies this, recorder, hub
      ensures Valid()
      ensures var s := AfterWait(old(recorder.State()), old(audioData), transcriber.model.Some?, env);
        hub.log == before + s.trace && recorder.State() == s.recorder &&
        shouldStop == s.shouldStop && audioData == s.audio
    {
      var got := recorder.Stop(env.closeFault);
      if got.Err? {
        hub.Emit(TranscriptionError(ErrorMessage(got.error)));
        return;
      }
      audioData := Some(got.value);
      hub.Emit(RecordingStopped);
      ReportAudio(hub, got.value, env.vosk);
      assert hub.log == before + (Opening + [RecordingStopped] + AfterStop(got.value, transcriber.model.Some?, env.vosk));
    }

    /** From the empty-audio check to the end of `run()`: the emissions `AfterStop` gives for `samples`. */
    method ReportAudio(hub: SignalHub, samples: seq<Int16>, vosk: Transcription.Vosk)
      modifies hub
      ensures hub.log == old(hub.log) + AfterStop(samples, transcriber.model.Some?, vosk)
    {
      if |samples| == 0 {
        hub.Emit(TranscriptionError("No audio recorded"));
        return;
      }
      hub.Emit(TranscriptionStarted);
      hub.Emit(StatusUpdate("Processing..."));
      var text, _ := transcriber.Transcribe(Some(Int16Array(samples)), vosk);
      match text
      case Err(e) =>
        hub.Emit(TranscriptionError(ErrorMessage(e)));
      case Ok(t) =>
        hub.Emit(TranscriptionComplete(t));
        hub.Emit(StatusUpdate("Ready"));
    }
  }
}
