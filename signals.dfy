/**
 * The application's signal hub (src/utils/signals.py): one global object
 * whose signals the workers emit and the interface listens to. The hub is
 * modelled by what was emitted on it, in order.
 */
module Signals {

  /** One emission: the signal's name and its argument, if it carries one. */
  datatype Signal =
    | RecordingStarted
    | RecordingStopped
    | ToggleRecording
    | TranscriptionStarted
    | TranscriptionComplete(text: string)
    | TranscriptionError(message: string)
    | TranslationStarted
    | TranslationComplete(translation: string)
    | TranslationError(reason: string)
    | StatusUpdate(status: string)
    | AudioLevel(level: real)

  /** The end of a transcription attempt: its result or its error. */
  predicate Terminal(s: Signal)
  {
    s.TranscriptionComplete? || s.TranscriptionError?
  }

  function CountTerminal(log: seq<Signal>): (n: nat)
    ensures n <= |log|
    ensures n == 0 <==> forall i :: 0 <= i < |log| ==> !Terminal(log[i])
  {
    if log == [] then 0 else (if Terminal(log[0]) then 1 else 0) + CountTerminal(log[1..])
  }

  lemma {:induction false} CountTerminalJoin(xs: seq<Signal>, ys: seq<Signal>)
    ensures CountTerminal(xs + ys) == CountTerminal(xs) + CountTerminal(ys)
  {
    if xs == [] {
      assert xs + ys == ys;
    } else {
      assert (xs + ys)[1..] == xs[1..] + ys;
      CountTerminalJoin(xs[1..], ys);
    }
  }

  /** The global `signals` instance: `emit` appends to what listeners have been sent. */
  class SignalHub {
    var log: seq<Signal>

    constructor()
      ensures log == []
    {
      log := [];
    }

    method Emit(s: Signal)
      modifies this
      ensures log == old(log) + [s]
    {
      log := log + [s];
    }
  }
}
