/**
 * The microphone recorder (src/core/recorder.py).
 *
 * The recorder's fields are gathered in a value, `RecorderState`, and each
 * operation is given as a function on that value (`Callback`, `StartStep`,
 * `StopStep`); the class `AudioRecorder` holds the same fields and its
 * methods are proved to change them exactly as those functions say.
 *
 * The sound library (`sounddevice` / PortAudio) is a `Backend` value: what
 * importing it, querying devices, probing a device, opening and starting
 * an input stream, and stopping it would do.
 */
module Recorder {
  import opened Common
  import opened Pcm

  // ---------------------------------------------------------------------
  // The sound library as seen by the recorder

  /** A field of a device mapping: missing, convertible by `int()`/`float()`, or not convertible. */
  datatype Field<T> = Absent | Value(v: T) | Unconvertible

  /** One entry of `sd.query_devices()`: usually a mapping, occasionally something else. */
  datatype RawDevice =
    | DeviceDict(maxInputChannels: Field<int>, name: Option<string>, defaultSampleRate: Field<real>)
    | DeviceOther(text: Option<string>)   // `str(d)`, or None when `str` raises

  /** An entry of `list_devices()`. */
  datatype DeviceInfo = DeviceInfo(id: nat, name: Option<string>, channels: int, defaultSampleRate: real)

  /** `sd.default.device`: an (input, output) pair, a single value, or an attribute that raises. */
  datatype DefaultSetting = DefaultPair(input: Option<int>) | DefaultSingle(device: Option<int>) | DefaultRaises

  /** How `sd.check_input_settings` ends. */
  datatype Probe = ProbeOk | ProbePortAudioError | ProbeOtherError

  /**
   * How `sd.InputStream(...)` ends: a stream (built with `blocksize`, or built
   * without it after that form raised `TypeError`), or an exception.
   */
  datatype OpenOutcome = Opened(acceptsBlockSize: bool) | OpenRaised(cause: string)

  /** `status` of a callback: None/empty flags, or flags with their `input_overflow` bit. */
  datatype CallbackStatus = NoStatus | Flags(inputOverflow: bool)

  /** One invocation of `_audio_callback(indata, frames, time, status)`. */
  datatype CallbackEvent = CallbackEvent(indata: Option<SampleArray>, status: CallbackStatus)

  datatype Backend = Backend(
    available: bool,                          // `import sounddevice` succeeded
    devices: Result<seq<RawDevice>, Error>,   // `sd.query_devices()`
    defaultDevice: DefaultSetting,            // `sd.default.device`
    probe: (int, int, int) -> Probe,          // `check_input_settings(device, samplerate, channels)`
    open: OpenOutcome,                        // `sd.InputStream(...)`
    startEvents: seq<CallbackEvent>,          // callbacks delivered while `stream.start()` runs
    startFault: Option<string>)               // `stream.start()` raising after those callbacks

  /** The arguments an opened input stream was created with. */
  datatype Stream = Stream(device: int, sampleRate: int, channels: int, dtype: string, blockSize: Option<int>)

  // ---------------------------------------------------------------------
  // Queries

  function DescribeDevice(idx: nat, d: RawDevice): (info: DeviceInfo)
    ensures info.id == idx
    ensures d.DeviceOther? ==> info == DeviceInfo(idx, d.text, 0, 0.0)
    ensures d.DeviceDict? ==> info.name == d.name
    ensures d.DeviceDict? ==> info.channels == (if d.maxInputChannels.Value? then d.maxInputChannels.v else 0)
    ensures d.DeviceDict? ==> info.defaultSampleRate == (if d.defaultSampleRate.Value? then d.defaultSampleRate.v else 0.0)
  {
    match d
    case DeviceDict(ch, name, sr) =>
      var channels := match ch { case Value(c) => c case _ => 0 };
      var rate := match sr { case Value(r) => r case _ => 0.0 };
      DeviceInfo(idx, name, channels, rate)
    case DeviceOther(text) => DeviceInfo(idx, text, 0, 0.0)
  }

  /** What `list_devices()` returns or raises. */
  function DeviceList(b: Backend): (r: Result<seq<DeviceInfo>, Error>)
    ensures !b.available ==> r == Ok([])
    ensures b.available && b.devices.Err? ==> r == Err(b.devices.error)
    ensures b.available && b.devices.Ok? ==> r.Ok? && |r.value| == |b.devices.value|
    ensures b.available && b.devices.Ok? ==>
      forall i :: 0 <= i < |r.value| ==> r.value[i] == DescribeDevice(i, b.devices.value[i])
  {
    if !b.available then Ok([])
    else match b.devices
      case Err(e) => Err(e)
      case Ok(ds) => Ok(seq(|ds|, i requires 0 <= i < |ds| => DescribeDevice(i, ds[i])))
  }

  /** `get_default_device()`: never raises; None when it cannot tell. */
  function DefaultDevice(b: Backend): (r: Option<int>)
    ensures !b.available ==> r == None
    ensures b.available && b.defaultDevice.DefaultRaises? ==> r == None
    ensures b.available && b.defaultDevice.DefaultPair? ==> r == b.defaultDevice.input
    ensures b.available && b.defaultDevice.DefaultSingle? ==> r == b.defaultDevice.device
  {
    if !b.available then None
    else match b.defaultDevice
      case DefaultPair(first) => first
      case DefaultSingle(d) => d
      case DefaultRaises => None
  }

  /**
   * `_validate_device(id)`: the probe decides, except that a probe failing
   * with something other than a PortAudio error falls back to "is `id`
   * among the listed device ids".
   */
  function ValidDevice(b: Backend, id: int, sampleRate: int, channels: int): bool
  {
    if !b.available then false
    else match b.probe(id, sampleRate, channels)
      case ProbeOk => true
      case ProbePortAudioError => false
      case ProbeOtherError =>
        match DeviceList(b)
        case Err(_) => false
        case Ok(ds) => exists i :: 0 <= i < |ds| && ds[i].id == id
  }

  /** The fallback of `_validate_device` accepts exactly the enumeration indices. */
  lemma ValidDeviceFallback(b: Backend, id: int, sampleRate: int, channels: int)
    requires b.available && b.probe(id, sampleRate, channels) == ProbeOtherError && b.devices.Ok?
    ensures ValidDevice(b, id, sampleRate, channels) <==> 0 <= id < |b.devices.value|
  {
    var ds := DeviceList(b).value;
    if 0 <= id < |b.devices.value| {
      assert ds[id].id == id;
    }
  }

  // ---------------------------------------------------------------------
  // The recorder's state and its operations as functions

  datatype RecorderState = RecorderState(
    sampleRate: int,
    blockSize: int,
    channels: int,
    deviceId: Option<int>,
    stream: Option<Stream>,
    recording: bool,
    audioData: seq<seq<Int16>>,
    overflowCount: nat)

  /** The recorder's invariant: a stream exists only while recording. */
  predicate Consistent(s: RecorderState)
  {
    !s.recording ==> s.stream.None?
  }

  /** `AudioRecorder(sample_rate, block_size, channels)`. */
  function Initial(sampleRate: int, blockSize: int, channels: int): RecorderState
  {
    RecorderState(sampleRate, blockSize, channels, None, None, false, [], 0)
  }

  function IsOverflow(st: CallbackStatus): bool
  {
    st.Flags? && st.inputOverflow
  }

  /** One `_audio_callback`: count an overflow; keep the block only while recording. */
  function Callback(s: RecorderState, ev: CallbackEvent): (t: RecorderState)
  {
    var counted := if IsOverflow(ev.status) then s.overflowCount + 1 else s.overflowCount;
    if ev.indata.None? then s.(overflowCount := counted)
    else if s.recording then s.(overflowCount := counted, audioData := s.audioData + [AsInt16(ev.indata.value)])
    else s.(overflowCount := counted)
  }

  /** Callbacks applied in order. */
  function Callbacks(s: RecorderState, evs: seq<CallbackEvent>): RecorderState
    decreases |evs|
  {
    if evs == [] then s else Callback(Callbacks(s, evs[..|evs| - 1]), evs[|evs| - 1])
  }

  function OverflowEvents(evs: seq<CallbackEvent>): nat
  {
    if evs == [] then 0 else OverflowEvents(evs[..|evs| - 1]) + (if IsOverflow(evs[|evs| - 1].status) then 1 else 0)
  }

  /** The blocks a recording recorder keeps from `evs`, converted to int16. */
  function Blocks(evs: seq<CallbackEvent>): seq<seq<Int16>>
  {
    if evs == [] then []
    else
      var last := evs[|evs| - 1];
      Blocks(evs[..|evs| - 1]) + (if last.indata.Some? then [AsInt16(last.indata.value)] else [])
  }

  /** The device `start` records from, or the error it raises when there is none. */
  function ResolveDevice(s: RecorderState, b: Backend): (r: Result<int, Error>)
    requires b.available
    ensures s.deviceId.Some? ==> r == Ok(s.deviceId.value)
    ensures s.deviceId.None? && DefaultDevice(b).Some? ==> r == Ok(DefaultDevice(b).value)
    ensures s.deviceId.None? && DefaultDevice(b).None? ==>
      r == (if b.devices.Ok? && |b.devices.value| > 0 then Ok(0) else Err(NoDeviceError))
  {
    var preferred := if s.deviceId.Some? then s.deviceId else DefaultDevice(b);
    if preferred.Some? then Ok(preferred.value)
    else match DeviceList(b)
      case Err(_) => Err(NoDeviceError)
      case Ok(ds) => if |ds| > 0 then Ok(ds[0].id) else Err(NoDeviceError)
  }

  const NoDeviceError := Error(AudioRecorderError, "No audio input device found")
  const NoBackendError := Error(AudioRecorderError, "sounddevice not available")

  function UnsupportedDeviceError(device: int, sampleRate: int): Error
  {
    Error(AudioRecorderError, "Device " + IntToString(device) + " does not support "
      + IntToString(sampleRate) + "Hz sample rate")
  }

  function StartFailedError(cause: string): Error
  {
    Error(AudioRecorderError, "Failed to start recording: " + cause)
  }

  /** `start()`: the new state and whether it raised. */
  function StartStep(s: RecorderState, b: Backend): (RecorderState, Outcome<Error>)
  {
    if !b.available then (s, Fail(NoBackendError))
    else if s.recording then (s, Pass)
    else
      // cleared, zeroed and marked recording before anything can raise
      var armed := s.(audioData := [], overflowCount := 0, recording := true);
      match ResolveDevice(armed, b)
      case Err(e) => (armed, Fail(e))
      case Ok(device) =>
        if !ValidDevice(b, device, s.sampleRate, s.channels) then
          (armed, Fail(UnsupportedDeviceError(device, s.sampleRate)))
        else match b.open
          case OpenRaised(cause) => (armed, Fail(StartFailedError(cause)))
          case Opened(withBlockSize) =>
            var stream := Stream(device, s.sampleRate, s.channels, "int16",
              if withBlockSize then Some(s.blockSize) else None);
            var running := Callbacks(armed.(stream := Some(stream)), b.startEvents);
            if b.startFault.Some? then (running, Fail(StartFailedError(b.startFault.value)))
            else (running, Pass)
  }

  /**
   * `stop()`: the new state and the returned samples. `closeFault` is what
   * `stream.stop()` / `stream.close()` raise, if anything; the stream is
   * dropped either way and the exception then propagates.
   */
  function StopStep(s: RecorderState, closeFault: Option<Error>): (RecorderState, Result<seq<Int16>, Error>)
  {
    if !s.recording then (s, Ok([]))
    else
      var stopped := s.(recording := false, stream := None);
      if s.stream.Some? && closeFault.Some? then (stopped, Err(closeFault.value))
      else (stopped, Ok(Concat(s.audioData)))
  }

  // ---------------------------------------------------------------------
  // Properties of the operations

  /** Overflow events each add exactly one, recording or not. */
  lemma {:induction false} CallbacksCountOverflows(s: RecorderState, evs: seq<CallbackEvent>)
    ensures Callbacks(s, evs).overflowCount == s.overflowCount + OverflowEvents(evs)
  {
    if evs != [] {
      CallbacksCountOverflows(s, evs[..|evs| - 1]);
    }
  }

  /** Callbacks append their blocks, in arrival order, exactly when recording; nothing else changes. */
  lemma {:induction false} CallbacksAppend(s: RecorderState, evs: seq<CallbackEvent>)
    ensures var t := Callbacks(s, evs);
      t.audioData == s.audioData + (if s.recording then Blocks(evs) else []) &&
      t.recording == s.recording && t.stream == s.stream && t.deviceId == s.deviceId &&
      t.sampleRate == s.sampleRate && t.blockSize == s.blockSize && t.channels == s.channels
  {
    if evs != [] {
      CallbacksAppend(s, evs[..|evs| - 1]);
    }
  }

  /** Delivering two runs of callbacks one after the other is delivering their concatenation. */
  lemma {:induction false} CallbacksJoin(s: RecorderState, xs: seq<CallbackEvent>, ys: seq<CallbackEvent>)
    ensures Callbacks(s, xs + ys) == Callbacks(Callbacks(s, xs), ys)
    decreases |ys|
  {
    if ys == [] {
      assert xs + ys == xs;
    } else {
      assert (xs + ys)[..|xs + ys| - 1] == xs + ys[..|ys| - 1];
      CallbacksJoin(s, xs, ys[..|ys| - 1]);
    }
  }

  /** A callback while not recording only ever touches the overflow counter. */
  lemma CallbackIdle(s: RecorderState, ev: CallbackEvent)
    requires !s.recording
    ensures Callback(s, ev) == s.(overflowCount := s.overflowCount + (if IsOverflow(ev.status) then 1 else 0))
  {
  }

  /** int16 blocks are kept unchanged while recording; a missing `indata` keeps nothing. */
  lemma CallbackKeepsInt16(s: RecorderState, samples: seq<Int16>, st: CallbackStatus)
    requires s.recording
    ensures Callback(s, CallbackEvent(Some(Int16Array(samples)), st)).audioData == s.audioData + [samples]
    ensures Callback(s, CallbackEvent(None, st)).audioData == s.audioData
  {
  }

  /** `start()` while recording changes nothing, buffer and counter included. */
  lemma StartWhileRecording(s: RecorderState, b: Backend)
    requires b.available && s.recording
    ensures StartStep(s, b) == (s, Pass)
  {
  }

  /**
   * `start()` from idle: whatever happens next, the recorder is marked
   * recording, its buffer holds only blocks of this session and its
   * counter only this session's overflows; a raise leaves it marked
   * recording.
   */
  lemma StartFromIdle(s: RecorderState, b: Backend)
    requires b.available && !s.recording && Consistent(s)
    ensures var (t, out) := StartStep(s, b);
      t.recording &&
      t.deviceId == s.deviceId &&
      (t.stream.None? ==> t.audioData == [] && t.overflowCount == 0) &&
      (t.stream.Some? ==> t.audioData == Blocks(b.startEvents) && t.overflowCount == OverflowEvents(b.startEvents)) &&
      (out.Pass? ==> t.stream.Some?)
  {
    var armed := s.(audioData := [], overflowCount := 0, recording := true);
    match ResolveDevice(armed, b)
    case Err(_) =>
    case Ok(device) =>
      if ValidDevice(b, device, s.sampleRate, s.channels) && b.open.Opened? {
        var stream := Stream(device, s.sampleRate, s.channels, "int16",
          if b.open.acceptsBlockSize then Some(s.blockSize) else None);
        CallbacksAppend(armed.(stream := Some(stream)), b.startEvents);
        CallbacksCountOverflows(armed.(stream := Some(stream)), b.startEvents);
      }
  }

  /**
   * A successful `start()` from idle is the cleared, armed recorder with its
   * new stream, after the callbacks that arrived while starting.
   */
  lemma StartPassOrigin(s: RecorderState, b: Backend)
    requires !s.recording && StartStep(s, b).1.Pass?
    ensures var t := StartStep(s, b).0;
      t.stream.Some? &&
      t == Callbacks(s.(audioData := [], overflowCount := 0, recording := true, stream := t.stream), b.startEvents)
  {
    var armed := s.(audioData := [], overflowCount := 0, recording := true);
    match ResolveDevice(armed, b)
    case Err(_) =>
    case Ok(device) =>
      if ValidDevice(b, device, s.sampleRate, s.channels) && b.open.Opened? {
        var stream := Stream(device, s.sampleRate, s.channels, "int16",
          if b.open.acceptsBlockSize then Some(s.blockSize) else None);
        CallbacksAppend(armed.(stream := Some(stream)), b.startEvents);
      }
  }

  /** The stream is opened on the resolved device, with the recorder's rate, channel count and int16 samples. */
  lemma StartOpensResolvedDevice(s: RecorderState, b: Backend)
    requires b.available && !s.recording && Consistent(s)
    requires StartStep(s, b).0.stream.Some?
    ensures b.open.Opened?
    ensures var st := StartStep(s, b).0.stream.value;
      ResolveDevice(s, b) == Ok(st.device) && ValidDevice(b, st.device, s.sampleRate, s.channels) &&
      st.sampleRate == s.sampleRate && st.channels == s.channels && st.dtype == "int16" &&
      st.blockSize == (if b.open.acceptsBlockSize then Some(s.blockSize) else None)
  {
    var armed := s.(audioData := [], overflowCount := 0, recording := true);
    assert ResolveDevice(armed, b) == ResolveDevice(s, b);
    match ResolveDevice(armed, b)
    case Err(_) =>
    case Ok(device) =>
      if ValidDevice(b, device, s.sampleRate, s.channels) && b.open.Opened? {
        var stream := Stream(device, s.sampleRate, s.channels, "int16",
          if b.open.acceptsBlockSize then Some(s.blockSize) else None);
        CallbacksAppend(armed.(stream := Some(stream)), b.startEvents);
      }
  }

  /** With no device set, no default and no listed device, `start()` raises and stays marked recording. */
  lemma StartWithoutDevice(s: RecorderState, b: Backend)
    requires b.available && !s.recording && s.deviceId.None? && DefaultDevice(b).None?
    requires b.devices == Ok([])
    ensures StartStep(s, b).1 == Fail(NoDeviceError)
    ensures StartStep(s, b).0.recording
  {
  }

  /**
   * The resolved device (set, default or first listed) failing validation
   * makes `start()` raise, leaving the recorder marked recording.
   */
  lemma StartInvalidDevice(s: RecorderState, b: Backend, device: int)
    requires b.available && !s.recording && Consistent(s) && ResolveDevice(s, b) == Ok(device)
    requires !ValidDevice(b, device, s.sampleRate, s.channels)
    ensures StartStep(s, b).1 == Fail(UnsupportedDeviceError(device, s.sampleRate))
    ensures StartStep(s, b).0.recording && StartStep(s, b).0.stream.None?
  {
    var armed := s.(audioData := [], overflowCount := 0, recording := true);
    assert ResolveDevice(armed, b) == ResolveDevice(s, b);
  }

  /**
   * `stream.start()` raising after the stream was created: `start()` raises
   * "Failed to start recording", but the stream stays set, the recorder stays
   * marked recording, and the blocks delivered before the raise stay buffered.
   */
  lemma StartFaultKeepsStream(s: RecorderState, b: Backend, device: int)
    requires b.available && !s.recording && Consistent(s) && ResolveDevice(s, b) == Ok(device)
    requires ValidDevice(b, device, s.sampleRate, s.channels) && b.open.Opened? && b.startFault.Some?
    ensures var (t, out) := StartStep(s, b);
      out == Fail(StartFailedError(b.startFault.value)) &&
      t.recording && t.stream.Some? && t.stream.value.device == device &&
      t.audioData == Blocks(b.startEvents) && t.overflowCount == OverflowEvents(b.startEvents)
  {
    var armed := s.(audioData := [], overflowCount := 0, recording := true);
    assert ResolveDevice(armed, b) == ResolveDevice(s, b);
    var stream := Stream(device, s.sampleRate, s.channels, "int16",
      if b.open.acceptsBlockSize then Some(s.blockSize) else None);
    CallbacksAppend(armed.(stream := Some(stream)), b.startEvents);
    CallbacksCountOverflows(armed.(stream := Some(stream)), b.startEvents);
  }

  /** Everything `start()` raises is an `AudioRecorderError`. */
  lemma StartRaisesRecorderErrors(s: RecorderState, b: Backend)
    ensures StartStep(s, b).1.Fail? ==> StartStep(s, b).1.error.kind == AudioRecorderError
  {
  }

  /** `stop()` when idle returns nothing and changes nothing. */
  lemma StopIdle(s: RecorderState, closeFault: Option<Error>)
    requires !s.recording
    ensures StopStep(s, closeFault) == (s, Ok([]))
  {
  }

  /** A second `stop()` is a no-op returning an empty array, whatever the first did. */
  lemma StopTwice(s: RecorderState, f1: Option<Error>, f2: Option<Error>)
    requires Consistent(s)
    ensures var (t, _) := StopStep(s, f1);
      StopStep(t, f2) == (t, Ok([])) && !t.recording && t.stream.None?
  {
  }

  /** `stop()` while recording returns every buffered block joined in arrival order. */
  lemma StopReturnsBuffer(s: RecorderState, closeFault: Option<Error>)
    requires s.recording && (s.stream.None? || closeFault.None?)
    ensures StopStep(s, closeFault) == (s.(recording := false, stream := None), Ok(Concat(s.audioData)))
  {
  }

  /** `n` samples, all equal to `v`. */
  function Filled(n: nat, v: Int16): (r: seq<Int16>)
    ensures |r| == n && forall j :: 0 <= j < n ==> r[j] == v
  {
    seq(n, _ => v)
  }

  /** Callbacks all delivering `n` samples of value `v` join into `n` samples of `v` per callback. */
  lemma {:induction false} UniformBlocksJoin(evs: seq<CallbackEvent>, n: nat, v: Int16)
    requires forall i :: 0 <= i < |evs| ==> evs[i].indata == Some(Int16Array(Filled(n, v)))
    ensures var all := Concat(Blocks(evs));
      |all| == |evs| * n && forall j :: 0 <= j < |all| ==> all[j] == v
  {
    if evs != [] {
      var init := evs[..|evs| - 1];
      assert forall i :: 0 <= i < |init| ==> init[i] == evs[i];
      UniformBlocksJoin(init, n, v);
      assert Blocks(evs) == Blocks(init) + [Filled(n, v)];
      ConcatAppend(Blocks(init), Filled(n, v));
    }
  }

  /**
   * The mocked recording: a start whose stream delivers three callbacks of
   * 160 mono int16 samples of 1234 each, followed by a clean stop, returns
   * a non-empty int16 array of those 480 samples.
   */
  lemma MockedRecording(s: RecorderState, b: Backend)
    requires b.available && !s.recording && Consistent(s) && StartStep(s, b).1.Pass?
    requires |b.startEvents| == 3
    requires forall i :: 0 <= i < 3 ==> b.startEvents[i] == CallbackEvent(Some(Int16Array(Filled(160, 1234))), NoStatus)
    ensures var (t, r) := StopStep(StartStep(s, b).0, None);
      r.Ok? && |r.value| == 480 && (forall j :: 0 <= j < |r.value| ==> r.value[j] == 1234) &&
      !t.recording && t.stream.None?
  {
    StartFromIdle(s, b);
    UniformBlocksJoin(b.startEvents, 160, 1234);
  }

  /** Every operation keeps the invariant. */
  lemma OperationsKeepConsistent(s: RecorderState, b: Backend, ev: CallbackEvent, f: Option<Error>)
    requires Consistent(s)
    ensures Consistent(Callback(s, ev))
    ensures Consistent(StartStep(s, b).0)
    ensures Consistent(StopStep(s, f).0)
  {
    if b.available && !s.recording {
      StartFromIdle(s, b);
    }
  }

  // ---------------------------------------------------------------------
  // The class

  class AudioRecorder {
    const sampleRate: int
    const blockSize: int
    const channels: int
    const dtype: string
    var deviceId: Option<int>
    var stream: Option<Stream>
    var recording: bool
    var audioData: seq<seq<Int16>>
    var overflowCount: nat

    function State(): RecorderState
      reads this
    {
      RecorderState(sampleRate, blockSize, channels, deviceId, stream, recording, audioData, overflowCount)
    }

    ghost predicate Valid()
      reads this
    {
      Consistent(State()) && dtype == "int16"
    }

    constructor(sampleRate: int := 16000, blockSize: int := 8000, channels: int := 1)
      ensures Valid() && dtype == "int16"
      ensures State() == Initial(sampleRate, blockSize, channels)
    {
      this.sampleRate := sampleRate;
      this.blockSize := blockSize;
      this.channels := channels;
      dtype := "int16";
      deviceId := None;
      stream := None;
      recording := false;
      audioData := [];
      overflowCount := 0;
    }

    /** `list_devices()`: one entry per queried device, numbered by position. */
    method ListDevices(b: Backend) returns (r: Result<seq<DeviceInfo>, Error>)
      ensures r == DeviceList(b)
    {
      if !b.available {
        return Ok([]);
      }
      if b.devices.Err? {
        return Err(b.devices.error);
      }
      var devices := b.devices.value;
      var out: seq<DeviceInfo> := [];
      for idx := 0 to |devices|
        invariant |out| == idx
        invariant forall i :: 0 <= i < idx ==> out[i] == DescribeDevice(i, devices[i])
      {
        out := out + [DescribeDevice(idx, devices[idx])];
      }
      assert out == DeviceList(b).value;
      r := Ok(out);
    }

    method SetDevice(id: int)
      requires Valid()
      modifies this
      ensures Valid()
      ensures State() == old(State()).(deviceId := Some(id))
    {
      deviceId := Some(id);
    }

    method AudioCallback(ev: CallbackEvent)
      requires Valid()
      modifies this
      ensures Valid()
      ensures State() == Callback(old(State()), ev)
    {
      if IsOverflow(ev.status) {
        overflowCount := overflowCount + 1;
      }
      if ev.indata.None? {
        return;
      }
      var arr := AsInt16(ev.indata.value);
      if recording {
        audioData := audioData + [arr];
      }
    }

    /** The stream delivering `evs`, one callback after another. */
    method DeliverCallbacks(evs: seq<CallbackEvent>)
      requires Valid()
      modifies this
      ensures Valid()
      ensures State() == Callbacks(old(State()), evs)
    {
      for k := 0 to |evs|
        invariant Valid()
        invariant State() == Callbacks(old(State()), evs[..k])
      {
        assert evs[..k + 1][..k] == evs[..k];
        AudioCallback(evs[k]);
      }
      assert evs[..|evs|] == evs;
    }

    /** `_validate_device(id)`. */
    method ValidateDevice(b: Backend, id: int) returns (ok: bool)
      ensures ok == ValidDevice(b, id, sampleRate, channels)
    {
      if !b.available {
        return false;
      }
      match b.probe(id, sampleRate, channels)
      case ProbeOk => return true;
      case ProbePortAudioError => return false;
      case ProbeOtherError =>
        var listed := ListDevices(b);
        if listed.Err? {
          return false;
        }
        var ds := listed.value;
        ok := false;
        var i := 0;
        while i < |ds| && !ok
          invariant 0 <= i <= |ds|
          invariant ok <==> exists j :: 0 <= j < i && ds[j].id == id
        {
          ok := ds[i].id == id;
          i := i + 1;
        }
    }

    /** `start()`. */
    method Start(b: Backend) returns (out: Outcome<Error>)
      requires Valid()
      modifies this
      ensures Valid()
      ensures (State(), out) == StartStep(old(State()), b)
    {
      OperationsKeepConsistent(State(), b, CallbackEvent(None, NoStatus), None);
      if !b.available {
        return Fail(NoBackendError);
      }
      if recording {
        return Pass;
      }
      audioData := [];
      overflowCount := 0;
      recording := true;

      var device := if deviceId.Some? then deviceId else DefaultDevice(b);
      if device.None? {
        var listed := ListDevices(b);
        if listed.Err? || |listed.value| == 0 {
          return Fail(NoDeviceError);
        }
        device := Some(listed.value[0].id);
      }

      var ok := ValidateDevice(b, device.value);
      if !ok {
        return Fail(UnsupportedDeviceError(device.value, sampleRate));
      }

      match b.open
      case OpenRaised(cause) =>
        return Fail(StartFailedError(cause));
      case Opened(withBlockSize) =>
        stream := Some(Stream(device.value, sampleRate, channels, dtype,
          if withBlockSize then Some(blockSize) else None));
      DeliverCallbacks(b.startEvents);
      if b.startFault.Some? {
        return Fail(StartFailedError(b.startFault.value));
      }
      return Pass;
    }

    /** `stop()`. */
    method Stop(closeFault: Option<Error>) returns (r: Result<seq<Int16>, Error>)
      requires Valid()
      modifies this
      ensures Valid()
      ensures (State(), r) == StopStep(old(State()), closeFault)
    {
      if !recording {
        return Ok([]);
      }
      recording := false;
      var fault := if stream.Some? then closeFault else None;
      stream := None;
      if fault.Some? {
        return Err(fault.value);
      }
      r := Ok(Concat(audioData));
    }

    function IsRecording(): (r: bool)
      reads this
      ensures r == State().recording
    {
      recording
    }

    function GetOverflowCount(): (n: nat)
      reads this
      ensures n == State().overflowCount
    {
      overflowCount
    }
  }
}
