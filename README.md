# Voice capture, transcription and translation core — a Dafny model

This project models the core of a small desktop dictation tool. The tool
records microphone audio as 16-bit mono samples, stops on request, and
transcribes the samples offline with a Vosk recognizer that is fed in
chunks of 4000 samples. It reports each step as a Qt signal, can
translate the text through a chain of web engines, and takes WAV or raw
PCM payloads from a named pipe. A global F8 hotkey (or a widget shortcut)
toggles recording, and resource paths resolve against the project root.

One Dafny module per source file:

| module | file | form |
|---|---|---|
| `Common` | — | shared `Option`, `Result`, `Outcome`, the exception classes as `ErrorKind`, `str(int)`, `Concat` |
| `Pcm` | — | int16 samples, bytes, numpy's integer cast, little-endian `tobytes`/`frombuffer`, the 4000-sample chunking |
| `Recorder` | src/core/recorder.py | state value with spec functions, plus class `AudioRecorder` proved against them |
| `Transcription` | src/core/transcriber.py | spec functions, plus classes `Recognizer` and `Transcriber` and the chunk loop `FeedChunks` |
| `Signals` | src/utils/signals.py | the signal names as a datatype; class `SignalHub` records emissions in order |
| `Workers` | src/core/workers.py | `RunSpec` (a session as a function), plus class `RecordingWorker` with the poll loop |
| `Translation` | src/core/translator.py | `str.strip`, the language table, the engine fallback, plus class `Translator` |
| `FifoConsumer` | src/core/fifo_consumer.py | payload extraction and the per-payload decision, as functions |
| `Hotkeys` | src/utils/hotkeys.py (second `HotkeyManager`) | state value with spec functions, plus class `HotkeyManager` |
| `Paths` | src/utils/paths.py | POSIX `pathlib` paths as (absolute, components), and the three path functions |

Foreign libraries are parameters of the model. Each one is a value that
says what the library would return or raise:

- sounddevice/PortAudio is `Recorder.Backend`;
- Vosk's `Model` and `KaldiRecognizer` are `Transcription.Vosk`;
- the `translators` package is the `call` function given to `Translate`;
- Python's `wave` reader is `parseWav`;
- `keyboard` and `QShortcut` are `Hotkeys.HotkeyEnv`;
- the interpreter's `sys.frozen`, `sys._MEIPASS` and `__file__` are `Paths.Runtime`.

The worker's thread is replaced by a schedule. `Workers.Poll` lists, for
each 50 ms sleep, the callbacks that arrive and whether `stop_recording`
was called.

Behaviour of the code that the model keeps:

- `list_devices` lets an exception from `query_devices` propagate.
- `stop()` returns the joined blocks but does not clear `_audio_data`;
  the next `start` clears it.
- `load_model` may be called again and replaces the model.
- `start` sets `_recording` before it resolves the device. A `start` that
  raises after that and before a stream exists (no device, a device
  failing validation, `InputStream` raising) leaves the recorder marked
  recording with no stream. `RecordingWorker.run` does not undo this, and
  `reset` does not touch the recorder. The next `run` therefore finds
  `start` a no-op and ends in "No audio recorded"
  (`Workers.RetryAfterFailedStart`).
- When `stream.start()` itself raises, the stream stays set and the blocks
  delivered before the raise stay buffered. The next `run` again finds
  `start` a no-op, and its stop closes that stream and transcribes the
  kept blocks together with the new ones
  (`Workers.RetryAfterStreamStartFault`).
- The callback appends to the buffer without a lock.

## Model

| member | source | states |
|---|---|---|
| Pcm.Wrap16 | src/core/recorder.py:126-127 | numpy's integer cast to int16 keeps the value modulo 2^16, and any value already in range is unchanged |
| Pcm.AsInt16 | src/core/transcriber.py:88-96 | dtype normalisation keeps the length; int16 arrays stay as they are; other integer widths are cast element by element |
| Pcm.DecodeEncode | src/core/transcriber.py:141 | reading back the bytes of an int16 array gives the same samples |
| Pcm.EncodeDecode | src/core/transcriber.py:138-142 | an even-length byte string read as int16 and written back gives the same bytes |
| Pcm.EncodeAll | src/core/transcriber.py:106-108 | one byte string per chunk, each the `tobytes()` of its chunk |
| Pcm.ChunksConcat | src/core/transcriber.py:104-108 | the chunks, joined in order, are the input |
| Pcm.ChunkCount | src/core/transcriber.py:104-108 | there are ceil(n/4000) chunks for n samples |
| Pcm.ChunkAt | src/core/transcriber.py:104-108 | chunk k is the slice from 4000k to 4000k+4000, clipped; each chunk but the last has 4000 samples; the last has between 1 and 4000 |
| Pcm.FedBytesAreInput | src/core/transcriber.py:103-108 | the bytes fed to `AcceptWaveform`, joined, are exactly `arr.tobytes()` |
| Recorder.DescribeDevice | src/core/recorder.py:54-81 | an entry's id is its position; dict fields convert with fallbacks 0 and 0.0; a non-dict entry gets `str(d)` (or None), 0 channels and rate 0.0 |
| Recorder.DeviceList | src/core/recorder.py:45-82 | with no backend, the empty list; a raising query propagates; otherwise one entry per queried device, in order, with id = index |
| Recorder.DefaultDevice | src/core/recorder.py:87-97 | no backend or a raising lookup gives None; a pair gives its input member; a single value gives itself |
| Recorder.ValidDeviceFallback | src/core/recorder.py:137-158 | when the probe raises something other than a PortAudio error, a device is valid exactly when its id is an index of the device list |
| Recorder.ResolveDevice | src/core/recorder.py:173-188 | the set id wins, then the default device, then the first listed id; with none of them, "No audio input device found" |
| Recorder.CallbacksCountOverflows | src/core/recorder.py:107-116 | each overflow-flagged callback adds exactly 1 to the counter, recording or not; others add nothing |
| Recorder.CallbacksAppend | src/core/recorder.py:117-135 | callbacks append their blocks in arrival order exactly while recording; flag, stream, device and settings are untouched |
| Recorder.CallbacksJoin | src/core/recorder.py:107-135 | delivering two runs of callbacks one after the other equals delivering their concatenation |
| Recorder.CallbackIdle | src/core/recorder.py:107-135 | a callback while not recording changes only the overflow counter |
| Recorder.CallbackKeepsInt16 | src/core/recorder.py:117-135 | while recording, an int16 block is appended unchanged; a missing `indata` appends nothing |
| Recorder.StartWhileRecording | src/core/recorder.py:165-166 | `start` while recording changes nothing, buffer and counter included |
| Recorder.StartFromIdle | src/core/recorder.py:160-218 | `start` from idle leaves the recorder marked recording whatever happens; its buffer and counter hold only this session's callbacks; success implies an open stream |
| Recorder.StartPassOrigin | src/core/recorder.py:168-216 | a successful start is the cleared, armed recorder with its new stream, after the callbacks that arrived while starting |
| Recorder.StartOpensResolvedDevice | src/core/recorder.py:173-216 | the stream opens on the resolved and validated device with the recorder's rate and channels, as int16; block size is passed only when accepted |
| Recorder.StartWithoutDevice | src/core/recorder.py:175-188 | no set, default or listed device makes `start` raise "No audio input device found" and stay marked recording |
| Recorder.StartInvalidDevice | src/core/recorder.py:172-194 | the resolved device (set, default or first listed) failing validation makes `start` raise the unsupported-rate error, still marked recording and without a stream |
| Recorder.StartFaultKeepsStream | src/core/recorder.py:196-218 | `stream.start()` raising makes `start` raise "Failed to start recording" while the stream stays set on the resolved device, the recorder stays marked recording, and the blocks and overflows delivered so far are kept |
| Recorder.StartRaisesRecorderErrors | src/core/recorder.py:160-218 | everything `start` raises is an `AudioRecorderError` |
| Recorder.StopIdle | src/core/recorder.py:220-223 | `stop` when idle returns an empty array and changes nothing |
| Recorder.StopTwice | src/core/recorder.py:220-236 | after any `stop`, a second `stop` returns an empty array and changes nothing |
| Recorder.StopReturnsBuffer | src/core/recorder.py:224-236 | `stop` while recording clears the flag and the stream and returns all buffered blocks joined in append order |
| Recorder.UniformBlocksJoin | src/core/recorder.py:229-235 | k callbacks of n samples equal to v join into k·n samples, all equal to v |
| Recorder.MockedRecording | tests/test_recorder_mock.py:14-52 | three 160-sample int16 callbacks of 1234 during start, then a clean stop, return 480 samples all equal to 1234 |
| Recorder.OperationsKeepConsistent | src/core/recorder.py:160-236 | callback, start and stop keep the invariant that a stream exists only while recording |
| Recorder.AudioRecorder.constructor | src/core/recorder.py:31-43 | not recording, no stream or device, empty buffer, counter 0, dtype int16, with the given (default 16000/8000/1) settings |
| Recorder.AudioRecorder.ListDevices | src/core/recorder.py:45-82 | the loop builds exactly `DeviceList` |
| Recorder.AudioRecorder.SetDevice | src/core/recorder.py:84-85 | only the device id changes |
| Recorder.AudioRecorder.AudioCallback | src/core/recorder.py:107-135 | the new state is `Callback` of the old |
| Recorder.AudioRecorder.DeliverCallbacks | src/core/recorder.py:212-216 | callbacks delivered one by one give the state `Callbacks` describes |
| Recorder.AudioRecorder.ValidateDevice | src/core/recorder.py:137-158 | the answer is `ValidDevice`; the fallback search loop finds a listed id exactly when one exists |
| Recorder.AudioRecorder.Start | src/core/recorder.py:160-218 | new state and outcome are `StartStep` of the old state |
| Recorder.AudioRecorder.Stop | src/core/recorder.py:220-236 | new state and result are `StopStep` of the old state; a close fault propagates after the stream is dropped |
| Recorder.AudioRecorder.IsRecording | src/core/recorder.py:238-240 | the recording flag |
| Recorder.AudioRecorder.GetOverflowCount | src/core/recorder.py:242-244 | the overflow counter |
| Transcription.ParseReplies | src/core/transcriber.py:110-122 | the final result's text, with a missing text as ""; `Result()` only when the final result fails; both failing raise "Failed to parse recognition result" |
| Transcription.FirstFault | src/core/transcriber.py:104-108 | no fault exactly when every chunk is accepted |
| Transcription.WrapFeedError | src/core/transcriber.py:140-144 | a result passes through; any error is re-raised as a `TranscriberError` prefixed "feed_pcm failed: " |
| Transcription.NotLoadedRaises | src/core/transcriber.py:75-76 | without a model, `transcribe` and `feed_pcm` raise "Model not loaded", empty input included (lines 136-137 for `feed_pcm`) |
| Transcription.EmptyInputIgnoresRecognizer | src/core/transcriber.py:80-86 | None or empty audio gives "" whatever the recognizer would do; `feed_pcm(b"")` gives "" |
| Transcription.ErrorsAreTyped | src/core/transcriber.py:124-127 | everything `transcribe` and `feed_pcm` raise is a `TranscriberError` |
| Transcription.FeedIsInput | src/core/transcriber.py:92-108 | int16 input reaches the recognizer unchanged: the fed bytes, joined, are its `tobytes()` |
| Transcription.FeedPcmSeesBytes | src/core/transcriber.py:138-142 | `feed_pcm` of an even, non-empty byte string answers what the recognizer answers for exactly those bytes |
| Transcription.FeedPcmHelloWorld | tests/test_transcriber_inject.py:24-44 | non-empty PCM through a recognizer that echoes "hello world" transcribes to "hello world" |
| Transcription.NoFaultAcceptsAll | src/core/transcriber.py:104-108 | when no chunk is refused, the recognizer has accepted every chunk |
| Transcription.FeedChunks | src/core/transcriber.py:104-108 | the chunk loop feeds the chunks in order and stops at the first raise: the fault is the first refused chunk's cause, and the accepted bytes are the chunks before it |
| Transcription.Transcriber.constructor | src/core/transcriber.py:35-40 | an empty or missing path means the default model directory; no model loaded |
| Transcription.Transcriber.LoadModel | src/core/transcriber.py:42-55 | Vosk missing or a failed load raise a `TranscriberError` and keep the old model; a successful load stores it and `is_model_loaded` becomes true |
| Transcription.Transcriber.IsModelLoaded | src/core/transcriber.py:57-59 | true exactly when a model is held |
| Transcription.Transcriber.Transcribe | src/core/transcriber.py:61-127 | the result is `TranscribeSpec`; a recognizer is built only for non-empty input and is fed the accepted prefix of the chunks |
| Transcription.Transcriber.FeedPcm | src/core/transcriber.py:129-144 | the result is `FeedPcmSpec`: odd lengths raise; bytes are read as little-endian int16 and transcribed |
| Signals.CountTerminal | src/utils/signals.py:24-26 | counts result and error emissions; zero exactly when there is none |
| Signals.SignalHub.Emit | src/utils/signals.py:17-37 | an emission is appended to what listeners received |
| Workers.ErrorMessage | src/core/workers.py:72-77 | the message ends with the exception's text; its prefix is "Recording error: ", "Transcription error: " or "Unexpected error: " exactly by class |
| Workers.TailReportsOnce | src/core/workers.py:65-70 | `transcription_started` is followed by exactly one result or error |
| Workers.AfterStopReportsOnce | src/core/workers.py:60-70 | after `recording_stopped`, exactly one result or error follows |
| Workers.RunReportsOnce | src/core/workers.py:39-77 | every run opens with `recording_started` and "Recording...", and emits exactly one result or error |
| Workers.StartFailureNeverStops | src/core/workers.py:40-73 | a raising `start` is reported as "Recording error: …"; nothing is stopped or transcribed; the flag and stored audio are kept |
| Workers.StopBeforeTranscription | src/core/workers.py:45-68 | `recording_stopped` only after the flag was seen and the recorder stopped; `transcription_started` only after `recording_stopped` |
| Workers.EmptyAudioSkipsTranscriber | src/core/workers.py:56-62 | empty audio emits `recording_stopped` then "No audio recorded"; the run is the same whatever transcriber is used |
| Workers.StopFailureReported | src/core/workers.py:55-58 | a fault while closing the stream is reported, `recording_stopped` is never emitted and the stored audio is kept |
| Workers.SuccessfulRun | src/core/workers.py:39-70 | a successful run emits exactly the seven signals in order and stores the audio |
| Workers.SessionAudio | src/core/workers.py:43-57 | a clean session stores every block delivered from stream start to stop, in order; its counter counts that session's overflows |
| Workers.RetryAfterFailedStart | src/core/workers.py:43-62 | after a start that raised before a stream existed, the recorder stays marked recording with no stream, and the next run ends in "No audio recorded" |
| Workers.RetryAfterStreamStartFault | src/core/workers.py:43-62 | after `stream.start()` raised, the recorder keeps its stream; the next run stops it, stores the kept blocks followed by the new ones, and transcribes them when there are any |
| Workers.RecordingWorker.constructor | src/core/workers.py:25-31 | a fresh default recorder, no stop requested, no audio |
| Workers.RecordingWorker.StopRecording | src/core/workers.py:79-89 | the flag is set and nothing else changes, so repeating it changes nothing |
| Workers.RecordingWorker.Reset | src/core/workers.py:91-98 | the flag is cleared and the audio forgotten; the recorder is untouched |
| Workers.RecordingWorker.Run | src/core/workers.py:33-77 | emits exactly `RunSpec`'s trace and leaves the recorder, flag and audio as `RunSpec` says |
| Workers.RecordingWorker.WaitForStop | src/core/workers.py:45-53 | the loop delivers each sleep's arrivals until the flag is seen set |
| Workers.RecordingWorker.FinishRun | src/core/workers.py:55-77 | from `stop()` to the end, it emits and stores what `AfterWait` says |
| Translation.StripLeft | src/core/translator.py:53 | drops exactly the leading whitespace |
| Translation.StripRight | src/core/translator.py:53 | drops exactly the trailing whitespace |
| Translation.StripEmptyIffBlank | src/core/translator.py:53-54 | `text.strip() == ""` exactly when the text is whitespace only |
| Translation.CodeOf | src/core/translator.py:58-59 | a name has a code exactly when the table lists it, and the code is its pair's |
| Translation.ResolveTargetExact | src/core/translator.py:56-65 | a friendly name resolves to its code, a listed code to itself, nothing else resolves |
| Translation.BlankShortCircuits | src/core/translator.py:53-54 | blank text gives "" before any language check or engine call |
| Translation.UnsupportedTargetRaises | src/core/translator.py:64-65 | an unresolvable target raises "Unsupported target language: …" before any engine call |
| Translation.FirstAnswerWins | src/core/translator.py:69-85 | the first engine that answers gives the result and is recorded; later engines are not consulted |
| Translation.AllEnginesFail | src/core/translator.py:86-92 | when every engine raises, the error carries the last cause and no engine is recorded |
| Translation.GoogleThenBing | src/core/translator.py:67-92 | google's answer, else bing's, else the error with bing's cause |
| Translation.ErrorsAreTyped | src/core/translator.py:50-92 | everything `translate` raises is a `TranslatorError` |
| Translation.TryEnginesTyped | src/core/translator.py:67-92 | a failed fallback names no engine; a successful one names one of the engines tried |
| Translation.Translator.constructor | src/core/translator.py:39-40 | no engine recorded |
| Translation.Translator.Translate | src/core/translator.py:42-92 | the result is `TranslateSpec`; the engine that answered is recorded, otherwise the record is unchanged |
| Translation.Translator.GetLastEngine | src/core/translator.py:94-95 | the recorded engine |
| Translation.Translator.GetAvailableLanguages | src/core/translator.py:97-99 | the friendly names, one per table entry, in table order |
| Translation.AvailableLanguages | src/core/translator.py:27-35 | exactly English, Spanish, French, German, Italian, Japanese, Chinese |
| FifoConsumer.EmptyYieldsEmpty | src/core/fifo_consumer.py:22-23 | an empty buffer yields empty bytes, and an empty read is skipped |
| FifoConsumer.NonRiffPassesThrough | src/core/fifo_consumer.py:25-38 | a buffer not starting with "RIFF" comes back unchanged |
| FifoConsumer.ShortIsRaw | src/core/fifo_consumer.py:26 | buffers shorter than four bytes are never taken for WAV |
| FifoConsumer.RiffFormat | src/core/fifo_consumer.py:26-35 | a RIFF buffer is accepted exactly when it is 16-bit mono and then yields its frames; otherwise it raises the unsupported-format error |
| FifoConsumer.ForwardOnlyExtracted | src/core/fifo_consumer.py:58-71 | a payload is forwarded exactly when it is non-empty and extracts, and then as the extracted PCM; empty reads are skipped; parse failures are reported |
| Hotkeys.FreshIsEmpty | src/utils/hotkeys.py:173-178 | a fresh manager holds no module, handler or shortcut |
| Hotkeys.GlobalHotkeyRegistered | src/utils/hotkeys.py:207-211 | with `keyboard` and a working `add_hotkey`, module and handler are kept and no shortcut is made |
| Hotkeys.ShortcutFallbackRegistered | src/utils/hotkeys.py:186-199 | without a global hotkey but with a widget, an F8 shortcut on that widget is connected to the callback and enabled |
| Hotkeys.NothingWithoutWidget | src/utils/hotkeys.py:186-205 | without a global hotkey and without a widget, nothing changes |
| Hotkeys.AddHotkeyFailureFallsBack | src/utils/hotkeys.py:207-226 | a raising `add_hotkey` keeps both keyboard fields None; a shortcut appears only with a widget and a Qt that builds one |
| Hotkeys.HalfBuiltShortcutKept | src/utils/hotkeys.py:195-201 | a raise while connecting leaves the shortcut stored, unconnected and never enabled |
| Hotkeys.UnregisterReleasesAll | src/utils/hotkeys.py:228-244 | the stored handler is removed and the stored shortcut disabled, in that order; all three fields end None whatever those calls raise |
| Hotkeys.UnregisterTwice | src/utils/hotkeys.py:228-244 | a second `unregister_all` calls nothing and changes nothing |
| Hotkeys.OperationsKeepPaired | src/utils/hotkeys.py:180-244 | both operations keep the invariant that a module is held exactly when a handler is |
| Hotkeys.HotkeyManager.constructor | src/utils/hotkeys.py:173-178 | the state is `Fresh(widget)` |
| Hotkeys.HotkeyManager.RegisterF8 | src/utils/hotkeys.py:180-226 | the new state is `RegisterStep` of the old |
| Hotkeys.HotkeyManager.BuildShortcut | src/utils/hotkeys.py:191-199 | the shortcut is stored as built, up to the step that raises |
| Hotkeys.HotkeyManager.UnregisterAll | src/utils/hotkeys.py:228-244 | the calls made and the new state are `UnregisterStep` of the old |
| Paths.Parent | src/utils/paths.py:26-29 | the parent drops the last component; "." and "/" are their own parents |
| Paths.Join | src/utils/paths.py:46 | `p / s` appends the components of s, and an absolute s replaces p |
| Paths.PathOfWellFormed | src/utils/paths.py:24 | a parsed path has no empty, "." or slash-holding component |
| Paths.RoundTrip | src/utils/paths.py:24 | a well-formed path rendered with `str` and parsed again is the same path |
| Paths.GetProjectRoot | src/utils/paths.py:12-29 | a frozen build with a non-empty `_MEIPASS` uses it; otherwise three levels above the module file |
| Paths.SourceRootDropsThree | src/utils/paths.py:27-29 | outside a frozen build, the root is the module path without its last three components |
| Paths.FrozenFallback | src/utils/paths.py:25-26 | a frozen build without a usable `_MEIPASS` gets the same root as a script run |
| Paths.ModelPathShape | src/utils/paths.py:32-46 | the model directory is root + ["stt_models", name] |
| Paths.DefaultModelPath | src/utils/paths.py:32-46 | the default model is root + ["stt_models", "vosk-model-pt-fb-v0.1.1-20220516_2113"] |
| Paths.AssetsPathShape | src/utils/paths.py:49-55 | the assets directory is root + ["assets"] |

## Left out

- Floating-point sample conversion (clip and scale by 32767) in the recorder callback and in `transcribe`: sample arrays here are integers only.
- The unused `_buffer` field of `AudioRecorder`, and the `device_id` and `sample_rate` properties, which only read fields.
- `ndarray` shapes: `indata` is taken as already flattened to mono samples, so the `copy()` versus `flatten()` fallback of the callback is not distinguished.
- `get_default_device` for an empty `(in, out)` tuple, or for a value `int()` rejects: both are caught and give None in the code; the model's default setting is already an optional integer.
- Threads, `QMutex` and `msleep(50)`: the stop flag is a plain field. Between two looks at the flag, arrivals come from a schedule.
- Workers.RecordingWorker.Run: requires that a stop eventually comes once `start` succeeds. Without one the source polls forever, and a terminating model cannot describe that.
- The `listen_and_forward` loop: creating the FIFO, blocking reads, printing, sleeping and `KeyboardInterrupt`. Only its decision for one payload is modelled. The `worker.process_pcm` it calls is not defined by `RecordingWorker`, so what forwarding does is not modelled.
- Logging in all files.
- The first `HotkeyManager` in src/utils/hotkeys.py (lines 16-157): the second definition rebinds the name, so the first is dead code.
- Hotkeys.RegisterStep: `add_hotkey` is assumed to return a handler, never None; a None handler with a stored module would break `Paired`.
- The `isinstance(text, str)` check of `translate`: in the model `text` is always a string.
- Engine results other than strings and dicts: an engine result that is neither a string nor a dict is returned by the code as is; the model has only strings and dict renderings.
- Paths.PathOf: POSIX `pathlib` keeps a leading "//" as a distinct root; the model treats it like "/".
- A ghost record of the recognizer's input: `Transcription.Recognizer.accepted` is an ordinary field. The recognizer's final answer depends on what it was fed.
- Vosk's JSON replies are reduced to their `text` entry, taken to be a string. A `text` that is missing and one that is present but falsy both give "" and are not told apart; a truthy `text` that is not a string is not modelled. A reply that is not JSON, or not a mapping so that `.get` raises, is `ResultUnreadable`.
- The user interface (main window, floating button, tray icon, styles, drag helpers), src/main.py, the scripts and the tests. Two tests appear only as scenario lemmas: `Recorder.MockedRecording` and `Transcription.FeedPcmHelloWorld`.
