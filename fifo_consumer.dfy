/**
 * Payload handling of the FIFO consumer (src/core/fifo_consumer.py): a
 * payload is either a complete WAV file, whose 16-bit mono frames are
 * taken, or raw 16-bit PCM passed through as it is.
 *
 * Python's `wave` reader is a parameter `parseWav` giving, for a buffer,
 * its sample width, channel count and frame bytes, or what it raised.
 */
module FifoConsumer {
  import opened Common
  import opened Pcm

  /** What `wave.open(...)` and its readers yield for a buffer. */
  datatype WavParse =
    | WavOk(sampWidth: int, channels: int, frames: seq<Byte>)
    | WavRaised(className: string, cause: string)

  /** `buf[:4] == b"RIFF"`: false for buffers shorter than four bytes. */
  predicate IsRiff(buf: seq<Byte>)
  {
    |buf| >= 4 && buf[..4] == [0x52, 0x49, 0x46, 0x46]
  }

  function UnsupportedWavError(sampWidth: int, channels: int): Error
  {
    Error(Builtin("RuntimeError"), "Unsupported WAV format: sampwidth=" + IntToString(sampWidth)
      + ", channels=" + IntToString(channels) + "; expected 16-bit mono")
  }

  /** `_extract_pcm_from_buf(buf)`. */
  function ExtractPcm(buf: seq<Byte>, parseWav: seq<Byte> -> WavParse): Result<seq<Byte>, Error>
  {
    if buf == [] then Ok([])
    else if IsRiff(buf) then
      match parseWav(buf)
      case WavRaised(cls, cause) => Err(Error(Builtin(cls), cause))
      case WavOk(width, channels, frames) =>
        if width != 2 || channels != 1 then Err(UnsupportedWavError(width, channels))
        else Ok(frames)
    else Ok(buf)
  }

  /** What `listen_and_forward` does with one payload read from the pipe. */
  datatype Action = Skip | ParseFailed(reason: string) | Forward(pcm: seq<Byte>)

  function PayloadAction(buf: seq<Byte>, parseWav: seq<Byte> -> WavParse): Action
  {
    if buf == [] then Skip
    else match ExtractPcm(buf, parseWav)
      case Err(e) => ParseFailed(e.message)
      case Ok(pcm) => Forward(pcm)
  }

  // ---------------------------------------------------------------------
  // Properties

  /** The empty buffer yields empty bytes, whatever the WAV reader would say. */
  lemma EmptyYieldsEmpty(parseWav: seq<Byte> -> WavParse)
    ensures ExtractPcm([], parseWav) == Ok([])
    ensures PayloadAction([], parseWav) == Skip
  {
  }

  /** A buffer not starting with "RIFF", short ones included, is raw PCM and comes back unchanged. */
  lemma {:induction false} NonRiffPassesThrough(buf: seq<Byte>, parseWav: seq<Byte> -> WavParse)
    requires !IsRiff(buf)
    ensures ExtractPcm(buf, parseWav) == Ok(buf)
  {
  }

  /** Buffers shorter than four bytes are never taken for WAV files. */
  lemma ShortIsRaw(buf: seq<Byte>)
    requires |buf| < 4
    ensures !IsRiff(buf)
  {
  }

  /** A RIFF buffer is taken exactly when it is 16-bit mono, and then yields its frames. */
  lemma {:induction false} RiffFormat(buf: seq<Byte>, parseWav: seq<Byte> -> WavParse)
    requires IsRiff(buf) && parseWav(buf).WavOk?
    ensures var w := parseWav(buf);
      ExtractPcm(buf, parseWav).Ok? <==> w.sampWidth == 2 && w.channels == 1
    ensures var w := parseWav(buf);
      w.sampWidth == 2 && w.channels == 1 ==> ExtractPcm(buf, parseWav) == Ok(w.frames)
    ensures var w := parseWav(buf);
      !(w.sampWidth == 2 && w.channels == 1) ==>
        ExtractPcm(buf, parseWav) == Err(UnsupportedWavError(w.sampWidth, w.channels))
  {
  }

  /** Only successfully extracted PCM is forwarded; an empty read is skipped, a parse failure is reported. */
  lemma {:induction false} ForwardOnlyExtracted(buf: seq<Byte>, parseWav: seq<Byte> -> WavParse)
    ensures PayloadAction(buf, parseWav).Forward? <==> buf != [] && ExtractPcm(buf, parseWav).Ok?
    ensures PayloadAction(buf, parseWav).Forward? ==>
      PayloadAction(buf, parseWav).pcm == ExtractPcm(buf, parseWav).value
    ensures PayloadAction(buf, parseWav).Skip? <==> buf == []
    ensures PayloadAction(buf, parseWav).ParseFailed? <==> ExtractPcm(buf, parseWav).Err?
  {
  }
}
