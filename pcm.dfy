/**
 * Canonical audio representation: signed 16-bit samples, raw bytes, the
 * integer-to-int16 cast numpy performs, little-endian PCM encoding
 * (`ndarray.tobytes()` / `np.frombuffer(..., dtype=np.int16)`) and the
 * 4000-sample chunking the transcriber feeds to the recognizer.
 */
module Pcm {
  import opened Common

  newtype Int16 = x: int | -0x8000 <= x < 0x8000
  newtype Byte = x: int | 0 <= x < 0x100

  /** Samples per `AcceptWaveform` call (src/core/transcriber.py:105). */
  const ChunkSize: nat := 4000

  /** numpy's `astype(np.int16)` of an integer: keep the low 16 bits, two's complement. */
  function Wrap16(x: int): (r: Int16)
    ensures (r as int - x) % 0x10000 == 0
    ensures -0x8000 <= x < 0x8000 ==> r as int == x
  {
    ((x + 0x8000) % 0x10000 - 0x8000) as Int16
  }

  /**
   * An integer ndarray as it reaches the recorder or the transcriber,
   * already flattened: int16 samples, or integers of some other width.
   * (Floating-point arrays are not part of this model.)
   */
  datatype SampleArray = Int16Array(samples: seq<Int16>) | IntArray(values: seq<int>)

  function Size(a: SampleArray): nat
  {
    match a
    case Int16Array(s) => |s|
    case IntArray(v) => |v|
  }

  /** The array after the dtype normalisation: int16 unchanged, other widths cast. */
  function AsInt16(a: SampleArray): (r: seq<Int16>)
    ensures |r| == Size(a)
    ensures a.Int16Array? ==> r == a.samples
    ensures a.IntArray? ==> forall i :: 0 <= i < |r| ==> r[i] == Wrap16(a.values[i])
  {
    match a
    case Int16Array(s) => s
    case IntArray(v) => seq(|v|, i requires 0 <= i < |v| => Wrap16(v[i]))
  }

  // ---------------------------------------------------------------------
  // Little-endian encoding

  function EncodeSample(x: Int16): (b: seq<Byte>)
    ensures |b| == 2
  {
    var u := (x as int) % 0x10000;
    [(u % 0x100) as Byte, (u / 0x100) as Byte]
  }

  function DecodeSample(lo: Byte, hi: Byte): Int16
  {
    var u := lo as int + 0x100 * hi as int;
    (if u >= 0x8000 then u - 0x10000 else u) as Int16
  }

  /** `tobytes()` of an int16 array: two bytes per sample, low byte first. */
  function Encode(s: seq<Int16>): (b: seq<Byte>)
    ensures |b| == 2 * |s|
  {
    if s == [] then [] else EncodeSample(s[0]) + Encode(s[1..])
  }

  /** `np.frombuffer(b, dtype=np.int16)`; numpy refuses a buffer of odd length. */
  function Decode(b: seq<Byte>): (s: seq<Int16>)
    requires |b| % 2 == 0
    ensures 2 * |s| == |b|
  {
    if b == [] then [] else [DecodeSample(b[0], b[1])] + Decode(b[2..])
  }

  lemma SampleRoundTrip(x: Int16)
    ensures DecodeSample(EncodeSample(x)[0], EncodeSample(x)[1]) == x
  {
  }

  lemma BytesRoundTrip(lo: Byte, hi: Byte)
    ensures EncodeSample(DecodeSample(lo, hi)) == [lo, hi]
  {
  }

  /** Reading back what `tobytes()` wrote gives the samples back. */
  lemma {:induction false} DecodeEncode(s: seq<Int16>)
    ensures Decode(Encode(s)) == s
  {
    if s != [] {
      var b := Encode(s);
      SampleRoundTrip(s[0]);
      assert b[2..] == Encode(s[1..]);
      DecodeEncode(s[1..]);
    }
  }

  /** Writing out what `frombuffer` read gives the bytes back. */
  lemma {:induction false} EncodeDecode(b: seq<Byte>)
    requires |b| % 2 == 0
    ensures Encode(Decode(b)) == b
  {
    if b != [] {
      BytesRoundTrip(b[0], b[1]);
      EncodeDecode(b[2..]);
      assert b == [b[0], b[1]] + b[2..];
    }
  }

  lemma {:induction false} EncodeJoin(s: seq<Int16>, t: seq<Int16>)
    ensures Encode(s + t) == Encode(s) + Encode(t)
  {
    if s != [] {
      assert (s + t)[1..] == s[1..] + t;
      EncodeJoin(s[1..], t);
    } else {
      assert s + t == t;
    }
  }

  // ---------------------------------------------------------------------
  // Chunking: `for i in range(0, n, 4000): arr[i : i + 4000]`

  function Chunks(s: seq<Int16>): seq<seq<Int16>>
    decreases |s|
  {
    if |s| == 0 then []
    else if |s| <= ChunkSize then [s]
    else [s[..ChunkSize]] + Chunks(s[ChunkSize..])
  }

  function Min(a: int, b: int): int { if a <= b then a else b }

  /** The bytes handed to `AcceptWaveform`, one entry per chunk. */
  function EncodeAll(cs: seq<seq<Int16>>): (bs: seq<seq<Byte>>)
    ensures |bs| == |cs|
    ensures forall k :: 0 <= k < |cs| ==> bs[k] == Encode(cs[k])
  {
    if cs == [] then [] else [Encode(cs[0])] + EncodeAll(cs[1..])
  }

  /** The chunks, joined in order, are the input. */
  lemma {:induction false} ChunksConcat(s: seq<Int16>)
    ensures Concat(Chunks(s)) == s
  {
    if |s| > ChunkSize {
      ChunksConcat(s[ChunkSize..]);
      assert s == s[..ChunkSize] + s[ChunkSize..];
    }
  }

  /** There are ceil(n / 4000) chunks. */
  lemma {:induction false} ChunkCount(s: seq<Int16>)
    ensures |Chunks(s)| == (|s| + ChunkSize - 1) / ChunkSize
  {
    if |s| > ChunkSize {
      ChunkCount(s[ChunkSize..]);
    }
  }

  /**
   * Chunk k is exactly the slice `arr[4000k : 4000k + 4000]` (clipped to the
   * end): every chunk but the last holds 4000 samples and the last between
   * 1 and 4000.
   */
  lemma {:induction false} ChunkAt(s: seq<Int16>, k: nat)
    requires k < |Chunks(s)|
    ensures k * ChunkSize < |s|
    ensures Chunks(s)[k] == s[k * ChunkSize .. Min((k + 1) * ChunkSize, |s|)]
    ensures k < |Chunks(s)| - 1 ==> |Chunks(s)[k]| == ChunkSize
    ensures 1 <= |Chunks(s)[k]| <= ChunkSize
  {
    if |s| > ChunkSize && k > 0 {
      var rest := s[ChunkSize..];
      ChunkAt(rest, k - 1);
      assert (k - 1) * ChunkSize + ChunkSize == k * ChunkSize;
      assert rest[(k - 1) * ChunkSize .. Min(k * ChunkSize, |rest|)]
          == s[k * ChunkSize .. Min((k + 1) * ChunkSize, |s|)];
    }
  }

  /** Encoding each chunk and joining the bytes is encoding the joined chunks. */
  lemma {:induction false} ConcatEncodeAll(cs: seq<seq<Int16>>)
    ensures Concat(EncodeAll(cs)) == Encode(Concat(cs))
  {
    if cs != [] {
      ConcatEncodeAll(cs[1..]);
      EncodeJoin(cs[0], Concat(cs[1..]));
    }
  }

  /** The bytes fed to the recognizer, joined, are exactly `arr.tobytes()`. */
  lemma FedBytesAreInput(s: seq<Int16>)
    ensures Concat(EncodeAll(Chunks(s))) == Encode(s)
  {
    ConcatEncodeAll(Chunks(s));
    ChunksConcat(s);
  }
}
