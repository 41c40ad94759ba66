/**
 * Shared vocabulary: optional values, results, the exceptions the
 * application raises (by class and message), decimal rendering of
 * integers as Python's `str(int)` does, and concatenation of a list of
 * sequences.
 */
module Common {

  datatype Option<+T> = None | Some(value: T)

  datatype Result<+T, +E> = Ok(value: T) | Err(error: E)

  /** What a call that returns nothing (`-> None`) can end in: normal return or a raise. */
  datatype Outcome<+E> = Pass | Fail(error: E)

  /** The exception classes the core distinguishes; anything else is `Builtin`. */
  datatype ErrorKind =
    | AudioRecorderError
    | TranscriberError
    | TranslatorError
    | Builtin(className: string)

  /** A raised exception: its class and `str(e)`. */
  datatype Error = Error(kind: ErrorKind, message: string)

  function DigitChar(d: nat): (c: char)
    requires d < 10
    ensures '0' <= c <= '9'
  {
    "0123456789"[d]
  }

  /** `str(n)` for a non-negative integer: decimal digits, no leading zeros. */
  function NatToString(n: nat): (s: string)
    ensures |s| >= 1
    ensures forall i :: 0 <= i < |s| ==> '0' <= s[i] <= '9'
    decreases n
  {
    if n < 10 then [DigitChar(n)] else NatToString(n / 10) + [DigitChar(n % 10)]
  }

  /** `str(n)` for any integer: a minus sign before the digits of a negative one. */
  function IntToString(n: int): (s: string)
    ensures |s| >= 1
    ensures (n < 0) == (s[0] == '-')
  {
    if n < 0 then "-" + NatToString(-n) else NatToString(n)
  }

  /** The sequences of `ss` joined end to end, in order (`np.concatenate`, `b"".join`). */
  function Concat<T>(ss: seq<seq<T>>): seq<T>
  {
    if ss == [] then [] else ss[0] + Concat(ss[1..])
  }

  /** Appending one more sequence extends the concatenation by exactly that sequence. */
  lemma {:induction false} ConcatAppend<T>(ss: seq<seq<T>>, b: seq<T>)
    ensures Concat(ss + [b]) == Concat(ss) + b
  {
    if ss == [] {
      assert ss + [b] == [b];
    } else {
      assert (ss + [b])[1..] == ss[1..] + [b];
      ConcatAppend(ss[1..], b);
    }
  }

  /** Concatenation distributes over joining two lists of sequences. */
  lemma {:induction false} ConcatJoin<T>(xs: seq<seq<T>>, ys: seq<seq<T>>)
    ensures Concat(xs + ys) == Concat(xs) + Concat(ys)
  {
    if xs == [] {
      assert xs + ys == ys;
    } else {
      assert (xs + ys)[1..] == xs[1..] + ys;
      ConcatJoin(xs[1..], ys);
    }
  }
}
