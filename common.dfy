/** Small shared vocabulary: optional values, fallible remote calls, bytes,
    Go's fixed-width integers and the Go operations on them that the export uses. */
module Common {

  datatype Option<+T> = None | Some(value: T)

  /** The result of a remote call that may fail with an error message. */
  datatype Fetch<+T> = Got(value: T) | Failed(error: string)

  /** A value or the reason there is none. */
  datatype Result<+T, +E> = Ok(value: T) | Err(error: E)

  /** An octet written to standard output. */
  type byte = x: int | 0 <= x < 256

  /** Go's `int64` and `uint64`. */
  type int64 = x: int | -0x8000_0000_0000_0000 <= x < 0x8000_0000_0000_0000
  type uint64 = x: int | 0 <= x < 0x1_0000_0000_0000_0000

  /** Go's conversion `int64(x)` of a `uint64`: the same 64 bits read as two's complement. */
  function ToInt64(x: uint64): (r: int64)
    ensures x < 0x8000_0000_0000_0000 ==> r == x
    ensures x >= 0x8000_0000_0000_0000 ==> r < 0 && r + 0x1_0000_0000_0000_0000 == x
  {
    if x < 0x8000_0000_0000_0000 then x else x - 0x1_0000_0000_0000_0000
  }

  /** Go's integer division `a / b` of a non-negative dividend: it truncates toward
      zero, so a negative divisor gives the negated quotient (Dafny's `/` is Euclidean
      and rounds the other way whenever the division is inexact). */
  function Quot(a: nat, b: int): (q: int)
    requires b != 0
    ensures Abs(q) == a / Abs(b)
    ensures q != 0 ==> (q > 0 <==> b > 0)
  {
    if b > 0 then a / b else -(a / -b)
  }

  function Abs(x: int): nat { if x < 0 then -x else x }

  /** The bytes Go writes for a string of ASCII text: one byte per character. */
  function Bytes(s: string): (r: seq<byte>)
    ensures |r| == |s|
    ensures forall i :: 0 <= i < |s| && s[i] as int < 128 ==> r[i] == s[i] as int
  {
    seq(|s|, i requires 0 <= i < |s| => (s[i] as int) % 256)
  }

  /** The integers `lo .. hi-1`. */
  function Range(lo: int, hi: int): (r: set<int>)
    ensures forall y :: y in r <==> lo <= y < hi
    decreases hi - lo
  {
    if hi <= lo then {} else Range(lo, hi - 1) + {hi - 1}
  }

  /** The pieces of `ss` written one after the other. */
  function Concat(ss: seq<seq<byte>>): (r: seq<byte>)
  {
    if ss == [] then [] else ss[0] + Concat(ss[1..])
  }

  lemma AppendAssoc<T>(x: seq<T>, y: seq<T>, z: seq<T>)
    ensures (x + y) + z == x + (y + z)
  {
  }
}
