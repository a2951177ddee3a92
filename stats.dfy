/** The running statistics kept over the exported filters: the total number of
    bytes, the largest filter, and the input fed to the digest of the whole set. */
module Stats {
  import opened Common

  /** The sum of the filters' lengths. */
  function TotalLen(fs: seq<seq<byte>>): nat
  {
    if fs == [] then 0 else |fs[0]| + TotalLen(fs[1..])
  }

  /** The largest filter length, or 0 when there is none (the running maximum
      starts at 0). */
  function MaxLen(fs: seq<seq<byte>>): nat
  {
    if fs == [] then 0 else Max(|fs[0]|, MaxLen(fs[1..]))
  }

  /** The running maximum is the largest filter length: no filter is longer, and
      some filter has exactly that length unless there are none. */
  lemma {:induction false} MaxLenIsMax(fs: seq<seq<byte>>)
    ensures forall i :: 0 <= i < |fs| ==> |fs[i]| <= MaxLen(fs)
    ensures fs == [] ==> MaxLen(fs) == 0
    ensures fs != [] ==> exists i :: 0 <= i < |fs| && MaxLen(fs) == |fs[i]|
  {
    if fs != [] {
      MaxLenIsMax(fs[1..]);
      assert forall i :: 1 <= i < |fs| ==> fs[i] == fs[1..][i - 1];
      if MaxLen(fs) != |fs[0]| {
        var j :| 0 <= j < |fs[1..]| && MaxLen(fs[1..]) == |fs[1..][j]|;
        assert MaxLen(fs) == |fs[j + 1]|;
      }
    }
  }

  function Max(a: int, b: int): int { if a >= b then a else b }

  /** The digest input holds every filter byte, so its length is the total size. */
  lemma {:induction false} ConcatLength(fs: seq<seq<byte>>)
    ensures |Concat(fs)| == TotalLen(fs)
  {
    if fs != [] {
      ConcatLength(fs[1..]);
    }
  }

  /** The digest input is the filters one after the other: filter `i` sits at the
      offset given by the total size of the filters before it. */
  lemma {:induction false} ConcatAt(fs: seq<seq<byte>>, i: nat)
    requires i < |fs|
    ensures TotalLen(fs[..i]) + |fs[i]| <= |Concat(fs)|
    ensures Concat(fs)[TotalLen(fs[..i])..TotalLen(fs[..i]) + |fs[i]|] == fs[i]
  {
    ConcatLength(fs);
    if i == 0 {
      assert fs[..0] == [];
    } else {
      assert fs[..i][1..] == fs[1..][..i - 1];
      assert fs[..i][0] == fs[0];
      ConcatAt(fs[1..], i - 1);
      ConcatLength([fs[0]]);
    }
  }

  lemma {:induction false} TotalLenAppend(a: seq<seq<byte>>, b: seq<seq<byte>>)
    ensures TotalLen(a + b) == TotalLen(a) + TotalLen(b)
  {
    if a == [] {
      assert a + b == b;
    } else {
      assert (a + b)[1..] == a[1..] + b;
      TotalLenAppend(a[1..], b);
    }
  }

  lemma {:induction false} MaxLenAppend(a: seq<seq<byte>>, b: seq<seq<byte>>)
    ensures MaxLen(a + b) == Max(MaxLen(a), MaxLen(b))
  {
    if a == [] {
      assert a + b == b;
    } else {
      assert (a + b)[1..] == a[1..] + b;
      MaxLenAppend(a[1..], b);
    }
  }

  lemma {:induction false} ConcatAppend(a: seq<seq<byte>>, b: seq<seq<byte>>)
    ensures Concat(a + b) == Concat(a) + Concat(b)
  {
    if a == [] {
      assert a + b == b;
    } else {
      assert (a + b)[1..] == a[1..] + b;
      ConcatAppend(a[1..], b);
    }
  }
}
