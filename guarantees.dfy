/** What the export promises about a whole run, stated over the specification
    functions that the methods of `Export` are proved to follow: which filters are
    written, that the two output formats read back, that a failed run leaves a
    prefix of the full output, the progress lines, the statistics, and the
    settings checks that stop a run before any fetch. */
module Guarantees {
  import opened Common
  import opened Settings
  import opened HeightWindows
  import opened Wire
  import opened Stats
  import opened Export

  // ---------------------------------------------------------------------------
  // Which heights are written

  /** The heights written are a prefix of `[0, target]` whose fetches all succeed;
      all of it if, and only if, the run is complete; otherwise the prefix ends at a
      window boundary and the next window holds a failing fetch. */
  lemma EmittedPrefix(rpc: Rpc, target: int)
    ensures Emitted(rpc, target) <= Max(0, target + 1)
    ensures forall y :: 0 <= y < Emitted(rpc, target) ==> FetchOk(rpc, y)
    ensures Complete(rpc, target) <==> Emitted(rpc, target) == Max(0, target + 1)
    ensures !Complete(rpc, target) ==>
      var e := Emitted(rpc, target);
      e % Width == 0 && exists x :: e <= x < e + Width && x <= target && !FetchOk(rpc, x)
  {
    if target >= 0 {
      var f := FirstFailure(rpc, 0, target);
      if f <= target {
        var e := Emitted(rpc, target);
        assert e == (f / Width) * Width;
        assert e <= f < e + Width;
      }
    }
  }

  // ---------------------------------------------------------------------------
  // Binary output

  /** With binary output alone, each filter contributes exactly its record. */
  lemma {:induction false} BodyBinary(opts: Config, hashHex: Filter -> seq<byte>, fs: seq<Filter>)
    requires opts.binary && !opts.hashes
    ensures Body(opts, hashHex, fs) == EncodeAll(fs)
  {
    if fs != [] {
      BodyBinary(opts, hashHex, fs[1..]);
    }
  }

  /** A binary run writes the records of the written filters in height order and
      nothing else, so decoding the stream gives back exactly those filters if, and
      only if, none of them is longer than 65535 bytes. */
  lemma BinaryRunDecodes(opts: Config, target: int, rpc: Rpc, hashHex: Filter -> seq<byte>)
    requires opts.binary && !opts.hashes
    ensures var fs := Filters(rpc, Emitted(rpc, target));
      RunOut(opts, target, rpc, hashHex) == EncodeAll(fs)
    ensures var fs := Filters(rpc, Emitted(rpc, target));
      (Decode(RunOut(opts, target, rpc, hashHex)) == Some(fs)
       <==> forall y :: 0 <= y < |fs| ==> |fs[y]| < 65536)
  {
    var fs := Filters(rpc, Emitted(rpc, target));
    BodyBinary(opts, hashHex, fs);
    assert RunOut(opts, target, rpc, hashHex) == [] + EncodeAll(fs) + [];
    DecodeEncodeAll(fs);
  }

  // ---------------------------------------------------------------------------
  // Hashes output

  /** The hash texts of the filters `fs`, in order. */
  function HashTexts(hashHex: Filter -> seq<byte>, fs: seq<Filter>): (hs: seq<seq<byte>>)
    ensures |hs| == |fs|
    ensures forall i :: 0 <= i < |fs| ==> hs[i] == hashHex(fs[i])
  {
    seq(|fs|, i requires 0 <= i < |fs| => hashHex(fs[i]))
  }

  /** With hashes output alone, each filter contributes exactly its hash text. */
  lemma {:induction false} BodyHashes(opts: Config, hashHex: Filter -> seq<byte>, fs: seq<Filter>)
    requires opts.hashes && !opts.binary
    ensures Body(opts, hashHex, fs) == Concat(HashTexts(hashHex, fs))
  {
    if fs != [] {
      BodyHashes(opts, hashHex, fs[1..]);
      assert HashTexts(hashHex, fs)[1..] == HashTexts(hashHex, fs[1..]);
    }
  }

  /** A complete hashes run writes the document for its network holding the hash
      text of every filter in height order, and nothing else; reading that document
      back gives the network and exactly those hash texts if, and only if, each one
      has the length of a hex hash. */
  lemma HashesRunParses(opts: Config, target: int, rpc: Rpc, hashHex: Filter -> seq<byte>)
    requires opts.hashes && !opts.binary && Complete(rpc, target)
    ensures var hs := HashTexts(hashHex, Filters(rpc, Emitted(rpc, target)));
      RunOut(opts, target, rpc, hashHex) == HashesDoc(Network(opts.testNet), hs)
    ensures var hs := HashTexts(hashHex, Filters(rpc, Emitted(rpc, target)));
      (ParseHashesDoc(RunOut(opts, target, rpc, hashHex)) == Some((Network(opts.testNet), hs))
       <==> forall i :: 0 <= i < |hs| ==> |hs[i]| == HashTextLen)
  {
    var hs := HashTexts(hashHex, Filters(rpc, Emitted(rpc, target)));
    BodyHashes(opts, hashHex, Filters(rpc, Emitted(rpc, target)));
    ParseHashesDocRoundTrip(opts.testNet, hs);
  }

  // ---------------------------------------------------------------------------
  // A failed run

  /** A run stopped by a failing window leaves on the stream a prefix of what the
      run would have written had every fetch succeeded with the same answers where
      it did succeed: nothing of the failing window, and no closing text. */
  lemma FailedRunIsPrefix(opts: Config, target: int, rpc: Rpc, full: Rpc, hashHex: Filter -> seq<byte>)
    requires forall y :: 0 <= y <= target && FetchOk(rpc, y) ==> FetchFilter(full, y) == FetchFilter(rpc, y)
    requires Complete(full, target)
    ensures RunOut(opts, target, rpc, hashHex) <= RunOut(opts, target, full, hashHex)
    ensures !Complete(rpc, target) ==>
      RunOut(opts, target, rpc, hashHex) == Header(opts) + Body(opts, hashHex, Filters(rpc, Emitted(rpc, target)))
  {
    EmittedPrefix(rpc, target);
    EmittedPrefix(full, target);
    var e := Emitted(rpc, target);
    var written, all := Filters(rpc, e), Filters(full, Emitted(full, target));
    FiltersAgree(rpc, full, e, |all|);
    var rest := all[e..];
    BodyAppend(opts, hashHex, written, rest);
    var head := Header(opts) + Body(opts, hashHex, written);
    AppendAssoc(Header(opts), Body(opts, hashHex, written), Body(opts, hashHex, rest));
    assert RunOut(opts, target, full, hashHex) == head + Body(opts, hashHex, rest) + Footer(opts);
    if Complete(rpc, target) {
      assert rest == [];
      assert RunOut(opts, target, rpc, hashHex) == RunOut(opts, target, full, hashHex);
    } else {
      var tail := Body(opts, hashHex, rest) + Footer(opts);
      AppendAssoc(head, Body(opts, hashHex, rest), Footer(opts));
      assert RunOut(opts, target, rpc, hashHex) == head + [];
      assert head <= head + tail;
    }
  }

  /** Two daemons that give the same filters below `e` agree on the first `e`
      filters of any longer run. */
  lemma FiltersAgree(rpc: Rpc, full: Rpc, e: nat, n: nat)
    requires e <= n
    requires forall y :: 0 <= y < e ==> FetchOk(rpc, y) && FetchFilter(full, y) == FetchFilter(rpc, y)
    ensures Filters(full, n) == Filters(rpc, e) + Filters(full, n)[e..]
  {
    var written, all := Filters(rpc, e), Filters(full, n);
    forall y | 0 <= y < e
      ensures all[y] == written[y]
    {
      assert FetchFilter(full, y) == FetchFilter(rpc, y);
    }
    assert all == all[..e] + all[e..];
    assert all[..e] == written;
  }

  // ---------------------------------------------------------------------------
  // Progress lines

  /** The progress lines for `[lo, hi)` name exactly the multiples of 10000 in that
      range, when progress is on, in increasing order. */
  lemma {:induction false} ProgressLinesExactly(progress: bool, lo: int, hi: int)
    ensures forall l :: l in ProgressLines(progress, lo, hi) ==>
      progress && l.GeneratedUpTo? && lo <= l.height < hi && l.height % 10000 == 0
    ensures forall x :: progress && lo <= x < hi && x % 10000 == 0 ==> GeneratedUpTo(x) in ProgressLines(progress, lo, hi)
    ensures forall i, j :: 0 <= i < j < |ProgressLines(progress, lo, hi)| ==>
      ProgressLines(progress, lo, hi)[i].height < ProgressLines(progress, lo, hi)[j].height
    decreases hi - lo
  {
    if lo < hi {
      ProgressLinesExactly(progress, lo, hi - 1);
      var pl, before := ProgressLines(progress, lo, hi), ProgressLines(progress, lo, hi - 1);
      forall i, j | 0 <= i < j < |pl|
        ensures pl[i].height < pl[j].height
      {
        assert pl[i] == before[i] && pl[i] in before;
        if j >= |before| {
          assert pl[j] == GeneratedUpTo(hi - 1);
        } else {
          assert pl[j] == before[j];
        }
      }
    }
  }

  // ---------------------------------------------------------------------------
  // Statistics

  /** A complete run with progress on logs, after its progress lines, the digest
      input, which is every written filter's bytes in height order, the total size,
      which is the length of that input, the average, which is the total divided by
      the target (not by the number of filters, which is one more), and the largest
      filter size: no filter is longer and one has exactly that length. */
  lemma StatisticsLogged(opts: Config, target: int, rpc: Rpc)
    requires opts.progress && Complete(rpc, target) && target > 0
    ensures var fs := Filters(rpc, Emitted(rpc, target));
      |fs| == target + 1
      && RunLog(opts, target, rpc) == ProgressLines(true, 0, target + 1)
        + [RawDataHash(Concat(fs)), TotalSize(|Concat(fs)|), AvgSize(|Concat(fs)| / target), MaxSize(MaxLen(fs))]
    ensures var fs := Filters(rpc, Emitted(rpc, target));
      (forall i :: 0 <= i < |fs| ==> |fs[i]| <= MaxLen(fs))
      && exists i :: 0 <= i < |fs| && |fs[i]| == MaxLen(fs)
  {
    EmittedPrefix(rpc, target);
    var fs := Filters(rpc, Emitted(rpc, target));
    ConcatLength(fs);
    MaxLenIsMax(fs);
  }

  /** With a target of 0, a run with progress on ends in Go's integer division by
      zero, after logging the digest input and the total size. */
  lemma ZeroTargetDividesByZero(opts: Config, rpc: Rpc, status: Status)
    requires opts.progress && RunStatus(opts, 0, rpc, status) && Complete(rpc, 0)
    ensures status == Fatal(DivideByZero)
    ensures var fs := Filters(rpc, 1);
      RunLog(opts, 0, rpc) == ProgressLines(true, 0, 1) + [RawDataHash(Concat(fs)), TotalSize(TotalLen(fs))]
  {
    EmittedPrefix(rpc, 0);
  }

  // ---------------------------------------------------------------------------
  // The settings checks

  /** Asking for both output modes prints the complaint and stops before any
      connection or fetch. */
  lemma BothModesStopFirst(cfg: Config, blockCount: Fetch<int64>, rpc: Rpc, hashHex: Filter -> seq<byte>)
    requires cfg.hashes && cfg.binary
    ensures ExpectedOut(cfg, blockCount, rpc, hashHex) == Bytes(ModesMessage)
    ensures ExpectedLog(cfg, blockCount, rpc) == []
    ensures StatusAllowed(cfg, blockCount, rpc, Fatal(ConflictingModes))
    ensures Requested(cfg, blockCount, rpc) == 0
  {
  }

  /** A target above the block count is fatal before any fetch and writes nothing. */
  lemma TargetAboveTipStops(cfg: Config, bc: int64, rpc: Rpc, hashHex: Filter -> seq<byte>)
    requires !(cfg.hashes && cfg.binary)
    requires cfg.targetHeight < 0x8000_0000_0000_0000 && cfg.targetHeight > bc
    ensures ExpectedOut(cfg, Got(bc), rpc, hashHex) == []
    ensures ExpectedLog(cfg, Got(bc), rpc) == []
    ensures StatusAllowed(cfg, Got(bc), rpc, Fatal(TargetAboveTip(cfg.targetHeight, bc)))
    ensures Requested(cfg, Got(bc), rpc) == 0
  {
  }

  /** A target of 0 means the block count: the run then fetches every height up to
      and including the block count, unless a window fails first. */
  lemma ZeroTargetMeansBlockCount(cfg: Config, bc: int64, rpc: Rpc)
    requires !(cfg.hashes && cfg.binary) && cfg.targetHeight == 0 && bc >= 0
    ensures StageOf(cfg, Got(bc)) == Running(cfg.(targetHeight := bc as uint64), bc)
    ensures Complete(rpc, bc) ==> Requested(cfg, Got(bc), rpc) == bc + 1
  {
  }
}
