/** The batch export: settings checks, then the windowed fetch loop that fills a
    reused buffer of `Width` slots per round, then the per-filter output, statistics
    and progress lines.

    The daemon is reached through two remote calls, block hash by height and filter
    by block hash, either of which may fail. The filter hash printed in hashes mode
    is a function `hashHex` from the filter's bytes to the bytes of its hex text. */
module Export {
  import opened Common
  import opened Settings
  import opened HeightWindows
  import opened Wire
  import opened Stats

  type Filter = seq<byte>
  type BlockHash = seq<byte>

  /** The daemon's answers, as seen through the RPC client. */
  datatype Rpc = Rpc(blockHash: int -> Fetch<BlockHash>, cfilter: BlockHash -> Fetch<Filter>)

  /** One fetch task: the block hash at height `x`, then the filter for that hash. */
  function FetchFilter(rpc: Rpc, x: int): Fetch<Filter>
  {
    match rpc.blockHash(x)
    case Failed(e) => Failed(e)
    case Got(bh) => rpc.cfilter(bh)
  }

  predicate FetchOk(rpc: Rpc, x: int)
  {
    FetchFilter(rpc, x).Got?
  }

  /** The filter at height `x` (empty where the fetch fails; only used where it succeeds). */
  function FilterAt(rpc: Rpc, x: int): Filter
  {
    match FetchFilter(rpc, x)
    case Got(f) => f
    case Failed(_) => []
  }

  /** The filters of heights `0 .. n-1`, in height order. */
  function Filters(rpc: Rpc, n: nat): (fs: seq<Filter>)
    ensures |fs| == n
  {
    seq(n, i => FilterAt(rpc, i))
  }

  /** A line of the diagnostic log (the log message text is not modelled; the
      total size is kept in bytes rather than as a floating-point MiB figure). */
  datatype LogLine =
    | Generating(target: uint64, network: string)
    | GeneratedUpTo(height: int)
    | RawDataHash(input: seq<byte>)   // the digest's whole input
    | TotalSize(bytes: int)
    | AvgSize(bytes: int)
    | MaxSize(bytes: int)

  /** How the process ends. */
  datatype Status = Success | Fatal(why: Failure)

  /** What the run has produced so far: standard output, the log, and the running
      statistics (the total size, the largest filter, the digest's input). */
  datatype Tally = Tally(out: seq<byte>, log: seq<LogLine>, total: nat, maxSize: nat, digest: seq<byte>)

  /** The line printed to standard output for conflicting modes. */
  const ModesMessage := "Only specify one of --hashes and --binary\n"

  // ---------------------------------------------------------------------------
  // What the run writes, as functions of the settings and the daemon's answers

  /** What one filter adds to the output stream. */
  function Record(opts: Config, hashHex: Filter -> seq<byte>, f: Filter): seq<byte>
  {
    (if opts.hashes then hashHex(f) else []) + (if opts.binary then EncodeRecord(f) else [])
  }

  /** What the filters `fs` add to the output stream, one after the other. */
  function Body(opts: Config, hashHex: Filter -> seq<byte>, fs: seq<Filter>): seq<byte>
  {
    if fs == [] then [] else Record(opts, hashHex, fs[0]) + Body(opts, hashHex, fs[1..])
  }

  function Header(opts: Config): seq<byte>
  {
    if opts.hashes then Preamble(Network(opts.testNet)) else []
  }

  function Footer(opts: Config): seq<byte>
  {
    if opts.hashes then Closing() else []
  }

  /** The tally once the filters `fs`, at heights `lo, lo+1, ...`, are written. */
  function After(opts: Config, hashHex: Filter -> seq<byte>, t: Tally, fs: seq<Filter>, lo: int): Tally
  {
    Tally(t.out + Body(opts, hashHex, fs),
          t.log + ProgressLines(opts.progress, lo, lo + |fs|),
          t.total + TotalLen(fs),
          Max(t.maxSize, MaxLen(fs)),
          t.digest + Concat(fs))
  }

  /** The progress lines for the heights `lo .. hi-1`, in height order. */
  function ProgressLines(progress: bool, lo: int, hi: int): seq<LogLine>
    decreases hi - lo
  {
    if hi <= lo then [] else ProgressLines(progress, lo, hi - 1) + ProgressAt(progress, hi - 1)
  }

  /** The progress line for height `x`, if any. */
  function ProgressAt(progress: bool, x: int): seq<LogLine>
  {
    if progress && x % 10000 == 0 then [GeneratedUpTo(x)] else []
  }

  /** The statistics lines logged after the last window, from the total size, the
      largest size and the digest's input; the average divides by the target, so a
      target of 0 stops the run after the total size line. */
  function Summary(progress: bool, target: int, total: nat, maxSize: nat, digest: seq<byte>): seq<LogLine>
  {
    if !progress then []
    else
      [RawDataHash(digest), TotalSize(total)]
      + (if target == 0 then [] else [AvgSize(Quot(total, target)), MaxSize(maxSize)])
  }

  /** The smallest height in `[x, target]` whose fetch fails, or `target + 1` if none does. */
  function FirstFailure(rpc: Rpc, x: int, target: int): (r: int)
    ensures x <= r
    ensures x <= target + 1 ==> r <= target + 1
    ensures forall y :: x <= y < r && y <= target ==> FetchOk(rpc, y)
    ensures r <= target ==> !FetchOk(rpc, r)
    decreases target + 1 - x
  {
    if x > target || !FetchOk(rpc, x) then x else FirstFailure(rpc, x + 1, target)
  }

  /** Whether every height in `[0, target]` is fetched. */
  predicate Complete(rpc: Rpc, target: int)
  {
    FirstFailure(rpc, 0, target) > target
  }

  /** How many heights have their filter written: all of `[0, target]`, or the
      heights before the window holding the first failing fetch. */
  function Emitted(rpc: Rpc, target: int): nat
  {
    if target < 0 then 0
    else
      var f := FirstFailure(rpc, 0, target);
      if f > target then target + 1 else (f / Width) * Width
  }

  /** Some fetch in the window that starts at `lo` failed with error `e`. */
  predicate FailsIn(rpc: Rpc, lo: int, target: int, e: string)
  {
    exists x :: lo <= x < lo + Width && x <= target && FetchFilter(rpc, x) == Failed(e)
  }

  /** How far the settings let the run go. */
  datatype Stage =
    | Conflicting
    | NoBlockCount(err: string)
    | BadTarget(why: Failure)
    | Running(opts: Config, target: int)   // the resolved options and the int64 target

  function StageOf(cfg: Config, blockCount: Fetch<int64>): Stage
  {
    if CheckModes(cfg).Some? then Conflicting
    else
      match blockCount
      case Failed(e) => NoBlockCount(e)
      case Got(bc) =>
        match ResolveTarget(cfg.targetHeight, bc)
        case Err(f) => BadTarget(f)
        case Ok(t) => Running(cfg.(targetHeight := t), ToInt64(t))
  }

  /** What the run writes to standard output once the target is known: the header,
      the filters of every fully fetched window, and the footer if no window failed. */
  function RunOut(opts: Config, target: int, rpc: Rpc, hashHex: Filter -> seq<byte>): seq<byte>
  {
    Header(opts)
    + Body(opts, hashHex, Filters(rpc, Emitted(rpc, target)))
    + (if Complete(rpc, target) then Footer(opts) else [])
  }

  /** What the run logs once the target is known: the progress lines of the written
      heights, and the statistics if no window failed. */
  function RunLog(opts: Config, target: int, rpc: Rpc): seq<LogLine>
  {
    var fs := Filters(rpc, Emitted(rpc, target));
    ProgressLines(opts.progress, 0, Emitted(rpc, target))
    + (if Complete(rpc, target) then Summary(opts.progress, target, TotalLen(fs), MaxLen(fs), Concat(fs)) else [])
  }

  /** How the run may end once the target is known: a failing window reports the
      error of one of its failing fetches, whichever finished first; otherwise the
      average line divides by the target. */
  predicate RunStatus(opts: Config, target: int, rpc: Rpc, status: Status)
  {
    if Complete(rpc, target) then
      status == (if opts.progress && target == 0 then Fatal(DivideByZero) else Success)
    else
      status.Fatal? && status.why.FetchFailed?
      && FailsIn(rpc, Emitted(rpc, target), target, status.why.err)
  }

  /** How many heights, from 0, have their block hash requested: every height up to
      the end of the last window started, the failing one included, since a window's
      tasks all run to completion. */
  function RunRequested(rpc: Rpc, target: int): int
  {
    if Complete(rpc, target) then target + 1
    else Emitted(rpc, target) + Min(Width, target + 1 - Emitted(rpc, target))
  }

  /** Everything written to standard output. */
  function ExpectedOut(cfg: Config, blockCount: Fetch<int64>, rpc: Rpc, hashHex: Filter -> seq<byte>): seq<byte>
  {
    match StageOf(cfg, blockCount)
    case Conflicting => Bytes(ModesMessage)
    case NoBlockCount(_) => []
    case BadTarget(_) => []
    case Running(opts, target) => RunOut(opts, target, rpc, hashHex)
  }

  /** Everything logged with `log.Printf` (the fatal message is the status). */
  function ExpectedLog(cfg: Config, blockCount: Fetch<int64>, rpc: Rpc): seq<LogLine>
  {
    match StageOf(cfg, blockCount)
    case Running(opts, target) =>
      (if opts.progress then [Generating(opts.targetHeight, Network(opts.testNet))] else [])
      + RunLog(opts, target, rpc)
    case _ => []
  }

  /** The statuses the run may end with. */
  predicate StatusAllowed(cfg: Config, blockCount: Fetch<int64>, rpc: Rpc, status: Status)
  {
    match StageOf(cfg, blockCount)
    case Conflicting => status == Fatal(ConflictingModes)
    case NoBlockCount(e) => status == Fatal(SetupFailed(e))
    case BadTarget(f) => status == Fatal(f)
    case Running(opts, target) => RunStatus(opts, target, rpc, status)
  }

  /** How many heights, from 0, have their block hash requested: none unless the
      run gets past the settings checks. */
  function Requested(cfg: Config, blockCount: Fetch<int64>, rpc: Rpc): int
  {
    match StageOf(cfg, blockCount)
    case Running(_, target) => RunRequested(rpc, target)
    case _ => 0
  }

  function Min(a: int, b: int): int { if a <= b then a else b }

  // ---------------------------------------------------------------------------
  // The run

  /** One round's fetches: a task per slot `i < step` asks for the block hash at
      `h + i`, then its filter, and stores it in slot `i`. The tasks run in an
      arbitrary order; each writes only its own slot; all of them run even after
      one fails, and the error kept is the first one to happen. */
  method FillWindow(cfilters: array<Filter>, rpc: Rpc, h: int, step: nat)
    returns (err: Option<string>, ghost asked: set<int>)
    requires step <= cfilters.Length
    modifies cfilters
    ensures err.None? <==> forall y :: h <= y < h + step ==> FetchOk(rpc, y)
    ensures err.None? ==> forall i :: 0 <= i < step ==> cfilters[i] == FilterAt(rpc, h + i)
    ensures err.Some? ==> exists y :: h <= y < h + step && FetchFilter(rpc, y) == Failed(err.value)
    ensures forall i :: step <= i < cfilters.Length ==> cfilters[i] == old(cfilters[i])
    ensures forall y :: y in asked <==> h <= y < h + step
  {
    var pending := Range(h, h + step);  // the heights whose task has not run yet
    err, asked := None, {};
    while pending != {}
      invariant forall y :: y in pending ==> h <= y < h + step
      invariant forall y :: y in asked <==> h <= y < h + step && y !in pending
      invariant forall i :: 0 <= i < step && h + i !in pending && FetchOk(rpc, h + i) ==> cfilters[i] == FilterAt(rpc, h + i)
      invariant err.None? <==> forall y :: y in asked ==> FetchOk(rpc, y)
      invariant err.Some? ==> exists y :: y in asked && FetchFilter(rpc, y) == Failed(err.value)
      invariant cfilters[step..] == old(cfilters[step..])
      decreases |pending|
    {
      var y :| y in pending;
      var i := y - h;
      pending, asked := pending - {y}, asked + {y};
      match rpc.blockHash(h + i)
      case Failed(e) =>
        assert FetchFilter(rpc, y) == Failed(e);
        if err.None? { err := Some(e); }
      case Got(bh) =>
        match rpc.cfilter(bh)
        case Failed(e) =>
          assert FetchFilter(rpc, y) == Failed(e);
          if err.None? { err := Some(e); }
        case Got(f) =>
          assert FetchFilter(rpc, y) == Got(f);
          cfilters[i] := f;
    }
  }

  /** The output of one filter `cf` at height `height`: its hash text and/or binary
      record, its share of the statistics and of the digest input, and a progress
      line at every multiple of 10000. */
  method EmitOne(opts: Config, hashHex: Filter -> seq<byte>, cf: Filter, height: int, t: Tally)
    returns (t': Tally)
    ensures t' == Tally(t.out + Record(opts, hashHex, cf), t.log + ProgressAt(opts.progress, height),
                        t.total + |cf|, Max(t.maxSize, |cf|), t.digest + cf)
  {
    var out, log, maxSize := t.out, t.log, t.maxSize;
    if opts.hashes {
      out := out + hashHex(cf);
    }
    var lenCf := |cf|;
    if opts.binary {
      out := out + PutUint16(lenCf) + cf;
    }
    var total := t.total + lenCf;
    var digest := t.digest + cf;
    if lenCf > maxSize {
      maxSize := lenCf;
    }
    if opts.progress && height % 10000 == 0 {
      log := log + [GeneratedUpTo(height)];
    }
    t' := Tally(out, log, total, maxSize, digest);
  }

  /** The output phase of one round: the slots in index order, that is, the
      heights `h .. h+step-1` in order. */
  method EmitWindow(opts: Config, hashHex: Filter -> seq<byte>, cfilters: array<Filter>, step: nat, h: int, t: Tally)
    returns (t': Tally)
    requires step <= cfilters.Length
    ensures t' == After(opts, hashHex, t, cfilters[..step], h)
  {
    t' := t;
    AfterNothing(opts, hashHex, t, h);
    ghost var fs := cfilters[..step];
    var i := 0;
    while i < step
      invariant 0 <= i <= step
      invariant t' == After(opts, hashHex, t, fs[..i], h)
    {
      var cf := cfilters[i];
      assert fs[..i + 1] == fs[..i] + [cf];
      AfterSnoc(opts, hashHex, t, fs[..i], cf, h);
      t' := EmitOne(opts, hashHex, cf, h + i, t');
      i := i + 1;
    }
    assert fs[..step] == fs;
  }

  /** One round: fetch the window of `step` heights at `h` into the buffer, then,
      if every fetch succeeded, write those filters out. */
  method Round(opts: Config, hashHex: Filter -> seq<byte>, rpc: Rpc, cfilters: array<Filter>, h: nat, step: nat,
               ghost t0: Tally, t: Tally)
    returns (err: Option<string>, ghost window: set<int>, t': Tally)
    requires step <= cfilters.Length
    requires t == After(opts, hashHex, t0, Filters(rpc, h), 0)
    modifies cfilters
    ensures err.None? <==> forall y :: h <= y < h + step ==> FetchOk(rpc, y)
    ensures err.Some? ==> exists y :: h <= y < h + step && FetchFilter(rpc, y) == Failed(err.value)
    ensures err.Some? ==> t' == t
    ensures err.None? ==> t' == After(opts, hashHex, t0, Filters(rpc, h + step), 0)
    ensures forall y :: y in window <==> h <= y < h + step
  {
    t' := t;
    err, window := FillWindow(cfilters, rpc, h, step);
    if err.Some? {
      return;
    }
    ghost var slice := cfilters[..step];
    t' := EmitWindow(opts, hashHex, cfilters, step, h, t);
    FiltersExtend(rpc, h, slice);
    AfterAppend(opts, hashHex, t0, Filters(rpc, h), slice, 0);
  }

  /** The heights below `h` have all been fetched, in the windows `visited`, which
      are the first windows of the target's partition (all of them once `h` is past
      the target), and `asked` holds exactly those heights. */
  ghost predicate Walked(rpc: Rpc, target: int, h: nat, visited: seq<Window>, asked: set<int>)
  {
    && (forall y :: 0 <= y < h ==> FetchOk(rpc, y))
    && |visited| <= NumWindows(target) && visited == Windows(target)[..|visited|]
    && (h <= target ==> h == |visited| * Width)
    && (h > target ==> h == Max(0, target + 1) && visited == Windows(target))
    && (forall y :: y in asked <==> 0 <= y < h)
  }

  /** The `for h` loop: windows of `Width` heights from 0, the last one clamped so
      that it ends at `target`, fetched into one reused buffer and then written out. */
  method ExportRange(opts: Config, target: int, rpc: Rpc, hashHex: Filter -> seq<byte>, t0: Tally)
    returns (t: Tally, err: Option<string>, ghost visited: seq<Window>, ghost asked: set<int>)
    ensures t == After(opts, hashHex, t0, Filters(rpc, Emitted(rpc, target)), 0)
    ensures err.None? <==> Complete(rpc, target)
    ensures err.Some? ==> FailsIn(rpc, Emitted(rpc, target), target, err.value)
    ensures err.None? ==> visited == Windows(target)
    ensures err.Some? ==> 0 < |visited| <= NumWindows(target) && visited == Windows(target)[..|visited|]
    ensures err.Some? ==> visited[|visited| - 1].first == Emitted(rpc, target)
    ensures err.None? ==> forall y :: y in asked <==> 0 <= y <= target
    ensures err.Some? ==> forall y :: y in asked <==>
      0 <= y < Emitted(rpc, target) + Min(Width, target + 1 - Emitted(rpc, target))
  {
    var step := Width;
    var cfilters := new Filter[Width];
    t, err := t0, None;
    visited, asked := [], {};
    var h := 0;
    assert Filters(rpc, 0) == [];
    AfterNothing(opts, hashHex, t0, 0);
    WalkStart(rpc, target);
    while h <= target
      invariant cfilters.Length == Width
      invariant h <= target ==> step == Width
      invariant Walked(rpc, target, h, visited, asked)
      invariant t == After(opts, hashHex, t0, Filters(rpc, h), 0)
      decreases target + 1 - h
    {
      // Clamp the last window so that it ends at the target.
      if h + step > target {
        step := target - h + 1;
      }
      var e; ghost var window;
      e, window, t := Round(opts, hashHex, rpc, cfilters, h, step, t0, t);
      if e.Some? {
        var x :| h <= x < h + step && FetchFilter(rpc, x) == Failed(e.value);
        WalkStops(rpc, target, h, step, visited, asked, window, x);
        visited, asked := visited + [Window(h, h + step - 1)], asked + window;
        err := e;
        return;
      }
      WalkOn(rpc, target, h, step, visited, asked, window);
      visited, asked := visited + [Window(h, h + step - 1)], asked + window;
      h := h + step;
    }
    WalkEnds(rpc, target, h, visited, asked);
  }

  /** The settings checks, in the order the program makes them: the output modes,
      then the block count, then the target against it, which 0 stands for. */
  method CheckSettings(cfg: Config, blockCount: Fetch<int64>) returns (stage: Stage)
    ensures stage == StageOf(cfg, blockCount)
  {
    if cfg.hashes && cfg.binary {
      return Conflicting;
    }
    if blockCount.Failed? {
      return NoBlockCount(blockCount.error);
    }
    var bc := blockCount.value;
    if bc < ToInt64(cfg.targetHeight) {
      return BadTarget(TargetAboveTip(cfg.targetHeight, bc));
    }
    var opts := cfg;
    if opts.targetHeight == 0 {
      opts := opts.(targetHeight := bc as uint64);
    }
    stage := Running(opts, ToInt64(opts.targetHeight));
  }

  /** The whole program after flag parsing: the settings checks, then the run.
      `blockCount` is the result of reading the certificate, connecting and asking
      for the block count. */
  method Export(cfg: Config, blockCount: Fetch<int64>, rpc: Rpc, hashHex: Filter -> seq<byte>)
    returns (out: seq<byte>, log: seq<LogLine>, status: Status, ghost asked: set<int>)
    ensures out == ExpectedOut(cfg, blockCount, rpc, hashHex)
    ensures log == ExpectedLog(cfg, blockCount, rpc)
    ensures StatusAllowed(cfg, blockCount, rpc, status)
    ensures forall y :: y in asked <==> 0 <= y < Requested(cfg, blockCount, rpc)
  {
    out, log, asked := [], [], {};
    var stage := CheckSettings(cfg, blockCount);
    match stage
    case Conflicting =>
      out := Bytes(ModesMessage);
      status := Fatal(ConflictingModes);
    case NoBlockCount(e) =>
      status := Fatal(SetupFailed(e));
    case BadTarget(why) =>
      status := Fatal(why);
    case Running(opts, target) =>
      if opts.progress {
        log := log + [Generating(opts.targetHeight, Network(opts.testNet))];
      }
      var runLog;
      out, runLog, status, asked := Run(opts, target, rpc, hashHex);
      log := log + runLog;
      RunningStage(cfg, blockCount, rpc, hashHex, opts, target, status);
  }

  /** The run once the target is known: the header, the windows, the footer and
      the closing statistics. */
  method Run(opts: Config, target: int, rpc: Rpc, hashHex: Filter -> seq<byte>)
    returns (out: seq<byte>, log: seq<LogLine>, status: Status, ghost asked: set<int>)
    ensures out == RunOut(opts, target, rpc, hashHex)
    ensures log == RunLog(opts, target, rpc)
    ensures RunStatus(opts, target, rpc, status)
    ensures forall y :: y in asked <==> 0 <= y < RunRequested(rpc, target)
  {
    var header := [];
    if opts.hashes {
      header := Preamble(Network(opts.testNet));
    }
    var t, err;
    ghost var visited;
    t, err, visited, asked := ExportRange(opts, target, rpc, hashHex, Tally(header, [], 0, 0, []));
    ghost var fs := Filters(rpc, Emitted(rpc, target));
    assert t.log == ProgressLines(opts.progress, 0, Emitted(rpc, target));
    assert t.total == TotalLen(fs) && t.maxSize == MaxLen(fs) && t.digest == Concat(fs);
    if err.Some? {
      out, log := t.out, t.log;
      status := Fatal(FetchFailed(err.value));
      return;
    }
    out, log, status := Finish(opts, target, t);
  }

  /** After the last window: the footer, then the statistics lines. */
  method Finish(opts: Config, target: int, t: Tally) returns (out: seq<byte>, log: seq<LogLine>, status: Status)
    ensures out == t.out + Footer(opts)
    ensures log == t.log + Summary(opts.progress, target, t.total, t.maxSize, t.digest)
    ensures status == if opts.progress && target == 0 then Fatal(DivideByZero) else Success
  {
    out, log := t.out, t.log;
    if opts.hashes {
      out := out + Closing();
    }
    status := Success;
    if opts.progress {
      log := log + [RawDataHash(t.digest), TotalSize(t.total)];
      if target == 0 {
        status := Fatal(DivideByZero);
        return;
      }
      log := log + [AvgSize(Quot(t.total, target)), MaxSize(t.maxSize)];
    }
  }

  // ---------------------------------------------------------------------------
  // Lemmas used by the run

  /** Once the settings let the run go, what the whole program does is what the run does. */
  lemma RunningStage(cfg: Config, blockCount: Fetch<int64>, rpc: Rpc, hashHex: Filter -> seq<byte>,
                     opts: Config, target: int, status: Status)
    requires StageOf(cfg, blockCount) == Running(opts, target)
    ensures ExpectedOut(cfg, blockCount, rpc, hashHex) == RunOut(opts, target, rpc, hashHex)
    ensures ExpectedLog(cfg, blockCount, rpc)
      == (if opts.progress then [Generating(opts.targetHeight, Network(opts.testNet))] else []) + RunLog(opts, target, rpc)
    ensures StatusAllowed(cfg, blockCount, rpc, status) == RunStatus(opts, target, rpc, status)
    ensures Requested(cfg, blockCount, rpc) == RunRequested(rpc, target)
  {
  }

  lemma {:induction false} BodyAppend(opts: Config, hashHex: Filter -> seq<byte>, a: seq<Filter>, b: seq<Filter>)
    ensures Body(opts, hashHex, a + b) == Body(opts, hashHex, a) + Body(opts, hashHex, b)
  {
    if a == [] {
      assert a + b == b;
    } else {
      assert (a + b)[1..] == a[1..] + b;
      BodyAppend(opts, hashHex, a[1..], b);
    }
  }

  lemma {:induction false} ProgressLinesSplit(progress: bool, lo: int, mid: int, hi: int)
    requires lo <= mid <= hi
    ensures ProgressLines(progress, lo, mid) + ProgressLines(progress, mid, hi) == ProgressLines(progress, lo, hi)
    decreases hi - mid
  {
    if mid < hi {
      ProgressLinesSplit(progress, lo, mid, hi - 1);
    }
  }

  /** Writing `a` and then `b` is writing `a + b`. */
  lemma AfterAppend(opts: Config, hashHex: Filter -> seq<byte>, t: Tally, a: seq<Filter>, b: seq<Filter>, lo: int)
    ensures After(opts, hashHex, After(opts, hashHex, t, a, lo), b, lo + |a|) == After(opts, hashHex, t, a + b, lo)
  {
    OutAppend(opts, hashHex, t.out, a, b);
    LogAppend(opts.progress, t.log, a, b, lo);
    StatsAppend(t, a, b);
  }

  lemma OutAppend(opts: Config, hashHex: Filter -> seq<byte>, out: seq<byte>, a: seq<Filter>, b: seq<Filter>)
    ensures out + Body(opts, hashHex, a) + Body(opts, hashHex, b) == out + Body(opts, hashHex, a + b)
  {
    BodyAppend(opts, hashHex, a, b);
    AppendAssoc(out, Body(opts, hashHex, a), Body(opts, hashHex, b));
  }

  lemma LogAppend(progress: bool, log: seq<LogLine>, a: seq<Filter>, b: seq<Filter>, lo: int)
    ensures log + ProgressLines(progress, lo, lo + |a|) + ProgressLines(progress, lo + |a|, lo + |a| + |b|)
         == log + ProgressLines(progress, lo, lo + |a + b|)
  {
    ProgressLinesSplit(progress, lo, lo + |a|, lo + |a| + |b|);
    AppendAssoc(log, ProgressLines(progress, lo, lo + |a|), ProgressLines(progress, lo + |a|, lo + |a| + |b|));
  }

  lemma StatsAppend(t: Tally, a: seq<Filter>, b: seq<Filter>)
    ensures t.total + TotalLen(a) + TotalLen(b) == t.total + TotalLen(a + b)
    ensures Max(Max(t.maxSize, MaxLen(a)), MaxLen(b)) == Max(t.maxSize, MaxLen(a + b))
    ensures t.digest + Concat(a) + Concat(b) == t.digest + Concat(a + b)
  {
    TotalLenAppend(a, b);
    MaxLenAppend(a, b);
    ConcatAppend(a, b);
    AppendAssoc(t.digest, Concat(a), Concat(b));
  }

  /** Writing nothing changes nothing. */
  lemma AfterNothing(opts: Config, hashHex: Filter -> seq<byte>, t: Tally, lo: int)
    ensures After(opts, hashHex, t, [], lo) == t
  {
  }

  /** Emitting one more filter extends the running totals by that filter. */
  lemma AfterSnoc(opts: Config, hashHex: Filter -> seq<byte>, t: Tally, done: seq<Filter>, f: Filter, lo: int)
    ensures var u := After(opts, hashHex, t, done, lo);
      After(opts, hashHex, t, done + [f], lo)
        == Tally(u.out + Record(opts, hashHex, f), u.log + ProgressAt(opts.progress, lo + |done|),
                 u.total + |f|, Max(u.maxSize, |f|), u.digest + f)
  {
    AfterOne(opts, hashHex, After(opts, hashHex, t, done, lo), f, lo + |done|);
    AfterAppend(opts, hashHex, t, done, [f], lo);
  }

  /** What writing one filter adds. */
  lemma AfterOne(opts: Config, hashHex: Filter -> seq<byte>, t: Tally, f: Filter, x: int)
    ensures After(opts, hashHex, t, [f], x)
      == Tally(t.out + Record(opts, hashHex, f), t.log + ProgressAt(opts.progress, x),
               t.total + |f|, Max(t.maxSize, |f|), t.digest + f)
  {
    assert [f][1..] == [];
    assert Body(opts, hashHex, [f]) == Record(opts, hashHex, f) + Body(opts, hashHex, []);
    assert ProgressLines(opts.progress, x, x + 1) == ProgressLines(opts.progress, x, x) + ProgressAt(opts.progress, x);
    assert TotalLen([f]) == |f| + TotalLen([]);
    assert MaxLen([f]) == |f|;
    assert Concat([f]) == f + Concat([]);
  }

  /** The filters up to `h`, followed by those of the window at `h`. */
  lemma FiltersExtend(rpc: Rpc, h: nat, slice: seq<Filter>)
    requires forall i :: 0 <= i < |slice| ==> slice[i] == FilterAt(rpc, h + i)
    ensures Filters(rpc, h + |slice|) == Filters(rpc, h) + slice
  {
    var before, after := Filters(rpc, h), Filters(rpc, h + |slice|);
    forall x | 0 <= x < h + |slice|
      ensures after[x] == (before + slice)[x]
    {
      if x >= h {
        assert (before + slice)[x] == slice[x - h];
      }
    }
  }

  lemma WalkStart(rpc: Rpc, target: int)
    ensures Walked(rpc, target, 0, [], {})
  {
    assert Windows(target)[..0] == [];
    if target < 0 {
      assert Windows(target) == [];
    }
  }

  /** A window whose fetches all succeed extends the walk by that window. */
  lemma WalkOn(rpc: Rpc, target: int, h: nat, step: nat, visited: seq<Window>, asked: set<int>, window: set<int>)
    requires Walked(rpc, target, h, visited, asked) && h <= target
    requires step == if h + Width > target then target - h + 1 else Width
    requires forall y :: h <= y < h + step ==> FetchOk(rpc, y)
    requires forall y :: y in window <==> h <= y < h + step
    ensures Walked(rpc, target, h + step, visited + [Window(h, h + step - 1)], asked + window)
  {
    VisitNext(target, h, step, visited);
  }

  /** The window the loop visits next is the next window of the partition. */
  lemma VisitNext(target: int, h: nat, step: nat, visited: seq<Window>)
    requires |visited| <= NumWindows(target) && visited == Windows(target)[..|visited|]
    requires h <= target && h == |visited| * Width
    requires step == if h + Width > target then target - h + 1 else Width
    ensures var v := visited + [Window(h, h + step - 1)];
      |v| <= NumWindows(target) && v == Windows(target)[..|v|]
      && (h + step > target ==> v == Windows(target))
  {
    var k := |visited|;
    assert Window(h, h + step - 1) == WindowAt(target, k);
    assert visited + [Window(h, h + step - 1)] == Windows(target)[..k + 1];
  }

  /** A window with a failing fetch ends the walk: the output stops before it, and
      every height of it was still requested. */
  lemma WalkStops(rpc: Rpc, target: int, h: nat, step: nat, visited: seq<Window>, asked: set<int>,
                  window: set<int>, x: int)
    requires Walked(rpc, target, h, visited, asked) && h <= target
    requires step == if h + Width > target then target - h + 1 else Width
    requires h <= x < h + step && !FetchOk(rpc, x)
    requires forall y :: y in window <==> h <= y < h + step
    ensures !Complete(rpc, target) && Emitted(rpc, target) == h
    ensures step == Min(Width, target + 1 - h)
    ensures var v := visited + [Window(h, h + step - 1)];
      0 < |v| <= NumWindows(target) && v == Windows(target)[..|v|]
    ensures forall y :: y in asked + window <==> 0 <= y < h + step
  {
    VisitNext(target, h, step, visited);
    StopsAtWindow(rpc, target, h, x);
  }

  /** A walk past the target fetched every height and visited every window. */
  lemma WalkEnds(rpc: Rpc, target: int, h: nat, visited: seq<Window>, asked: set<int>)
    requires Walked(rpc, target, h, visited, asked) && h > target
    ensures Complete(rpc, target) && Emitted(rpc, target) == h
    ensures visited == Windows(target)
    ensures forall y :: y in asked <==> 0 <= y <= target
  {
    RunsToEnd(rpc, target);
  }

  /** A failing fetch at `x` in the window starting at `h`, after every earlier
      height succeeded, means the run writes exactly the heights before `h`. */
  lemma StopsAtWindow(rpc: Rpc, target: int, h: int, x: int)
    requires 0 <= h <= x <= target && x < h + Width && h % Width == 0
    requires forall y :: 0 <= y < h ==> FetchOk(rpc, y)
    requires !FetchOk(rpc, x)
    ensures !Complete(rpc, target) && Emitted(rpc, target) == h
  {
    var f := FirstFailure(rpc, 0, target);
    assert f <= x;
    assert h <= f;
    DivBetween(f, h / Width);
  }

  /** When every height up to the target succeeded, the run is complete. */
  lemma RunsToEnd(rpc: Rpc, target: int)
    requires forall y :: 0 <= y <= target ==> FetchOk(rpc, y)
    ensures Complete(rpc, target) && Emitted(rpc, target) == Max(0, target + 1)
  {
  }
}
