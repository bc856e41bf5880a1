/** Deriving on after a rollback: when does a node that rolled back derive the blocks of a node that
    never did? A rollback restores the L1 context of the last retained cursor entry's own L1 block,
    whereas a derivation leaves the context of that block's parent; fillers show the difference. */
module AfterRollback {
  import opened Wrappers
  import opened Collections
  import opened MachineInts
  import opened Timestamps
  import opened CrossChain
  import opened Consumption
  import opened StableOrder
  import opened Derivation
  import opened Contiguity
  import opened WindowIndependence
  import opened Provenance
  import opened CursorRuns

  // ---- Two starting contexts, one window ----

  function Start(cfg: RollupConfig, st: PipelineState): L1Info {
    GapInfo(cfg, st.deploymentHash, st.lastL1Info)
  }

  /** The fillers below the first submission. */
  function Opening(cfg: RollupConfig, head: U64, metas: seq<BlockMeta>, info: L1Info): seq<DerivedBlock> {
    if metas == [] then [] else GapFill(cfg, SaturatingAdd(head, 1), metas[0].l2Number, info)
  }

  /** States that differ only in their L1 context and their execution cursors. */
  ghost predicate Twins(a: PipelineState, b: PipelineState) {
    a.lastProcessed == b.lastProcessed && a.lastDerived == b.lastDerived && a.deploymentHash == b.deploymentHash
  }

  /** Runs from twin states have pushed the same blocks after their own opening fillers. */
  ghost predicate TwinRuns(
    cfg: RollupConfig, a: PipelineState, b: PipelineState, p: Progress, q: Progress, common: seq<DerivedBlock>)
  {
    && p.derived == q.derived && p.metas == q.metas && p.remaining == q.remaining
    && p.blocks == Opening(cfg, a.lastDerived, p.metas, Start(cfg, a)) + common
    && q.blocks == Opening(cfg, a.lastDerived, p.metas, Start(cfg, b)) + common
    && (if p.metas == [] then
          && p.derived == a.lastDerived && common == []
          && GapInfo(cfg, a.deploymentHash, p.info) == Start(cfg, a)
          && GapInfo(cfg, a.deploymentHash, q.info) == Start(cfg, b)
        else p.info == q.info)
  }

  ghost predicate TwinResults(
    cfg: RollupConfig, a: PipelineState, b: PipelineState, p: Result<Progress, DeriveError>,
    q: Result<Progress, DeriveError>, common: seq<DerivedBlock>)
  {
    match (p, q)
    case (Ok(x), Ok(y)) => TwinRuns(cfg, a, b, x, y, common)
    case (Err(e), Err(f)) => e == f
    case _ => false
  }

  function Pushed(p: Progress, gap: seq<DerivedBlock>, blk: DerivedBlock, entry: BlockMeta, info: L1Info): Progress {
    Progress(blk.number, Some(info), p.execution, p.remaining, p.blocks + gap + [blk], p.metas + [entry])
  }

  /** The first submission of a run opens both with their own fillers. */
  lemma FirstPush(
      cfg: RollupConfig, a: PipelineState, b: PipelineState, p: Progress, q: Progress, blk: DerivedBlock,
      entry: BlockMeta, info: L1Info)
    requires Twins(a, b) && TwinRuns(cfg, a, b, p, q, []) && p.metas == []
    ensures TwinRuns(cfg, a, b,
                     Pushed(p, Opening(cfg, a.lastDerived, [entry], Start(cfg, a)), blk, entry, info),
                     Pushed(q, Opening(cfg, a.lastDerived, [entry], Start(cfg, b)), blk, entry, info), [blk])
  {
    assert p.metas + [entry] == [entry];
    assert p.blocks == [] && q.blocks == [];
    var gapA := Opening(cfg, a.lastDerived, [entry], Start(cfg, a));
    var gapB := Opening(cfg, a.lastDerived, [entry], Start(cfg, b));
    assert [] + gapA == gapA && [] + gapB == gapB;
  }

  lemma LaterPush(
      cfg: RollupConfig, a: PipelineState, b: PipelineState, p: Progress, q: Progress, common: seq<DerivedBlock>,
      gap: seq<DerivedBlock>, blk: DerivedBlock, entry: BlockMeta, info: L1Info)
    requires Twins(a, b) && TwinRuns(cfg, a, b, p, q, common) && p.metas != []
    ensures TwinRuns(cfg, a, b, Pushed(p, gap, blk, entry, info), Pushed(q, gap, blk, entry, info),
                     common + gap + [blk])
  {
    assert (p.metas + [entry])[0] == p.metas[0];
    PushAfter(Opening(cfg, a.lastDerived, p.metas, Start(cfg, a)), common, gap, blk);
    PushAfter(Opening(cfg, a.lastDerived, p.metas, Start(cfg, b)), common, gap, blk);
  }

  lemma PushAfter(opening: seq<DerivedBlock>, common: seq<DerivedBlock>, gap: seq<DerivedBlock>, blk: DerivedBlock)
    ensures opening + common + gap + [blk] == opening + (common + gap + [blk])
  {
  }

  lemma TwinBlock(
      cfg: RollupConfig, a: PipelineState, b: PipelineState, ctx: BatchContext, i: nat, n: U64, txs: Payload,
      p: Progress, q: Progress, common: seq<DerivedBlock>)
    returns (common': seq<DerivedBlock>)
    requires Twins(a, b) && TwinRuns(cfg, a, b, p, q, common)
    ensures TwinResults(cfg, a, b, ProcessBlock(cfg, a, ctx, i, n, txs, p), ProcessBlock(cfg, b, ctx, i, n, txs, q),
                        common')
  {
    common' := common;
    if !Stale(a, p, n) && L2TimestampChecked(cfg, n).Some? {
      var expected := SaturatingAdd(p.derived, 1);
      var blk := SubmittedBlock(ctx, i, n, L2TimestampChecked(cfg, n).value, txs);
      var entry := BlockMeta(n, ctx.l1Block, ctx.l1Hash);
      var info := L1Info(SaturatingSub(ctx.l1Block, 1), ctx.parentHash);
      if p.metas == [] {
        FirstPush(cfg, a, b, p, q, blk, entry, info);
        common' := [blk];
      } else {
        var gap := if n > expected then GapFill(cfg, expected, n, GapInfo(cfg, a.deploymentHash, p.info)) else [];
        LaterPush(cfg, a, b, p, q, common, gap, blk, entry, info);
        common' := common + gap + [blk];
      }
    }
  }

  lemma {:induction false} TwinBlocks(
      cfg: RollupConfig, a: PipelineState, b: PipelineState, ctx: BatchContext, batch: Batch, i: nat,
      p: Progress, q: Progress, common: seq<DerivedBlock>)
    returns (common': seq<DerivedBlock>)
    requires Twins(a, b) && TwinRuns(cfg, a, b, p, q, common)
    ensures TwinResults(cfg, a, b, ProcessBlocks(cfg, a, ctx, batch, i, p), ProcessBlocks(cfg, b, ctx, batch, i, q),
                        common')
    decreases |batch.blockNumbers| - i
  {
    common' := common;
    if i < |batch.blockNumbers| && i < |batch.blockTxs| {
      var n, txs := batch.blockNumbers[i], batch.blockTxs[i];
      common' := TwinBlock(cfg, a, b, ctx, i, n, txs, p, q, common);
      var r, s := ProcessBlock(cfg, a, ctx, i, n, txs, p), ProcessBlock(cfg, b, ctx, i, n, txs, q);
      if r.Ok? && s.Ok? {
        common' := TwinBlocks(cfg, a, b, ctx, batch, i + 1, r.value, s.value, common');
      }
    }
  }

  lemma {:induction false} TwinLogs(
      cfg: RollupConfig, a: PipelineState, b: PipelineState, view: L1View, actions: seq<Action>, logs: seq<BatchLog>,
      p: Progress, q: Progress, common: seq<DerivedBlock>)
    returns (common': seq<DerivedBlock>)
    requires Twins(a, b) && TwinRuns(cfg, a, b, p, q, common)
    ensures TwinResults(cfg, a, b, ProcessLogs(cfg, a, view, actions, logs, p),
                        ProcessLogs(cfg, b, view, actions, logs, q), common')
  {
    common' := common;
    if logs != [] {
      common' := TwinLog(cfg, a, b, view, actions, logs[0], p, q, common);
      var r, s := ProcessLog(cfg, a, view, actions, logs[0], p), ProcessLog(cfg, b, view, actions, logs[0], q);
      if r.Ok? && s.Ok? {
        common' := TwinLogs(cfg, a, b, view, actions, logs[1..], r.value, s.value, common');
      }
    }
  }

  lemma TwinLog(
      cfg: RollupConfig, a: PipelineState, b: PipelineState, view: L1View, actions: seq<Action>, log: BatchLog,
      p: Progress, q: Progress, common: seq<DerivedBlock>)
    returns (common': seq<DerivedBlock>)
    requires Twins(a, b) && TwinRuns(cfg, a, b, p, q, common)
    ensures TwinResults(cfg, a, b, ProcessLog(cfg, a, view, actions, log, p),
                        ProcessLog(cfg, b, view, actions, log, q), common')
  {
    common' := common;
    if log.posted.Some? && log.l1Block in view.headers {
      var batch := log.posted.value;
      var ctx := ContextOf(cfg, actions, log.l1Block, view.headers[log.l1Block], batch, p.remaining);
      var drained := Drain(p.remaining, batch.entries);
      common' := TwinBlocks(cfg, a, b, ctx, batch, 0, p.(remaining := drained), q.(remaining := drained), common);
    }
  }

  // ---- Which number opens the window ----

  /** The first submitted number past the head that has a timestamp. */
  function FirstNew(cfg: RollupConfig, head: U64, ns: seq<U64>): Option<U64> {
    if ns == [] then None
    else if head < ns[0] && L2TimestampChecked(cfg, ns[0]).Some? then Some(ns[0])
    else FirstNew(cfg, head, ns[1..])
  }

  function Or(a: Option<U64>, b: Option<U64>): Option<U64> {
    if a.Some? then a else b
  }

  lemma {:induction false} FirstNewAppend(cfg: RollupConfig, head: U64, a: seq<U64>, b: seq<U64>)
    ensures FirstNew(cfg, head, a + b) == Or(FirstNew(cfg, head, a), FirstNew(cfg, head, b))
  {
    if a == [] {
      assert a + b == b;
    } else {
      FirstNewAppend(cfg, head, a[1..], b);
      assert (a + b)[1..] == a[1..] + b;
    }
  }

  /** `found` is the first number this run has taken. */
  predicate Opened(p: Progress, head: U64, found: Option<U64>) {
    if found.None? then p.metas == [] && p.derived == head
    else p.metas != [] && p.metas[0].l2Number == found.value
  }

  lemma BlockOpens(
      cfg: RollupConfig, st: PipelineState, ctx: BatchContext, i: nat, n: U64, txs: Payload, p: Progress,
      found: Option<U64>)
    requires Opened(p, st.lastDerived, found)
    requires ProcessBlock(cfg, st, ctx, i, n, txs, p).Ok?
    ensures Opened(ProcessBlock(cfg, st, ctx, i, n, txs, p).value, st.lastDerived,
                   Or(found, FirstNew(cfg, st.lastDerived, [n])))
  {
    assert [n][1..] == [] && FirstNew(cfg, st.lastDerived, []) == None;
    assert FirstNew(cfg, st.lastDerived, [n]) ==
           if st.lastDerived < n && L2TimestampChecked(cfg, n).Some? then Some(n) else None;
    var r := ProcessBlock(cfg, st, ctx, i, n, txs, p).value;
    if !Stale(st, p, n) && L2TimestampChecked(cfg, n).Some? {
      assert r.metas == p.metas + [BlockMeta(n, ctx.l1Block, ctx.l1Hash)];
      assert p.metas != [] ==> r.metas[0] == p.metas[0];
      assert p.metas == [] ==> r.metas[0].l2Number == n;
    }
  }

  lemma {:induction false} BlocksOpen(
      cfg: RollupConfig, st: PipelineState, ctx: BatchContext, b: Batch, i: nat, p: Progress, found: Option<U64>)
    requires Opened(p, st.lastDerived, found)
    requires i <= |BatchNumbers(b)|
    requires ProcessBlocks(cfg, st, ctx, b, i, p).Ok?
    ensures Opened(ProcessBlocks(cfg, st, ctx, b, i, p).value, st.lastDerived,
                   Or(found, FirstNew(cfg, st.lastDerived, BatchNumbers(b)[i..])))
    decreases |b.blockNumbers| - i
  {
    if i < |BatchNumbers(b)| {
      var n := b.blockNumbers[i];
      assert BatchNumbers(b)[i..] == [n] + BatchNumbers(b)[i + 1..];
      FirstNewAppend(cfg, st.lastDerived, [n], BatchNumbers(b)[i + 1..]);
      BlockOpens(cfg, st, ctx, i, n, b.blockTxs[i], p, found);
      BlocksOpen(cfg, st, ctx, b, i + 1, ProcessBlock(cfg, st, ctx, i, n, b.blockTxs[i], p).value,
                 Or(found, FirstNew(cfg, st.lastDerived, [n])));
    }
  }

  lemma LogOpens(
      cfg: RollupConfig, st: PipelineState, view: L1View, actions: seq<Action>, log: BatchLog, p: Progress,
      found: Option<U64>)
    requires Opened(p, st.lastDerived, found)
    requires ProcessLog(cfg, st, view, actions, log, p).Ok?
    ensures Opened(ProcessLog(cfg, st, view, actions, log, p).value, st.lastDerived,
                   Or(found, FirstNew(cfg, st.lastDerived, LogNumbers(log))))
  {
    if log.posted.Some? {
      var b := log.posted.value;
      var ctx := ContextOf(cfg, actions, log.l1Block, view.headers[log.l1Block], b, p.remaining);
      assert BatchNumbers(b)[0..] == BatchNumbers(b);
      BlocksOpen(cfg, st, ctx, b, 0, p.(remaining := Drain(p.remaining, b.entries)), found);
    }
  }

  lemma {:induction false} LogsOpen(
      cfg: RollupConfig, st: PipelineState, view: L1View, actions: seq<Action>, logs: seq<BatchLog>, p: Progress,
      found: Option<U64>)
    requires Opened(p, st.lastDerived, found)
    requires ProcessLogs(cfg, st, view, actions, logs, p).Ok?
    ensures Opened(ProcessLogs(cfg, st, view, actions, logs, p).value, st.lastDerived,
                   Or(found, FirstNew(cfg, st.lastDerived, Submitted(logs))))
  {
    if logs != [] {
      FirstNewAppend(cfg, st.lastDerived, LogNumbers(logs[0]), Submitted(logs[1..]));
      LogOpens(cfg, st, view, actions, logs[0], p, found);
      LogsOpen(cfg, st, view, actions, logs[1..], ProcessLog(cfg, st, view, actions, logs[0], p).value,
               Or(found, FirstNew(cfg, st.lastDerived, LogNumbers(logs[0]))));
    }
  }

  /** The first submitted number a window takes. */
  function FirstOf(cfg: RollupConfig, st: PipelineState, latest: U64, view: L1View): Option<U64> {
    FirstNew(cfg, st.lastDerived, Submitted(WindowOf(cfg, st, latest, view).logs))
  }

  // ---- Equal blocks ----

  lemma FirstOpening(cfg: RollupConfig, head: U64, n: U64, info: L1Info, common: seq<DerivedBlock>)
    requires head < n && L2TimestampChecked(cfg, n).Some?
    requires head + 1 < n
    ensures var found := First(GapFill(cfg, SaturatingAdd(head, 1), n, info) + common, BlockKey, head + 1);
            found.Some? && found.value.l1Info == info
  {
    var gap := GapFill(cfg, SaturatingAdd(head, 1), n, info);
    GapFillIsComplete(cfg, SaturatingAdd(head, 1), n, info, head + 1);
    FillerIs(cfg, SaturatingAdd(head, 1), n, info, head + 1);
    FirstAppend(gap, common, BlockKey, head + 1);
  }

  /** After sorting, the two runs hold the same blocks exactly when the contexts agree or there was
      nothing to fill. */
  lemma TwinsAgreeIff(cfg: RollupConfig, a: PipelineState, b: PipelineState, p: Progress, q: Progress,
                      common: seq<DerivedBlock>, found: Option<U64>)
    requires TwinRuns(cfg, a, b, p, q, common)
    requires Opened(p, a.lastDerived, found)
    requires found.Some? ==> a.lastDerived < found.value && L2TimestampChecked(cfg, found.value).Some?
    ensures SortDedup(p.blocks, BlockKey) == SortDedup(q.blocks, BlockKey)
            <==> Start(cfg, a) == Start(cfg, b) || found.None? || found.value == a.lastDerived + 1
  {
    if found.Some? && found.value > a.lastDerived + 1 {
      FirstOpening(cfg, a.lastDerived, found.value, Start(cfg, a), common);
      FirstOpening(cfg, a.lastDerived, found.value, Start(cfg, b), common);
      SortDedupKeepsFirst(p.blocks, BlockKey, a.lastDerived + 1);
      SortDedupKeepsFirst(q.blocks, BlockKey, a.lastDerived + 1);
    }
  }

  lemma {:induction false} FirstNewIsNew(cfg: RollupConfig, head: U64, ns: seq<U64>)
    ensures var found := FirstNew(cfg, head, ns);
            found.Some? ==> head < found.value && L2TimestampChecked(cfg, found.value).Some?
  {
    if ns != [] {
      FirstNewIsNew(cfg, head, ns[1..]);
    }
  }

  lemma FreshTwins(cfg: RollupConfig, a: PipelineState, b: PipelineState, events: seq<ConsumedEvent>)
    requires Twins(a, b)
    ensures TwinRuns(cfg, a, b, StartProgress(a, events), StartProgress(b, events), [])
    ensures Opened(StartProgress(a, events), a.lastDerived, None)
  {
    var none: seq<DerivedBlock> := [];
    assert none + none == none;
  }

  /** Twin states derive the same windows, and the same blocks exactly when their contexts agree or
      the window starts at the next number or not at all. */
  lemma TwinsDerive(
      cfg: RollupConfig, a: PipelineState, b: PipelineState, latest: U64, view: L1View)
    requires Twins(a, b)
    ensures var r, s := Derived(cfg, a, latest, view), Derived(cfg, b, latest, view);
            && (r.Ok? <==> s.Ok?)
            && (r.Err? ==> r == s)
            && (r.Ok? && a.lastProcessed < latest ==>
                  (r.value.blocks == s.value.blocks
                   <==> Start(cfg, a) == Start(cfg, b) || FirstOf(cfg, a, latest, view).None?
                        || FirstOf(cfg, a, latest, view).value == a.lastDerived + 1))
  {
    if a.lastProcessed < latest {
      var w, events := WindowOf(cfg, a, latest, view), WindowEvents(cfg, a, latest, view);
      FreshTwins(cfg, a, b, events);
      var p, q := StartProgress(a, events), StartProgress(b, events);
      var common := TwinLogs(cfg, a, b, view, w.actions, w.logs, p, q, []);
      var r, s := ProcessLogs(cfg, a, view, w.actions, w.logs, p), ProcessLogs(cfg, b, view, w.actions, w.logs, q);
      if r.Ok? {
        LogsOpen(cfg, a, view, w.actions, w.logs, p, None);
        FirstNewIsNew(cfg, a.lastDerived, Submitted(w.logs));
        TwinsAgreeIff(cfg, a, b, r.value, s.value, common, FirstOf(cfg, a, latest, view));
      }
    }
  }

  lemma BlocksNeedEntries(cfg: RollupConfig, st: PipelineState, latest: U64, view: L1View, r: DerivedBatch)
    requires Derived(cfg, st, latest, view) == Ok(r)
    ensures r.blocks == [] <==> PushedEntries(cfg, st, latest, view) == []
  {
    var metas := PushedEntries(cfg, st, latest, view);
    if r.blocks != [] {
      EveryBlockComesFromL1(cfg, st, latest, view, r, 0);
    } else if metas != [] {
      FirstOfMember(metas, MetaKey, 0);
      SortDedupKeepsFirst(metas, MetaKey, MetaKey(metas[0]));
      var at := NewEntry(cfg, st, latest, view, r, 0);
    }
  }

  /** A window brings blocks exactly when it submits a new number. */
  lemma BlocksIffNew(cfg: RollupConfig, st: PipelineState, latest: U64, view: L1View, r: DerivedBatch)
    requires Derived(cfg, st, latest, view) == Ok(r) && st.lastProcessed < latest
    ensures r.blocks == [] <==> FirstOf(cfg, st, latest, view).None?
  {
    var w, events := WindowOf(cfg, st, latest, view), WindowEvents(cfg, st, latest, view);
    BlocksNeedEntries(cfg, st, latest, view, r);
    LogsOpen(cfg, st, view, w.actions, w.logs, StartProgress(st, events), None);
  }

  lemma OtherHeadOtherBlocks(cfg: RollupConfig, a: PipelineState, b: PipelineState, latest: U64, view: L1View,
                             r: DerivedBatch, s: DerivedBatch)
    requires a.lastDerived != b.lastDerived
    requires Derived(cfg, a, latest, view) == Ok(r) && Derived(cfg, b, latest, view) == Ok(s)
    ensures r.blocks == s.blocks <==> r.blocks == [] && s.blocks == []
  {
    DerivedBlocksAreContiguous(cfg, a, latest, view, 0);
    DerivedBlocksAreContiguous(cfg, b, latest, view, 0);
  }

  lemma TwinBlocksIff(cfg: RollupConfig, a: PipelineState, b: PipelineState, latest: U64, view: L1View,
                      r: DerivedBatch, s: DerivedBatch)
    requires Twins(a, b)
    requires Derived(cfg, a, latest, view) == Ok(r) && Derived(cfg, b, latest, view) == Ok(s)
    ensures r.blocks == [] <==> s.blocks == []
    ensures r.blocks == s.blocks
            <==> r.blocks == [] || Start(cfg, a) == Start(cfg, b)
                 || FirstOf(cfg, a, latest, view) == Some(a.lastDerived + 1)
  {
    TwinsDerive(cfg, a, b, latest, view);
    if a.lastProcessed < latest {
      BlocksIffNew(cfg, a, latest, view, r);
      BlocksIffNew(cfg, b, latest, view, s);
    }
  }

  /** Two states at the same L1 block derive the same blocks exactly when there are none, or they
      have the same head and either the same context or nothing to fill before the first new
      submission. */
  lemma SameBlocksIff(cfg: RollupConfig, a: PipelineState, b: PipelineState, latest: U64, view: L1View,
                      r: DerivedBatch, s: DerivedBatch)
    requires a.lastProcessed == b.lastProcessed && a.deploymentHash == b.deploymentHash
    requires Derived(cfg, a, latest, view) == Ok(r) && Derived(cfg, b, latest, view) == Ok(s)
    ensures r.blocks == s.blocks
            <==> (r.blocks == [] && s.blocks == [])
                 || (&& a.lastDerived == b.lastDerived
                     && (Start(cfg, a) == Start(cfg, b) || FirstOf(cfg, a, latest, view) == Some(a.lastDerived + 1)))
  {
    if a.lastDerived == b.lastDerived {
      TwinBlocksIff(cfg, a, b, latest, view, r, s);
    } else {
      OtherHeadOtherBlocks(cfg, a, b, latest, view, r, s);
    }
  }

  // ---- Rolling a commit back ----

  /** The state after a batch is committed and the node rolls back to where it was. */
  function Undone(st: PipelineState, orphan: DerivedBatch): PipelineState {
    RolledBack(Committed(st, orphan), st.lastProcessed)
  }

  lemma {:induction false} UpToAppend(a: seq<BlockMeta>, b: seq<BlockMeta>, l1Block: U64)
    ensures UpTo(a + b, l1Block) == UpTo(a, l1Block) + UpTo(b, l1Block)
  {
    if b == [] {
      assert a + b == a;
    } else {
      var rest, last := b[..|b| - 1], b[|b| - 1];
      UpToAppend(a, rest, l1Block);
      UpToSnoc(a + rest, last, l1Block);
      UpToSnoc(rest, last, l1Block);
      assert b == rest + [last] && a + b == a + rest + [last];
      AppendAssociates(UpTo(a, l1Block), UpTo(rest, l1Block), if last.l1Number <= l1Block then [last] else []);
    }
  }

  lemma UpToSnoc(a: seq<BlockMeta>, m: BlockMeta, l1Block: U64)
    ensures UpTo(a + [m], l1Block) == UpTo(a, l1Block) + if m.l1Number <= l1Block then [m] else []
  {
    assert (a + [m])[..|a|] == a;
  }

  lemma {:induction false} UpToWithin(a: seq<BlockMeta>, l1Block: U64)
    ensures L1Within(a, 0, l1Block) ==> UpTo(a, l1Block) == a
    ensures L1Within(a, l1Block + 1, U64_MAX) ==> UpTo(a, l1Block) == []
  {
    if a != [] {
      var n := |a| - 1;
      UpToWithin(a[..n], l1Block);
      UpToSnoc(a[..n], a[n], l1Block);
      assert a == a[..n] + [a[n]];
    }
  }

  /** How many entries of a cursor the cap drops when new ones join it. */
  function CapDrops(cursor: seq<BlockMeta>, added: seq<BlockMeta>): (n: nat)
    ensures n <= |cursor|
  {
    Min(|cursor|, |cursor + added| - |Capped(cursor + added)|)
  }

  lemma OldEntriesStay(kept: seq<BlockMeta>, rest: seq<BlockMeta>, l1Block: U64)
    requires L1Within(kept, 0, l1Block) && L1Within(rest, l1Block + 1, U64_MAX)
    ensures UpTo(kept + rest, l1Block) == kept
  {
    UpToAppend(kept, rest, l1Block);
    UpToWithin(kept, l1Block);
    UpToWithin(rest, l1Block);
    assert kept + [] == kept;
  }

  lemma SuffixWithin(s: seq<BlockMeta>, n: nat, lo: int, hi: int)
    requires n <= |s| && L1Within(s, lo, hi)
    ensures L1Within(s[n..], lo, hi)
  {
  }

  lemma RetainedAfterCap(cursor: seq<BlockMeta>, added: seq<BlockMeta>, l1Block: U64)
    requires L1Within(cursor, 0, l1Block) && L1Within(added, l1Block + 1, U64_MAX)
    ensures UpTo(Capped(cursor + added), l1Block) == cursor[CapDrops(cursor, added)..]
  {
    var cut := |cursor + added| - |Capped(cursor + added)|;
    CappedParts(cursor, added, cut);
    SuffixWithin(cursor, CapDrops(cursor, added), 0, l1Block);
    SuffixWithin(added, cut - CapDrops(cursor, added), l1Block + 1, U64_MAX);
    OldEntriesStay(cursor[CapDrops(cursor, added)..], added[cut - CapDrops(cursor, added)..], l1Block);
  }

  lemma CappedParts(cursor: seq<BlockMeta>, added: seq<BlockMeta>, cut: nat)
    requires cut == |cursor + added| - |Capped(cursor + added)|
    ensures Capped(cursor + added) == cursor[CapDrops(cursor, added)..] + added[cut - CapDrops(cursor, added)..]
  {
    assert Capped(cursor + added) == (cursor + added)[cut..];
  }

  /** The rollback gives back the old cursor, but for what the cap dropped, and the processed block;
      the execution cursor stays at or below it. */
  lemma UndoneCursor(cfg: RollupConfig, st: PipelineState, latest: U64, view: L1View, orphan: DerivedBatch)
    requires Sound(st)
    requires Derived(cfg, st, latest, view) == Ok(orphan)
    ensures var back := Undone(st, orphan);
            && back.cursor == st.cursor[CapDrops(st.cursor, orphan.update.newEntries)..]
            && back.lastProcessed == st.lastProcessed
            && st.lastExecution <= back.lastExecution <= st.lastProcessed
  {
    NewEntriesAreNew(cfg, st, latest, view, orphan);
    DerivedCursorEntries(cfg, st, latest, view);
    RetainedAfterCap(st.cursor, orphan.update.newEntries, st.lastProcessed);
  }

  /** After a commit is rolled back, deriving any window gives the blocks that a node which never
      committed it derives, exactly when there are none, or the rollback restored the head and either
      the context is the same or the window's first new submission leaves nothing to fill. */
  lemma DerivingAfterRollbackIff(
      cfg: RollupConfig, st: PipelineState, t: U64, past: L1View, orphan: DerivedBatch, latest: U64, view: L1View,
      r: DerivedBatch, s: DerivedBatch)
    requires Sound(st) && Derived(cfg, st, t, past) == Ok(orphan)
    requires Derived(cfg, st, latest, view) == Ok(r)
    requires Derived(cfg, Undone(st, orphan), latest, view) == Ok(s)
    ensures var back := Undone(st, orphan);
            r.blocks == s.blocks
            <==> (r.blocks == [] && s.blocks == [])
                 || (&& st.lastDerived == back.lastDerived
                     && (Start(cfg, st) == Start(cfg, back)
                         || FirstOf(cfg, st, latest, view) == Some(st.lastDerived + 1)))
  {
    UndoneCursor(cfg, st, t, past, orphan);
    SameBlocksIff(cfg, st, Undone(st, orphan), latest, view, r, s);
  }

  // ---- The ordinary case ----

  /** The last cursor entry is the head's, and the context is the parent of its L1 block. */
  ghost predicate Settled(cfg: RollupConfig, st: PipelineState) {
    && st.cursor != []
    && st.cursor[|st.cursor| - 1].l2Number == st.lastDerived
    && Start(cfg, st).number + 1 == st.cursor[|st.cursor| - 1].l1Number
  }

  lemma {:induction false} ReachedNumber(metas: seq<BlockMeta>, k: int)
    ensures Reach(metas, k) < |metas| ==> metas[Reach(metas, k)].l2Number >= k
  {
    if metas != [] {
      ReachedNumber(metas[..|metas| - 1], k);
    }
  }

  lemma ReachedAtLast(metas: seq<BlockMeta>, k: int)
    requires StrictlyIncreasing(metas, MetaKey) && Reach(metas, k) < |metas|
    requires metas[|metas| - 1].l2Number <= k
    ensures metas[|metas| - 1].l2Number == k
  {
    ReachedNumber(metas, k);
    var r := Reach(metas, k);
    assert r < |metas| - 1 ==> MetaKey(metas[r]) < MetaKey(metas[|metas| - 1]);
  }

  lemma IncreasingEntriesArePushed(cfg: RollupConfig, st: PipelineState, latest: U64, view: L1View, r: DerivedBatch)
    requires Derived(cfg, st, latest, view) == Ok(r)
    requires Increasing(Submitted(WindowOf(cfg, st, latest, view).logs))
    ensures r.update.newEntries == PushedEntries(cfg, st, latest, view)
  {
    if st.lastProcessed < latest {
      var w := WindowOf(cfg, st, latest, view);
      assert Submitted(w.logs) + [] == Submitted(w.logs);
      InOrderAtCut(cfg, st, view, w.actions, WindowEvents(cfg, st, latest, view), w.logs, []);
      SortDedupOfStrict(PushedEntries(cfg, st, latest, view), MetaKey);
    }
  }

  lemma HeadIsReached(cfg: RollupConfig, st: PipelineState, latest: U64, view: L1View, r: DerivedBatch)
    requires Derived(cfg, st, latest, view) == Ok(r) && r.blocks != []
    ensures Reach(PushedEntries(cfg, st, latest, view), r.update.lastDerived) < |PushedEntries(cfg, st, latest, view)|
  {
    var top := |r.blocks| - 1;
    DerivedBlocksAreContiguous(cfg, st, latest, view, top);
    EveryBlockComesFromL1(cfg, st, latest, view, r, top);
    ExpectedIsReached(cfg, WindowOf(cfg, st, latest, view), Start(cfg, st), PushedEntries(cfg, st, latest, view),
                      r.blocks[top]);
  }

  lemma ExpectedIsReached(cfg: RollupConfig, w: Window, start: L1Info, metas: seq<BlockMeta>, blk: DerivedBlock)
    requires Expected(cfg, w, start, metas, blk)
    ensures Reach(metas, blk.number) < |metas|
  {
  }

  /** The last entry of an increasing window is the head's. */
  lemma LastEntryIsHead(cfg: RollupConfig, st: PipelineState, latest: U64, view: L1View, r: DerivedBatch)
    requires Derived(cfg, st, latest, view) == Ok(r)
    requires Increasing(Submitted(WindowOf(cfg, st, latest, view).logs))
    requires r.update.newEntries != []
    ensures r.update.newEntries[|r.update.newEntries| - 1].l2Number == r.update.lastDerived
  {
    IncreasingEntriesArePushed(cfg, st, latest, view, r);
    DerivedCursorEntries(cfg, st, latest, view);
    BlocksNeedEntries(cfg, st, latest, view, r);
    HeadIsReached(cfg, st, latest, view, r);
    ReachedAtLast(r.update.newEntries, r.update.lastDerived);
  }

  lemma ContextOfLastEntry(cfg: RollupConfig, st: PipelineState, latest: U64, view: L1View, r: DerivedBatch)
    requires Derived(cfg, st, latest, view) == Ok(r) && PushedEntries(cfg, st, latest, view) != []
    ensures var metas := PushedEntries(cfg, st, latest, view);
            Start(cfg, Committed(st, r)) == InfoOf(view, metas[|metas| - 1])
  {
    var m := WindowIsTraced(cfg, st, latest, view);
  }

  lemma CappedLast(cursor: seq<BlockMeta>, added: seq<BlockMeta>)
    requires added != []
    ensures Capped(cursor + added) != []
    ensures Capped(cursor + added)[|Capped(cursor + added)| - 1] == added[|added| - 1]
  {
    assert (cursor + added)[|cursor + added| - 1] == added[|added| - 1];
  }

  /** Committing an increasing window that brought a block settles the state. */
  lemma CommitSettles(cfg: RollupConfig, st: PipelineState, latest: U64, view: L1View, r: DerivedBatch)
    requires Derived(cfg, st, latest, view) == Ok(r)
    requires Increasing(Submitted(WindowOf(cfg, st, latest, view).logs))
    requires r.update.newEntries != []
    ensures Settled(cfg, Committed(st, r))
  {
    LastEntryIsHead(cfg, st, latest, view, r);
    IncreasingEntriesArePushed(cfg, st, latest, view, r);
    NewEntriesAreNew(cfg, st, latest, view, r);
    ContextOfLastEntry(cfg, st, latest, view, r);
    SettledBy(cfg, Committed(st, r), st.cursor, r.update.newEntries);
  }

  lemma SettledBy(cfg: RollupConfig, st: PipelineState, before: seq<BlockMeta>, added: seq<BlockMeta>)
    requires added != [] && st.cursor == Capped(before + added)
    requires added[|added| - 1].l2Number == st.lastDerived
    requires Start(cfg, st).number + 1 == added[|added| - 1].l1Number
    ensures Settled(cfg, st)
  {
    CappedLast(before, added);
  }

  lemma UndoneKeepsLast(cfg: RollupConfig, st: PipelineState, t: U64, past: L1View, orphan: DerivedBatch)
    requires Sound(st) && Derived(cfg, st, t, past) == Ok(orphan)
    requires CapDrops(st.cursor, orphan.update.newEntries) < |st.cursor|
    ensures var back := Undone(st, orphan);
            back.cursor != [] && back.cursor[|back.cursor| - 1] == st.cursor[|st.cursor| - 1]
  {
    UndoneCursor(cfg, st, t, past, orphan);
  }

  /** A rollback takes head and context from the last entry it retains. */
  lemma RestoredHead(cfg: RollupConfig, st: PipelineState, l1Block: U64)
    requires RolledBack(st, l1Block).cursor != []
    ensures var back := RolledBack(st, l1Block);
            var last := back.cursor[|back.cursor| - 1];
            back.lastDerived == last.l2Number && Start(cfg, back) == L1Info(last.l1Number, last.l1Hash)
  {
  }

  lemma UndoneIsTwin(cfg: RollupConfig, st: PipelineState, t: U64, past: L1View, orphan: DerivedBatch)
    requires Sound(st) && Settled(cfg, st) && Derived(cfg, st, t, past) == Ok(orphan)
    requires CapDrops(st.cursor, orphan.update.newEntries) < |st.cursor|
    ensures Twins(st, Undone(st, orphan)) && Start(cfg, st) != Start(cfg, Undone(st, orphan))
  {
    UndoneKeepsLast(cfg, st, t, past, orphan);
    RestoredHead(cfg, Committed(st, orphan), st.lastProcessed);
    SameLastIsTwin(cfg, st, Undone(st, orphan));
  }

  lemma SameLastIsTwin(cfg: RollupConfig, st: PipelineState, back: PipelineState)
    requires st.lastProcessed == back.lastProcessed && st.deploymentHash == back.deploymentHash
    requires Settled(cfg, st) && back.cursor != []
    requires back.cursor[|back.cursor| - 1] == st.cursor[|st.cursor| - 1]
    requires back.lastDerived == back.cursor[|back.cursor| - 1].l2Number
    requires Start(cfg, back).number == back.cursor[|back.cursor| - 1].l1Number
    ensures Twins(st, back) && Start(cfg, st) != Start(cfg, back)
  {
  }

  /** From a settled state, as long as the cap leaves one of the old entries, the rolled back node
      derives every window the other one does, and the same blocks exactly when there are none or the
      first new submission is the next number. A filler before it carries a different context. */
  lemma SettledRollbackIff(
      cfg: RollupConfig, st: PipelineState, t: U64, past: L1View, orphan: DerivedBatch, latest: U64, view: L1View)
    requires Sound(st) && Settled(cfg, st) && Derived(cfg, st, t, past) == Ok(orphan)
    requires CapDrops(st.cursor, orphan.update.newEntries) < |st.cursor|
    ensures var r, s := Derived(cfg, st, latest, view), Derived(cfg, Undone(st, orphan), latest, view);
            && (r.Ok? <==> s.Ok?)
            && (r.Ok? ==>
                  (r.value.blocks == s.value.blocks
                   <==> r.value.blocks == [] || FirstOf(cfg, st, latest, view) == Some(st.lastDerived + 1)))
  {
    UndoneIsTwin(cfg, st, t, past, orphan);
    TwinsDerive(cfg, st, Undone(st, orphan), latest, view);
    if Derived(cfg, st, latest, view).Ok? {
      TwinBlocksIff(cfg, st, Undone(st, orphan), latest, view, Derived(cfg, st, latest, view).value,
                    Derived(cfg, Undone(st, orphan), latest, view).value);
    }
  }

  // ---- A window where it differs ----

  /** L1 block 10 submits L2 block 1, and block 12 then submits L2 block 3. */
  function Skipping(first: Payload, second: Payload): L1View {
    L1View(
      [BatchLog(10, Some(Batch([], [1], [first]))), BatchLog(12, Some(Batch([], [3], [second])))],
      [],
      map[10 := L1Header(110, 109), 12 := L1Header(112, 111)])
  }

  lemma LogsInPair(a: BatchLog, b: BatchLog, from: U64, to: U64)
    ensures LogsIn([a, b], from, to) ==
            (if from <= a.l1Block <= to then [a] else []) + if from <= b.l1Block <= to then [b] else []
  {
    assert [a, b][1..] == [b] && [b][1..] == [];
    LogsInHead([a, b], from, to);
    LogsInHead([b], from, to);
    assert LogsIn([], from, to) == [];
  }

  lemma SkippingLogs(first: Payload, second: Payload)
    ensures LogsIn(Skipping(first, second).logs, 10, 10) == [Skipping(first, second).logs[0]]
    ensures LogsIn(Skipping(first, second).logs, 11, 11) == []
    ensures LogsIn(Skipping(first, second).logs, 11, 12) == [Skipping(first, second).logs[1]]
  {
    var logs := Skipping(first, second).logs;
    LogsInPair(logs[0], logs[1], 10, 10);
    LogsInPair(logs[0], logs[1], 11, 11);
    LogsInPair(logs[0], logs[1], 11, 12);
  }

  lemma SkippingWindow(
      cfg: RollupConfig, st: PipelineState, first: Payload, second: Payload, latest: U64, k: nat, n: U64)
    requires !cfg.rollupsAddressSet && k < 2
    requires if k == 0 then st.lastProcessed == 9 && latest == 10 && n == 1
             else st.lastProcessed == 10 && latest == 12 && n == 3
    requires st.lastDerived < n <= st.lastDerived + MAX_BLOCK_GAP && L2TimestampChecked(cfg, n).Some?
    ensures WindowOf(cfg, st, latest, Skipping(first, second)).logs == [Skipping(first, second).logs[k]]
    ensures Submitted(WindowOf(cfg, st, latest, Skipping(first, second)).logs) == [n]
    ensures Derived(cfg, st, latest, Skipping(first, second)).Ok?
    ensures PushedEntries(cfg, st, latest, Skipping(first, second)) == [BlockMeta(n, latest, 100 + latest)]
  {
    var view := Skipping(first, second);
    var logs, a, p := view.logs, ConsumedActions([]), StartProgress(st, []);
    SkippingLogs(first, second);
    var txs := if k == 0 then first else second;
    OneBlockLog(cfg, st, view, a, logs[k], p, n, txs);
    OneLog(cfg, st, view, a, logs[k], p);
    assert [logs[k]][1..] == [] && LogNumbers(logs[k]) == [n] && [n] + [] == [n];
  }

  lemma OneLog(cfg: RollupConfig, st: PipelineState, view: L1View, actions: seq<Action>, log: BatchLog, p: Progress)
    ensures ProcessLogs(cfg, st, view, actions, [log], p) == ProcessLog(cfg, st, view, actions, log, p)
  {
    var r := ProcessLog(cfg, st, view, actions, log, p);
    assert [log][1..] == [];
    if r.Ok? {
      assert ProcessLogs(cfg, st, view, actions, [], r.value) == Ok(r.value);
    }
  }

  /** One node derives up to L1 block 10 and then up to 12. Another, after 10, looks at the empty block
      11, rolls back to 10, and derives the same window: its filler for L2 block 2 stands in the
      context of L1 block 10, not 9. */
  lemma RollbackChangesAFiller(cfg: RollupConfig, first: Payload, second: Payload)
    requires cfg.deploymentL1Block == 9 && !cfg.rollupsAddressSet
    requires L2TimestampChecked(cfg, 3).Some?
    ensures var view := Skipping(first, second);
            var start := Derived(cfg, Initial(cfg), 10, view);
            && start.Ok?
            && var st := Committed(Initial(cfg), start.value);
               var orphan := Derived(cfg, st, 11, view);
               && orphan.Ok?
               && var r, s := Derived(cfg, st, 12, view), Derived(cfg, Undone(st, orphan.value), 12, view);
                  r.Ok? && s.Ok? && r.value.blocks != s.value.blocks
  {
    var view := Skipping(first, second);
    CheckedTimestampDownward(cfg, 1, 3);
    SkippingWindow(cfg, Initial(cfg), first, second, 10, 0, 1);
    var start := Derived(cfg, Initial(cfg), 10, view).value;
    IncreasingEntriesArePushed(cfg, Initial(cfg), 10, view, start);
    CommitSettles(cfg, Initial(cfg), 10, view, start);
    CommitKeepsSound(cfg, Initial(cfg), 10, view);
    var st := Committed(Initial(cfg), start);
    assert st.lastDerived == 1 && st.lastProcessed == 10;
    NothingAtEleven(cfg, st, first, second);
    SkippingWindow(cfg, st, first, second, 12, 1, 3);
    SettledRollbackIff(cfg, st, 11, view, Derived(cfg, st, 11, view).value, 12, view);
    BlocksIffNew(cfg, st, 12, view, Derived(cfg, st, 12, view).value);
    assert FirstOf(cfg, st, 12, view) == Some(3);
  }

  lemma NothingAtEleven(cfg: RollupConfig, st: PipelineState, first: Payload, second: Payload)
    requires !cfg.rollupsAddressSet && st.lastProcessed == 10
    ensures Derived(cfg, st, 11, Skipping(first, second)).Ok?
    ensures Derived(cfg, st, 11, Skipping(first, second)).value.update.newEntries == []
  {
    SkippingLogs(first, second);
  }
}
