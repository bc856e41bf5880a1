/** Nothing is invented: every block a window returns is fixed by the order in which L1 submitted
    block numbers. It is the submission of its number, or, when a larger number came first, an empty
    filler in the context of the submission before that one. */
module Provenance {
  import opened Wrappers
  import opened MachineInts
  import opened Timestamps
  import opened CrossChain
  import opened Consumption
  import opened StableOrder
  import opened Derivation
  import opened Contiguity
  import opened WindowConsumption
  import opened WindowIndependence

  // ---- What a window shows ----

  /** What the window loops read: the logs in range, and what its consumed events amount to. */
  datatype Window = Window(view: L1View, logs: seq<BatchLog>, actions: seq<Action>, counts: Counts)

  function WindowOf(cfg: RollupConfig, st: PipelineState, latest: U64, view: L1View): Window {
    var events := WindowEvents(cfg, st, latest, view);
    Window(view, LogsIn(view.logs, WindowStart(st), WindowEnd(st, latest)), ConsumedActions(events),
           ConsumedCounts(events))
  }

  /** The counter log `j` finds: the window's counts drained by every entry posted before it. */
  function CounterAt(w: Window, j: nat): Counts
    requires j <= |w.logs|
  {
    Drain(w.counts, AllEntries(w.logs[..j]))
  }

  predicate Submits(w: Window, j: nat, idx: nat) {
    && j < |w.logs| && w.logs[j].posted.Some? && w.logs[j].l1Block in w.view.headers
    && idx < |w.logs[j].posted.value.blockNumbers| && idx < |w.logs[j].posted.value.blockTxs|
  }

  function ContextAt(cfg: RollupConfig, w: Window, j: nat): BatchContext
    requires j < |w.logs| && w.logs[j].posted.Some? && w.logs[j].l1Block in w.view.headers
  {
    var log := w.logs[j];
    ContextOf(cfg, w.actions, log.l1Block, w.view.headers[log.l1Block], log.posted.value, CounterAt(w, j))
  }

  /** `blk` is submission `idx` of log `j`, with the root, entries and filtering data that follow
      from what L1 consumed. */
  predicate SubmittedAt(cfg: RollupConfig, w: Window, j: nat, idx: nat, blk: DerivedBlock) {
    && Submits(w, j, idx)
    && var b := w.logs[j].posted.value;
       blk == SubmittedBlock(ContextAt(cfg, w, j), idx, b.blockNumbers[idx], blk.timestamp, b.blockTxs[idx])
  }

  /** `blk` is the submission that left cursor entry `m`. */
  ghost predicate SubmittedAs(cfg: RollupConfig, w: Window, blk: DerivedBlock, m: BlockMeta) {
    exists j: nat, idx: nat :: SubmittedAt(cfg, w, j, idx, blk) && LeavesEntry(w, j, blk, m)
  }

  predicate LeavesEntry(w: Window, j: nat, blk: DerivedBlock, m: BlockMeta) {
    && j < |w.logs| && w.logs[j].l1Block in w.view.headers
    && m == BlockMeta(blk.number, w.logs[j].l1Block, w.view.headers[w.logs[j].l1Block].hash)
  }

  /** Cursor entry `m` records submission `idx` of log `j`: its number, and the L1 block it came in. */
  predicate Records(w: Window, j: nat, idx: nat, m: BlockMeta) {
    && Submits(w, j, idx)
    && m.l2Number == w.logs[j].posted.value.blockNumbers[idx]
    && m.l1Number == w.logs[j].l1Block && m.l1Hash == w.view.headers[w.logs[j].l1Block].hash
  }

  ghost predicate Recorded(w: Window, m: BlockMeta) {
    exists j: nat, idx: nat :: Records(w, j, idx, m)
  }

  // ---- Which submission decides a number ----

  /** The position of the first cursor entry, in push order, numbered `k` or more. */
  function Reach(metas: seq<BlockMeta>, k: int): (r: nat)
    ensures r <= |metas|
  {
    if metas == [] then 0 else
      var n := |metas| - 1;
      var r := Reach(metas[..n], k);
      if r < n || metas[n].l2Number >= k then r else n + 1
  }

  /** A submission of `k` came before any submission of a larger number. */
  predicate Arrives(metas: seq<BlockMeta>, k: int) {
    Reach(metas, k) < |metas| && metas[Reach(metas, k)].l2Number == k
  }

  /** The L1 context of the submission behind a cursor entry: the parent of its L1 block. */
  function InfoOf(view: L1View, m: BlockMeta): L1Info {
    L1Info(SaturatingSub(m.l1Number, 1), if m.l1Number in view.headers then view.headers[m.l1Number].parentHash else 0)
  }

  /** The context in force after the first `r` submissions. */
  function InfoAfter(view: L1View, start: L1Info, metas: seq<BlockMeta>, r: nat): L1Info
    requires r <= |metas|
  {
    if r == 0 then start else InfoOf(view, metas[r - 1])
  }

  /** The one block that number can derive to. */
  ghost predicate Expected(cfg: RollupConfig, w: Window, start: L1Info, metas: seq<BlockMeta>, blk: DerivedBlock) {
    var r := Reach(metas, blk.number);
    && r < |metas|
    && if metas[r].l2Number == blk.number then SubmittedAs(cfg, w, blk, metas[r])
       else blk == GapBlock(blk.number, blk.timestamp, InfoAfter(w.view, start, metas, r))
  }

  lemma ReachSnoc(metas: seq<BlockMeta>, m: BlockMeta, k: int)
    ensures Reach(metas + [m], k) ==
            if Reach(metas, k) < |metas| || m.l2Number >= k then Reach(metas, k) else |metas| + 1
  {
    assert (metas + [m])[..|metas|] == metas;
  }

  lemma {:induction false} ReachNone(metas: seq<BlockMeta>, k: int)
    requires forall i :: 0 <= i < |metas| ==> metas[i].l2Number < k
    ensures Reach(metas, k) == |metas|
  {
    if metas != [] {
      ReachNone(metas[..|metas| - 1], k);
    }
  }

  // ---- The loops keep to it ----

  ghost predicate Explains(cfg: RollupConfig, w: Window, start: L1Info, p: Progress, k: int) {
    First(p.blocks, BlockKey, k).Some? ==> Expected(cfg, w, start, p.metas, First(p.blocks, BlockKey, k).value)
  }

  /** The first block pushed for any number is the expected one, and the context in force is that of
      the last submission. */
  ghost predicate Traced(cfg: RollupConfig, st: PipelineState, w: Window, p: Progress, m: int) {
    && Filling(cfg, st, p, m)
    && (forall k :: Explains(cfg, w, GapInfo(cfg, st.deploymentHash, st.lastL1Info), p, k))
    && (forall k :: 0 <= k < |p.metas| ==> Recorded(w, p.metas[k]))
    && p.info == (if p.metas == [] then st.lastL1Info else Some(InfoOf(w.view, p.metas[|p.metas| - 1])))
    && GapInfo(cfg, st.deploymentHash, p.info) ==
       InfoAfter(w.view, GapInfo(cfg, st.deploymentHash, st.lastL1Info), p.metas, |p.metas|)
  }

  lemma {:induction false} FillerIs(cfg: RollupConfig, from: U64, to: U64, info: L1Info, k: int)
    ensures var found := First(GapFill(cfg, from, to, info), BlockKey, k);
            found.Some? ==> from <= k < to && found.value == GapBlock(k, found.value.timestamp, info)
    decreases if from < to then to - from else 0
  {
    if from < to && L2TimestampChecked(cfg, from).Some? {
      FillerIs(cfg, from + 1, to, info, k);
      var head := GapBlock(from, L2TimestampChecked(cfg, from).value, info);
      assert ([head] + GapFill(cfg, from + 1, to, info))[1..] == GapFill(cfg, from + 1, to, info);
    }
  }

  lemma FirstOfPush(blocks: seq<DerivedBlock>, gap: seq<DerivedBlock>, blk: DerivedBlock, k: int)
    ensures First(blocks + gap + [blk], BlockKey, k) ==
            if First(blocks, BlockKey, k).Some? then First(blocks, BlockKey, k)
            else if First(gap, BlockKey, k).Some? then First(gap, BlockKey, k)
            else if blk.number == k then Some(blk) else None
  {
    FirstAppend(blocks + gap, [blk], BlockKey, k);
    FirstAppend(blocks, gap, BlockKey, k);
    FirstSingle(blk, BlockKey, k);
  }

  /** A later submission does not change what was expected of an earlier number. */
  lemma StaysExpected(
      cfg: RollupConfig, w: Window, start: L1Info, metas: seq<BlockMeta>, entry: BlockMeta, blk: DerivedBlock)
    requires Expected(cfg, w, start, metas, blk)
    ensures Expected(cfg, w, start, metas + [entry], blk)
  {
    ReachSnoc(metas, entry, blk.number);
  }

  lemma FillerIsExpected(
      cfg: RollupConfig, w: Window, start: L1Info, metas: seq<BlockMeta>, entry: BlockMeta, blk: DerivedBlock)
    requires Reach(metas, blk.number) == |metas| && blk.number < entry.l2Number
    requires blk == GapBlock(blk.number, blk.timestamp, InfoAfter(w.view, start, metas, |metas|))
    ensures Expected(cfg, w, start, metas + [entry], blk)
  {
    ReachSnoc(metas, entry, blk.number);
  }

  lemma SubmissionIsExpected(
      cfg: RollupConfig, w: Window, start: L1Info, metas: seq<BlockMeta>, entry: BlockMeta, blk: DerivedBlock)
    requires Reach(metas, blk.number) == |metas| && blk.number == entry.l2Number
    requires SubmittedAs(cfg, w, blk, entry)
    ensures Expected(cfg, w, start, metas + [entry], blk)
  {
    ReachSnoc(metas, entry, blk.number);
  }

  /** What `gap` holds for number `k` is a filler between the committed head and `n`. */
  predicate FillsBelow(gap: seq<DerivedBlock>, info: L1Info, head: U64, n: U64, k: int) {
    var found := First(gap, BlockKey, k);
    found.Some? ==>
      && head < k < n
      && found.value == GapBlock(found.value.number, found.value.timestamp, info)
  }

  /** Pushing a gap and a submission explains the numbers they fill. */
  lemma PushExplains(
      cfg: RollupConfig, st: PipelineState, w: Window, p: Progress, m: int, gap: seq<DerivedBlock>, blk: DerivedBlock,
      entry: BlockMeta, k: int)
    requires Traced(cfg, st, w, p, m)
    requires st.lastDerived < blk.number == entry.l2Number && SubmittedAs(cfg, w, blk, entry)
    requires FillsBelow(gap, GapInfo(cfg, st.deploymentHash, p.info), st.lastDerived, blk.number, k)
    ensures var found := First(p.blocks + gap + [blk], BlockKey, k);
            found.Some? ==>
              Expected(cfg, w, GapInfo(cfg, st.deploymentHash, st.lastL1Info), p.metas + [entry], found.value)
  {
    var start := GapInfo(cfg, st.deploymentHash, st.lastL1Info);
    FirstOfPush(p.blocks, gap, blk, k);
    if First(p.blocks, BlockKey, k).Some? {
      assert Explains(cfg, w, start, p, k);
      StaysExpected(cfg, w, start, p.metas, entry, First(p.blocks, BlockKey, k).value);
    } else if First(gap, BlockKey, k).Some? {
      var at := FirstIsMember(gap, BlockKey, k);
      UnfilledIsUnreached(cfg, st, p, m, k);
      FillerIsExpected(cfg, w, start, p.metas, entry, First(gap, BlockKey, k).value);
    } else if blk.number == k {
      UnfilledIsUnreached(cfg, st, p, m, k);
      SubmissionIsExpected(cfg, w, start, p.metas, entry, blk);
    }
  }

  lemma PushIsTraced(
      cfg: RollupConfig, st: PipelineState, w: Window, p: Progress, m: int, gap: seq<DerivedBlock>, blk: DerivedBlock,
      entry: BlockMeta, p': Progress, m': int)
    requires Traced(cfg, st, w, p, m) && Filling(cfg, st, p', m')
    requires st.lastDerived < blk.number == entry.l2Number && SubmittedAs(cfg, w, blk, entry)
    requires forall k :: FillsBelow(gap, GapInfo(cfg, st.deploymentHash, p.info), st.lastDerived, blk.number, k)
    requires p'.blocks == p.blocks + gap + [blk] && p'.metas == p.metas + [entry]
    requires p'.info == Some(InfoOf(w.view, entry)) && Recorded(w, entry)
    ensures Traced(cfg, st, w, p', m')
  {
    forall k
      ensures Explains(cfg, w, GapInfo(cfg, st.deploymentHash, st.lastL1Info), p', k)
    {
      assert FillsBelow(gap, GapInfo(cfg, st.deploymentHash, p.info), st.lastDerived, blk.number, k);
      PushExplains(cfg, st, w, p, m, gap, blk, entry, k);
    }
  }

  lemma GapFillsBelow(cfg: RollupConfig, head: U64, from: U64, n: U64, info: L1Info)
    requires head < from || n <= from
    ensures forall k :: FillsBelow(GapFill(cfg, from, n, info), info, head, n, k)
  {
    forall k
      ensures FillsBelow(GapFill(cfg, from, n, info), info, head, n, k)
    {
      FillerIs(cfg, from, n, info, k);
    }
  }

  lemma BlockIsTraced(
      cfg: RollupConfig, st: PipelineState, w: Window, j: nat, i: nat, p: Progress, m: int)
    requires Traced(cfg, st, w, p, m)
    requires Submits(w, j, i)
    requires var b := w.logs[j].posted.value;
             ProcessBlock(cfg, st, ContextAt(cfg, w, j), i, b.blockNumbers[i], b.blockTxs[i], p).Ok?
    ensures var b := w.logs[j].posted.value;
            var p' := ProcessBlock(cfg, st, ContextAt(cfg, w, j), i, b.blockNumbers[i], b.blockTxs[i], p).value;
            Traced(cfg, st, w, p', Max(m, p'.derived))
  {
    var b, ctx := w.logs[j].posted.value, ContextAt(cfg, w, j);
    var n, txs := b.blockNumbers[i], b.blockTxs[i];
    BlockKeepsFilling(cfg, st, ctx, i, n, txs, p, m);
    if !Stale(st, p, n) && L2TimestampChecked(cfg, n).Some? {
      var expected := SaturatingAdd(p.derived, 1);
      var info := GapInfo(cfg, st.deploymentHash, p.info);
      var blk := SubmittedBlock(ctx, i, n, L2TimestampChecked(cfg, n).value, txs);
      var entry := BlockMeta(n, ctx.l1Block, ctx.l1Hash);
      var p' := ProcessBlock(cfg, st, ctx, i, n, txs, p).value;
      assert SubmittedAt(cfg, w, j, i, blk) && LeavesEntry(w, j, blk, entry);
      assert Records(w, j, i, entry);
      GapFillsBelow(cfg, st.lastDerived, expected, n, info);
      PushIsTraced(cfg, st, w, p, m, GapFill(cfg, expected, n, info), blk, entry, p', Max(m, p'.derived));
    }
  }

  /** Past the numbers filled so far no submission has reached. */
  lemma UnfilledIsUnreached(cfg: RollupConfig, st: PipelineState, p: Progress, m: int, k: int)
    requires Filling(cfg, st, p, m)
    ensures First(p.blocks, BlockKey, k).None? && st.lastDerived < k ==> Reach(p.metas, k) == |p.metas|
  {
    assert First(p.blocks, BlockKey, k).Some? <==> st.lastDerived < k <= m;
    if m < k {
      ReachNone(p.metas, k);
    }
  }

  lemma {:induction false} BlocksAreTraced(
      cfg: RollupConfig, st: PipelineState, w: Window, j: nat, i: nat, p: Progress, m: int) returns (m': int)
    requires Traced(cfg, st, w, p, m)
    requires j < |w.logs| && w.logs[j].posted.Some? && w.logs[j].l1Block in w.view.headers
    requires ProcessBlocks(cfg, st, ContextAt(cfg, w, j), w.logs[j].posted.value, i, p).Ok?
    ensures Traced(cfg, st, w, ProcessBlocks(cfg, st, ContextAt(cfg, w, j), w.logs[j].posted.value, i, p).value, m')
    decreases |w.logs[j].posted.value.blockNumbers| - i
  {
    m' := m;
    var b, ctx := w.logs[j].posted.value, ContextAt(cfg, w, j);
    if Submits(w, j, i) {
      BlockIsTraced(cfg, st, w, j, i, p, m);
      var p' := ProcessBlock(cfg, st, ctx, i, b.blockNumbers[i], b.blockTxs[i], p).value;
      m' := BlocksAreTraced(cfg, st, w, j, i + 1, p', Max(m, p'.derived));
    }
  }

  lemma TracedIgnoresCounters(
      cfg: RollupConfig, st: PipelineState, w: Window, p: Progress, m: int, execution: U64, remaining: Counts)
    requires Traced(cfg, st, w, p, m) && p.execution <= execution
    ensures Traced(cfg, st, w, p.(execution := execution, remaining := remaining), m)
  {
    var p' := p.(execution := execution, remaining := remaining);
    forall k
      ensures Explains(cfg, w, GapInfo(cfg, st.deploymentHash, st.lastL1Info), p', k)
    {
      assert Explains(cfg, w, GapInfo(cfg, st.deploymentHash, st.lastL1Info), p, k);
    }
  }

  lemma LogIsTraced(cfg: RollupConfig, st: PipelineState, w: Window, j: nat, p: Progress, m: int) returns (m': int)
    requires Traced(cfg, st, w, p, m)
    requires j < |w.logs| && p.remaining == CounterAt(w, j)
    requires ProcessLog(cfg, st, w.view, w.actions, w.logs[j], p).Ok?
    ensures Traced(cfg, st, w, ProcessLog(cfg, st, w.view, w.actions, w.logs[j], p).value, m')
    ensures ProcessLog(cfg, st, w.view, w.actions, w.logs[j], p).value.remaining == CounterAt(w, j + 1)
  {
    m' := m;
    LogDrainsCounter(cfg, st, w.view, w.actions, w.logs[j], p);
    AllEntriesUpTo(w.logs, j);
    DrainCompose(w.counts, AllEntries(w.logs[..j]), EntriesOf(w.logs[j]));
    if w.logs[j].posted.Some? {
      var start := p.(remaining := Drain(p.remaining, w.logs[j].posted.value.entries));
      TracedIgnoresCounters(cfg, st, w, p, m, p.execution, start.remaining);
      m' := BlocksAreTraced(cfg, st, w, j, 0, start, m);
      var done := ProcessBlocks(cfg, st, ContextAt(cfg, w, j), w.logs[j].posted.value, 0, start).value;
      TracedIgnoresCounters(cfg, st, w, done, m', Max(done.execution, w.logs[j].l1Block), done.remaining);
    }
  }

  lemma {:induction false} LogsAreTraced(cfg: RollupConfig, st: PipelineState, w: Window, j: nat, p: Progress, m: int)
    returns (m': int)
    requires Traced(cfg, st, w, p, m)
    requires j <= |w.logs| && p.remaining == CounterAt(w, j)
    requires ProcessLogs(cfg, st, w.view, w.actions, w.logs[j..], p).Ok?
    ensures Traced(cfg, st, w, ProcessLogs(cfg, st, w.view, w.actions, w.logs[j..], p).value, m')
    decreases |w.logs| - j
  {
    m' := m;
    if j < |w.logs| {
      assert w.logs[j..][1..] == w.logs[j + 1..];
      m' := LogIsTraced(cfg, st, w, j, p, m);
      m' := LogsAreTraced(cfg, st, w, j + 1, ProcessLog(cfg, st, w.view, w.actions, w.logs[j], p).value, m');
    }
  }

  // ---- What a derivation returns ----

  /** The cursor entries a window pushes, in push order: one for each submission it takes. */
  function PushedEntries(cfg: RollupConfig, st: PipelineState, latest: U64, view: L1View): seq<BlockMeta> {
    if latest <= st.lastProcessed then [] else
      match WindowProgress(cfg, st, latest, view)
      case Err(_) => []
      case Ok(p) => p.metas
  }

  lemma WindowIsTraced(cfg: RollupConfig, st: PipelineState, latest: U64, view: L1View) returns (m: int)
    requires WindowProgress(cfg, st, latest, view).Ok?
    ensures Traced(cfg, st, WindowOf(cfg, st, latest, view), WindowProgress(cfg, st, latest, view).value, m)
  {
    var w := WindowOf(cfg, st, latest, view);
    var p := StartProgress(st, WindowEvents(cfg, st, latest, view));
    assert w.logs[..0] == [] && w.logs[0..] == w.logs;
    DrainNothing(w.counts);
    m := LogsAreTraced(cfg, st, w, 0, p, st.lastDerived);
  }

  /** Every returned block is the one its number can derive to. If its number was submitted before
      any larger one, it is that submission verbatim, in the context of its L1 block, with the root,
      entries and filtering data that follow from what L1 had consumed by then. Otherwise it is an
      empty filler in the context of the submission just before the larger number. */
  lemma EveryBlockComesFromL1(
      cfg: RollupConfig, st: PipelineState, latest: U64, view: L1View, r: DerivedBatch, i: nat)
    requires Derived(cfg, st, latest, view) == Ok(r)
    requires i < |r.blocks|
    ensures Expected(cfg, WindowOf(cfg, st, latest, view), GapInfo(cfg, st.deploymentHash, st.lastL1Info),
                     PushedEntries(cfg, st, latest, view), r.blocks[i])
  {
    DerivedBlocksAreContiguous(cfg, st, latest, view, i);
    var m := WindowIsTraced(cfg, st, latest, view);
    assert Explains(cfg, WindowOf(cfg, st, latest, view), GapInfo(cfg, st.deploymentHash, st.lastL1Info),
                    WindowProgress(cfg, st, latest, view).value, r.blocks[i].number);
  }

  // ---- Cursor entries and the blocks they stand for ----

  lemma {:induction false} ReachedAll(metas: seq<BlockMeta>, k: int)
    requires Reach(metas, k) == |metas|
    ensures First(metas, MetaKey, k) == None
  {
    if metas != [] {
      var n := |metas| - 1;
      ReachedAll(metas[..n], k);
      assert metas == metas[..n] + [metas[n]];
      FirstAppend(metas[..n], [metas[n]], MetaKey, k);
      FirstSingle(metas[n], MetaKey, k);
    }
  }

  lemma {:induction false} ArrivedIsFirst(metas: seq<BlockMeta>, k: int)
    requires Arrives(metas, k)
    ensures First(metas, MetaKey, k) == Some(metas[Reach(metas, k)])
  {
    var n := |metas| - 1;
    assert metas == metas[..n] + [metas[n]];
    FirstAppend(metas[..n], [metas[n]], MetaKey, k);
    if Reach(metas[..n], k) < n {
      ArrivedIsFirst(metas[..n], k);
    } else {
      ReachedAll(metas[..n], k);
      FirstSingle(metas[n], MetaKey, k);
    }
  }

  /** Empty blocks are not worth submitting, and the builder does not. */
  ghost predicate NoEmptySubmission(w: Window) {
    forall j: nat, idx: nat :: Submits(w, j, idx) ==> w.logs[j].posted.value.blockTxs[idx] != NoBytes
  }

  lemma FillerIsNotSubmitted(cfg: RollupConfig, w: Window, blk: DerivedBlock, m: BlockMeta)
    requires NoEmptySubmission(w) && blk.transactions == NoBytes
    ensures !SubmittedAs(cfg, w, blk, m)
  {
    forall j: nat, idx: nat
      ensures !SubmittedAt(cfg, w, j, idx, blk)
    {
      assert Submits(w, j, idx) ==> w.logs[j].posted.value.blockTxs[idx] != NoBytes;
    }
  }

  lemma ExpectedOfEntry(
      cfg: RollupConfig, w: Window, start: L1Info, metas: seq<BlockMeta>, blk: DerivedBlock, entry: BlockMeta)
    requires Expected(cfg, w, start, metas, blk)
    requires First(metas, MetaKey, blk.number) == Some(entry)
    ensures if Arrives(metas, blk.number) then SubmittedAs(cfg, w, blk, entry)
            else blk == GapBlock(blk.number, blk.timestamp, blk.l1Info)
    ensures NoEmptySubmission(w) ==> (SubmittedAs(cfg, w, blk, entry) <==> Arrives(metas, blk.number))
  {
    if Arrives(metas, blk.number) {
      ArrivedIsFirst(metas, blk.number);
    } else if NoEmptySubmission(w) {
      FillerIsNotSubmitted(cfg, w, blk, entry);
    }
  }

  lemma NewEntry(cfg: RollupConfig, st: PipelineState, latest: U64, view: L1View, r: DerivedBatch, i: nat)
    returns (at: nat)
    requires Derived(cfg, st, latest, view) == Ok(r)
    requires i < |r.update.newEntries|
    ensures First(PushedEntries(cfg, st, latest, view), MetaKey, r.update.newEntries[i].l2Number)
            == Some(r.update.newEntries[i])
    ensures at == r.update.newEntries[i].l2Number - st.lastDerived - 1
    ensures at < |r.blocks| && r.blocks[at].number == r.update.newEntries[i].l2Number
  {
    DerivedCursorEntries(cfg, st, latest, view);
    SurvivorIsFirst(PushedEntries(cfg, st, latest, view), MetaKey, i);
    at := r.update.newEntries[i].l2Number - st.lastDerived - 1;
    DerivedBlocksAreContiguous(cfg, st, latest, view, at);
  }

  /** Entry `i` of a batch derived past head `base` has a block of its number, which is the entry's
      own submission if its number arrived before any larger one, and a filler otherwise. When no
      submission is empty, that condition is exact. */
  ghost predicate EntryStandsFor(
    cfg: RollupConfig, w: Window, metas: seq<BlockMeta>, base: U64, r: DerivedBatch, i: nat)
    requires i < |r.update.newEntries|
  {
    var entry := r.update.newEntries[i];
    var at := entry.l2Number - base - 1;
    && 0 <= at < |r.blocks| && r.blocks[at].number == entry.l2Number
    && (if Arrives(metas, entry.l2Number) then SubmittedAs(cfg, w, r.blocks[at], entry)
        else r.blocks[at] == GapBlock(r.blocks[at].number, r.blocks[at].timestamp, r.blocks[at].l1Info))
    && (NoEmptySubmission(w) ==> (SubmittedAs(cfg, w, r.blocks[at], entry) <==> Arrives(metas, entry.l2Number)))
  }

  lemma ExpectedStandsFor(
      cfg: RollupConfig, w: Window, start: L1Info, metas: seq<BlockMeta>, base: U64, r: DerivedBatch, i: nat, at: nat)
    requires i < |r.update.newEntries| && at < |r.blocks|
    requires at == r.update.newEntries[i].l2Number - base - 1
    requires r.blocks[at].number == r.update.newEntries[i].l2Number
    requires First(metas, MetaKey, r.blocks[at].number) == Some(r.update.newEntries[i])
    requires Expected(cfg, w, start, metas, r.blocks[at])
    ensures EntryStandsFor(cfg, w, metas, base, r, i)
  {
    ExpectedOfEntry(cfg, w, start, metas, r.blocks[at], r.update.newEntries[i]);
  }

  /** Is the cursor kept consistent with the returned blocks? An entry whose number was submitted
      only after a larger one names a submission that was discarded in favour of a filler. */
  lemma EntryMatchesBlockIff(
      cfg: RollupConfig, st: PipelineState, latest: U64, view: L1View, r: DerivedBatch, i: nat)
    requires Derived(cfg, st, latest, view) == Ok(r)
    requires i < |r.update.newEntries|
    ensures EntryStandsFor(cfg, WindowOf(cfg, st, latest, view), PushedEntries(cfg, st, latest, view),
                           st.lastDerived, r, i)
  {
    var at := NewEntry(cfg, st, latest, view, r, i);
    EveryBlockComesFromL1(cfg, st, latest, view, r, at);
    ExpectedStandsFor(cfg, WindowOf(cfg, st, latest, view), GapInfo(cfg, st.deploymentHash, st.lastL1Info),
                      PushedEntries(cfg, st, latest, view), st.lastDerived, r, i, at);
  }

  lemma {:induction false} IncreasingArrives(metas: seq<BlockMeta>, i: nat)
    requires StrictlyIncreasing(metas, MetaKey) && i < |metas|
    ensures Reach(metas, metas[i].l2Number) == i
  {
    var n := |metas| - 1;
    if i < n {
      IncreasingArrives(metas[..n], i);
    } else {
      forall j | 0 <= j < n
        ensures metas[..n][j].l2Number < metas[n].l2Number
      {
        assert MetaKey(metas[j]) < MetaKey(metas[n]);
      }
      ReachNone(metas[..n], metas[n].l2Number);
    }
  }

  /** With increasing submitted numbers every new cursor entry is that of its block. */
  lemma IncreasingEntriesMatch(
      cfg: RollupConfig, st: PipelineState, latest: U64, view: L1View, r: DerivedBatch, i: nat)
    requires Derived(cfg, st, latest, view) == Ok(r)
    requires Increasing(Submitted(WindowOf(cfg, st, latest, view).logs))
    requires i < |r.update.newEntries|
    ensures var at := r.update.newEntries[i].l2Number - st.lastDerived - 1;
            && 0 <= at < |r.blocks|
            && SubmittedAs(cfg, WindowOf(cfg, st, latest, view), r.blocks[at], r.update.newEntries[i])
  {
    EntryMatchesBlockIff(cfg, st, latest, view, r, i);
    var w, events := WindowOf(cfg, st, latest, view), WindowEvents(cfg, st, latest, view);
    assert Submitted(w.logs) + [] == Submitted(w.logs);
    InOrderAtCut(cfg, st, view, w.actions, events, w.logs, []);
    var metas := PushedEntries(cfg, st, latest, view);
    SortDedupOfStrict(metas, MetaKey);
    IncreasingArrives(metas, i);
  }
}
