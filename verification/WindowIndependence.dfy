/** Cutting a range of L1 blocks into two windows, with a commit in between, changes nothing about
    the blocks that come out, when submitted block numbers increase in L1 order. */
module WindowIndependence {
  import opened Wrappers
  import opened Collections
  import opened MachineInts
  import opened Timestamps
  import opened Consumption
  import opened CrossChain
  import opened StableOrder
  import opened Derivation

  // ---- The part of a block that does not depend on which consumed events the window holds ----

  datatype Skeleton = Skeleton(number: U64, timestamp: U64, l1Info: L1Info, transactions: Payload, isEmpty: bool)

  function SkeletonOf(b: DerivedBlock): Skeleton {
    Skeleton(b.number, b.timestamp, b.l1Info, b.transactions, b.isEmpty)
  }

  function Skeletons(blocks: seq<DerivedBlock>): seq<Skeleton> {
    if blocks == [] then [] else Skeletons(blocks[..|blocks| - 1]) + [SkeletonOf(blocks[|blocks| - 1])]
  }

  // ---- Submitted numbers increase in L1 order ----

  function BatchNumbers(b: Batch): seq<U64> {
    b.blockNumbers[..Min(|b.blockNumbers|, |b.blockTxs|)]
  }

  function LogNumbers(log: BatchLog): seq<U64> {
    if log.posted.Some? then BatchNumbers(log.posted.value) else []
  }

  /** The numbers of the blocks the window loop visits, in order. */
  function Submitted(logs: seq<BatchLog>): seq<U64> {
    if logs == [] then [] else LogNumbers(logs[0]) + Submitted(logs[1..])
  }

  ghost predicate Increasing(ns: seq<U64>) {
    forall i, j :: 0 <= i < j < |ns| ==> ns[i] < ns[j]
  }

  ghost predicate AllAbove(ns: seq<U64>, x: int) {
    forall i :: 0 <= i < |ns| ==> x < ns[i]
  }

  lemma SubmittedCons(log: BatchLog, logs: seq<BatchLog>)
    ensures Submitted([log] + logs) == LogNumbers(log) + Submitted(logs)
  {
    assert ([log] + logs)[1..] == logs;
  }

  lemma {:induction false} SubmittedAppend(a: seq<BatchLog>, b: seq<BatchLog>)
    ensures Submitted(a + b) == Submitted(a) + Submitted(b)
  {
    if a == [] {
      assert a + b == b;
    } else {
      SubmittedAppend(a[1..], b);
      assert a + b == [a[0]] + (a[1..] + b);
      SubmittedCons(a[0], a[1..] + b);
      AppendAssociates(LogNumbers(a[0]), Submitted(a[1..]), Submitted(b));
    }
  }

  // ---- One loop, two starting states ----

  /** The local head of a run: still the committed head, or a number visited before `ns`. */
  ghost predicate HeadBefore(head: int, committed: int, ns: seq<U64>) {
    committed <= head && (head == committed || AllAbove(ns, head))
  }

  /** `one` is the state of the single long window, `two` that of the second of two windows, whose
      committed head is `two`'s. They have the same skeleton apart from what `one` pushed before. */
  ghost predicate Paired(
      st1: PipelineState, st2: PipelineState, one: Progress, two: Progress, blocks: seq<Skeleton>,
      metas: seq<BlockMeta>)
  {
    && st1.deploymentHash == st2.deploymentHash
    && st1.lastDerived <= st2.lastDerived <= two.derived
    && one.derived == two.derived && one.info == two.info && one.execution == two.execution
    && Skeletons(one.blocks) == blocks + Skeletons(two.blocks)
    && one.metas == metas + two.metas
  }

  ghost predicate PairedResults(
      st1: PipelineState, st2: PipelineState, one: Result<Progress, DeriveError>, two: Result<Progress, DeriveError>,
      blocks: seq<Skeleton>, metas: seq<BlockMeta>)
  {
    match (one, two)
    case (Ok(p), Ok(q)) => Paired(st1, st2, p, q, blocks, metas)
    case (Err(e), Err(f)) => e == f
    case _ => false
  }

  ghost predicate SameSource(a: BatchContext, b: BatchContext) {
    a.l1Block == b.l1Block && a.l1Hash == b.l1Hash && a.parentHash == b.parentHash
  }

  lemma {:induction false} SkeletonsAppend(a: seq<DerivedBlock>, b: seq<DerivedBlock>)
    ensures Skeletons(a + b) == Skeletons(a) + Skeletons(b)
  {
    if b == [] {
      assert a + b == a;
    } else {
      var n := |b| - 1;
      SkeletonsAppend(a, b[..n]);
      assert (a + b)[..|a + b| - 1] == a + b[..n];
    }
  }

  lemma SkeletonsPush(a: seq<DerivedBlock>, gap: seq<DerivedBlock>, x: DerivedBlock)
    ensures Skeletons(a + gap + [x]) == Skeletons(a) + (Skeletons(gap) + [SkeletonOf(x)])
  {
    assert (a + gap + [x])[..|a + gap|] == a + gap;
    SkeletonsAppend(a, gap);
    AppendAssociates(Skeletons(a), Skeletons(gap), [SkeletonOf(x)]);
  }

  lemma PushedSkeletons(
      a: seq<DerivedBlock>, b: seq<DerivedBlock>, gap: seq<DerivedBlock>, x: DerivedBlock, y: DerivedBlock,
      blocks: seq<Skeleton>)
    requires Skeletons(a) == blocks + Skeletons(b)
    requires SkeletonOf(x) == SkeletonOf(y)
    ensures Skeletons(a + gap + [x]) == blocks + Skeletons(b + gap + [y])
  {
    SkeletonsPush(a, gap, x);
    SkeletonsPush(b, gap, y);
    AppendAssociates(blocks, Skeletons(b), Skeletons(gap) + [SkeletonOf(x)]);
  }

  lemma PairedPush(
      st1: PipelineState, st2: PipelineState, p: Progress, q: Progress, blocks: seq<Skeleton>, metas: seq<BlockMeta>,
      gap: seq<DerivedBlock>, x: DerivedBlock, y: DerivedBlock, m: BlockMeta, info: Option<L1Info>)
    requires Paired(st1, st2, p, q, blocks, metas)
    requires SkeletonOf(x) == SkeletonOf(y) && st2.lastDerived <= x.number
    ensures Paired(st1, st2, Progress(x.number, info, p.execution, p.remaining, p.blocks + gap + [x], p.metas + [m]),
                   Progress(x.number, info, q.execution, q.remaining, q.blocks + gap + [y], q.metas + [m]), blocks,
                   metas)
  {
    PushedSkeletons(p.blocks, q.blocks, gap, x, y, blocks);
    AppendAssociates(metas, q.metas, [m]);
  }

  lemma PairedBlock(
      cfg: RollupConfig, st1: PipelineState, st2: PipelineState, c1: BatchContext, c2: BatchContext, i: nat, n: U64,
      txs: Payload, p: Progress, q: Progress, blocks: seq<Skeleton>, metas: seq<BlockMeta>)
    requires Paired(st1, st2, p, q, blocks, metas)
    requires SameSource(c1, c2)
    requires st2.lastDerived == st1.lastDerived || st2.lastDerived < n
    ensures PairedResults(st1, st2, ProcessBlock(cfg, st1, c1, i, n, txs, p), ProcessBlock(cfg, st2, c2, i, n, txs, q),
                          blocks, metas)
  {
    if !Stale(st1, p, n) && L2TimestampChecked(cfg, n).Some? {
      var t := L2TimestampChecked(cfg, n).value;
      var expected := SaturatingAdd(p.derived, 1);
      var gap := if n > expected then GapFill(cfg, expected, n, GapInfo(cfg, st1.deploymentHash, p.info)) else [];
      PairedPush(st1, st2, p, q, blocks, metas, gap, SubmittedBlock(c1, i, n, t, txs), SubmittedBlock(c2, i, n, t, txs),
                 BlockMeta(n, c1.l1Block, c1.l1Hash), Some(L1Info(SaturatingSub(c1.l1Block, 1), c1.parentHash)));
    }
  }

  lemma {:induction false} PairedBlocks(
      cfg: RollupConfig, st1: PipelineState, st2: PipelineState, c1: BatchContext, c2: BatchContext, b: Batch, i: nat,
      p: Progress, q: Progress, blocks: seq<Skeleton>, metas: seq<BlockMeta>)
    requires Paired(st1, st2, p, q, blocks, metas)
    requires SameSource(c1, c2)
    requires st2.lastDerived == st1.lastDerived || AllAbove(BatchNumbers(b), st2.lastDerived)
    ensures PairedResults(st1, st2, ProcessBlocks(cfg, st1, c1, b, i, p), ProcessBlocks(cfg, st2, c2, b, i, q), blocks,
                          metas)
    decreases |b.blockNumbers| - i
  {
    if i < |b.blockNumbers| && i < |b.blockTxs| {
      assert b.blockNumbers[i] == BatchNumbers(b)[i];
      PairedBlock(cfg, st1, st2, c1, c2, i, b.blockNumbers[i], b.blockTxs[i], p, q, blocks, metas);
      var r1 := ProcessBlock(cfg, st1, c1, i, b.blockNumbers[i], b.blockTxs[i], p);
      var r2 := ProcessBlock(cfg, st2, c2, i, b.blockNumbers[i], b.blockTxs[i], q);
      if r1.Ok? && r2.Ok? {
        PairedBlocks(cfg, st1, st2, c1, c2, b, i + 1, r1.value, r2.value, blocks, metas);
      }
    }
  }

  lemma PairedLog(
      cfg: RollupConfig, st1: PipelineState, st2: PipelineState, view: L1View, a1: seq<Action>, a2: seq<Action>,
      log: BatchLog, p: Progress, q: Progress, blocks: seq<Skeleton>, metas: seq<BlockMeta>)
    requires Paired(st1, st2, p, q, blocks, metas)
    requires st2.lastDerived == st1.lastDerived
             || (log.posted.Some? ==> AllAbove(BatchNumbers(log.posted.value), st2.lastDerived))
    ensures PairedResults(st1, st2, ProcessLog(cfg, st1, view, a1, log, p), ProcessLog(cfg, st2, view, a2, log, q),
                          blocks, metas)
  {
    if log.posted.Some? && log.l1Block in view.headers {
      var b, header := log.posted.value, view.headers[log.l1Block];
      var c1 := ContextOf(cfg, a1, log.l1Block, header, b, p.remaining);
      var c2 := ContextOf(cfg, a2, log.l1Block, header, b, q.remaining);
      PairedBlocks(cfg, st1, st2, c1, c2, b, 0, p.(remaining := Drain(p.remaining, b.entries)),
                   q.(remaining := Drain(q.remaining, b.entries)), blocks, metas);
    }
  }

  lemma {:induction false} PairedLogs(
      cfg: RollupConfig, st1: PipelineState, st2: PipelineState, view: L1View, a1: seq<Action>, a2: seq<Action>,
      logs: seq<BatchLog>, p: Progress, q: Progress, blocks: seq<Skeleton>, metas: seq<BlockMeta>)
    requires Paired(st1, st2, p, q, blocks, metas)
    requires st2.lastDerived == st1.lastDerived || AllAbove(Submitted(logs), st2.lastDerived)
    ensures PairedResults(st1, st2, ProcessLogs(cfg, st1, view, a1, logs, p), ProcessLogs(cfg, st2, view, a2, logs, q),
                          blocks, metas)
  {
    if logs != [] {
      if AllAbove(Submitted(logs), st2.lastDerived) {
        SubmittedHeadTail(logs, st2.lastDerived);
      }
      PairedLog(cfg, st1, st2, view, a1, a2, logs[0], p, q, blocks, metas);
      var r1, r2 := ProcessLog(cfg, st1, view, a1, logs[0], p), ProcessLog(cfg, st2, view, a2, logs[0], q);
      if r1.Ok? && r2.Ok? {
        PairedLogs(cfg, st1, st2, view, a1, a2, logs[1..], r1.value, r2.value, blocks, metas);
      }
    }
  }

  lemma AllAboveParts(a: seq<U64>, b: seq<U64>, x: int)
    requires AllAbove(a + b, x)
    ensures AllAbove(a, x) && AllAbove(b, x)
  {
    forall i | 0 <= i < |a|
      ensures x < a[i]
    {
      assert (a + b)[i] == a[i];
    }
    forall i | 0 <= i < |b|
      ensures x < b[i]
    {
      assert (a + b)[|a| + i] == b[i];
    }
  }

  lemma SubmittedHeadTail(logs: seq<BatchLog>, x: int)
    requires logs != [] && AllAbove(Submitted(logs), x)
    ensures AllAbove(Submitted(logs[1..]), x)
    ensures logs[0].posted.Some? ==> AllAbove(BatchNumbers(logs[0].posted.value), x)
  {
    AllAboveParts(LogNumbers(logs[0]), Submitted(logs[1..]), x);
  }

  // ---- With increasing numbers the pushed blocks are already in order ----

  /** The pushed blocks and cursor entries are strictly increasing and end at the local head. */
  ghost predicate InOrder(st: PipelineState, p: Progress) {
    && st.lastDerived <= p.derived
    && StrictlyIncreasing(p.blocks, BlockKey)
    && StrictlyIncreasing(p.metas, MetaKey)
    && (forall i :: 0 <= i < |p.blocks| ==> p.blocks[i].number <= p.derived)
    && (forall i :: 0 <= i < |p.metas| ==> p.metas[i].l2Number <= p.derived)
    && (p.blocks == [] ==> p.derived == st.lastDerived)
    && (p.blocks != [] ==> p.blocks[|p.blocks| - 1].number == p.derived)
  }

  lemma {:induction false} GapFillInOrder(cfg: RollupConfig, from: U64, to: U64, info: L1Info)
    ensures forall i :: 0 <= i < |GapFill(cfg, from, to, info)| ==> GapFill(cfg, from, to, info)[i].number == from + i
    ensures from <= to ==> from + |GapFill(cfg, from, to, info)| <= to
    decreases if from < to then to - from else 0
  {
    if from < to {
      GapFillInOrder(cfg, from + 1, to, info);
    }
  }

  lemma AppendInOrder(blocks: seq<DerivedBlock>, gap: seq<DerivedBlock>, b: DerivedBlock, head: int)
    requires StrictlyIncreasing(blocks, BlockKey)
    requires forall i :: 0 <= i < |blocks| ==> blocks[i].number <= head
    requires forall i :: 0 <= i < |gap| ==> gap[i].number == head + 1 + i
    requires head + 1 + |gap| <= b.number
    ensures StrictlyIncreasing(blocks + gap + [b], BlockKey)
  {
  }

  /** Pushing a gap and a block above the local head keeps the order. */
  lemma PushInOrder(st: PipelineState, p: Progress, gap: seq<DerivedBlock>, b: DerivedBlock, m: BlockMeta, info: L1Info)
    requires InOrder(st, p)
    requires p.derived < b.number == m.l2Number
    requires forall i :: 0 <= i < |gap| ==> gap[i].number == p.derived + 1 + i
    requires p.derived + 1 + |gap| <= b.number
    ensures InOrder(st, Progress(b.number, Some(info), p.execution, p.remaining, p.blocks + gap + [b], p.metas + [m]))
  {
    AppendInOrder(p.blocks, gap, b, p.derived);
  }

  lemma BlockInOrder(
      cfg: RollupConfig, st: PipelineState, ctx: BatchContext, i: nat, n: U64, txs: Payload, p: Progress,
      ns: seq<U64>)
    requires InOrder(st, p)
    requires p.derived == st.lastDerived || (p.derived < n && AllAbove(ns, p.derived))
    requires AllAbove(ns, n)
    requires ProcessBlock(cfg, st, ctx, i, n, txs, p).Ok?
    ensures InOrder(st, ProcessBlock(cfg, st, ctx, i, n, txs, p).value)
    ensures HeadBefore(ProcessBlock(cfg, st, ctx, i, n, txs, p).value.derived, st.lastDerived, ns)
  {
    if !Stale(st, p, n) && L2TimestampChecked(cfg, n).Some? {
      var expected := SaturatingAdd(p.derived, 1);
      var info := GapInfo(cfg, st.deploymentHash, p.info);
      var gap := if n > expected then GapFill(cfg, expected, n, info) else [];
      GapFillInOrder(cfg, expected, n, info);
      PushInOrder(st, p, gap, SubmittedBlock(ctx, i, n, L2TimestampChecked(cfg, n).value, txs),
                  BlockMeta(n, ctx.l1Block, ctx.l1Hash), L1Info(SaturatingSub(ctx.l1Block, 1), ctx.parentHash));
    }
  }

  lemma HeadBeforeSplit(head: int, committed: int, n: U64, ns: seq<U64>)
    requires HeadBefore(head, committed, [n] + ns)
    ensures head == committed || (head < n && AllAbove(ns, head))
  {
    if head != committed {
      assert head < ([n] + ns)[0];
      forall j | 0 <= j < |ns|
        ensures head < ns[j]
      {
        assert head < ([n] + ns)[j + 1];
      }
    }
  }

  lemma {:induction false} BlocksInOrder(
      cfg: RollupConfig, st: PipelineState, ctx: BatchContext, b: Batch, i: nat, p: Progress, ns: seq<U64>)
    requires InOrder(st, p)
    requires i <= |BatchNumbers(b)|
    requires Increasing(BatchNumbers(b)[i..] + ns)
    requires HeadBefore(p.derived, st.lastDerived, BatchNumbers(b)[i..] + ns)
    requires ProcessBlocks(cfg, st, ctx, b, i, p).Ok?
    ensures InOrder(st, ProcessBlocks(cfg, st, ctx, b, i, p).value)
    ensures HeadBefore(ProcessBlocks(cfg, st, ctx, b, i, p).value.derived, st.lastDerived, ns)
    decreases |b.blockNumbers| - i
  {
    var rest := BatchNumbers(b)[i..];
    if i < |BatchNumbers(b)| {
      var n, later := b.blockNumbers[i], BatchNumbers(b)[i + 1..] + ns;
      assert rest + ns == [n] + later;
      IncreasingTail(n, later);
      HeadBeforeSplit(p.derived, st.lastDerived, n, later);
      BlockInOrder(cfg, st, ctx, i, n, b.blockTxs[i], p, later);
      BlocksInOrder(cfg, st, ctx, b, i + 1, ProcessBlock(cfg, st, ctx, i, n, b.blockTxs[i], p).value, ns);
    } else {
      assert rest + ns == ns;
    }
  }

  lemma IncreasingTail(n: U64, later: seq<U64>)
    requires Increasing([n] + later)
    ensures Increasing(later) && AllAbove(later, n)
  {
    var all := [n] + later;
    assert forall j :: 0 <= j < |later| ==> all[j + 1] == later[j];
    forall i, j | 0 <= i < j < |later|
      ensures later[i] < later[j]
    {
      assert all[i + 1] < all[j + 1];
    }
    forall j | 0 <= j < |later|
      ensures n < later[j]
    {
      assert all[0] < all[j + 1];
    }
  }

  lemma IncreasingSuffix(a: seq<U64>, b: seq<U64>)
    requires Increasing(a + b)
    ensures Increasing(b)
  {
    forall i, j | 0 <= i < j < |b|
      ensures b[i] < b[j]
    {
      assert (a + b)[|a| + i] < (a + b)[|a| + j];
    }
  }

  lemma LogInOrder(
      cfg: RollupConfig, st: PipelineState, view: L1View, actions: seq<Action>, log: BatchLog, p: Progress,
      later: seq<U64>)
    requires InOrder(st, p)
    requires Increasing(LogNumbers(log) + later)
    requires HeadBefore(p.derived, st.lastDerived, LogNumbers(log) + later)
    requires ProcessLog(cfg, st, view, actions, log, p).Ok?
    ensures InOrder(st, ProcessLog(cfg, st, view, actions, log, p).value)
    ensures HeadBefore(ProcessLog(cfg, st, view, actions, log, p).value.derived, st.lastDerived, later)
    ensures Increasing(later)
  {
    IncreasingSuffix(LogNumbers(log), later);
    if log.posted.Some? {
      var b := log.posted.value;
      var ctx := ContextOf(cfg, actions, log.l1Block, view.headers[log.l1Block], b, p.remaining);
      assert BatchNumbers(b)[0..] == BatchNumbers(b);
      BlocksInOrder(cfg, st, ctx, b, 0, p.(remaining := Drain(p.remaining, b.entries)), later);
    } else {
      assert [] + later == later;
    }
  }

  lemma {:induction false} LogsInOrder(
      cfg: RollupConfig, st: PipelineState, view: L1View, actions: seq<Action>, logs: seq<BatchLog>, p: Progress,
      ns: seq<U64>)
    requires InOrder(st, p)
    requires Increasing(Submitted(logs) + ns)
    requires HeadBefore(p.derived, st.lastDerived, Submitted(logs) + ns)
    requires ProcessLogs(cfg, st, view, actions, logs, p).Ok?
    ensures InOrder(st, ProcessLogs(cfg, st, view, actions, logs, p).value)
    ensures HeadBefore(ProcessLogs(cfg, st, view, actions, logs, p).value.derived, st.lastDerived, ns)
  {
    if logs == [] {
      assert Submitted(logs) + ns == ns;
    } else {
      AppendAssociates(LogNumbers(logs[0]), Submitted(logs[1..]), ns);
      LogInOrder(cfg, st, view, actions, logs[0], p, Submitted(logs[1..]) + ns);
      LogsInOrder(cfg, st, view, actions, logs[1..], ProcessLog(cfg, st, view, actions, logs[0], p).value, ns);
    }
  }

  /** In that case sorting and deduplicating changes nothing. */
  lemma FinishInOrder(st: PipelineState, p: Progress, to: U64)
    requires InOrder(st, p)
    ensures Finish(p, to) == DerivedBatch(p.blocks, CursorUpdate(to, p.execution, p.derived, p.info, p.metas))
  {
    SortDedupOfStrict(p.blocks, BlockKey);
    SortDedupOfStrict(p.metas, MetaKey);
  }

  // ---- Cutting the log sequence ----

  ghost predicate LogsOrdered(logs: seq<BatchLog>) {
    forall i, j :: 0 <= i < j < |logs| ==> logs[i].l1Block <= logs[j].l1Block
  }

  lemma {:induction false} NoLogsBelow(logs: seq<BatchLog>, from: U64, to: U64)
    requires forall i :: 0 <= i < |logs| ==> to < logs[i].l1Block
    ensures LogsIn(logs, from, to) == []
  {
    if logs != [] {
      NoLogsBelow(logs[1..], from, to);
    }
  }

  lemma LogsInHead(logs: seq<BatchLog>, from: U64, to: U64)
    requires logs != []
    ensures LogsIn(logs, from, to) ==
            if from <= logs[0].l1Block <= to then [logs[0]] + LogsIn(logs[1..], from, to)
            else LogsIn(logs[1..], from, to)
  {
  }

  lemma LogsSplitHead(logs: seq<BatchLog>, from: U64, cut: U64, to: U64)
    requires logs != [] && from <= cut < to
    requires LogsIn(logs[1..], from, to) == LogsIn(logs[1..], from, cut) + LogsIn(logs[1..], cut + 1, to)
    requires logs[0].l1Block > cut ==> LogsIn(logs[1..], from, cut) == []
    ensures LogsIn(logs, from, to) == LogsIn(logs, from, cut) + LogsIn(logs, cut + 1, to)
  {
    LogsInHead(logs, from, to);
    LogsInHead(logs, from, cut);
    LogsInHead(logs, cut + 1, to);
    AppendAssociates([logs[0]], LogsIn(logs[1..], from, cut), LogsIn(logs[1..], cut + 1, to));
  }

  lemma LogsTail(logs: seq<BatchLog>)
    requires LogsOrdered(logs) && logs != []
    ensures LogsOrdered(logs[1..])
    ensures forall i :: 0 <= i < |logs[1..]| ==> logs[0].l1Block <= logs[1..][i].l1Block
  {
  }

  lemma {:induction false} LogsSplit(logs: seq<BatchLog>, from: U64, cut: U64, to: U64)
    requires LogsOrdered(logs)
    requires from <= cut < to
    ensures LogsIn(logs, from, to) == LogsIn(logs, from, cut) + LogsIn(logs, cut + 1, to)
  {
    if logs != [] {
      var tail := logs[1..];
      LogsTail(logs);
      LogsSplit(tail, from, cut, to);
      if logs[0].l1Block > cut {
        NoLogsBelow(tail, from, cut);
      }
      LogsSplitHead(logs, from, cut, to);
    }
  }

  lemma {:induction false} ProcessLogsAppend(
      cfg: RollupConfig, st: PipelineState, view: L1View, actions: seq<Action>, a: seq<BatchLog>,
      b: seq<BatchLog>, p: Progress)
    ensures ProcessLogs(cfg, st, view, actions, a + b, p) ==
            match ProcessLogs(cfg, st, view, actions, a, p)
            case Err(e) => Err(e)
            case Ok(q) => ProcessLogs(cfg, st, view, actions, b, q)
  {
    if a == [] {
      assert a + b == b;
    } else {
      assert (a + b)[1..] == a[1..] + b;
      var r := ProcessLog(cfg, st, view, actions, a[0], p);
      if r.Ok? {
        ProcessLogsAppend(cfg, st, view, actions, a[1..], b, r.value);
      }
    }
  }

  // ---- The theorem ----

  /** What two derivations must share: the chain of blocks without their entries, the cursor entries,
      and the four cursors they leave. */
  ghost predicate SameOutcome(one: DerivedBatch, first: DerivedBatch, second: DerivedBatch) {
    && Skeletons(one.blocks) == Skeletons(first.blocks) + Skeletons(second.blocks)
    && one.update.newEntries == first.update.newEntries + second.update.newEntries
    && one.update.lastProcessed == second.update.lastProcessed
    && one.update.lastExecution == second.update.lastExecution
    && one.update.lastDerived == second.update.lastDerived
    && one.update.lastL1Info == second.update.lastL1Info
  }

  /** The first window's loop and the first part of the long window's loop keep equal skeletons,
      although they see different consumed events. */
  lemma FirstPartsPaired(cfg: RollupConfig, st: PipelineState, view: L1View, a1: seq<Action>, a2: seq<Action>,
                         e1: seq<ConsumedEvent>, e2: seq<ConsumedEvent>, logs: seq<BatchLog>)
    ensures PairedResults(st, st, ProcessLogs(cfg, st, view, a1, logs, StartProgress(st, e1)),
                          ProcessLogs(cfg, st, view, a2, logs, StartProgress(st, e2)), [], [])
  {
    var p, q := StartProgress(st, e1), StartProgress(st, e2);
    assert Skeletons(p.blocks) == [] + Skeletons(q.blocks);
    assert p.metas == [] + q.metas;
    PairedLogs(cfg, st, st, view, a1, a2, logs, p, q, [], []);
  }

  /** After committing the first window, the second starts paired with the long one's second part. */
  lemma SecondStartsPaired(st: PipelineState, p: Progress, q: Progress, cut: U64, events: seq<ConsumedEvent>)
    requires Paired(st, st, p, q, [], [])
    requires InOrder(st, q)
    ensures var st' := Committed(st, Finish(q, cut));
            && st'.lastDerived == q.derived && st'.lastProcessed == cut
            && Finish(q, cut).blocks == q.blocks && Finish(q, cut).update.newEntries == q.metas
            && Paired(st, st', p, StartProgress(st', events), Skeletons(q.blocks), q.metas)
  {
    FinishInOrder(st, q, cut);
    assert Skeletons(p.blocks) == [] + Skeletons(q.blocks) == Skeletons(q.blocks);
    assert p.metas == [] + q.metas == q.metas;
    assert Skeletons(q.blocks) + Skeletons([]) == Skeletons(q.blocks);
    assert q.metas + [] == q.metas;
  }

  lemma FreshStartInOrder(st: PipelineState, events: seq<ConsumedEvent>)
    ensures InOrder(st, StartProgress(st, events))
  {
  }

  lemma OutcomesMatch(
      st: PipelineState, st': PipelineState, one: Progress, two: Progress, q: Progress, cut: U64, latest: U64)
    requires InOrder(st, one) && InOrder(st', two) && InOrder(st, q)
    requires Paired(st, st', one, two, Skeletons(q.blocks), q.metas)
    ensures SameOutcome(Finish(one, latest), Finish(q, cut), Finish(two, latest))
  {
    FinishInOrder(st, one, latest);
    FinishInOrder(st', two, latest);
    FinishInOrder(st, q, cut);
  }

  /** The two second parts, run from paired states. */
  lemma SecondParts(
      cfg: RollupConfig, st: PipelineState, st': PipelineState, view: L1View, a1: seq<Action>, a2: seq<Action>,
      logs: seq<BatchLog>, p: Progress, q: Progress, q0: Progress, cut: U64, latest: U64)
    requires InOrder(st, p) && InOrder(st, q) && InOrder(st', q0)
    requires Increasing(Submitted(logs)) && HeadBefore(p.derived, st.lastDerived, Submitted(logs))
    requires st'.lastDerived == q0.derived
    requires Paired(st, st', p, q0, Skeletons(q.blocks), q.metas)
    ensures var one := ProcessLogs(cfg, st, view, a1, logs, p);
            var two := ProcessLogs(cfg, st', view, a2, logs, q0);
            && (one.Ok? <==> two.Ok?)
            && (one.Ok? ==> SameOutcome(Finish(one.value, latest), Finish(q, cut), Finish(two.value, latest)))
  {
    PairedLogs(cfg, st, st', view, a1, a2, logs, p, q0, Skeletons(q.blocks), q.metas);
    var one := ProcessLogs(cfg, st, view, a1, logs, p);
    var two := ProcessLogs(cfg, st', view, a2, logs, q0);
    if one.Ok? && two.Ok? {
      assert Submitted(logs) + [] == Submitted(logs);
      LogsInOrder(cfg, st, view, a1, logs, p, []);
      LogsInOrder(cfg, st', view, a2, logs, q0, []);
      OutcomesMatch(st, st', one.value, two.value, q, cut, latest);
    }
  }

  /** The second window starts right after the cut and reaches `latest`. */
  lemma SecondWindow(cfg: RollupConfig, st: PipelineState, st': PipelineState, view: L1View, cut: U64, latest: U64)
    requires st'.lastProcessed == cut && st.lastProcessed < cut < latest <= st.lastProcessed + MAX_LOG_RANGE
    ensures WindowStart(st') == cut + 1 && WindowEnd(st', latest) == latest
    ensures WindowEnd(st, latest) == latest && WindowEnd(st, cut) == cut
  {
  }

  lemma DerivedIs(
      cfg: RollupConfig, st: PipelineState, latest: U64, view: L1View, logs: seq<BatchLog>,
      events: seq<ConsumedEvent>)
    requires st.lastProcessed < latest && WindowEnd(st, latest) == latest
    requires logs == LogsIn(view.logs, WindowStart(st), latest)
    requires events == WindowEvents(cfg, st, latest, view)
    ensures var done := ProcessLogs(cfg, st, view, ConsumedActions(events), logs, StartProgress(st, events));
            Derived(cfg, st, latest, view) == if done.Err? then Err(done.error) else Ok(Finish(done.value, latest))
  {
  }

  /** `p` and `q` are what the long and the first window have accumulated at the cut. */
  lemma SecondPart(cfg: RollupConfig, st: PipelineState, view: L1View, cut: U64, latest: U64,
                   logsB: seq<BatchLog>, p: Progress, q: Progress)
    requires st.lastProcessed < cut < latest <= st.lastProcessed + MAX_LOG_RANGE
    requires logsB == LogsIn(view.logs, cut + 1, latest)
    requires Increasing(Submitted(logsB))
    requires InOrder(st, p) && InOrder(st, q)
    requires HeadBefore(p.derived, st.lastDerived, Submitted(logsB))
    requires Paired(st, st, p, q, [], [])
    ensures var first := Finish(q, cut);
            var one := ProcessLogs(cfg, st, view, ConsumedActions(WindowEvents(cfg, st, latest, view)), logsB, p);
            var second := Derived(cfg, Committed(st, first), latest, view);
            && (one.Ok? <==> second.Ok?)
            && (one.Ok? ==> SameOutcome(Finish(one.value, latest), first, second.value))
  {
    var st' := Committed(st, Finish(q, cut));
    var eB := WindowEvents(cfg, st', latest, view);
    SecondStartsPaired(st, p, q, cut, eB);
    SecondWindow(cfg, st, st', view, cut, latest);
    FreshStartInOrder(st', eB);
    DerivedIs(cfg, st', latest, view, logsB, eB);
    SecondParts(cfg, st, st', view, ConsumedActions(WindowEvents(cfg, st, latest, view)), ConsumedActions(eB), logsB,
                p, q, StartProgress(st', eB), cut, latest);
  }

  /** The logs before and after the cut, and what their submitted numbers keep. */
  lemma CutLogs(logs: seq<BatchLog>, from: U64, cut: U64, latest: U64)
    requires LogsOrdered(logs) && from <= cut < latest
    requires Increasing(Submitted(LogsIn(logs, from, latest)))
    ensures LogsIn(logs, from, latest) == LogsIn(logs, from, cut) + LogsIn(logs, cut + 1, latest)
    ensures Increasing(Submitted(LogsIn(logs, from, cut)) + Submitted(LogsIn(logs, cut + 1, latest)))
    ensures Increasing(Submitted(LogsIn(logs, cut + 1, latest)))
  {
    LogsSplit(logs, from, cut, latest);
    SubmittedAppend(LogsIn(logs, from, cut), LogsIn(logs, cut + 1, latest));
    IncreasingSuffix(Submitted(LogsIn(logs, from, cut)), Submitted(LogsIn(logs, cut + 1, latest)));
  }

  lemma InOrderAtCut(cfg: RollupConfig, st: PipelineState, view: L1View, actions: seq<Action>,
                     events: seq<ConsumedEvent>, logs: seq<BatchLog>, ns: seq<U64>)
    requires Increasing(Submitted(logs) + ns)
    requires ProcessLogs(cfg, st, view, actions, logs, StartProgress(st, events)).Ok?
    ensures var p := ProcessLogs(cfg, st, view, actions, logs, StartProgress(st, events)).value;
            InOrder(st, p) && HeadBefore(p.derived, st.lastDerived, ns)
  {
    FreshStartInOrder(st, events);
    LogsInOrder(cfg, st, view, actions, logs, StartProgress(st, events), ns);
  }

  /** Window independence: if L1 logs are in block order and submitted numbers increase along them,
      then deriving up to `latest` in one window succeeds exactly when deriving up to `cut`,
      committing, and deriving on to `latest` does, and both give the same blocks, cursor entries
      and cursors. */
  lemma CuttingAWindowChangesNothing(cfg: RollupConfig, st: PipelineState, view: L1View, cut: U64, latest: U64)
    requires LogsOrdered(view.logs)
    requires st.lastProcessed < cut < latest <= st.lastProcessed + MAX_LOG_RANGE
    requires Increasing(Submitted(LogsIn(view.logs, WindowStart(st), latest)))
    ensures var one := Derived(cfg, st, latest, view);
            var first := Derived(cfg, st, cut, view);
            && (one.Ok? <==> first.Ok? && Derived(cfg, Committed(st, first.value), latest, view).Ok?)
            && (one.Ok? ==>
                  SameOutcome(one.value, first.value, Derived(cfg, Committed(st, first.value), latest, view).value))
  {
    var from := WindowStart(st);
    var logsA, logsB := LogsIn(view.logs, from, cut), LogsIn(view.logs, cut + 1, latest);
    SecondWindow(cfg, st, st.(lastProcessed := cut), view, cut, latest);
    CutLogs(view.logs, from, cut, latest);
    var e1, eA := WindowEvents(cfg, st, latest, view), WindowEvents(cfg, st, cut, view);
    var a1, aA := ConsumedActions(e1), ConsumedActions(eA);
    DerivedIs(cfg, st, latest, view, logsA + logsB, e1);
    DerivedIs(cfg, st, cut, view, logsA, eA);
    ProcessLogsAppend(cfg, st, view, a1, logsA, logsB, StartProgress(st, e1));
    FirstPartsPaired(cfg, st, view, a1, aA, e1, eA, logsA);
    var r1 := ProcessLogs(cfg, st, view, a1, logsA, StartProgress(st, e1));
    var rA := ProcessLogs(cfg, st, view, aA, logsA, StartProgress(st, eA));
    if rA.Ok? {
      InOrderAtCut(cfg, st, view, a1, e1, logsA, Submitted(logsB));
      InOrderAtCut(cfg, st, view, aA, eA, logsA, Submitted(logsB));
      SecondPart(cfg, st, view, cut, latest, logsB, r1.value, rA.value);
    }
  }

  // ---- The stored cursor ----

  lemma CheckedOfCapped(a: seq<BlockMeta>, b: seq<BlockMeta>)
    ensures Checked(Capped(a) + b) == Checked(a + b)
  {
    var drop := |a| - |Capped(a)|;
    assert Capped(a) == a[drop..];
    assert Capped(a) + b == (a + b)[drop..];
    if drop > 0 {
      var keep := |a + b| - REORG_CHECK_DEPTH;
      assert (a + b)[drop..][keep - drop..] == (a + b)[keep..];
    }
  }

  /** Capping after each of two commits or once after both leaves the same cursor exactly when the
      first commit stays within the cap, or the second adds nothing or more than the cap keeps. */
  lemma CapsAgreeIff(a: seq<BlockMeta>, b: seq<BlockMeta>)
    ensures Capped(Capped(a) + b) == Capped(a + b)
            <==> |a| <= 2 * REORG_CHECK_DEPTH || b == [] || |b| > REORG_CHECK_DEPTH
  {
    if |a| <= 2 * REORG_CHECK_DEPTH {
      assert Capped(a) == a;
    } else {
      var drop := |a| - REORG_CHECK_DEPTH;
      assert Capped(a) + b == (a + b)[drop..];
      if |b| > REORG_CHECK_DEPTH {
        assert (a + b)[drop..][|b|..] == (a + b)[drop + |b|..];
      } else {
        assert Capped(Capped(a) + b) == (a + b)[drop..];
      }
    }
  }

  lemma ReorgPointSeesChecked(cfg: RollupConfig, a: seq<BlockMeta>, b: seq<BlockMeta>, headers: map<U64, L1Header>)
    requires Checked(a) == Checked(b)
    ensures ReorgPoint(cfg, a, headers) == ReorgPoint(cfg, b, headers)
  {
    assert a == [] <==> Checked(a) == [];
    assert b == [] <==> Checked(b) == [];
    if a != [] {
      assert a[|a| - 1] == Checked(a)[|Checked(a)| - 1];
      assert b[|b| - 1] == Checked(b)[|Checked(b)| - 1];
    }
  }

  /** The stored cursors after one commit and after two may differ in length, since the cap fires at
      different times (`CapsAgreeIff`), but reorg detection reads the same entries of both and so
      gives the same answer. */
  lemma CuttingKeepsReorgAnswers(
      cfg: RollupConfig, st: PipelineState, view: L1View, cut: U64, latest: U64, headers: map<U64, L1Header>)
    requires LogsOrdered(view.logs)
    requires st.lastProcessed < cut < latest <= st.lastProcessed + MAX_LOG_RANGE
    requires Increasing(Submitted(LogsIn(view.logs, WindowStart(st), latest)))
    requires Derived(cfg, st, latest, view).Ok?
    ensures var first := Derived(cfg, st, cut, view);
            && first.Ok? && Derived(cfg, Committed(st, first.value), latest, view).Ok?
            && var mid := Committed(st, first.value);
               var one := Committed(st, Derived(cfg, st, latest, view).value);
               var two := Committed(mid, Derived(cfg, mid, latest, view).value);
               && Checked(one.cursor) == Checked(two.cursor)
               && ReorgPoint(cfg, one.cursor, headers) == ReorgPoint(cfg, two.cursor, headers)
  {
    CuttingAWindowChangesNothing(cfg, st, view, cut, latest);
    var first := Derived(cfg, st, cut, view).value;
    var mid := Committed(st, first);
    var a, b := first.update.newEntries, Derived(cfg, mid, latest, view).value.update.newEntries;
    AppendAssociates(st.cursor, a, b);
    TwoCapsChecked(st.cursor + a, b);
    ReorgPointSeesChecked(cfg, Capped(st.cursor + a + b), Capped(Capped(st.cursor + a) + b), headers);
  }

  lemma TwoCapsChecked(a: seq<BlockMeta>, b: seq<BlockMeta>)
    ensures Checked(Capped(Capped(a) + b)) == Checked(Capped(a + b))
  {
    CheckedOfCapped(a, b);
    CheckedOfCapped(a + b, []);
    CheckedOfCapped(Capped(a) + b, []);
    assert Capped(a + b) + [] == Capped(a + b) && a + b + [] == a + b;
    assert Capped(Capped(a) + b) + [] == Capped(Capped(a) + b) && Capped(a) + b + [] == Capped(a) + b;
  }
}
