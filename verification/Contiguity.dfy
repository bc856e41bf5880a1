/** Whatever batches L1 shows (stale, duplicate, out of order), a window that derives at all derives
    consecutive blocks. */
module Contiguity {
  import opened Wrappers
  import opened MachineInts
  import opened Timestamps
  import opened Consumption
  import opened CrossChain
  import opened StableOrder
  import opened Derivation

  ghost predicate OnSchedule(cfg: RollupConfig, b: DerivedBlock) {
    b.timestamp == ExactTimestamp(cfg, b.number)
  }

  ghost predicate AllOnSchedule(cfg: RollupConfig, blocks: seq<DerivedBlock>) {
    forall i :: 0 <= i < |blocks| ==> OnSchedule(cfg, blocks[i])
  }

  ghost predicate MetasWithin(metas: seq<BlockMeta>, lo: int, hi: int) {
    forall i :: 0 <= i < |metas| ==> lo < metas[i].l2Number <= hi
  }

  /** The numbers pushed so far fill `committed head + 1 ..= m`; the local head may have fallen back
      below `m`, but never below the committed head. */
  ghost predicate Filling(cfg: RollupConfig, st: PipelineState, p: Progress, m: int) {
    && st.lastDerived <= p.derived <= m
    && KeysFill(p.blocks, BlockKey, st.lastDerived, m)
    && AllOnSchedule(cfg, p.blocks)
    && MetasWithin(p.metas, st.lastDerived, m)
    && p.execution >= st.lastExecution
  }

  /** Below a block whose timestamp fits, gap filling never breaks off. */
  lemma {:induction false} GapFillIsComplete(cfg: RollupConfig, from: U64, to: U64, info: L1Info, k: int)
    requires L2TimestampChecked(cfg, to).Some?
    ensures First(GapFill(cfg, from, to, info), BlockKey, k).Some? <==> from <= k < to
    ensures AllOnSchedule(cfg, GapFill(cfg, from, to, info))
    decreases if from < to then to - from else 0
  {
    if from < to {
      CheckedTimestampDownward(cfg, from, to);
      CheckedTimestampIsExact(cfg, from);
      GapFillIsComplete(cfg, from + 1, to, info, k);
      var t := L2TimestampChecked(cfg, from).value;
      FirstSingle(GapBlock(from, t, info), BlockKey, k);
      FirstAppend([GapBlock(from, t, info)], GapFill(cfg, from + 1, to, info), BlockKey, k);
    }
  }

  lemma PushFills(
      cfg: RollupConfig, st: PipelineState, p: Progress, m: int, n: U64, gap: seq<DerivedBlock>, b: DerivedBlock)
    requires Filling(cfg, st, p, m)
    requires st.lastDerived < n && b.number == n
    requires forall k :: First(gap, BlockKey, k).Some? <==> p.derived + 1 <= k < n
    ensures KeysFill(p.blocks + gap + [b], BlockKey, st.lastDerived, Max(m, n))
  {
    forall k
      ensures First(p.blocks + gap + [b], BlockKey, k).Some? <==> st.lastDerived < k <= Max(m, n)
    {
      FirstAppend(p.blocks + gap, [b], BlockKey, k);
      FirstAppend(p.blocks, gap, BlockKey, k);
      FirstSingle(b, BlockKey, k);
      assert First(p.blocks, BlockKey, k).Some? <==> st.lastDerived < k <= m;
    }
  }

  lemma BlockKeepsFilling(
      cfg: RollupConfig, st: PipelineState, ctx: BatchContext, i: nat, n: U64, txs: Payload, p: Progress, m: int)
    requires Filling(cfg, st, p, m)
    requires ProcessBlock(cfg, st, ctx, i, n, txs, p).Ok?
    ensures Filling(cfg, st, ProcessBlock(cfg, st, ctx, i, n, txs, p).value,
                    Max(m, ProcessBlock(cfg, st, ctx, i, n, txs, p).value.derived))
  {
    var p' := ProcessBlock(cfg, st, ctx, i, n, txs, p).value;
    if !Stale(st, p, n) && L2TimestampChecked(cfg, n).Some? {
      var expected := SaturatingAdd(p.derived, 1);
      var info := GapInfo(cfg, st.deploymentHash, p.info);
      var gap := if n > expected then GapFill(cfg, expected, n, info) else [];
      forall k
        ensures First(gap, BlockKey, k).Some? <==> p.derived + 1 <= k < n
      {
        GapFillIsComplete(cfg, expected, n, info, k);
      }
      if n > expected {
        GapFillIsComplete(cfg, expected, n, info, 0);
      }
      CheckedTimestampIsExact(cfg, n);
      PushFills(cfg, st, p, m, n, gap, SubmittedBlock(ctx, i, n, L2TimestampChecked(cfg, n).value, txs));
    }
  }

  lemma {:induction false} BlocksKeepFilling(
      cfg: RollupConfig, st: PipelineState, ctx: BatchContext, b: Batch, i: nat, p: Progress, m: int) returns (m': int)
    requires Filling(cfg, st, p, m)
    requires ProcessBlocks(cfg, st, ctx, b, i, p).Ok?
    ensures Filling(cfg, st, ProcessBlocks(cfg, st, ctx, b, i, p).value, m')
    ensures ProcessBlocks(cfg, st, ctx, b, i, p).value.execution == p.execution
    decreases |b.blockNumbers| - i
  {
    m' := m;
    if i < |b.blockNumbers| && i < |b.blockTxs| {
      BlockKeepsFilling(cfg, st, ctx, i, b.blockNumbers[i], b.blockTxs[i], p, m);
      var p' := ProcessBlock(cfg, st, ctx, i, b.blockNumbers[i], b.blockTxs[i], p).value;
      m' := BlocksKeepFilling(cfg, st, ctx, b, i + 1, p', Max(m, p'.derived));
    }
  }

  lemma {:induction false} LogsKeepFilling(
      cfg: RollupConfig, st: PipelineState, view: L1View, actions: seq<Action>, logs: seq<BatchLog>, p: Progress,
      m: int, to: U64)
    returns (m': int)
    requires Filling(cfg, st, p, m)
    requires ProcessLogs(cfg, st, view, actions, logs, p).Ok?
    requires forall i :: 0 <= i < |logs| ==> logs[i].l1Block <= to
    ensures Filling(cfg, st, ProcessLogs(cfg, st, view, actions, logs, p).value, m')
    ensures ProcessLogs(cfg, st, view, actions, logs, p).value.execution <= Max(p.execution, to)
  {
    m' := m;
    if logs != [] {
      var p' := ProcessLog(cfg, st, view, actions, logs[0], p).value;
      if logs[0].posted.Some? {
        var b := logs[0].posted.value;
        var ctx := ContextOf(cfg, actions, logs[0].l1Block, view.headers[logs[0].l1Block], b, p.remaining);
        m' := BlocksKeepFilling(cfg, st, ctx, b, 0, p.(remaining := Drain(p.remaining, b.entries)), m);
      }
      m' := LogsKeepFilling(cfg, st, view, actions, logs[1..], p', m', to);
    }
  }

  lemma {:induction false} LogsInWindow(logs: seq<BatchLog>, from: U64, to: U64)
    ensures forall i :: 0 <= i < |LogsIn(logs, from, to)| ==> from <= LogsIn(logs, from, to)[i].l1Block <= to
  {
    if logs != [] {
      LogsInWindow(logs[1..], from, to);
    }
  }

  lemma WindowFills(cfg: RollupConfig, st: PipelineState, latest: U64, view: L1View) returns (m: int)
    requires WindowProgress(cfg, st, latest, view).Ok?
    ensures Filling(cfg, st, WindowProgress(cfg, st, latest, view).value, m)
    ensures WindowProgress(cfg, st, latest, view).value.execution <= Max(st.lastExecution, WindowEnd(st, latest))
  {
    var events := WindowEvents(cfg, st, latest, view);
    var logs := LogsIn(view.logs, WindowStart(st), WindowEnd(st, latest));
    LogsInWindow(view.logs, WindowStart(st), WindowEnd(st, latest));
    m := LogsKeepFilling(cfg, st, view, ConsumedActions(events), logs, StartProgress(st, events), st.lastDerived,
                         WindowEnd(st, latest));
  }

  /** Everything the window loops pushed, in push order. */
  function Pushed(cfg: RollupConfig, st: PipelineState, latest: U64, view: L1View): seq<DerivedBlock> {
    if latest <= st.lastProcessed then [] else
      match WindowProgress(cfg, st, latest, view)
      case Err(_) => []
      case Ok(p) => p.blocks
  }

  lemma FinishFilled(cfg: RollupConfig, st: PipelineState, p: Progress, m: int, to: U64)
    requires Filling(cfg, st, p, m)
    ensures |Finish(p, to).blocks| == m - st.lastDerived
    ensures forall i :: 0 <= i < |Finish(p, to).blocks| ==> Finish(p, to).blocks[i].number == st.lastDerived + 1 + i
    ensures Finish(p, to).update.lastDerived == m
  {
    var blocks := SortDedup(p.blocks, BlockKey);
    SortDedupKeepsFirst(p.blocks, BlockKey, 0);
    forall k
      ensures First(blocks, BlockKey, k).Some? <==> st.lastDerived < k <= m
    {
      SortDedupKeepsFirst(p.blocks, BlockKey, k);
      assert First(p.blocks, BlockKey, k).Some? <==> st.lastDerived < k <= m;
    }
    StrictFillIsContiguous(blocks, BlockKey, st.lastDerived, m);
    assert forall i :: 0 <= i < |blocks| ==> BlockKey(blocks[i]) == blocks[i].number;
  }

  /** Contiguity: a successful derivation returns exactly the blocks after the committed head, one of
      each, ending at the new head; each is the first one pushed for its number and carries the exact
      formula timestamp. */
  lemma DerivedBlocksAreContiguous(cfg: RollupConfig, st: PipelineState, latest: U64, view: L1View, i: nat)
    requires Derived(cfg, st, latest, view).Ok?
    ensures var r := Derived(cfg, st, latest, view).value;
            && r.update.lastDerived == st.lastDerived + |r.blocks|
            && (i < |r.blocks| ==>
                  && r.blocks[i].number == st.lastDerived + 1 + i
                  && r.blocks[i].timestamp == ExactTimestamp(cfg, r.blocks[i].number)
                  && First(Pushed(cfg, st, latest, view), BlockKey, r.blocks[i].number) == Some(r.blocks[i]))
  {
    if latest > st.lastProcessed {
      var p := WindowProgress(cfg, st, latest, view).value;
      var m := WindowFills(cfg, st, latest, view);
      FinishFilled(cfg, st, p, m, WindowEnd(st, latest));
      if i < |SortDedup(p.blocks, BlockKey)| {
        SurvivorIsFirst(p.blocks, BlockKey, i);
        var at := FirstIsMember(p.blocks, BlockKey, SortDedup(p.blocks, BlockKey)[i].number);
        assert OnSchedule(cfg, p.blocks[at]);
      }
    }
  }

  /** The cursor entries of a derivation are strictly increasing and lie past the committed head, up
      to the new one; the execution cursor moves no further than the window. */
  lemma DerivedCursorEntries(cfg: RollupConfig, st: PipelineState, latest: U64, view: L1View)
    requires Derived(cfg, st, latest, view).Ok?
    ensures var u := Derived(cfg, st, latest, view).value.update;
            && StrictlyIncreasing(u.newEntries, MetaKey)
            && MetasWithin(u.newEntries, st.lastDerived, u.lastDerived)
            && st.lastProcessed <= u.lastProcessed
            && st.lastExecution <= u.lastExecution <= Max(st.lastExecution, u.lastProcessed)
  {
    if latest > st.lastProcessed {
      var p := WindowProgress(cfg, st, latest, view).value;
      var m := WindowFills(cfg, st, latest, view);
      FinishFilled(cfg, st, p, m, WindowEnd(st, latest));
      var metas := SortDedup(p.metas, MetaKey);
      SortDedupKeepsFirst(p.metas, MetaKey, 0);
      forall i | 0 <= i < |metas|
        ensures st.lastDerived < metas[i].l2Number <= m
      {
        FirstOfMember(metas, MetaKey, i);
        SortDedupKeepsFirst(p.metas, MetaKey, MetaKey(metas[i]));
        var at := FirstIsMember(p.metas, MetaKey, MetaKey(metas[i]));
      }
    }
  }
}
