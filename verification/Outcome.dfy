/** What a derivation returns, field by field, said in terms of L1 and the starting state alone. */
module Outcome {
  import opened Wrappers
  import opened Collections
  import opened MachineInts
  import opened Timestamps
  import opened CrossChain
  import opened Consumption
  import EntryConversion
  import Continuation
  import opened StableOrder
  import opened Derivation
  import opened Contiguity
  import opened WindowConsumption
  import opened WindowIndependence
  import opened Provenance

  // ---- Submitted blocks ----

  lemma SubmissionBehind(cfg: RollupConfig, st: PipelineState, latest: U64, view: L1View, r: DerivedBatch, i: nat)
    returns (j: nat, idx: nat)
    requires Derived(cfg, st, latest, view) == Ok(r) && i < |r.blocks|
    requires Arrives(PushedEntries(cfg, st, latest, view), r.blocks[i].number)
    ensures SubmittedAt(cfg, WindowOf(cfg, st, latest, view), j, idx, r.blocks[i])
  {
    EveryBlockComesFromL1(cfg, st, latest, view, r, i);
    var w, metas := WindowOf(cfg, st, latest, view), PushedEntries(cfg, st, latest, view);
    j, idx :| SubmittedAt(cfg, w, j, idx, r.blocks[i])
              && LeavesEntry(w, j, r.blocks[i], metas[Reach(metas, r.blocks[i].number)]);
  }

  /** A returned block whose number was submitted before any larger one has the number and the
      transactions of a submission in the window, stands in the context of the parent of that
      submission's L1 block, and is empty exactly when its payload is. Only the last block of a batch
      has a root, only the first and the last have entries or filtering data. */
  lemma SubmissionFields(cfg: RollupConfig, st: PipelineState, latest: U64, view: L1View, r: DerivedBatch, i: nat)
    returns (j: nat, idx: nat)
    requires Derived(cfg, st, latest, view) == Ok(r) && i < |r.blocks|
    requires Arrives(PushedEntries(cfg, st, latest, view), r.blocks[i].number)
    ensures Submits(WindowOf(cfg, st, latest, view), j, idx)
    ensures var log := WindowOf(cfg, st, latest, view).logs[j];
            var b, blk := log.posted.value, r.blocks[i];
            && blk.number == b.blockNumbers[idx] && blk.transactions == b.blockTxs[idx]
            && blk.l1Info.number == (if log.l1Block == 0 then 0 else log.l1Block - 1)
            && blk.l1Info.hash == view.headers[log.l1Block].parentHash
            && (blk.isEmpty <==> b.blockTxs[idx] == NoBytes || b.blockTxs[idx] == RlpList([]))
            && (idx + 1 != |b.blockNumbers| ==> blk.stateRoot == ZERO_ROOT)
            && (0 < idx && idx + 1 != |b.blockNumbers| ==> blk.executionEntries == [] && blk.filtering == None)
  {
    j, idx := SubmissionBehind(cfg, st, latest, view, r, i);
  }

  /** Some posted entry, or some entry of a table that some transaction of some block loads, is part of
      a scope revert. */
  ghost predicate ShowsRevert(b: Batch) {
    || (exists k: nat :: k < |b.entries| && IsRevertAction(b.entries[k].nextAction))
    || exists t: nat, x: nat, k: nat :: LoadsRevertAt(b, t, x, k)
  }

  predicate LoadsRevertAt(b: Batch, t: nat, x: nat, k: nat) {
    && t < |b.blockTxs| && b.blockTxs[t].RlpList?
    && x < |b.blockTxs[t].txs| && b.blockTxs[t].txs[x].loadsTable.Some?
    && k < |b.blockTxs[t].txs[x].loadsTable.value|
    && IsRevertAction(b.blockTxs[t].txs[x].loadsTable.value[k].nextAction)
  }

  predicate IsRevertAction(a: Action) {
    a.kind in {Revert, RevertContinue}
  }

  lemma ShowsRevertIff(b: Batch)
    ensures BatchHasRevert(b) <==> ShowsRevert(b)
  {
    if BatchHasRevert(b) && !HasRevert(b.entries) {
      var t: nat :| t < |b.blockTxs| && PayloadHasRevert(b.blockTxs[t]);
      var x: nat :| x < |b.blockTxs[t].txs| && TxLoadsRevert(b.blockTxs[t].txs[x]);
      var k: nat :| k < |b.blockTxs[t].txs[x].loadsTable.value|
                    && IsRevertKind(b.blockTxs[t].txs[x].loadsTable.value[k].nextAction);
      assert LoadsRevertAt(b, t, x, k);
    }
    if t: nat, x: nat, k: nat :| LoadsRevertAt(b, t, x, k) {
      assert HasRevert(b.blockTxs[t].txs[x].loadsTable.value);
      assert TxLoadsRevert(b.blockTxs[t].txs[x]);
      assert PayloadHasRevert(b.blockTxs[t]);
    }
    if k: nat :| k < |b.entries| && IsRevertAction(b.entries[k].nextAction) {
      assert IsRevertKind(b.entries[k].nextAction);
    }
  }

  /** What a batch's revert, its rejected entries and its window's actions decide. */
  lemma ContextOutcome(cfg: RollupConfig, w: Window, j: nat)
    requires j < |w.logs| && w.logs[j].posted.Some? && w.logs[j].l1Block in w.view.headers
    ensures var b, ctx := w.logs[j].posted.value, ContextAt(cfg, w, j);
            var accepted := Selected(b.entries, CounterAt(w, j));
            if ShowsRevert(b) then
              !ctx.filter && ctx.effectiveRoot == FinalRoot(b.entries) && ctx.deferred == accepted
            else
              && (ctx.filter <==> exists k: nat :: k < |b.entries| && Rejected(b.entries, CounterAt(w, j), k))
              && ctx.effectiveRoot == FoldRoots(FinalRoot(b.entries), accepted, {}, cfg.rollupId)
              && ctx.deferred == if w.actions == [] then accepted
                                 else EntryConversion.L2Pairs(accepted, w.actions)
                                      + Continuation.ContinuationEntries(accepted, w.actions)
  {
    var b := w.logs[j].posted.value;
    ShowsRevertIff(b);
    if ShowsRevert(b) {
      RevertBatchKeepsFinalRoot(FinalRoot(b.entries), b.entries, CounterAt(w, j), cfg.rollupId, |b.entries|);
      assert b.entries[..|b.entries|] == b.entries;
    }
  }

  /** In a batch that shows a revert nothing is filtered, the closing block has the root of the
      immediate entry, and the accepted entries are carried as they are. In any other batch the first
      and the last block are filtered exactly when some deferred entry was rejected, and the entries
      are converted when the window consumed anything. */
  lemma SubmissionOutcome(cfg: RollupConfig, st: PipelineState, latest: U64, view: L1View, r: DerivedBatch, i: nat)
    returns (j: nat, idx: nat)
    requires Derived(cfg, st, latest, view) == Ok(r) && i < |r.blocks|
    requires Arrives(PushedEntries(cfg, st, latest, view), r.blocks[i].number)
    ensures Submits(WindowOf(cfg, st, latest, view), j, idx)
    ensures var w := WindowOf(cfg, st, latest, view);
            var b, blk, counter := w.logs[j].posted.value, r.blocks[i], CounterAt(w, j);
            var accepted := Selected(b.entries, counter);
            var carries, closes := idx == 0 || idx + 1 == |b.blockNumbers|, idx + 1 == |b.blockNumbers|;
            && blk.number == b.blockNumbers[idx]
            && (ShowsRevert(b) ==>
                  && blk.filtering == None
                  && (closes ==> blk.stateRoot == FinalRoot(b.entries))
                  && (carries ==> blk.executionEntries == accepted))
            && (!ShowsRevert(b) ==>
                  && (closes ==> blk.stateRoot == FoldRoots(FinalRoot(b.entries), accepted, {}, cfg.rollupId))
                  && (carries ==>
                        && (blk.filtering.Some?
                            <==> exists k: nat :: k < |b.entries| && Rejected(b.entries, counter, k))
                        && (blk.filtering.Some? ==> blk.filtering.value == Filtering(counter, blk.executionEntries))
                        && blk.executionEntries ==
                           if w.actions == [] then accepted
                           else EntryConversion.L2Pairs(accepted, w.actions)
                                + Continuation.ContinuationEntries(accepted, w.actions)))
  {
    j, idx := SubmissionBehind(cfg, st, latest, view, r, i);
    ContextOutcome(cfg, WindowOf(cfg, st, latest, view), j);
  }

  // ---- Fillers ----

  /** Any other returned block is an empty filler in the context of the submission before the first
      larger number, or in the starting one: that of the state, or of the deployment. */
  lemma FillerFields(cfg: RollupConfig, st: PipelineState, latest: U64, view: L1View, r: DerivedBatch, i: nat)
    returns (k: nat)
    requires Derived(cfg, st, latest, view) == Ok(r) && i < |r.blocks|
    requires !Arrives(PushedEntries(cfg, st, latest, view), r.blocks[i].number)
    ensures var metas, blk := PushedEntries(cfg, st, latest, view), r.blocks[i];
            && k < |metas| && metas[k].l2Number > blk.number
            && (forall x :: 0 <= x < k ==> metas[x].l2Number < blk.number)
            && blk.transactions == NoBytes && blk.isEmpty && blk.stateRoot == ZERO_ROOT
            && blk.executionEntries == [] && blk.filtering == None
            && blk.l1Info ==
               if k == 0 then
                 (if st.lastL1Info.Some? then st.lastL1Info.value
                  else L1Info(cfg.deploymentL1Block, st.deploymentHash))
               else ParentContext(view, metas[k - 1].l1Number)
  {
    EveryBlockComesFromL1(cfg, st, latest, view, r, i);
    k := ExpectedFiller(cfg, WindowOf(cfg, st, latest, view), GapInfo(cfg, st.deploymentHash, st.lastL1Info),
                        PushedEntries(cfg, st, latest, view), r.blocks[i]);
  }

  lemma ExpectedFiller(cfg: RollupConfig, w: Window, start: L1Info, metas: seq<BlockMeta>, blk: DerivedBlock)
    returns (k: nat)
    requires Expected(cfg, w, start, metas, blk) && !Arrives(metas, blk.number)
    ensures k < |metas| && metas[k].l2Number > blk.number
    ensures forall x :: 0 <= x < k ==> metas[x].l2Number < blk.number
    ensures blk == DerivedBlock(blk.number, blk.timestamp,
                                if k == 0 then start else ParentContext(w.view, metas[k - 1].l1Number),
                                ZERO_ROOT, NoBytes, true, [], None)
  {
    k := Reach(metas, blk.number);
    ReachIsFirst(metas, blk.number);
  }

  /** The parent of an L1 block, as its header names it. */
  function ParentContext(view: L1View, l1Block: U64): L1Info {
    L1Info(if l1Block == 0 then 0 else l1Block - 1,
           if l1Block in view.headers then view.headers[l1Block].parentHash else 0)
  }

  lemma {:induction false} ReachIsFirst(metas: seq<BlockMeta>, k: int)
    ensures forall x :: 0 <= x < Reach(metas, k) ==> metas[x].l2Number < k
    ensures Reach(metas, k) < |metas| ==> metas[Reach(metas, k)].l2Number >= k
  {
    if metas != [] {
      ReachIsFirst(metas[..|metas| - 1], k);
    }
  }

  // ---- The submissions a window takes ----

  /** Of the submitted numbers those past the head whose timestamp fits, in order. */
  function Taken(cfg: RollupConfig, head: U64, ns: seq<U64>): seq<U64> {
    if ns == [] then []
    else if head < ns[0] && L2TimestampChecked(cfg, ns[0]).Some? then [ns[0]] + Taken(cfg, head, ns[1..])
    else Taken(cfg, head, ns[1..])
  }

  lemma {:induction false} TakenAppend(cfg: RollupConfig, head: U64, a: seq<U64>, b: seq<U64>)
    ensures Taken(cfg, head, a + b) == Taken(cfg, head, a) + Taken(cfg, head, b)
  {
    if a == [] {
      assert a + b == b;
    } else {
      TakenAppend(cfg, head, a[1..], b);
      assert (a + b)[1..] == a[1..] + b;
      AppendAssociates([a[0]], Taken(cfg, head, a[1..]), Taken(cfg, head, b));
    }
  }

  lemma TakenOne(cfg: RollupConfig, head: U64, n: U64)
    ensures Taken(cfg, head, [n]) == if head < n && L2TimestampChecked(cfg, n).Some? then [n] else []
  {
    assert [n][1..] == [] && Taken(cfg, head, []) == [];
  }

  function NumbersOf(metas: seq<BlockMeta>): seq<U64> {
    seq(|metas|, i requires 0 <= i < |metas| => metas[i].l2Number)
  }

  /** The number before position `k`: the local head when it comes up. */
  function Before(head: U64, ns: seq<U64>, k: nat): U64
    requires k <= |ns|
  {
    if k == 0 then head else ns[k - 1]
  }

  /** No number jumps more than 1000 past the one after its predecessor. */
  ghost predicate NoJump(head: U64, ns: seq<U64>) {
    forall k :: 0 <= k < |ns| ==> ns[k] <= Before(head, ns, k) + 1 + 1000
  }

  lemma NoJumpAppend(head: U64, a: seq<U64>, b: seq<U64>)
    ensures NoJump(head, a + b) <==> NoJump(head, a) && NoJump(Before(head, a, |a|), b)
    ensures Before(head, a + b, |a + b|) == Before(Before(head, a, |a|), b, |b|)
  {
    if NoJump(head, a + b) {
      forall k | 0 <= k < |a|
        ensures a[k] <= Before(head, a, k) + 1 + 1000
      {
        assert (a + b)[k] == a[k] && Before(head, a + b, k) == Before(head, a, k);
      }
      forall k | 0 <= k < |b|
        ensures b[k] <= Before(Before(head, a, |a|), b, k) + 1 + 1000
      {
        assert (a + b)[|a| + k] == b[k] && Before(head, a + b, |a| + k) == Before(Before(head, a, |a|), b, k);
      }
    }
    if NoJump(head, a) && NoJump(Before(head, a, |a|), b) {
      forall k | 0 <= k < |a + b|
        ensures (a + b)[k] <= Before(head, a + b, k) + 1 + 1000
      {
        if k < |a| {
          assert (a + b)[k] == a[k] && Before(head, a + b, k) == Before(head, a, k);
        } else {
          assert (a + b)[k] == b[k - |a|];
          assert Before(head, a + b, k) == Before(Before(head, a, |a|), b, k - |a|);
        }
      }
    }
  }

  /** `q` is where a run that took `ns` from `p` stands. */
  ghost predicate Took(p: Progress, q: Progress, ns: seq<U64>) {
    && NumbersOf(q.metas) == NumbersOf(p.metas) + ns
    && q.derived == Before(p.derived, ns, |ns|)
  }

  lemma BlockTakes(
      cfg: RollupConfig, st: PipelineState, ctx: BatchContext, i: nat, n: U64, txs: Payload, p: Progress)
    requires st.lastDerived <= p.derived
    ensures var r := ProcessBlock(cfg, st, ctx, i, n, txs, p);
            var ns := Taken(cfg, st.lastDerived, [n]);
            && (r.Ok? <==> NoJump(p.derived, ns))
            && (r.Ok? ==> Took(p, r.value, ns) && st.lastDerived <= r.value.derived)
  {
    TakenOne(cfg, st.lastDerived, n);
    var r := ProcessBlock(cfg, st, ctx, i, n, txs, p);
    if st.lastDerived < n && L2TimestampChecked(cfg, n).Some? {
      assert NoJump(p.derived, [n]) <==> n <= p.derived + 1 + 1000 by {
        assert Before(p.derived, [n], 0) == p.derived;
      }
    }
    if r.Ok? {
      assert NumbersOf(p.metas) + [] == NumbersOf(p.metas);
    }
  }

  lemma TookThen(p: Progress, q: Progress, r: Progress, a: seq<U64>, b: seq<U64>)
    requires Took(p, q, a) && Took(q, r, b)
    ensures Took(p, r, a + b)
  {
    NoJumpAppend(p.derived, a, b);
    AppendAssociates(NumbersOf(p.metas), a, b);
  }

  lemma {:induction false} BlocksTake(
      cfg: RollupConfig, st: PipelineState, ctx: BatchContext, b: Batch, i: nat, p: Progress)
    requires st.lastDerived <= p.derived
    requires i <= |BatchNumbers(b)|
    ensures var r := ProcessBlocks(cfg, st, ctx, b, i, p);
            var ns := Taken(cfg, st.lastDerived, BatchNumbers(b)[i..]);
            && (r.Ok? <==> NoJump(p.derived, ns))
            && (r.Ok? ==> Took(p, r.value, ns) && st.lastDerived <= r.value.derived)
    decreases |b.blockNumbers| - i
  {
    var rest := BatchNumbers(b)[i..];
    if i < |BatchNumbers(b)| {
      var n, later := b.blockNumbers[i], BatchNumbers(b)[i + 1..];
      assert rest == [n] + later;
      BlockTakes(cfg, st, ctx, i, n, b.blockTxs[i], p);
      TakenAppend(cfg, st.lastDerived, [n], later);
      NoJumpAppend(p.derived, Taken(cfg, st.lastDerived, [n]), Taken(cfg, st.lastDerived, later));
      var r := ProcessBlock(cfg, st, ctx, i, n, b.blockTxs[i], p);
      if r.Ok? {
        BlocksTake(cfg, st, ctx, b, i + 1, r.value);
        var s := ProcessBlocks(cfg, st, ctx, b, i + 1, r.value);
        if s.Ok? {
          TookThen(p, r.value, s.value, Taken(cfg, st.lastDerived, [n]), Taken(cfg, st.lastDerived, later));
        }
      }
    } else {
      assert rest == [] && NumbersOf(p.metas) + [] == NumbersOf(p.metas);
    }
  }

  /** Every posted batch lies in an L1 block whose header the provider shows. */
  ghost predicate HeadersShown(view: L1View, logs: seq<BatchLog>) {
    forall j :: 0 <= j < |logs| && logs[j].posted.Some? ==> logs[j].l1Block in view.headers
  }

  lemma LogTakes(
      cfg: RollupConfig, st: PipelineState, view: L1View, actions: seq<Action>, log: BatchLog, p: Progress)
    requires st.lastDerived <= p.derived
    ensures var r := ProcessLog(cfg, st, view, actions, log, p);
            var ns := Taken(cfg, st.lastDerived, LogNumbers(log));
            && (r.Ok? <==> (log.posted.Some? ==> log.l1Block in view.headers) && NoJump(p.derived, ns))
            && (r.Ok? ==> Took(p, r.value, ns) && st.lastDerived <= r.value.derived)
            && (r.Ok? ==> r.value.execution == if log.posted.Some? then Max(p.execution, log.l1Block) else p.execution)
  {
    if log.posted.Some? && log.l1Block in view.headers {
      var b := log.posted.value;
      var ctx := ContextOf(cfg, actions, log.l1Block, view.headers[log.l1Block], b, p.remaining);
      var start := p.(remaining := Drain(p.remaining, b.entries));
      assert BatchNumbers(b)[0..] == BatchNumbers(b);
      BlocksTake(cfg, st, ctx, b, 0, start);
      BlocksKeepExecution(cfg, st, ctx, b, 0, start);
    } else {
      assert NumbersOf(p.metas) + [] == NumbersOf(p.metas);
    }
  }

  lemma {:induction false} BlocksKeepExecution(
      cfg: RollupConfig, st: PipelineState, ctx: BatchContext, b: Batch, i: nat, p: Progress)
    ensures var r := ProcessBlocks(cfg, st, ctx, b, i, p);
            r.Ok? ==> r.value.execution == p.execution
    decreases |b.blockNumbers| - i
  {
    if i < |b.blockNumbers| && i < |b.blockTxs| {
      var r := ProcessBlock(cfg, st, ctx, i, b.blockNumbers[i], b.blockTxs[i], p);
      if r.Ok? {
        BlocksKeepExecution(cfg, st, ctx, b, i + 1, r.value);
      }
    }
  }

  /** The largest of `first` and the L1 blocks of the posted batches. */
  function Furthest(first: int, logs: seq<BatchLog>): int
    decreases logs
  {
    if logs == [] then first
    else Furthest(if logs[0].posted.Some? then Max(first, logs[0].l1Block) else first, logs[1..])
  }

  lemma {:induction false} FurthestIsMaximum(first: int, logs: seq<BatchLog>)
    ensures first <= Furthest(first, logs)
    ensures forall j :: 0 <= j < |logs| && logs[j].posted.Some? ==> logs[j].l1Block <= Furthest(first, logs)
    ensures Furthest(first, logs) == first
            || exists j :: 0 <= j < |logs| && logs[j].posted.Some? && logs[j].l1Block == Furthest(first, logs)
    decreases logs
  {
    if logs != [] {
      FurthestIsMaximum(if logs[0].posted.Some? then Max(first, logs[0].l1Block) else first, logs[1..]);
      assert forall j :: 0 < j < |logs| ==> logs[j] == logs[1..][j - 1];
    }
  }

  lemma {:induction false} LogsTake(
      cfg: RollupConfig, st: PipelineState, view: L1View, actions: seq<Action>, logs: seq<BatchLog>, p: Progress)
    requires st.lastDerived <= p.derived
    ensures var r := ProcessLogs(cfg, st, view, actions, logs, p);
            var ns := Taken(cfg, st.lastDerived, Submitted(logs));
            && (r.Ok? <==> HeadersShown(view, logs) && NoJump(p.derived, ns))
            && (r.Ok? ==> Took(p, r.value, ns) && r.value.execution == Furthest(p.execution, logs))
  {
    if logs == [] {
      assert NumbersOf(p.metas) + [] == NumbersOf(p.metas);
    } else {
      var a, b := Taken(cfg, st.lastDerived, LogNumbers(logs[0])), Taken(cfg, st.lastDerived, Submitted(logs[1..]));
      LogTakes(cfg, st, view, actions, logs[0], p);
      TakenAppend(cfg, st.lastDerived, LogNumbers(logs[0]), Submitted(logs[1..]));
      NoJumpAppend(p.derived, a, b);
      HeadersOfHead(view, logs);
      var r := ProcessLog(cfg, st, view, actions, logs[0], p);
      if r.Ok? {
        LogsTake(cfg, st, view, actions, logs[1..], r.value);
        var s := ProcessLogs(cfg, st, view, actions, logs[1..], r.value);
        if s.Ok? {
          TookThen(p, r.value, s.value, a, b);
        }
      }
    }
  }

  lemma HeadersOfHead(view: L1View, logs: seq<BatchLog>)
    requires logs != []
    ensures HeadersShown(view, logs)
            <==> (logs[0].posted.Some? ==> logs[0].l1Block in view.headers) && HeadersShown(view, logs[1..])
  {
    assert forall j :: 0 < j < |logs| ==> logs[j] == logs[1..][j - 1];
  }

  lemma WindowTakes(cfg: RollupConfig, st: PipelineState, latest: U64, view: L1View)
    ensures var logs := LogsIn(view.logs, WindowStart(st), WindowEnd(st, latest));
            var ns := Taken(cfg, st.lastDerived, Submitted(logs));
            var r := WindowProgress(cfg, st, latest, view);
            && (r.Ok? <==> HeadersShown(view, logs) && NoJump(st.lastDerived, ns))
            && (r.Ok? ==> NumbersOf(r.value.metas) == ns && r.value.execution == Furthest(st.lastExecution, logs))
  {
    var events := WindowEvents(cfg, st, latest, view);
    var logs := LogsIn(view.logs, WindowStart(st), WindowEnd(st, latest));
    LogsTake(cfg, st, view, ConsumedActions(events), logs, StartProgress(st, events));
    assert NumbersOf([]) + Taken(cfg, st.lastDerived, Submitted(logs)) == Taken(cfg, st.lastDerived, Submitted(logs));
  }

  /** When a derivation succeeds: exactly when the provider shows the header of every L1 block with a
      posted batch, and no submission it takes jumps more than 1000 blocks ahead. It takes, in push
      order, the submitted numbers past the head whose timestamp fits. */
  lemma DerivesIff(cfg: RollupConfig, st: PipelineState, latest: U64, view: L1View)
    requires st.lastProcessed < latest
    ensures var logs := LogsIn(view.logs, st.lastProcessed + 1, Min(latest, st.lastProcessed + 2000));
            var ns := Taken(cfg, st.lastDerived, Submitted(logs));
            && (Derived(cfg, st, latest, view).Ok? <==> HeadersShown(view, logs) && NoJump(st.lastDerived, ns))
            && (Derived(cfg, st, latest, view).Ok? ==> NumbersOf(PushedEntries(cfg, st, latest, view)) == ns)
  {
    WindowTakes(cfg, st, latest, view);
    WindowReads(cfg, st, latest, view);
  }

  // ---- Why it fails ----

  ghost predicate JumpsAt(head: U64, ns: seq<U64>, e: DeriveError) {
    e.GapTooLarge? && exists k: nat :: JumpsWith(head, ns, k, e.block, e.expected)
  }

  predicate JumpsWith(head: U64, ns: seq<U64>, k: nat, n: U64, expected: U64) {
    k < |ns| && ns[k] == n && expected == Before(head, ns, k) + 1 && n > expected + 1000
  }

  ghost predicate HeaderMissing(view: L1View, logs: seq<BatchLog>, e: DeriveError) {
    && e.L1BlockNotFound? && e.number !in view.headers
    && exists j :: 0 <= j < |logs| && logs[j].posted.Some? && logs[j].l1Block == e.number
  }

  lemma JumpInAppend(head: U64, a: seq<U64>, b: seq<U64>, e: DeriveError)
    requires JumpsAt(head, a, e) || JumpsAt(Before(head, a, |a|), b, e)
    ensures JumpsAt(head, a + b, e)
  {
    if JumpsAt(head, a, e) {
      var k: nat :| JumpsWith(head, a, k, e.block, e.expected);
      assert JumpsWith(head, a + b, k, e.block, e.expected);
    } else {
      var k: nat :| JumpsWith(Before(head, a, |a|), b, k, e.block, e.expected);
      assert JumpsWith(head, a + b, |a| + k, e.block, e.expected);
    }
  }

  lemma BlockFails(cfg: RollupConfig, st: PipelineState, ctx: BatchContext, i: nat, n: U64, txs: Payload, p: Progress)
    requires st.lastDerived <= p.derived
    requires ProcessBlock(cfg, st, ctx, i, n, txs, p).Err?
    ensures JumpsAt(p.derived, Taken(cfg, st.lastDerived, [n]), ProcessBlock(cfg, st, ctx, i, n, txs, p).error)
  {
    TakenOne(cfg, st.lastDerived, n);
    assert JumpsWith(p.derived, [n], 0, n, SaturatingAdd(p.derived, 1));
  }

  lemma {:induction false} BlocksFail(
      cfg: RollupConfig, st: PipelineState, ctx: BatchContext, b: Batch, i: nat, p: Progress)
    requires st.lastDerived <= p.derived && i <= |BatchNumbers(b)|
    requires ProcessBlocks(cfg, st, ctx, b, i, p).Err?
    ensures JumpsAt(p.derived, Taken(cfg, st.lastDerived, BatchNumbers(b)[i..]),
                    ProcessBlocks(cfg, st, ctx, b, i, p).error)
    decreases |b.blockNumbers| - i
  {
    var n, later := b.blockNumbers[i], BatchNumbers(b)[i + 1..];
    assert BatchNumbers(b)[i..] == [n] + later;
    TakenAppend(cfg, st.lastDerived, [n], later);
    BlockTakes(cfg, st, ctx, i, n, b.blockTxs[i], p);
    var r := ProcessBlock(cfg, st, ctx, i, n, b.blockTxs[i], p);
    if r.Ok? {
      BlocksFail(cfg, st, ctx, b, i + 1, r.value);
    } else {
      BlockFails(cfg, st, ctx, i, n, b.blockTxs[i], p);
    }
    JumpInAppend(p.derived, Taken(cfg, st.lastDerived, [n]), Taken(cfg, st.lastDerived, later),
                 ProcessBlocks(cfg, st, ctx, b, i, p).error);
  }

  lemma LogFails(cfg: RollupConfig, st: PipelineState, view: L1View, actions: seq<Action>, log: BatchLog, p: Progress)
    requires st.lastDerived <= p.derived
    requires ProcessLog(cfg, st, view, actions, log, p).Err?
    ensures var e := ProcessLog(cfg, st, view, actions, log, p).error;
            || (log.posted.Some? && log.l1Block !in view.headers && e == L1BlockNotFound(log.l1Block))
            || JumpsAt(p.derived, Taken(cfg, st.lastDerived, LogNumbers(log)), e)
  {
    if log.l1Block in view.headers {
      var b := log.posted.value;
      var ctx := ContextOf(cfg, actions, log.l1Block, view.headers[log.l1Block], b, p.remaining);
      assert BatchNumbers(b)[0..] == BatchNumbers(b);
      BlocksFail(cfg, st, ctx, b, 0, p.(remaining := Drain(p.remaining, b.entries)));
    }
  }

  lemma {:induction false} LogsFail(
      cfg: RollupConfig, st: PipelineState, view: L1View, actions: seq<Action>, logs: seq<BatchLog>, p: Progress)
    requires st.lastDerived <= p.derived
    requires ProcessLogs(cfg, st, view, actions, logs, p).Err?
    ensures var e := ProcessLogs(cfg, st, view, actions, logs, p).error;
            HeaderMissing(view, logs, e) || JumpsAt(p.derived, Taken(cfg, st.lastDerived, Submitted(logs)), e)
  {
    var a, b := Taken(cfg, st.lastDerived, LogNumbers(logs[0])), Taken(cfg, st.lastDerived, Submitted(logs[1..]));
    var e := ProcessLogs(cfg, st, view, actions, logs, p).error;
    LogTakes(cfg, st, view, actions, logs[0], p);
    TakenAppend(cfg, st.lastDerived, LogNumbers(logs[0]), Submitted(logs[1..]));
    var r := ProcessLog(cfg, st, view, actions, logs[0], p);
    if r.Ok? {
      LogsFail(cfg, st, view, actions, logs[1..], r.value);
      MissingInTail(view, logs, e);
    } else {
      LogFails(cfg, st, view, actions, logs[0], p);
    }
    if JumpsAt(p.derived, a, e) || JumpsAt(Before(p.derived, a, |a|), b, e) {
      JumpInAppend(p.derived, a, b, e);
    }
  }

  lemma MissingInTail(view: L1View, logs: seq<BatchLog>, e: DeriveError)
    requires logs != []
    ensures HeaderMissing(view, logs[1..], e) ==> HeaderMissing(view, logs, e)
  {
    assert forall j :: 0 <= j < |logs[1..]| ==> logs[1..][j] == logs[j + 1];
  }

  /** And then the error names a posted batch's L1 block without a header, or a submission it takes and
      the number it would have to be for there to be no gap, more than 1000 below. */
  lemma FailsBecause(cfg: RollupConfig, st: PipelineState, latest: U64, view: L1View, e: DeriveError)
    requires Derived(cfg, st, latest, view) == Err(e)
    ensures var logs := LogsIn(view.logs, st.lastProcessed + 1, Min(latest, st.lastProcessed + 2000));
            HeaderMissing(view, logs, e) || JumpsAt(st.lastDerived, Taken(cfg, st.lastDerived, Submitted(logs)), e)
  {
    var events := WindowEvents(cfg, st, latest, view);
    var logs := LogsIn(view.logs, WindowStart(st), WindowEnd(st, latest));
    WindowReads(cfg, st, latest, view);
    LogsFail(cfg, st, view, ConsumedActions(events), logs, StartProgress(st, events));
  }

  // ---- The cursors it leaves ----

  /** The processed block moves to the window's end, at most 2000 on, and the execution cursor to the
      maximum of its old value and the L1 blocks of the window's posted batches. */
  lemma CursorsMove(cfg: RollupConfig, st: PipelineState, latest: U64, view: L1View, r: DerivedBatch)
    requires st.lastProcessed < latest && Derived(cfg, st, latest, view) == Ok(r)
    ensures r.update.lastProcessed == Min(latest, st.lastProcessed + 2000)
    ensures var logs := LogsIn(view.logs, st.lastProcessed + 1, r.update.lastProcessed);
            && st.lastExecution <= r.update.lastExecution
            && (forall j :: 0 <= j < |logs| && logs[j].posted.Some? ==> logs[j].l1Block <= r.update.lastExecution)
            && (r.update.lastExecution == st.lastExecution
                || exists j :: 0 <= j < |logs| && logs[j].posted.Some? && logs[j].l1Block == r.update.lastExecution)
  {
    WindowTakes(cfg, st, latest, view);
    WindowReads(cfg, st, latest, view);
    FurthestIsMaximum(st.lastExecution, LogsIn(view.logs, WindowStart(st), WindowEnd(st, latest)));
  }

  /** The context is that of the last submission taken, if there was one, and every new cursor entry
      records a submission. */
  lemma ContextMoves(cfg: RollupConfig, st: PipelineState, latest: U64, view: L1View, r: DerivedBatch)
    requires st.lastProcessed < latest && Derived(cfg, st, latest, view) == Ok(r)
    ensures var metas := PushedEntries(cfg, st, latest, view);
            r.update.lastL1Info ==
            if metas == [] then st.lastL1Info else Some(ParentContext(view, metas[|metas| - 1].l1Number))
    ensures forall i :: 0 <= i < |r.update.newEntries| ==>
              Recorded(WindowOf(cfg, st, latest, view), r.update.newEntries[i])
  {
    var m := WindowIsTraced(cfg, st, latest, view);
    NewEntriesRecorded(cfg, st, latest, view, r);
  }

  lemma NewEntriesRecorded(cfg: RollupConfig, st: PipelineState, latest: U64, view: L1View, r: DerivedBatch)
    requires st.lastProcessed < latest && Derived(cfg, st, latest, view) == Ok(r)
    ensures forall i :: 0 <= i < |r.update.newEntries| ==>
              Recorded(WindowOf(cfg, st, latest, view), r.update.newEntries[i])
  {
    var metas := PushedEntries(cfg, st, latest, view);
    var m := WindowIsTraced(cfg, st, latest, view);
    forall i | 0 <= i < |r.update.newEntries|
      ensures Recorded(WindowOf(cfg, st, latest, view), r.update.newEntries[i])
    {
      SurvivorIsFirst(metas, MetaKey, i);
      var k := FirstIsMember(metas, MetaKey, MetaKey(r.update.newEntries[i]));
      assert Recorded(WindowOf(cfg, st, latest, view), metas[k]);
    }
  }

  /** With no new L1 block a derivation changes nothing. */
  lemma NothingToDerive(cfg: RollupConfig, st: PipelineState, latest: U64, view: L1View)
    requires latest <= st.lastProcessed
    ensures Derived(cfg, st, latest, view) == Ok(DerivedBatch([], CursorUpdate(
              st.lastProcessed, st.lastExecution, st.lastDerived, st.lastL1Info, [])))
  {
  }
}
