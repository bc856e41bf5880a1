/** The block derivation hands to a fullnode, followed through filtering and execution. */
module EndToEnd {
  import opened Wrappers
  import opened MachineInts
  import opened Timestamps
  import opened CrossChain
  import opened Consumption
  import opened EntryConversion
  import opened Continuation
  import opened TriggerFilter
  import opened Agreement
  import opened Derivation
  import opened WindowConsumption
  import opened Provenance
  import opened Outcome

  /** What a node without a signer executes for a derived block: its transactions as they are, or
      filtered by the prefix counted from the attached counters. */
  function ExecutedBlock(block: DerivedBlock, receiptOf: Tx -> Receipt, ccm: Address): Result<Payload, string> {
    if block.filtering.None? then Ok(block.transactions) else
      var txs := if block.transactions.RlpList? then block.transactions.txs else [];
      var triggers := Triggers(txs, receiptOf, ccm);
      var lists := TriggerHashes(ReceiptsOf(txs, receiptOf), ccm, triggers);
      FilterBlockByTriggerPrefix(block.transactions, triggers,
                                 ConsumedPrefix(lists, block.filtering.value.l1ConsumedRemaining))
  }

  /** Batch `b` is the builder's for these cross-chain calls: it posts their chained entries, its last
      block is `txs`, numbered `n`, with one trigger per call, and `roots[k]` is the root of executing
      that block with the first `k` triggers kept. */
  ghost predicate BuilderBatch(
    cfg: RollupConfig, b: Batch, n: U64, txs: seq<Tx>, receiptOf: Tx -> Receipt, execute: (U64, seq<Tx>) -> Root,
    ccm: Address, calls: seq<CallSpec>, roots: seq<Root>)
  {
    && PostsCalls(cfg, b, calls, roots)
    && FinalRoot(b.entries) == roots[0]
    && RootsAreSafe(PostedEntries(calls, roots, cfg.rollupId), roots)
    && (forall k :: 0 <= k < |roots| ==> roots[k] == execute(n, Kept(txs, receiptOf, ccm, k)))
    && TriggerHashes(ReceiptsOf(txs, receiptOf), ccm, Triggers(txs, receiptOf, ccm))
       == OneHashEach(PostedEntries(calls, roots, cfg.rollupId))
  }

  ghost predicate PostsCalls(cfg: RollupConfig, b: Batch, calls: seq<CallSpec>, roots: seq<Root>) {
    && !BatchHasRevert(b) && |roots| == |calls| + 1
    && DeferredOnly(b.entries) == PostedEntries(calls, roots, cfg.rollupId)
  }

  /** A fullnode that runs `blk` arrives at exactly the root it carries. */
  predicate ExecutesToItsRoot(
    blk: DerivedBlock, receiptOf: Tx -> Receipt, execute: (U64, seq<Tx>) -> Root, ccm: Address)
  {
    var run := ExecutedBlock(blk, receiptOf, ccm);
    run.Ok? && run.value.RlpList? && execute(blk.number, run.value.txs) == blk.stateRoot
  }

  lemma LastBlockExecutes(
      cfg: RollupConfig, b: Batch, ctx: BatchContext, idx: nat, blk: DerivedBlock, txs: seq<Tx>,
      receiptOf: Tx -> Receipt, execute: (U64, seq<Tx>) -> Root, ccm: Address, calls: seq<CallSpec>, roots: seq<Root>)
    requires BuilderBatch(cfg, b, blk.number, txs, receiptOf, execute, ccm, calls, roots)
    requires idx == ctx.lastIndex
    requires ctx.filter == AnyRejected(b.entries, ctx.snapshot)
    requires ctx.effectiveRoot == FoldRoots(FinalRoot(b.entries), Selected(b.entries, ctx.snapshot), {}, cfg.rollupId)
    requires blk == SubmittedBlock(ctx, idx, blk.number, blk.timestamp, RlpList(txs))
    ensures ExecutesToItsRoot(blk, receiptOf, execute, ccm)
  {
    DerivationAndFilterAgree(b.entries, calls, roots, cfg.rollupId, ctx.snapshot, ReceiptsOf(txs, receiptOf), ccm);
    var triggers := Triggers(txs, receiptOf, ccm);
    var k := ConsumedPrefix(TriggerHashes(ReceiptsOf(txs, receiptOf), ccm, triggers), ctx.snapshot);
    FilterKeeps(txs, receiptOf, ccm, k);
    if !AnyRejected(b.entries, ctx.snapshot) {
      assert |triggers| == |TriggerHashes(ReceiptsOf(txs, receiptOf), ccm, triggers)| == |calls|;
      FewTriggersKeepAll(txs, receiptOf, ccm, k);
    }
  }

  /** Whatever L1 consumed of a builder's batch, wherever in a window it stands: the block that closes
      it, as a derivation returns it, executes on a fullnode to exactly the state root it carries. */
  lemma DerivedBlockExecutesToItsRoot(
      cfg: RollupConfig, st: PipelineState, latest: U64, view: L1View, r: DerivedBatch, i: nat, txs: seq<Tx>,
      receiptOf: Tx -> Receipt, execute: (U64, seq<Tx>) -> Root, ccm: Address, calls: seq<CallSpec>, roots: seq<Root>)
    returns (j: nat, idx: nat)
    requires Derived(cfg, st, latest, view) == Ok(r) && i < |r.blocks|
    requires Arrives(PushedEntries(cfg, st, latest, view), r.blocks[i].number)
    requires r.blocks[i].transactions == RlpList(txs)
    ensures SubmittedAt(cfg, WindowOf(cfg, st, latest, view), j, idx, r.blocks[i])
    ensures var b := WindowOf(cfg, st, latest, view).logs[j].posted.value;
            idx + 1 == |b.blockNumbers|
            && BuilderBatch(cfg, b, r.blocks[i].number, txs, receiptOf, execute, ccm, calls, roots)
            ==> ExecutesToItsRoot(r.blocks[i], receiptOf, execute, ccm)
  {
    j, idx := SubmissionBehind(cfg, st, latest, view, r, i);
    var w := WindowOf(cfg, st, latest, view);
    var b := w.logs[j].posted.value;
    if idx + 1 == |b.blockNumbers|
      && BuilderBatch(cfg, b, r.blocks[i].number, txs, receiptOf, execute, ccm, calls, roots)
    {
      LastBlockExecutes(cfg, b, ContextAt(cfg, w, j), idx, r.blocks[i], txs, receiptOf, execute, ccm, calls, roots);
    }
  }

  // ---- The entries it carries ----

  /** L1 emits `ExecutionConsumed` with the hash of the action it consumed. */
  ghost predicate HashesNameActions(events: seq<ConsumedEvent>) {
    forall i :: 0 <= i < |events| ==> events[i].actionHash == HashOf(events[i].action)
  }

  lemma {:induction false} EventsInName(events: seq<ConsumedEvent>, from: U64, to: U64)
    requires HashesNameActions(events)
    ensures HashesNameActions(EventsIn(events, from, to))
  {
    if events != [] {
      EventsInName(events[1..], from, to);
    }
  }

  lemma {:induction false} EventsWithSnoc(events: seq<ConsumedEvent>, h: ActionHash)
    requires events != []
    ensures EventsWith(events, h) ==
            EventsWith(events[..|events| - 1], h) + if events[|events| - 1].actionHash == h then 1 else 0
  {
    if |events| > 1 {
      EventsWithSnoc(events[1..], h);
      assert events[1..][..|events| - 2] == events[..|events| - 1][1..];
    }
  }

  lemma {:induction false} EventsAreActions(events: seq<ConsumedEvent>, h: ActionHash)
    requires HashesNameActions(events)
    ensures |ActionsWithHash(ConsumedActions(events), h)| == EventsWith(events, h)
  {
    if events != [] {
      var n := |events| - 1;
      EventsAreActions(events[..n], h);
      EventsWithSnoc(events, h);
      assert ConsumedActions(events)[..n] == ConsumedActions(events[..n]);
    }
  }

  /** The counter any log finds is backed by the actions the window collects. */
  lemma WindowIsBacked(cfg: RollupConfig, st: PipelineState, latest: U64, view: L1View, j: nat)
    requires HashesNameActions(view.events)
    requires j <= |WindowOf(cfg, st, latest, view).logs|
    ensures var w := WindowOf(cfg, st, latest, view); Backed(CounterAt(w, j), w.actions)
  {
    var events := WindowEvents(cfg, st, latest, view);
    EventsInName(view.events, WindowStart(st), WindowEnd(st, latest));
    var w := WindowOf(cfg, st, latest, view);
    forall h
      ensures Avail(CounterAt(w, j), h) <= |ActionsWithHash(w.actions, h)|
    {
      CountsAreEvents(events, h);
      EventsAreActions(events, h);
    }
  }

  lemma {:induction false} NoCallsNoContinuation(es: seq<Entry>, actions: seq<Action>, n: nat)
    requires n <= |es| && !HasContinuation(es)
    ensures Continued(es, actions, n).out == []
  {
    if n > 0 {
      NoCallsNoContinuation(es, actions, n - 1);
      assert es[n - 1].nextAction.kind != Call;
    }
  }

  lemma {:induction false} NothingConsumedNothingSelected(es: seq<Entry>, start: Counts, n: nat)
    requires n <= |es|
    requires forall h :: Avail(start, h) == 0
    ensures Selected(es[..n], start) == []
  {
    if n > 0 {
      NothingConsumedNothingSelected(es, start, n - 1);
      SelectedStep(es, start, n);
    }
  }

  lemma UnbackedAcceptsNothing(posted: seq<Entry>, remaining: Counts)
    requires Backed(remaining, [])
    ensures Selected(posted, remaining) == []
  {
    forall h
      ensures Avail(remaining, h) == 0
    {
      assert ActionsWithHash([], h) == [];
      assert Avail(remaining, h) <= |ActionsWithHash([], h)|;
    }
    assert posted[..|posted|] == posted;
    NothingConsumedNothingSelected(posted, remaining, |posted|);
  }

  lemma PairsAreAllEntries(accepted: seq<Entry>, actions: seq<Action>)
    requires !HasContinuation(accepted)
    requires actions == [] ==> accepted == []
    ensures L2Entries(accepted, false, actions) == L2Pairs(accepted, actions)
  {
    NoCallsNoContinuation(accepted, actions, |accepted|);
    assert L2Pairs(accepted, actions) + [] == L2Pairs(accepted, actions);
  }

  /** Through posting, FIFO acceptance, pair conversion and continuation reconstruction. */
  lemma ContextCarriesPairs(
      cfg: RollupConfig, actions: seq<Action>, b: Batch, remaining: Counts, calls: seq<CallSpec>, roots: seq<Root>)
    requires PostsCalls(cfg, b, calls, roots)
    requires Backed(remaining, actions)
    ensures L2Entries(Selected(b.entries, remaining), BatchHasRevert(b), actions) ==
            AcceptedPairs(PostedEntries(calls, roots, cfg.rollupId), BuilderEntries(calls, roots, cfg.rollupId),
                          remaining, |calls|)
  {
    DeferredDecide(b.entries, remaining);
    RoundTrip(calls, roots, cfg.rollupId, remaining, actions);
    PostedHaveNoContinuation(calls, roots, cfg.rollupId, remaining);
    if actions == [] {
      UnbackedAcceptsNothing(PostedEntries(calls, roots, cfg.rollupId), remaining);
    }
    PairsAreAllEntries(Selected(PostedEntries(calls, roots, cfg.rollupId), remaining), actions);
  }

  lemma PostedHaveNoContinuation(calls: seq<CallSpec>, roots: seq<Root>, rollupId: U64, start: Counts)
    requires |roots| == |calls| + 1
    ensures !HasContinuation(Selected(PostedEntries(calls, roots, rollupId), start))
  {
    var posted := PostedEntries(calls, roots, rollupId);
    forall i | 0 <= i < |posted|
      ensures Pairable(posted[i])
    {
      PostedEntryAt(calls, roots, rollupId, i);
    }
    assert posted[..|posted|] == posted;
    SelectedHasNoContinuation(posted, start, |posted|);
  }

  /** The execution entries of the first and the last block of a builder's batch, as a derivation
      returns them, are exactly the builder's own pairs for the calls that happened, deltas included;
      the blocks between carry none. */
  lemma DerivedBlockCarriesBuilderPairs(
      cfg: RollupConfig, st: PipelineState, latest: U64, view: L1View, r: DerivedBatch, i: nat,
      calls: seq<CallSpec>, roots: seq<Root>)
    returns (j: nat, idx: nat)
    requires Derived(cfg, st, latest, view) == Ok(r) && i < |r.blocks|
    requires Arrives(PushedEntries(cfg, st, latest, view), r.blocks[i].number)
    requires HashesNameActions(view.events)
    requires |roots| == |calls| + 1
    ensures PostsPairs(PostedEntries(calls, roots, cfg.rollupId), BuilderEntries(calls, roots, cfg.rollupId))
    ensures SubmittedAt(cfg, WindowOf(cfg, st, latest, view), j, idx, r.blocks[i])
    ensures var w := WindowOf(cfg, st, latest, view);
            var b := w.logs[j].posted.value;
            PostsCalls(cfg, b, calls, roots) ==>
              r.blocks[i].executionEntries ==
              if idx == 0 || idx + 1 == |b.blockNumbers|
              then AcceptedPairs(PostedEntries(calls, roots, cfg.rollupId),
                                 BuilderEntries(calls, roots, cfg.rollupId), CounterAt(w, j), |calls|)
              else []
  {
    PostedEntriesPostPairs(calls, roots, cfg.rollupId);
    j, idx := SubmissionBehind(cfg, st, latest, view, r, i);
    var w := WindowOf(cfg, st, latest, view);
    WindowIsBacked(cfg, st, latest, view, j);
    if PostsCalls(cfg, w.logs[j].posted.value, calls, roots) {
      ContextCarriesPairs(cfg, w.actions, w.logs[j].posted.value, CounterAt(w, j), calls, roots);
    }
  }
}
