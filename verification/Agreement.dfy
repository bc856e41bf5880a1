/** Two decisions made independently from the same L1 data must agree: derivation's FIFO matching
    and root fold (derivation.rs), and the driver's trigger-prefix filter (cross_chain.rs). */
module Agreement {
  import opened MachineInts
  import opened CrossChain
  import opened Consumption
  import opened EntryConversion
  import opened TriggerFilter
  import opened StateDeltas

  /** The deferred entries of a batch; immediate ones may stand anywhere among them. */
  function DeferredOnly(es: seq<Entry>): seq<Entry> {
    if es == [] then [] else
      var n := |es| - 1;
      DeferredOnly(es[..n]) + if Immediate(es[n]) then [] else [es[n]]
  }

  lemma {:induction false} DeferredDecide(es: seq<Entry>, start: Counts)
    ensures Selected(es, start) == Selected(DeferredOnly(es), start)
    ensures AnyRejected(es, start) <==> AnyRejected(DeferredOnly(es), start)
  {
    if es != [] {
      var n := |es| - 1;
      DeferredDecide(es[..n], start);
      RejectedPrefix(es, start);
      var d := DeferredOnly(es[..n]);
      if Immediate(es[n]) {
        assert DeferredOnly(es) == d;
      } else {
        DeferredPosted(es[..n], es[n].actionHash);
        assert (d + [es[n]])[..|d|] == d;
        RejectedPrefix(d + [es[n]], start);
      }
    }
  }

  lemma {:induction false} DeferredPosted(es: seq<Entry>, h: ActionHash)
    ensures Posted(es, h) == Posted(DeferredOnly(es), h)
  {
    if es != [] {
      var n := |es| - 1;
      DeferredPosted(es[..n], h);
      if Immediate(es[n]) {
        assert DeferredOnly(es) == DeferredOnly(es[..n]);
      } else {
        PostedSnoc(DeferredOnly(es[..n]), es[n], h);
      }
    }
  }

  /** The first entry the FIFO loop rejects, or the number of entries. */
  function FirstRejected(es: seq<Entry>, start: Counts, i: nat): nat
    requires i <= |es|
    decreases |es| - i
  {
    if i < |es| && !Rejected(es, start, i) then FirstRejected(es, start, i + 1) else i
  }

  lemma {:induction false} FirstRejectedBounds(es: seq<Entry>, start: Counts, i: nat)
    requires i <= |es|
    ensures i <= FirstRejected(es, start, i) <= |es|
    decreases |es| - i
  {
    if i < |es| && !Rejected(es, start, i) {
      FirstRejectedBounds(es, start, i + 1);
    }
  }

  lemma {:induction false} BelowFirstRejected(es: seq<Entry>, start: Counts, i: nat, j: nat)
    requires i <= j < |es|
    ensures j < FirstRejected(es, start, i) ==> !Rejected(es, start, j)
    ensures j == FirstRejected(es, start, i) ==> Rejected(es, start, j)
    decreases j - i
  {
    if i < j && !Rejected(es, start, i) {
      BelowFirstRejected(es, start, i + 1, j);
    } else if i == j && !Rejected(es, start, i) {
      FirstRejectedBounds(es, start, i + 1);
    }
  }

  // ---- The root fold stops at the first rejected entry ----

  /** Whenever a later entry with another hash starts from the root that entry `k` starts from, it
      also ends there. Pairwise distinct roots satisfy this trivially. */
  ghost predicate RootsAreSafe(es: seq<Entry>, roots: seq<Root>)
    requires |roots| == |es| + 1
  {
    forall k, j :: 0 <= k < j < |es| ==> SafePair(es, roots, k, j)
  }

  predicate SafePair(es: seq<Entry>, roots: seq<Root>, k: nat, j: nat)
    requires |roots| == |es| + 1 && k < j < |es|
  {
    es[k].actionHash != es[j].actionHash && roots[k] == roots[j] ==> roots[j + 1] == roots[k]
  }

  ghost predicate Distinct(roots: seq<Root>) {
    forall i, j :: 0 <= i < j < |roots| ==> roots[i] != roots[j]
  }

  /** Deferred entry `i` carries the single delta `roots[i] -> roots[i + 1]` of our rollup. */
  ghost predicate LinkedBy(es: seq<Entry>, roots: seq<Root>, rollupId: RollupId) {
    && |roots| == |es| + 1
    && forall i :: 0 <= i < |es| ==> LinksAt(es[i], roots, rollupId, i)
  }

  ghost predicate LinksAt(e: Entry, roots: seq<Root>, rollupId: RollupId, i: nat)
    requires i + 1 < |roots|
  {
    && !Immediate(e)
    && |e.stateDeltas| == 1
    && e.stateDeltas[0].rollupId == rollupId
    && e.stateDeltas[0].currentState == roots[i]
    && e.stateDeltas[0].newState == roots[i + 1]
  }

  lemma FoldSingle(root: Root, d: StateDelta, rollupId: RollupId)
    ensures FoldDeltas(root, [d], rollupId) ==
            if d.currentState == root && d.rollupId == rollupId then d.newState else root
  {
    assert [d][..0] == [];
  }

  lemma FoldAppend(root: Root, es: seq<Entry>, e: Entry, rollupId: RollupId)
    ensures FoldRoots(root, es + [e], {}, rollupId) ==
            FoldDeltas(FoldRoots(root, es, {}, rollupId), e.stateDeltas, rollupId)
  {
    assert (es + [e])[..|es|] == es;
  }

  /** Appending an entry with the one delta `pre -> post` moves the folded root only from `pre`. */
  lemma FoldLink(root: Root, es: seq<Entry>, e: Entry, rollupId: RollupId)
    requires |e.stateDeltas| == 1 && e.stateDeltas[0].rollupId == rollupId
    ensures var prior := FoldRoots(root, es, {}, rollupId);
            FoldRoots(root, es + [e], {}, rollupId) ==
            if e.stateDeltas[0].currentState == prior then e.stateDeltas[0].newState else prior
  {
    FoldAppend(root, es, e, rollupId);
    assert e.stateDeltas == [e.stateDeltas[0]];
    FoldSingle(FoldRoots(root, es, {}, rollupId), e.stateDeltas[0], rollupId);
  }

  /** What one more entry of a linked batch does to the folded root. */
  lemma FoldStep(es: seq<Entry>, roots: seq<Root>, rollupId: RollupId, start: Counts, i: nat)
    requires LinkedBy(es, roots, rollupId)
    requires i < |es|
    ensures var prior := FoldRoots(roots[0], Selected(es[..i], start), {}, rollupId);
            FoldRoots(roots[0], Selected(es[..i + 1], start), {}, rollupId) ==
            if Accepted(es, start, i) && roots[i] == prior then roots[i + 1] else prior
  {
    assert LinksAt(es[i], roots, rollupId, i);
    SelectedStep(es, start, i + 1);
    FoldLink(roots[0], Selected(es[..i], start), es[i], rollupId);
  }

  /** Past a rejected entry, nothing with its hash is accepted. */
  lemma RejectionPersists(es: seq<Entry>, start: Counts, k: nat, j: nat)
    requires k < j < |es|
    requires Rejected(es, start, k) && es[j].actionHash == es[k].actionHash
    ensures !Accepted(es, start, j)
  {
    PostedPrefix(es, k, j, es[k].actionHash);
  }

  lemma {:induction false} FoldStopsAtFirstRejected(
      es: seq<Entry>, roots: seq<Root>, rollupId: RollupId, start: Counts, k: nat, n: nat)
    requires LinkedBy(es, roots, rollupId) && RootsAreSafe(es, roots)
    requires k == FirstRejected(es, start, 0)
    requires n <= |es|
    ensures k <= |es|
    ensures FoldRoots(roots[0], Selected(es[..n], start), {}, rollupId) == roots[Min(n, k)]
  {
    FirstRejectedBounds(es, start, 0);
    if n > 0 {
      var i := n - 1;
      FoldStopsAtFirstRejected(es, roots, rollupId, start, k, i);
      FoldStep(es, roots, rollupId, start, i);
      assert LinksAt(es[i], roots, rollupId, i);
      BelowFirstRejected(es, start, 0, i);
      if k < i {
        BelowFirstRejected(es, start, 0, k);
        assert SafePair(es, roots, k, i);
        if es[k].actionHash == es[i].actionHash {
          RejectionPersists(es, start, k, i);
        }
      }
    }
  }

  // ---- ... for every consumed multiset exactly when the roots are safe ----

  /** The consumed counts that pay for the first `k` entries and for every occurrence of entry
      `j`'s hash up to `j`. */
  function PayUpTo(es: seq<Entry>, k: nat, j: nat): Counts
    requires k <= j < |es|
  {
    map i | 0 <= i < |es| :: es[i].actionHash :=
      if es[i].actionHash == es[j].actionHash then Posted(es[..j + 1], es[i].actionHash)
      else Posted(es[..k], es[i].actionHash)
  }

  predicate PaidAt(es: seq<Entry>, start: Counts, k: nat, j: nat, i: nat)
    requires k < j < |es| && i < |es|
  {
    Accepted(es, start, i) <==> i < k || (es[i].actionHash == es[j].actionHash && i <= j)
  }

  ghost predicate PaidUpTo(es: seq<Entry>, start: Counts, k: nat, j: nat)
    requires k < j < |es|
  {
    forall i :: 0 <= i < |es| ==> PaidAt(es, start, k, j, i)
  }

  lemma PaidEntries(es: seq<Entry>, k: nat, j: nat, i: nat)
    requires k < j < |es| && i < |es|
    requires !Immediate(es[i])
    requires es[k].actionHash != es[j].actionHash
    ensures PaidAt(es, PayUpTo(es, k, j), k, j, i)
  {
    var h := es[i].actionHash;
    assert h in PayUpTo(es, k, j);
    if h == es[j].actionHash {
      if i <= j { PostedPrefix(es, i, j + 1, h); } else { PostedPrefix(es, j + 1, i, h); }
    } else {
      if i < k { PostedPrefix(es, i, k, h); } else { PostedPrefix(es, k, i, h); }
    }
  }

  ghost predicate FirstUnsafePair(es: seq<Entry>, roots: seq<Root>, k: nat, j: nat)
    requires |roots| == |es| + 1
  {
    && k < j < |es| && !SafePair(es, roots, k, j)
    && forall i :: k < i < j ==> SafePair(es, roots, k, i)
  }

  /** With those counts and the first unsafe `j` for `k`, the fold still sits at `roots[k]` up to `j`. */
  lemma {:induction false} UnsafeFoldBefore(
      es: seq<Entry>, roots: seq<Root>, rollupId: RollupId, start: Counts, k: nat, j: nat, n: nat)
    requires LinkedBy(es, roots, rollupId)
    requires FirstUnsafePair(es, roots, k, j) && PaidUpTo(es, start, k, j)
    requires n <= j
    ensures FoldRoots(roots[0], Selected(es[..n], start), {}, rollupId) == roots[Min(n, k)]
  {
    if n > 0 {
      var i := n - 1;
      UnsafeFoldBefore(es, roots, rollupId, start, k, j, i);
      FoldStep(es, roots, rollupId, start, i);
      assert LinksAt(es[i], roots, rollupId, i);
      assert PaidAt(es, start, k, j, i);
      if k < i {
        assert SafePair(es, roots, k, i);
      }
    }
  }

  /** At `j` it moves, and nothing after `j` is accepted. */
  lemma {:induction false} UnsafeFoldAfter(
      es: seq<Entry>, roots: seq<Root>, rollupId: RollupId, start: Counts, k: nat, j: nat, n: nat)
    requires LinkedBy(es, roots, rollupId)
    requires FirstUnsafePair(es, roots, k, j) && PaidUpTo(es, start, k, j)
    requires j < n <= |es|
    ensures FoldRoots(roots[0], Selected(es[..n], start), {}, rollupId) == roots[j + 1]
  {
    var i := n - 1;
    FoldStep(es, roots, rollupId, start, i);
    assert LinksAt(es[i], roots, rollupId, i);
    assert PaidAt(es, start, k, j, i);
    if i == j {
      UnsafeFoldBefore(es, roots, rollupId, start, k, j, j);
    } else {
      UnsafeFoldAfter(es, roots, rollupId, start, k, j, i);
    }
  }

  lemma {:induction false} FirstUnsafe(es: seq<Entry>, roots: seq<Root>, k: nat, j: nat) returns (first: nat)
    requires |roots| == |es| + 1
    requires k < j < |es| && !SafePair(es, roots, k, j)
    ensures FirstUnsafePair(es, roots, k, first)
    decreases j
  {
    if i: nat :| k < i < j && !SafePair(es, roots, k, i) {
      first := FirstUnsafe(es, roots, k, i);
    } else {
      first := j;
    }
  }

  ghost predicate FoldAgrees(es: seq<Entry>, roots: seq<Root>, rollupId: RollupId, start: Counts)
    requires |roots| == |es| + 1
  {
    && FirstRejected(es, start, 0) < |roots|
    && FoldRoots(roots[0], Selected(es, start), {}, rollupId) == roots[FirstRejected(es, start, 0)]
  }

  lemma UnsafeRootsDisagree(
      es: seq<Entry>, roots: seq<Root>, rollupId: RollupId, k: nat, j: nat)
      returns (start: Counts)
    requires LinkedBy(es, roots, rollupId)
    requires k < j < |es| && !SafePair(es, roots, k, j)
    ensures !FoldAgrees(es, roots, rollupId, start)
  {
    var first := FirstUnsafe(es, roots, k, j);
    start := PayUpTo(es, k, first);
    forall i | 0 <= i < |es|
      ensures PaidAt(es, start, k, first, i)
    {
      assert LinksAt(es[i], roots, rollupId, i);
      PaidEntries(es, k, first, i);
    }
    UnsafeFoldAfter(es, roots, rollupId, start, k, first, |es|);
    assert es[..|es|] == es;
    var r := FirstRejected(es, start, 0);
    FirstRejectedBounds(es, start, 0);
    assert LinksAt(es[k], roots, rollupId, k) && PaidAt(es, start, k, first, k);
    BelowFirstRejected(es, start, 0, k);
    if r < k {
      assert LinksAt(es[r], roots, rollupId, r) && PaidAt(es, start, k, first, r);
      BelowFirstRejected(es, start, 0, r);
    }
  }

  /** The fold names the root at the first rejected entry for every consumed multiset if and only if
      the batch's roots are safe. A call that leaves the state root unchanged can break it: with
      roots `a, a, b`, consuming only the second call moves the fold to `b` while the prefix stays
      empty. */
  lemma FoldAgreesIffRootsAreSafe(es: seq<Entry>, roots: seq<Root>, rollupId: RollupId)
    requires LinkedBy(es, roots, rollupId)
    ensures (forall start: Counts :: FoldAgrees(es, roots, rollupId, start)) <==> RootsAreSafe(es, roots)
  {
    if RootsAreSafe(es, roots) {
      forall start: Counts
        ensures FoldAgrees(es, roots, rollupId, start)
      {
        FoldStopsAtFirstRejected(es, roots, rollupId, start, FirstRejected(es, start, 0), |es|);
        assert es[..|es|] == es;
      }
    } else {
      var k, j :| 0 <= k < j < |es| && !SafePair(es, roots, k, j);
      var start := UnsafeRootsDisagree(es, roots, rollupId, k, j);
    }
  }

  // ---- The prefix stops at the same place ----

  function OneHashEach(es: seq<Entry>): seq<seq<ActionHash>> {
    seq(|es|, i requires 0 <= i < |es| => [es[i].actionHash])
  }

  lemma TimesSingle(x: ActionHash, h: ActionHash)
    ensures Times([x], h) == if x == h then 1 else 0
  {
    assert [x][..0] == [];
  }

  lemma {:induction false} OccurrencesArePosted(es: seq<Entry>, n: nat, h: ActionHash)
    requires n <= |es|
    requires forall i :: 0 <= i < |es| ==> !Immediate(es[i])
    ensures Occurrences(OneHashEach(es)[..n], h) == Posted(es[..n], h)
  {
    if n > 0 {
      var lists, i := OneHashEach(es), n - 1;
      OccurrencesArePosted(es, i, h);
      assert lists[..n][..i] == lists[..i];
      assert es[..n] == es[..i] + [es[i]];
      PostedSnoc(es[..i], es[i], h);
      TimesSingle(es[i].actionHash, h);
      assert Occurrences(lists[..n], h) == Occurrences(lists[..i], h) + Times(lists[i], h);
    }
  }

  lemma PrefixStopsAtFirstRejected(es: seq<Entry>, start: Counts)
    requires forall i :: 0 <= i < |es| ==> !Immediate(es[i])
    ensures ConsumedPrefix(OneHashEach(es), start) == FirstRejected(es, start, 0)
  {
    var lists, k := OneHashEach(es), FirstRejected(es, start, 0);
    FirstRejectedBounds(es, start, 0);
    forall i | 0 <= i < |es|
      ensures TriggerConsumed(lists, start, i) <==> !Rejected(es, start, i)
    {
      OccurrencesArePosted(es, i, es[i].actionHash);
      assert es[i].actionHash in lists[i];
    }
    forall i | 0 <= i < |es|
      ensures i < k ==> TriggerConsumed(lists, start, i)
      ensures i == k ==> !TriggerConsumed(lists, start, i)
    {
      BelowFirstRejected(es, start, 0, i);
    }
    PrefixIsGreatest(lists, start, k);
  }

  lemma RejectedIffPrefixShort(es: seq<Entry>, start: Counts)
    ensures AnyRejected(es, start) <==> FirstRejected(es, start, 0) < |es|
  {
    var k := FirstRejected(es, start, 0);
    FirstRejectedBounds(es, start, 0);
    if k < |es| {
      BelowFirstRejected(es, start, 0, k);
    } else if AnyRejected(es, start) {
      var i: nat :| i < |es| && Rejected(es, start, i);
      BelowFirstRejected(es, start, 0, i);
    }
  }

  /** For any linked batch, whatever L1 consumed: the prefix count is the index of the first entry
      the FIFO loop rejects, the effective root is the chain's root there, and the batch is flagged
      for filtering exactly when the prefix is short. */
  lemma LinkedBatchAgreement(
      entries: seq<Entry>, posted: seq<Entry>, roots: seq<Root>, rollupId: RollupId, start: Counts)
    requires DeferredOnly(entries) == posted && !HasRevert(entries)
    requires LinkedBy(posted, roots, rollupId) && RootsAreSafe(posted, roots)
    requires FinalRoot(entries) == roots[0]
    ensures var k := ConsumedPrefix(OneHashEach(posted), start);
            && k == FirstRejected(posted, start, 0) <= |posted|
            && FoldRoots(FinalRoot(entries), Selected(entries, start), RevertHashes(entries, HasRevert(entries)),
                         rollupId) == roots[k]
            && (AnyRejected(entries, start) <==> k < |posted|)
  {
    assert forall i :: 0 <= i < |posted| ==> LinksAt(posted[i], roots, rollupId, i);
    PrefixStopsAtFirstRejected(posted, start);
    DeferredDecide(entries, start);
    FoldStopsAtFirstRejected(posted, roots, rollupId, start, FirstRejected(posted, start, 0), |posted|);
    assert posted[..|posted|] == posted;
    RejectedIffPrefixShort(posted, start);
  }

  /** The builder's posted entries form such a batch. */
  lemma BuilderBatchIsLinked(calls: seq<CallSpec>, roots: seq<Root>, rollupId: U64)
    requires |roots| == |calls| + 1
    ensures LinkedBy(PostedEntries(calls, roots, rollupId), roots, rollupId)
  {
    BuilderPairsLength(calls);
    forall i | 0 <= i < |calls|
      ensures LinksAt(PostedEntries(calls, roots, rollupId)[i], roots, rollupId, i)
    {
      PostedEntryAt(calls, roots, rollupId, i);
    }
  }

  /** Derivation and filtering agree on every batch the builder makes of cross-chain calls: with
      one trigger per call, the filter keeps the first `k` triggers where `k` is the index of the
      first entry derivation rejects, and derivation expects exactly `roots[k]`. */
  lemma DerivationAndFilterAgree(
      entries: seq<Entry>, calls: seq<CallSpec>, roots: seq<Root>, rollupId: U64, start: Counts,
      receipts: seq<Receipt>, ccm: Address)
    requires |roots| == |calls| + 1
    requires RootsAreSafe(PostedEntries(calls, roots, rollupId), roots)
    requires DeferredOnly(entries) == PostedEntries(calls, roots, rollupId) && !HasRevert(entries)
    requires FinalRoot(entries) == roots[0]
    requires TriggerHashes(receipts, ccm, TriggerIndices(receipts, ccm))
             == OneHashEach(PostedEntries(calls, roots, rollupId))
    ensures var k := ConsumedPrefix(TriggerHashes(receipts, ccm, TriggerIndices(receipts, ccm)), start);
            && k == FirstRejected(PostedEntries(calls, roots, rollupId), start, 0) <= |calls|
            && FoldRoots(FinalRoot(entries), Selected(entries, start), RevertHashes(entries, HasRevert(entries)),
                         rollupId) == roots[k]
            && (AnyRejected(entries, start) <==> k < |calls|)
  {
    BuilderBatchIsLinked(calls, roots, rollupId);
    LinkedBatchAgreement(entries, PostedEntries(calls, roots, rollupId), roots, rollupId, start);
  }

  /** Pairwise distinct roots are always safe, so then the two decisions agree whatever L1 consumed. */
  lemma DistinctRootsAgree(
      entries: seq<Entry>, calls: seq<CallSpec>, roots: seq<Root>, rollupId: U64, start: Counts,
      receipts: seq<Receipt>, ccm: Address)
    requires |roots| == |calls| + 1 && Distinct(roots)
    requires DeferredOnly(entries) == PostedEntries(calls, roots, rollupId) && !HasRevert(entries)
    requires FinalRoot(entries) == roots[0]
    requires TriggerHashes(receipts, ccm, TriggerIndices(receipts, ccm))
             == OneHashEach(PostedEntries(calls, roots, rollupId))
    ensures var k := ConsumedPrefix(TriggerHashes(receipts, ccm, TriggerIndices(receipts, ccm)), start);
            && k == FirstRejected(PostedEntries(calls, roots, rollupId), start, 0) <= |calls|
            && FoldRoots(FinalRoot(entries), Selected(entries, start), RevertHashes(entries, HasRevert(entries)),
                         rollupId) == roots[k]
            && (AnyRejected(entries, start) <==> k < |calls|)
  {
    DerivationAndFilterAgree(entries, calls, roots, rollupId, start, receipts, ccm);
  }

  /** A first call that leaves the root unchanged breaks the agreement: with roots `a, a, b`, when L1
      consumed only the second of two different calls, the fold reaches `b` but no trigger is kept. */
  lemma RepeatedRootBreaksAgreement(c0: CallSpec, c1: CallSpec, a: Root, b: Root, rollupId: U64)
    requires CallActionOf(c0) != CallActionOf(c1) && a != b
    ensures var es := PostedEntries([c0, c1], [a, a, b], rollupId);
            var start := map[HashOf(CallActionOf(c1)) := 1];
            && ConsumedPrefix(OneHashEach(es), start) == 0
            && FoldRoots(a, Selected(es, start), {}, rollupId) == b
            && !FoldAgrees(es, [a, a, b], rollupId, start)
  {
    var calls, roots := [c0, c1], [a, a, b];
    var es := PostedEntries(calls, roots, rollupId);
    var start := map[HashOf(CallActionOf(c1)) := 1];
    PostedEntryAt(calls, roots, rollupId, 0);
    PostedEntryAt(calls, roots, rollupId, 1);
    BuilderBatchIsLinked(calls, roots, rollupId);
    assert es[..0] == [] && es[..1] == [es[0]] && es[..2] == es && [es[0]][..0] == [];
    assert Rejected(es, start, 0) && Accepted(es, start, 1);
    PrefixStopsAtFirstRejected(es, start);
    FoldStep(es, roots, rollupId, start, 0);
    FoldStep(es, roots, rollupId, start, 1);
  }

  /** End to end: if the builder's roots are those of executing the block with the first `j`
      triggers kept, then the block a fullnode filters and executes has exactly the root that
      derivation computed from L1. */
  lemma FilteredBlockHasEffectiveRoot(
      txs: seq<Tx>, receiptOf: Tx -> Receipt, execute: seq<Tx> -> Root, ccm: Address,
      entries: seq<Entry>, calls: seq<CallSpec>, roots: seq<Root>, rollupId: U64, start: Counts)
    requires |roots| == |calls| + 1
    requires RootsAreSafe(PostedEntries(calls, roots, rollupId), roots)
    requires forall j :: 0 <= j < |roots| ==> roots[j] == execute(Kept(txs, receiptOf, ccm, j))
    requires DeferredOnly(entries) == PostedEntries(calls, roots, rollupId) && !HasRevert(entries)
    requires FinalRoot(entries) == roots[0]
    requires TriggerHashes(ReceiptsOf(txs, receiptOf), ccm, Triggers(txs, receiptOf, ccm))
             == OneHashEach(PostedEntries(calls, roots, rollupId))
    ensures var triggers := Triggers(txs, receiptOf, ccm);
            var k := ConsumedPrefix(TriggerHashes(ReceiptsOf(txs, receiptOf), ccm, triggers), start);
            var filtered := FilterBlockByTriggerPrefix(RlpList(txs), triggers, k);
            && filtered.Ok? && filtered.value.RlpList?
            && execute(filtered.value.txs) ==
               FoldRoots(FinalRoot(entries), Selected(entries, start), RevertHashes(entries, HasRevert(entries)),
                         rollupId)
  {
    DerivationAndFilterAgree(entries, calls, roots, rollupId, start, ReceiptsOf(txs, receiptOf), ccm);
    var k := ConsumedPrefix(TriggerHashes(ReceiptsOf(txs, receiptOf), ccm, Triggers(txs, receiptOf, ccm)), start);
    FilterKeeps(txs, receiptOf, ccm, k);
  }

  // ---- Groups consumed atomically ----

  /** L1 consumed the hashes of exactly the first `b` entries. */
  ghost predicate ConsumedFirst(es: seq<Entry>, start: Counts, b: nat)
    requires b <= |es|
  {
    forall h :: Avail(start, h) == Posted(es[..b], h)
  }

  lemma {:induction false} PostedPrefix(es: seq<Entry>, m: nat, n: nat, h: ActionHash)
    requires m <= n <= |es|
    ensures Posted(es[..m], h) <= Posted(es[..n], h)
    ensures m < n && !Immediate(es[m]) && es[m].actionHash == h ==> Posted(es[..m], h) < Posted(es[..n], h)
  {
    if m < n {
      assert es[..n][..n - 1] == es[..n - 1];
      if m < n - 1 {
        PostedPrefix(es, m, n - 1, h);
      }
    }
  }

  lemma AcceptedIffBefore(es: seq<Entry>, start: Counts, b: nat, i: nat)
    requires b <= |es| && i < |es| && !Immediate(es[i])
    requires ConsumedFirst(es, start, b)
    ensures Accepted(es, start, i) <==> i < b
  {
    assert Avail(start, es[i].actionHash) == Posted(es[..b], es[i].actionHash);
    if i < b {
      PostedPrefix(es, i, b, es[i].actionHash);
    } else {
      PostedPrefix(es, b, i, es[i].actionHash);
    }
  }

  /** Then exactly those entries are accepted, duplicate hashes notwithstanding. */
  lemma {:induction false} FirstAreSelected(es: seq<Entry>, start: Counts, b: nat, n: nat)
    requires b <= |es| && n <= |es|
    requires forall i :: 0 <= i < |es| ==> !Immediate(es[i])
    requires ConsumedFirst(es, start, b)
    ensures Selected(es[..n], start) == es[..Min(n, b)]
  {
    if n == 0 {
      assert es[..0] == [];
    } else {
      FirstAreSelected(es, start, b, n - 1);
      AcceptedIffBefore(es, start, b, n - 1);
      NextIsSelected(es, start, b, n - 1);
    }
  }

  lemma NextIsSelected(es: seq<Entry>, start: Counts, b: nat, k: nat)
    requires b <= |es| && k < |es|
    requires Accepted(es, start, k) <==> k < b
    requires Selected(es[..k], start) == es[..Min(k, b)]
    ensures Selected(es[..k + 1], start) == es[..Min(k + 1, b)]
  {
    SelectedStep(es, start, k + 1);
    assert es[..k + 1] == es[..k] + [es[k]];
  }

  lemma {:induction false} FoldFollowsChain(es: seq<Entry>, roots: seq<Root>, rollupId: U64, starts: seq<nat>, n: nat)
    requires Tiles(roots, starts, |es|)
    requires n <= |es|
    ensures FoldRoots(roots[0], Attached(es, roots, rollupId, starts)[..n], {}, rollupId) ==
            if n == 0 then roots[0] else PostState(es, roots, rollupId, starts, n - 1)
  {
    if n > 0 {
      var i := n - 1;
      FoldFollowsChain(es, roots, rollupId, starts, i);
      var after := Attached(es, roots, rollupId, starts);
      AttachedPreserves(es, roots, rollupId, starts, i);
      if i == 0 {
        ChainEnds(es, roots, rollupId, starts);
      } else {
        ChainIsUnbroken(es, roots, rollupId, starts, i - 1);
      }
      assert after[..n] == after[..i] + [after[i]];
      FoldLink(roots[0], after[..i], after[i], rollupId);
    }
  }

  /** Where the first `m` groups end. */
  ghost function GroupsEnd(starts: seq<nat>, m: nat, len: nat): nat
    requires m <= |starts|
  {
    if m == 0 then 0 else GroupEnd(starts, m - 1, len)
  }

  lemma AttachedDeferred(es: seq<Entry>, roots: seq<Root>, rollupId: U64, starts: seq<nat>)
    requires Tiles(roots, starts, |es|)
    requires forall i :: 0 <= i < |es| ==> !Immediate(es[i])
    ensures forall i :: 0 <= i < |es| ==> !Immediate(Attached(es, roots, rollupId, starts)[i])
  {
    forall i | 0 <= i < |es|
      ensures !Immediate(Attached(es, roots, rollupId, starts)[i])
    {
      AttachedPreserves(es, roots, rollupId, starts, i);
    }
  }

  // ---- ... and counted trigger by trigger ----

  function HashesOf(es: seq<Entry>): seq<ActionHash> {
    seq(|es|, i requires 0 <= i < |es| => es[i].actionHash)
  }

  /** What each trigger's receipt shows when L2 executes it: the hashes of its whole group. */
  ghost function GroupHashes(es: seq<Entry>, starts: seq<nat>): seq<seq<ActionHash>>
    requires forall k {:trigger GroupEnd(starts, k, |es|)} ::
               0 <= k < |starts| ==> starts[k] < GroupEnd(starts, k, |es|) <= |es|
  {
    seq(|starts|, k requires 0 <= k < |starts| => var end := GroupEnd(starts, k, |es|); HashesOf(es[starts[k]..end]))
  }

  lemma {:induction false} TimesArePosted(es: seq<Entry>, h: ActionHash)
    requires forall i :: 0 <= i < |es| ==> !Immediate(es[i])
    ensures Times(HashesOf(es), h) == Posted(es, h)
  {
    if es != [] {
      var n := |es| - 1;
      TimesArePosted(es[..n], h);
      assert HashesOf(es)[..n] == HashesOf(es[..n]);
    }
  }

  lemma GroupsMeet(roots: seq<Root>, starts: seq<nat>, len: nat, k: nat)
    requires Tiles(roots, starts, len) && k < |starts|
    ensures GroupsEnd(starts, k, len) == starts[k] < GroupsEnd(starts, k + 1, len) <= len
  {
    assert GroupEnd(starts, k, len) <= len;
  }

  lemma {:induction false} GroupsEndIncreases(roots: seq<Root>, starts: seq<nat>, len: nat, k: nat, m: nat)
    requires Tiles(roots, starts, len) && k <= m <= |starts|
    ensures GroupsEnd(starts, k, len) <= GroupsEnd(starts, m, len) <= len
    ensures k < m ==> GroupsEnd(starts, k, len) < GroupsEnd(starts, m, len)
    decreases m
  {
    if m > 0 {
      GroupsMeet(roots, starts, len, m - 1);
      if k < m {
        GroupsEndIncreases(roots, starts, len, k, m - 1);
      }
    }
  }

  lemma PostedSplit(es: seq<Entry>, s: nat, e: nat, h: ActionHash)
    requires s <= e <= |es|
    ensures Posted(es[..e], h) == Posted(es[..s], h) + Posted(es[s..e], h)
  {
    PostedAppend(es[..s], es[s..e], h);
    assert es[..s] + es[s..e] == es[..e];
  }

  lemma OccurrencesStep(lists: seq<seq<ActionHash>>, k: nat, h: ActionHash)
    requires k < |lists|
    ensures Occurrences(lists[..k + 1], h) == Occurrences(lists[..k], h) + Times(lists[k], h)
  {
    assert lists[..k + 1][..k] == lists[..k];
  }

  lemma {:induction false} GroupOccurrences(es: seq<Entry>, roots: seq<Root>, starts: seq<nat>, t: nat, h: ActionHash)
    requires Tiles(roots, starts, |es|) && t <= |starts|
    requires forall i :: 0 <= i < |es| ==> !Immediate(es[i])
    ensures GroupsEnd(starts, t, |es|) <= |es|
    ensures Occurrences(GroupHashes(es, starts)[..t], h) == Posted(es[..GroupsEnd(starts, t, |es|)], h)
  {
    if t == 0 {
      assert es[..0] == [];
    } else {
      var k := t - 1;
      GroupsMeet(roots, starts, |es|, k);
      GroupOccurrences(es, roots, starts, k, h);
      OccurrencesStep(GroupHashes(es, starts), k, h);
      TimesArePosted(es[starts[k]..GroupsEnd(starts, t, |es|)], h);
      PostedSplit(es, starts[k], GroupsEnd(starts, t, |es|), h);
    }
  }

  /** Every hash of a group within the first `b` entries has been consumed more often than before it. */
  lemma HashIsCovered(es: seq<Entry>, start: Counts, s: nat, e: nat, b: nat, h: ActionHash)
    requires s <= e <= b <= |es|
    requires forall i :: s <= i < e ==> !Immediate(es[i])
    requires h in HashesOf(es[s..e])
    requires Avail(start, h) == Posted(es[..b], h)
    ensures Posted(es[..s], h) < Avail(start, h)
  {
    var x :| 0 <= x < e - s && HashesOf(es[s..e])[x] == h;
    assert es[s..e][x] == es[s + x];
    PostedPrefix(es, s, s + x, h);
    PostedPrefix(es, s + x, b, h);
  }

  lemma EarlierGroupIsConsumed(
      es: seq<Entry>, roots: seq<Root>, starts: seq<nat>, start: Counts, m: nat, b: nat, k: nat)
    requires Tiles(roots, starts, |es|) && k < m <= |starts|
    requires forall i :: 0 <= i < |es| ==> !Immediate(es[i])
    requires b == GroupsEnd(starts, m, |es|) <= |es| && ConsumedFirst(es, start, b)
    ensures TriggerConsumed(GroupHashes(es, starts), start, k)
  {
    GroupsMeet(roots, starts, |es|, k);
    GroupsEndIncreases(roots, starts, |es|, k + 1, m);
    var hashes := GroupHashes(es, starts)[k];
    forall h | h in hashes
      ensures Occurrences(GroupHashes(es, starts)[..k], h) < Avail(start, h)
    {
      GroupOccurrences(es, roots, starts, k, h);
      assert Avail(start, h) == Posted(es[..b], h);
      HashIsCovered(es, start, starts[k], GroupsEnd(starts, k + 1, |es|), b, h);
    }
  }

  lemma LaterGroupIsNot(es: seq<Entry>, roots: seq<Root>, starts: seq<nat>, start: Counts, m: nat, b: nat, k: nat)
    requires Tiles(roots, starts, |es|) && m <= k < |starts|
    requires forall i :: 0 <= i < |es| ==> !Immediate(es[i])
    requires b == GroupsEnd(starts, m, |es|) <= |es| && ConsumedFirst(es, start, b)
    ensures !TriggerConsumed(GroupHashes(es, starts), start, k)
  {
    GroupsMeet(roots, starts, |es|, k);
    GroupsEndIncreases(roots, starts, |es|, m, k);
    var h := es[starts[k]].actionHash;
    assert GroupHashes(es, starts)[k][0] == h;
    GroupOccurrences(es, roots, starts, k, h);
    assert Avail(start, h) == Posted(es[..b], h);
    PostedPrefix(es, b, starts[k], h);
  }

  lemma PrefixCountsGroups(es: seq<Entry>, roots: seq<Root>, starts: seq<nat>, start: Counts, m: nat, b: nat)
    requires Tiles(roots, starts, |es|) && m <= |starts|
    requires forall i :: 0 <= i < |es| ==> !Immediate(es[i])
    requires b == GroupsEnd(starts, m, |es|) <= |es| && ConsumedFirst(es, start, b)
    ensures ConsumedPrefix(GroupHashes(es, starts), start) == m
  {
    forall k | 0 <= k < |starts|
      ensures TriggerConsumed(GroupHashes(es, starts), start, k) <==> k < m
    {
      if k < m {
        EarlierGroupIsConsumed(es, roots, starts, start, m, b, k);
      } else {
        LaterGroupIsNot(es, roots, starts, start, m, b, k);
      }
    }
    PrefixIsGreatest(GroupHashes(es, starts), start, m);
  }

  lemma {:induction false} AllDeferred(es: seq<Entry>)
    requires forall i :: 0 <= i < |es| ==> !Immediate(es[i])
    ensures DeferredCount(es) == |es|
  {
    if es != [] {
      AllDeferred(es[..|es| - 1]);
    }
  }

  /** When L1 consumed exactly the first `m` trigger groups of a batch, however large the groups and
      whatever hashes repeat, FIFO matching accepts exactly their entries, the root fold passes
      through every synthetic root to land on `roots[m]`, the trigger prefix over receipts that show
      each group's hashes counts exactly `m`, and the batch is flagged exactly when a group is
      missing. */
  lemma ConsumedGroupsReachTheirRoot(
      es: seq<Entry>, roots: seq<Root>, rollupId: U64, starts: seq<nat>, start: Counts, m: nat, b: nat)
    requires Tiles(roots, starts, |es|) && m <= |starts|
    requires forall i :: 0 <= i < |es| ==> !Immediate(es[i])
    requires b == GroupsEnd(starts, m, |es|) <= |es|
    requires ConsumedFirst(Attached(es, roots, rollupId, starts), start, b)
    ensures var after := Attached(es, roots, rollupId, starts);
            && Selected(after, start) == after[..b]
            && FoldRoots(roots[0], Selected(after, start), {}, rollupId) == roots[m]
            && ConsumedPrefix(GroupHashes(after, starts), start) == m
            && (AnyRejected(after, start) <==> m < |starts|)
  {
    AttachedDeferred(es, roots, rollupId, starts);
    var after := Attached(es, roots, rollupId, starts);
    FirstAreSelected(after, start, b, |es|);
    assert after[..|es|] == after;
    GroupsFold(es, roots, rollupId, starts, m, b);
    PrefixCountsGroups(after, roots, starts, start, m, b);
    FlaggedIffSomeMissing(after, start);
    AllDeferred(after);
    GroupsEndIncreases(roots, starts, |es|, m, |starts|);
  }

  lemma GroupsFold(es: seq<Entry>, roots: seq<Root>, rollupId: U64, starts: seq<nat>, m: nat, b: nat)
    requires Tiles(roots, starts, |es|) && m <= |starts|
    requires b == GroupsEnd(starts, m, |es|) <= |es|
    ensures FoldRoots(roots[0], Attached(es, roots, rollupId, starts)[..b], {}, rollupId) == roots[m]
  {
    FoldFollowsChain(es, roots, rollupId, starts, b);
    if m > 0 {
      GroupBoundaries(es, roots, rollupId, starts, m - 1);
    }
  }
}
