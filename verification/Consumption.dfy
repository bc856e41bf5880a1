/** How derivation decides which posted entries happened on L1 (derivation.rs): FIFO matching of
    deferred entries against `ExecutionConsumed` counts, shared by all batches of a window, and the
    effective state root folded from the accepted entries. */
module Consumption {
  import opened MachineInts
  import opened CrossChain

  type Counts = map<ActionHash, nat>

  function Avail(counts: Counts, h: ActionHash): nat {
    if h in counts then counts[h] else 0
  }

  /** How many deferred entries of `es` carry hash `h`. */
  function Posted(es: seq<Entry>, h: ActionHash): nat {
    if es == [] then 0 else
      var e := es[|es| - 1];
      Posted(es[..|es| - 1], h) + if !Immediate(e) && e.actionHash == h then 1 else 0
  }

  /** Deferred entry `i` happened on L1: fewer equal hashes were posted before it than L1 consumed. */
  predicate Accepted(es: seq<Entry>, start: Counts, i: nat)
    requires i < |es|
  {
    !Immediate(es[i]) && Posted(es[..i], es[i].actionHash) < Avail(start, es[i].actionHash)
  }

  predicate Rejected(es: seq<Entry>, start: Counts, i: nat)
    requires i < |es|
  {
    !Immediate(es[i]) && Avail(start, es[i].actionHash) <= Posted(es[..i], es[i].actionHash)
  }

  predicate AnyRejected(es: seq<Entry>, start: Counts) {
    exists i :: 0 <= i < |es| && Rejected(es, start, i)
  }

  /** The accepted entries, in posting order. */
  function Selected(es: seq<Entry>, start: Counts): seq<Entry> {
    if es == [] then [] else
      Selected(es[..|es| - 1], start) +
      if Accepted(es, start, |es| - 1) then [es[|es| - 1]] else []
  }

  lemma PostedSnoc(es: seq<Entry>, e: Entry, h: ActionHash)
    ensures Posted(es + [e], h) == Posted(es, h) + if !Immediate(e) && e.actionHash == h then 1 else 0
  {
    assert (es + [e])[..|es|] == es;
  }

  /** What is left of the consumed counts after `es`. */
  function Drain(start: Counts, es: seq<Entry>): Counts {
    map h | h in start :: if start[h] < Posted(es, h) then 0 else start[h] - Posted(es, h)
  }

  /** The new state of the last immediate entry that has a delta, or zero. */
  function FinalRoot(es: seq<Entry>): Root {
    if es == [] then ZERO_ROOT else
      var e := es[|es| - 1];
      if Immediate(e) && e.stateDeltas != [] then e.stateDeltas[0].newState
      else FinalRoot(es[..|es| - 1])
  }

  /** The entry loop of one batch. */
  method ConsumeEntries(entries: seq<Entry>, before: Counts)
    returns (finalRoot: Root, deferred: seq<Entry>, unconsumed: bool, remaining: Counts)
    ensures finalRoot == FinalRoot(entries)
    ensures deferred == Selected(entries, before)
    ensures unconsumed == AnyRejected(entries, before)
    ensures remaining == Drain(before, entries)
  {
    finalRoot, deferred, unconsumed, remaining := ZERO_ROOT, [], false, before;
    var i := 0;
    while i < |entries|
      invariant 0 <= i <= |entries|
      invariant finalRoot == FinalRoot(entries[..i])
      invariant deferred == Selected(entries[..i], before)
      invariant unconsumed == AnyRejected(entries[..i], before)
      invariant remaining == Drain(before, entries[..i])
    {
      var entry := entries[i];
      OneMoreEntry(entries, before, i);
      if entry.actionHash == ZeroHash {
        if entry.stateDeltas != [] {
          finalRoot := entry.stateDeltas[0].newState;
        }
      } else if entry.actionHash in remaining {
        var count := remaining[entry.actionHash];
        if count > 0 {
          remaining := remaining[entry.actionHash := count - 1];
          deferred := deferred + [entry];
        } else {
          unconsumed := true;
        }
      } else {
        unconsumed := true;
      }
      i := i + 1;
    }
    assert entries[..i] == entries;
  }

  /** What entry `i` adds to each accumulator of the loop. */
  lemma OneMoreEntry(es: seq<Entry>, before: Counts, i: nat)
    requires i < |es|
    ensures FinalRoot(es[..i + 1]) ==
            if Immediate(es[i]) && es[i].stateDeltas != [] then es[i].stateDeltas[0].newState else FinalRoot(es[..i])
    ensures Selected(es[..i + 1], before) ==
            Selected(es[..i], before) + if Accepted(es, before, i) then [es[i]] else []
    ensures AnyRejected(es[..i + 1], before) <==> AnyRejected(es[..i], before) || Rejected(es, before, i)
    ensures Drain(before, es[..i + 1]) ==
            if Accepted(es, before, i)
            then Drain(before, es[..i])[es[i].actionHash := Avail(Drain(before, es[..i]), es[i].actionHash) - 1]
            else Drain(before, es[..i])
    ensures !Immediate(es[i]) ==> (Accepted(es, before, i) <==> Avail(Drain(before, es[..i]), es[i].actionHash) > 0)
    ensures !Immediate(es[i]) ==> (Accepted(es, before, i) <==> !Rejected(es, before, i))
  {
    assert es[..i + 1][..i] == es[..i];
    RejectedPrefix(es[..i + 1], before);
    DrainStep(before, es, i);
  }

  lemma DrainStep(before: Counts, es: seq<Entry>, i: nat)
    requires i < |es|
    ensures Drain(before, es[..i + 1]) ==
            if Accepted(es, before, i)
            then Drain(before, es[..i])[es[i].actionHash := Avail(Drain(before, es[..i]), es[i].actionHash) - 1]
            else Drain(before, es[..i])
  {
    assert es[..i + 1][..i] == es[..i];
  }

  // ---- Conservation ----

  /** The deferred entries of `es` with hash `h`, in posting order. */
  function WithHash(es: seq<Entry>, h: ActionHash): seq<Entry> {
    if es == [] then [] else
      var e := es[|es| - 1];
      WithHash(es[..|es| - 1], h) + if !Immediate(e) && e.actionHash == h then [e] else []
  }

  lemma {:induction false} PostedIsLength(es: seq<Entry>, h: ActionHash)
    ensures Posted(es, h) == |WithHash(es, h)|
  {
    if es != [] {
      PostedIsLength(es[..|es| - 1], h);
    }
  }

  /** The next occurrence extends the accepted prefix exactly while the count lasts. */
  lemma PrefixStep(all: seq<Entry>, e: Entry, limit: nat)
    ensures (all + [e])[..Min(|all| + 1, limit)] ==
            all[..Min(|all|, limit)] + if |all| < limit then [e] else []
  {
  }

  lemma WithHashSingle(es: seq<Entry>, e: Entry, h: ActionHash)
    ensures WithHash(es + [e], h) == WithHash(es, h) + if !Immediate(e) && e.actionHash == h then [e] else []
  {
    assert (es + [e])[..|es|] == es;
  }

  lemma {:induction false} AcceptedAreFirst(es: seq<Entry>, start: Counts, h: ActionHash)
    ensures WithHash(Selected(es, start), h) == WithHash(es, h)[..Min(|WithHash(es, h)|, Avail(start, h))]
  {
    if es != [] {
      var n := |es| - 1;
      AcceptedAreFirst(es[..n], start, h);
      PostedIsLength(es[..n], h);
      WithHashSelected(es, start, h);
      if !Immediate(es[n]) && es[n].actionHash == h {
        PrefixStep(WithHash(es[..n], h), es[n], Avail(start, h));
      }
    }
  }

  lemma WithHashSelected(es: seq<Entry>, start: Counts, h: ActionHash)
    requires es != []
    ensures WithHash(Selected(es, start), h) ==
            WithHash(Selected(es[..|es| - 1], start), h) +
            if Accepted(es, start, |es| - 1) && es[|es| - 1].actionHash == h then [es[|es| - 1]] else []
  {
    var n := |es| - 1;
    if Accepted(es, start, n) {
      WithHashSingle(Selected(es[..n], start), es[n], h);
    } else {
      assert Selected(es, start) == Selected(es[..n], start);
    }
  }

  /** FIFO conservation: of each hash exactly the first `min(posted, consumed)` occurrences are
      accepted, and what was accepted plus what remains is what L1 consumed. */
  lemma FifoConservation(es: seq<Entry>, start: Counts, h: ActionHash)
    ensures WithHash(Selected(es, start), h) == WithHash(es, h)[..Min(|WithHash(es, h)|, Avail(start, h))]
    ensures |WithHash(Selected(es, start), h)| + Avail(Drain(start, es), h) == Avail(start, h)
  {
    AcceptedAreFirst(es, start, h);
    PostedIsLength(es, h);
  }

  lemma {:induction false} PostedAppend(a: seq<Entry>, b: seq<Entry>, h: ActionHash)
    ensures Posted(a + b, h) == Posted(a, h) + Posted(b, h)
  {
    if b == [] {
      assert a + b == a;
    } else {
      PostedAppend(a, b[..|b| - 1], h);
      assert (a + b)[..|a + b| - 1] == a + b[..|b| - 1];
    }
  }

  lemma DrainCompose(start: Counts, a: seq<Entry>, b: seq<Entry>)
    ensures Drain(Drain(start, a), b) == Drain(start, a + b)
  {
    forall h | h in start
      ensures Drain(Drain(start, a), b)[h] == Drain(start, a + b)[h]
    {
      PostedAppend(a, b, h);
    }
  }

  lemma AcceptedAcross(a: seq<Entry>, b: seq<Entry>, start: Counts, i: nat)
    requires i < |b|
    ensures Accepted(a + b, start, |a| + i) <==> Accepted(b, Drain(start, a), i)
  {
    assert (a + b)[..|a| + i] == a + b[..i];
    PostedAppend(a, b[..i], b[i].actionHash);
  }

  /** Processing batch after batch with the shared counter is processing their concatenation. */
  lemma {:induction false} SelectedAppend(a: seq<Entry>, b: seq<Entry>, start: Counts)
    ensures Selected(a + b, start) == Selected(a, start) + Selected(b, Drain(start, a))
  {
    if b == [] {
      assert a + b == a;
    } else {
      var n := |b| - 1;
      SelectedAppend(a, b[..n], start);
      AcceptedAcross(a, b, start, n);
      assert (a + b)[..|a + b| - 1] == a + b[..n];
    }
  }

  function DeferredCount(es: seq<Entry>): nat {
    if es == [] then 0 else
      DeferredCount(es[..|es| - 1]) + if Immediate(es[|es| - 1]) then 0 else 1
  }

  /** A batch is flagged exactly when it accepted fewer entries than it deferred. */
  lemma {:induction false} FlaggedIffSomeMissing(es: seq<Entry>, start: Counts)
    ensures |Selected(es, start)| <= DeferredCount(es)
    ensures AnyRejected(es, start) <==> |Selected(es, start)| < DeferredCount(es)
  {
    if es != [] {
      var n := |es| - 1;
      FlaggedIffSomeMissing(es[..n], start);
      RejectedPrefix(es, start);
    }
  }

  lemma RejectedPrefix(es: seq<Entry>, start: Counts)
    requires es != []
    ensures AnyRejected(es, start) <==> AnyRejected(es[..|es| - 1], start) || Rejected(es, start, |es| - 1)
  {
    var n := |es| - 1;
    forall i: nat | i < n
      ensures Rejected(es, start, i) <==> Rejected(es[..n], start, i)
    {
      assert es[..n][..i] == es[..i];
    }
    if AnyRejected(es[..n], start) {
      var i :| 0 <= i < n && Rejected(es[..n], start, i);
      assert Rejected(es, start, i);
    }
  }

  // ---- Effective state root ----

  function FoldDeltas(root: Root, ds: seq<StateDelta>, rollupId: RollupId): Root {
    if ds == [] then root else
      var prior := FoldDeltas(root, ds[..|ds| - 1], rollupId);
      var d := ds[|ds| - 1];
      if d.currentState == prior && d.rollupId == rollupId then d.newState else prior
  }

  function FoldRoots(root: Root, es: seq<Entry>, skip: set<ActionHash>, rollupId: RollupId): Root {
    if es == [] then root else
      var prior := FoldRoots(root, es[..|es| - 1], skip, rollupId);
      var e := es[|es| - 1];
      if e.actionHash in skip then prior else FoldDeltas(prior, e.stateDeltas, rollupId)
  }

  predicate IsRevertKind(a: Action) {
    a.kind == Revert || a.kind == RevertContinue
  }

  predicate HasRevert(es: seq<Entry>) {
    exists i :: 0 <= i < |es| && IsRevertKind(es[i].nextAction)
  }

  /** In a revert batch every posted deferred hash is excluded from the fold. */
  function RevertHashes(entries: seq<Entry>, batchHasRevert: bool): set<ActionHash> {
    if batchHasRevert then set i | 0 <= i < |entries| && !Immediate(entries[i]) :: entries[i].actionHash else {}
  }

  method EffectiveRoot(
      finalRoot: Root, entries: seq<Entry>, deferred: seq<Entry>, batchHasRevert: bool, rollupId: RollupId)
    returns (root: Root)
    ensures root == FoldRoots(finalRoot, deferred, RevertHashes(entries, batchHasRevert), rollupId)
  {
    var skip := RevertHashes(entries, batchHasRevert);
    root := finalRoot;
    var i := 0;
    while i < |deferred|
      invariant 0 <= i <= |deferred|
      invariant root == FoldRoots(finalRoot, deferred[..i], skip, rollupId)
    {
      assert deferred[..i + 1][..i] == deferred[..i];
      if deferred[i].actionHash !in skip {
        var ds := deferred[i].stateDeltas;
        ghost var prior := root;
        var j := 0;
        while j < |ds|
          invariant 0 <= j <= |ds|
          invariant root == FoldDeltas(prior, ds[..j], rollupId)
        {
          assert ds[..j + 1][..j] == ds[..j];
          if ds[j].currentState == root && ds[j].rollupId == rollupId {
            root := ds[j].newState;
          }
          j := j + 1;
        }
        assert ds[..j] == ds;
      }
      i := i + 1;
    }
    assert deferred[..i] == deferred;
  }

  /** A revert batch never moves the root past the one its immediate entry names, whatever of it
      L1 consumed. */
  lemma {:induction false} RevertBatchKeepsFinalRoot(
      root: Root, entries: seq<Entry>, start: Counts, rollupId: RollupId, n: nat)
    requires n <= |entries|
    ensures FoldRoots(root, Selected(entries[..n], start), RevertHashes(entries, true), rollupId) == root
  {
    if n > 0 {
      RevertBatchKeepsFinalRoot(root, entries, start, rollupId, n - 1);
      var es := entries[..n];
      assert es[..|es| - 1] == entries[..n - 1];
      var kept := Selected(entries[..n - 1], start);
      if Accepted(es, start, n - 1) {
        assert entries[n - 1].actionHash in RevertHashes(entries, true);
        assert (kept + [entries[n - 1]])[..|kept|] == kept;
      } else {
        assert kept + [] == kept;
      }
    }
  }

  // ---- The fold, step by step ----

  /** The deltas of the entries that are not skipped, in order. */
  function DeltasOf(es: seq<Entry>, skip: set<ActionHash>): seq<StateDelta> {
    if es == [] then [] else
      var n := |es| - 1;
      DeltasOf(es[..n], skip) + if es[n].actionHash in skip then [] else es[n].stateDeltas
  }

  /** Each delta of our rollup that starts at the root so far moves it to its end; no other does. */
  ghost predicate Traces(trace: seq<Root>, ds: seq<StateDelta>, rollupId: RollupId) {
    && |trace| == |ds| + 1
    && forall i :: 0 <= i < |ds| ==>
         trace[i + 1] == if ds[i].rollupId == rollupId && ds[i].currentState == trace[i] then ds[i].newState
                         else trace[i]
  }

  lemma {:induction false} DeltasTrace(root: Root, ds: seq<StateDelta>, rollupId: RollupId) returns (trace: seq<Root>)
    ensures Traces(trace, ds, rollupId) && trace[0] == root
    ensures trace[|ds|] == FoldDeltas(root, ds, rollupId)
  {
    if ds == [] {
      trace := [root];
    } else {
      var before := DeltasTrace(root, ds[..|ds| - 1], rollupId);
      trace := before + [FoldDeltas(root, ds, rollupId)];
    }
  }

  lemma {:induction false} FoldDeltasAppend(root: Root, a: seq<StateDelta>, b: seq<StateDelta>, rollupId: RollupId)
    ensures FoldDeltas(root, a + b, rollupId) == FoldDeltas(FoldDeltas(root, a, rollupId), b, rollupId)
  {
    if b == [] {
      assert a + b == a;
    } else {
      FoldDeltasAppend(root, a, b[..|b| - 1], rollupId);
      assert (a + b)[..|a + b| - 1] == a + b[..|b| - 1];
    }
  }

  lemma {:induction false} FoldIsOfDeltas(root: Root, es: seq<Entry>, skip: set<ActionHash>, rollupId: RollupId)
    ensures FoldRoots(root, es, skip, rollupId) == FoldDeltas(root, DeltasOf(es, skip), rollupId)
  {
    if es != [] {
      var n := |es| - 1;
      FoldIsOfDeltas(root, es[..n], skip, rollupId);
      FoldDeltasAppend(root, DeltasOf(es[..n], skip), es[n].stateDeltas, rollupId);
      assert DeltasOf(es[..n], skip) + [] == DeltasOf(es[..n], skip);
    }
  }

  /** The root fold passes, from its start to its result, through one root after each delta. */
  lemma FoldIsTrace(root: Root, es: seq<Entry>, skip: set<ActionHash>, rollupId: RollupId) returns (trace: seq<Root>)
    ensures Traces(trace, DeltasOf(es, skip), rollupId)
    ensures trace[0] == root && trace[|trace| - 1] == FoldRoots(root, es, skip, rollupId)
  {
    FoldIsOfDeltas(root, es, skip, rollupId);
    trace := DeltasTrace(root, DeltasOf(es, skip), rollupId);
  }

  /** An immediate entry that names a state. */
  predicate NamesState(es: seq<Entry>, k: nat) {
    k < |es| && es[k].actionHash == ZeroHash && es[k].stateDeltas != []
  }

  /** The final root of a batch is the one the last such entry names, or zero without one. */
  lemma {:induction false} FinalRootIs(es: seq<Entry>)
    ensures if exists k: nat :: NamesState(es, k) then
              exists k: nat :: NamesState(es, k) && FinalRoot(es) == es[k].stateDeltas[0].newState
                               && forall x: nat :: k < x ==> !NamesState(es, x)
            else FinalRoot(es) == Real(0)
  {
    if es != [] {
      var n := |es| - 1;
      FinalRootIs(es[..n]);
      assert forall x: nat :: x < n ==> (NamesState(es, x) <==> NamesState(es[..n], x));
      if NamesState(es, n) {
        assert forall x: nat :: n < x ==> !NamesState(es, x);
      } else if k: nat :| NamesState(es[..n], k) && FinalRoot(es[..n]) == es[..n][k].stateDeltas[0].newState
                          && forall x: nat :: k < x ==> !NamesState(es[..n], x) {
        assert NamesState(es, k);
      }
    }
  }
}
