/** Continuation entries of multi-call patterns (cross_chain.rs, `reconstruct_continuation_l2_entries`)
    and the split into table and trigger entries. */
module Continuation {
  import opened Wrappers
  import opened Collections
  import opened MachineInts
  import opened CrossChain
  import opened Consumption
  import opened EntryConversion

  // ---- Lookups ----

  /** The positions of the L1 entries with hash `h` whose answer is a RESULT. */
  function ResultPositions(es: seq<Entry>, h: ActionHash): seq<nat> {
    if es == [] then [] else
      var n := |es| - 1;
      ResultPositions(es[..n], h) +
      if es[n].actionHash == h && es[n].nextAction.kind == Result then [n] else []
  }

  function TimesServed(served: seq<ActionHash>, h: ActionHash): nat {
    if served == [] then 0 else
      var n := |served| - 1;
      TimesServed(served[..n], h) + if served[n] == h then 1 else 0
  }

  /** The RESULT entry the next lookup of `h` finds, given the hashes served so far. */
  function Serve(es: seq<Entry>, served: seq<ActionHash>, h: ActionHash): Option<nat> {
    var positions := ResultPositions(es, h);
    var idx := TimesServed(served, h);
    if idx < |positions| then Some(positions[idx]) else None
  }

  function ServeData(es: seq<Entry>, found: Option<nat>): (Bytes, bool) {
    match found
    case None => ([], false)
    case Some(p) => if p < |es| then (es[p].nextAction.data, es[p].nextAction.failed) else ([], false)
  }

  function Record(served: seq<ActionHash>, h: ActionHash, found: Option<nat>): seq<ActionHash> {
    if found.Some? then served + [h] else served
  }

  function Unscoped(a: Action): Action {
    a.(scope := [])
  }

  /** The first non-mainnet rollup named by a state delta, or 1. */
  function OurRollup(es: seq<Entry>): RollupId {
    match FirstRollup(es)
    case Some(id) => id
    case None => 1
  }

  function FirstRollupIn(ds: seq<StateDelta>): Option<RollupId> {
    if ds == [] then None
    else if ds[0].rollupId != MAINNET then Some(ds[0].rollupId)
    else FirstRollupIn(ds[1..])
  }

  function FirstRollup(es: seq<Entry>): Option<RollupId> {
    if es == [] then None
    else if FirstRollupIn(es[0].stateDeltas).Some? then FirstRollupIn(es[0].stateDeltas)
    else FirstRollup(es[1..])
  }

  // ---- Reconstruction ----

  /** The hashes successfully looked up so far, in order, and the entries produced. */
  datatype Progress = Progress(served: seq<ActionHash>, out: seq<Entry>)

  /** The consumed action an entry's hash resolves to: the last one collected. */
  function ConsumedAction(actions: seq<Action>, h: ActionHash): Option<Action> {
    var matching := ActionsWithHash(actions, h);
    if matching == [] then None else Some(matching[|matching| - 1])
  }

  predicate Expands(e: Entry, actions: seq<Action>) {
    e.nextAction.kind == Call && ConsumedAction(actions, e.actionHash).Some?
  }

  function InnerHash(e: Entry): ActionHash {
    HashOf(Unscoped(e.nextAction))
  }

  function ScopeHash(e: Entry, inner: (Bytes, bool)): ActionHash {
    HashOf(ResultAction(e.nextAction.rollupId, inner.0, inner.1))
  }

  /** The three L2 entries of one continuation. */
  function ThreeEntries(
      callB: Action, callC: Action, ours: RollupId, inner: (Bytes, bool), delivery: (Bytes, bool)): seq<Entry>
  {
    [Entry([], HashOf(ResultAction(ours, inner.0, inner.1)), callB),
     Entry([], HashOf(Unscoped(callC)), ResultAction(callC.rollupId, inner.0, inner.1)),
     Entry([], HashOf(ResultAction(ours, inner.0, inner.1)), ResultAction(ours, delivery.0, delivery.1))]
  }

  /** Process one L1 entry: at most two lookups, then three entries. */
  function Expand(p: Progress, e: Entry, es: seq<Entry>, actions: seq<Action>): Progress {
    if !Expands(e, actions) then p else
      var found1 := Serve(es, p.served, InnerHash(e));
      var inner := ServeData(es, found1);
      var served1 := Record(p.served, InnerHash(e), found1);
      var found2 := Serve(es, served1, ScopeHash(e, inner));
      var delivery := ServeData(es, found2);
      Progress(
        Record(served1, ScopeHash(e, inner), found2),
        p.out + ThreeEntries(ConsumedAction(actions, e.actionHash).value, e.nextAction, OurRollup(es), inner, delivery))
  }

  /** After the first `n` L1 entries. */
  function Continued(es: seq<Entry>, actions: seq<Action>, n: nat): Progress
    requires n <= |es|
  {
    if n == 0 then Progress([], []) else Expand(Continued(es, actions, n - 1), es[n - 1], es, actions)
  }

  predicate HasScopeRevert(es: seq<Entry>) {
    exists i :: 0 <= i < |es| && es[i].nextAction.kind == Revert
  }

  function ContinuationEntries(es: seq<Entry>, actions: seq<Action>): seq<Entry> {
    if HasScopeRevert(es) then [] else Continued(es, actions, |es|).out
  }

  // ---- The loop ----

  function LookupEntries(m: map<ActionHash, seq<nat>>, h: ActionHash): seq<nat> {
    if h in m then m[h] else []
  }

  function PositionsOf(es: seq<Entry>, h: ActionHash): seq<nat> {
    if es == [] then [] else
      var n := |es| - 1;
      PositionsOf(es[..n], h) + if es[n].actionHash == h then [n] else []
  }

  function OnlyResults(es: seq<Entry>, positions: seq<nat>): seq<nat> {
    if positions == [] then [] else
      var n := |positions| - 1;
      OnlyResults(es, positions[..n]) +
      if positions[n] < |es| && es[positions[n]].nextAction.kind == Result then [positions[n]] else []
  }

  lemma {:induction false} OnlyResultsExtend(es: seq<Entry>, e: Entry, positions: seq<nat>)
    requires forall p :: p in positions ==> p < |es|
    ensures OnlyResults(es + [e], positions) == OnlyResults(es, positions)
  {
    if positions != [] {
      var n := |positions| - 1;
      assert positions[n] in positions;
      assert forall p :: p in positions[..n] ==> p in positions;
      OnlyResultsExtend(es, e, positions[..n]);
    }
  }

  lemma {:induction false} PositionsBelow(es: seq<Entry>, h: ActionHash)
    ensures forall p :: p in PositionsOf(es, h) ==> p < |es|
  {
    if es != [] {
      PositionsBelow(es[..|es| - 1], h);
    }
  }

  /** Filtering the entries of a hash for RESULTs, as each lookup does, gives its result positions. */
  lemma {:induction false} ResultsOfPositions(es: seq<Entry>, h: ActionHash)
    ensures OnlyResults(es, PositionsOf(es, h)) == ResultPositions(es, h)
  {
    if es != [] {
      var n := |es| - 1;
      ResultsOfPositions(es[..n], h);
      PositionsBelow(es[..n], h);
      var prior := PositionsOf(es[..n], h);
      OnlyResultsExtend(es[..n], es[n], prior);
      assert es[..n] + [es[n]] == es;
      OnlyResultsSnoc(es, prior, n);
    }
  }

  lemma OnlyResultsSnoc(es: seq<Entry>, positions: seq<nat>, p: nat)
    ensures OnlyResults(es, positions + [p]) ==
            OnlyResults(es, positions) + if p < |es| && es[p].nextAction.kind == Result then [p] else []
    ensures positions + [] == positions
  {
    assert (positions + [p])[..|positions|] == positions;
  }

  method IndexByHash(es: seq<Entry>) returns (m: map<ActionHash, seq<nat>>)
    ensures forall h :: LookupEntries(m, h) == PositionsOf(es, h)
  {
    m := map[];
    var i := 0;
    while i < |es|
      invariant 0 <= i <= |es|
      invariant forall h :: LookupEntries(m, h) == PositionsOf(es[..i], h)
    {
      assert es[..i + 1][..i] == es[..i];
      var h := es[i].actionHash;
      m := m[h := LookupEntries(m, h) + [i]];
      i := i + 1;
    }
    assert es[..i] == es;
  }

  /** The occurrence index of each hash is the number of times it was served. */
  ghost predicate Indexes(idx: Counts, served: seq<ActionHash>) {
    forall h :: Avail(idx, h) == TimesServed(served, h)
  }

  lemma RecordKeepsIndex(idx: Counts, served: seq<ActionHash>, h: ActionHash)
    requires Indexes(idx, served)
    ensures Indexes(idx[h := Avail(idx, h) + 1], served + [h])
  {
    var idx' := idx[h := Avail(idx, h) + 1];
    assert (served + [h])[..|served|] == served;
    forall g
      ensures Avail(idx', g) == TimesServed(served + [h], g)
    {
      assert Avail(idx, g) == TimesServed(served, g);
    }
  }

  /** One occurrence-aware lookup: take the next matching RESULT entry and advance the index. */
  method TakeNext(
      es: seq<Entry>, entryMap: map<ActionHash, seq<nat>>, idx: Counts, h: ActionHash, ghost served: seq<ActionHash>)
    returns (data: (Bytes, bool), idx': Counts)
    requires LookupEntries(entryMap, h) == PositionsOf(es, h)
    requires Indexes(idx, served)
    ensures data == ServeData(es, Serve(es, served, h))
    ensures Indexes(idx', Record(served, h, Serve(es, served, h)))
  {
    ResultsOfPositions(es, h);
    var matching := OnlyResults(es, LookupEntries(entryMap, h));
    assert Avail(idx, h) == TimesServed(served, h);
    if Avail(idx, h) < |matching| {
      data := ServeData(es, Some(matching[Avail(idx, h)]));
      RecordKeepsIndex(idx, served, h);
      idx' := idx[h := Avail(idx, h) + 1];
    } else {
      data := ([], false);
      idx' := idx;
    }
  }

  /** The two lookups of one continuation whose own call was consumed, and its three entries. */
  method ExpandEntry(
      es: seq<Entry>, entryMap: map<ActionHash, seq<nat>>, actions: seq<Action>, ours: RollupId, idx: Counts,
      entry: Entry, callB: Action, ghost p: Progress)
    returns (three: seq<Entry>, idx': Counts)
    requires forall h :: LookupEntries(entryMap, h) == PositionsOf(es, h)
    requires entry.nextAction.kind == Call && ConsumedAction(actions, entry.actionHash) == Some(callB)
    requires ours == OurRollup(es)
    requires Indexes(idx, p.served)
    ensures Indexes(idx', Expand(p, entry, es, actions).served)
    ensures p.out + three == Expand(p, entry, es, actions).out
  {
    var inner, idx1 := TakeNext(es, entryMap, idx, InnerHash(entry), p.served);
    ghost var served1 := Record(p.served, InnerHash(entry), Serve(es, p.served, InnerHash(entry)));
    var delivery, idx2 := TakeNext(es, entryMap, idx1, ScopeHash(entry, inner), served1);
    return ThreeEntries(callB, entry.nextAction, ours, inner, delivery), idx2;
  }

  method ReconstructContinuationL2Entries(l1Entries: seq<Entry>, callActions: seq<Action>) returns (out: seq<Entry>)
    ensures out == ContinuationEntries(l1Entries, callActions)
  {
    var actionMap := GroupByHash(callActions);
    var ours := OurRollup(l1Entries);
    var entryMap := IndexByHash(l1Entries);
    var idx: Counts := map[];
    out := [];
    if HasScopeRevert(l1Entries) {
      return;
    }
    var i := 0;
    while i < |l1Entries|
      invariant 0 <= i <= |l1Entries|
      invariant out == Continued(l1Entries, callActions, i).out
      invariant Indexes(idx, Continued(l1Entries, callActions, i).served)
    {
      var entry := l1Entries[i];
      ghost var p := Continued(l1Entries, callActions, i);
      i := i + 1;
      if entry.nextAction.kind != Call {
        continue;
      }
      var matching := Lookup(actionMap, entry.actionHash);
      if matching == [] {
        continue;
      }
      var three, idx' := ExpandEntry(l1Entries, entryMap, callActions, ours, idx, entry, matching[|matching| - 1], p);
      out := out + three;
      idx := idx';
    }
  }

  // ---- Size ----

  function Continuations(es: seq<Entry>, actions: seq<Action>, n: nat): nat
    requires n <= |es|
  {
    if n == 0 then 0 else Continuations(es, actions, n - 1) + if Expands(es[n - 1], actions) then 1 else 0
  }

  lemma {:induction false} ThreePerContinuationUpTo(es: seq<Entry>, actions: seq<Action>, n: nat)
    requires n <= |es|
    ensures |Continued(es, actions, n).out| == 3 * Continuations(es, actions, n)
  {
    if n > 0 {
      ThreePerContinuationUpTo(es, actions, n - 1);
    }
  }

  /** Three entries for each continuation whose own call was consumed; none in a revert batch. */
  lemma ThreePerContinuation(es: seq<Entry>, actions: seq<Action>)
    ensures |ContinuationEntries(es, actions)| ==
            if HasScopeRevert(es) then 0 else 3 * Continuations(es, actions, |es|)
  {
    ThreePerContinuationUpTo(es, actions, |es|);
  }

  // ---- No RESULT entry is used twice ----

  /** The L1 entry that answered the `k`-th successful lookup: its hash's next unused RESULT. */
  function ServedBy(es: seq<Entry>, served: seq<ActionHash>, k: nat): nat
    requires k < |served|
    requires TimesServed(served[..k], served[k]) < |ResultPositions(es, served[k])|
  {
    ResultPositions(es, served[k])[TimesServed(served[..k], served[k])]
  }

  /** Every recorded lookup had a RESULT entry left to take. */
  ghost predicate AllServable(es: seq<Entry>, served: seq<ActionHash>) {
    forall k :: 0 <= k < |served| ==> TimesServed(served[..k], served[k]) < |ResultPositions(es, served[k])|
  }

  lemma RecordServable(es: seq<Entry>, served: seq<ActionHash>, h: ActionHash)
    requires AllServable(es, served)
    ensures AllServable(es, Record(served, h, Serve(es, served, h)))
  {
    if Serve(es, served, h).Some? {
      var next := served + [h];
      forall k | 0 <= k < |next|
        ensures TimesServed(next[..k], next[k]) < |ResultPositions(es, next[k])|
      {
        assert next[..k] == served[..k];
        assert k == |served| ==> served[..k] == served;
      }
    }
  }

  lemma {:induction false} LookupsAreServable(es: seq<Entry>, actions: seq<Action>, n: nat)
    requires n <= |es|
    ensures AllServable(es, Continued(es, actions, n).served)
  {
    if n > 0 {
      LookupsAreServable(es, actions, n - 1);
      var p, e := Continued(es, actions, n - 1), es[n - 1];
      if Expands(e, actions) {
        RecordServable(es, p.served, InnerHash(e));
        var found1 := Serve(es, p.served, InnerHash(e));
        RecordServable(es, Record(p.served, InnerHash(e), found1), ScopeHash(e, ServeData(es, found1)));
      }
    }
  }

  lemma {:induction false} ResultPositionsIncrease(es: seq<Entry>, h: ActionHash, i: nat, j: nat)
    requires i < j < |ResultPositions(es, h)|
    ensures ResultPositions(es, h)[i] < ResultPositions(es, h)[j]
  {
    var n := |es| - 1;
    var prior := ResultPositions(es[..n], h);
    if j < |prior| {
      ResultPositionsIncrease(es[..n], h, i, j);
    } else {
      ResultPositionIsResult(es[..n], h, i);
    }
  }

  lemma {:induction false} ResultPositionIsResult(es: seq<Entry>, h: ActionHash, i: nat)
    requires i < |ResultPositions(es, h)|
    ensures ResultPositions(es, h)[i] < |es|
    ensures es[ResultPositions(es, h)[i]].actionHash == h
    ensures es[ResultPositions(es, h)[i]].nextAction.kind == Result
  {
    var n := |es| - 1;
    if i < |ResultPositions(es[..n], h)| {
      ResultPositionIsResult(es[..n], h, i);
    }
  }

  lemma {:induction false} ServedGrows(served: seq<ActionHash>, i: nat, j: nat)
    requires i < j <= |served|
    ensures TimesServed(served[..i], served[i]) < TimesServed(served[..j], served[i])
  {
    assert served[..j][..j - 1] == served[..j - 1];
    if i < j - 1 {
      ServedGrows(served, i, j - 1);
    }
  }

  /** The `j`-th successful lookup of a hash takes that hash's `j`-th RESULT entry, and no RESULT
      entry ever supplies two lookups. */
  lemma NoResultServesTwice(es: seq<Entry>, actions: seq<Action>, i: nat, j: nat)
    requires i < j < |Continued(es, actions, |es|).served|
    ensures var served := Continued(es, actions, |es|).served;
            && AllServable(es, served)
            && ServedBy(es, served, i) < |es| && ServedBy(es, served, j) < |es|
            && es[ServedBy(es, served, i)].actionHash == served[i]
            && es[ServedBy(es, served, i)].nextAction.kind == Result
            && ServedBy(es, served, i) != ServedBy(es, served, j)
  {
    var served := Continued(es, actions, |es|).served;
    LookupsAreServable(es, actions, |es|);
    ResultPositionIsResult(es, served[i], TimesServed(served[..i], served[i]));
    ResultPositionIsResult(es, served[j], TimesServed(served[..j], served[j]));
    if served[i] == served[j] {
      ServedGrows(served, i, j);
      ResultPositionsIncrease(es, served[i], TimesServed(served[..i], served[i]), TimesServed(served[..j], served[j]));
    }
  }

  // ---- What the entries hold ----

  /** A lookup for return data, and its answer. */
  datatype Query = Query(hash: ActionHash, data: Bytes, failed: bool)

  predicate IsResultFor(es: seq<Entry>, h: ActionHash, p: nat) {
    p < |es| && es[p].actionHash == h && es[p].nextAction.kind == Result
  }

  /** The positions below `n` of RESULT entries for `h`. */
  function ResultsBelow(es: seq<Entry>, h: ActionHash, n: nat): set<nat> {
    set p: nat | p < n && IsResultFor(es, h, p)
  }

  /** The earlier lookups of the same hash. */
  function SameBefore(looks: seq<Query>, x: nat): set<nat>
    requires x < |looks|
  {
    set y: nat | y < x && looks[y].hash == looks[x].hash
  }

  /** Lookup `x` is answered by the RESULT entry for its hash that has as many RESULT entries for it
      before as there were earlier lookups of it; when there are too few, by nothing. */
  ghost predicate Answered(es: seq<Entry>, looks: seq<Query>, x: nat)
    requires x < |looks|
  {
    var h := looks[x].hash;
    if |ResultsBelow(es, h, |es|)| <= |SameBefore(looks, x)| then looks[x].data == [] && !looks[x].failed
    else exists p: nat :: AnsweredBy(es, looks, x, p)
  }

  predicate AnsweredBy(es: seq<Entry>, looks: seq<Query>, x: nat, p: nat)
    requires x < |looks|
  {
    && IsResultFor(es, looks[x].hash, p)
    && |ResultsBelow(es, looks[x].hash, p)| == |SameBefore(looks, x)|
    && looks[x].data == es[p].nextAction.data && looks[x].failed == es[p].nextAction.failed
  }

  function TimesLooked(looks: seq<Query>, h: ActionHash): nat {
    if looks == [] then 0 else
      var n := |looks| - 1;
      TimesLooked(looks[..n], h) + if looks[n].hash == h then 1 else 0
  }

  lemma {:induction false} TimesAreSame(looks: seq<Query>, n: nat, h: ActionHash)
    requires n <= |looks|
    ensures TimesLooked(looks[..n], h) == |set y: nat | y < n && looks[y].hash == h|
  {
    var at := set y: nat | y < n && looks[y].hash == h;
    if n == 0 {
      assert at == {};
    } else {
      TimesAreSame(looks, n - 1, h);
      assert looks[..n][..n - 1] == looks[..n - 1];
      var prior := set y: nat | y < n - 1 && looks[y].hash == h;
      OneMoreOrSame(prior, at, n - 1);
    }
  }

  lemma {:induction false} PositionsAreBelow(es: seq<Entry>, h: ActionHash, n: nat)
    requires n <= |es|
    ensures |ResultPositions(es[..n], h)| == |ResultsBelow(es, h, n)|
  {
    if n == 0 {
      assert ResultsBelow(es, h, 0) == {};
    } else {
      PositionsAreBelow(es, h, n - 1);
      assert es[..n][..n - 1] == es[..n - 1];
      var prior := ResultsBelow(es, h, n - 1);
      OneMoreOrSame(prior, ResultsBelow(es, h, n), n - 1);
    }
  }

  /** The `u`-th result position has exactly `u` results before it. */
  lemma {:induction false} PositionRank(es: seq<Entry>, h: ActionHash, n: nat, u: nat)
    requires n <= |es| && u < |ResultPositions(es[..n], h)|
    ensures var p := ResultPositions(es[..n], h)[u];
            p < n && IsResultFor(es, h, p) && |ResultsBelow(es, h, p)| == u
  {
    assert es[..n][..n - 1] == es[..n - 1];
    if u < |ResultPositions(es[..n - 1], h)| {
      PositionRank(es, h, n - 1, u);
    } else {
      PositionsAreBelow(es, h, n - 1);
    }
  }

  /** The lookups made so far have served as often as there were results to serve. */
  ghost predicate LookedUp(es: seq<Entry>, served: seq<ActionHash>, looks: seq<Query>) {
    forall h :: TimesServed(served, h) == Min(TimesLooked(looks, h), |ResultPositions(es, h)|)
  }

  ghost predicate AllAnswered(es: seq<Entry>, looks: seq<Query>) {
    forall x :: 0 <= x < |looks| ==> Answered(es, looks, x)
  }

  /** One more lookup, answered from what was served before. */
  function LookFor(es: seq<Entry>, served: seq<ActionHash>, h: ActionHash): Query {
    var data := ServeData(es, Serve(es, served, h));
    Query(h, data.0, data.1)
  }

  lemma LookServes(es: seq<Entry>, served: seq<ActionHash>, looks: seq<Query>, h: ActionHash)
    requires LookedUp(es, served, looks)
    ensures LookedUp(es, Record(served, h, Serve(es, served, h)), looks + [LookFor(es, served, h)])
  {
    var next := looks + [LookFor(es, served, h)];
    assert next[..|looks|] == looks;
    assert TimesServed(served, h) == Min(TimesLooked(looks, h), |ResultPositions(es, h)|);
    forall g
      ensures TimesServed(Record(served, h, Serve(es, served, h)), g)
              == Min(TimesLooked(next, g), |ResultPositions(es, g)|)
    {
      assert TimesServed(served, g) == Min(TimesLooked(looks, g), |ResultPositions(es, g)|);
      assert (served + [h])[..|served|] == served;
    }
  }

  lemma AnsweredStays(es: seq<Entry>, looks: seq<Query>, look: Query, x: nat)
    requires x < |looks| && Answered(es, looks, x)
    ensures Answered(es, looks + [look], x)
  {
    var next := looks + [look];
    assert SameBefore(next, x) == SameBefore(looks, x);
    if p: nat :| AnsweredBy(es, looks, x, p) {
      assert AnsweredBy(es, next, x, p);
    }
  }

  lemma NewLookIsAnswered(es: seq<Entry>, served: seq<ActionHash>, looks: seq<Query>, h: ActionHash)
    requires LookedUp(es, served, looks)
    ensures Answered(es, looks + [LookFor(es, served, h)], |looks|)
  {
    var next, x := looks + [LookFor(es, served, h)], |looks|;
    TimesAreSame(next, x, h);
    assert next[..x] == looks && es[..|es|] == es;
    PositionsAreBelow(es, h, |es|);
    assert TimesServed(served, h) == Min(TimesLooked(looks, h), |ResultPositions(es, h)|);
    var same := set y: nat | y < x && next[y].hash == h;
    assert same == SameBefore(next, x);
    if TimesLooked(looks, h) < |ResultPositions(es, h)| {
      PositionRank(es, h, |es|, TimesLooked(looks, h));
      assert AnsweredBy(es, next, x, ResultPositions(es, h)[TimesLooked(looks, h)]);
    }
  }

  lemma LookIsAnswered(es: seq<Entry>, served: seq<ActionHash>, looks: seq<Query>, h: ActionHash)
    requires LookedUp(es, served, looks) && AllAnswered(es, looks)
    ensures AllAnswered(es, looks + [LookFor(es, served, h)])
  {
    NewLookIsAnswered(es, served, looks, h);
    forall y | 0 <= y < |looks|
      ensures Answered(es, looks + [LookFor(es, served, h)], y)
    {
      AnsweredStays(es, looks, LookFor(es, served, h), y);
    }
  }

  /** The lookups of the first `n` entries: two for each continuation that expands. */
  function Lookups(es: seq<Entry>, actions: seq<Action>, n: nat): seq<Query>
    requires n <= |es|
  {
    if n == 0 then [] else
      var prior := Lookups(es, actions, n - 1);
      var served, e := Continued(es, actions, n - 1).served, es[n - 1];
      if !Expands(e, actions) then prior else
        var first := LookFor(es, served, InnerHash(e));
        var served1 := Record(served, InnerHash(e), Serve(es, served, InnerHash(e)));
        prior + [first, LookFor(es, served1, ScopeHash(e, (first.data, first.failed)))]
  }

  lemma {:induction false} LookupsAreAnswered(es: seq<Entry>, actions: seq<Action>, n: nat)
    requires n <= |es|
    ensures LookedUp(es, Continued(es, actions, n).served, Lookups(es, actions, n))
    ensures AllAnswered(es, Lookups(es, actions, n))
  {
    if n > 0 {
      LookupsAreAnswered(es, actions, n - 1);
      if Expands(es[n - 1], actions) {
        TwoLooks(es, Continued(es, actions, n - 1).served, Lookups(es, actions, n - 1), es[n - 1]);
      }
    }
  }

  lemma TwoLooks(es: seq<Entry>, served: seq<ActionHash>, looks: seq<Query>, e: Entry)
    requires LookedUp(es, served, looks) && AllAnswered(es, looks)
    ensures var first := LookFor(es, served, InnerHash(e));
            var served1 := Record(served, InnerHash(e), Serve(es, served, InnerHash(e)));
            var h2 := ScopeHash(e, (first.data, first.failed));
            && LookedUp(es, Record(served1, h2, Serve(es, served1, h2)), looks + [first, LookFor(es, served1, h2)])
            && AllAnswered(es, looks + [first, LookFor(es, served1, h2)])
  {
    var first := LookFor(es, served, InnerHash(e));
    var served1 := Record(served, InnerHash(e), Serve(es, served, InnerHash(e)));
    var h2 := ScopeHash(e, (first.data, first.failed));
    LookServes(es, served, looks, InnerHash(e));
    LookIsAnswered(es, served, looks, InnerHash(e));
    LookServes(es, served1, looks + [first], h2);
    LookIsAnswered(es, served1, looks + [first], h2);
    assert looks + [first] + [LookFor(es, served1, h2)] == looks + [first, LookFor(es, served1, h2)];
  }

  /** The consumed action `a` is what the hash of L1 entry `k`, a continuation, stands for. */
  predicate Continues(es: seq<Entry>, actions: seq<Action>, k: nat) {
    k < |es| && es[k].nextAction.kind == Call && es[k].actionHash.OfAction? && es[k].actionHash.action in actions
  }

  /** The continuations before entry `n` whose call was consumed. */
  function ContinuesBelow(es: seq<Entry>, actions: seq<Action>, n: nat): set<nat> {
    set k: nat | k < n && Continues(es, actions, k)
  }

  lemma ExpandsIff(es: seq<Entry>, actions: seq<Action>, k: nat)
    requires k < |es|
    ensures Expands(es[k], actions) <==> Continues(es, actions, k)
    ensures Expands(es[k], actions) ==> ConsumedAction(actions, es[k].actionHash) == Some(es[k].actionHash.action)
  {
    ActionsWithHashAreCopies(actions, es[k].actionHash);
    if es[k].actionHash.OfAction? {
      CountPositive(actions, es[k].actionHash.action);
    }
  }

  lemma {:induction false} TraceLengths(es: seq<Entry>, actions: seq<Action>, n: nat)
    requires n <= |es|
    ensures |Lookups(es, actions, n)| == 2 * |ContinuesBelow(es, actions, n)|
    ensures |Continued(es, actions, n).out| == 3 * |ContinuesBelow(es, actions, n)|
  {
    if n == 0 {
      assert ContinuesBelow(es, actions, 0) == {};
    } else {
      TraceLengths(es, actions, n - 1);
      ExpandsIff(es, actions, n - 1);
      var prior := ContinuesBelow(es, actions, n - 1);
      OneMoreOrSame(prior, ContinuesBelow(es, actions, n), n - 1);
    }
  }

  lemma {:induction false} TraceGrows(es: seq<Entry>, actions: seq<Action>, m: nat, n: nat)
    requires m <= n <= |es|
    ensures Lookups(es, actions, m) <= Lookups(es, actions, n)
    ensures Continued(es, actions, m).out <= Continued(es, actions, n).out
  {
    if m < n {
      TraceGrows(es, actions, m, n - 1);
    }
  }

  /** The rollup a batch belongs to: that of its first delta not of mainnet, or 1. */
  ghost predicate NamesOurs(es: seq<Entry>, ours: RollupId) {
    || (exists i: nat, j: nat :: FirstForeign(es, i, j) && es[i].stateDeltas[j].rollupId == ours)
    || (ours == 1 && forall i: nat, j: nat :: HasDelta(es, i, j) ==> es[i].stateDeltas[j].rollupId == 0)
  }

  predicate HasDelta(es: seq<Entry>, i: nat, j: nat) {
    i < |es| && j < |es[i].stateDeltas|
  }

  /** Delta `j` of entry `i` is not of mainnet, and all before it are. */
  ghost predicate FirstForeign(es: seq<Entry>, i: nat, j: nat) {
    && HasDelta(es, i, j) && es[i].stateDeltas[j].rollupId != 0
    && forall x: nat, y: nat ::
         HasDelta(es, x, y) && (x < i || (x == i && y < j)) ==> es[x].stateDeltas[y].rollupId == 0
  }

  lemma {:induction false} FirstInDeltas(ds: seq<StateDelta>) returns (j: nat)
    ensures j <= |ds| && (forall y :: 0 <= y < j ==> ds[y].rollupId == 0)
    ensures FirstRollupIn(ds) == if j < |ds| then Some(ds[j].rollupId) else None
    ensures j < |ds| ==> ds[j].rollupId != 0
  {
    if ds == [] || ds[0].rollupId != MAINNET {
      j := 0;
    } else {
      j := FirstInDeltas(ds[1..]);
      j := j + 1;
      assert forall y :: 0 < y < j ==> ds[y] == ds[1..][y - 1];
    }
  }

  lemma {:induction false} FirstInEntries(es: seq<Entry>) returns (i: nat, j: nat)
    ensures FirstRollup(es).Some? ==> FirstForeign(es, i, j) && es[i].stateDeltas[j].rollupId == FirstRollup(es).value
    ensures FirstRollup(es).None? ==>
              forall x: nat, y: nat :: HasDelta(es, x, y) ==> es[x].stateDeltas[y].rollupId == 0
  {
    i, j := 0, 0;
    if es != [] {
      j := FirstInDeltas(es[0].stateDeltas);
      if j == |es[0].stateDeltas| {
        i, j := FirstInEntries(es[1..]);
        i := i + 1;
        assert forall x :: 0 < x < |es| ==> es[x] == es[1..][x - 1];
        assert forall x: nat, y: nat :: x > 0 && HasDelta(es, x, y) ==> HasDelta(es[1..], x - 1, y);
      }
    }
  }

  lemma OursIsNamed(es: seq<Entry>)
    ensures NamesOurs(es, OurRollup(es))
  {
    var i, j := FirstInEntries(es);
  }

  /** The three entries of a continuation, spelled out. With `c` the call it continues with, the `q`-th
      continuation makes the lookups `2q` and `2q + 1`: first of the hash of `c` at the root scope, then
      of the hash of the RESULT that carries the first answer. The first entry leads from that RESULT,
      addressed to our rollup, to the consumed call; the second answers `c` with the first lookup's
      data, not the second's; the third ends the first entry's RESULT with the second lookup's data. */
  lemma ContinuationHolds(es: seq<Entry>, actions: seq<Action>, n: nat)
    returns (looks: seq<Query>, ours: RollupId)
    requires forall i :: 0 <= i < |es| ==> es[i].nextAction.kind != Revert
    requires Continues(es, actions, n)
    ensures NamesOurs(es, ours) && AllAnswered(es, looks)
    ensures |looks| == 2 * |ContinuesBelow(es, actions, |es|)|
    ensures var q, c, out := |ContinuesBelow(es, actions, n)|, es[n].nextAction, ContinuationEntries(es, actions);
            && 2 * q + 1 < |looks| && 3 * q + 2 < |out|
            && var first, second := looks[2 * q], looks[2 * q + 1];
               && first.hash == HashOf(Action(Call, c.rollupId, c.destination, c.value, c.data, c.failed,
                                              c.sourceAddress, c.sourceRollup, []))
               && second.hash == HashOf(Action(Result, c.rollupId, 0, 0, first.data, first.failed, 0, 0, []))
               && var enter := HashOf(Action(Result, ours, 0, 0, first.data, first.failed, 0, 0, []));
                  && out[3 * q] == Entry([], enter, es[n].actionHash.action)
                  && out[3 * q + 1] == Entry([], first.hash,
                                             Action(Result, c.rollupId, 0, 0, first.data, first.failed, 0, 0, []))
                  && out[3 * q + 2] == Entry([], enter,
                                             Action(Result, ours, 0, 0, second.data, second.failed, 0, 0, []))
  {
    ours := OurRollup(es);
    OursIsNamed(es);
    looks := Lookups(es, actions, |es|);
    LookupsAreAnswered(es, actions, |es|);
    TraceLengths(es, actions, |es|);
    ContinuationHoldsAt(es, actions, n);
    TraceGrows(es, actions, n + 1, |es|);
    SamePositions(es, actions, n);
  }

  lemma SamePositions(es: seq<Entry>, actions: seq<Action>, n: nat)
    requires n < |es|
    requires Lookups(es, actions, n + 1) <= Lookups(es, actions, |es|)
    requires Continued(es, actions, n + 1).out <= Continued(es, actions, |es|).out
    ensures forall x :: 0 <= x < |Lookups(es, actions, n + 1)| ==>
              Lookups(es, actions, |es|)[x] == Lookups(es, actions, n + 1)[x]
    ensures forall x :: 0 <= x < |Continued(es, actions, n + 1).out| ==>
              Continued(es, actions, |es|).out[x] == Continued(es, actions, n + 1).out[x]
  {
  }

  lemma ContinuationHoldsAt(es: seq<Entry>, actions: seq<Action>, n: nat)
    requires Continues(es, actions, n)
    ensures var q, c := |ContinuesBelow(es, actions, n)|, es[n].nextAction;
            var looks, out := Lookups(es, actions, n + 1), Continued(es, actions, n + 1).out;
            && |looks| == 2 * q + 2 && |out| == 3 * q + 3
            && var first, second := looks[2 * q], looks[2 * q + 1];
               && first.hash == HashOf(c.(scope := []))
               && second.hash == HashOf(ResultAction(c.rollupId, first.data, first.failed))
               && var enter := HashOf(ResultAction(OurRollup(es), first.data, first.failed));
                  && out[3 * q] == Entry([], enter, es[n].actionHash.action)
                  && out[3 * q + 1] == Entry([], first.hash, ResultAction(c.rollupId, first.data, first.failed))
                  && out[3 * q + 2] == Entry([], enter, ResultAction(OurRollup(es), second.data, second.failed))
  {
    TraceLengths(es, actions, n);
    ExpandsIff(es, actions, n);
  }

  // ---- Order independence ----

  lemma {:induction false} ContinuedIgnoresOrder(es: seq<Entry>, a: seq<Action>, b: seq<Action>, n: nat)
    requires multiset(a) == multiset(b)
    requires n <= |es|
    ensures Continued(es, a, n) == Continued(es, b, n)
  {
    if n > 0 {
      ContinuedIgnoresOrder(es, a, b, n - 1);
      PermutedLookups(a, b, es[n - 1].actionHash);
    }
  }

  /** Continuation entries do not depend on the order in which consumed actions are listed. */
  lemma ContinuationsIgnoreActionOrder(es: seq<Entry>, a: seq<Action>, b: seq<Action>)
    requires multiset(a) == multiset(b)
    ensures ContinuationEntries(es, a) == ContinuationEntries(es, b)
  {
    ContinuedIgnoresOrder(es, a, b, |es|);
  }

  // ---- Table and trigger entries ----

  predicate IsTriggerEntry(e: Entry, ours: RollupId) {
    e.nextAction.kind == Call && e.nextAction.rollupId == ours && HashOf(e.nextAction) == e.actionHash
  }

  function TableEntries(es: seq<Entry>, ours: RollupId): seq<Entry> {
    if es == [] then [] else
      var n := |es| - 1;
      TableEntries(es[..n], ours) + if IsTriggerEntry(es[n], ours) then [] else [es[n]]
  }

  function TriggerEntries(es: seq<Entry>, ours: RollupId): seq<Entry> {
    if es == [] then [] else
      var n := |es| - 1;
      TriggerEntries(es[..n], ours) + if IsTriggerEntry(es[n], ours) then [es[n]] else []
  }

  method PartitionEntries(es: seq<Entry>, ours: RollupId) returns (table: seq<Entry>, triggers: seq<Entry>)
    ensures table == TableEntries(es, ours) && triggers == TriggerEntries(es, ours)
  {
    table, triggers := [], [];
    var i := 0;
    while i < |es|
      invariant 0 <= i <= |es|
      invariant table == TableEntries(es[..i], ours)
      invariant triggers == TriggerEntries(es[..i], ours)
    {
      assert es[..i + 1][..i] == es[..i];
      var isCallToUs := es[i].nextAction.kind == Call && es[i].nextAction.rollupId == ours;
      var nextHash := HashOf(es[i].nextAction);
      if isCallToUs && nextHash == es[i].actionHash {
        triggers := triggers + [es[i]];
      } else {
        table := table + [es[i]];
      }
      i := i + 1;
    }
    assert es[..i] == es;
  }

  lemma {:induction false} TableAppend(a: seq<Entry>, b: seq<Entry>, ours: RollupId)
    ensures TableEntries(a + b, ours) == TableEntries(a, ours) + TableEntries(b, ours)
  {
    if b == [] {
      assert a + b == a;
    } else {
      var n := |b| - 1;
      TableAppend(a, b[..n], ours);
      assert (a + b)[..|a + b| - 1] == a + b[..n];
    }
  }

  lemma {:induction false} TriggersAppend(a: seq<Entry>, b: seq<Entry>, ours: RollupId)
    ensures TriggerEntries(a + b, ours) == TriggerEntries(a, ours) + TriggerEntries(b, ours)
  {
    if b == [] {
      assert a + b == a;
    } else {
      var n := |b| - 1;
      TriggersAppend(a, b[..n], ours);
      assert (a + b)[..|a + b| - 1] == a + b[..n];
    }
  }

  /** Partitioning keeps the order and loses nothing: splitting the entries anywhere splits both parts,
      and one entry goes to the triggers exactly when it is a CALL to us under its own hash. */
  lemma PartitionSplits(a: seq<Entry>, b: seq<Entry>, e: Entry, ours: RollupId)
    ensures TableEntries(a + b, ours) == TableEntries(a, ours) + TableEntries(b, ours)
    ensures TriggerEntries(a + b, ours) == TriggerEntries(a, ours) + TriggerEntries(b, ours)
    ensures var ourCall :=
              e.nextAction.kind == Call && e.nextAction.rollupId == ours && e.actionHash == OfAction(e.nextAction);
            TriggerEntries([e], ours) == (if ourCall then [e] else [])
            && TableEntries([e], ours) == if ourCall then [] else [e]
  {
    TableAppend(a, b, ours);
    TriggersAppend(a, b, ours);
    assert [e][..0] == [];
  }

  ghost predicate NoTriggers(es: seq<Entry>, ours: RollupId) {
    forall i :: 0 <= i < |es| ==> !IsTriggerEntry(es[i], ours)
  }

  lemma {:induction false} NoTriggersAllTable(es: seq<Entry>, ours: RollupId)
    requires NoTriggers(es, ours)
    ensures TriggerEntries(es, ours) == [] && TableEntries(es, ours) == es
  {
    if es != [] {
      var n := |es| - 1;
      NoTriggersAllTable(es[..n], ours);
      assert es == es[..n] + [es[n]];
    }
  }

  lemma {:induction false} ContinuedHasNoTriggers(es: seq<Entry>, actions: seq<Action>, ours: RollupId, n: nat)
    requires n <= |es|
    ensures NoTriggers(Continued(es, actions, n).out, ours)
  {
    if n > 0 {
      ContinuedHasNoTriggers(es, actions, ours, n - 1);
    }
  }

  /** Whatever rollup asks, every reconstructed continuation entry is a table entry: none triggers. */
  lemma ContinuationsAreTableEntries(es: seq<Entry>, actions: seq<Action>, ours: RollupId)
    ensures TriggerEntries(ContinuationEntries(es, actions), ours) == []
    ensures TableEntries(ContinuationEntries(es, actions), ours) == ContinuationEntries(es, actions)
  {
    ContinuedHasNoTriggers(es, actions, ours, |es|);
    NoTriggersAllTable(ContinuationEntries(es, actions), ours);
  }

  /** Of the builder's entries exactly the CALL entries aimed at `ours` trigger. */
  lemma BuilderCallsTrigger(calls: seq<CallSpec>, roots: seq<Root>, rollupId: U64, ours: RollupId, i: nat)
    requires |roots| == |calls| + 1 && i < |calls|
    ensures |BuilderEntries(calls, roots, rollupId)| == 2 * |calls|
    ensures IsTriggerEntry(BuilderEntries(calls, roots, rollupId)[2 * i], ours) <==> calls[i].rollupId == ours
    ensures !IsTriggerEntry(BuilderEntries(calls, roots, rollupId)[2 * i + 1], ours)
  {
    BuilderPairsAt(calls, i);
    ChainedAt(BuilderPairs(calls), roots, rollupId, i);
  }
}
