/** The builder's L2 pairs, their L1 form, and the fullnode's reconstruction (cross_chain.rs). */
module EntryConversion {
  import opened Collections
  import opened MachineInts
  import opened CrossChain
  import opened Consumption

  // ---- Builder: one [CALL, RESULT] pair per cross-chain call ----

  datatype CallSpec = CallSpec(
    rollupId: RollupId,
    destination: Address,
    data: Bytes,
    value: U256,
    sourceAddress: Address,
    sourceRollup: RollupId,
    success: bool,
    returnData: Bytes)

  function CallActionOf(c: CallSpec): Action {
    Action(Call, c.rollupId, c.destination, c.value, c.data, false, c.sourceAddress, c.sourceRollup, [])
  }

  function ResultActionOf(c: CallSpec): Action {
    ResultAction(c.rollupId, c.returnData, !c.success)
  }

  function BuildCrossChainCallEntries(c: CallSpec): (Entry, Entry) {
    (Entry([], HashOf(CallActionOf(c)), CallActionOf(c)), Entry([], HashOf(ResultActionOf(c)), ResultActionOf(c)))
  }

  function BuilderPairs(calls: seq<CallSpec>): seq<Entry> {
    if calls == [] then [] else
      var (call, result) := BuildCrossChainCallEntries(calls[|calls| - 1]);
      BuilderPairs(calls[..|calls| - 1]) + [call, result]
  }

  /** The delta `roots[i] -> roots[i + 1]` that pair `i` carries on its CALL entry. */
  function ChainDelta(es: seq<Entry>, roots: seq<Root>, rollupId: U64, i: nat): StateDelta
    requires |roots| == |es| / 2 + 1 && i < |es| / 2
  {
    StateDelta(rollupId, roots[i], roots[i + 1], ToI256OrZero(es[2 * i].nextAction.value))
  }

  function Chained(es: seq<Entry>, roots: seq<Root>, rollupId: U64): seq<Entry>
    requires |roots| == |es| / 2 + 1
  {
    seq(|es|, j requires 0 <= j < |es| =>
      if j % 2 == 0 && j / 2 < |es| / 2
      then es[j].(stateDeltas := [ChainDelta(es, roots, rollupId, j / 2)])
      else es[j])
  }

  /** Written in place; the root count is asserted by the source. */
  method AttachChainedStateDeltas(entries: array<Entry>, roots: seq<Root>, rollupId: U64)
    requires |roots| == entries.Length / 2 + 1
    modifies entries
    ensures entries[..] == Chained(old(entries[..]), roots, rollupId)
    ensures forall i :: 0 <= i < entries.Length / 2 ==>
              var before := old(entries[2 * i]);
              entries[2 * i] == before.(stateDeltas := [StateDelta(
                                  rollupId, roots[i], roots[i + 1], ToI256OrZero(before.nextAction.value))])
    ensures forall j :: 0 <= j < entries.Length && (j % 2 == 1 || j == entries.Length - 1) ==>
              entries[j] == old(entries[j])
  {
    var pairs := entries.Length / 2;
    ghost var before := entries[..];
    ghost var goal := Chained(before, roots, rollupId);
    var i := 0;
    while i < pairs
      invariant 0 <= i <= pairs
      invariant forall j :: 0 <= j < entries.Length ==> entries[j] == if j < 2 * i then goal[j] else before[j]
    {
      ChainedAt(before, roots, rollupId, i);
      var at := i * 2;
      var callValue := entries[at].nextAction.value;
      entries[at] := entries[at].(
        stateDeltas := [StateDelta(rollupId, roots[i], roots[i + 1], ToI256OrZero(callValue))]);
      i := i + 1;
    }
  }

  // ---- L1 form ----

  /** `chunks(2)`: a trailing half pair is dropped. */
  function ConvertPairsToL1Entries(es: seq<Entry>): seq<Entry> {
    seq(|es| / 2, i requires 0 <= i < |es| / 2 =>
      Entry(es[2 * i].stateDeltas, es[2 * i].actionHash, es[2 * i + 1].nextAction))
  }

  /** What the builder posts: the L1 form of its chained pairs. */
  function PostedEntries(calls: seq<CallSpec>, roots: seq<Root>, rollupId: U64): (posted: seq<Entry>)
    requires |roots| == |calls| + 1
    ensures |posted| == |calls|
  {
    BuilderPairsLength(calls);
    ConvertPairsToL1Entries(Chained(BuilderPairs(calls), roots, rollupId))
  }

  lemma {:induction false} BuilderPairsLength(calls: seq<CallSpec>)
    ensures |BuilderPairs(calls)| == 2 * |calls|
  {
    if calls != [] {
      BuilderPairsLength(calls[..|calls| - 1]);
    }
  }

  lemma {:induction false} BuilderPairsAt(calls: seq<CallSpec>, i: nat)
    requires i < |calls|
    ensures |BuilderPairs(calls)| == 2 * |calls|
    ensures BuilderPairs(calls)[2 * i] == BuildCrossChainCallEntries(calls[i]).0
    ensures BuilderPairs(calls)[2 * i + 1] == BuildCrossChainCallEntries(calls[i]).1
  {
    BuilderPairsLength(calls);
    BuilderPairsLength(calls[..|calls| - 1]);
    if i < |calls| - 1 {
      BuilderPairsAt(calls[..|calls| - 1], i);
    }
  }

  lemma ChainedAt(es: seq<Entry>, roots: seq<Root>, rollupId: U64, i: nat)
    requires |roots| == |es| / 2 + 1 && i < |es| / 2
    ensures |Chained(es, roots, rollupId)| == |es|
    ensures Chained(es, roots, rollupId)[2 * i] == es[2 * i].(stateDeltas := [ChainDelta(es, roots, rollupId, i)])
    ensures Chained(es, roots, rollupId)[2 * i + 1] == es[2 * i + 1]
  {
    var even, odd := 2 * i, 2 * i + 1;
    assert even % 2 == 0 && even / 2 == i && odd % 2 == 1;
  }

  /** Posted entry `i` names call `i` by hash, answers with its result, and moves the root one link
      along the chain while depositing the call's value when that fits a signed 256-bit integer. */
  lemma PostedEntryAt(calls: seq<CallSpec>, roots: seq<Root>, rollupId: U64, i: nat)
    requires |roots| == |calls| + 1 && i < |calls|
    ensures var c := calls[i];
            PostedEntries(calls, roots, rollupId)[i] == Entry(
              [StateDelta(rollupId, roots[i], roots[i + 1], if c.value < TWO_TO_255 then c.value else 0)],
              HashOf(Action(Call, c.rollupId, c.destination, c.value, c.data, false, c.sourceAddress, c.sourceRollup,
                            [])),
              Action(Result, c.rollupId, 0, 0, c.returnData, !c.success, 0, 0, []))
  {
    BuilderPairsAt(calls, i);
    ChainedAt(BuilderPairs(calls), roots, rollupId, i);
    ConvertedAt(Chained(BuilderPairs(calls), roots, rollupId), i);
  }

  lemma ConvertedAt(es: seq<Entry>, i: nat)
    requires i < |es| / 2
    ensures |ConvertPairsToL1Entries(es)| == |es| / 2
    ensures ConvertPairsToL1Entries(es)[i] ==
            Entry(es[2 * i].stateDeltas, es[2 * i].actionHash, es[2 * i + 1].nextAction)
  {
  }

  // ---- Fullnode: L1 entries and consumed actions back to L2 pairs ----

  /** The consumed actions with hash `h`, in order of arrival. */
  function ActionsWithHash(actions: seq<Action>, h: ActionHash): seq<Action> {
    if actions == [] then [] else
      var a := actions[|actions| - 1];
      ActionsWithHash(actions[..|actions| - 1], h) + if HashOf(a) == h then [a] else []
  }

  /** Neither a continuation nor part of a scope revert. */
  predicate Pairable(e: Entry) {
    e.nextAction.kind != Call && !IsRevertKind(e.nextAction)
  }

  predicate HasContinuation(es: seq<Entry>) {
    exists i :: 0 <= i < |es| && es[i].nextAction.kind == Call
  }

  function PairablesWith(es: seq<Entry>, h: ActionHash): nat {
    if es == [] then 0 else
      var e := es[|es| - 1];
      PairablesWith(es[..|es| - 1], h) + if Pairable(e) && e.actionHash == h then 1 else 0
  }

  /** What one L1 entry contributes, when `prior` pairable entries with its hash came before. */
  function ConvertOne(e: Entry, prior: nat, actions: seq<Action>, continuations: bool): seq<Entry> {
    if !Pairable(e) then [] else
      var matching := ActionsWithHash(actions, e.actionHash);
      if prior < |matching| then
        if continuations && matching[prior].kind != Call then [] else
          [Entry(e.stateDeltas, e.actionHash, matching[prior])] +
          if continuations then [] else [Entry([], HashOf(e.nextAction), e.nextAction)]
      else [e]
  }

  function ConvertPrefix(es: seq<Entry>, actions: seq<Action>, continuations: bool): seq<Entry> {
    if es == [] then [] else
      var n := |es| - 1;
      ConvertPrefix(es[..n], actions, continuations) +
      ConvertOne(es[n], PairablesWith(es[..n], es[n].actionHash), actions, continuations)
  }

  function L2Pairs(es: seq<Entry>, actions: seq<Action>): seq<Entry> {
    ConvertPrefix(es, actions, HasContinuation(es))
  }

  function Lookup(m: map<ActionHash, seq<Action>>, h: ActionHash): seq<Action> {
    if h in m then m[h] else []
  }

  method GroupByHash(actions: seq<Action>) returns (m: map<ActionHash, seq<Action>>)
    ensures forall h :: Lookup(m, h) == ActionsWithHash(actions, h)
  {
    m := map[];
    var i := 0;
    while i < |actions|
      invariant 0 <= i <= |actions|
      invariant forall h :: Lookup(m, h) == ActionsWithHash(actions[..i], h)
    {
      assert actions[..i + 1][..i] == actions[..i];
      var h := HashOf(actions[i]);
      m := m[h := Lookup(m, h) + [actions[i]]];
      i := i + 1;
    }
    assert actions[..i] == actions;
  }

  /** The index map holds, per hash, the pairable entries seen so far, capped at the number of
      matching actions. */
  ghost predicate IndexCapped(consumedIdx: map<ActionHash, nat>, es: seq<Entry>, actions: seq<Action>) {
    forall h :: Avail(consumedIdx, h) == Min(PairablesWith(es, h), |ActionsWithHash(actions, h)|)
  }

  lemma ConvertStep(
      es: seq<Entry>, actions: seq<Action>, continuations: bool, i: nat, consumedIdx: map<ActionHash, nat>)
    requires i < |es|
    requires IndexCapped(consumedIdx, es[..i], actions)
    ensures var h := es[i].actionHash;
            var idx := Avail(consumedIdx, h);
            && ConvertPrefix(es[..i + 1], actions, continuations) ==
               ConvertPrefix(es[..i], actions, continuations) + ConvertOne(es[i], idx, actions, continuations)
            && (if Pairable(es[i]) && idx < |ActionsWithHash(actions, h)|
                then IndexCapped(consumedIdx[h := idx + 1], es[..i + 1], actions)
                else IndexCapped(consumedIdx, es[..i + 1], actions))
  {
    assert es[..i + 1][..i] == es[..i];
    var h := es[i].actionHash;
    assert Avail(consumedIdx, h) == Min(PairablesWith(es[..i], h), |ActionsWithHash(actions, h)|);
  }

  /** The occurrence-indexed loop computes the stateless `L2Pairs`. */
  method ConvertL1EntriesToL2Pairs(l1Entries: seq<Entry>, callActions: seq<Action>) returns (result: seq<Entry>)
    ensures result == L2Pairs(l1Entries, callActions)
  {
    var actionMap := GroupByHash(callActions);
    var consumedIdx: map<ActionHash, nat> := map[];
    var hasContinuations := HasContinuation(l1Entries);
    result := [];
    var i := 0;
    while i < |l1Entries|
      invariant 0 <= i <= |l1Entries|
      invariant result == ConvertPrefix(l1Entries[..i], callActions, hasContinuations)
      invariant IndexCapped(consumedIdx, l1Entries[..i], callActions)
    {
      var entry := l1Entries[i];
      ConvertStep(l1Entries, callActions, hasContinuations, i, consumedIdx);
      i := i + 1;
      if entry.nextAction.kind == Call {
        continue;
      }
      if IsRevertKind(entry.nextAction) {
        continue;
      }
      var matching := Lookup(actionMap, entry.actionHash);
      var idx := Avail(consumedIdx, entry.actionHash);
      if idx < |matching| {
        consumedIdx := consumedIdx[entry.actionHash := idx + 1];
        if hasContinuations && matching[idx].kind != Call {
          continue;
        }
        var callEntry := Entry(entry.stateDeltas, entry.actionHash, matching[idx]);
        var resultEntry := Entry([], HashOf(entry.nextAction), entry.nextAction);
        result := result + ([callEntry] + if hasContinuations then [] else [resultEntry]);
      } else {
        result := result + [entry];
      }
    }
    assert l1Entries[..i] == l1Entries;
  }

  // ---- What the conversion holds ----

  /** An entry that has an L2 counterpart of its own: it neither continues with a call nor reverts. */
  predicate Answers(es: seq<Entry>, k: nat) {
    k < |es| && es[k].nextAction.kind !in {Call, Revert, RevertContinue}
  }

  /** The answering entries before `n` with the same hash. */
  function SameHashBelow(es: seq<Entry>, n: nat, h: ActionHash): set<nat> {
    set k: nat | k < n && Answers(es, k) && es[k].actionHash == h
  }

  /** The consumed actions with hash `h`. */
  function ConsumedWith(actions: seq<Action>, n: nat, h: ActionHash): set<nat> {
    set x: nat | x < n && x < |actions| && HashOf(actions[x]) == h
  }

  ghost predicate AnyContinues(es: seq<Entry>) {
    exists k: nat :: k < |es| && es[k].nextAction.kind == Call
  }

  /** What entry `n` becomes. A continuation or revert entry becomes nothing here. An entry is passed
      on as it is when fewer actions with its hash were consumed than entries came before it. Otherwise
      it becomes its CALL entry, which keeps its deltas, and its RESULT entry, which has none. In a
      batch with continuations there is no RESULT entry, and nothing at all when the consumed action is
      no CALL. */
  ghost predicate Becomes(es: seq<Entry>, actions: seq<Action>, n: nat, part: seq<Entry>)
    requires n < |es|
  {
    var e := es[n];
    if !Answers(es, n) then part == []
    else if |ConsumedWith(actions, |actions|, e.actionHash)| <= |SameHashBelow(es, n, e.actionHash)| then part == [e]
    else
      && e.actionHash.OfAction?
      && var call := Entry(e.stateDeltas, e.actionHash, e.actionHash.action);
         if !AnyContinues(es) then part == [call, Entry([], HashOf(e.nextAction), e.nextAction)]
         else if e.actionHash.action.kind == Call then part == [call]
         else part == []
  }

  lemma {:induction false} PairablesAreBelow(es: seq<Entry>, n: nat, h: ActionHash)
    requires n <= |es|
    ensures PairablesWith(es[..n], h) == |SameHashBelow(es, n, h)|
  {
    if n == 0 {
      assert SameHashBelow(es, 0, h) == {};
    } else {
      PairablesAreBelow(es, n - 1, h);
      assert es[..n][..n - 1] == es[..n - 1];
      OneMoreOrSame(SameHashBelow(es, n - 1, h), SameHashBelow(es, n, h), n - 1);
    }
  }

  lemma {:induction false} MatchesAreConsumed(actions: seq<Action>, n: nat, h: ActionHash)
    requires n <= |actions|
    ensures |ActionsWithHash(actions[..n], h)| == |ConsumedWith(actions, n, h)|
  {
    if n == 0 {
      assert ConsumedWith(actions, 0, h) == {};
    } else {
      MatchesAreConsumed(actions, n - 1, h);
      assert actions[..n][..n - 1] == actions[..n - 1];
      OneMoreOrSame(ConsumedWith(actions, n - 1, h), ConsumedWith(actions, n, h), n - 1);
    }
  }

  lemma ConvertOneBecomes(es: seq<Entry>, actions: seq<Action>, n: nat)
    requires n < |es|
    ensures Becomes(es, actions, n,
                    ConvertOne(es[n], PairablesWith(es[..n], es[n].actionHash), actions, HasContinuation(es)))
  {
    var h := es[n].actionHash;
    PairablesAreBelow(es, n, h);
    MatchesAreConsumed(actions, |actions|, h);
    assert actions[..|actions|] == actions;
    ActionsWithHashAreCopies(actions, h);
    assert HasContinuation(es) <==> AnyContinues(es);
  }

  /** Part `k` of the output runs from `starts[k]` to `starts[k + 1]`. */
  ghost predicate PartBecomes(es: seq<Entry>, actions: seq<Action>, out: seq<Entry>, starts: seq<nat>, k: nat)
    requires k < |es|
  {
    k + 1 < |starts| && starts[k] <= starts[k + 1] <= |out| && Becomes(es, actions, k, out[starts[k]..starts[k + 1]])
  }

  lemma OlderPart(es: seq<Entry>, actions: seq<Action>, prior: seq<Entry>, part: seq<Entry>, before: seq<nat>, k: nat)
    requires k < |es| && PartBecomes(es, actions, prior, before, k)
    ensures PartBecomes(es, actions, prior + part, before + [|prior + part|], k)
  {
    assert (prior + part)[before[k]..before[k + 1]] == prior[before[k]..before[k + 1]];
  }

  lemma NewPart(es: seq<Entry>, actions: seq<Action>, prior: seq<Entry>, part: seq<Entry>, before: seq<nat>, k: nat)
    requires k < |es| && |before| == k + 1 && before[k] == |prior|
    requires Becomes(es, actions, k, part)
    ensures PartBecomes(es, actions, prior + part, before + [|prior + part|], k)
  {
    assert (prior + part)[|prior|..] == part;
  }

  lemma {:induction false} PartsUpTo(es: seq<Entry>, actions: seq<Action>, n: nat) returns (starts: seq<nat>)
    requires n <= |es|
    ensures |starts| == n + 1 && starts[0] == 0
    ensures starts[n] == |ConvertPrefix(es[..n], actions, HasContinuation(es))|
    ensures forall k :: 0 <= k < n ==>
              PartBecomes(es, actions, ConvertPrefix(es[..n], actions, HasContinuation(es)), starts, k)
  {
    if n == 0 {
      starts := [0];
    } else {
      var before := PartsUpTo(es, actions, n - 1);
      assert es[..n][..n - 1] == es[..n - 1];
      var prior := ConvertPrefix(es[..n - 1], actions, HasContinuation(es));
      var h := es[n - 1].actionHash;
      var part := ConvertOne(es[n - 1], PairablesWith(es[..n - 1], h), actions, HasContinuation(es));
      assert ConvertPrefix(es[..n], actions, HasContinuation(es)) == prior + part;
      starts := before + [|prior + part|];
      forall k | 0 <= k < n
        ensures PartBecomes(es, actions, prior + part, starts, k)
      {
        if k < n - 1 {
          OlderPart(es, actions, prior, part, before, k);
        } else {
          ConvertOneBecomes(es, actions, k);
          NewPart(es, actions, prior, part, before, k);
        }
      }
    }
  }

  /** The conversion, entry by entry: its output falls into consecutive parts, one for each entry, and
      each part is what that entry becomes. */
  lemma ConversionHolds(es: seq<Entry>, actions: seq<Action>) returns (starts: seq<nat>)
    ensures |starts| == |es| + 1 && starts[0] == 0 && starts[|es|] == |L2Pairs(es, actions)|
    ensures forall k :: 0 <= k < |es| ==> PartBecomes(es, actions, L2Pairs(es, actions), starts, k)
  {
    starts := PartsUpTo(es, actions, |es|);
    assert es[..|es|] == es;
  }

  // ---- Order independence ----

  function Repeat(a: Action, n: nat): seq<Action> {
    seq(n, i => a)
  }

  function CountAction(actions: seq<Action>, a: Action): nat {
    if actions == [] then 0 else
      CountAction(actions[..|actions| - 1], a) + if actions[|actions| - 1] == a then 1 else 0
  }

  /** Equal hashes mean equal actions, so a hash's actions are copies of one action. */
  lemma {:induction false} ActionsWithHashAreCopies(actions: seq<Action>, h: ActionHash)
    ensures ActionsWithHash(actions, h) == if h.OfAction? then Repeat(h.action, CountAction(actions, h.action)) else []
  {
    if actions != [] {
      ActionsWithHashAreCopies(actions[..|actions| - 1], h);
    }
  }

  lemma {:induction false} CountIsMultiplicity(actions: seq<Action>, a: Action)
    ensures CountAction(actions, a) == multiset(actions)[a]
  {
    if actions != [] {
      var n := |actions| - 1;
      CountIsMultiplicity(actions[..n], a);
      assert actions == actions[..n] + [actions[n]];
    }
  }

  /** Permuted actions answer every hash lookup alike. */
  lemma PermutedLookups(a: seq<Action>, b: seq<Action>, h: ActionHash)
    requires multiset(a) == multiset(b)
    ensures ActionsWithHash(a, h) == ActionsWithHash(b, h)
  {
    ActionsWithHashAreCopies(a, h);
    ActionsWithHashAreCopies(b, h);
    if h.OfAction? {
      CountIsMultiplicity(a, h.action);
      CountIsMultiplicity(b, h.action);
    }
  }

  lemma {:induction false} ConvertDependsOnLookups(es: seq<Entry>, a: seq<Action>, b: seq<Action>, continuations: bool)
    requires multiset(a) == multiset(b)
    ensures ConvertPrefix(es, a, continuations) == ConvertPrefix(es, b, continuations)
  {
    if es != [] {
      ConvertDependsOnLookups(es[..|es| - 1], a, b, continuations);
      PermutedLookups(a, b, es[|es| - 1].actionHash);
    }
  }

  /** The order in which consumed actions are listed, which derivation takes from an unordered map,
      changes nothing. */
  lemma PairsIgnoreActionOrder(es: seq<Entry>, a: seq<Action>, b: seq<Action>)
    requires multiset(a) == multiset(b)
    ensures L2Pairs(es, a) == L2Pairs(es, b)
  {
    ConvertDependsOnLookups(es, a, b, HasContinuation(es));
  }

  // ---- Round trip ----

  /** The builder's chained entries, `[CALL, RESULT]` by `[CALL, RESULT]`. */
  function BuilderEntries(calls: seq<CallSpec>, roots: seq<Root>, rollupId: U64): (built: seq<Entry>)
    requires |roots| == |calls| + 1
    ensures |built| == 2 * |calls|
  {
    BuilderPairsLength(calls);
    Chained(BuilderPairs(calls), roots, rollupId)
  }

  /** `posted[i]` is the L1 form of the pair `built[2i], built[2i + 1]`. */
  ghost predicate PostsPair(posted: seq<Entry>, built: seq<Entry>, i: nat)
    requires |built| == 2 * |posted| && i < |posted|
  {
    && Pairable(posted[i])
    && posted[i].actionHash == HashOf(built[2 * i].nextAction)
    && built[2 * i] == Entry(posted[i].stateDeltas, posted[i].actionHash, built[2 * i].nextAction)
    && built[2 * i + 1] == Entry([], HashOf(posted[i].nextAction), posted[i].nextAction)
  }

  ghost predicate PostsPairs(posted: seq<Entry>, built: seq<Entry>) {
    && |built| == 2 * |posted|
    && forall i :: 0 <= i < |posted| ==> PostsPair(posted, built, i)
  }

  lemma PostedEntriesPostPairs(calls: seq<CallSpec>, roots: seq<Root>, rollupId: U64)
    requires |roots| == |calls| + 1
    ensures PostsPairs(PostedEntries(calls, roots, rollupId), BuilderEntries(calls, roots, rollupId))
  {
    BuilderPairsLength(calls);
    forall i | 0 <= i < |calls|
      ensures PostsPair(PostedEntries(calls, roots, rollupId), BuilderEntries(calls, roots, rollupId), i)
    {
      PostedEntryAt(calls, roots, rollupId, i);
      BuilderPairsAt(calls, i);
      ChainedAt(BuilderPairs(calls), roots, rollupId, i);
    }
  }

  /** The built pairs, among the first `n`, whose posted entry was accepted. */
  ghost function AcceptedPairs(posted: seq<Entry>, built: seq<Entry>, start: Counts, n: nat): seq<Entry>
    requires |built| == 2 * |posted| && n <= |posted|
  {
    if n == 0 then [] else
      AcceptedPairs(posted, built, start, n - 1) +
      if Accepted(posted, start, n - 1) then [built[2 * (n - 1)], built[2 * (n - 1) + 1]] else []
  }

  /** Every count the fullnode starts from is backed by consumed actions. */
  ghost predicate Backed(start: Counts, actions: seq<Action>) {
    forall h :: Avail(start, h) <= |ActionsWithHash(actions, h)|
  }

  ghost predicate AllPairable(es: seq<Entry>) {
    forall i :: 0 <= i < |es| ==> Pairable(es[i])
  }

  lemma SelectedStep(es: seq<Entry>, start: Counts, n: nat)
    requires 0 < n <= |es|
    ensures Selected(es[..n], start) ==
            if Accepted(es, start, n - 1) then Selected(es[..n - 1], start) + [es[n - 1]]
            else Selected(es[..n - 1], start)
  {
    assert es[..n][..n - 1] == es[..n - 1];
  }

  /** Of a real hash, as many pairable entries are selected as were posted, capped by the count. */
  lemma {:induction false} PairablesOfSelected(es: seq<Entry>, start: Counts, n: nat, h: ActionHash)
    requires AllPairable(es) && n <= |es|
    requires h != ZeroHash
    ensures PairablesWith(Selected(es[..n], start), h) == Min(Posted(es[..n], h), Avail(start, h))
  {
    if n > 0 {
      PairablesOfSelected(es, start, n - 1, h);
      SelectedStep(es, start, n);
      assert es[..n][..n - 1] == es[..n - 1];
      if Accepted(es, start, n - 1) {
        var prior := Selected(es[..n - 1], start);
        assert (prior + [es[n - 1]])[..|prior|] == prior;
      }
    }
  }

  lemma {:induction false} SelectedHasNoContinuation(es: seq<Entry>, start: Counts, n: nat)
    requires AllPairable(es) && n <= |es|
    ensures !HasContinuation(Selected(es[..n], start))
  {
    if n > 0 {
      SelectedHasNoContinuation(es, start, n - 1);
      SelectedStep(es, start, n);
    }
  }

  /** The accepted entry at `n` converts back to its own pair. */
  lemma AcceptedConvertsBack(posted: seq<Entry>, built: seq<Entry>, start: Counts, actions: seq<Action>, n: nat)
    requires PostsPairs(posted, built) && AllPairable(posted)
    requires Backed(start, actions)
    requires n < |posted| && Accepted(posted, start, n)
    ensures ConvertOne(posted[n], PairablesWith(Selected(posted[..n], start), posted[n].actionHash), actions, false)
            == [built[2 * n], built[2 * n + 1]]
  {
    var h := posted[n].actionHash;
    assert PostsPair(posted, built, n);
    PairablesOfSelected(posted, start, n, h);
    ActionsWithHashAreCopies(actions, h);
  }

  lemma ConvertAppend(es: seq<Entry>, e: Entry, actions: seq<Action>, continuations: bool)
    ensures ConvertPrefix(es + [e], actions, continuations) ==
            ConvertPrefix(es, actions, continuations) +
            ConvertOne(e, PairablesWith(es, e.actionHash), actions, continuations)
  {
    assert (es + [e])[..|es|] == es;
  }

  lemma RoundTripStep(posted: seq<Entry>, built: seq<Entry>, start: Counts, actions: seq<Action>, k: nat)
    requires PostsPairs(posted, built) && AllPairable(posted)
    requires Backed(start, actions)
    requires k < |posted|
    requires ConvertPrefix(Selected(posted[..k], start), actions, false) == AcceptedPairs(posted, built, start, k)
    ensures ConvertPrefix(Selected(posted[..k + 1], start), actions, false)
            == AcceptedPairs(posted, built, start, k + 1)
  {
    SelectedStep(posted, start, k + 1);
    if Accepted(posted, start, k) {
      AcceptedConvertsBack(posted, built, start, actions, k);
      ConvertAppend(Selected(posted[..k], start), posted[k], actions, false);
    }
  }

  lemma {:induction false} RoundTripFirst(
      posted: seq<Entry>, built: seq<Entry>, start: Counts, actions: seq<Action>, n: nat)
    requires PostsPairs(posted, built) && AllPairable(posted)
    requires Backed(start, actions)
    requires n <= |posted|
    ensures ConvertPrefix(Selected(posted[..n], start), actions, false) == AcceptedPairs(posted, built, start, n)
  {
    if n == 0 {
      assert posted[..0] == [];
    } else {
      RoundTripFirst(posted, built, start, actions, n - 1);
      RoundTripStep(posted, built, start, actions, n - 1);
    }
  }

  lemma PairsAreRebuilt(posted: seq<Entry>, built: seq<Entry>, start: Counts, actions: seq<Action>)
    requires PostsPairs(posted, built)
    requires Backed(start, actions)
    ensures L2Pairs(Selected(posted, start), actions) == AcceptedPairs(posted, built, start, |posted|)
  {
    forall i | 0 <= i < |posted|
      ensures Pairable(posted[i])
    {
      assert PostsPair(posted, built, i);
    }
    assert posted[..|posted|] == posted;
    SelectedHasNoContinuation(posted, start, |posted|);
    RoundTripFirst(posted, built, start, actions, |posted|);
  }

  /** Builder to L1 to fullnode: whatever L1 consumed, converting the accepted posted entries back
      yields exactly the builder's own pairs for those calls, in order, deltas included. */
  lemma RoundTrip(calls: seq<CallSpec>, roots: seq<Root>, rollupId: U64, start: Counts, actions: seq<Action>)
    requires |roots| == |calls| + 1
    requires Backed(start, actions)
    ensures PostsPairs(PostedEntries(calls, roots, rollupId), BuilderEntries(calls, roots, rollupId))
    ensures L2Pairs(Selected(PostedEntries(calls, roots, rollupId), start), actions)
            == AcceptedPairs(PostedEntries(calls, roots, rollupId), BuilderEntries(calls, roots, rollupId), start,
                             |calls|)
  {
    PostedEntriesPostPairs(calls, roots, rollupId);
    PairsAreRebuilt(PostedEntries(calls, roots, rollupId), BuilderEntries(calls, roots, rollupId), start, actions);
  }

  /** The consumed counts of a list of actions. */
  function CountsOf(actions: seq<Action>): Counts {
    map a | a in actions :: HashOf(a) := CountAction(actions, a)
  }

  function CallActions(calls: seq<CallSpec>): seq<Action> {
    seq(|calls|, i requires 0 <= i < |calls| => CallActionOf(calls[i]))
  }

  lemma {:induction false} CountPositive(actions: seq<Action>, a: Action)
    ensures a in actions <==> CountAction(actions, a) > 0
  {
    if actions != [] {
      var n := |actions| - 1;
      CountPositive(actions[..n], a);
      assert actions == actions[..n] + [actions[n]];
    }
  }

  lemma CountsOfAvail(actions: seq<Action>, a: Action)
    ensures Avail(CountsOf(actions), HashOf(a)) == CountAction(actions, a)
  {
    CountPositive(actions, a);
    if a in actions {
      assert HashOf(a) in CountsOf(actions);
    } else {
      assert HashOf(a) !in CountsOf(actions);
    }
  }

  lemma CountsAreBacked(actions: seq<Action>)
    ensures Backed(CountsOf(actions), actions)
  {
    forall h
      ensures Avail(CountsOf(actions), h) <= |ActionsWithHash(actions, h)|
    {
      ActionsWithHashAreCopies(actions, h);
      if h.OfAction? {
        CountsOfAvail(actions, h.action);
      } else {
        assert h !in CountsOf(actions);
      }
    }
  }

  ghost predicate NamesActions(posted: seq<Entry>, actions: seq<Action>) {
    && |posted| == |actions|
    && forall i :: 0 <= i < |posted| ==> posted[i].actionHash == HashOf(actions[i])
  }

  /** `Posted` counts calls by their action. */
  lemma {:induction false} PostedCountsActions(posted: seq<Entry>, actions: seq<Action>, n: nat, a: Action)
    requires NamesActions(posted, actions) && n <= |posted|
    ensures Posted(posted[..n], HashOf(a)) == CountAction(actions[..n], a)
  {
    if n > 0 {
      PostedCountsActions(posted, actions, n - 1, a);
      assert posted[..n][..n - 1] == posted[..n - 1];
      assert actions[..n][..n - 1] == actions[..n - 1];
    }
  }

  lemma PostedNameCalls(calls: seq<CallSpec>, roots: seq<Root>, rollupId: U64)
    requires |roots| == |calls| + 1
    ensures NamesActions(PostedEntries(calls, roots, rollupId), CallActions(calls))
  {
    forall i | 0 <= i < |calls|
      ensures PostedEntries(calls, roots, rollupId)[i].actionHash == HashOf(CallActions(calls)[i])
    {
      PostedEntryAt(calls, roots, rollupId, i);
    }
  }

  lemma {:induction false} CountMonotone(actions: seq<Action>, m: nat, n: nat, a: Action)
    requires m <= n <= |actions|
    ensures CountAction(actions[..m], a) <= CountAction(actions[..n], a)
    ensures m < n && actions[m] == a ==> CountAction(actions[..m], a) < CountAction(actions[..n], a)
  {
    if m < n {
      assert actions[..n][..n - 1] == actions[..n - 1];
      if m < n - 1 {
        CountMonotone(actions, m, n - 1, a);
      }
    }
  }

  /** If exactly the first `m` calls happened, exactly the first `m` posted entries are accepted. */
  lemma AcceptedIffAmongFirst(posted: seq<Entry>, actions: seq<Action>, m: nat, i: nat)
    requires NamesActions(posted, actions) && m <= |posted| && i < |posted|
    ensures Accepted(posted, CountsOf(actions[..m]), i) <==> i < m
  {
    PostedCountsActions(posted, actions, i, actions[i]);
    CountsOfAvail(actions[..m], actions[i]);
    if i < m {
      CountMonotone(actions, i, m, actions[i]);
    } else {
      CountMonotone(actions, m, i, actions[i]);
    }
  }

  lemma {:induction false} AcceptedPairsAreFirst(posted: seq<Entry>, built: seq<Entry>, start: Counts, m: nat, n: nat)
    requires |built| == 2 * |posted| && m <= |posted| && n <= |posted|
    requires forall i :: 0 <= i < |posted| ==> (Accepted(posted, start, i) <==> i < m)
    ensures AcceptedPairs(posted, built, start, n) == built[..2 * Min(m, n)]
  {
    if n > 0 {
      AcceptedPairsAreFirst(posted, built, start, m, n - 1);
      if n <= m {
        var k := 2 * (n - 1);
        assert 2 * n == k + 2;
        assert built[..k + 2] == built[..k] + [built[k], built[k + 1]];
      }
    }
  }

  /** If L1 consumed the first `m` calls, reported in any order, the fullnode rebuilds exactly the
      builder's first `2m` entries. */
  lemma RoundTripOfPrefix(
      calls: seq<CallSpec>, roots: seq<Root>, rollupId: U64, m: nat, actions: seq<Action>)
    requires |roots| == |calls| + 1 && m <= |calls|
    requires multiset(actions) == multiset(CallActions(calls)[..m])
    ensures L2Pairs(Selected(PostedEntries(calls, roots, rollupId), CountsOf(actions)), actions)
            == BuilderEntries(calls, roots, rollupId)[..2 * m]
  {
    PostedEntriesPostPairs(calls, roots, rollupId);
    CountsAreBacked(actions);
    RoundTrip(calls, roots, rollupId, CountsOf(actions), actions);
    CountsIgnoreOrder(actions, CallActions(calls)[..m]);
    var posted := PostedEntries(calls, roots, rollupId);
    PostedNameCalls(calls, roots, rollupId);
    forall i | 0 <= i < |posted|
      ensures Accepted(posted, CountsOf(actions), i) <==> i < m
    {
      AcceptedIffAmongFirst(posted, CallActions(calls), m, i);
    }
    AcceptedPairsAreFirst(posted, BuilderEntries(calls, roots, rollupId), CountsOf(actions), m, |posted|);
  }

  lemma CountsIgnoreOrder(a: seq<Action>, b: seq<Action>)
    requires multiset(a) == multiset(b)
    ensures CountsOf(a) == CountsOf(b)
  {
    forall x
      ensures x in a <==> x in b
      ensures CountAction(a, x) == CountAction(b, x)
    {
      CountIsMultiplicity(a, x);
      CountIsMultiplicity(b, x);
      assert x in a <==> x in multiset(a);
      assert x in b <==> x in multiset(b);
    }
  }
}
