/** Chained state deltas over trigger groups, and the ether accounting of L2-to-L1 calls
    (cross_chain.rs, `attach_generic_state_deltas` and `build_l2_to_l1_call_entries`). */
module StateDeltas {
  import opened MachineInts
  import opened CrossChain

  // ---- Attaching ----

  function GroupEnd(starts: seq<nat>, k: nat, len: nat): nat
    requires k < |starts|
  {
    if k + 1 < |starts| then starts[k + 1] else len
  }

  predicate RevertGroup(es: seq<Entry>, start: nat, end: nat)
    requires start <= end <= |es|
  {
    exists i :: start <= i < end && es[i].nextAction.kind == Revert
  }

  /** Link `j` of the chain through a group of `size` entries. */
  function ChainRoot(pre: Root, post: Root, rollupId: U64, size: nat, revert: bool, j: nat): Root {
    if j == 0 then pre
    else if revert && j >= size - 1 then post
    else if j == size then post
    else Syn(pre, post, rollupId, j)
  }

  /** The ether delta an entry carries before attaching, which attaching preserves. */
  function EtherOf(e: Entry): int {
    if e.stateDeltas == [] then 0 else e.stateDeltas[0].etherDelta
  }

  function WithLink(e: Entry, pre: Root, post: Root, rollupId: U64, size: nat, revert: bool, j: nat): Entry {
    e.(stateDeltas := [StateDelta(rollupId,
                                  ChainRoot(pre, post, rollupId, size, revert, j),
                                  ChainRoot(pre, post, rollupId, size, revert, j + 1),
                                  EtherOf(e))])
  }

  function AttachGroup(es: seq<Entry>, start: nat, end: nat, pre: Root, post: Root, rollupId: U64): seq<Entry>
    requires start <= end <= |es|
  {
    var revert := RevertGroup(es, start, end);
    seq(|es|, i requires 0 <= i < |es| =>
      if start <= i < end then WithLink(es[i], pre, post, rollupId, end - start, revert, i - start) else es[i])
  }

  /** Groups past the available roots are left alone. */
  function Processed(roots: seq<Root>, starts: seq<nat>): nat {
    if |roots| == 0 then 0 else Min(|starts|, |roots| - 1)
  }

  /** Every processed group is a slice of the entries; otherwise slicing fails. */
  predicate Sliceable(roots: seq<Root>, starts: seq<nat>, len: nat) {
    forall k {:trigger GroupEnd(starts, k, len)} ::
      0 <= k < Processed(roots, starts) ==> starts[k] <= GroupEnd(starts, k, len) <= len
  }

  function AttachUpTo(es: seq<Entry>, roots: seq<Root>, rollupId: U64, starts: seq<nat>, n: nat): (r: seq<Entry>)
    requires Sliceable(roots, starts, |es|)
    requires n <= Processed(roots, starts)
    ensures |r| == |es|
  {
    if n == 0 then es else
      var k := n - 1;
      AttachGroup(AttachUpTo(es, roots, rollupId, starts, k), starts[k], GroupEnd(starts, k, |es|),
                  roots[k], roots[k + 1], rollupId)
  }

  method AttachOneGroup(entries: array<Entry>, start: nat, end: nat, pre: Root, post: Root, rollupId: U64)
    requires start <= end <= entries.Length
    modifies entries
    ensures entries[..] == AttachGroup(old(entries[..]), start, end, pre, post, rollupId)
  {
    ghost var before := entries[..];
    var isRevertGroup := RevertGroup(entries[..], start, end);
    var i := start;
    while i < end
      invariant start <= i <= end
      invariant forall j :: 0 <= j < entries.Length ==>
        entries[j] == if start <= j < i
                      then WithLink(before[j], pre, post, rollupId, end - start, isRevertGroup, j - start)
                      else before[j]
    {
      var idx := i - start;
      entries[i] := entries[i].(stateDeltas := [StateDelta(
        rollupId,
        ChainRoot(pre, post, rollupId, end - start, isRevertGroup, idx),
        ChainRoot(pre, post, rollupId, end - start, isRevertGroup, idx + 1),
        EtherOf(entries[i]))]);
      i := i + 1;
    }
  }

  method AttachGenericStateDeltas(entries: array<Entry>, roots: seq<Root>, rollupId: U64, groupStarts: seq<nat>)
    requires Sliceable(roots, groupStarts, entries.Length)
    modifies entries
    ensures entries[..] == AttachUpTo(old(entries[..]), roots, rollupId, groupStarts, Processed(roots, groupStarts))
  {
    ghost var before := entries[..];
    var k := 0;
    while k < |groupStarts|
      invariant 0 <= k <= Processed(roots, groupStarts)
      invariant entries[..] == AttachUpTo(before, roots, rollupId, groupStarts, k)
    {
      var start := groupStarts[k];
      var end := if k + 1 < |groupStarts| then groupStarts[k + 1] else entries.Length;
      if k + 1 >= |roots| {
        break;
      }
      assert end == GroupEnd(groupStarts, k, entries.Length);
      AttachOneGroup(entries, start, end, roots[k], roots[k + 1], rollupId);
      k := k + 1;
    }
  }

  // ---- The chain telescopes ----

  /** Non-empty consecutive groups that start at 0 and cover every entry, with one more root than
      groups. */
  ghost predicate Tiles(roots: seq<Root>, starts: seq<nat>, len: nat) {
    && |starts| > 0 && |roots| == |starts| + 1
    && starts[0] == 0
    && forall k {:trigger GroupEnd(starts, k, len)} :: 0 <= k < |starts| ==> starts[k] < GroupEnd(starts, k, len) <= len
  }

  ghost predicate InGroup(starts: seq<nat>, len: nat, k: nat, i: nat)
    requires k < |starts|
  {
    starts[k] <= i < GroupEnd(starts, k, len)
  }

  lemma {:induction false} StartsIncrease(roots: seq<Root>, starts: seq<nat>, len: nat, a: nat, b: nat)
    requires Tiles(roots, starts, len)
    requires a < b < |starts|
    ensures GroupEnd(starts, a, len) <= starts[b]
  {
    if a + 1 < b {
      StartsIncrease(roots, starts, len, a, b - 1);
      assert starts[b - 1] < GroupEnd(starts, b - 1, len);
    }
  }

  lemma {:induction false} GroupExists(roots: seq<Root>, starts: seq<nat>, len: nat, n: nat, i: nat) returns (k: nat)
    requires Tiles(roots, starts, len)
    requires n < |starts| && i < GroupEnd(starts, n, len)
    ensures k <= n && InGroup(starts, len, k, i)
    decreases n
  {
    if starts[n] <= i {
      k := n;
    } else {
      k := GroupExists(roots, starts, len, n - 1, i);
    }
  }

  /** What entry `i` of group `k` ends up as. */
  ghost function Linked(es: seq<Entry>, roots: seq<Root>, rollupId: U64, starts: seq<nat>, k: nat, i: nat): Entry
    requires Tiles(roots, starts, |es|)
    requires k < |starts| && InGroup(starts, |es|, k, i)
  {
    var end := GroupEnd(starts, k, |es|);
    WithLink(es[i], roots[k], roots[k + 1], rollupId, end - starts[k], RevertGroup(es, starts[k], end), i - starts[k])
  }

  lemma {:induction false} AttachUpToAt(
      es: seq<Entry>, roots: seq<Root>, rollupId: U64, starts: seq<nat>, n: nat, k: nat, i: nat)
    requires Tiles(roots, starts, |es|)
    requires n <= |starts| && k < |starts| && InGroup(starts, |es|, k, i)
    ensures AttachUpTo(es, roots, rollupId, starts, n)[i] ==
            if k < n then Linked(es, roots, rollupId, starts, k, i) else es[i]
  {
    if n > 0 {
      AttachUpToAt(es, roots, rollupId, starts, n - 1, k, i);
      AttachStepAt(es, roots, rollupId, starts, n - 1, k, i);
    }
  }

  /** Attaching group `g` writes the entries of that group and no other. */
  lemma AttachStepAt(es: seq<Entry>, roots: seq<Root>, rollupId: U64, starts: seq<nat>, g: nat, k: nat, i: nat)
    requires Tiles(roots, starts, |es|)
    requires g < |starts| && k < |starts| && InGroup(starts, |es|, k, i)
    requires AttachUpTo(es, roots, rollupId, starts, g)[i] ==
             if k < g then Linked(es, roots, rollupId, starts, k, i) else es[i]
    ensures AttachUpTo(es, roots, rollupId, starts, g + 1)[i] ==
            if k <= g then Linked(es, roots, rollupId, starts, k, i) else es[i]
  {
    if g == k {
      AttachOwnGroup(es, roots, rollupId, starts, k, i);
    } else {
      OtherGroup(roots, starts, |es|, g, k, i);
    }
  }

  lemma OtherGroup(roots: seq<Root>, starts: seq<nat>, len: nat, g: nat, k: nat, i: nat)
    requires Tiles(roots, starts, len)
    requires g < |starts| && k < |starts| && g != k && InGroup(starts, len, k, i)
    ensures !InGroup(starts, len, g, i)
  {
    if k < g {
      StartsIncrease(roots, starts, len, k, g);
    } else {
      StartsIncrease(roots, starts, len, g, k);
    }
  }

  lemma AttachOwnGroup(es: seq<Entry>, roots: seq<Root>, rollupId: U64, starts: seq<nat>, k: nat, i: nat)
    requires Tiles(roots, starts, |es|)
    requires k < |starts| && InGroup(starts, |es|, k, i)
    requires AttachUpTo(es, roots, rollupId, starts, k)[i] == es[i]
    ensures AttachUpTo(es, roots, rollupId, starts, k + 1)[i] == Linked(es, roots, rollupId, starts, k, i)
  {
    RevertGroupUnchanged(es, roots, rollupId, starts, k);
    AttachGroupAt(AttachUpTo(es, roots, rollupId, starts, k), es, starts[k], GroupEnd(starts, k, |es|),
                  roots[k], roots[k + 1], rollupId, i);
  }

  lemma AttachGroupAt(prior: seq<Entry>, es: seq<Entry>, s: nat, t: nat, pre: Root, post: Root, rollupId: U64, i: nat)
    requires |prior| == |es| && s <= i < t <= |es|
    requires prior[i] == es[i] && RevertGroup(prior, s, t) == RevertGroup(es, s, t)
    ensures AttachGroup(prior, s, t, pre, post, rollupId)[i] ==
            WithLink(es[i], pre, post, rollupId, t - s, RevertGroup(es, s, t), i - s)
  {
  }

  lemma RevertGroupUnchanged(es: seq<Entry>, roots: seq<Root>, rollupId: U64, starts: seq<nat>, k: nat)
    requires Tiles(roots, starts, |es|) && k < |starts|
    ensures RevertGroup(AttachUpTo(es, roots, rollupId, starts, k), starts[k], GroupEnd(starts, k, |es|))
            == RevertGroup(es, starts[k], GroupEnd(starts, k, |es|))
  {
    SameActions(es, roots, rollupId, starts, k);
    SameRevertGroup(AttachUpTo(es, roots, rollupId, starts, k), es, starts[k], GroupEnd(starts, k, |es|));
  }

  lemma SameRevertGroup(a: seq<Entry>, b: seq<Entry>, start: nat, end: nat)
    requires |a| == |b| && start <= end <= |a|
    requires forall i :: 0 <= i < |a| ==> a[i].nextAction == b[i].nextAction
    ensures RevertGroup(a, start, end) == RevertGroup(b, start, end)
  {
    if i :| start <= i < end && a[i].nextAction.kind == Revert {
      assert b[i].nextAction.kind == Revert;
    }
    if i :| start <= i < end && b[i].nextAction.kind == Revert {
      assert a[i].nextAction.kind == Revert;
    }
  }

  lemma {:induction false} SameActions(es: seq<Entry>, roots: seq<Root>, rollupId: U64, starts: seq<nat>, n: nat)
    requires Sliceable(roots, starts, |es|)
    requires n <= Processed(roots, starts)
    ensures forall i :: 0 <= i < |es| ==>
              && AttachUpTo(es, roots, rollupId, starts, n)[i].nextAction == es[i].nextAction
              && AttachUpTo(es, roots, rollupId, starts, n)[i].actionHash == es[i].actionHash
  {
    if n > 0 {
      SameActions(es, roots, rollupId, starts, n - 1);
    }
  }

  /** All groups attached. */
  ghost function Attached(es: seq<Entry>, roots: seq<Root>, rollupId: U64, starts: seq<nat>): (r: seq<Entry>)
    requires Tiles(roots, starts, |es|)
    ensures |r| == |es|
  {
    AttachUpTo(es, roots, rollupId, starts, |starts|)
  }

  /** Entry `i` keeps its hash, action and ether delta, and gets exactly one delta. */
  lemma AttachedPreserves(es: seq<Entry>, roots: seq<Root>, rollupId: U64, starts: seq<nat>, i: nat)
    requires Tiles(roots, starts, |es|) && i < |es|
    ensures var e := Attached(es, roots, rollupId, starts)[i];
            && e.actionHash == es[i].actionHash && e.nextAction == es[i].nextAction
            && |e.stateDeltas| == 1 && e.stateDeltas[0].rollupId == rollupId
            && e.stateDeltas[0].etherDelta == (if es[i].stateDeltas == [] then 0 else es[i].stateDeltas[0].etherDelta)
            && EtherOf(e) == EtherOf(es[i])
  {
    var k := GroupExists(roots, starts, |es|, |starts| - 1, i);
    AttachUpToAt(es, roots, rollupId, starts, |starts|, k, i);
  }

  ghost function PreState(es: seq<Entry>, roots: seq<Root>, rollupId: U64, starts: seq<nat>, i: nat): Root
    requires Tiles(roots, starts, |es|) && i < |es|
  {
    AttachedPreserves(es, roots, rollupId, starts, i);
    Attached(es, roots, rollupId, starts)[i].stateDeltas[0].currentState
  }

  ghost function PostState(es: seq<Entry>, roots: seq<Root>, rollupId: U64, starts: seq<nat>, i: nat): Root
    requires Tiles(roots, starts, |es|) && i < |es|
  {
    AttachedPreserves(es, roots, rollupId, starts, i);
    Attached(es, roots, rollupId, starts)[i].stateDeltas[0].newState
  }

  /** Group `k` enters at `roots[k]` and leaves at `roots[k + 1]`, revert groups included. */
  lemma GroupBoundaries(es: seq<Entry>, roots: seq<Root>, rollupId: U64, starts: seq<nat>, k: nat)
    requires Tiles(roots, starts, |es|) && k < |starts|
    ensures PostState(es, roots, rollupId, starts, GroupEnd(starts, k, |es|) - 1) == roots[k + 1]
    ensures PreState(es, roots, rollupId, starts, starts[k]) == roots[k]
  {
    AttachUpToAt(es, roots, rollupId, starts, |starts|, k, starts[k]);
    AttachUpToAt(es, roots, rollupId, starts, |starts|, k, GroupEnd(starts, k, |es|) - 1);
  }

  /** Each link of a group, spelled out. The inner roots are synthetic, numbered from 1; in a group with
      a revert the last entry stays at the real root, where the one before it arrives. */
  lemma LinksAre(es: seq<Entry>, roots: seq<Root>, rollupId: U64, starts: seq<nat>, k: nat, i: nat)
    requires Tiles(roots, starts, |es|) && k < |starts| && InGroup(starts, |es|, k, i)
    ensures var s, t := starts[k], GroupEnd(starts, k, |es|);
            var revert := exists x :: s <= x < t && es[x].nextAction.kind == Revert;
            && PreState(es, roots, rollupId, starts, i) ==
               (if i == s then roots[k]
                else if revert && i + 1 == t then roots[k + 1]
                else Syn(roots[k], roots[k + 1], rollupId, i - s))
            && PostState(es, roots, rollupId, starts, i) ==
               if i + 1 == t || (revert && i + 2 == t) then roots[k + 1]
               else Syn(roots[k], roots[k + 1], rollupId, i + 1 - s)
  {
    AttachUpToAt(es, roots, rollupId, starts, |starts|, k, i);
  }

  /** The chain never breaks: every entry starts where the one before it ended. */
  lemma ChainIsUnbroken(es: seq<Entry>, roots: seq<Root>, rollupId: U64, starts: seq<nat>, i: nat)
    requires Tiles(roots, starts, |es|) && i + 1 < |es|
    ensures PostState(es, roots, rollupId, starts, i) == PreState(es, roots, rollupId, starts, i + 1)
  {
    var k := GroupExists(roots, starts, |es|, |starts| - 1, i);
    if InGroup(starts, |es|, k, i + 1) {
      AttachUpToAt(es, roots, rollupId, starts, |starts|, k, i);
      AttachUpToAt(es, roots, rollupId, starts, |starts|, k, i + 1);
    } else {
      assert i + 1 == GroupEnd(starts, k, |es|);
      GroupBoundaries(es, roots, rollupId, starts, k);
      GroupBoundaries(es, roots, rollupId, starts, k + 1);
    }
  }

  /** The whole chain runs from the first root to the last. */
  lemma ChainEnds(es: seq<Entry>, roots: seq<Root>, rollupId: U64, starts: seq<nat>)
    requires Tiles(roots, starts, |es|)
    ensures |es| > 0
    ensures PreState(es, roots, rollupId, starts, 0) == roots[0]
    ensures PostState(es, roots, rollupId, starts, |es| - 1) == roots[|roots| - 1]
  {
    GroupBoundaries(es, roots, rollupId, starts, 0);
    GroupBoundaries(es, roots, rollupId, starts, |starts| - 1);
  }

  /** Inside a group no two entries share a current state, which is what lets L1 tell entries with
      equal hashes apart; the one exception is a revert group of several entries whose real roots
      before and after are equal. */
  lemma CurrentStatesDistinct(es: seq<Entry>, roots: seq<Root>, rollupId: U64, starts: seq<nat>, k: nat)
    requires Tiles(roots, starts, |es|) && k < |starts|
    ensures (forall i, j :: starts[k] <= i < j < GroupEnd(starts, k, |es|) ==>
               PreState(es, roots, rollupId, starts, i) != PreState(es, roots, rollupId, starts, j))
            <==>
            !(RevertGroup(es, starts[k], GroupEnd(starts, k, |es|)) && GroupEnd(starts, k, |es|) - starts[k] >= 2
              && roots[k] == roots[k + 1])
  {
    var s, t := starts[k], GroupEnd(starts, k, |es|);
    forall i: nat | s <= i < t
      ensures PreState(es, roots, rollupId, starts, i) ==
              ChainRoot(roots[k], roots[k + 1], rollupId, t - s, RevertGroup(es, s, t), i - s)
    {
      AttachUpToAt(es, roots, rollupId, starts, |starts|, k, i);
    }
    if RevertGroup(es, s, t) && t - s >= 2 && roots[k] == roots[k + 1] {
      assert PreState(es, roots, rollupId, starts, s) == PreState(es, roots, rollupId, starts, t - 1);
    } else {
      forall i, j | s <= i < j < t
        ensures PreState(es, roots, rollupId, starts, i) != PreState(es, roots, rollupId, starts, j)
      {
        LinksDiffer(roots[k], roots[k + 1], rollupId, t - s, RevertGroup(es, s, t), i - s, j - s);
      }
    }
  }

  function Depth(r: Root): nat {
    match r
    case Real(_) => 0
    case Syn(pre, post, _, _) => 1 + Max(Depth(pre), Depth(post))
  }

  lemma LinksDiffer(pre: Root, post: Root, rollupId: U64, size: nat, revert: bool, i: nat, j: nat)
    requires i < j < size
    requires revert ==> pre != post
    ensures ChainRoot(pre, post, rollupId, size, revert, i) != ChainRoot(pre, post, rollupId, size, revert, j)
  {
    assert Depth(pre) < Depth(Syn(pre, post, rollupId, j));
    assert Depth(post) < Depth(Syn(pre, post, rollupId, i));
  }

  /** With fewer roots than groups the groups without a root of their own after them are left alone. */
  lemma {:induction false} UnrootedStay(
      es: seq<Entry>, roots: seq<Root>, rollupId: U64, starts: seq<nat>, n: nat, i: nat)
    requires Sliceable(roots, starts, |es|)
    requires n <= Processed(roots, starts) && i < |es|
    requires forall k :: 0 <= k < |starts| && k + 1 < |roots| ==> !InGroup(starts, |es|, k, i)
    ensures AttachUpTo(es, roots, rollupId, starts, n)[i] == es[i]
  {
    if n > 0 {
      UnrootedStay(es, roots, rollupId, starts, n - 1, i);
      assert !InGroup(starts, |es|, n - 1, i);
    }
  }

  /** Which roots lie past the processed groups does not matter. */
  lemma {:induction false} LaterRootsDoNotMatter(
      es: seq<Entry>, roots: seq<Root>, full: seq<Root>, rollupId: U64, starts: seq<nat>, n: nat)
    requires Sliceable(roots, starts, |es|) && Sliceable(full, starts, |es|)
    requires n <= Processed(roots, starts) && n <= Processed(full, starts)
    requires |roots| <= |full| && full[..|roots|] == roots
    ensures AttachUpTo(es, roots, rollupId, starts, n) == AttachUpTo(es, full, rollupId, starts, n)
  {
    if n > 0 {
      LaterRootsDoNotMatter(es, roots, full, rollupId, starts, n - 1);
      assert roots[n - 1] == full[n - 1] && roots[n] == full[n];
    }
  }

  /** With fewer roots than groups, the groups that have both their roots are linked as in the full
      batch. */
  lemma RootedAreLinked(
      es: seq<Entry>, roots: seq<Root>, full: seq<Root>, rollupId: U64, starts: seq<nat>, k: nat, i: nat)
    requires Tiles(full, starts, |es|) && k < |starts| && InGroup(starts, |es|, k, i)
    requires k + 1 < |roots| <= |full| && full[..|roots|] == roots
    ensures Sliceable(roots, starts, |es|)
    ensures AttachUpTo(es, roots, rollupId, starts, Processed(roots, starts))[i]
            == Attached(es, full, rollupId, starts)[i]
  {
    LaterRootsDoNotMatter(es, roots, full, rollupId, starts, Processed(roots, starts));
    AttachUpToAt(es, full, rollupId, starts, Processed(roots, starts), k, i);
    AttachUpToAt(es, full, rollupId, starts, |starts|, k, i);
  }

  // ---- L2-to-L1 calls ----

  datatype Withdrawal = Withdrawal(
    destination: Address,
    data: Bytes,
    value: U256,
    sourceAddress: Address,
    rollupId: U64,
    rlpTx: Bytes,
    returnData: Bytes,
    deliveryFailed: bool,
    scope: seq<U256>,
    txReverts: bool)

  function TriggerAction(w: Withdrawal): Action {
    Action(L2Tx, w.rollupId, ZERO_ADDRESS, 0, w.rlpTx, false, ZERO_ADDRESS, MAINNET, [])
  }

  /** A reverting transaction needs at least one scope frame for its REVERT to match. */
  function DeliveryScope(w: Withdrawal): seq<U256> {
    if w.txReverts && w.scope == [] then [0] else w.scope
  }

  function DeliveryAction(w: Withdrawal): Action {
    Action(Call, MAINNET, w.destination, w.value, w.data, false, w.sourceAddress, w.rollupId, DeliveryScope(w))
  }

  function DeliveryEther(w: Withdrawal): int {
    -ToI256OrZero(w.value)
  }

  function PlainDelta(rollupId: U64, ether: int): StateDelta {
    StateDelta(rollupId, ZERO_ROOT, ZERO_ROOT, ether)
  }

  function L1DeferredEntries(w: Withdrawal): seq<Entry> {
    var trigger := Entry([PlainDelta(w.rollupId, 0)], HashOf(TriggerAction(w)), DeliveryAction(w));
    var deliveryHash := HashOf(ResultAction(MAINNET, w.returnData, w.deliveryFailed));
    var terminal := ResultAction(w.rollupId, [], false);
    if w.txReverts then
      [trigger,
       Entry([PlainDelta(w.rollupId, DeliveryEther(w))], deliveryHash, RevertAction(w.rollupId, [0])),
       Entry([PlainDelta(w.rollupId, 0)], HashOf(RevertContinueAction(w.rollupId)), terminal)]
    else
      [trigger, Entry([PlainDelta(w.rollupId, DeliveryEther(w))], deliveryHash, terminal)]
  }

  function EtherSum(es: seq<Entry>): int {
    if es == [] then 0 else EtherSum(es[..|es| - 1]) + EtherOf(es[|es| - 1])
  }

  lemma {:induction false} EtherSumSame(a: seq<Entry>, b: seq<Entry>)
    requires |a| == |b|
    requires forall i :: 0 <= i < |a| ==> EtherOf(a[i]) == EtherOf(b[i])
    ensures EtherSum(a) == EtherSum(b)
  {
    if a != [] {
      var n := |a| - 1;
      EtherSumSame(a[..n], b[..n]);
    }
  }

  /** What an L2-to-L1 call posts: its trigger delivers the call on L1, and the delivery's result ends
      the transaction, or reverts the first scope, after which the continuation ends it. */
  lemma WithdrawalFields(w: Withdrawal)
    ensures var es := L1DeferredEntries(w);
            var ending := Action(Result, w.rollupId, 0, 0, [], false, 0, 0, []);
            var sent: int := if w.value < TWO_TO_255 then w.value else 0;
            && |es| == (if w.txReverts then 3 else 2)
            && es[0].actionHash == HashOf(Action(L2Tx, w.rollupId, 0, 0, w.rlpTx, false, 0, 0, []))
            && es[0].nextAction == Action(Call, 0, w.destination, w.value, w.data, false, w.sourceAddress, w.rollupId,
                                          if w.txReverts && w.scope == [] then [0] else w.scope)
            && es[1].actionHash == HashOf(Action(Result, 0, 0, 0, w.returnData, w.deliveryFailed, 0, 0, []))
            && es[1].nextAction == (if w.txReverts then Action(Revert, w.rollupId, 0, 0, [], false, 0, 0, [0])
                                    else ending)
            && (w.txReverts ==>
                  && es[2].actionHash == HashOf(Action(RevertContinue, w.rollupId, 0, 0, [], true, 0, 0, []))
                  && es[2].nextAction == ending)
            && forall i :: 0 <= i < |es| ==>
                 es[i].stateDeltas == [StateDelta(w.rollupId, Real(0), Real(0), if i == 1 then -sent else 0)]
  {
  }

  lemma WithdrawalEther(w: Withdrawal)
    ensures EtherSum(L1DeferredEntries(w)) == DeliveryEther(w)
  {
    var es := L1DeferredEntries(w);
    assert EtherSum(es[..1]) == 0 by {
      assert es[..1][..0] == [];
    }
    assert es[..2][..1] == es[..1];
    assert EtherSum(es[..2]) == DeliveryEther(w);
    if w.txReverts {
      assert EtherSum(es) == EtherSum(es[..2]) + 0;
    } else {
      assert es[..2] == es;
    }
  }

  lemma RevertGroupSlice(es: seq<Entry>, s: nat, t: nat, w: Withdrawal)
    requires s <= t <= |es| && es[s..t] == L1DeferredEntries(w)
    ensures RevertGroup(es, s, t) <==> w.txReverts
  {
    var group := es[s..t];
    assert forall i :: s <= i < t ==> es[i] == group[i - s];
    if w.txReverts {
      assert es[s + 1] == group[1] && es[s + 1].nextAction.kind == Revert;
    }
  }

  lemma GroupEtherUnchanged(es: seq<Entry>, roots: seq<Root>, rollupId: U64, starts: seq<nat>, s: nat, t: nat)
    requires Tiles(roots, starts, |es|) && s <= t <= |es|
    ensures EtherSum(Attached(es, roots, rollupId, starts)[s..t]) == EtherSum(es[s..t])
  {
    var after := Attached(es, roots, rollupId, starts);
    forall i | 0 <= i < t - s
      ensures EtherOf(after[s..t][i]) == EtherOf(es[s..t][i])
    {
      AttachedPreserves(es, roots, rollupId, starts, s + i);
    }
    EtherSumSame(after[s..t], es[s..t]);
  }

  /** Under both outcomes, and wherever the group sits in a chained batch, the entries of one call
      account for exactly minus the value, precisely when it fits a signed 256-bit integer. */
  lemma GroupEtherIsMinusValue(es: seq<Entry>, roots: seq<Root>, rollupId: U64, starts: seq<nat>, k: nat, w: Withdrawal)
    requires Tiles(roots, starts, |es|) && k < |starts|
    requires var end := GroupEnd(starts, k, |es|);
             es[starts[k]..end] == L1DeferredEntries(w)
    ensures var end := GroupEnd(starts, k, |es|);
            EtherSum(Attached(es, roots, rollupId, starts)[starts[k]..end]) + w.value == 0 <==> w.value < TWO_TO_255
    ensures RevertGroup(es, starts[k], GroupEnd(starts, k, |es|)) <==> w.txReverts
  {
    GroupEtherUnchanged(es, roots, rollupId, starts, starts[k], GroupEnd(starts, k, |es|));
    WithdrawalEther(w);
    RevertGroupSlice(es, starts[k], GroupEnd(starts, k, |es|), w);
  }
}
