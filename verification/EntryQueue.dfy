/** The hold-then-forward queue (entry_queue.rs). Each method body is one critical section of the
    mutex, so the interleavings of concurrent callers are exactly the sequences of these steps. */
module EntryQueues {
  import opened MachineInts

  type QueueReceipt = nat

  datatype ReceiptState = Pending | Reserved | Confirmed

  type Items = map<QueueReceipt, ReceiptState>

  datatype QueueState = QueueState(nextId: nat, items: Items)

  /** What one pass of the `wait_confirmation` loop decides while it holds the lock. */
  datatype Decision = Granted | KeepWaiting | Evicted

  // ---- The ordered map ----

  ghost predicate Increasing(s: seq<QueueReceipt>) {
    forall i, j :: 0 <= i < j < |s| ==> s[i] < s[j]
  }

  ghost predicate IsLeast(m: QueueReceipt, s: set<QueueReceipt>) {
    m in s && forall k :: k in s ==> m <= k
  }

  lemma {:induction false} LeastExists(s: set<QueueReceipt>)
    requires s != {}
    ensures exists m :: IsLeast(m, s)
  {
    var x :| x in s;
    var rest := s - {x};
    if rest == {} {
      assert forall k :: k in s ==> k == x || k in rest;
      assert IsLeast(x, s);
    } else {
      LeastExists(rest);
      var m :| IsLeast(m, rest);
      assert forall k :: k in s ==> k == x || k in rest;
      assert IsLeast(if m <= x then m else x, s);
    }
  }

  function Least(s: set<QueueReceipt>): (m: QueueReceipt)
    requires s != {}
    ensures IsLeast(m, s)
  {
    LeastExists(s);
    assert exists m :: m in s && forall k :: k in s ==> m <= k by {
      var m :| IsLeast(m, s);
    }
    var m :| m in s && forall k :: k in s ==> m <= k;
    m
  }

  /** The iteration order of the map: its keys in increasing order. */
  function SortedKeys(s: set<QueueReceipt>): seq<QueueReceipt> {
    if s == {} then [] else [Least(s)] + SortedKeys(s - {Least(s)})
  }

  lemma {:induction false} SortedKeysAreKeys(s: set<QueueReceipt>)
    ensures forall k :: k in SortedKeys(s) <==> k in s
  {
    if s != {} {
      SortedKeysAreKeys(s - {Least(s)});
    }
  }

  lemma {:induction false} SortedKeysIncrease(s: set<QueueReceipt>)
    ensures Increasing(SortedKeys(s))
  {
    if s != {} {
      var m := Least(s);
      var rest := SortedKeys(s - {m});
      SortedKeysIncrease(s - {m});
      SortedKeysAreKeys(s - {m});
      forall i | 0 <= i < |rest|
        ensures m < rest[i]
      {
        assert rest[i] in rest;
      }
    }
  }

  function PendingAmong(keys: seq<QueueReceipt>, items: Items): seq<QueueReceipt> {
    if keys == [] then [] else
      var k := keys[|keys| - 1];
      PendingAmong(keys[..|keys| - 1], items) +
      if k in items && items[k] == Pending then [k] else []
  }

  lemma {:induction false} PendingAmongAreThePending(keys: seq<QueueReceipt>, items: Items)
    ensures forall k :: k in PendingAmong(keys, items) <==> k in keys && k in items && items[k] == Pending
  {
    if keys != [] {
      var n := |keys| - 1;
      PendingAmongAreThePending(keys[..n], items);
      assert keys == keys[..n] + [keys[n]];
    }
  }

  lemma {:induction false} PendingAmongIncreasing(keys: seq<QueueReceipt>, items: Items)
    requires Increasing(keys)
    ensures Increasing(PendingAmong(keys, items))
  {
    if keys != [] {
      var init := keys[..|keys| - 1];
      PendingAmongIncreasing(init, items);
      PendingAmongAreThePending(init, items);
      var r := PendingAmong(init, items);
      forall i | 0 <= i < |r|
        ensures r[i] < keys[|keys| - 1]
      {
        assert r[i] in init;
      }
    }
  }

  lemma {:induction false} PendingAmongPrefix(keys: seq<QueueReceipt>, items: Items, i: nat)
    requires i <= |keys|
    ensures PendingAmong(keys[..i], items) <= PendingAmong(keys, items)
  {
    if i < |keys| {
      var init := keys[..|keys| - 1];
      PendingAmongPrefix(init, items, i);
      assert init[..i] == keys[..i];
    } else {
      assert keys[..i] == keys;
    }
  }

  lemma PendingAmongStep(keys: seq<QueueReceipt>, items: Items, i: nat)
    requires i < |keys| && Increasing(keys)
    requires keys[i] in items
    ensures PendingAmong(keys[..i + 1], items) ==
            PendingAmong(keys[..i], items) + if items[keys[i]] == Pending then [keys[i]] else []
    ensures keys[i] !in PendingAmong(keys[..i], items)
  {
    assert keys[..i + 1][..i] == keys[..i];
    PendingAmongAreThePending(keys[..i], items);
  }

  lemma MoveOneMore(items: Items, rs: seq<QueueReceipt>, r: QueueReceipt)
    requires r in items && items[r] == Pending
    ensures Move(items, rs + [r], Pending, Reserved) == Move(items, rs, Pending, Reserved)[r := Reserved]
  {
  }

  // ---- Specification of the steps ----

  function PendingIds(items: Items): seq<QueueReceipt> {
    PendingAmong(SortedKeys(items.Keys), items)
  }

  function Drained(items: Items, max: nat): seq<QueueReceipt> {
    PendingIds(items)[..Min(max, |PendingIds(items)|)]
  }

  /** Move the listed receipts that are in state `from` to state `to`; nothing else moves. */
  function Move(items: Items, rs: seq<QueueReceipt>, from: ReceiptState, to: ReceiptState): Items {
    map k | k in items :: if k in rs && items[k] == from then to else items[k]
  }

  function Decide(items: Items, r: QueueReceipt): Decision {
    if r !in items then Evicted
    else if items[r] == Confirmed then Granted
    else KeepWaiting
  }

  lemma DrainStops(items: Items, keys: seq<QueueReceipt>, i: nat, max: nat)
    requires keys == SortedKeys(items.Keys)
    requires i <= |keys|
    requires |PendingAmong(keys[..i], items)| <= max
    requires i == |keys| || |PendingAmong(keys[..i], items)| == max
    ensures PendingAmong(keys[..i], items) == Drained(items, max)
  {
    PendingAmongPrefix(keys, items, i);
    assert i == |keys| ==> keys[..i] == keys;
  }

  class EntryQueue {
    var nextId: nat
    var items: Items

    ghost function State(): QueueState
      reads this
    {
      QueueState(nextId, items)
    }

    constructor ()
      ensures State() == Empty()
    {
      nextId := 0;
      items := map[];
    }

    /** `next_id += 1` wraps in a release build. */
    method Push() returns (receipt: QueueReceipt)
      modifies this
      ensures receipt == old(nextId)
      ensures items == old(items)[receipt := Pending]
      ensures nextId == (old(nextId) + 1) % TWO_TO_64
      ensures State() == Apply(old(State()), DoPush)
    {
      receipt := nextId;
      nextId := (nextId + 1) % TWO_TO_64;
      items := items[receipt := Pending];
    }

    method WaitConfirmationPass(receipt: QueueReceipt) returns (d: Decision)
      ensures d == Decide(items, receipt)
    {
      if receipt in items {
        match items[receipt]
        case Confirmed => return Granted;
        case Pending => return KeepWaiting;
        case Reserved => return KeepWaiting;
      }
      return Evicted;
    }

    method DrainPending(max: nat) returns (drained: seq<QueueReceipt>)
      modifies this`items
      ensures drained == Drained(old(items), max)
      ensures items == Move(old(items), drained, Pending, Reserved)
    {
      var keys := SortedKeys(items.Keys);
      ghost var before := items;
      SortedKeysIncrease(items.Keys);
      SortedKeysAreKeys(items.Keys);
      drained := [];
      var i := 0;
      while i < |keys|
        invariant 0 <= i <= |keys|
        invariant drained == PendingAmong(keys[..i], before)
        invariant |drained| <= max
        invariant items == Move(before, drained, Pending, Reserved)
      {
        if |drained| >= max {
          break;
        }
        PendingAmongStep(keys, before, i);
        if items[keys[i]] == Pending {
          MoveOneMore(before, drained, keys[i]);
          items := items[keys[i] := Reserved];
          drained := drained + [keys[i]];
        }
        i := i + 1;
      }
      DrainStops(before, keys, i, max);
    }

    method Confirm(receipts: seq<QueueReceipt>)
      modifies this`items
      ensures State() == Apply(old(State()), DoConfirm(receipts))
    {
      var i := 0;
      while i < |receipts|
        invariant 0 <= i <= |receipts|
        invariant items == Move(old(items), receipts[..i], Reserved, Confirmed)
      {
        assert receipts[..i + 1] == receipts[..i] + [receipts[i]];
        if receipts[i] in items && items[receipts[i]] == Reserved {
          items := items[receipts[i] := Confirmed];
        }
        i := i + 1;
      }
      assert receipts[..i] == receipts;
    }

    method Rollback(receipts: seq<QueueReceipt>)
      modifies this`items
      ensures State() == Apply(old(State()), DoRollback(receipts))
    {
      var i := 0;
      while i < |receipts|
        invariant 0 <= i <= |receipts|
        invariant items == Move(old(items), receipts[..i], Reserved, Pending)
      {
        assert receipts[..i + 1] == receipts[..i] + [receipts[i]];
        if receipts[i] in items && items[receipts[i]] == Reserved {
          items := items[receipts[i] := Pending];
        }
        i := i + 1;
      }
      assert receipts[..i] == receipts;
    }

    method Remove(receipt: QueueReceipt)
      modifies this`items
      ensures State() == Apply(old(State()), DoRemove(receipt))
    {
      items := items - {receipt};
    }
  }

  // ---- Draining ----

  lemma {:induction false} IncreasingLength(s: seq<QueueReceipt>, elems: set<QueueReceipt>)
    requires Increasing(s)
    requires forall k :: k in s <==> k in elems
    ensures |s| == |elems|
  {
    if s != [] {
      var n := |s| - 1;
      assert s[..n] + [s[n]] == s;
      IncreasingLength(s[..n], elems - {s[n]});
    } else {
      assert elems == {};
    }
  }

  lemma PendingIdsAreAll(items: Items)
    ensures Increasing(PendingIds(items))
    ensures |PendingIds(items)| == |PendingSet(items)|
    ensures forall k :: k in PendingIds(items) <==> k in PendingSet(items)
  {
    SortedKeysIncrease(items.Keys);
    SortedKeysAreKeys(items.Keys);
    PendingAmongAreThePending(SortedKeys(items.Keys), items);
    PendingAmongIncreasing(SortedKeys(items.Keys), items);
    IncreasingLength(PendingIds(items), PendingSet(items));
  }

  function PendingSet(items: Items): set<QueueReceipt> {
    set k | k in items && items[k] == Pending
  }

  /** In an increasing sequence, whatever is missing from a prefix lies above all of it. */
  lemma PrefixIsLowest(s: seq<QueueReceipt>, n: nat, k: QueueReceipt, d: QueueReceipt)
    requires Increasing(s) && n <= |s|
    requires k in s && k !in s[..n] && d in s[..n]
    ensures d < k
  {
    var ik :| 0 <= ik < |s| && s[ik] == k;
    var jd :| 0 <= jd < n && s[jd] == d;
    assert forall i :: 0 <= i < n ==> s[i] in s[..n];
  }

  /** Draining takes the `min(max, pending)` oldest pending receipts, in increasing order. */
  lemma DrainTakesTheOldest(items: Items, max: nat)
    ensures Increasing(Drained(items, max))
    ensures |Drained(items, max)| == Min(max, |PendingSet(items)|)
    ensures forall k :: k in Drained(items, max) ==> k in PendingSet(items)
    ensures forall k, d :: k in PendingSet(items) && k !in Drained(items, max) && d in Drained(items, max) ==> d < k
  {
    PendingIdsAreAll(items);
    var all, n := PendingIds(items), Min(max, |PendingIds(items)|);
    assert Drained(items, max) == all[..n];
    forall k | k in all[..n]
      ensures k in all
    {
    }
    forall k, d | k in PendingSet(items) && k !in Drained(items, max) && d in Drained(items, max)
      ensures d < k
    {
      PrefixIsLowest(all, n, k, d);
    }
  }

  /** Rolling back exactly what was drained restores the queue exactly. */
  lemma DrainThenRollbackRestores(s: QueueState, max: nat)
    ensures Apply(Apply(s, DoDrain(max)), DoRollback(Drained(s.items, max))) == s
  {
    DrainTakesTheOldest(s.items, max);
    var mid := Apply(s, DoDrain(max)).items;
    var back := Move(mid, Drained(s.items, max), Reserved, Pending);
    assert back == s.items;
  }

  // ---- Runs: every interleaving of the steps from an empty queue ----

  datatype Step =
    | DoPush
    | DoDrain(max: nat)
    | DoConfirm(receipts: seq<QueueReceipt>)
    | DoRollback(receipts: seq<QueueReceipt>)
    | DoRemove(receipt: QueueReceipt)

  function Empty(): QueueState {
    QueueState(0, map[])
  }

  function Apply(s: QueueState, step: Step): QueueState {
    match step
    case DoPush => QueueState((s.nextId + 1) % TWO_TO_64, s.items[s.nextId := Pending])
    case DoDrain(max) => s.(items := Move(s.items, Drained(s.items, max), Pending, Reserved))
    case DoConfirm(rs) => s.(items := Move(s.items, rs, Reserved, Confirmed))
    case DoRollback(rs) => s.(items := Move(s.items, rs, Reserved, Pending))
    case DoRemove(r) => s.(items := s.items - {r})
  }

  function After(steps: seq<Step>): QueueState {
    if steps == [] then Empty() else Apply(After(steps[..|steps| - 1]), steps[|steps| - 1])
  }

  function Pushes(steps: seq<Step>): nat {
    if steps == [] then 0 else Pushes(steps[..|steps| - 1]) + if steps[|steps| - 1].DoPush? then 1 else 0
  }

  ghost predicate DrainedAt(steps: seq<Step>, i: nat, r: QueueReceipt) {
    i < |steps| && steps[i].DoDrain? && r in Drained(After(steps[..i]).items, steps[i].max)
  }

  predicate ConfirmsAt(steps: seq<Step>, i: nat, r: QueueReceipt) {
    i < |steps| && steps[i].DoConfirm? && r in steps[i].receipts
  }

  predicate RollsBackAt(steps: seq<Step>, i: nat, r: QueueReceipt) {
    i < |steps| && steps[i].DoRollback? && r in steps[i].receipts
  }

  predicate RemovesAt(steps: seq<Step>, i: nat, r: QueueReceipt) {
    i < |steps| && steps[i] == DoRemove(r)
  }

  predicate Touches(steps: seq<Step>, i: nat, r: QueueReceipt) {
    ConfirmsAt(steps, i, r) || RollsBackAt(steps, i, r) || RemovesAt(steps, i, r)
  }

  /** `r` was drained at `i`, and nothing confirmed, rolled back or removed it before step `n`. */
  ghost predicate HeldFrom(steps: seq<Step>, i: nat, n: nat, r: QueueReceipt) {
    && i < n <= |steps|
    && DrainedAt(steps, i, r)
    && forall k :: i < k < n ==> !Touches(steps, k, r)
  }

  /** `r` was held from `i` to `j`, confirmed at `j`, and not removed before step `n`. */
  ghost predicate ConfirmedFrom(steps: seq<Step>, i: nat, j: nat, n: nat, r: QueueReceipt) {
    && j < n <= |steps|
    && HeldFrom(steps, i, j, r)
    && ConfirmsAt(steps, j, r)
    && forall k :: j < k < n ==> !RemovesAt(steps, k, r)
  }

  /** Below 2^64 pushes no identifier is handed out twice. */
  lemma {:induction false} IdsAreFresh(steps: seq<Step>)
    requires Pushes(steps) < TWO_TO_64
    ensures After(steps).nextId == Pushes(steps)
    ensures forall k :: k in After(steps).items ==> k < After(steps).nextId
  {
    if steps != [] {
      IdsAreFresh(steps[..|steps| - 1]);
    }
  }

  lemma {:induction false} PushesMonotone(steps: seq<Step>, n: nat)
    requires n <= |steps|
    ensures Pushes(steps[..n]) <= Pushes(steps)
  {
    if n < |steps| {
      var init := steps[..|steps| - 1];
      PushesMonotone(init, n);
      assert init[..n] == steps[..n];
    } else {
      assert steps[..n] == steps;
    }
  }

  /** One step of a run, with what is known about `r` there. */
  lemma RunStep(steps: seq<Step>, n: nat, r: QueueReceipt)
    requires n < |steps|
    requires Pushes(steps) < TWO_TO_64
    ensures After(steps[..n + 1]) == Apply(After(steps[..n]), steps[n])
    ensures After(steps[..n]).nextId <= After(steps[..n + 1]).nextId
    ensures r in After(steps[..n]).items ==> r < After(steps[..n]).nextId
    ensures DrainedAt(steps, n, r) ==> r in After(steps[..n]).items && After(steps[..n]).items[r] == Pending
  {
    assert steps[..n + 1][..n] == steps[..n];
    PushesMonotone(steps, n + 1);
    PushesMonotone(steps, n);
    IdsAreFresh(steps[..n]);
    IdsAreFresh(steps[..n + 1]);
    if steps[n].DoDrain? {
      DrainTakesTheOldest(After(steps[..n]).items, steps[n].max);
    }
  }

  ghost predicate IsReserved(steps: seq<Step>, n: nat, r: QueueReceipt)
    requires n <= |steps|
  {
    r in After(steps[..n]).items && After(steps[..n]).items[r] == Reserved
  }

  ghost predicate PermitGranted(steps: seq<Step>, n: nat, r: QueueReceipt)
    requires n <= |steps|
  {
    Decide(After(steps[..n]).items, r) == Granted
  }

  /** How one step changes whether `r` is Reserved and whether its permit is granted. */
  lemma StatusStep(steps: seq<Step>, n: nat, r: QueueReceipt)
    requires n < |steps|
    requires Pushes(steps) < TWO_TO_64
    ensures IsReserved(steps, n + 1, r)
            <==> DrainedAt(steps, n, r) || (IsReserved(steps, n, r) && !Touches(steps, n, r))
    ensures PermitGranted(steps, n + 1, r)
            <==> (IsReserved(steps, n, r) && ConfirmsAt(steps, n, r))
                 || (PermitGranted(steps, n, r) && !RemovesAt(steps, n, r))
  {
    RunStep(steps, n, r);
  }

  lemma {:induction false} ReservedWasDrained(steps: seq<Step>, n: nat, r: QueueReceipt) returns (i: nat)
    requires n <= |steps| && Pushes(steps) < TWO_TO_64
    requires IsReserved(steps, n, r)
    ensures HeldFrom(steps, i, n, r)
  {
    assert n > 0;
    StatusStep(steps, n - 1, r);
    if DrainedAt(steps, n - 1, r) {
      i := n - 1;
    } else {
      i := ReservedWasDrained(steps, n - 1, r);
    }
  }

  lemma {:induction false} HeldIsReserved(steps: seq<Step>, i: nat, n: nat, r: QueueReceipt)
    requires Pushes(steps) < TWO_TO_64
    requires HeldFrom(steps, i, n, r)
    ensures IsReserved(steps, n, r)
    decreases n
  {
    StatusStep(steps, n - 1, r);
    if i < n - 1 {
      HeldIsReserved(steps, i, n - 1, r);
    }
  }

  /** After `n` steps a receipt is Reserved exactly when some drain took it and nothing has
      confirmed, rolled back or removed it since. */
  lemma ReservedIffHeld(steps: seq<Step>, n: nat, r: QueueReceipt)
    requires n <= |steps| && Pushes(steps) < TWO_TO_64
    ensures IsReserved(steps, n, r) <==> exists i: nat :: HeldFrom(steps, i, n, r)
  {
    if IsReserved(steps, n, r) {
      var i := ReservedWasDrained(steps, n, r);
    } else if i: nat :| HeldFrom(steps, i, n, r) {
      HeldIsReserved(steps, i, n, r);
    }
  }

  lemma {:induction false} GrantedWasConfirmed(steps: seq<Step>, n: nat, r: QueueReceipt) returns (i: nat, j: nat)
    requires n <= |steps| && Pushes(steps) < TWO_TO_64
    requires PermitGranted(steps, n, r)
    ensures ConfirmedFrom(steps, i, j, n, r)
  {
    assert n > 0;
    StatusStep(steps, n - 1, r);
    if PermitGranted(steps, n - 1, r) && !RemovesAt(steps, n - 1, r) {
      i, j := GrantedWasConfirmed(steps, n - 1, r);
    } else {
      i := ReservedWasDrained(steps, n - 1, r);
      j := n - 1;
    }
  }

  lemma {:induction false} ConfirmedIsGranted(steps: seq<Step>, i: nat, j: nat, n: nat, r: QueueReceipt)
    requires Pushes(steps) < TWO_TO_64
    requires ConfirmedFrom(steps, i, j, n, r)
    ensures PermitGranted(steps, n, r)
    decreases n
  {
    StatusStep(steps, n - 1, r);
    if j < n - 1 {
      ConfirmedIsGranted(steps, i, j, n - 1, r);
    } else {
      HeldIsReserved(steps, i, j, r);
    }
  }

  /** A permit is granted for a receipt exactly when it was drained, then confirmed with no
      rollback, removal or earlier confirmation in between, and has not been removed since. */
  lemma PermitIffDrainedThenConfirmed(steps: seq<Step>, n: nat, r: QueueReceipt)
    requires n <= |steps| && Pushes(steps) < TWO_TO_64
    ensures PermitGranted(steps, n, r) <==> exists i: nat, j: nat :: ConfirmedFrom(steps, i, j, n, r)
  {
    if PermitGranted(steps, n, r) {
      var i, j := GrantedWasConfirmed(steps, n, r);
    } else if i: nat, j: nat :| ConfirmedFrom(steps, i, j, n, r) {
      ConfirmedIsGranted(steps, i, j, n, r);
    }
  }

  // ---- What is in the queue ----

  /** Step `i` pushed `r`, and nothing removed it before step `n`. */
  ghost predicate PushedFrom(steps: seq<Step>, i: nat, n: nat, r: QueueReceipt) {
    && i < n <= |steps|
    && steps[i].DoPush? && Pushes(steps[..i]) == r
    && forall k :: i < k < n ==> !RemovesAt(steps, k, r)
  }

  ghost predicate IsQueued(steps: seq<Step>, n: nat, r: QueueReceipt)
    requires n <= |steps|
  {
    r in After(steps[..n]).items
  }

  lemma QueuedStep(steps: seq<Step>, n: nat, r: QueueReceipt)
    requires n < |steps|
    requires Pushes(steps) < TWO_TO_64
    ensures IsQueued(steps, n + 1, r)
            <==> (steps[n].DoPush? && Pushes(steps[..n]) == r) || (IsQueued(steps, n, r) && !RemovesAt(steps, n, r))
  {
    assert steps[..n + 1][..n] == steps[..n];
    PushesMonotone(steps, n);
    IdsAreFresh(steps[..n]);
  }

  lemma {:induction false} QueuedWasPushed(steps: seq<Step>, n: nat, r: QueueReceipt) returns (i: nat)
    requires n <= |steps| && Pushes(steps) < TWO_TO_64
    requires IsQueued(steps, n, r)
    ensures PushedFrom(steps, i, n, r)
  {
    assert n > 0;
    QueuedStep(steps, n - 1, r);
    if steps[n - 1].DoPush? && Pushes(steps[..n - 1]) == r {
      i := n - 1;
    } else {
      i := QueuedWasPushed(steps, n - 1, r);
    }
  }

  lemma {:induction false} PushedIsQueued(steps: seq<Step>, i: nat, n: nat, r: QueueReceipt)
    requires Pushes(steps) < TWO_TO_64
    requires PushedFrom(steps, i, n, r)
    ensures IsQueued(steps, n, r)
    decreases n
  {
    QueuedStep(steps, n - 1, r);
    if i < n - 1 {
      PushedIsQueued(steps, i, n - 1, r);
    }
  }

  /** Over every interleaving a receipt is in the queue exactly when the push that hands it out, the
      one after as many pushes as its number, has happened and nothing has removed it since. */
  lemma QueuedIffPushed(steps: seq<Step>, n: nat, r: QueueReceipt)
    requires n <= |steps| && Pushes(steps) < TWO_TO_64
    ensures r in After(steps[..n]).items <==> exists i: nat :: PushedFrom(steps, i, n, r)
  {
    if IsQueued(steps, n, r) {
      var i := QueuedWasPushed(steps, n, r);
    } else if i: nat :| PushedFrom(steps, i, n, r) {
      PushedIsQueued(steps, i, n, r);
    }
  }

  /** And it waits to be drained exactly when it is in the queue, no drain holds it and no permit was
      granted for it: those are the only other ways to be there. */
  lemma PendingIff(steps: seq<Step>, n: nat, r: QueueReceipt)
    requires n <= |steps| && Pushes(steps) < TWO_TO_64
    ensures r in After(steps[..n]).items && After(steps[..n]).items[r] == Pending
            <==> && (exists i: nat :: PushedFrom(steps, i, n, r))
                 && !(exists i: nat :: HeldFrom(steps, i, n, r))
                 && !(exists i: nat, j: nat :: ConfirmedFrom(steps, i, j, n, r))
    ensures Decide(After(steps[..n]).items, r) == Evicted <==> !(exists i: nat :: PushedFrom(steps, i, n, r))
  {
    QueuedIffPushed(steps, n, r);
    ReservedIffHeld(steps, n, r);
    PermitIffDrainedThenConfirmed(steps, n, r);
  }

  // ---- No second drain, no return ----

  /** `r` was handed out before step `n` and is not Pending there. */
  ghost predicate Taken(steps: seq<Step>, n: nat, r: QueueReceipt)
    requires n <= |steps|
  {
    var state := After(steps[..n]);
    r < state.nextId && (r in state.items ==> state.items[r] != Pending)
  }

  lemma TakenStep(steps: seq<Step>, n: nat, r: QueueReceipt)
    requires n < |steps|
    requires Pushes(steps) < TWO_TO_64
    requires DrainedAt(steps, n, r) || (Taken(steps, n, r) && !RollsBackAt(steps, n, r))
    ensures Taken(steps, n + 1, r)
  {
    RunStep(steps, n, r);
  }

  /** Once drained, and as long as nobody rolls it back, a receipt is never Pending again. */
  lemma {:induction false} DrainedStaysTaken(steps: seq<Step>, i: nat, n: nat, r: QueueReceipt)
    requires i < n <= |steps|
    requires Pushes(steps) < TWO_TO_64
    requires DrainedAt(steps, i, r)
    requires forall k :: i < k < n ==> !RollsBackAt(steps, k, r)
    ensures Taken(steps, n, r)
  {
    if n - 1 > i {
      DrainedStaysTaken(steps, i, n - 1, r);
    }
    TakenStep(steps, n - 1, r);
  }

  /** Two drains of the same receipt are separated by a rollback of it. */
  lemma NoDoubleDrain(steps: seq<Step>, i: nat, j: nat, r: QueueReceipt)
    requires i < j < |steps|
    requires Pushes(steps) < TWO_TO_64
    requires DrainedAt(steps, i, r) && DrainedAt(steps, j, r)
    ensures exists k :: i < k < j && RollsBackAt(steps, k, r)
  {
    if forall k :: i < k < j ==> !RollsBackAt(steps, k, r) {
      DrainedStaysTaken(steps, i, j, r);
      RunStep(steps, j, r);
    }
  }

  /** An issued receipt that is removed never comes back: every later poll finds it evicted. */
  lemma {:induction false} RemovedNeverReturns(steps: seq<Step>, i: nat, n: nat, r: QueueReceipt)
    requires i < n <= |steps|
    requires Pushes(steps) < TWO_TO_64
    requires RemovesAt(steps, i, r)
    requires r < After(steps[..i]).nextId
    ensures r < After(steps[..n]).nextId
    ensures Decide(After(steps[..n]).items, r) == Evicted
  {
    RunStep(steps, n - 1, r);
    if n - 1 > i {
      RemovedNeverReturns(steps, i, n - 1, r);
    }
  }
}
