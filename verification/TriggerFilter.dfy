/** Generic trigger filtering (cross_chain.rs): identify the trigger transactions of a block, count
    the prefix of them that L1 consumed, and drop the rest. */
module TriggerFilter {
  import opened Wrappers
  import opened MachineInts
  import opened CrossChain
  import opened Consumption

  // ---- Stage 1: identify ----

  predicate IsTriggerLog(log: Log, ccm: Address) {
    log.address == ccm && log.topics != [] && log.topics[0] == CONSUMED_SIGNATURE
  }

  predicate IsTrigger(receipt: Receipt, ccm: Address) {
    exists i :: 0 <= i < |receipt.logs| && IsTriggerLog(receipt.logs[i], ccm)
  }

  function TriggerIndices(receipts: seq<Receipt>, ccm: Address): seq<nat> {
    if receipts == [] then [] else
      var n := |receipts| - 1;
      TriggerIndices(receipts[..n], ccm) + if IsTrigger(receipts[n], ccm) then [n] else []
  }

  method IdentifyTriggerTxIndices(receipts: seq<Receipt>, ccm: Address) returns (seen: seq<nat>)
    ensures seen == TriggerIndices(receipts, ccm)
  {
    seen := [];
    var i := 0;
    while i < |receipts|
      invariant 0 <= i <= |receipts|
      invariant seen == TriggerIndices(receipts[..i], ccm)
    {
      assert receipts[..i + 1][..i] == receipts[..i];
      if IsTrigger(receipts[i], ccm) {
        seen := seen + [i];
      }
      i := i + 1;
    }
    assert receipts[..i] == receipts;
  }

  /** The indices come out strictly increasing, and they are exactly the trigger transactions. */
  lemma {:induction false} TriggerIndicesAreSorted(receipts: seq<Receipt>, ccm: Address)
    ensures forall i, j :: 0 <= i < j < |TriggerIndices(receipts, ccm)| ==>
              TriggerIndices(receipts, ccm)[i] < TriggerIndices(receipts, ccm)[j]
    ensures forall x :: x in TriggerIndices(receipts, ccm) <==> 0 <= x < |receipts| && IsTrigger(receipts[x], ccm)
  {
    if receipts != [] {
      var n := |receipts| - 1;
      TriggerIndicesAreSorted(receipts[..n], ccm);
      var prior := TriggerIndices(receipts[..n], ccm);
      forall i | 0 <= i < |prior|
        ensures prior[i] < n
      {
        assert prior[i] in prior;
      }
    }
  }

  // ---- Stage 2: count the consumed prefix ----

  /** The action hashes of the `ExecutionConsumed` logs of a receipt; a log needs two topics here. */
  function ConsumedHashes(logs: seq<Log>, ccm: Address): seq<ActionHash> {
    if logs == [] then [] else
      var n := |logs| - 1;
      ConsumedHashes(logs[..n], ccm) +
      if logs[n].address == ccm && |logs[n].topics| >= 2 && logs[n].topics[0] == CONSUMED_SIGNATURE
      then [logs[n].topics[1]] else []
  }

  function HashesAt(receipts: seq<Receipt>, ccm: Address, trigger: nat): seq<ActionHash> {
    if trigger < |receipts| then ConsumedHashes(receipts[trigger].logs, ccm) else []
  }

  /** The hashes each listed trigger consumed; none when it has no receipt. */
  function TriggerHashes(receipts: seq<Receipt>, ccm: Address, triggers: seq<nat>): seq<seq<ActionHash>> {
    seq(|triggers|, t requires 0 <= t < |triggers| => HashesAt(receipts, ccm, triggers[t]))
  }

  function Times(hashes: seq<ActionHash>, h: ActionHash): nat {
    if hashes == [] then 0 else
      var n := |hashes| - 1;
      Times(hashes[..n], h) + if hashes[n] == h then 1 else 0
  }

  /** How often a run of triggers consumed `h`. */
  function Occurrences(lists: seq<seq<ActionHash>>, h: ActionHash): nat {
    if lists == [] then 0 else
      var n := |lists| - 1;
      Occurrences(lists[..n], h) + Times(lists[n], h)
  }

  /** Trigger `t` counts as consumed: it has a hash, and of each of its hashes L1 consumed more than
      the earlier triggers did. Repeats inside one receipt are not counted. */
  predicate TriggerConsumed(lists: seq<seq<ActionHash>>, start: Counts, t: nat)
    requires t < |lists|
  {
    && lists[t] != []
    && forall h :: h in lists[t] ==> Occurrences(lists[..t], h) < Avail(start, h)
  }

  function PrefixFrom(lists: seq<seq<ActionHash>>, start: Counts, t: nat): nat
    requires t <= |lists|
    decreases |lists| - t
  {
    if t < |lists| && TriggerConsumed(lists, start, t) then PrefixFrom(lists, start, t + 1) else t
  }

  function ConsumedPrefix(lists: seq<seq<ActionHash>>, start: Counts): nat {
    PrefixFrom(lists, start, 0)
  }

  lemma {:induction false} PrefixBounds(lists: seq<seq<ActionHash>>, start: Counts, t: nat)
    requires t <= |lists|
    ensures t <= PrefixFrom(lists, start, t) <= |lists|
    decreases |lists| - t
  {
    if t < |lists| && TriggerConsumed(lists, start, t) {
      PrefixBounds(lists, start, t + 1);
    }
  }

  lemma {:induction false} ConsumedBelowPrefix(lists: seq<seq<ActionHash>>, start: Counts, t: nat, i: nat)
    requires t <= i < |lists|
    ensures i < PrefixFrom(lists, start, t) ==> TriggerConsumed(lists, start, i)
    ensures i == PrefixFrom(lists, start, t) ==> !TriggerConsumed(lists, start, i)
    decreases i - t
  {
    if t < i && TriggerConsumed(lists, start, t) {
      ConsumedBelowPrefix(lists, start, t + 1, i);
    } else if t == i && TriggerConsumed(lists, start, t) {
      PrefixBounds(lists, start, t + 1);
    }
  }

  /** `k` is the greatest prefix all of whose triggers are consumed. */
  ghost predicate GreatestConsumedPrefix(lists: seq<seq<ActionHash>>, start: Counts, k: nat) {
    && k <= |lists|
    && (forall i :: 0 <= i < k ==> TriggerConsumed(lists, start, i))
    && (k < |lists| ==> !TriggerConsumed(lists, start, k))
  }

  lemma PrefixIsGreatest(lists: seq<seq<ActionHash>>, start: Counts, k: nat)
    ensures k == ConsumedPrefix(lists, start) <==> GreatestConsumedPrefix(lists, start, k)
  {
    PrefixBounds(lists, start, 0);
    var p := ConsumedPrefix(lists, start);
    if k == p {
      forall i | 0 <= i < |lists|
        ensures i < p ==> TriggerConsumed(lists, start, i)
        ensures i == p ==> !TriggerConsumed(lists, start, i)
      {
        ConsumedBelowPrefix(lists, start, 0, i);
      }
    } else if k < p {
      ConsumedBelowPrefix(lists, start, 0, k);
    } else if p < |lists| {
      ConsumedBelowPrefix(lists, start, 0, p);
    }
  }

  /** The counters once a run of triggers has been charged; saturating at zero. */
  function AfterTriggers(lists: seq<seq<ActionHash>>, start: Counts): Counts {
    map h | h in start :: Excess(start[h], Occurrences(lists, h))
  }

  function Charge(counts: Counts, hashes: seq<ActionHash>): Counts {
    map h | h in counts :: Excess(counts[h], Times(hashes, h))
  }

  predicate AllPositive(counts: Counts, hashes: seq<ActionHash>) {
    forall h :: h in hashes ==> Avail(counts, h) > 0
  }

  method AllAvailable(counts: Counts, hashes: seq<ActionHash>) returns (ok: bool)
    ensures ok <==> AllPositive(counts, hashes)
  {
    var i := 0;
    while i < |hashes|
      invariant 0 <= i <= |hashes|
      invariant AllPositive(counts, hashes[..i])
    {
      assert hashes[..i + 1] == hashes[..i] + [hashes[i]];
      if Avail(counts, hashes[i]) == 0 {
        return false;
      }
      i := i + 1;
    }
    assert hashes[..i] == hashes;
    return true;
  }

  method ChargeCounters(counts: Counts, hashes: seq<ActionHash>) returns (remaining: Counts)
    ensures remaining == Charge(counts, hashes)
  {
    remaining := counts;
    var i := 0;
    while i < |hashes|
      invariant 0 <= i <= |hashes|
      invariant remaining == Charge(counts, hashes[..i])
    {
      ChargeStep(counts, hashes, i);
      if hashes[i] in remaining {
        remaining := remaining[hashes[i] := Excess(remaining[hashes[i]], 1)];
      }
      i := i + 1;
    }
    assert hashes[..i] == hashes;
  }

  lemma ChargeStep(counts: Counts, hashes: seq<ActionHash>, i: nat)
    requires i < |hashes|
    ensures Charge(counts, hashes[..i + 1]) ==
            var before := Charge(counts, hashes[..i]);
            if hashes[i] in before then before[hashes[i] := Excess(before[hashes[i]], 1)] else before
  {
    assert hashes[..i + 1][..i] == hashes[..i];
  }

  /** The walk's decision about one trigger, and the counters if it goes on. */
  method ConsumeTrigger(receipts: seq<Receipt>, ccm: Address, counts: Counts, trigger: nat)
    returns (consumed: bool, remaining: Counts)
    ensures var hashes := HashesAt(receipts, ccm, trigger);
            && (consumed <==> hashes != [] && AllPositive(counts, hashes))
            && remaining == if consumed then Charge(counts, hashes) else counts
  {
    if trigger >= |receipts| {
      return false, counts;
    }
    var hashes := ConsumedHashes(receipts[trigger].logs, ccm);
    if hashes == [] {
      return false, counts;
    }
    consumed := AllAvailable(counts, hashes);
    remaining := counts;
    if consumed {
      remaining := ChargeCounters(counts, hashes);
    }
  }

  /** The counter-decrementing walk computes the stateless prefix, and leaves the counters charged
      for exactly that prefix. */
  method ComputeConsumedTriggerPrefix(receipts: seq<Receipt>, ccm: Address, start: Counts, triggers: seq<nat>)
    returns (count: nat, remaining: Counts)
    ensures count == ConsumedPrefix(TriggerHashes(receipts, ccm, triggers), start) <= |triggers|
    ensures remaining == AfterTriggers(TriggerHashes(receipts, ccm, triggers)[..count], start)
  {
    ghost var lists := TriggerHashes(receipts, ccm, triggers);
    remaining := start;
    count := 0;
    while count < |triggers|
      invariant count <= |triggers|
      invariant remaining == AfterTriggers(lists[..count], start)
      invariant PrefixFrom(lists, start, count) == ConsumedPrefix(lists, start)
    {
      WalkStep(lists, start, count);
      var consumed, after := ConsumeTrigger(receipts, ccm, remaining, triggers[count]);
      if !consumed {
        return;
      }
      remaining := after;
      count := count + 1;
    }
  }

  /** One step of the walk: when it goes on, and what the counters become. */
  lemma WalkStep(lists: seq<seq<ActionHash>>, start: Counts, t: nat)
    requires t < |lists|
    ensures var counts := AfterTriggers(lists[..t], start);
            if lists[t] != [] && AllPositive(counts, lists[t]) then
              && PrefixFrom(lists, start, t) == PrefixFrom(lists, start, t + 1)
              && Charge(counts, lists[t]) == AfterTriggers(lists[..t + 1], start)
            else PrefixFrom(lists, start, t) == t
  {
    AvailableMeansConsumed(lists, start, t);
    assert lists[..t + 1][..t] == lists[..t];
  }

  lemma AvailableMeansConsumed(lists: seq<seq<ActionHash>>, start: Counts, t: nat)
    requires t < |lists|
    ensures TriggerConsumed(lists, start, t)
            <==> lists[t] != [] && AllPositive(AfterTriggers(lists[..t], start), lists[t])
  {
    forall h
      ensures Occurrences(lists[..t], h) < Avail(start, h) <==> Avail(AfterTriggers(lists[..t], start), h) > 0
    {
    }
  }

  lemma ConsumedIsMonotone(lists: seq<seq<ActionHash>>, less: Counts, more: Counts, t: nat)
    requires t < |lists|
    requires forall h :: Avail(less, h) <= Avail(more, h)
    ensures TriggerConsumed(lists, less, t) ==> TriggerConsumed(lists, more, t)
  {
  }

  /** More consumption on L1 never shortens the prefix. */
  lemma PrefixIsMonotone(lists: seq<seq<ActionHash>>, less: Counts, more: Counts)
    requires forall h :: Avail(less, h) <= Avail(more, h)
    ensures ConsumedPrefix(lists, less) <= ConsumedPrefix(lists, more)
  {
    var a, b := ConsumedPrefix(lists, less), ConsumedPrefix(lists, more);
    PrefixIsGreatest(lists, less, a);
    PrefixIsGreatest(lists, more, b);
    if b < a {
      ConsumedIsMonotone(lists, less, more, b);
    }
  }

  // ---- What one log contributes ----

  /** A log of another contract or another signature contributes nothing. One of the manager's
      `ExecutionConsumed` logs makes its transaction a trigger, and its second topic, if it has one, is
      a consumed hash. */
  lemma LogContributes(logs: seq<Log>, log: Log, ccm: Address)
    ensures var ours := log.address == ccm && |log.topics| >= 1 && log.topics[0] == CONSUMED_SIGNATURE;
            && (IsTrigger(Receipt(logs + [log]), ccm) <==> IsTrigger(Receipt(logs), ccm) || ours)
            && ConsumedHashes(logs + [log], ccm) ==
               ConsumedHashes(logs, ccm) + if ours && |log.topics| >= 2 then [log.topics[1]] else []
  {
    var all := logs + [log];
    assert all[..|logs|] == logs;
    assert forall i :: 0 <= i < |logs| ==> all[i] == logs[i];
    assert all[|logs|] == log;
    assert IsTriggerLog(all[|logs|], ccm) <==> IsTriggerLog(log, ccm);
  }

  lemma NoLogNothing(ccm: Address)
    ensures !IsTrigger(Receipt([]), ccm) && ConsumedHashes([], ccm) == []
  {
  }

  predicate NamesHash(log: Log, ccm: Address) {
    log.address == ccm && |log.topics| >= 2 && log.topics[0] == CONSUMED_SIGNATURE
  }

  lemma {:induction false} NoHashNamed(logs: seq<Log>, ccm: Address)
    ensures ConsumedHashes(logs, ccm) == [] <==> forall i :: 0 <= i < |logs| ==> !NamesHash(logs[i], ccm)
  {
    if logs == [] {
      NoLogNothing(ccm);
    } else {
      var n := |logs| - 1;
      NoHashNamed(logs[..n], ccm);
      assert logs == logs[..n] + [logs[n]];
      LogContributes(logs[..n], logs[n], ccm);
    }
  }

  /** Counting stops at a listed trigger that has no receipt, or whose receipt names no hash. */
  lemma HashlessTriggerStops(receipts: seq<Receipt>, ccm: Address, start: Counts, triggers: seq<nat>, t: nat)
    requires t < |triggers|
    requires triggers[t] < |receipts| ==>
               forall i :: 0 <= i < |receipts[triggers[t]].logs| ==> !NamesHash(receipts[triggers[t]].logs[i], ccm)
    ensures ConsumedPrefix(TriggerHashes(receipts, ccm, triggers), start) <= t
  {
    var lists := TriggerHashes(receipts, ccm, triggers);
    if triggers[t] < |receipts| {
      NoHashNamed(receipts[triggers[t]].logs, ccm);
    }
    PrefixIsGreatest(lists, start, ConsumedPrefix(lists, start));
    assert !TriggerConsumed(lists, start, t);
  }

  // ---- Stage 3: filter ----

  function RemoveIndices(txs: seq<Tx>, removed: set<nat>): seq<Tx> {
    if txs == [] then [] else
      var n := |txs| - 1;
      RemoveIndices(txs[..n], removed) + if n in removed then [] else [txs[n]]
  }

  function DropFirst(s: seq<nat>, n: nat): seq<nat> {
    if n <= |s| then s[n..] else []
  }

  function FilterBlockByTriggerPrefix(block: Payload, triggers: seq<nat>, keep: nat): Result<Payload, string> {
    match block
    case NoBytes => Ok(NoBytes)
    case Undecodable(_) => Err("failed to RLP-decode transactions")
    case RlpList(txs) => Ok(RlpList(RemoveIndices(txs, Dropped(triggers, keep))))
  }

  /** The receipts of a block whose transactions produce the receipts `receiptOf`. */
  function ReceiptsOf(txs: seq<Tx>, receiptOf: Tx -> Receipt): seq<Receipt> {
    seq(|txs|, i requires 0 <= i < |txs| => receiptOf(txs[i]))
  }

  function Triggers(txs: seq<Tx>, receiptOf: Tx -> Receipt, ccm: Address): seq<nat> {
    TriggerIndices(ReceiptsOf(txs, receiptOf), ccm)
  }

  /** What filtering means: every non-trigger stays, and a trigger stays exactly when fewer than
      `keep` triggers precede it. */
  function Kept(txs: seq<Tx>, receiptOf: Tx -> Receipt, ccm: Address, keep: nat): seq<Tx> {
    if txs == [] then [] else
      var n := |txs| - 1;
      Kept(txs[..n], receiptOf, ccm, keep) +
      if IsTrigger(receiptOf(txs[n]), ccm) && keep <= |Triggers(txs[..n], receiptOf, ccm)| then [] else [txs[n]]
  }

  /** Filtering fails exactly on bytes that do not decode; no bytes stay no bytes, and a list keeps, in
      order, exactly the transactions that are not listed past the first `keep` triggers. */
  lemma FilterOutcome(block: Payload, triggers: seq<nat>, keep: nat)
    ensures var r := FilterBlockByTriggerPrefix(block, triggers, keep);
            && (r.Err? <==> block.Undecodable?)
            && (block == NoBytes ==> r == Ok(NoBytes))
            && (block.RlpList? ==>
                  r == Ok(RlpList(RemoveIndices(block.txs, set t: nat | keep <= t < |triggers| :: triggers[t]))))
  {
    if block.RlpList? {
      var past := set t: nat | keep <= t < |triggers| :: triggers[t];
      forall x
        ensures x in Dropped(triggers, keep) <==> x in past
      {
        if x in past {
          var t: nat :| keep <= t < |triggers| && triggers[t] == x;
          assert DropFirst(triggers, keep)[t - keep] == x;
        }
        if x in Dropped(triggers, keep) {
          var u :| 0 <= u < |DropFirst(triggers, keep)| && DropFirst(triggers, keep)[u] == x;
          assert triggers[keep + u] == x;
        }
      }
      assert Dropped(triggers, keep) == past;
    }
  }

  lemma TriggersStep(txs: seq<Tx>, tx: Tx, receiptOf: Tx -> Receipt, ccm: Address)
    ensures Triggers(txs + [tx], receiptOf, ccm) ==
            Triggers(txs, receiptOf, ccm) + if IsTrigger(receiptOf(tx), ccm) then [|txs|] else []
  {
    assert ReceiptsOf(txs + [tx], receiptOf)[..|txs|] == ReceiptsOf(txs, receiptOf);
  }

  lemma TriggersBelowLength(txs: seq<Tx>, receiptOf: Tx -> Receipt, ccm: Address)
    ensures forall x :: x in Triggers(txs, receiptOf, ccm) ==> x < |txs|
  {
    TriggerIndicesAreSorted(ReceiptsOf(txs, receiptOf), ccm);
  }

  ghost predicate SameBelow(a: set<nat>, b: set<nat>, n: nat) {
    (forall x | x in a :: x < n ==> x in b) && (forall x | x in b :: x < n ==> x in a)
  }

  lemma {:induction false} RemoveIrrelevant(txs: seq<Tx>, a: set<nat>, b: set<nat>)
    requires SameBelow(a, b, |txs|)
    ensures RemoveIndices(txs, a) == RemoveIndices(txs, b)
  {
    if txs != [] {
      RemoveIrrelevant(txs[..|txs| - 1], a, b);
    }
  }

  function Dropped(triggers: seq<nat>, keep: nat): set<nat> {
    set x | x in DropFirst(triggers, keep)
  }

  /** The index-set filter computes `Kept`. */
  lemma {:induction false} FilterKeeps(txs: seq<Tx>, receiptOf: Tx -> Receipt, ccm: Address, keep: nat)
    ensures RemoveIndices(txs, Dropped(Triggers(txs, receiptOf, ccm), keep)) == Kept(txs, receiptOf, ccm, keep)
  {
    if txs != [] {
      var n := |txs| - 1;
      FilterKeeps(txs[..n], receiptOf, ccm, keep);
      assert txs[..n] + [txs[n]] == txs;
      TriggersStep(txs[..n], txs[n], receiptOf, ccm);
      var prior := Triggers(txs[..n], receiptOf, ccm);
      TriggersBelowLength(txs[..n], receiptOf, ccm);
      DroppedStep(prior, n, keep);
      assert SameBelow(Dropped(Triggers(txs, receiptOf, ccm), keep), Dropped(prior, keep), n) by {
        if !IsTrigger(receiptOf(txs[n]), ccm) {
          assert Triggers(txs, receiptOf, ccm) == prior;
        }
      }
      RemoveIrrelevant(txs[..n], Dropped(Triggers(txs, receiptOf, ccm), keep), Dropped(prior, keep));
    }
  }

  lemma DroppedStep(s: seq<nat>, x: nat, keep: nat)
    requires forall y :: y in s ==> y < x
    ensures Dropped(s + [x], keep) == Dropped(s, keep) + if keep <= |s| then {x} else {}
    ensures x !in Dropped(s, keep)
  {
    forall y | y in Dropped(s, keep)
      ensures y in s
    {
    }
    if keep <= |s| {
      assert (s + [x])[keep..] == s[keep..] + [x];
    }
  }

  /** While no more than `keep` triggers have been seen nothing has been removed. */
  lemma {:induction false} FewTriggersKeepAll(txs: seq<Tx>, receiptOf: Tx -> Receipt, ccm: Address, keep: nat)
    requires |Triggers(txs, receiptOf, ccm)| <= keep
    ensures Kept(txs, receiptOf, ccm, keep) == txs
  {
    if txs != [] {
      var n := |txs| - 1;
      assert txs[..n] + [txs[n]] == txs;
      TriggersStep(txs[..n], txs[n], receiptOf, ccm);
      FewTriggersKeepAll(txs[..n], receiptOf, ccm, keep);
    }
  }

  /** The kept triggers are the first `keep`, and each keeps its index and its transaction. */
  lemma {:induction false} KeptTriggersStayPut(txs: seq<Tx>, receiptOf: Tx -> Receipt, ccm: Address, keep: nat)
    requires keep <= |Triggers(txs, receiptOf, ccm)|
    ensures Triggers(Kept(txs, receiptOf, ccm, keep), receiptOf, ccm) == Triggers(txs, receiptOf, ccm)[..keep]
    ensures forall x :: x in Triggers(txs, receiptOf, ccm)[..keep] ==>
              x < |txs| && x < |Kept(txs, receiptOf, ccm, keep)| && Kept(txs, receiptOf, ccm, keep)[x] == txs[x]
  {
    TriggersBelowLength(txs, receiptOf, ccm);
    var all := Triggers(txs, receiptOf, ccm);
    if keep == |all| {
      FewTriggersKeepAll(txs, receiptOf, ccm, keep);
      assert all[..keep] == all;
    } else {
      var n := |txs| - 1;
      assert txs[..n] + [txs[n]] == txs;
      TriggersStep(txs[..n], txs[n], receiptOf, ccm);
      KeptTriggersStayPut(txs[..n], receiptOf, ccm, keep);
      var prior := Kept(txs[..n], receiptOf, ccm, keep);
      assert Triggers(txs[..n], receiptOf, ccm)[..keep] == all[..keep];
      if !IsTrigger(receiptOf(txs[n]), ccm) {
        TriggersStep(prior, txs[n], receiptOf, ccm);
      } else {
        assert Kept(txs, receiptOf, ccm, keep) == prior;
      }
    }
  }

  function NonTriggers(txs: seq<Tx>, receiptOf: Tx -> Receipt, ccm: Address): seq<Tx> {
    if txs == [] then [] else
      var n := |txs| - 1;
      NonTriggers(txs[..n], receiptOf, ccm) + if IsTrigger(receiptOf(txs[n]), ccm) then [] else [txs[n]]
  }

  /** Transactions that trigger nothing are untouched and keep their order. */
  lemma {:induction false} FilterKeepsNonTriggers(txs: seq<Tx>, receiptOf: Tx -> Receipt, ccm: Address, keep: nat)
    ensures NonTriggers(Kept(txs, receiptOf, ccm, keep), receiptOf, ccm) == NonTriggers(txs, receiptOf, ccm)
  {
    if txs != [] {
      var n := |txs| - 1;
      FilterKeepsNonTriggers(txs[..n], receiptOf, ccm, keep);
      var prior := Kept(txs[..n], receiptOf, ccm, keep);
      assert (prior + [txs[n]])[..|prior|] == prior;
      assert prior + [] == prior;
    }
  }

  /** Counting over the first `k` triggers alone gives `k` again. */
  lemma PrefixOfPrefix(lists: seq<seq<ActionHash>>, start: Counts, k: nat)
    requires k == ConsumedPrefix(lists, start)
    ensures k <= |lists|
    ensures ConsumedPrefix(lists[..k], start) == k
  {
    PrefixIsGreatest(lists, start, k);
    forall i | 0 <= i < k
      ensures TriggerConsumed(lists[..k], start, i)
    {
      assert lists[..k][..i] == lists[..i];
      assert TriggerConsumed(lists, start, i);
    }
    PrefixIsGreatest(lists[..k], start, k);
  }

  /** Filtering is a fixpoint: identify, count and filter again, from the same counters, on the
      filtered block gives the same count, the same final counters and the same block, which still
      has every transaction that triggers nothing. Kept transactions are taken to produce the same
      receipts when re-executed. */
  lemma FilteringIsAFixpoint(txs: seq<Tx>, receiptOf: Tx -> Receipt, ccm: Address, start: Counts)
    ensures
      var triggers := Triggers(txs, receiptOf, ccm);
      var lists := TriggerHashes(ReceiptsOf(txs, receiptOf), ccm, triggers);
      var k := ConsumedPrefix(lists, start);
      var once := FilterBlockByTriggerPrefix(RlpList(txs), triggers, k);
      && k <= |triggers| && once.Ok? && once.value.RlpList?
      && var kept := once.value.txs;
         var triggers' := Triggers(kept, receiptOf, ccm);
         var lists' := TriggerHashes(ReceiptsOf(kept, receiptOf), ccm, triggers');
         && triggers' == triggers[..k]
         && ConsumedPrefix(lists', start) == k
         && AfterTriggers(lists'[..k], start) == AfterTriggers(lists[..k], start)
         && FilterBlockByTriggerPrefix(once.value, triggers', k) == once
         && NonTriggers(kept, receiptOf, ccm) == NonTriggers(txs, receiptOf, ccm)
  {
    var triggers := Triggers(txs, receiptOf, ccm);
    var lists := TriggerHashes(ReceiptsOf(txs, receiptOf), ccm, triggers);
    var k := ConsumedPrefix(lists, start);
    PrefixOfPrefix(lists, start, k);
    FilterKeeps(txs, receiptOf, ccm, k);
    KeptTriggersStayPut(txs, receiptOf, ccm, k);
    var kept := Kept(txs, receiptOf, ccm, k);
    var lists' := TriggerHashes(ReceiptsOf(kept, receiptOf), ccm, triggers[..k]);
    assert lists' == lists[..k] by {
      forall i | 0 <= i < k
        ensures lists'[i] == lists[i]
      {
        assert triggers[..k][i] in triggers[..k];
      }
    }
    assert lists'[..k] == lists[..k];
    FilterKeeps(kept, receiptOf, ccm, k);
    FewTriggersKeepAll(kept, receiptOf, ccm, k);
    FilterKeepsNonTriggers(txs, receiptOf, ccm, k);
  }

  // ---- When is the prefix exact? ----

  /** Trigger `t` is fully paid for: L1 consumed each of its hashes as often as the triggers up to
      and including it did. */
  ghost predicate FullyConsumed(lists: seq<seq<ActionHash>>, start: Counts, t: nat)
    requires t < |lists|
  {
    && lists[t] != []
    && forall h :: h in lists[t] ==> Occurrences(lists[..t], h) + Times(lists[t], h) <= Avail(start, h)
  }

  ghost predicate NoRepeats(hashes: seq<ActionHash>) {
    forall h :: h in hashes ==> Times(hashes, h) == 1
  }

  lemma {:induction false} TimesPositive(hashes: seq<ActionHash>, h: ActionHash)
    ensures h in hashes <==> Times(hashes, h) > 0
  {
    if hashes != [] {
      var n := |hashes| - 1;
      TimesPositive(hashes[..n], h);
      assert hashes == hashes[..n] + [hashes[n]];
    }
  }

  /** The counters that give hash `h` one more than trigger `t`'s predecessors used, and every other
      hash of the trigger all it needs. */
  ghost function OneMore(lists: seq<seq<ActionHash>>, t: nat, h: ActionHash): Counts
    requires t < |lists|
  {
    map g | g in lists[t] :: Occurrences(lists[..t], g) + if g == h then 1 else Times(lists[t], g)
  }

  /** The `> 0` test agrees with full payment for every consumed multiset exactly when the trigger's
      receipt repeats no hash. */
  lemma CountingIsExactIffNoRepeats(lists: seq<seq<ActionHash>>, t: nat)
    requires t < |lists|
    ensures (forall start: Counts :: TriggerConsumed(lists, start, t) <==> FullyConsumed(lists, start, t))
            <==> NoRepeats(lists[t])
  {
    if NoRepeats(lists[t]) {
      forall start: Counts
        ensures TriggerConsumed(lists, start, t) <==> FullyConsumed(lists, start, t)
      {
      }
    } else {
      var h :| h in lists[t] && Times(lists[t], h) != 1;
      var start := OneMore(lists, t, h);
      TimesPositive(lists[t], h);
      forall g | g in lists[t]
        ensures Occurrences(lists[..t], g) < Avail(start, g)
      {
        TimesPositive(lists[t], g);
      }
      assert TriggerConsumed(lists, start, t);
      assert !FullyConsumed(lists, start, t);
    }
  }

  lemma TimesSnoc(hashes: seq<ActionHash>, x: ActionHash, h: ActionHash)
    ensures Times(hashes + [x], h) == Times(hashes, h) + if x == h then 1 else 0
  {
    assert (hashes + [x])[..|hashes|] == hashes;
  }

  lemma ConsumedSnoc(logs: seq<Log>, ccm: Address, h: ActionHash)
    ensures ConsumedHashes(logs + [Log(ccm, [CONSUMED_SIGNATURE, h])], ccm) == ConsumedHashes(logs, ccm) + [h]
  {
    assert (logs + [Log(ccm, [CONSUMED_SIGNATURE, h])])[..|logs|] == logs;
  }

  lemma ConsumedTwice(ccm: Address, h: ActionHash)
    ensures var log := Log(ccm, [CONSUMED_SIGNATURE, h]);
            ConsumedHashes([log, log], ccm) == [h, h]
    ensures Times([h, h], h) == 2
  {
    var log := Log(ccm, [CONSUMED_SIGNATURE, h]);
    ConsumedSnoc([], ccm, h);
    ConsumedSnoc([log], ccm, h);
    assert [] + [log] == [log] && [log] + [log] == [log, log];
    assert [] + [h] == [h] && [h] + [h] == [h, h];
    TimesSnoc([], h, h);
    TimesSnoc([h], h, h);
  }

  lemma OnlyTrigger(log: Log, receipt: Receipt, ccm: Address)
    requires receipt.logs != [] && receipt.logs[0] == log && IsTriggerLog(log, ccm)
    ensures TriggerIndices([receipt], ccm) == [0]
    ensures TriggerHashes([receipt], ccm, [0]) == [ConsumedHashes(receipt.logs, ccm)]
  {
    assert IsTriggerLog(receipt.logs[0], ccm);
    assert [receipt][..0] == [];
  }

  /** One such receipt: it consumes `h` twice, L1 consumed `h` once, and the trigger still counts. */
  lemma RepeatInOneReceiptOvercounts(ccm: Address, h: ActionHash)
    ensures var log := Log(ccm, [CONSUMED_SIGNATURE, h]);
            var receipts := [Receipt([log, log])];
            var lists := TriggerHashes(receipts, ccm, TriggerIndices(receipts, ccm));
            && lists == [[h, h]]
            && ConsumedPrefix(lists, map[h := 1]) == 1
            && !FullyConsumed(lists, map[h := 1], 0)
  {
    var log := Log(ccm, [CONSUMED_SIGNATURE, h]);
    ConsumedTwice(ccm, h);
    OnlyTrigger(log, Receipt([log, log]), ccm);
    var lists := [[h, h]];
    assert lists[..0] == [];
    assert TriggerConsumed(lists, map[h := 1], 0);
    PrefixIsGreatest(lists, map[h := 1], 1);
    assert h in lists[0];
  }
}
