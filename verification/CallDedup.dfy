/** Count-based dedup of re-detected calls (cross_chain.rs, `filter_new_by_count`). The `eq`
    argument compares an identity `key` of two calls (their destination, calldata, value, source). */
module CallDedup {
  import opened MachineInts

  ghost predicate ComparesKeys<T(!new), K>(eq: (T, T) -> bool, key: T -> K) {
    forall x, y :: eq(x, y) <==> key(x) == key(y)
  }

  ghost function Count<T, K>(s: seq<T>, key: T -> K, k: K): nat {
    if s == [] then 0 else Count(s[..|s| - 1], key, k) + if key(s[|s| - 1]) == k then 1 else 0
  }

  ghost function UnusedCount<T, K>(existing: seq<T>, used: seq<bool>, key: T -> K, k: K): nat
    requires |used| == |existing|
  {
    if existing == [] then 0 else
      var n := |existing| - 1;
      UnusedCount(existing[..n], used[..n], key, k) + if !used[n] && key(existing[n]) == k then 1 else 0
  }

  /** Which new items survive: an item is dropped exactly when the existing items hold more of its
      key than the new items before it. */
  ghost function Surplus<T, K>(newItems: seq<T>, existing: seq<T>, key: T -> K): seq<T> {
    if newItems == [] then [] else
      var n := |newItems| - 1;
      var k := key(newItems[n]);
      Surplus(newItems[..n], existing, key) +
      if Count(newItems[..n], key, k) < Count(existing, key, k) then [] else [newItems[n]]
  }

  lemma {:induction false} AllUnused<T, K>(existing: seq<T>, used: seq<bool>, key: T -> K, k: K)
    requires |used| == |existing|
    requires forall i :: 0 <= i < |used| ==> !used[i]
    ensures UnusedCount(existing, used, key, k) == Count(existing, key, k)
  {
    if existing != [] {
      AllUnused(existing[..|existing| - 1], used[..|existing| - 1], key, k);
    }
  }

  lemma {:induction false} MarkUsed<T, K>(existing: seq<T>, used: seq<bool>, i: nat, key: T -> K, k: K)
    requires |used| == |existing| && i < |existing| && !used[i]
    ensures UnusedCount(existing, used, key, k) ==
            UnusedCount(existing, used[i := true], key, k) + if key(existing[i]) == k then 1 else 0
  {
    var n := |existing| - 1;
    if i == n {
      assert used[i := true][..n] == used[..n];
    } else {
      MarkUsed(existing[..n], used[..n], i, key, k);
      assert used[i := true][..n] == used[..n][i := true];
    }
  }

  lemma {:induction false} NoneUnused<T, K>(existing: seq<T>, used: seq<bool>, key: T -> K, k: K)
    requires |used| == |existing|
    requires forall i :: 0 <= i < |existing| ==> used[i] || key(existing[i]) != k
    ensures UnusedCount(existing, used, key, k) == 0
  {
    if existing != [] {
      NoneUnused(existing[..|existing| - 1], used[..|existing| - 1], key, k);
    }
  }

  lemma {:induction false} FreeItemCounts<T, K>(existing: seq<T>, used: seq<bool>, i: nat, key: T -> K)
    requires |used| == |existing| && i < |existing| && !used[i]
    ensures UnusedCount(existing, used, key, key(existing[i])) > 0
  {
    if i < |existing| - 1 {
      FreeItemCounts(existing[..|existing| - 1], used[..|existing| - 1], i, key);
    }
  }

  /** The first unused match of `item` from `i` on, or the length when there is none. */
  function FirstFree<T>(item: T, existing: seq<T>, used: seq<bool>, eq: (T, T) -> bool, i: nat): (r: nat)
    requires |used| == |existing| && i <= |existing|
    ensures i <= r <= |existing|
    ensures r < |existing| ==> !used[r] && eq(item, existing[r])
    decreases |existing| - i
  {
    if i < |existing| && !(!used[i] && eq(item, existing[i])) then FirstFree(item, existing, used, eq, i + 1) else i
  }

  datatype Scan<T> = Scan(kept: seq<T>, used: seq<bool>)

  /** New items in order: each takes the first unused match, or is kept. `eq` may be any test. */
  function Scanned<T>(newItems: seq<T>, existing: seq<T>, eq: (T, T) -> bool): (r: Scan<T>)
    ensures |r.used| == |existing|
  {
    if newItems == [] then Scan([], seq(|existing|, i => false)) else
      var n := |newItems| - 1;
      var prior := Scanned(newItems[..n], existing, eq);
      var i := FirstFree(newItems[n], existing, prior.used, eq, 0);
      if i < |existing| then Scan(prior.kept, prior.used[i := true]) else Scan(prior.kept + [newItems[n]], prior.used)
  }

  method FilterNewByCount<T>(newItems: seq<T>, existing: seq<T>, eq: (T, T) -> bool) returns (result: seq<T>)
    ensures result == Scanned(newItems, existing, eq).kept
  {
    var used := seq(|existing|, i => false);
    result := [];
    var n := 0;
    while n < |newItems|
      invariant 0 <= n <= |newItems|
      invariant Scan(result, used) == Scanned(newItems[..n], existing, eq)
    {
      assert newItems[..n + 1][..n] == newItems[..n];
      var i := 0;
      while i < |existing| && !(!used[i] && eq(newItems[n], existing[i]))
        invariant 0 <= i <= |existing|
        invariant FirstFree(newItems[n], existing, used, eq, i) == FirstFree(newItems[n], existing, used, eq, 0)
      {
        i := i + 1;
      }
      if i < |existing| {
        used := used[i := true];
      } else {
        result := result + [newItems[n]];
      }
      n := n + 1;
    }
    assert newItems[..n] == newItems;
  }

  // ---- When `eq` compares a key ----

  lemma {:induction false} FirstFreeIffUnused<T(!new), K>(
      item: T, existing: seq<T>, used: seq<bool>, eq: (T, T) -> bool, key: T -> K, i: nat)
    requires ComparesKeys(eq, key)
    requires |used| == |existing| && i <= |existing|
    requires forall j :: 0 <= j < i ==> used[j] || key(existing[j]) != key(item)
    ensures FirstFree(item, existing, used, eq, i) < |existing|
            <==> UnusedCount(existing, used, key, key(item)) > 0
    decreases |existing| - i
  {
    if i == |existing| {
      NoneUnused(existing, used, key, key(item));
    } else if !used[i] && eq(item, existing[i]) {
      FreeItemCounts(existing, used, i, key);
    } else {
      FirstFreeIffUnused(item, existing, used, eq, key, i + 1);
    }
  }

  lemma SurplusStep<T, K>(newItems: seq<T>, existing: seq<T>, key: T -> K)
    requires newItems != []
    ensures var n := |newItems| - 1;
            var k := key(newItems[n]);
            Surplus(newItems, existing, key) ==
            if Count(newItems[..n], key, k) < Count(existing, key, k) then Surplus(newItems[..n], existing, key)
            else Surplus(newItems[..n], existing, key) + [newItems[n]]
  {
  }

  /** Then the scan keeps exactly the surplus of the new items over the existing ones, and leaves of
      each key what the new items did not use up. */
  lemma {:induction false} ScanKeepsSurplus<T(!new), K(!new)>(
      newItems: seq<T>, existing: seq<T>, eq: (T, T) -> bool, key: T -> K)
    requires ComparesKeys(eq, key)
    ensures Scanned(newItems, existing, eq).kept == Surplus(newItems, existing, key)
    ensures forall k :: UnusedCount(existing, Scanned(newItems, existing, eq).used, key, k) ==
                        Excess(Count(existing, key, k), Count(newItems, key, k))
  {
    if newItems == [] {
      forall k
        ensures UnusedCount(existing, seq(|existing|, i => false), key, k) == Count(existing, key, k)
      {
        AllUnused(existing, seq(|existing|, i => false), key, k);
      }
    } else {
      var n := |newItems| - 1;
      ScanKeepsSurplus(newItems[..n], existing, eq, key);
      var prior := Scanned(newItems[..n], existing, eq);
      FirstFreeIffUnused(newItems[n], existing, prior.used, eq, key, 0);
      SurplusStep(newItems, existing, key);
      var i := FirstFree(newItems[n], existing, prior.used, eq, 0);
      if i < |existing| {
        forall k
          ensures UnusedCount(existing, prior.used, key, k) ==
                  UnusedCount(existing, prior.used[i := true], key, k) + if key(existing[i]) == k then 1 else 0
        {
          MarkUsed(existing, prior.used, i, key, k);
        }
      }
    }
  }

  lemma {:induction false} CountAppend<T, K>(s: seq<T>, t: seq<T>, key: T -> K, k: K)
    ensures Count(s + t, key, k) == Count(s, key, k) + Count(t, key, k)
  {
    if t == [] {
      assert s + t == s;
    } else {
      var n := |t| - 1;
      CountAppend(s, t[..n], key, k);
      assert (s + t)[..|s + t| - 1] == s + t[..n];
    }
  }

  lemma CountSnoc<T, K>(s: seq<T>, x: T, key: T -> K, k: K)
    ensures Count(s + [x], key, k) == Count(s, key, k) + if key(x) == k then 1 else 0
  {
    assert (s + [x])[..|s|] == s;
  }

  /** For every key the survivors number exactly the new items minus the existing ones. */
  lemma {:induction false} SurplusIsSubtraction<T, K>(newItems: seq<T>, existing: seq<T>, key: T -> K, k: K)
    ensures Count(Surplus(newItems, existing, key), key, k) ==
            Excess(Count(newItems, key, k), Count(existing, key, k))
  {
    if newItems != [] {
      var n := |newItems| - 1;
      SurplusIsSubtraction(newItems[..n], existing, key, k);
      SurplusStep(newItems, existing, key);
      CountSnoc(Surplus(newItems[..n], existing, key), newItems[n], key, k);
    }
  }

  ghost predicate Subsequence<T>(s: seq<T>, t: seq<T>) {
    if s == [] then true
    else if t == [] then false
    else
      || (s[|s| - 1] == t[|t| - 1] && Subsequence(s[..|s| - 1], t[..|t| - 1]))
      || Subsequence(s, t[..|t| - 1])
  }

  /** Nothing is reordered or invented. */
  lemma {:induction false} SurplusIsSubsequence<T, K>(newItems: seq<T>, existing: seq<T>, key: T -> K)
    ensures Subsequence(Surplus(newItems, existing, key), newItems)
  {
    if newItems != [] {
      var n := |newItems| - 1;
      SurplusIsSubsequence(newItems[..n], existing, key);
      var kept := Surplus(newItems[..n], existing, key);
      assert (kept + [newItems[n]])[..|kept|] == kept;
      assert kept + [] == kept;
    }
  }

  /** After merging, each call is known as often as in whichever side knew it more often. */
  lemma MergeTakesLargerCount<T, K>(newItems: seq<T>, existing: seq<T>, key: T -> K, k: K)
    ensures Count(existing + Surplus(newItems, existing, key), key, k) ==
            if Count(existing, key, k) < Count(newItems, key, k) then Count(newItems, key, k)
            else Count(existing, key, k)
  {
    SurplusIsSubtraction(newItems, existing, key, k);
    CountAppend(existing, Surplus(newItems, existing, key), key, k);
  }

  /** A pass keeps nothing exactly when every call is already known as often as it is detected;
      so re-detecting the same calls after a merge adds nothing. */
  lemma KnownCallsAddNothing<T, K(!new)>(newItems: seq<T>, existing: seq<T>, key: T -> K)
    ensures Surplus(newItems, existing, key) == []
            <==> forall k :: Count(newItems, key, k) <= Count(existing, key, k)
    ensures Surplus(newItems, existing + Surplus(newItems, existing, key), key) == []
  {
    NothingLeftIffKnown(newItems, existing, key);
    var merged := existing + Surplus(newItems, existing, key);
    forall k ensures Count(newItems, key, k) <= Count(merged, key, k) {
      MergeTakesLargerCount(newItems, existing, key, k);
    }
    NothingLeftIffKnown(newItems, merged, key);
  }

  lemma NothingLeftIffKnown<T, K(!new)>(newItems: seq<T>, existing: seq<T>, key: T -> K)
    ensures Surplus(newItems, existing, key) == []
            <==> forall k :: Count(newItems, key, k) <= Count(existing, key, k)
  {
    var left := Surplus(newItems, existing, key);
    if left == [] {
      forall k ensures Count(newItems, key, k) <= Count(existing, key, k) {
        SurplusIsSubtraction(newItems, existing, key, k);
      }
    } else {
      SurplusIsSubtraction(newItems, existing, key, key(left[|left| - 1]));
    }
  }
}
