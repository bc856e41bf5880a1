/** The library calls `sort_by_key` (stable) and `dedup_by_key` (keep the first of each run), and
    what their composition means: a strictly increasing sequence holding, for every key, the first
    element that was pushed with it. */
module StableOrder {
  import opened Wrappers

  function Insert<T>(x: T, s: seq<T>, key: T -> int): seq<T> {
    if s == [] || key(x) <= key(s[0]) then [x] + s else [s[0]] + Insert(x, s[1..], key)
  }

  function StableSort<T>(s: seq<T>, key: T -> int): seq<T> {
    if s == [] then [] else Insert(s[0], StableSort(s[1..], key), key)
  }

  function Dedup<T>(s: seq<T>, key: T -> int): seq<T> {
    if s == [] then [] else
      var kept := Dedup(s[..|s| - 1], key);
      var x := s[|s| - 1];
      if kept != [] && key(kept[|kept| - 1]) == key(x) then kept else kept + [x]
  }

  function SortDedup<T>(s: seq<T>, key: T -> int): seq<T> {
    Dedup(StableSort(s, key), key)
  }

  /** The first element of `s` with key `k`. */
  function First<T>(s: seq<T>, key: T -> int, k: int): Option<T> {
    if s == [] then None
    else if key(s[0]) == k then Some(s[0])
    else First(s[1..], key, k)
  }

  ghost predicate Sorted<T>(s: seq<T>, key: T -> int) {
    forall i, j :: 0 <= i < j < |s| ==> key(s[i]) <= key(s[j])
  }

  ghost predicate StrictlyIncreasing<T>(s: seq<T>, key: T -> int) {
    forall i, j :: 0 <= i < j < |s| ==> key(s[i]) < key(s[j])
  }

  lemma {:induction false} InsertFirst<T>(x: T, s: seq<T>, key: T -> int, k: int)
    ensures First(Insert(x, s, key), key, k) == if key(x) == k then Some(x) else First(s, key, k)
  {
    if s == [] || key(x) <= key(s[0]) {
      assert ([x] + s)[1..] == s;
    } else {
      InsertFirst(x, s[1..], key, k);
      assert ([s[0]] + Insert(x, s[1..], key))[1..] == Insert(x, s[1..], key);
    }
  }

  /** Stability: sorting does not change which element comes first for a key. */
  lemma {:induction false} SortFirst<T>(s: seq<T>, key: T -> int, k: int)
    ensures First(StableSort(s, key), key, k) == First(s, key, k)
  {
    if s != [] {
      SortFirst(s[1..], key, k);
      InsertFirst(s[0], StableSort(s[1..], key), key, k);
    }
  }

  lemma {:induction false} InsertHead<T>(x: T, s: seq<T>, key: T -> int)
    ensures Insert(x, s, key) != []
    ensures key(Insert(x, s, key)[0]) == key(x) || (s != [] && Insert(x, s, key)[0] == s[0])
  {
  }

  lemma SortedCons<T>(x: T, s: seq<T>, key: T -> int)
    requires Sorted(s, key)
    requires s != [] ==> key(x) <= key(s[0])
    ensures Sorted([x] + s, key)
  {
    var t := [x] + s;
    forall i, j | 0 <= i < j < |t|
      ensures key(t[i]) <= key(t[j])
    {
      assert t[j] == s[j - 1];
      if i > 0 {
        assert t[i] == s[i - 1];
      } else if j > 1 {
        assert key(s[0]) <= key(s[j - 1]);
      }
    }
  }

  lemma {:induction false} InsertSorted<T>(x: T, s: seq<T>, key: T -> int)
    requires Sorted(s, key)
    ensures Sorted(Insert(x, s, key), key)
  {
    if s == [] || key(x) <= key(s[0]) {
      SortedCons(x, s, key);
    } else {
      InsertSorted(x, s[1..], key);
      InsertHead(x, s[1..], key);
      SortedCons(s[0], Insert(x, s[1..], key), key);
    }
  }

  lemma {:induction false} SortSorted<T>(s: seq<T>, key: T -> int)
    ensures Sorted(StableSort(s, key), key)
  {
    if s != [] {
      SortSorted(s[1..], key);
      InsertSorted(s[0], StableSort(s[1..], key), key);
    }
  }

  lemma {:induction false} FirstAppend<T>(a: seq<T>, b: seq<T>, key: T -> int, k: int)
    ensures First(a + b, key, k) == if First(a, key, k).Some? then First(a, key, k) else First(b, key, k)
  {
    if a == [] {
      assert a + b == b;
    } else {
      FirstAppend(a[1..], b, key, k);
      assert (a + b)[1..] == a[1..] + b;
    }
  }

  lemma FirstSingle<T>(x: T, key: T -> int, k: int)
    ensures First([x], key, k) == if key(x) == k then Some(x) else None
  {
    assert First([x][1..], key, k) == None;
  }

  lemma {:induction false} FirstOfMember<T>(s: seq<T>, key: T -> int, i: nat)
    requires i < |s|
    ensures First(s, key, key(s[i])).Some?
  {
    if key(s[0]) != key(s[i]) {
      FirstOfMember(s[1..], key, i - 1);
    }
  }

  lemma {:induction false} FirstIsMember<T>(s: seq<T>, key: T -> int, k: int) returns (i: nat)
    requires First(s, key, k).Some?
    ensures i < |s| && s[i] == First(s, key, k).value && key(s[i]) == k
  {
    if key(s[0]) == k {
      i := 0;
    } else {
      i := FirstIsMember(s[1..], key, k);
      i := i + 1;
    }
  }

  lemma {:induction false} DedupLast<T>(s: seq<T>, key: T -> int)
    requires s != []
    ensures Dedup(s, key) != []
    ensures key(Dedup(s, key)[|Dedup(s, key)| - 1]) == key(s[|s| - 1])
  {
  }

  lemma {:induction false} DedupFirst<T>(s: seq<T>, key: T -> int, k: int)
    ensures First(Dedup(s, key), key, k) == First(s, key, k)
  {
    if s != [] {
      var n := |s| - 1;
      var x := s[n];
      DedupFirst(s[..n], key, k);
      assert s == s[..n] + [x];
      FirstAppend(s[..n], [x], key, k);
      FirstSingle(x, key, k);
      var kept := Dedup(s[..n], key);
      if kept != [] && key(kept[|kept| - 1]) == key(x) {
        FirstOfMember(kept, key, |kept| - 1);
      } else {
        FirstAppend(kept, [x], key, k);
      }
    }
  }

  lemma {:induction false} DedupStrict<T>(s: seq<T>, key: T -> int)
    requires Sorted(s, key)
    ensures StrictlyIncreasing(Dedup(s, key), key)
  {
    if s != [] {
      var n := |s| - 1;
      DedupStrict(s[..n], key);
      var kept := Dedup(s[..n], key);
      if n > 0 {
        DedupLast(s[..n], key);
        assert key(s[n - 1]) <= key(s[n]);
      }
    }
  }

  /** What survives: strictly increasing keys, and for every key the first element pushed with it. */
  lemma SortDedupKeepsFirst<T>(s: seq<T>, key: T -> int, k: int)
    ensures StrictlyIncreasing(SortDedup(s, key), key)
    ensures First(SortDedup(s, key), key, k) == First(s, key, k)
  {
    SortSorted(s, key);
    DedupStrict(StableSort(s, key), key);
    DedupFirst(StableSort(s, key), key, k);
    SortFirst(s, key, k);
  }

  lemma SurvivorIsFirst<T>(s: seq<T>, key: T -> int, i: nat)
    requires i < |SortDedup(s, key)|
    ensures First(s, key, key(SortDedup(s, key)[i])) == Some(SortDedup(s, key)[i])
  {
    var kept := SortDedup(s, key);
    var k := key(kept[i]);
    SortDedupKeepsFirst(s, key, k);
    FirstOfMember(kept, key, i);
    var j := FirstIsMember(kept, key, k);
    assert key(kept[i]) == key(kept[j]);
  }

  lemma {:induction false} StrictTailFirst<T>(s: seq<T>, key: T -> int, k: int)
    requires s != [] && StrictlyIncreasing(s, key)
    ensures k <= key(s[0]) ==> First(s[1..], key, k) == None
  {
    if First(s[1..], key, k).Some? {
      var i := FirstIsMember(s[1..], key, k);
      assert s[1..][i] == s[i + 1];
    }
  }

  /** Strictly increasing sequences with the same first element for every key are equal. */
  lemma {:induction false} StrictDeterminedByFirst<T>(s: seq<T>, t: seq<T>, key: T -> int)
    requires StrictlyIncreasing(s, key) && StrictlyIncreasing(t, key)
    requires forall k :: First(s, key, k) == First(t, key, k)
    ensures s == t
  {
    assert t != [] ==> First(t, key, key(t[0])).Some?;
    assert s != [] ==> First(s, key, key(s[0])).Some?;
    assert s == [] <==> t == [] by {
      assert t != [] ==> First(s, key, key(t[0])).Some?;
      assert s != [] ==> First(t, key, key(s[0])).Some?;
    }
    if s != [] {
      SameHead(s, t, key);
      forall k
        ensures First(s[1..], key, k) == First(t[1..], key, k)
      {
        StrictTailFirst(s, key, k);
        StrictTailFirst(t, key, k);
        assert First(s, key, k) == First(t, key, k);
      }
      StrictDeterminedByFirst(s[1..], t[1..], key);
      assert s == [s[0]] + s[1..] && t == [t[0]] + t[1..];
    }
  }

  lemma SameHead<T>(s: seq<T>, t: seq<T>, key: T -> int)
    requires s != [] && t != []
    requires StrictlyIncreasing(s, key) && StrictlyIncreasing(t, key)
    requires forall k :: First(s, key, k) == First(t, key, k)
    ensures s[0] == t[0]
  {
    assert First(s, key, key(s[0])) == Some(s[0]);
    assert First(t, key, key(t[0])) == Some(t[0]);
    var i := FirstIsMember(t, key, key(s[0]));
    var j := FirstIsMember(s, key, key(t[0]));
  }

  /** Sorting and deduplicating an already strictly increasing sequence changes nothing. */
  lemma SortDedupOfStrict<T>(s: seq<T>, key: T -> int)
    requires StrictlyIncreasing(s, key)
    ensures SortDedup(s, key) == s
  {
    SortDedupKeepsFirst(s, key, 0);
    forall k
      ensures First(SortDedup(s, key), key, k) == First(s, key, k)
    {
      SortDedupKeepsFirst(s, key, k);
    }
    StrictDeterminedByFirst(SortDedup(s, key), s, key);
  }

  /** The keys of `s` are exactly `lo + 1 ..= hi`. */
  ghost predicate KeysFill<T>(s: seq<T>, key: T -> int, lo: int, hi: int) {
    lo <= hi && forall k :: First(s, key, k).Some? <==> lo < k <= hi
  }

  /** A strictly increasing sequence filling a range steps through it one by one. */
  lemma {:induction false} StrictFillIsContiguous<T>(s: seq<T>, key: T -> int, lo: int, hi: int)
    requires StrictlyIncreasing(s, key)
    requires KeysFill(s, key, lo, hi)
    ensures |s| == hi - lo
    ensures forall i :: 0 <= i < |s| ==> key(s[i]) == lo + 1 + i
  {
    if s == [] {
      assert !(lo < hi <= hi) by {
        assert First(s, key, hi) == None;
      }
    } else {
      FirstOfMember(s, key, 0);
      assert lo < key(s[0]) <= hi;
      assert First(s, key, lo + 1).Some?;
      var at := FirstIsMember(s, key, lo + 1);
      assert key(s[0]) == lo + 1;
      forall k
        ensures First(s[1..], key, k).Some? <==> lo + 1 < k <= hi
      {
        StrictTailFirst(s, key, k);
        assert First(s, key, k).Some? <==> lo < k <= hi;
      }
      StrictFillIsContiguous(s[1..], key, lo + 1, hi);
      forall i | 0 <= i < |s|
        ensures key(s[i]) == lo + 1 + i
      {
        if i > 0 {
          assert s[i] == s[1..][i - 1];
        }
      }
    }
  }
}
