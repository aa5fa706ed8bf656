/** A stable sort by an integer key: what Python's `sorted(key=…)` and Rust's `sort_by_key` return. */
module StableSort {

  /** `x` goes behind everything whose key is not larger. */
  function InsertBy<T>(key: T -> int, s: seq<T>, x: T): seq<T>
  {
    if s == [] || key(s[|s| - 1]) <= key(x) then s + [x]
    else InsertBy(key, s[..|s| - 1], x) + [s[|s| - 1]]
  }

  function SortBy<T>(key: T -> int, s: seq<T>): seq<T>
  {
    if s == [] then [] else InsertBy(key, SortBy(key, s[..|s| - 1]), s[|s| - 1])
  }

  predicate SortedBy<T>(key: T -> int, s: seq<T>)
  {
    forall i, j :: 0 <= i < j < |s| ==> key(s[i]) <= key(s[j])
  }

  /** The elements with key `k`, in order. */
  function WithKey<T>(key: T -> int, k: int, s: seq<T>): seq<T>
  {
    if s == [] then []
    else WithKey(key, k, s[..|s| - 1]) + if key(s[|s| - 1]) == k then [s[|s| - 1]] else []
  }

  lemma WithKeySnoc<T>(key: T -> int, k: int, s: seq<T>, x: T)
    ensures WithKey(key, k, s + [x]) == WithKey(key, k, s) + if key(x) == k then [x] else []
  {
    assert (s + [x])[..|s|] == s;
  }

  lemma {:induction false} InsertByElements<T>(key: T -> int, s: seq<T>, x: T)
    ensures multiset(InsertBy(key, s, x)) == multiset(s) + multiset{x}
  {
    if s != [] && key(s[|s| - 1]) > key(x) {
      var init, last := s[..|s| - 1], s[|s| - 1];
      InsertByElements(key, init, x);
      assert s == init + [last];
    }
  }

  lemma {:induction false} InsertBySorted<T>(key: T -> int, s: seq<T>, x: T)
    requires SortedBy(key, s)
    ensures SortedBy(key, InsertBy(key, s, x))
  {
    if s != [] && key(s[|s| - 1]) > key(x) {
      var init, last := s[..|s| - 1], s[|s| - 1];
      InsertBySorted(key, init, x);
      InsertByElements(key, init, x);
      var inner := InsertBy(key, init, x);
      forall i | 0 <= i < |inner| ensures key(inner[i]) <= key(last) {
        assert inner[i] in multiset(inner);
        assert inner[i] in init || inner[i] == x;
      }
    }
  }

  lemma {:induction false} InsertByStable<T>(key: T -> int, s: seq<T>, x: T, k: int)
    ensures WithKey(key, k, InsertBy(key, s, x)) == WithKey(key, k, s) + if key(x) == k then [x] else []
  {
    if s == [] || key(s[|s| - 1]) <= key(x) {
      WithKeySnoc(key, k, s, x);
    } else {
      var init, last := s[..|s| - 1], s[|s| - 1];
      InsertByStable(key, init, x, k);
      WithKeySnoc(key, k, InsertBy(key, init, x), last);
    }
  }

  /** Sorting orders by key, keeps every element, and keeps equal keys in their order. */
  lemma {:induction false} SortByIsStable<T>(key: T -> int, s: seq<T>)
    ensures SortedBy(key, SortBy(key, s))
    ensures multiset(SortBy(key, s)) == multiset(s)
    ensures forall k :: WithKey(key, k, SortBy(key, s)) == WithKey(key, k, s)
  {
    if s != [] {
      var init, last := s[..|s| - 1], s[|s| - 1];
      SortByIsStable(key, init);
      InsertBySorted(key, SortBy(key, init), last);
      InsertByElements(key, SortBy(key, init), last);
      assert s == init + [last];
      forall k ensures WithKey(key, k, SortBy(key, s)) == WithKey(key, k, s) {
        InsertByStable(key, SortBy(key, init), last, k);
        WithKeySnoc(key, k, init, last);
      }
    }
  }

  lemma LastInWithKey<T>(key: T -> int, s: seq<T>)
    requires s != []
    ensures var k := key(s[|s| - 1]);
            WithKey(key, k, s) != [] && WithKey(key, k, s)[|WithKey(key, k, s)| - 1] == s[|s| - 1]
  {
  }

  lemma {:induction false} KeysBelowLast<T>(key: T -> int, k: int, s: seq<T>)
    requires SortedBy(key, s) && WithKey(key, k, s) != []
    ensures s != [] && k <= key(s[|s| - 1])
  {
    var init := s[..|s| - 1];
    if WithKey(key, k, init) != [] {
      KeysBelowLast(key, k, init);
      assert key(s[|init| - 1]) <= key(s[|s| - 1]);
    }
  }

  lemma LastKeyNotAbove<T>(key: T -> int, s: seq<T>, t: seq<T>)
    requires SortedBy(key, t) && s != []
    requires forall k :: WithKey(key, k, s) == WithKey(key, k, t)
    ensures t != [] && key(s[|s| - 1]) <= key(t[|t| - 1])
  {
    var k := key(s[|s| - 1]);
    LastInWithKey(key, s);
    assert WithKey(key, k, t) != [];
    KeysBelowLast(key, k, t);
  }

  lemma SameLast<T>(key: T -> int, s: seq<T>, t: seq<T>)
    requires SortedBy(key, s) && SortedBy(key, t) && s != [] && t != []
    requires forall k :: WithKey(key, k, s) == WithKey(key, k, t)
    ensures s[|s| - 1] == t[|t| - 1]
  {
    LastKeyNotAbove(key, s, t);
    LastKeyNotAbove(key, t, s);
    var k := key(s[|s| - 1]);
    LastInWithKey(key, s);
    LastInWithKey(key, t);
    assert WithKey(key, k, s) == WithKey(key, k, t);
  }

  /** There is only one stable order, so any stable sorting algorithm computes this function. */
  lemma {:induction false} StableOrderUnique<T>(key: T -> int, s: seq<T>, t: seq<T>)
    requires SortedBy(key, s) && SortedBy(key, t)
    requires forall k :: WithKey(key, k, s) == WithKey(key, k, t)
    ensures s == t
    decreases |s|
  {
    if s != [] {
      LastKeyNotAbove(key, s, t);
    }
    if t != [] {
      LastKeyNotAbove(key, t, s);
      SameLast(key, s, t);
      var a, b, x := s[..|s| - 1], t[..|t| - 1], s[|s| - 1];
      assert s == a + [x] && t == b + [x];
      InitsAgree(key, a, b, x);
      StableOrderUnique(key, a, b);
    }
  }

  lemma InitsAgree<T>(key: T -> int, s: seq<T>, t: seq<T>, x: T)
    requires forall k :: WithKey(key, k, s + [x]) == WithKey(key, k, t + [x])
    ensures forall k :: WithKey(key, k, s) == WithKey(key, k, t)
  {
    forall k ensures WithKey(key, k, s) == WithKey(key, k, t) {
      WithKeySnoc(key, k, s, x);
      WithKeySnoc(key, k, t, x);
      assert WithKey(key, k, s + [x]) == WithKey(key, k, t + [x]);
      SameEnding(WithKey(key, k, s), WithKey(key, k, t), if key(x) == k then [x] else []);
    }
  }

  lemma SameEnding<T>(a: seq<T>, b: seq<T>, end: seq<T>)
    requires a + end == b + end
    ensures a == b
  {
    assert |a + end| == |a| + |end| && |b + end| == |b| + |end|;
    assert a == (a + end)[..|a|] && b == (b + end)[..|b|];
  }

  /** Sorting what is already in order changes nothing. */
  lemma SortedIsFixed<T>(key: T -> int, s: seq<T>)
    requires SortedBy(key, s)
    ensures SortBy(key, s) == s
  {
    SortByIsStable(key, s);
    StableOrderUnique(key, SortBy(key, s), s);
  }
}
