/** JavaScript's `Array.prototype.sort` called with a comparator of the form
    `(a, b) => key(a) - key(b)`. Since ES2019 that sort is stable, so it is modelled
    as a stable insertion sort by an integer key, ascending. */
module Sorting {
  import opened Seqs

  /** Keys never decrease from left to right. */
  predicate SortedBy<T>(s: seq<T>, key: T -> int)
  {
    forall i, j :: 0 <= i < j < |s| ==> key(s[i]) <= key(s[j])
  }

  /** The elements of `s` whose key is `k`, in their order in `s`. */
  function WithKey<T>(s: seq<T>, key: T -> int, k: int): seq<T>
  {
    if s == [] then [] else (if key(s[0]) == k then [s[0]] else []) + WithKey(s[1..], key, k)
  }

  /** Puts `x` after every element of `t` whose key is not greater than its own. */
  function Insert<T>(t: seq<T>, x: T, key: T -> int): seq<T>
    decreases |t|
  {
    if t == [] || key(t[|t| - 1]) <= key(x) then t + [x]
    else Insert(t[..|t| - 1], x, key) + [t[|t| - 1]]
  }

  /** The stable sort: each element, left to right, is inserted after all earlier ones
      with a key not greater than its own. */
  function SortBy<T>(s: seq<T>, key: T -> int): (r: seq<T>)
    ensures |r| == |s|
    ensures SortedBy(r, key)
    ensures multiset(r) == multiset(s)
    decreases |s|
  {
    if s == [] then []
    else
      var t := SortBy(s[..|s| - 1], key);
      InsertKeepsElements(t, s[|s| - 1], key);
      InsertKeepsOrder(t, s[|s| - 1], key);
      assert s == s[..|s| - 1] + [s[|s| - 1]];
      Insert(t, s[|s| - 1], key)
  }

  lemma {:induction false} InsertKeepsElements<T>(t: seq<T>, x: T, key: T -> int)
    ensures |Insert(t, x, key)| == |t| + 1
    ensures multiset(Insert(t, x, key)) == multiset(t) + multiset{x}
    decreases |t|
  {
    if !(t == [] || key(t[|t| - 1]) <= key(x)) {
      InsertKeepsElements(t[..|t| - 1], x, key);
      assert t == t[..|t| - 1] + [t[|t| - 1]];
    }
  }

  lemma {:induction false} InsertKeepsOrder<T>(t: seq<T>, x: T, key: T -> int)
    requires SortedBy(t, key)
    ensures SortedBy(Insert(t, x, key), key)
    decreases |t|
  {
    if !(t == [] || key(t[|t| - 1]) <= key(x)) {
      var init, last := t[..|t| - 1], t[|t| - 1];
      InsertKeepsOrder(init, x, key);
      InsertKeepsElements(init, x, key);
      var u := Insert(init, x, key);
      forall i | 0 <= i < |u|
        ensures key(u[i]) <= key(last)
      {
        assert u[i] in multiset(u);
        if u[i] != x {
          assert u[i] in multiset(init);
          var j :| 0 <= j < |init| && init[j] == u[i];
          assert t[j] == u[i];
        }
      }
    }
  }

  lemma {:induction false} WithKeyAppend<T>(a: seq<T>, b: seq<T>, key: T -> int, k: int)
    ensures WithKey(a + b, key, k) == WithKey(a, key, k) + WithKey(b, key, k)
  {
    if a == [] {
      assert a + b == b;
    } else {
      var head := if key(a[0]) == k then [a[0]] else [];
      assert (a + b)[0] == a[0];
      assert (a + b)[1..] == a[1..] + b;
      WithKeyAppend(a[1..], b, key, k);
      calc {
        WithKey(a + b, key, k);
        head + WithKey(a[1..] + b, key, k);
        head + (WithKey(a[1..], key, k) + WithKey(b, key, k));
        (head + WithKey(a[1..], key, k)) + WithKey(b, key, k);
      }
    }
  }

  lemma {:induction false} WithKeyNone<T>(s: seq<T>, key: T -> int, k: int)
    requires forall i :: 0 <= i < |s| ==> key(s[i]) != k
    ensures WithKey(s, key, k) == []
  {
    if s != [] {
      WithKeyNone(s[1..], key, k);
    }
  }

  lemma {:induction false} InsertWithKey<T>(t: seq<T>, x: T, key: T -> int, k: int)
    requires SortedBy(t, key)
    ensures WithKey(Insert(t, x, key), key, k) == WithKey(t, key, k) + (if key(x) == k then [x] else [])
    decreases |t|
  {
    if t == [] || key(t[|t| - 1]) <= key(x) {
      WithKeyAppend(t, [x], key, k);
    } else {
      var init, last := t[..|t| - 1], t[|t| - 1];
      assert t == init + [last];
      InsertWithKey(init, x, key, k);
      WithKeyAppend(Insert(init, x, key), [last], key, k);
      WithKeyAppend(init, [last], key, k);
    }
  }

  /** Stability: for every key, the elements carrying it keep their relative order. */
  lemma {:induction false} SortByIsStable<T>(s: seq<T>, key: T -> int, k: int)
    ensures WithKey(SortBy(s, key), key, k) == WithKey(s, key, k)
    decreases |s|
  {
    if s != [] {
      var init, x := s[..|s| - 1], s[|s| - 1];
      assert s == init + [x];
      SortByIsStable(init, key, k);
      InsertWithKey(SortBy(init, key), x, key, k);
      WithKeyAppend(init, [x], key, k);
    }
  }

  lemma {:induction false} InsertCount<T>(t: seq<T>, x: T, key: T -> int, p: T -> bool)
    ensures Count(Insert(t, x, key), p) == Count(t, p) + (if p(x) then 1 else 0)
    decreases |t|
  {
    if t == [] || key(t[|t| - 1]) <= key(x) {
      CountAppend(t, [x], p);
    } else {
      var init, last := t[..|t| - 1], t[|t| - 1];
      assert t == init + [last];
      InsertCount(init, x, key, p);
      CountAppend(Insert(init, x, key), [last], p);
      CountAppend(init, [last], p);
    }
  }

  /** Sorting neither adds nor drops elements of any kind. */
  lemma {:induction false} SortByCount<T>(s: seq<T>, key: T -> int, p: T -> bool)
    ensures Count(SortBy(s, key), p) == Count(s, p)
    decreases |s|
  {
    if s != [] {
      var init, x := s[..|s| - 1], s[|s| - 1];
      assert s == init + [x];
      SortByCount(init, key, p);
      InsertCount(SortBy(init, key), x, key, p);
      CountAppend(init, [x], p);
    }
  }

  /** A sorted sequence whose keys are all 0, 1 or 2 is its key-0 elements, then its key-1
      elements, then its key-2 elements. */
  lemma {:induction false} SortedThreeGroups<T>(s: seq<T>, key: T -> int)
    requires SortedBy(s, key)
    requires forall i :: 0 <= i < |s| ==> 0 <= key(s[i]) <= 2
    ensures s == WithKey(s, key, 0) + WithKey(s, key, 1) + WithKey(s, key, 2)
  {
    if s != [] {
      var rest := s[1..];
      SortedThreeGroups(rest, key);
      if key(s[0]) == 1 {
        WithKeyNone(rest, key, 0);
      } else if key(s[0]) == 2 {
        WithKeyNone(rest, key, 0);
        WithKeyNone(rest, key, 1);
      }
    }
  }

  /** Sorting by a key with values 0, 1 and 2 lays out the key-0 elements, then the key-1
      elements, then the key-2 elements, each group in its original order. */
  lemma SortByThreeGroups<T>(s: seq<T>, key: T -> int)
    requires forall i :: 0 <= i < |s| ==> 0 <= key(s[i]) <= 2
    ensures SortBy(s, key) == WithKey(s, key, 0) + WithKey(s, key, 1) + WithKey(s, key, 2)
  {
    var r := SortBy(s, key);
    forall i | 0 <= i < |r| ensures 0 <= key(r[i]) <= 2 {
      assert r[i] in multiset(s);
    }
    SortedThreeGroups(r, key);
    SortByIsStable(s, key, 0);
    SortByIsStable(s, key, 1);
    SortByIsStable(s, key, 2);
  }
}
