/** Order-preserving filtering and stable sorting by an integer key: the
    `Array.prototype.filter` and `Array.prototype.sort` calls of the list queries.
    The sort is stable, as ECMAScript 2019 requires of `sort`. */
module Sequences {

  /** The elements of `s` that satisfy `p`, in their original order. */
  function Filter<T>(s: seq<T>, p: T -> bool): (r: seq<T>)
    ensures |r| <= |s|
    ensures forall i :: 0 <= i < |r| ==> p(r[i])
  {
    if s == [] then []
    else (if p(s[0]) then [s[0]] else []) + Filter(s[1..], p)
  }

  /** `Filter` keeps exactly the elements that satisfy `p`, each as often as it occurs. */
  lemma {:induction false} FilterCounts<T>(s: seq<T>, p: T -> bool, x: T)
    ensures multiset(Filter(s, p))[x] == if p(x) then multiset(s)[x] else 0
    ensures x in Filter(s, p) <==> x in s && p(x)
  {
    if s != [] {
      var head := if p(s[0]) then [s[0]] else [];
      FilterCounts(s[1..], p, x);
      assert s == [s[0]] + s[1..];
      assert multiset(s) == multiset{s[0]} + multiset(s[1..]);
      assert multiset(Filter(s, p)) == multiset(head) + multiset(Filter(s[1..], p));
    }
  }

  lemma {:induction false} FilterAppend<T>(s: seq<T>, t: seq<T>, p: T -> bool)
    ensures Filter(s + t, p) == Filter(s, p) + Filter(t, p)
  {
    if s == [] {
      assert s + t == t;
    } else {
      var head := if p(s[0]) then [s[0]] else [];
      assert (s + t)[0] == s[0];
      assert (s + t)[1..] == s[1..] + t;
      assert Filter(s + t, p) == head + Filter(s[1..] + t, p);
      FilterAppend(s[1..], t, p);
      assert head + (Filter(s[1..], p) + Filter(t, p)) == (head + Filter(s[1..], p)) + Filter(t, p);
    }
  }

  /** Filtering by `q` after filtering by a weaker `p` is filtering by `q` alone. */
  lemma {:induction false} FilterFilter<T>(s: seq<T>, p: T -> bool, q: T -> bool)
    requires forall x :: q(x) ==> p(x)
    ensures Filter(Filter(s, p), q) == Filter(s, q)
  {
    if s != [] {
      FilterFilter(s[1..], p, q);
      var rest := Filter(s[1..], p);
      if p(s[0]) {
        assert ([s[0]] + rest)[0] == s[0];
        assert ([s[0]] + rest)[1..] == rest;
      } else {
        assert [] + rest == rest;
      }
    }
  }

  ghost predicate SortedBy<T>(s: seq<T>, key: T -> int) {
    forall i, j :: 0 <= i < j < |s| ==> key(s[i]) <= key(s[j])
  }

  /** Places `x` before the first element whose key is not smaller than its own. */
  function Insert<T>(x: T, s: seq<T>, key: T -> int): (r: seq<T>)
    ensures |r| == |s| + 1
  {
    if s == [] || key(x) <= key(s[0]) then [x] + s
    else [s[0]] + Insert(x, s[1..], key)
  }

  lemma {:induction false} InsertPermutes<T>(x: T, s: seq<T>, key: T -> int)
    ensures multiset(Insert(x, s, key)) == multiset(s) + multiset{x}
  {
    if s != [] && key(x) > key(s[0]) {
      InsertPermutes(x, s[1..], key);
      assert s == [s[0]] + s[1..];
    }
  }

  lemma {:induction false} InsertSorted<T>(x: T, s: seq<T>, key: T -> int)
    requires SortedBy(s, key)
    ensures SortedBy(Insert(x, s, key), key)
    ensures |Insert(x, s, key)| == |s| + 1
    ensures forall i :: 0 <= i < |Insert(x, s, key)| ==>
              key(Insert(x, s, key)[i]) >= (if s == [] || key(x) <= key(s[0]) then key(x) else key(s[0]))
  {
    if s != [] && key(x) > key(s[0]) {
      InsertSorted(x, s[1..], key);
    }
  }

  /** Stable insertion sort by non-decreasing key. */
  function SortBy<T>(s: seq<T>, key: T -> int): (r: seq<T>)
    ensures |r| == |s|
  {
    if s == [] then [] else Insert(s[0], SortBy(s[1..], key), key)
  }

  /** `SortBy` returns a sorted permutation of its input. */
  lemma {:induction false} SortByCorrect<T>(s: seq<T>, key: T -> int)
    ensures multiset(SortBy(s, key)) == multiset(s)
    ensures SortedBy(SortBy(s, key), key)
  {
    if s != [] {
      var rest := SortBy(s[1..], key);
      SortByCorrect(s[1..], key);
      InsertPermutes(s[0], rest, key);
      InsertSorted(s[0], rest, key);
      assert s == [s[0]] + s[1..];
    }
  }

  /** The predicate "has key `k`". */
  function HasKey<T>(key: T -> int, k: int): T -> bool {
    x => key(x) == k
  }

  lemma {:induction false} InsertKeepsEqualKeyOrder<T>(x: T, s: seq<T>, key: T -> int, k: int)
    ensures Filter(Insert(x, s, key), HasKey(key, k))
         == (if key(x) == k then [x] else []) + Filter(s, HasKey(key, k))
  {
    if s == [] || key(x) <= key(s[0]) {
      assert ([x] + s)[1..] == s;
    } else {
      InsertKeepsEqualKeyOrder(x, s[1..], key, k);
    }
  }

  /** Stability: the elements sharing any one key keep their input order. */
  lemma {:induction false} SortByStable<T>(s: seq<T>, key: T -> int, k: int)
    ensures Filter(SortBy(s, key), HasKey(key, k)) == Filter(s, HasKey(key, k))
  {
    if s != [] {
      SortByStable(s[1..], key, k);
      InsertKeepsEqualKeyOrder(s[0], SortBy(s[1..], key), key, k);
    }
  }

  lemma {:induction false} InsertBeforeLast<T>(y: T, s: seq<T>, x: T, key: T -> int)
    requires key(y) <= key(x)
    ensures Insert(y, s + [x], key) == Insert(y, s, key) + [x]
  {
    if s == [] {
      assert [] + [x] == [x];
    } else {
      assert (s + [x])[0] == s[0];
      assert (s + [x])[1..] == s[1..] + [x];
      if key(y) > key(s[0]) {
        InsertBeforeLast(y, s[1..], x, key);
      }
    }
  }

  /** An element whose key is at least every other key ends up last: sorting
      commutes with appending it. */
  lemma {:induction false} SortByAppendLargest<T>(s: seq<T>, x: T, key: T -> int)
    requires forall y :: y in s ==> key(y) <= key(x)
    ensures SortBy(s + [x], key) == SortBy(s, key) + [x]
  {
    if s == [] {
      assert [] + [x] == [x];
    } else {
      assert (s + [x])[0] == s[0];
      assert (s + [x])[1..] == s[1..] + [x];
      SortByAppendLargest(s[1..], x, key);
      InsertBeforeLast(s[0], SortBy(s[1..], key), x, key);
    }
  }

  lemma {:induction false} InsertAfterSmallest<T>(y: T, s: seq<T>, x: T, key: T -> int)
    requires key(x) < key(y)
    ensures Insert(y, [x] + s, key) == [x] + Insert(y, s, key)
  {
    assert ([x] + s)[1..] == s;
  }

  /** An element whose key is strictly below every other key ends up first. */
  lemma {:induction false} SortByAppendSmallest<T>(s: seq<T>, x: T, key: T -> int)
    requires forall y :: y in s ==> key(x) < key(y)
    ensures SortBy(s + [x], key) == [x] + SortBy(s, key)
  {
    if s == [] {
      assert [] + [x] == [x];
    } else {
      assert (s + [x])[0] == s[0];
      assert (s + [x])[1..] == s[1..] + [x];
      SortByAppendSmallest(s[1..], x, key);
      InsertAfterSmallest(s[0], SortBy(s[1..], key), x, key);
    }
  }

  /** Appending two matching elements in key order, neither earlier than what
      already matches, appends them to the sorted selection. */
  lemma SortFilterAppendPair<T>(s: seq<T>, p: T -> bool, key: T -> int, u: T, a: T)
    requires p(u) && p(a) && key(u) <= key(a)
    requires forall y :: y in Filter(s, p) ==> key(y) <= key(u)
    ensures SortBy(Filter(s + [u, a], p), key) == SortBy(Filter(s, p), key) + [u, a]
  {
    FilterAppendPair(s, u, a, p);
    SortByAppendPair(Filter(s, p), u, a, key);
  }

  lemma FilterAppendPair<T>(s: seq<T>, u: T, a: T, p: T -> bool)
    requires p(u) && p(a)
    ensures Filter(s + [u, a], p) == Filter(s, p) + [u, a]
  {
    FilterAppend(s, [u, a], p);
    assert [a][1..] == [];
    assert [u, a][1..] == [a];
  }

  lemma SortByAppendPair<T>(t: seq<T>, u: T, a: T, key: T -> int)
    requires key(u) <= key(a)
    requires forall y :: y in t ==> key(y) <= key(u)
    ensures SortBy(t + [u, a], key) == SortBy(t, key) + [u, a]
  {
    var tu := t + [u];
    SortByAppendLargest(t, u, key);
    forall y | y in tu
      ensures key(y) <= key(a)
    {
      assert y in t || y == u;
    }
    SortByAppendLargest(tu, a, key);
    assert t + [u, a] == tu + [a];
  }
}
