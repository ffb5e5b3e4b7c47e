/**
 * `list.sort(key=..., reverse=True)` and slicing, as the services use them.
 * Python's sort is stable also when reversed: elements with equal keys keep
 * their relative order. The model is an insertion sort from the back that
 * places each element before the first one whose key is not larger.
 */
module Sorting {
  import opened Base

  predicate SortedDesc<T>(s: seq<T>, key: T -> int) {
    forall i, j :: 0 <= i < j < |s| ==> key(s[j]) <= key(s[i])
  }

  function Insert<T>(x: T, s: seq<T>, key: T -> int): (r: seq<T>)
    ensures multiset(r) == multiset(s) + multiset{x}
    decreases |s|
  {
    if s == [] || key(s[0]) <= key(x) then [x] + s
    else
      assert s == [s[0]] + s[1..];
      [s[0]] + Insert(x, s[1..], key)
  }

  /** `sorted(s, key=key, reverse=True)`. */
  function SortDesc<T>(s: seq<T>, key: T -> int): (r: seq<T>)
    ensures multiset(r) == multiset(s)
    decreases |s|
  {
    if s == [] then []
    else
      assert s == [s[0]] + s[1..];
      Insert(s[0], SortDesc(s[1..], key), key)
  }

  lemma {:induction false} InsertSorted<T>(x: T, s: seq<T>, key: T -> int)
    requires SortedDesc(s, key)
    ensures SortedDesc(Insert(x, s, key), key)
    decreases |s|
  {
    if s != [] && key(s[0]) > key(x) {
      var rest := Insert(x, s[1..], key);
      InsertSorted(x, s[1..], key);
      forall k | 0 <= k < |rest|
        ensures key(rest[k]) <= key(s[0])
      {
        assert rest[k] in multiset(rest);
        assert rest[k] == x || rest[k] in multiset(s[1..]);
        if rest[k] != x {
          var j :| 1 <= j < |s| && s[j] == rest[k];
        }
      }
    }
  }

  /** The sort's output is ordered by non-increasing key. */
  lemma {:induction false} SortDescSorted<T>(s: seq<T>, key: T -> int)
    ensures SortedDesc(SortDesc(s, key), key)
    decreases |s|
  {
    if s != [] {
      SortDescSorted(s[1..], key);
      InsertSorted(s[0], SortDesc(s[1..], key), key);
    }
  }

  /** `[y]` when `y` carries the key `v`, nothing otherwise. */
  function Own<T>(y: T, key: T -> int, v: int): seq<T> {
    if key(y) == v then [y] else []
  }

  /** The elements of `s` whose key is `v`, in their order in `s`. */
  function WithKey<T>(s: seq<T>, key: T -> int, v: int): seq<T>
    decreases |s|
  {
    if s == [] then [] else Own(s[0], key, v) + WithKey(s[1..], key, v)
  }

  lemma WithKeyCons<T>(y: T, t: seq<T>, key: T -> int, v: int)
    ensures WithKey([y] + t, key, v) == Own(y, key, v) + WithKey(t, key, v)
  {
    assert ([y] + t)[1..] == t;
  }

  lemma {:induction false} WithKeyAppend<T>(a: seq<T>, b: seq<T>, key: T -> int, v: int)
    ensures WithKey(a + b, key, v) == WithKey(a, key, v) + WithKey(b, key, v)
    decreases |a|
  {
    if a == [] {
      assert a + b == b;
    } else {
      var t := a[1..];
      WithKeyAppend(t, b, key, v);
      assert a == [a[0]] + t;
      assert a + b == [a[0]] + (t + b);
      WithKeyCons(a[0], t + b, key, v);
      WithKeyCons(a[0], t, key, v);
    }
  }

  /** Two elements with different keys: at most one of them is kept, so their order does not matter. */
  lemma SwapOwn<T>(x: T, y: T, tail: seq<T>, key: T -> int, v: int)
    requires key(x) != key(y)
    ensures Own(y, key, v) + (Own(x, key, v) + tail) == Own(x, key, v) + (Own(y, key, v) + tail)
  {
    if key(x) == v {
      assert Own(y, key, v) == [];
    } else {
      assert Own(x, key, v) == [];
    }
  }

  /** Inserting passes over strictly larger keys only, so `x` lands after nothing of its own key. */
  lemma {:induction false} WithKeyInsert<T>(x: T, s: seq<T>, key: T -> int, v: int)
    ensures WithKey(Insert(x, s, key), key, v) == Own(x, key, v) + WithKey(s, key, v)
    decreases |s|
  {
    if s != [] && key(s[0]) > key(x) {
      var y := s[0];
      var r := Insert(x, s[1..], key);
      WithKeyInsert(x, s[1..], key, v);
      assert Insert(x, s, key) == [y] + r;
      WithKeyCons(y, r, key, v);
      assert s == [y] + s[1..];
      WithKeyCons(y, s[1..], key, v);
      SwapOwn(x, y, WithKey(s[1..], key, v), key, v);
    } else {
      assert Insert(x, s, key) == [x] + s;
      WithKeyCons(x, s, key, v);
    }
  }

  /** Stability: for every key value, the elements carrying it keep their original order. */
  lemma {:induction false} SortDescStable<T>(s: seq<T>, key: T -> int, v: int)
    ensures WithKey(SortDesc(s, key), key, v) == WithKey(s, key, v)
    decreases |s|
  {
    if s != [] {
      SortDescStable(s[1..], key, v);
      WithKeyInsert(s[0], SortDesc(s[1..], key), key, v);
    }
  }

  /** Python's `s[:n]`: the first `n` elements, or all but the last `-n` when `n` is negative. */
  function SliceTo<T>(s: seq<T>, n: int): (r: seq<T>)
    ensures r <= s
    ensures n >= 0 ==> |r| == Min(n, |s|)
    ensures n < 0 ==> |r| == if |s| + n < 0 then 0 else |s| + n
  {
    if n >= 0 then (if n <= |s| then s[..n] else s)
    else if |s| + n < 0 then [] else s[..|s| + n]
  }

  /** The first `n` elements of the sorted sequence are `min(n, |s|)` elements of `s`, taken with multiplicity. */
  lemma SortedPrefixSize<T>(s: seq<T>, key: T -> int, n: nat)
    ensures var top := SliceTo(SortDesc(s, key), n);
            && |top| == Min(n, |s|)
            && multiset(top) <= multiset(s)
            && (forall e :: e in top ==> e in s)
  {
    var sorted := SortDesc(s, key);
    var top := SliceTo(sorted, n);
    assert |sorted| == |s| by {
      assert |multiset(sorted)| == |multiset(s)|;
    }
    PrefixSubMultiset(top, sorted);
    forall e | e in top
      ensures e in s
    {
      assert e in multiset(top);
    }
  }

  /** A prefix holds no element more often than the whole sequence. */
  lemma PrefixSubMultiset<T>(p: seq<T>, s: seq<T>)
    requires p <= s
    ensures multiset(p) <= multiset(s)
  {
    assert s == p + s[|p|..];
  }

  /** The first `n` elements of the sorted sequence are in key order, and none has a smaller key than an element left out. */
  lemma SortedPrefixBest<T>(s: seq<T>, key: T -> int, n: nat)
    ensures var top := SliceTo(SortDesc(s, key), n);
            && SortedDesc(top, key)
            && (forall e, f :: e in s && e !in top && f in top ==> key(e) <= key(f))
  {
    var sorted := SortDesc(s, key);
    var top := SliceTo(sorted, n);
    SortDescSorted(s, key);
    forall e, f | e in s && e !in top && f in top
      ensures key(e) <= key(f)
    {
      assert e in multiset(sorted);
      var i :| 0 <= i < |sorted| && sorted[i] == e;
      var j :| 0 <= j < |top| && top[j] == f;
      assert sorted[j] == f;
      assert i >= |top|;
    }
  }

  /** Taking a prefix keeps, for every key value, a prefix of the elements with that key. */
  lemma {:induction false} WithKeyPrefix<T>(p: seq<T>, s: seq<T>, key: T -> int, v: int)
    requires p <= s
    ensures WithKey(p, key, v) <= WithKey(s, key, v)
  {
    assert s == p + s[|p|..];
    WithKeyAppend(p, s[|p|..], key, v);
  }
}
