/** A stable sort by a real-valued key, largest key first.

    Both `Array.prototype.sort` (stable since ES2019) with the comparator
    `(a, b) => key(b) - key(a)` and Python's `sorted(..., key=key, reverse=True)`
    produce exactly this order: non-increasing keys, and elements with equal
    keys in their original order. */
module StableSort {

  predicate SortedDesc<T>(key: T -> real, s: seq<T>) {
    forall i, j :: 0 <= i < j < |s| ==> key(s[i]) >= key(s[j])
  }

  /** The elements of `s` whose key is `k`, in their order in `s`. */
  function WithKey<T>(key: T -> real, s: seq<T>, k: real): seq<T>
  {
    if s == [] then []
    else (if key(s[0]) == k then [s[0]] else []) + WithKey(key, s[1..], k)
  }

  function Sum<T>(f: T -> real, s: seq<T>): real
  {
    if s == [] then 0.0 else f(s[0]) + Sum(f, s[1..])
  }

  /** Places `x` in front of the first element whose key is not larger. */
  function Insert<T>(key: T -> real, x: T, s: seq<T>): (r: seq<T>)
    ensures |r| == |s| + 1
  {
    if s == [] || key(x) >= key(s[0]) then [x] + s
    else [s[0]] + Insert(key, x, s[1..])
  }

  function Sort<T>(key: T -> real, s: seq<T>): (r: seq<T>)
    ensures |r| == |s|
  {
    if s == [] then [] else Insert(key, s[0], Sort(key, s[1..]))
  }

  lemma {:induction false} InsertPermutation<T>(key: T -> real, x: T, s: seq<T>)
    ensures multiset(Insert(key, x, s)) == multiset(s) + multiset{x}
  {
    if s != [] && key(x) < key(s[0]) {
      assert s == [s[0]] + s[1..];
      InsertPermutation(key, x, s[1..]);
    }
  }

  /** The result is a permutation of the input. */
  lemma {:induction false} SortPermutation<T>(key: T -> real, s: seq<T>)
    ensures multiset(Sort(key, s)) == multiset(s)
  {
    if s != [] {
      assert s == [s[0]] + s[1..];
      SortPermutation(key, s[1..]);
      InsertPermutation(key, s[0], Sort(key, s[1..]));
    }
  }

  lemma {:induction false} InsertSorted<T>(key: T -> real, x: T, s: seq<T>)
    requires SortedDesc(key, s)
    ensures SortedDesc(key, Insert(key, x, s))
  {
    if s != [] && key(x) < key(s[0]) {
      InsertSorted(key, x, s[1..]);
      var r' := Insert(key, x, s[1..]);
      InsertPermutation(key, x, s[1..]);
      forall y | y in multiset(r') ensures key(y) <= key(s[0]) {
        assert y in multiset(s[1..]) + multiset{x};
      }
      forall j | 0 <= j < |r'| ensures key(s[0]) >= key(r'[j]) {
        assert r'[j] in multiset(r');
      }
    }
  }

  /** The result is ordered by non-increasing key. */
  lemma {:induction false} SortIsSorted<T>(key: T -> real, s: seq<T>)
    ensures SortedDesc(key, Sort(key, s))
  {
    if s != [] {
      SortIsSorted(key, s[1..]);
      InsertSorted(key, s[0], Sort(key, s[1..]));
    }
  }

  lemma {:induction false} InsertWithKey<T>(key: T -> real, x: T, s: seq<T>, k: real)
    ensures WithKey(key, Insert(key, x, s), k) == WithKey(key, [x] + s, k)
  {
    assert ([x] + s)[1..] == s;
    if s != [] && key(x) < key(s[0]) {
      InsertWithKey(key, x, s[1..], k);
      var r' := Insert(key, x, s[1..]);
      assert ([s[0]] + r')[1..] == r';
      assert ([x] + s[1..])[1..] == s[1..];
    }
  }

  /** Stability: the elements sharing any one key keep their original order. */
  lemma {:induction false} SortStable<T>(key: T -> real, s: seq<T>, k: real)
    ensures WithKey(key, Sort(key, s), k) == WithKey(key, s, k)
  {
    if s != [] {
      var t := Sort(key, s[1..]);
      SortStable(key, s[1..], k);
      InsertWithKey(key, s[0], t, k);
      assert ([s[0]] + t)[1..] == t;
    }
  }

  lemma {:induction false} InsertSum<T>(key: T -> real, f: T -> real, x: T, s: seq<T>)
    ensures Sum(f, Insert(key, x, s)) == f(x) + Sum(f, s)
  {
    if s == [] || key(x) >= key(s[0]) {
      assert ([x] + s)[1..] == s;
    } else {
      InsertSum(key, f, x, s[1..]);
      assert ([s[0]] + Insert(key, x, s[1..]))[1..] == Insert(key, x, s[1..]);
    }
  }

  /** Sorting does not change a sum over the elements. */
  lemma {:induction false} SortSum<T>(key: T -> real, f: T -> real, s: seq<T>)
    ensures Sum(f, Sort(key, s)) == Sum(f, s)
  {
    if s != [] {
      SortSum(key, f, s[1..]);
      InsertSum(key, f, s[0], Sort(key, s[1..]));
    }
  }

  /** A list already in order is left as it is. */
  lemma {:induction false} SortSorted<T>(key: T -> real, s: seq<T>)
    requires SortedDesc(key, s)
    ensures Sort(key, s) == s
  {
    if s != [] {
      assert SortedDesc(key, s[1..]);
      SortSorted(key, s[1..]);
      assert s == [s[0]] + s[1..];
    }
  }
}
