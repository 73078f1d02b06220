/** The stable descending sort that JavaScript's `Array.prototype.sort`
    performs with a comparator `(a, b) => key(b) - key(a)`: elements with a
    larger key come first, and elements with equal keys keep their order. */
module StableSort {
  import opened Seqs

  /** Keys do not increase from left to right. */
  predicate SortedDesc<T>(s: seq<T>, key: T -> int) {
    forall i, j :: 0 <= i < j < |s| ==> key(s[i]) >= key(s[j])
  }

  /** The elements of `s` whose key is `c`, in their order in `s`. */
  function WithKey<T>(s: seq<T>, key: T -> int, c: int): (r: seq<T>)
    ensures |r| <= |s|
    ensures forall i :: 0 <= i < |r| ==> key(r[i]) == c
  {
    if s == [] then []
    else (if key(s[0]) == c then [s[0]] else []) + WithKey(s[1..], key, c)
  }

  /** Places `x` in front of the first element whose key is not larger. */
  function Insert<T>(x: T, s: seq<T>, key: T -> int): (r: seq<T>)
    ensures |r| == |s| + 1
    ensures multiset(r) == multiset(s) + multiset{x}
    ensures r[0] == x || (s != [] && r[0] == s[0])
  {
    if s == [] || key(x) >= key(s[0]) then [x] + s
    else
      assert s == [s[0]] + s[1..];
      [s[0]] + Insert(x, s[1..], key)
  }

  /** Inserting into a sorted sequence keeps it sorted. */
  lemma {:induction false} InsertSorted<T>(x: T, s: seq<T>, key: T -> int)
    requires SortedDesc(s, key)
    ensures SortedDesc(Insert(x, s, key), key)
    decreases |s|
  {
    if s != [] && key(x) < key(s[0]) {
      InsertSorted(x, s[1..], key);
      var t := Insert(x, s[1..], key);
      assert multiset(t) == multiset(s[1..]) + multiset{x};
      forall j | 0 <= j < |t| ensures key(s[0]) >= key(t[j]) {
        assert t[j] in multiset(t);
        if t[j] != x {
          assert t[j] in multiset(s[1..]);
          var k :| 0 <= k < |s[1..]| && s[1..][k] == t[j];
          assert s[k + 1] == t[j];
        }
      }
    }
  }

  /** Insertion sort from the back: the head of the input is inserted in
      front of every later element with the same key. */
  function Sort<T>(s: seq<T>, key: T -> int): (r: seq<T>)
    ensures |r| == |s|
    ensures multiset(r) == multiset(s)
    ensures SortedDesc(r, key)
  {
    if s == [] then []
    else
      assert s == [s[0]] + s[1..];
      var t := Sort(s[1..], key);
      InsertSorted(s[0], t, key);
      Insert(s[0], t, key)
  }

  lemma {:induction false} InsertWithKey<T>(x: T, s: seq<T>, key: T -> int, c: int)
    ensures WithKey(Insert(x, s, key), key, c)
         == (if key(x) == c then [x] else []) + WithKey(s, key, c)
    decreases |s|
  {
    if s == [] || key(x) >= key(s[0]) {
      assert ([x] + s)[1..] == s;
    } else {
      InsertWithKey(x, s[1..], key, c);
      var r := Insert(x, s, key);
      assert r[0] == s[0] && r[1..] == Insert(x, s[1..], key);
    }
  }

  /** Stability: among elements with the same key the sort keeps the input
      order. */
  lemma {:induction false} SortStable<T>(s: seq<T>, key: T -> int, c: int)
    ensures WithKey(Sort(s, key), key, c) == WithKey(s, key, c)
    decreases |s|
  {
    if s != [] {
      SortStable(s[1..], key, c);
      InsertWithKey(s[0], Sort(s[1..], key), key, c);
    }
  }

  /** A sequence already in order is left as it is, so sorting twice is the
      same as sorting once. */
  lemma {:induction false} SortOfSorted<T>(s: seq<T>, key: T -> int)
    requires SortedDesc(s, key)
    ensures Sort(s, key) == s
    decreases |s|
  {
    if s != [] {
      assert SortedDesc(s[1..], key);
      SortOfSorted(s[1..], key);
      assert s == [s[0]] + s[1..];
    }
  }

  lemma SortIdempotent<T>(s: seq<T>, key: T -> int)
    ensures Sort(Sort(s, key), key) == Sort(s, key)
  {
    SortOfSorted(Sort(s, key), key);
  }

  /** A prefix of a sequence in order is in order, and every element after
      it ranks no higher than any element in it. */
  lemma PrefixOfSorted<T>(sorted: seq<T>, key: T -> int, m: nat)
    requires m <= |sorted| && SortedDesc(sorted, key)
    ensures SortedDesc(sorted[..m], key)
    ensures multiset(sorted) == multiset(sorted[..m]) + multiset(sorted[m..])
    ensures forall x, i :: x in multiset(sorted[m..]) && 0 <= i < m ==> key(x) <= key(sorted[i])
  {
    assert sorted == sorted[..m] + sorted[m..];
    forall x, i | x in multiset(sorted[m..]) && 0 <= i < m
      ensures key(x) <= key(sorted[i])
    {
      var k :| 0 <= k < |sorted[m..]| && sorted[m..][k] == x;
      assert sorted[m + k] == x;
    }
  }

  /** The first `n` of a sorted sequence are in order, are drawn from the
      input, and are all of it when the input has at most `n` elements;
      every element left out ranks no higher than any element kept. */
  lemma TopOfSort<T>(s: seq<T>, key: T -> int, n: nat)
    ensures var r := Take(Sort(s, key), n);
            SortedDesc(r, key) &&
            multiset(r) <= multiset(s) &&
            (|s| <= n ==> multiset(r) == multiset(s)) &&
            (forall x, i :: x in multiset(s) - multiset(r) && 0 <= i < |r| ==> key(x) <= key(r[i]))
  {
    var sorted := Sort(s, key);
    var r := Take(sorted, n);
    var m := |r|;
    assert r == sorted[..m];
    PrefixOfSorted(sorted, key, m);
    var rest := multiset(sorted[m..]);
    assert multiset(s) == multiset(r) + rest;
    assert multiset(s) - multiset(r) == rest;
    forall x, i | x in multiset(s) - multiset(r) && 0 <= i < m
      ensures key(x) <= key(r[i])
    {
      assert x in rest && r[i] == sorted[i];
    }
    if |s| <= n {
      assert m == |s| && sorted[m..] == [];
    }
  }
}
