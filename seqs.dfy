/** Sequence helpers for JavaScript's `filter(y => y !== x)` and
    `slice(0, n)`. */
module Seqs {

  /** `s` with every occurrence of `x` removed, the rest in order. */
  function Without<T(==)>(s: seq<T>, x: T): (r: seq<T>)
    ensures |r| <= |s|
  {
    if s == [] then []
    else (if s[0] == x then [] else [s[0]]) + Without(s[1..], x)
  }

  /** Removing `x` keeps exactly the elements other than `x`. */
  lemma {:induction false} WithoutMembers<T>(s: seq<T>, x: T)
    ensures forall y :: y in Without(s, x) <==> y in s && y != x
    decreases |s|
  {
    if s != [] {
      WithoutMembers(s[1..], x);
      assert s == [s[0]] + s[1..];
    }
  }

  /** Removing `x` keeps every other element, as often as it occurred. */
  lemma {:induction false} WithoutCounts<T>(s: seq<T>, x: T, y: T)
    ensures multiset(Without(s, x))[y] == if y == x then 0 else multiset(s)[y]
    decreases |s|
  {
    if s != [] {
      WithoutCounts(s[1..], x, y);
      assert s == [s[0]] + s[1..];
    }
  }

  /** `Without` distributes over concatenation. */
  lemma {:induction false} WithoutAppend<T>(s: seq<T>, t: seq<T>, x: T)
    ensures Without(s + t, x) == Without(s, x) + Without(t, x)
    decreases |s|
  {
    if s == [] {
      assert s + t == t;
    } else {
      var u := s + t;
      assert u != [] && u[0] == s[0] && u[1..] == s[1..] + t;
      WithoutAppend(s[1..], t, x);
    }
  }

  /** Nothing to remove leaves the sequence as it is. */
  lemma {:induction false} WithoutAbsent<T>(s: seq<T>, x: T)
    requires x !in s
    ensures Without(s, x) == s
    decreases |s|
  {
    if s != [] {
      WithoutAbsent(s[1..], x);
      assert s == [s[0]] + s[1..];
    }
  }

  /** Appending `x` and then removing it restores a sequence that did not
      hold `x`. */
  lemma AppendThenWithout<T>(s: seq<T>, x: T)
    requires x !in s
    ensures Without(s + [x], x) == s
  {
    WithoutAppend(s, [x], x);
    WithoutAbsent(s, x);
    assert Without([x], x) == [];
  }

  /** An element other than `x` keeps its place among the elements other
      than `x`: the filter puts `s[i]` after the survivors of `s[..i]`. */
  lemma WithoutAt<T>(s: seq<T>, x: T, i: nat)
    requires i < |s| && s[i] != x
    ensures |Without(s[..i], x)| < |Without(s, x)|
    ensures Without(s, x)[|Without(s[..i], x)|] == s[i]
  {
    var p := s[..i];
    var q := s[i + 1..];
    assert s == (p + [s[i]]) + q;
    WithoutAppend(p + [s[i]], q, x);
    WithoutAppend(p, [s[i]], x);
    assert Without([s[i]], x) == [s[i]] + Without([], x);
  }

  /** The first `n` elements of `s`, or all of `s` when it is shorter. */
  function Take<T>(s: seq<T>, n: nat): (r: seq<T>)
    ensures |r| == if |s| <= n then |s| else n
    ensures r == s[..|r|]
    ensures |s| <= n ==> r == s
  {
    if |s| <= n then s else s[..n]
  }
}
