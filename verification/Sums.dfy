/** Sums over sequences, read from the left as the loops of the services do. */
module Sums {

  function SumBy<T>(f: T -> int, s: seq<T>): int {
    if s == [] then 0 else SumBy(f, s[..|s| - 1]) + f(s[|s| - 1])
  }

  function Same(x: int): int { x }

  function Sum(s: seq<int>): int { SumBy(Same, s) }

  lemma SumPush<T>(f: T -> int, s: seq<T>, x: T)
    ensures SumBy(f, s + [x]) == SumBy(f, s) + f(x)
  {
    assert (s + [x])[..|s|] == s;
  }

  lemma SumOfTwo<T>(f: T -> int, x: T, y: T)
    ensures SumBy(f, [x, y]) == f(x) + f(y)
  {
    assert [] + [x] == [x] && [x] + [y] == [x, y];
    SumPush(f, [], x);
    SumPush(f, [x], y);
  }

  lemma SumStep<T>(f: T -> int, s: seq<T>, i: nat)
    requires i < |s|
    ensures SumBy(f, s[..i + 1]) == SumBy(f, s[..i]) + f(s[i])
  {
    assert s[..i + 1][..i] == s[..i];
  }

  lemma {:induction false} SumConcat<T>(f: T -> int, a: seq<T>, b: seq<T>)
    ensures SumBy(f, a + b) == SumBy(f, a) + SumBy(f, b)
  {
    if b == [] {
      assert a + b == a;
    } else {
      var front := b[..|b| - 1];
      assert a + b == (a + front) + [b[|b| - 1]];
      SumPush(f, a + front, b[|b| - 1]);
      SumConcat(f, a, front);
    }
  }

  /** Taking the element at `i` out lowers the sum by its value. */
  lemma SumRemove<T>(f: T -> int, s: seq<T>, i: nat)
    requires i < |s|
    ensures SumBy(f, s) == SumBy(f, s[..i] + s[i + 1..]) + f(s[i])
  {
    hide SumBy;
    var a, x, b := s[..i], s[i], s[i + 1..];
    assert s == (a + [x]) + b;
    SumPush(f, a, x);
    SumConcat(f, a + [x], b);
    SumConcat(f, a, b);
  }

  lemma SumUpdate<T>(f: T -> int, s: seq<T>, i: nat, x: T)
    requires i < |s|
    ensures SumBy(f, s[i := x]) == SumBy(f, s) - f(s[i]) + f(x)
  {
    hide SumBy;
    var t := s[i := x];
    assert t[..i] + t[i + 1..] == s[..i] + s[i + 1..];
    SumRemove(f, s, i);
    SumRemove(f, t, i);
  }

  lemma {:induction false} SumBounds<T>(f: T -> int, s: seq<T>, lo: int, hi: int)
    requires forall i | 0 <= i < |s| :: lo <= f(s[i]) <= hi
    ensures |s| * lo <= SumBy(f, s) <= |s| * hi
  {
    if s != [] {
      SumBounds(f, s[..|s| - 1], lo, hi);
      assert |s| * lo == (|s| - 1) * lo + lo && |s| * hi == (|s| - 1) * hi + hi;
    }
  }

  /** A sum only depends on the values its terms have. */
  lemma {:induction false} SumAgree<T>(f: T -> int, g: T -> int, s: seq<T>)
    requires forall i | 0 <= i < |s| :: f(s[i]) == g(s[i])
    ensures SumBy(f, s) == SumBy(g, s)
  {
    if s != [] {
      SumAgree(f, g, s[..|s| - 1]);
    }
  }

  lemma RemoveAt<T>(s: seq<T>, i: nat)
    requires i < |s|
    ensures multiset(s[..i] + s[i + 1..]) == multiset(s) - multiset{s[i]}
  {
    assert s == s[..i] + ([s[i]] + s[i + 1..]);
    assert multiset(s) == multiset(s[..i]) + (multiset{s[i]} + multiset(s[i + 1..]));
  }

  /** Where the last element of `s` sits in a rearrangement `t` of `s`. */
  lemma LocateLast<T>(s: seq<T>, t: seq<T>) returns (i: nat)
    requires multiset(s) == multiset(t) && s != []
    ensures i < |t| && t[i] == s[|s| - 1]
    ensures multiset(t[..i] + t[i + 1..]) == multiset(s[..|s| - 1])
  {
    var x := s[|s| - 1];
    assert x in multiset(s);
    assert x in multiset(t);
    i :| 0 <= i < |t| && t[i] == x;
    RemoveAt(t, i);
    RemoveAt(s, |s| - 1);
    assert s[..|s| - 1] + s[|s|..] == s[..|s| - 1];
  }

  /** A sum does not depend on the order of its terms. */
  lemma {:induction false} SumPermutation<T>(f: T -> int, s: seq<T>, t: seq<T>)
    requires multiset(s) == multiset(t)
    ensures SumBy(f, s) == SumBy(f, t)
    decreases |s|
  {
    if s == [] {
      assert |multiset(t)| == 0;
    } else {
      var i := LocateLast(s, t);
      SumPermutation(f, s[..|s| - 1], t[..i] + t[i + 1..]);
      SumRemove(f, t, i);
    }
  }
}
