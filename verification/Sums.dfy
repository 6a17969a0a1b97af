/** Sums and filters over sequences, built from the right so that appending is one step. */
module Sums {

  function SumBy<T>(s: seq<T>, f: T -> int): int {
    if |s| == 0 then 0 else SumBy(s[..|s| - 1], f) + f(s[|s| - 1])
  }

  function Itself(): int -> int {
    (x: int) => x
  }

  function Sum(s: seq<int>): int {
    SumBy(s, Itself())
  }

  lemma SumSnoc<T>(s: seq<T>, x: T, f: T -> int)
    ensures SumBy(s + [x], f) == SumBy(s, f) + f(x)
  {
    assert (s + [x])[..|s|] == s;
  }

  lemma SumOne<T>(x: T, f: T -> int)
    ensures SumBy([x], f) == f(x)
  {
    assert [x][..0] == [];
  }

  lemma SumPrefix<T>(s: seq<T>, k: nat, f: T -> int)
    requires k < |s|
    ensures SumBy(s[..k + 1], f) == SumBy(s[..k], f) + f(s[k])
  {
    assert s[..k + 1] == s[..k] + [s[k]];
    SumSnoc(s[..k], s[k], f);
  }

  lemma {:induction false} SumConcat<T>(s: seq<T>, t: seq<T>, f: T -> int)
    ensures SumBy(s + t, f) == SumBy(s, f) + SumBy(t, f)
  {
    if |t| == 0 {
      assert s + t == s;
    } else {
      var front, x := t[..|t| - 1], t[|t| - 1];
      assert s + t == (s + front) + [x];
      SumConcat(s, front, f);
      SumSnoc(s + front, x, f);
    }
  }

  lemma {:induction false} SumUpdate<T>(s: seq<T>, i: nat, x: T, f: T -> int)
    requires i < |s|
    ensures SumBy(s[i := x], f) == SumBy(s, f) - f(s[i]) + f(x)
  {
    var n := |s| - 1;
    if i == n {
      assert s[i := x][..n] == s[..n];
    } else {
      assert s[i := x][..n] == s[..n][i := x];
      SumUpdate(s[..n], i, x, f);
    }
  }

  lemma {:induction false} SumCongruent<T, U>(s: seq<T>, f: T -> int, t: seq<U>, g: U -> int)
    requires |s| == |t|
    requires forall i :: 0 <= i < |s| ==> f(s[i]) == g(t[i])
    ensures SumBy(s, f) == SumBy(t, g)
  {
    if |s| > 0 {
      var n := |s| - 1;
      assert forall i :: 0 <= i < n ==> s[..n][i] == s[i] && t[..n][i] == t[i];
      SumCongruent(s[..n], f, t[..n], g);
    }
  }

  lemma {:induction false} SumMonotone<T, U>(s: seq<T>, f: T -> int, t: seq<U>, g: U -> int)
    requires |s| == |t|
    requires forall i :: 0 <= i < |s| ==> f(s[i]) <= g(t[i])
    ensures SumBy(s, f) <= SumBy(t, g)
  {
    if |s| > 0 {
      var n := |s| - 1;
      assert forall i :: 0 <= i < n ==> s[..n][i] == s[i] && t[..n][i] == t[i];
      SumMonotone(s[..n], f, t[..n], g);
    }
  }

  // The sum of h = f + g is the sum of f plus the sum of g.
  lemma {:induction false} SumPlus<T>(s: seq<T>, f: T -> int, g: T -> int, h: T -> int)
    requires forall x :: x in s ==> h(x) == f(x) + g(x)
    ensures SumBy(s, h) == SumBy(s, f) + SumBy(s, g)
  {
    if |s| > 0 {
      SumPlus(s[..|s| - 1], f, g, h);
    }
  }

  lemma {:induction false} SumZero<T>(s: seq<T>, f: T -> int)
    requires forall x :: x in s ==> f(x) == 0
    ensures SumBy(s, f) == 0
  {
    if |s| > 0 {
      SumZero(s[..|s| - 1], f);
    }
  }

  // With no negative term, the sum bounds every term.
  lemma {:induction false} SumNonNegative<T>(s: seq<T>, f: T -> int)
    requires forall i :: 0 <= i < |s| ==> f(s[i]) >= 0
    ensures 0 <= SumBy(s, f)
    ensures forall i :: 0 <= i < |s| ==> f(s[i]) <= SumBy(s, f)
  {
    if |s| > 0 {
      var front := s[..|s| - 1];
      assert forall i :: 0 <= i < |front| ==> front[i] == s[i];
      SumNonNegative(front, f);
    }
  }

  // Sums do not depend on order.
  lemma {:induction false} SumPermuted<T>(s: seq<T>, t: seq<T>, f: T -> int)
    requires multiset(s) == multiset(t)
    ensures SumBy(s, f) == SumBy(t, f)
  {
    if |s| == 0 {
      assert |multiset(t)| == 0;
    } else {
      var n := |s| - 1;
      var x := s[n];
      assert s == s[..n] + [x];
      assert x in multiset(t);
      var k :| 0 <= k < |t| && t[k] == x;
      var rest := t[..k] + t[k + 1..];
      assert t == t[..k] + ([x] + t[k + 1..]);
      assert multiset(t) == multiset(rest) + multiset{x};
      assert multiset(s) == multiset(s[..n]) + multiset{x};
      assert multiset(s[..n]) == multiset(s) - multiset{x};
      assert multiset(rest) == multiset(t) - multiset{x};
      SumPermuted(s[..n], rest, f);
      SumConcat(t[..k], t[k + 1..], f);
      SumConcat(t[..k], [x] + t[k + 1..], f);
      SumConcat([x], t[k + 1..], f);
      SumSnoc([], x, f);
      assert [] + [x] == [x];
    }
  }

  function Filter<T(!new)>(s: seq<T>, keep: T -> bool): (kept: seq<T>)
    ensures |kept| <= |s|
    ensures forall x :: x in kept <==> x in s && keep(x)
  {
    if |s| == 0 then []
    else if keep(s[|s| - 1]) then Filter(s[..|s| - 1], keep) + [s[|s| - 1]]
    else Filter(s[..|s| - 1], keep)
  }

  lemma {:induction false} FilterConcat<T(!new)>(s: seq<T>, t: seq<T>, keep: T -> bool)
    ensures Filter(s + t, keep) == Filter(s, keep) + Filter(t, keep)
  {
    if |t| == 0 {
      assert s + t == s;
    } else {
      var front, x := t[..|t| - 1], t[|t| - 1];
      assert (s + t)[..|s + t| - 1] == s + front;
      FilterConcat(s, front, keep);
    }
  }

  lemma FilterSnoc<T(!new)>(s: seq<T>, x: T, keep: T -> bool)
    ensures Filter(s + [x], keep) == Filter(s, keep) + (if keep(x) then [x] else [])
  {
    assert (s + [x])[..|s|] == s;
  }

  lemma FilterPrefix<T(!new)>(s: seq<T>, k: nat, keep: T -> bool)
    requires k < |s|
    ensures Filter(s[..k + 1], keep) == Filter(s[..k], keep) + (if keep(s[k]) then [s[k]] else [])
  {
    assert s[..k + 1] == s[..k] + [s[k]];
    FilterSnoc(s[..k], s[k], keep);
  }

  predicate Distinct<T(==)>(s: seq<T>) {
    forall i, j :: 0 <= i < j < |s| ==> s[i] != s[j]
  }
}
