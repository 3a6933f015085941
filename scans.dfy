/** The two shapes every rollup in the session record is computed with:
    `log.filter(p).length` and `log.reduce((sum, x) => sum + f(x), 0)`. */
module Scans {

  /** `s.filter(p).length`. */
  function CountWhere<T>(s: seq<T>, p: T -> bool): (n: nat)
    ensures n <= |s|
  {
    if s == [] then 0 else CountWhere(s[..|s| - 1], p) + (if p(s[|s| - 1]) then 1 else 0)
  }

  /** `s.reduce((sum, x) => sum + f(x), 0)`. */
  function SumOf<T>(s: seq<T>, f: T -> int): int
  {
    if s == [] then 0 else SumOf(s[..|s| - 1], f) + f(s[|s| - 1])
  }

  lemma CountWhereAppend<T>(s: seq<T>, x: T, p: T -> bool)
    ensures CountWhere(s + [x], p) == CountWhere(s, p) + (if p(x) then 1 else 0)
  {
    assert (s + [x])[..|s|] == s;
  }

  lemma SumOfAppend<T>(s: seq<T>, x: T, f: T -> int)
    ensures SumOf(s + [x], f) == SumOf(s, f) + f(x)
  {
    assert (s + [x])[..|s|] == s;
  }

  lemma CountWhereOfPair<T>(x: T, y: T, p: T -> bool)
    ensures CountWhere([x, y], p) == (if p(x) then 1 else 0) + (if p(y) then 1 else 0)
  {
    assert [x, y][..1] == [x];
    assert [x][..0] == [];
  }

  lemma SumOfPair<T>(x: T, y: T, f: T -> int)
    ensures SumOf([x, y], f) == f(x) + f(y)
  {
    assert [x, y][..1] == [x];
    assert [x][..0] == [];
    assert SumOf([x], f) == f(x);
  }

  /** Replacing one element changes the count only by that element's verdicts. */
  lemma {:induction false} CountWhereUpdate<T>(s: seq<T>, i: int, x: T, p: T -> bool)
    requires 0 <= i < |s|
    ensures CountWhere(s[i := x], p) ==
            CountWhere(s, p) - (if p(s[i]) then 1 else 0) + (if p(x) then 1 else 0)
  {
    var n := |s| - 1;
    if i == n {
      assert s[i := x][..n] == s[..n];
    } else {
      assert s[i := x][..n] == s[..n][i := x];
      CountWhereUpdate(s[..n], i, x, p);
    }
  }

  /** Replacing one element changes the sum only by that element's terms. */
  lemma {:induction false} SumOfUpdate<T>(s: seq<T>, i: int, x: T, f: T -> int)
    requires 0 <= i < |s|
    ensures SumOf(s[i := x], f) == SumOf(s, f) - f(s[i]) + f(x)
  {
    var n := |s| - 1;
    if i == n {
      assert s[i := x][..n] == s[..n];
    } else {
      assert s[i := x][..n] == s[..n][i := x];
      SumOfUpdate(s[..n], i, x, f);
    }
  }

  /** Counts of two exclusive predicates add up to the count of their union. */
  lemma {:induction false} CountDisjoint<T>(s: seq<T>, p: T -> bool, q: T -> bool, either: T -> bool)
    requires forall i :: 0 <= i < |s| ==> either(s[i]) == (p(s[i]) || q(s[i]))
    requires forall i :: 0 <= i < |s| ==> !(p(s[i]) && q(s[i]))
    ensures CountWhere(s, p) + CountWhere(s, q) == CountWhere(s, either)
  {
    if s != [] {
      CountDisjoint(s[..|s| - 1], p, q, either);
    }
  }

  /** A predicate that holds of every element counts the whole sequence. */
  lemma {:induction false} CountEvery<T>(s: seq<T>, p: T -> bool)
    requires forall i :: 0 <= i < |s| ==> p(s[i])
    ensures CountWhere(s, p) == |s|
  {
    if s != [] {
      CountEvery(s[..|s| - 1], p);
    }
  }

  /** A predicate that holds of some element has a positive count. */
  lemma {:induction false} CountSome<T>(s: seq<T>, i: int, p: T -> bool)
    requires 0 <= i < |s| && p(s[i])
    ensures CountWhere(s, p) > 0
  {
    if i < |s| - 1 {
      CountSome(s[..|s| - 1], i, p);
    }
  }

  /** Two predicates of which exactly one holds of each element split the sequence. */
  lemma {:induction false} CountComplement<T>(s: seq<T>, p: T -> bool, q: T -> bool)
    requires forall i :: 0 <= i < |s| ==> p(s[i]) != q(s[i])
    ensures CountWhere(s, p) + CountWhere(s, q) == |s|
  {
    if s != [] {
      CountComplement(s[..|s| - 1], p, q);
    }
  }
}
