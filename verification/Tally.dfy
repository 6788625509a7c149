/** Sums and gatherings over the threads of a protocol, changed one thread at a time. */
module Tally {

  function Sum<T>(s: seq<T>, w: T -> nat): nat {
    if s == [] then 0 else w(s[0]) + Sum(s[1..], w)
  }

  lemma {:induction false} SumUpdate<T>(s: seq<T>, i: nat, x: T, w: T -> nat)
    requires i < |s|
    ensures Sum(s[i := x], w) + w(s[i]) == Sum(s, w) + w(x)
  {
    if i > 0 {
      assert s[i := x][1..] == s[1..][i - 1 := x];
      SumUpdate(s[1..], i - 1, x, w);
    } else {
      assert s[i := x][1..] == s[1..];
    }
  }

  lemma {:induction false} SumAppend<T>(s: seq<T>, x: T, w: T -> nat)
    ensures Sum(s + [x], w) == Sum(s, w) + w(x)
  {
    var all := s + [x];
    if s == [] {
      assert all[1..] == [];
    } else {
      assert all[1..] == s[1..] + [x];
      SumAppend(s[1..], x, w);
    }
  }

  lemma {:induction false} SumAtMost<T>(s: seq<T>, v: T -> nat, w: T -> nat)
    requires forall x <- s :: v(x) <= w(x)
    ensures Sum(s, v) <= Sum(s, w)
  {
    if s != [] { SumAtMost(s[1..], v, w); }
  }

  lemma {:induction false} SumAtLeast<T>(s: seq<T>, i: nat, w: T -> nat)
    requires i < |s|
    ensures w(s[i]) <= Sum(s, w)
  {
    if i > 0 { SumAtLeast(s[1..], i - 1, w); }
  }

  lemma {:induction false} SumZero<T>(s: seq<T>, w: T -> nat)
    requires forall x <- s :: w(x) == 0
    ensures Sum(s, w) == 0
  {
    if s != [] { SumZero(s[1..], w); }
  }

  lemma {:induction false} SumPlus<T>(s: seq<T>, u: T -> nat, v: T -> nat, w: T -> nat)
    requires forall x <- s :: w(x) == u(x) + v(x)
    ensures Sum(s, w) == Sum(s, u) + Sum(s, v)
  {
    if s != [] { SumPlus(s[1..], u, v, w); }
  }

  /** The sum counts at least the members of any set whose elements are each counted by some thread. */
  function Union<T, C>(s: seq<T>, h: T -> set<C>): set<C> {
    if s == [] then {} else h(s[0]) + Union(s[1..], h)
  }

  lemma {:induction false} UnionSize<T, C>(s: seq<T>, h: T -> set<C>, w: T -> nat)
    requires forall x <- s :: |h(x)| <= w(x)
    ensures |Union(s, h)| <= Sum(s, w)
  {
    if s != [] {
      UnionSize(s[1..], h, w);
      SetUnionSize(h(s[0]), Union(s[1..], h));
    }
  }

  lemma SetUnionSize<C>(a: set<C>, b: set<C>)
    ensures |a + b| <= |a| + |b|
  {
    assert a + b == a + (b - a) && |b - a| <= |b| by { SubsetSize(b - a, b); }
  }

  lemma SubsetSize<C>(a: set<C>, b: set<C>)
    requires a <= b
    ensures |a| <= |b|
  {
    if a != {} {
      var x :| x in a;
      SubsetSize(a - {x}, b - {x});
    }
  }

  lemma {:induction false} UnionCovers<T, C>(s: seq<T>, h: T -> set<C>, c: C, w: T -> nat)
    requires forall x <- s :: w(x) > 0 ==> c in h(x)
    ensures Sum(s, w) > 0 ==> c in Union(s, h)
  {
    if s != [] { UnionCovers(s[1..], h, c, w); }
  }
}
