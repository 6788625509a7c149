/** Facts about concatenation. */
module Sequences {

  lemma TailAppend<T>(a: seq<T>, b: seq<T>)
    requires a != []
    ensures (a + b)[0] == a[0] && (a + b)[1..] == a[1..] + b
  {
  }

  lemma Associate<T>(a: seq<T>, b: seq<T>, c: seq<T>)
    ensures a + (b + c) == a + b + c
  {
  }

  /** The elements with a property, in order. */
  function Filter<T>(s: seq<T>, p: T -> bool): seq<T> {
    if s == [] then [] else (if p(s[0]) then [s[0]] else []) + Filter(s[1..], p)
  }

  lemma {:induction false} FilterAppend<T>(a: seq<T>, b: seq<T>, p: T -> bool)
    ensures Filter(a + b, p) == Filter(a, p) + Filter(b, p)
  {
    if a == [] {
      assert a + b == b;
    } else {
      TailAppend(a, b);
      FilterAppend(a[1..], b, p);
      Associate(if p(a[0]) then [a[0]] else [], Filter(a[1..], p), Filter(b, p));
    }
  }

  lemma FilterOne<T>(x: T, p: T -> bool)
    ensures Filter([x], p) == if p(x) then [x] else []
  {
    assert [x][1..] == [];
  }

  /** A queue and what is yet to join it, after one exchange at its ends and after all. */
  lemma Regroup<T>(q: seq<T>, x: seq<T>, later: seq<T>, y: seq<T>, r: seq<T>, out: seq<T>, end: seq<T>)
    requires q + x == y + r && r + later == out + end
    ensures q + (x + later) == y + out + end
  {
    assert q + (x + later) == (q + x) + later;
    assert (y + r) + later == y + (r + later);
    assert y + (out + end) == y + out + end;
  }
}
