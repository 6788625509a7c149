/** Objects shared between threads: each assignment, reset and destruction of a pointer in its atomic
    parts, the increment, the decrement, the deletion and the store, with other threads' parts in
    between. A pointer is used by one thread at a time, or only copied from; objects are shared. */
module RefSteps {
  import opened RefCounts
  import opened Tally

  /** What a pointer does once its old target is dropped: hold a target counted before, take over what
      it was lent, or end. */
  datatype Next = Hold(target: Target) | From(q: nat) | End

  datatype Spot =
    | Rest(target: Target)
    | Busy(target: Target, next: Next)         // about to drop its target
    | Deleting(victim: nat, next: Next)        // took the count to zero, about to delete
    | Storing(next: Next)
    | Lent(target: Target)                     // the source of a move assignment under way
    | Ended

  /** Used tells whether an object ever had a pointer. */
  datatype Shared = Shared(counts: seq<int>, used: seq<bool>, deletions: seq<nat>, spots: seq<Spot>)

  const NOTHING := Shared([], [], [], [])

  datatype Part =
    | Birth                            // a new object
    | Raw(to: Target)                  // a new pointer, null, from a raw one or from this
    | Copy(q: nat)                     // copy construction
    | MoveNew(q: nat)                  // move construction
    | Gain(p: nat, q: nat)             // p = q: the increment
    | GainRaw(p: nat, to: Target)      // reset: the increment
    | Lend(p: nat, q: nat)             // p = std::move(q)
    | Finish(p: nat)                   // destruction
    | Drop(p: nat)                     // the decrement
    | Delete(p: nat)
    | Store(p: nat)

  function Count(h: Shared, o: nat): int { if o < |h.counts| then h.counts[o] else 0 }

  predicate Used(h: Shared, o: nat) { o < |h.used| && h.used[o] }

  /** A caller may hand in an object that has a pointer, or never had one. */
  predicate Safe(h: Shared, t: Target) {
    t.To? ==>
      && t.obj < |h.counts| == |h.used| && h.counts[t.obj] < LIMIT - 1
      && (h.counts[t.obj] >= 1 || !h.used[t.obj])
  }

  predicate Resting(h: Shared, p: nat) { p < |h.spots| && h.spots[p].Rest? }

  /** The counter has room: a copied target is safe to count because its source holds it. */
  predicate Room(h: Shared, t: Target) { t.To? ==> Count(h, t.obj) < LIMIT - 1 }

  predicate Droppable(h: Shared, t: Target) { t.To? ==> t.obj < |h.counts| }

  predicate Enabled(h: Shared, a: Part) {
    && |h.counts| == |h.used|
    && match a
       case Birth => true
       case Raw(t) => Safe(h, t)
       case Copy(q) => Resting(h, q) && Room(h, h.spots[q].target) && Droppable(h, h.spots[q].target)
       case MoveNew(q) => Resting(h, q)
       case Gain(p, q) =>
         p != q && Resting(h, p) && Resting(h, q) && Room(h, h.spots[q].target) && Droppable(h, h.spots[q].target)
       case GainRaw(p, t) => Resting(h, p) && Safe(h, t)
       case Lend(p, q) => p != q && Resting(h, p) && Resting(h, q)
       case Finish(p) => Resting(h, p)
       case Drop(p) => p < |h.spots| && h.spots[p].Busy? && Droppable(h, h.spots[p].target)
       case Delete(p) => p < |h.spots| && h.spots[p].Deleting?
       case Store(p) =>
         && p < |h.spots| && h.spots[p].Storing?
         && var n := h.spots[p].next;
            n.From? ==> n.q < |h.spots| && n.q != p && h.spots[n.q].Lent?
  }

  function Counted(h: Shared, t: Target): Shared
    requires t.To? ==> t.obj < |h.counts| == |h.used|
  {
    if t == Null then h
    else h.(counts := h.counts[t.obj := h.counts[t.obj] + 1], used := h.used[t.obj := true])
  }

  function Put(h: Shared, p: nat, x: Spot): Shared
    requires p < |h.spots|
  {
    h.(spots := h.spots[p := x])
  }

  function New(h: Shared, x: Spot): Shared { h.(spots := h.spots + [x]) }

  function Apply(h: Shared, a: Part): Shared
    requires Enabled(h, a)
  {
    match a
    case Birth => h.(counts := h.counts + [0], used := h.used + [false])
    case Raw(t) => New(Counted(h, t), Rest(t))
    case Copy(q) => New(Counted(h, h.spots[q].target), Rest(h.spots[q].target))
    case MoveNew(q) => New(Put(h, q, Rest(Null)), h.spots[q])
    case Gain(p, q) => Put(Counted(h, h.spots[q].target), p, Busy(h.spots[p].target, Hold(h.spots[q].target)))
    case GainRaw(p, t) => Put(Counted(h, t), p, Busy(h.spots[p].target, Hold(t)))
    case Lend(p, q) => Put(Put(h, p, Busy(h.spots[p].target, From(q))), q, Lent(h.spots[q].target))
    case Finish(p) => Put(h, p, Busy(h.spots[p].target, End))
    case Drop(p) =>
      var t, n := h.spots[p].target, h.spots[p].next;
      if t == Null then Put(h, p, Storing(n))
      else
        Put(h.(counts := h.counts[t.obj := h.counts[t.obj] - 1]), p,
            if h.counts[t.obj] == 1 then Deleting(t.obj, n) else Storing(n))
    case Delete(p) => Put(h.(deletions := h.deletions + [h.spots[p].victim]), p, Storing(h.spots[p].next))
    case Store(p) =>
      match h.spots[p].next
      case Hold(t) => Put(h, p, Rest(t))
      case End => Put(h, p, Ended)
      case From(q) => Put(Put(h, p, Rest(h.spots[q].target)), q, Rest(Null))
  }

  // ---- The law of the count ----

  function Held(n: Next, o: nat): nat { if n == Hold(To(o)) then 1 else 0 }

  function Points(t: Target, o: nat): nat { if t == To(o) then 1 else 0 }

  /** A pointer's references to an object: its target until that is dropped, and the one it gained. */
  function Refs(o: nat): Spot -> nat {
    (x: Spot) =>
      match x
      case Rest(t) => Points(t, o)
      case Busy(t, n) => Points(t, o) + Held(n, o)
      case Deleting(_, n) => Held(n, o)
      case Storing(n) => Held(n, o)
      case Lent(t) => Points(t, o)
      case Ended => 0
  }

  /** About to delete an object. */
  function Dooms(o: nat): Spot -> nat { (x: Spot) => if x.Deleting? && x.victim == o then 1 else 0 }

  /** The count is the references at rest and under way; once a used object has none, it was deleted
      once or one thread is about to. */
  ghost predicate LawAt(h: Shared, o: nat) {
    && Count(h, o) == Sum(h.spots, Refs(o)) < LIMIT
    && (Count(h, o) > 0 ==> Used(h, o))
    && Sum(h.deletions, Names(o)) + Sum(h.spots, Dooms(o)) == if Used(h, o) && Count(h, o) == 0 then 1 else 0
  }

  ghost predicate Law(h: Shared) { |h.counts| == |h.used| && forall o: nat :: LawAt(h, o) }

  /** The spot a part changes first, with what was and what is there. */
  lemma PutSums(s: seq<Spot>, p: nat, x: Spot, o: nat)
    requires p < |s|
    ensures Sum(s[p := x], Refs(o)) + Refs(o)(s[p]) == Sum(s, Refs(o)) + Refs(o)(x)
    ensures Sum(s[p := x], Dooms(o)) + Dooms(o)(s[p]) == Sum(s, Dooms(o)) + Dooms(o)(x)
    ensures Refs(o)(s[p]) <= Sum(s, Refs(o)) && Dooms(o)(s[p]) <= Sum(s, Dooms(o))
  {
    SumUpdate(s, p, x, Refs(o));
    SumUpdate(s, p, x, Dooms(o));
    SumAtLeast(s, p, Refs(o));
    SumAtLeast(s, p, Dooms(o));
  }

  lemma NewSums(s: seq<Spot>, x: Spot, o: nat)
    ensures Sum(s + [x], Refs(o)) == Sum(s, Refs(o)) + Refs(o)(x)
    ensures Sum(s + [x], Dooms(o)) == Sum(s, Dooms(o)) + Dooms(o)(x)
  {
    SumAppend(s, x, Refs(o));
    SumAppend(s, x, Dooms(o));
  }

  lemma MakeStep(h: Shared, a: Part, o: nat)
    requires Enabled(h, a) && LawAt(h, o) && (a.Birth? || a.Raw? || a.Copy? || a.MoveNew?)
    ensures LawAt(Apply(h, a), o)
  {
    hide Sum;
    match a
    case Birth =>
    case Raw(t) => NewSums(h.spots, Rest(t), o);
    case Copy(q) =>
      PutSums(h.spots, q, h.spots[q], o);
      NewSums(h.spots, h.spots[q], o);
    case MoveNew(q) =>
      PutSums(h.spots, q, Rest(Null), o);
      NewSums(h.spots[q := Rest(Null)], h.spots[q], o);
  }

  lemma BeginStep(h: Shared, a: Part, o: nat)
    requires Enabled(h, a) && LawAt(h, o) && (a.Gain? || a.GainRaw? || a.Lend? || a.Finish?)
    ensures LawAt(Apply(h, a), o)
  {
    hide Sum;
    var s := h.spots;
    match a
    case Gain(p, q) =>
      PutSums(s, q, s[q], o);
      PutSums(s, p, Busy(s[p].target, Hold(s[q].target)), o);
    case GainRaw(p, t) => PutSums(s, p, Busy(s[p].target, Hold(t)), o);
    case Lend(p, q) =>
      PutSums(s, p, Busy(s[p].target, From(q)), o);
      PutSums(s[p := Busy(s[p].target, From(q))], q, Lent(s[q].target), o);
    case Finish(p) => PutSums(s, p, Busy(s[p].target, End), o);
  }

  lemma EndStep(h: Shared, a: Part, o: nat)
    requires Enabled(h, a) && LawAt(h, o) && (a.Drop? || a.Delete? || a.Store?)
    ensures LawAt(Apply(h, a), o)
  {
    hide Sum;
    var s, k := h.spots, Apply(h, a);
    match a
    case Drop(p) => PutSums(s, p, k.spots[p], o);
    case Delete(p) =>
      PutSums(s, p, k.spots[p], o);
      SumAppend(h.deletions, s[p].victim, Names(o));
    case Store(p) =>
      PutSums(s, p, k.spots[p], o);
      if s[p].next.From? { PutSums(s[p := k.spots[p]], s[p].next.q, Rest(Null), o); }
  }

  lemma LawStep(h: Shared, a: Part)
    requires Enabled(h, a) && Law(h)
    ensures Law(Apply(h, a))
  {
    forall o: nat ensures LawAt(Apply(h, a), o) {
      assert LawAt(h, o);
      if a.Birth? || a.Raw? || a.Copy? || a.MoveNew? {
        MakeStep(h, a, o);
      } else if a.Gain? || a.GainRaw? || a.Lend? || a.Finish? {
        BeginStep(h, a, o);
      } else {
        EndStep(h, a, o);
      }
    }
  }

  // ---- No operation is stuck ----

  function NextOf(x: Spot): Next {
    match x case Busy(_, n) => n case Deleting(_, n) => n case Storing(n) => n case _ => End
  }

  /** What a pointer is to take over is lent, and to it alone. */
  ghost predicate Linked(h: Shared) {
    && (forall p | 0 <= p < |h.spots| && NextOf(h.spots[p]).From? :: LinkedAt(h, p))
    && (forall p, r | 0 <= p < r < |h.spots| && NextOf(h.spots[p]).From? :: NextOf(h.spots[p]) != NextOf(h.spots[r]))
  }

  predicate LinkedAt(h: Shared, p: nat)
    requires p < |h.spots| && NextOf(h.spots[p]).From?
  {
    var q := NextOf(h.spots[p]).q;
    q < |h.spots| && q != p && h.spots[q].Lent?
  }

  /** Which pointers a part gives something to take over, and which it relieves of it. */
  lemma NextStep(h: Shared, a: Part, p: nat)
    requires Enabled(h, a) && p < |Apply(h, a).spots|
    ensures
      NextOf(Apply(h, a).spots[p]).From? ==>
        if a.Lend? && p == a.p then NextOf(Apply(h, a).spots[p]) == From(a.q)
        else p < |h.spots| && NextOf(Apply(h, a).spots[p]) == NextOf(h.spots[p]) && !(a.Store? && a.p == p)
  {
  }

  lemma LentStep(h: Shared, a: Part, q: nat)
    requires Enabled(h, a) && q < |h.spots| && h.spots[q].Lent?
    requires a.Store? ==> h.spots[a.p].next != From(q)
    ensures q < |Apply(h, a).spots| && Apply(h, a).spots[q].Lent?
  {
  }

  lemma LendLends(h: Shared, a: Part)
    requires Enabled(h, a) && a.Lend?
    ensures a.q < |Apply(h, a).spots| && a.q != a.p && Apply(h, a).spots[a.q].Lent? && !h.spots[a.q].Lent?
  {
  }

  lemma LinkedStep(h: Shared, a: Part)
    requires Enabled(h, a) && Linked(h)
    ensures Linked(Apply(h, a))
  {
    var k := Apply(h, a);
    if a.Lend? { LendLends(h, a); }
    assert a.Store? ==> a.p < |h.spots| && NextOf(h.spots[a.p]) == h.spots[a.p].next;
    hide Apply, Enabled;
    forall p | 0 <= p < |k.spots| && NextOf(k.spots[p]).From? ensures LinkedAt(k, p) {
      NextStep(h, a, p);
      if !(a.Lend? && p == a.p) {
        assert LinkedAt(h, p);
        LentStep(h, a, NextOf(h.spots[p]).q);
      }
    }
    forall p, r | 0 <= p < r < |k.spots| && NextOf(k.spots[p]).From? ensures NextOf(k.spots[p]) != NextOf(k.spots[r]) {
      NextStep(h, a, p);
      NextStep(h, a, r);
      if p < |h.spots| && NextOf(h.spots[p]).From? { assert LinkedAt(h, p); }
      if r < |h.spots| && NextOf(h.spots[r]).From? { assert LinkedAt(h, r); }
    }
  }

  predicate Valid(h: Shared, parts: seq<Part>)
    decreases |parts|
  {
    parts == [] || (Enabled(h, parts[0]) && Valid(Apply(h, parts[0]), parts[1..]))
  }

  function Exec(h: Shared, parts: seq<Part>): Shared
    requires Valid(h, parts)
    decreases |parts|
  {
    if parts == [] then h else Exec(Apply(h, parts[0]), parts[1..])
  }

  lemma {:induction false} RunLaw(h: Shared, parts: seq<Part>)
    requires Valid(h, parts) && Law(h) && Linked(h)
    ensures Law(Exec(h, parts)) && Linked(Exec(h, parts))
    decreases |parts|
  {
    if parts != [] {
      LawStep(h, parts[0]);
      LinkedStep(h, parts[0]);
      RunLaw(Apply(h, parts[0]), parts[1..]);
    }
  }

  /** Whatever the threads' parts interleave to: an object's count is its references, at rest and under
      way; a referenced object is not deleted and nobody is about to; and a used one without references
      was deleted exactly once, or exactly one thread is about to delete it. */
  lemma SharedCountsExact(parts: seq<Part>, o: nat)
    requires Valid(NOTHING, parts) && o < |Exec(NOTHING, parts).counts|
    ensures
      var h := Exec(NOTHING, parts);
      && |h.used| == |h.counts| && h.counts[o] == Sum(h.spots, Refs(o))
      && Sum(h.deletions, Names(o)) + Sum(h.spots, Dooms(o)) ==
         if h.used[o] && Sum(h.spots, Refs(o)) == 0 then 1 else 0
  {
    RunLaw(NOTHING, parts);
    assert LawAt(Exec(NOTHING, parts), o);
  }

  /** An operation under way can always take its next part: what it drops is neither deleted nor about
      to be, and what it takes over is still lent to it. */
  lemma NeverStuck(parts: seq<Part>, p: nat)
    requires Valid(NOTHING, parts) && p < |Exec(NOTHING, parts).spots|
    ensures
      var h := Exec(NOTHING, parts);
      && (h.spots[p].Busy? ==> Enabled(h, Drop(p)))
      && (h.spots[p].Busy? && h.spots[p].target.To? ==>
            Sum(h.deletions, Names(h.spots[p].target.obj)) + Sum(h.spots, Dooms(h.spots[p].target.obj)) == 0)
      && (h.spots[p].Deleting? ==> Enabled(h, Delete(p)))
      && (h.spots[p].Storing? ==> Enabled(h, Store(p)))
  {
    var h := Exec(NOTHING, parts);
    RunLaw(NOTHING, parts);
    if h.spots[p].Busy? && h.spots[p].target.To? {
      var o := h.spots[p].target.obj;
      assert LawAt(h, o);
      PutSums(h.spots, p, h.spots[p], o);
    }
    if h.spots[p].Storing? && h.spots[p].next.From? { assert LinkedAt(h, p); }
  }

  // ---- What an operation comes to ----

  predicate UnderWay(x: Spot) { x.Busy? || x.Deleting? || x.Storing? }

  /** Until its store, nobody changes what an operation is to store, nor what it was lent. */
  lemma KeptStep(h: Shared, a: Part, p: nat)
    requires Enabled(h, a) && Linked(h) && p < |h.spots| && UnderWay(h.spots[p]) && a != Store(p)
    ensures
      var k := Apply(h, a);
      && p < |k.spots| && UnderWay(k.spots[p]) && NextOf(k.spots[p]) == NextOf(h.spots[p])
      && (NextOf(h.spots[p]).From? ==>
            var q := NextOf(h.spots[p]).q;
            q < |h.spots| && q < |k.spots| && k.spots[q] == h.spots[q])
  {
    if NextOf(h.spots[p]).From? {
      assert LinkedAt(h, p);
      if a.Store? && h.spots[a.p].next.From? { assert NextOf(h.spots[a.p]) != NextOf(h.spots[p]); }
    }
  }

  lemma {:induction false} KeptRun(h: Shared, parts: seq<Part>, p: nat)
    requires Valid(h, parts) && Linked(h) && p < |h.spots| && UnderWay(h.spots[p]) && Store(p) !in parts
    ensures
      var k := Exec(h, parts);
      && Linked(k) && p < |k.spots| && UnderWay(k.spots[p]) && NextOf(k.spots[p]) == NextOf(h.spots[p])
      && (NextOf(h.spots[p]).From? ==>
            var q := NextOf(h.spots[p]).q;
            q < |h.spots| && q < |k.spots| && k.spots[q] == h.spots[q])
    decreases |parts|
  {
    if parts != [] {
      assert parts[0] in parts;
      KeptStep(h, parts[0], p);
      LinkedStep(h, parts[0]);
      KeptRun(Apply(h, parts[0]), parts[1..], p);
    } else if NextOf(h.spots[p]).From? {
      assert LinkedAt(h, p);
    }
  }

  /** An operation begun is completed as it was begun, whatever the threads do in between: an assigned or
      reset pointer holds the target it gained, a move-assigned one what its source held, which is null
      after it, and a destroyed one is no more. */
  lemma Completed(h: Shared, a: Part, parts: seq<Part>)
    requires Linked(h) && Enabled(h, a) && (a.Gain? || a.GainRaw? || a.Lend? || a.Finish?)
    requires Valid(Apply(h, a), parts) && Store(a.p) !in parts && Enabled(Exec(Apply(h, a), parts), Store(a.p))
    ensures
      var k := Apply(Exec(Apply(h, a), parts), Store(a.p));
      match a
      case Gain(p, q) => p < |k.spots| && k.spots[p] == Rest(h.spots[q].target)
      case GainRaw(p, t) => p < |k.spots| && k.spots[p] == Rest(t)
      case Lend(p, q) =>
        p < |k.spots| && q < |k.spots| && k.spots[p] == Rest(h.spots[q].target) && k.spots[q] == Rest(Null)
      case Finish(p) => p < |k.spots| && k.spots[p] == Ended
      case _ => true
  {
    LinkedStep(h, a);
    KeptRun(Apply(h, a), parts, a.p);
  }
}
