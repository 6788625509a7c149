/** Intrusive reference counts: objects that carry their count, and the pointers to them. */
module RefCounts {
  import opened Tally

  datatype Target = Null | To(obj: nat)

  datatype Cell = Destroyed | Holds(target: Target)

  /** Object i's count and whether it was deleted, every deletion in order, and every pointer ever made. */
  datatype Heap = Heap(counts: seq<int>, deleted: seq<bool>, deletions: seq<nat>, cells: seq<Cell>)

  const EMPTY := Heap([], [], [], [])

  /** The counter is 32 bits wide. */
  const LIMIT: int := 0x1_0000_0000

  datatype Op =
    | New                            // a new object, with no pointer to it yet
    | MakeNull
    | MakeFrom(obj: nat)             // from a raw pointer, or from this
    | MakeCopy(q: nat)
    | MakeMove(q: nat)
    | AssignCopy(p: nat, q: nat)
    | AssignMove(p: nat, q: nat)
    | Reset(p: nat, to: Target)
    | Destroy(p: nat)

  predicate Good(h: Heap, p: nat) { p < |h.cells| && h.cells[p].Holds? }

  /** A raw pointer handed in must name an object that still exists and has room for one count more. */
  predicate Live(h: Heap, t: Target) {
    t.To? ==> t.obj < |h.counts| == |h.deleted| && !h.deleted[t.obj] && h.counts[t.obj] < LIMIT - 1
  }

  predicate Sized(h: Heap) {
    |h.counts| == |h.deleted| && forall p | 0 <= p < |h.cells| && h.cells[p].Holds? && h.cells[p].target.To? ::
      h.cells[p].target.obj < |h.counts|
  }

  predicate Enabled(h: Heap, op: Op) {
    && Sized(h)
    && match op
       case New => true
       case MakeNull => true
       case MakeFrom(o) => Live(h, To(o))
       case MakeCopy(q) => Good(h, q) && Live(h, h.cells[q].target)
       case MakeMove(q) => Good(h, q)
       case AssignCopy(p, q) => Good(h, p) && Good(h, q) && Live(h, h.cells[q].target)
       case AssignMove(p, q) => Good(h, p) && Good(h, q)
       case Reset(p, t) => Good(h, p) && Live(h, t)
       case Destroy(p) => Good(h, p)
  }

  function Increment(h: Heap, t: Target): Heap
    requires t.To? ==> t.obj < |h.counts|
  {
    if t == Null then h else h.(counts := h.counts[t.obj := h.counts[t.obj] + 1])
  }

  /** The pointer that takes the count from one to zero deletes the object. */
  function Decrement(h: Heap, t: Target): Heap
    requires t.To? ==> t.obj < |h.counts| == |h.deleted|
  {
    if t == Null then h
    else
      var lower := h.(counts := h.counts[t.obj := h.counts[t.obj] - 1]);
      if h.counts[t.obj] == 1
      then lower.(deleted := h.deleted[t.obj := true], deletions := h.deletions + [t.obj]) else lower
  }

  function Point(h: Heap, p: nat, t: Target): Heap
    requires p < |h.cells|
  {
    h.(cells := h.cells[p := Holds(t)])
  }

  function Apply(h: Heap, op: Op): Heap
    requires Enabled(h, op)
  {
    match op
    case New => h.(counts := h.counts + [0], deleted := h.deleted + [false])
    case MakeNull => h.(cells := h.cells + [Holds(Null)])
    case MakeFrom(o) => Increment(h.(cells := h.cells + [Holds(To(o))]), To(o))
    case MakeCopy(q) => var t := h.cells[q].target; Increment(h.(cells := h.cells + [Holds(t)]), t)
    case MakeMove(q) => h.(cells := h.cells[q := Holds(Null)] + [Holds(h.cells[q].target)])
    case AssignCopy(p, q) =>
      if p == q then h
      else var t := h.cells[q].target; Point(Decrement(Increment(h, t), h.cells[p].target), p, t)
    case AssignMove(p, q) =>
      if p == q then h
      else Point(Point(Decrement(h, h.cells[p].target), p, h.cells[q].target), q, Null)
    case Reset(p, t) => Point(Decrement(Increment(h, t), h.cells[p].target), p, t)
    case Destroy(p) =>
      var lower := Decrement(h, h.cells[p].target);
      lower.(cells := h.cells[p := Destroyed])
  }

  function At(o: nat): Cell -> nat { (c: Cell) => if c == Holds(To(o)) then 1 else 0 }

  function Names(o: nat): nat -> nat { (x: nat) => if x == o then 1 else 0 }

  /** The pointers to an object. */
  function Pointers(h: Heap, o: nat): nat { Sum(h.cells, At(o)) }

  /** Each object's count is the number of pointers to it; it is deleted at most once, and then
      nothing points to it. */
  ghost predicate Exact(h: Heap) {
    Sized(h) && forall o | 0 <= o < |h.counts| :: ExactAt(h, o)
  }

  ghost predicate ExactAt(h: Heap, o: nat)
    requires o < |h.counts| == |h.deleted|
  {
    && h.counts[o] == Pointers(h, o) < LIMIT
    && Sum(h.deletions, Names(o)) == (if h.deleted[o] then 1 else 0)
    && (h.deleted[o] ==> h.counts[o] == 0)
  }

  /** No name of an object not made yet occurs anywhere. */
  ghost predicate NoneBeyond(h: Heap) {
    forall o: nat | o >= |h.counts| :: Pointers(h, o) == 0 && Sum(h.deletions, Names(o)) == 0
  }

  lemma PointerStep(h: Heap, op: Op, o: nat)
    requires Enabled(h, op)
    ensures
      var k := Apply(h, op);
      Pointers(k, o) ==
        match op
        case MakeFrom(x) => Pointers(h, o) + Names(o)(x)
        case MakeCopy(q) => Pointers(h, o) + At(o)(h.cells[q])
        case AssignCopy(p, q) => Pointers(h, o) - At(o)(h.cells[p]) + At(o)(h.cells[q])
        case AssignMove(p, q) => if p == q then Pointers(h, o) else Pointers(h, o) - At(o)(h.cells[p])
        case Reset(p, t) => Pointers(h, o) - At(o)(h.cells[p]) + At(o)(Holds(t))
        case Destroy(p) => Pointers(h, o) - At(o)(h.cells[p])
        case _ => Pointers(h, o)
  {
    hide Sum;
    match op
    case New =>
    case MakeNull => SumAppend(h.cells, Holds(Null), At(o));
    case MakeFrom(x) => SumAppend(h.cells, Holds(To(x)), At(o));
    case MakeCopy(q) => SumAppend(h.cells, Holds(h.cells[q].target), At(o));
    case MakeMove(q) =>
      SumUpdate(h.cells, q, Holds(Null), At(o));
      SumAppend(h.cells[q := Holds(Null)], Holds(h.cells[q].target), At(o));
    case AssignCopy(p, q) => SumUpdate(h.cells, p, h.cells[q], At(o));
    case AssignMove(p, q) =>
      SumUpdate(h.cells, p, h.cells[q], At(o));
      SumUpdate(h.cells[p := h.cells[q]], q, Holds(Null), At(o));
    case Reset(p, t) => SumUpdate(h.cells, p, Holds(t), At(o));
    case Destroy(p) => SumUpdate(h.cells, p, Destroyed, At(o));
  }

  /** The target a step takes a pointer away from. */
  function Dropped(h: Heap, op: Op): Target
    requires Enabled(h, op)
  {
    match op
    case AssignCopy(p, q) => if p == q then Null else h.cells[p].target
    case AssignMove(p, q) => if p == q then Null else h.cells[p].target
    case Reset(p, _) => h.cells[p].target
    case Destroy(p) => h.cells[p].target
    case _ => Null
  }

  function Gained(h: Heap, op: Op): Target
    requires Enabled(h, op)
  {
    match op
    case MakeFrom(x) => To(x)
    case MakeCopy(q) => h.cells[q].target
    case AssignCopy(p, q) => if p == q then Null else h.cells[q].target
    case Reset(_, t) => t
    case _ => Null
  }

  /** The counts and deletions after a step: the gained target first, then the dropped one. */
  lemma CountStep(h: Heap, op: Op)
    requires Enabled(h, op) && op != New
    ensures
      var k, mid := Apply(h, op), Increment(h, Gained(h, op));
      var last := Decrement(mid, Dropped(h, op));
      k.counts == last.counts && k.deleted == last.deleted && k.deletions == last.deletions
  {
  }

  lemma ExactAtStep(h: Heap, op: Op, o: nat)
    requires Enabled(h, op) && op != New && o < |h.counts| && ExactAt(h, o)
    ensures |Apply(h, op).counts| == |Apply(h, op).deleted| == |h.counts| && ExactAt(Apply(h, op), o)
  {
    var g, d := Gained(h, op), Dropped(h, op);
    var mid := Increment(h, g);
    CountStep(h, op);
    DeletionsAt(mid, d, o);
    if d == To(o) { DroppedCounts(h, op, o); }
    PointersStep(h, op, o);
  }

  /** The change of the number of pointers, by what the step gains and drops. */
  lemma PointersStep(h: Heap, op: Op, o: nat)
    requires Enabled(h, op)
    ensures Pointers(Apply(h, op), o) ==
            Pointers(h, o) + (if Gained(h, op) == To(o) then 1 else 0) - (if Dropped(h, op) == To(o) then 1 else 0)
  {
    PointerStep(h, op, o);
  }

  lemma DeletionsAt(mid: Heap, d: Target, o: nat)
    requires d.To? ==> d.obj < |mid.counts| == |mid.deleted|
    requires o < |mid.counts| == |mid.deleted|
    ensures
      var last := Decrement(mid, d);
      var deletes := d == To(o) && mid.counts[o] == 1;
      && |last.counts| == |last.deleted| == |mid.counts|
      && last.deleted[o] == (mid.deleted[o] || deletes)
      && Sum(last.deletions, Names(o)) == Sum(mid.deletions, Names(o)) + if deletes then 1 else 0
  {
    if d.To? { SumAppend(mid.deletions, d.obj, Names(o)); }
  }

  /** A pointer about to be dropped is one of those counted. */
  lemma DroppedCounts(h: Heap, op: Op, o: nat)
    requires Enabled(h, op) && Dropped(h, op) == To(o)
    ensures Pointers(h, o) >= 1
  {
    SumAtLeast(h.cells, op.p, At(o));
  }

  lemma SizedStep(h: Heap, op: Op)
    requires Enabled(h, op)
    ensures Sized(Apply(h, op))
  {
  }

  lemma ExactStep(h: Heap, op: Op)
    requires Enabled(h, op) && Exact(h) && NoneBeyond(h)
    ensures Exact(Apply(h, op)) && NoneBeyond(Apply(h, op))
  {
    var k := Apply(h, op);
    SizedStep(h, op);
    if op == New {
      forall o | 0 <= o < |k.counts| ensures ExactAt(k, o) {
        assert k.cells == h.cells && Pointers(k, o) == Pointers(h, o);
        if o < |h.counts| { assert ExactAt(h, o); }
      }
    } else {
      CountStep(h, op);
      forall o | 0 <= o < |h.counts| ensures ExactAt(k, o) {
        assert ExactAt(h, o);
        ExactAtStep(h, op, o);
      }
    }
    forall o: nat | o >= |k.counts| ensures Pointers(k, o) == 0 && Sum(k.deletions, Names(o)) == 0 {
      assert Pointers(h, o) == 0;
      BeyondStep(h, op, o);
    }
  }

  lemma BeyondStep(h: Heap, op: Op, o: nat)
    requires Enabled(h, op) && o >= |Apply(h, op).counts|
    requires Pointers(h, o) == 0 && Sum(h.deletions, Names(o)) == 0
    ensures Pointers(Apply(h, op), o) == 0 && Sum(Apply(h, op).deletions, Names(o)) == 0
  {
    PointerStep(h, op, o);
    if op != New {
      CountStep(h, op);
      if Dropped(h, op).To? { SumAppend(h.deletions, Dropped(h, op).obj, Names(o)); }
    }
  }

  predicate Valid(h: Heap, ops: seq<Op>)
    decreases |ops|
  {
    ops == [] || (Enabled(h, ops[0]) && Valid(Apply(h, ops[0]), ops[1..]))
  }

  function Exec(h: Heap, ops: seq<Op>): Heap
    requires Valid(h, ops)
    decreases |ops|
  {
    if ops == [] then h else Exec(Apply(h, ops[0]), ops[1..])
  }

  lemma {:induction false} RunExact(h: Heap, ops: seq<Op>)
    requires Valid(h, ops) && Exact(h) && NoneBeyond(h)
    ensures Exact(Exec(h, ops)) && NoneBeyond(Exec(h, ops))
    decreases |ops|
  {
    if ops != [] {
      ExactStep(h, ops[0]);
      RunExact(Apply(h, ops[0]), ops[1..]);
    }
  }

  /** After any sequence of pointer operations, aliasing ones included: each count is the number of
      pointers to its object, and a deleted object was deleted once and has none left. */
  lemma CountsExact(ops: seq<Op>, o: nat)
    requires Valid(EMPTY, ops) && o < |Exec(EMPTY, ops).counts|
    ensures
      var h := Exec(EMPTY, ops);
      && |h.counts| == |h.deleted| && h.counts[o] == Pointers(h, o)
      && Sum(h.deletions, Names(o)) == (if h.deleted[o] then 1 else 0)
      && (h.deleted[o] ==> Pointers(h, o) == 0)
  {
    RunExact(EMPTY, ops);
    assert ExactAt(Exec(EMPTY, ops), o);
  }

  /** An operation deletes an object exactly when it drops the last pointer to it. */
  lemma DeletedIffLastDropped(h: Heap, op: Op, o: nat)
    requires Enabled(h, op) && Exact(h) && NoneBeyond(h) && o < |h.counts| && !h.deleted[o]
    ensures o < |Apply(h, op).deleted|
    ensures Apply(h, op).deleted[o] <==> Pointers(h, o) > 0 && Pointers(Apply(h, op), o) == 0
  {
    ExactStep(h, op);
    assert ExactAt(h, o);
    PointerStep(h, op, o);
    if op != New {
      CountStep(h, op);
      if Dropped(h, op) == To(o) { DroppedCounts(h, op, o); }
    }
  }

  /** What a step does not name it does not change, and the deleted stay deleted. */
  lemma CellKept(h: Heap, op: Op, p: nat)
    requires Enabled(h, op) && p < |h.cells| && p !in Touches(op)
    ensures p < |Apply(h, op).cells| && Apply(h, op).cells[p] == h.cells[p]
  {
  }

  function Touches(op: Op): set<nat> {
    match op
    case MakeMove(q) => {q}
    case AssignCopy(p, _) => {p}
    case AssignMove(p, q) => {p, q}
    case Reset(p, _) => {p}
    case Destroy(p) => {p}
    case _ => {}
  }

  /** An object somebody once pointed to is deleted as soon as nobody does, and not before. */
  ghost predicate Settled(h: Heap, o: nat) {
    o < |h.counts| == |h.deleted| && (h.deleted[o] <==> h.counts[o] == 0)
  }

  lemma SettledStep(h: Heap, op: Op, o: nat)
    requires Enabled(h, op) && Exact(h) && NoneBeyond(h) && Settled(h, o)
    ensures Settled(Apply(h, op), o)
  {
    ExactStep(h, op);
    assert ExactAt(h, o);
    if op == New { return; }
    assert ExactAt(Apply(h, op), o);
    if h.deleted[o] {
      CountStep(h, op);
    } else {
      DeletedIffLastDropped(h, op, o);
    }
  }

  lemma {:induction false} RunSettled(h: Heap, ops: seq<Op>, o: nat)
    requires Valid(h, ops) && Exact(h) && NoneBeyond(h) && Settled(h, o)
    ensures Settled(Exec(h, ops), o)
    decreases |ops|
  {
    if ops != [] {
      SettledStep(h, ops[0], o);
      ExactStep(h, ops[0]);
      RunSettled(Apply(h, ops[0]), ops[1..], o);
    }
  }
}
