/** Connection managers: each owns a connection and a releaser that keeps the pool alive. Wrapping,
    moving, assigning and destroying managers, with pointer operations of other holders in between. */
module Managers {
  import opened Tally
  import opened RefCounts
  import opened Wrappers

  /** The ticket stands for one hand-out of a connection; the releaser is the captured pointer. A dying
      manager has let its connection go and is about to destroy its releaser. */
  datatype Manager = Manager(ticket: Option<nat>, releaser: Option<nat>) | Dying(releaser: Option<nat>) | Gone

  /** The pool is object 0 of the heap. Returned tickets went through a releaser into its queue, lost
      ones were destroyed with their connection. */
  datatype State = State(heap: Heap, managers: seq<Manager>, next: nat, returned: seq<nat>, lost: seq<nat>)

  const POOL: nat := 0

  /** The pool exists, and its creator holds pointer 0 to it. */
  const STARTED := State(Apply(Apply(EMPTY, New), MakeFrom(POOL)), [], 0, [], [])

  datatype Step =
    | Wrap                        // acquire hands out a connection
    | MoveTo(m: nat)              // move construction
    | Assign(m: nat, k: nat)      // m = std::move(k)
    | Release(m: nat)             // destruction: the connection goes through the releaser
    | End(m: nat)                 // and after that the releaser is destroyed
    | Elsewhere(op: Op)           // an operation on pointers no manager holds

  /** The captured pointer of a manager, until it is destroyed. */
  function Hook(m: Manager): Option<nat> { if m.Gone? then None else m.releaser }

  predicate InUse(s: State, p: nat) {
    exists m | 0 <= m < |s.managers| :: Hook(s.managers[m]) == Some(p)
  }

  predicate Here(s: State, m: nat) { m < |s.managers| && s.managers[m].Manager? }

  /** The local pointer made from this, its copy into the releaser, and the local's end. */
  function Captured(h: Heap): seq<Op> { [MakeFrom(POOL), MakeCopy(|h.cells|), Destroy(|h.cells|)] }

  predicate CanStep(s: State, st: Step) {
    match st
    case Wrap => Valid(s.heap, Captured(s.heap))
    case MoveTo(m) => Here(s, m)
    case Assign(m, k) => Here(s, m) && Here(s, k) && Valid(s.heap, Drop(s.managers[m]))
    case Release(m) => Here(s, m)
    case End(m) => m < |s.managers| && s.managers[m].Dying? && Valid(s.heap, Drop(s.managers[m]))
    case Elsewhere(op) => Enabled(s.heap, op) && forall p <- Touches(op) :: !InUse(s, p)
  }

  /** Destroying a manager's releaser destroys the pointer it captured. */
  function Drop(m: Manager): seq<Op> {
    if Hook(m).Some? then [Destroy(Hook(m).value)] else []
  }

  function Ticket(m: Manager): seq<nat> { if m.Manager? && m.ticket.Some? then [m.ticket.value] else [] }

  function Do(s: State, st: Step): State
    requires CanStep(s, st)
  {
    match st
    case Wrap =>
      s.(heap := Exec(s.heap, Captured(s.heap)),
         managers := s.managers + [Manager(Some(s.next), Some(|s.heap.cells| + 1))], next := s.next + 1)
    case MoveTo(m) => s.(managers := s.managers[m := Manager(None, None)] + [s.managers[m]])
    case Assign(m, k) =>
      if m == k then s
      else s.(heap := Exec(s.heap, Drop(s.managers[m])), lost := s.lost + Ticket(s.managers[m]),
              managers := s.managers[m := s.managers[k]][k := Manager(None, None)])
    case Release(m) =>
      var x := s.managers[m];
      var next := s.(managers := s.managers[m := Dying(x.releaser)]);
      if x.releaser.Some? then next.(returned := s.returned + Ticket(x)) else next.(lost := s.lost + Ticket(x))
    case End(m) => s.(heap := Exec(s.heap, Drop(s.managers[m])), managers := s.managers[m := Gone])
    case Elsewhere(op) => s.(heap := Apply(s.heap, op))
  }

  predicate CanRun(s: State, steps: seq<Step>)
    decreases |steps|
  {
    steps == [] || (CanStep(s, steps[0]) && CanRun(Do(s, steps[0]), steps[1..]))
  }

  function Run(s: State, steps: seq<Step>): State
    requires CanRun(s, steps)
    decreases |steps|
  {
    if steps == [] then s else Run(Do(s, steps[0]), steps[1..])
  }

  // ---- Tickets ----

  function Carries(t: nat): Manager -> nat { (m: Manager) => if m.Manager? && m.ticket == Some(t) then 1 else 0 }

  function Places(s: State, t: nat): nat {
    Sum(s.managers, Carries(t)) + Sum(s.returned, Names(t)) + Sum(s.lost, Names(t))
  }

  ghost predicate Ticketed(s: State) {
    forall t: nat :: Places(s, t) == if t < s.next then 1 else 0
  }

  lemma {:induction false} SumConcat<T>(a: seq<T>, b: seq<T>, w: T -> nat)
    ensures Sum(a + b, w) == Sum(a, w) + Sum(b, w)
  {
    if a == [] {
      assert a + b == b;
    } else {
      assert (a + b)[1..] == a[1..] + b;
      SumConcat(a[1..], b, w);
    }
  }

  lemma TicketSum(m: Manager, t: nat)
    ensures Sum(Ticket(m), Names(t)) == Carries(t)(m)
  {
  }

  lemma PlacesStep(s: State, st: Step, t: nat)
    requires CanStep(s, st)
    ensures Places(Do(s, st), t) == Places(s, t) + if st == Wrap && t == s.next then 1 else 0
  {
    match st
    case Wrap => SumAppend(s.managers, Manager(Some(s.next), Some(|s.heap.cells| + 1)), Carries(t));
    case MoveTo(m) =>
      SumUpdate(s.managers, m, Manager(None, None), Carries(t));
      SumAppend(s.managers[m := Manager(None, None)], s.managers[m], Carries(t));
    case Assign(m, k) =>
      SumUpdate(s.managers, m, s.managers[k], Carries(t));
      SumUpdate(s.managers[m := s.managers[k]], k, Manager(None, None), Carries(t));
      SumConcat(s.lost, Ticket(s.managers[m]), Names(t));
      TicketSum(s.managers[m], t);
    case End(m) => SumUpdate(s.managers, m, Gone, Carries(t));
    case Release(m) =>
      SumUpdate(s.managers, m, Dying(s.managers[m].releaser), Carries(t));
      SumConcat(s.lost, Ticket(s.managers[m]), Names(t));
      SumConcat(s.returned, Ticket(s.managers[m]), Names(t));
      TicketSum(s.managers[m], t);
    case Elsewhere(_) =>
  }

  // ---- The pool's life ----

  /** A manager's releaser is a pointer to the pool, and one that has a connection has a releaser. */
  ghost predicate Anchored(s: State, m: nat)
    requires m < |s.managers|
  {
    var x := s.managers[m];
    && (x.Manager? && x.ticket.Some? ==> x.releaser.Some?)
    && (Hook(x).Some? ==> Hook(x).value < |s.heap.cells| && s.heap.cells[Hook(x).value] == Holds(To(POOL)))
  }

  /** No two managers share a releaser. */
  ghost predicate Apart(ms: seq<Manager>) {
    forall m, k | 0 <= m < k < |ms| :: Hook(ms[m]).Some? ==> Hook(ms[m]) != Hook(ms[k])
  }

  ghost predicate Inv(s: State) {
    && Ticketed(s)
    && Exact(s.heap) && NoneBeyond(s.heap) && Settled(s.heap, POOL)
    && (forall m | 0 <= m < |s.managers| :: Anchored(s, m))
    && Apart(s.managers)
  }

  lemma StartedInv()
    ensures Inv(STARTED)
  {
    ExactStep(EMPTY, New);
    ExactStep(Apply(EMPTY, New), MakeFrom(POOL));
  }

  lemma HeapRun(h: Heap, ops: seq<Op>)
    requires Valid(h, ops) && Exact(h) && NoneBeyond(h) && Settled(h, POOL)
    ensures Exact(Exec(h, ops)) && NoneBeyond(Exec(h, ops)) && Settled(Exec(h, ops), POOL)
  {
    RunExact(h, ops);
    RunSettled(h, ops, POOL);
  }

  lemma CapturedRun(h: Heap)
    requires Valid(h, Captured(h))
    ensures Exec(h, Captured(h)).cells == h.cells + [Destroyed, Holds(To(POOL))]
  {
    var n := |h.cells|;
    var ops := Captured(h);
    assert ops[1..] == [MakeCopy(n), Destroy(n)] && ops[1..][1..] == [Destroy(n)] && [Destroy(n)][1..] == [];
    var one := Apply(h, MakeFrom(POOL));
    var two := Apply(one, MakeCopy(n));
    assert one.cells == h.cells + [Holds(To(POOL))];
    assert two.cells == one.cells + [Holds(To(POOL))];
    assert Exec(h, ops) == Exec(one, [MakeCopy(n), Destroy(n)]);
    assert Exec(one, [MakeCopy(n), Destroy(n)]) == Exec(two, [Destroy(n)]);
    assert Exec(two, [Destroy(n)]) == Apply(two, Destroy(n));
  }

  lemma DropRun(h: Heap, m: Manager)
    requires Valid(h, Drop(m))
    ensures Exec(h, Drop(m)).cells ==
            if Hook(m).Some? then h.cells[Hook(m).value := Destroyed] else h.cells
  {
    if Hook(m).Some? { assert Drop(m)[1..] == []; }
  }

  lemma HeapStep(s: State, st: Step)
    requires Inv(s) && CanStep(s, st)
    ensures var h := Do(s, st).heap; Exact(h) && NoneBeyond(h) && Settled(h, POOL)
  {
    match st
    case Wrap => HeapRun(s.heap, Captured(s.heap));
    case MoveTo(_) =>
    case Assign(m, k) => if m != k { HeapRun(s.heap, Drop(s.managers[m])); }
    case Release(_) =>
    case End(m) => HeapRun(s.heap, Drop(s.managers[m]));
    case Elsewhere(op) =>
      ExactStep(s.heap, op);
      SettledStep(s.heap, op, POOL);
  }

  lemma WrapAnchored(s: State)
    requires Inv(s) && CanStep(s, Wrap)
    ensures var t := Do(s, Wrap); (forall m | 0 <= m < |t.managers| :: Anchored(t, m)) && Apart(t.managers)
  {
    var t := Do(s, Wrap);
    CapturedRun(s.heap);
    forall m | 0 <= m < |t.managers| ensures Anchored(t, m) {
      if m < |s.managers| { assert Anchored(s, m); }
    }
    forall m, k | 0 <= m < k < |t.managers| && Hook(t.managers[m]).Some?
      ensures Hook(t.managers[m]) != Hook(t.managers[k]) {
      assert Anchored(s, m);
    }
  }

  lemma MoveAnchored(s: State, m: nat)
    requires Inv(s) && CanStep(s, MoveTo(m))
    ensures var t := Do(s, MoveTo(m)); (forall k | 0 <= k < |t.managers| :: Anchored(t, k)) && Apart(t.managers)
  {
    var t := Do(s, MoveTo(m));
    forall k | 0 <= k < |t.managers| ensures Anchored(t, k) {
      assert Anchored(s, if k < |s.managers| then k else m);
    }
  }

  lemma AssignAnchored(s: State, m: nat, k: nat)
    requires Inv(s) && CanStep(s, Assign(m, k)) && m != k
    ensures var t := Do(s, Assign(m, k)); (forall j | 0 <= j < |t.managers| :: Anchored(t, j)) && Apart(t.managers)
  {
    var t := Do(s, Assign(m, k));
    DropRun(s.heap, s.managers[m]);
    forall j | 0 <= j < |t.managers| ensures Anchored(t, j) {
      assert Anchored(s, j) && Anchored(s, k) && Anchored(s, m);
      assert j != m ==> Hook(s.managers[m]).Some? ==> Hook(s.managers[m]) != Hook(s.managers[j]);
    }
  }

  lemma ReleaseAnchored(s: State, m: nat)
    requires Inv(s) && CanStep(s, Release(m))
    ensures var t := Do(s, Release(m)); (forall j | 0 <= j < |t.managers| :: Anchored(t, j)) && Apart(t.managers)
  {
    var t := Do(s, Release(m));
    forall j | 0 <= j < |t.managers| ensures Anchored(t, j) { assert Anchored(s, j); }
  }

  lemma EndAnchored(s: State, m: nat)
    requires Inv(s) && CanStep(s, End(m))
    ensures var t := Do(s, End(m)); (forall j | 0 <= j < |t.managers| :: Anchored(t, j)) && Apart(t.managers)
  {
    var t := Do(s, End(m));
    DropRun(s.heap, s.managers[m]);
    forall j | 0 <= j < |t.managers| ensures Anchored(t, j) {
      assert Anchored(s, j) && Anchored(s, m);
      assert j != m ==> Hook(s.managers[m]).Some? ==> Hook(s.managers[m]) != Hook(s.managers[j]);
    }
  }

  lemma ElsewhereAnchored(s: State, op: Op)
    requires Inv(s) && CanStep(s, Elsewhere(op))
    ensures var t := Do(s, Elsewhere(op)); forall j | 0 <= j < |t.managers| :: Anchored(t, j)
  {
    var t := Do(s, Elsewhere(op));
    forall j | 0 <= j < |t.managers| ensures Anchored(t, j) {
      assert Anchored(s, j);
      if Hook(s.managers[j]).Some? { CellKept(s.heap, op, Hook(s.managers[j]).value); }
    }
  }

  lemma InvStep(s: State, st: Step)
    requires Inv(s) && CanStep(s, st)
    ensures Inv(Do(s, st))
  {
    HeapStep(s, st);
    forall t: nat ensures Places(Do(s, st), t) == if t < Do(s, st).next then 1 else 0 { PlacesStep(s, st, t); }
    match st
    case Wrap => WrapAnchored(s);
    case MoveTo(m) => MoveAnchored(s, m);
    case Assign(m, k) => if m != k { AssignAnchored(s, m, k); }
    case Release(m) => ReleaseAnchored(s, m);
    case End(m) => EndAnchored(s, m);
    case Elsewhere(op) => ElsewhereAnchored(s, op);
  }

  lemma {:induction false} RunInv(s: State, steps: seq<Step>)
    requires Inv(s) && CanRun(s, steps)
    ensures Inv(Run(s, steps))
    decreases |steps|
  {
    if steps != [] {
      InvStep(s, steps[0]);
      RunInv(Do(s, steps[0]), steps[1..]);
    }
  }

  /** Through any chain of moves and assignments each hand-out is in one manager, or was returned
      once, or was lost once: a connection is never released twice. */
  lemma ReleasedOnce(steps: seq<Step>, t: nat)
    requires CanRun(STARTED, steps)
    ensures
      var s := Run(STARTED, steps);
      Sum(s.managers, Carries(t)) + Sum(s.returned, Names(t)) + Sum(s.lost, Names(t)) == if t < s.next then 1 else 0
  {
    StartedInv();
    RunInv(STARTED, steps);
    assert Places(Run(STARTED, steps), t) == if t < Run(STARTED, steps).next then 1 else 0;
  }

  /** The pool is deleted exactly when no pointer to it is left, and once. It exists while a manager
      has a releaser, and until the releaser of a dying manager is destroyed; so a connection that is
      let go finds its pool, and the pool is still there when it has been put back. */
  lemma PoolOutlivesManagers(steps: seq<Step>, m: nat)
    requires CanRun(STARTED, steps)
    ensures
      var s := Run(STARTED, steps);
      && |s.heap.deleted| > POOL
      && (s.heap.deleted[POOL] <==> Pointers(s.heap, POOL) == 0)
      && Sum(s.heap.deletions, Names(POOL)) <= 1
      && (m < |s.managers| && Hook(s.managers[m]).Some? ==> !s.heap.deleted[POOL])
      && (m < |s.managers| && s.managers[m].Dying? ==> CanStep(s, End(m)))
      && (Here(s, m) && s.managers[m].ticket.Some? ==> PutBackAlive(s, m))
  {
    var s := Run(STARTED, steps);
    StartedInv();
    RunInv(STARTED, steps);
    assert ExactAt(s.heap, POOL);
    if m < |s.managers| && Hook(s.managers[m]).Some? { HookedPool(s, m); }
    if Here(s, m) { assert Anchored(s, m); }
  }

  lemma HookedPool(s: State, m: nat)
    requires Inv(s) && m < |s.managers| && Hook(s.managers[m]).Some?
    ensures POOL < |s.heap.deleted| && !s.heap.deleted[POOL] && Valid(s.heap, Drop(s.managers[m]))
  {
    assert ExactAt(s.heap, POOL) && Anchored(s, m);
    assert Drop(s.managers[m])[1..] == [];
    SumAtLeast(s.heap.cells, Hook(s.managers[m]).value, At(POOL));
  }

  /** Letting the manager's connection go puts it back into a pool that exists before and after, and
      the manager can then end. */
  ghost predicate PutBackAlive(s: State, m: nat)
    requires Here(s, m) && s.managers[m].ticket.Some?
  {
    var t := Do(s, Release(m));
    && t.returned == s.returned + [s.managers[m].ticket.value]
    && POOL < |s.heap.deleted| && !s.heap.deleted[POOL] && t.heap == s.heap
    && Hook(t.managers[m]).Some? && CanStep(t, End(m))
  }

  /** Only assigning over a manager that still has a connection loses one; destroying a manager
      returns its connection to the pool. */
  lemma LostIffOverwritten(steps: seq<Step>, st: Step)
    requires CanRun(STARTED, steps) && CanStep(Run(STARTED, steps), st)
    ensures
      var s := Run(STARTED, steps);
      && (Do(s, st).lost != s.lost <==> st.Assign? && st.m != st.k && s.managers[st.m].ticket.Some?)
      && (Do(s, st).returned != s.returned <==> st.Release? && s.managers[st.m].ticket.Some?)
  {
    var s := Run(STARTED, steps);
    StartedInv();
    RunInv(STARTED, steps);
    if st.Release? { assert Anchored(s, st.m); }
    if st.Assign? || st.Release? {
      var x := Ticket(s.managers[st.m]);
      assert |s.lost + x| == |s.lost| + |x| && |s.returned + x| == |s.returned| + |x|;
      assert x == [] ==> s.lost + x == s.lost && s.returned + x == s.returned;
    }
  }
}
