/** What holds after any run of the pool, and exactly when the pool keeps to its size. */
module PoolRuns {
  import opened Sequences
  import opened Tally
  import opened PoolProtocol

  ghost predicate Inv(s: State) {
    PermitLaw(s) && Awake(s) && Owned(s) && Bounded(s)
  }

  lemma InitialInv(c: Config)
    ensures Inv(Initial(c))
  {
    var s := Initial(c);
    SumZero(s.fillers, FillPermit);
    SumZero(s.fillers, Carrying);
    forall x ensures Places(s, x) == 0 { SumZero(s.fillers, Carries(x)); }
  }

  lemma {:induction false} RunInv(s: State, acts: seq<Action>)
    requires Inv(s) && Valid(s, acts)
    ensures Inv(Exec(s, acts))
    decreases |acts|
  {
    if acts != [] {
      PermitStep(s, acts[0]);
      AwakeStep(s, acts[0]);
      OwnedStep(s, acts[0]);
      BoundedStep(s, acts[0]);
      RunInv(Apply(s, acts[0]), acts[1..]);
    }
  }

  /** After every run: permits are accounted for, each live connection is in one place, and
      connections never outnumber peak demand plus warm-up. */
  lemma EveryRun(c: Config, acts: seq<Action>)
    requires Valid(Initial(c), acts)
    ensures
      var s := Exec(Initial(c), acts);
      && PermitLaw(s)
      && (forall x :: Places(s, x) == if x in s.book.live then 1 else 0)
      && |s.book.live| + Sum(s.clients, Making) <= s.book.peak + s.book.warmed
  {
    InitialInv(c);
    RunInv(Initial(c), acts);
  }

  /** No session is inside a step: each waits for a permit, holds a connection or has left. */
  predicate Quiescent(s: State) {
    && (forall x <- s.clients :: x.Waiting? || x.Holding? || x.Left?)
    && (forall f <- s.fillers :: f.Done?)
  }

  /** At rest, a queued connection is never out of reach of a session that waits for a permit. */
  lemma NoLostWakeup(c: Config, acts: seq<Action>, i: nat)
    requires Valid(Initial(c), acts)
    requires
      var s := Exec(Initial(c), acts);
      Quiescent(s) && s.queue != [] && i < |s.clients| && s.clients[i] == Waiting
    ensures
      var s := Exec(Initial(c), acts);
      Enabled(s, TakePermit(i)) && Apply(Apply(s, TakePermit(i)), Recheck(i)).clients[i] == Owing(s.queue[0])
  {
    var s := Exec(Initial(c), acts);
    InitialInv(c);
    RunInv(Initial(c), acts);
    SumZero(s.clients, Waking);
    SumZero(s.fillers, FillPermit);
  }

  function Max(a: nat, b: nat): nat { if a > b then a else b }

  /** A pool without warm-up threads keeps the permits and the thread set it was built with. */
  lemma {:induction false} LazyRun(s: State, acts: seq<Action>)
    requires Valid(s, acts) && s.fillers == []
    ensures
      var t := Exec(s, acts);
      t.fillers == [] && t.config == s.config && t.book.granted == s.book.granted && t.book.warmed == s.book.warmed
    decreases |acts|
  {
    if acts != [] {
      var t := Apply(s, acts[0]);
      OneMoves(s, acts[0]);
      assert t.fillers == [] && t.book.granted == s.book.granted && t.book.warmed == s.book.warmed;
      LazyRun(t, acts[1..]);
    }
  }

  /** Acquire never creates more than was granted plus what came back; so a lazy pool creates at
      most max(init, max) connections before the first one is returned. */
  lemma CreationBound(c: Config, acts: seq<Action>)
    requires Valid(Initial(c), acts)
    ensures
      var s := Exec(Initial(c), acts);
      && s.book.created + Sum(s.clients, Making) <= s.book.granted + s.book.returned
      && (!Warms(c) && s.book.returned == 0 ==> s.book.created + Sum(s.clients, Making) <= Max(c.initSize, c.maxSize))
  {
    var s := Exec(Initial(c), acts);
    InitialInv(c);
    RunInv(Initial(c), acts);
    SumAtMost(s.clients, Making, Permit);
    if !Warms(c) { LazyRun(Initial(c), acts); }
  }

  // ---- How a pool starts ----

  lemma {:induction false} ReadyStays(s: State, acts: seq<Action>)
    requires Valid(s, acts)
    ensures |Exec(s, acts).fillers| == |s.fillers| && (s.ready ==> Exec(s, acts).ready)
    decreases |acts|
  {
    if acts != [] {
      OneMoves(s, acts[0]);
      ReadyStays(Apply(s, acts[0]), acts[1..]);
    }
  }

  /** Only an eager pool whose sizes are in order warms up: it is not ready at first, has a filler for
      each initial connection and a permit for each of them. Any other pool is ready in every run,
      never makes a connection by itself and has the larger of its sizes in permits from the start. */
  lemma WarmsUpIff(c: Config, acts: seq<Action>)
    requires Valid(Initial(c), acts)
    ensures
      var first, s := Initial(c), Exec(Initial(c), acts);
      if c.eager && 0 < c.initSize <= c.maxSize
      then !first.ready && first.permits == c.initSize && |s.fillers| == c.initSize
           && forall f <- first.fillers :: f == Starting
      else s.ready && s.fillers == [] && s.book.warmed == 0 && first.permits == Max(c.initSize, c.maxSize)
  {
    ReadyStays(Initial(c), acts);
    if !Warms(c) { LazyRun(Initial(c), acts); }
  }

  // ---- The order of the queue ----

  /** What a step puts into the queue, and what its session gets out of it. */
  function PutIn(s: State, a: Action): seq<Conn>
    requires Enabled(s, a)
  {
    match a
    case GiveBack(i) => [s.clients[i].conn]
    case Push(f) => [s.fillers[f].conn]
    case _ => []
  }

  function Got(x: Client): seq<Conn> { if x.Owing? || x.Holding? then [x.conn] else [] }

  function TakenOut(s: State, a: Action): seq<Conn>
    requires Enabled(s, a)
  {
    match a
    case Look(i) => Got(Apply(s, a).clients[i])
    case Recheck(i) => Got(Apply(s, a).clients[i])
    case _ => []
  }

  function Pushed(s: State, acts: seq<Action>): seq<Conn>
    requires Valid(s, acts)
    decreases |acts|
  {
    if acts == [] then [] else PutIn(s, acts[0]) + Pushed(Apply(s, acts[0]), acts[1..])
  }

  function Taken(s: State, acts: seq<Action>): seq<Conn>
    requires Valid(s, acts)
    decreases |acts|
  {
    if acts == [] then [] else TakenOut(s, acts[0]) + Taken(Apply(s, acts[0]), acts[1..])
  }

  lemma QueueMoves(s: State, a: Action)
    requires Enabled(s, a)
    ensures s.queue + PutIn(s, a) == TakenOut(s, a) + Apply(s, a).queue
  {
    if (a.Look? || a.Recheck?) && s.queue != [] {
      assert s.queue == [s.queue[0]] + s.queue[1..];
    }
  }

  /** The queue is first in, first out: what was put in is what was got out and then what is still in. */
  lemma {:induction false} FirstInFirstOut(s: State, acts: seq<Action>)
    requires Valid(s, acts)
    ensures s.queue + Pushed(s, acts) == Taken(s, acts) + Exec(s, acts).queue
    decreases |acts|
  {
    hide PutIn, TakenOut, Apply, Enabled;
    if acts != [] {
      var a, t, rest := acts[0], Apply(s, acts[0]), acts[1..];
      FirstInFirstOut(t, rest);
      QueueMoves(s, a);
      Regroup(s.queue, PutIn(s, a), Pushed(t, rest), TakenOut(s, a), t.queue, Taken(t, rest), Exec(t, rest).queue);
    }
  }

  // ---- Runs that outgrow the pool ----

  function DemandOf(s: State): nat { Sum(s.clients, Demand) }

  function Holder(c: Client): nat { if c.Holding? then 1 else 0 }

  /** Sessions that hold a connection; by the ownership law each holds one of its own. */
  function Holders(s: State): nat { Sum(s.clients, Holder) }

  /** The schedule acts leads from s to t. */
  ghost predicate Leads(s: State, acts: seq<Action>, t: State) {
    Valid(s, acts) && Exec(s, acts) == t
  }

  lemma Stay(s: State)
    ensures Leads(s, [], s)
  {
  }

  lemma One(s: State, a: Action)
    requires Enabled(s, a)
    ensures Leads(s, [a], Apply(s, a))
  {
    assert [a][1..] == [];
  }

  lemma Then(s: State, a: seq<Action>, t: State, b: seq<Action>, u: State)
    requires Leads(s, a, t) && Leads(t, b, u)
    ensures Leads(s, a + b, u)
  {
    ExecAppend(s, a, b);
  }

  lemma Two(s: State, a: Action, b: Action)
    requires Enabled(s, a) && Enabled(Apply(s, a), b)
    ensures Leads(s, [a] + [b], Apply(Apply(s, a), b))
  {
    One(s, a);
    One(Apply(s, a), b);
    Then(s, [a], Apply(s, a), [b], Apply(Apply(s, a), b));
  }

  /** A session enters. */
  lemma Enter(s: State)
    ensures
      var t := Apply(s, Arrive);
      && t.clients == s.clients + [Looking]
      && DemandOf(t) == DemandOf(s) + 1 && t.book.peak == Max(s.book.peak, DemandOf(s) + 1)
      && t.queue == s.queue && t.permits == s.permits && t.book.live == s.book.live
  {
    SumAppend(s.clients, Looking, Demand);
  }

  /** A session comes, takes the only idle connection by the fast path and brings it back:
      the pool has a permit more than before. */
  lemma FastRound(s: State) returns (acts: seq<Action>, t: State)
    requires |s.queue| == 1
    ensures Leads(s, acts, t)
    ensures t.queue == s.queue && t.permits == s.permits + 1 && t.book.live == s.book.live && t.fillers == s.fillers
    ensures DemandOf(t) == DemandOf(s) && t.book.peak == Max(s.book.peak, DemandOf(s) + 1) && Holders(t) == Holders(s)
  {
    hide Sum, Leads;
    var n := |s.clients|;
    Enter(s);
    var mid := Apply(Apply(s, Arrive), Look(n));
    Two(s, Arrive, Look(n));
    t := Apply(Apply(mid, GiveBack(n)), ReleasePermit(n));
    Two(mid, GiveBack(n), ReleasePermit(n));
    acts := ([Arrive] + [Look(n)]) + ([GiveBack(n)] + [ReleasePermit(n)]);
    Then(s, [Arrive] + [Look(n)], mid, [GiveBack(n)] + [ReleasePermit(n)], t);
    assert t.clients == s.clients + [Left];
    SumAppend(s.clients, Left, Demand);
    SumAppend(s.clients, Left, Holder);
    assert t.queue == s.queue;
  }

  lemma {:induction false} FastRounds(s: State, k: nat) returns (acts: seq<Action>, t: State)
    requires |s.queue| == 1
    ensures Leads(s, acts, t)
    ensures t.queue == s.queue && t.permits == s.permits + k && t.book.live == s.book.live && t.fillers == s.fillers
    ensures DemandOf(t) == DemandOf(s) && t.book.peak <= Max(s.book.peak, DemandOf(s) + 1) && Holders(t) == Holders(s)
    decreases k
  {
    acts, t := [], s;
    if k > 0 {
      var first, mid := FastRound(s);
      var rest;
      rest, t := FastRounds(mid, k - 1);
      Then(s, first, mid, rest, t);
      acts := first + rest;
    }
  }

  /** A session comes to an empty queue and creates a connection, which it keeps. */
  lemma SlowRound(s: State) returns (acts: seq<Action>, t: State)
    requires s.queue == [] && s.permits > 0
    ensures Leads(s, acts, t)
    ensures t.clients == s.clients + [Holding(s.book.next)] && t.fillers == s.fillers
    ensures t.queue == [] && t.permits == s.permits - 1 && t.book.live == s.book.live + {s.book.next}
    ensures DemandOf(t) == DemandOf(s) + 1 && t.book.peak == Max(s.book.peak, DemandOf(s) + 1)
    ensures Holders(t) == Holders(s) + 1
    ensures forall a <- acts :: !Who(a).WarmUp?
  {
    hide Sum, Leads;
    var n := |s.clients|;
    Enter(s);
    var looked := Apply(Apply(s, Arrive), Look(n));
    Two(s, Arrive, Look(n));
    var decided := Apply(Apply(looked, TakePermit(n)), Recheck(n));
    Two(looked, TakePermit(n), Recheck(n));
    Then(s, [Arrive] + [Look(n)], looked, [TakePermit(n)] + [Recheck(n)], decided);
    t := Apply(decided, CreateWorks(n));
    One(decided, CreateWorks(n));
    acts := ([Arrive] + [Look(n)]) + ([TakePermit(n)] + [Recheck(n)]) + [CreateWorks(n)];
    Then(s, ([Arrive] + [Look(n)]) + ([TakePermit(n)] + [Recheck(n)]), decided, [CreateWorks(n)], t);
    assert t.clients == s.clients + [Holding(s.book.next)];
    SumAppend(s.clients, Holding(s.book.next), Demand);
    SumAppend(s.clients, Holding(s.book.next), Holder);
  }

  lemma {:induction false} SlowRounds(s: State, k: nat) returns (acts: seq<Action>, t: State)
    requires Inv(s) && s.queue == [] && s.permits >= k
    ensures Leads(s, acts, t)
    ensures |t.book.live| == |s.book.live| + k && t.book.peak <= Max(s.book.peak, DemandOf(s) + k)
    ensures t.permits == s.permits - k && t.fillers == s.fillers && t.queue == []
    ensures Holders(t) == Holders(s) + k
    ensures forall a <- acts :: !Who(a).WarmUp?
    decreases k
  {
    hide Leads, Inv;
    acts, t := [], s;
    Stay(s);
    if k > 0 {
      var first, mid := SlowRound(s);
      LeadsInv(s, first, mid);
      FreshNext(s);
      var rest;
      rest, t := SlowRounds(mid, k - 1);
      Then(s, first, mid, rest, t);
      acts := first + rest;
    }
  }

  /** One connection made and returned, and the surplus permits of further fast rounds. */
  lemma StockedRun(c: Config, surplus: nat) returns (acts: seq<Action>, t: State)
    requires Initial(c).permits > 0
    ensures Leads(Initial(c), acts, t)
    ensures |t.queue| == 1 && t.permits >= surplus && |t.book.live| == 1 && t.fillers == Initial(c).fillers
    ensures DemandOf(t) == 0 && Holders(t) == 0 && t.book.peak <= 1
  {
    var s := Initial(c);
    var made, s1 := SlowRound(s);
    var s2 := Apply(Apply(s1, GiveBack(0)), ReleasePermit(0));
    Two(s1, GiveBack(0), ReleasePermit(0));
    var back := [GiveBack(0)] + [ReleasePermit(0)];
    Then(s, made, s1, back, s2);
    assert s2.clients == [Left];
    assert |s2.queue| == 1;
    var many;
    many, t := FastRounds(s2, surplus);
    Then(s, made + back, s2, many, t);
    acts := made + back + many;
  }

  /** Any pool that can create at all can be made to serve any number of sessions at once, and still
      have a permit left. */
  lemma OutgrowingRun(c: Config, sessions: nat) returns (acts: seq<Action>, t: State)
    requires Initial(c).permits > 0 && sessions > 0
    ensures Leads(Initial(c), acts, t)
    ensures Holders(t) == sessions && t.queue == [] && |t.book.live| == sessions && t.book.peak <= sessions
    ensures t.permits > 0 && t.fillers == Initial(c).fillers
  {
    var stock, s := StockedRun(c, sessions);
    var n := |s.clients|;
    Enter(s);
    var taken := Apply(Apply(s, Arrive), Look(n));
    Two(s, Arrive, Look(n));
    assert taken.clients == s.clients + [Holding(s.queue[0])];
    SumAppend(s.clients, Holding(s.queue[0]), Demand);
    SumAppend(s.clients, Holding(s.queue[0]), Holder);
    Then(Initial(c), stock, s, [Arrive] + [Look(n)], taken);
    InitialInv(c);
    RunInv(Initial(c), stock + ([Arrive] + [Look(n)]));
    var rest;
    rest, t := SlowRounds(taken, sessions - 1);
    acts := stock + ([Arrive] + [Look(n)]) + rest;
    Then(Initial(c), stock + ([Arrive] + [Look(n)]), taken, rest, t);
  }

  /** The state after a filler has made a connection and pushed it. */
  function Filled(s: State, f: nat): State
    requires f < |s.fillers|
  {
    s.(queue := s.queue + [s.book.next],
       fillers := s.fillers[f := if |s.queue| + 1 == s.config.initSize then Announcing else Done(false)],
       book := MakeConn(s.book).(warmed := s.book.warmed + 1))
  }

  function FillSteps(f: nat): seq<Action> { ([TryFill(f)] + [FillWorks(f)]) + ([Push(f)] + [Release(f)]) }

  /** A filler works: its connection joins the queue. */
  lemma FillRound(s: State, f: nat)
    requires f < |s.fillers| && s.fillers[f] == Starting && s.permits > 0
    ensures Leads(s, FillSteps(f), Filled(s, f))
  {
    var made := Apply(Apply(s, TryFill(f)), FillWorks(f));
    Two(s, TryFill(f), FillWorks(f));
    var done := Apply(Apply(made, Push(f)), Release(f));
    Two(made, Push(f), Release(f));
    assert done == Filled(s, f);
    Then(s, [TryFill(f)] + [FillWorks(f)], made, [Push(f)] + [Release(f)], done);
  }

  lemma {:induction false} FillRounds(s: State, f: nat) returns (acts: seq<Action>, t: State)
    requires Inv(s) && f <= |s.fillers| && s.permits > 0
    requires forall g | f <= g < |s.fillers| :: s.fillers[g] == Starting
    ensures Leads(s, acts, t)
    ensures |t.book.live| == |s.book.live| + (|s.fillers| - f) && t.book.peak == s.book.peak && t.clients == s.clients
    decreases |s.fillers| - f
  {
    hide Leads, Inv;
    acts, t := [], s;
    Stay(s);
    if f < |s.fillers| {
      var first, mid := FillSteps(f), Filled(s, f);
      FillRound(s, f);
      LeadsInv(s, first, mid);
      FreshNext(s);
      var rest;
      rest, t := FillRounds(mid, f + 1);
      Then(s, first, mid, rest, t);
      acts := first + rest;
    }
  }

  lemma LeadsInv(s: State, acts: seq<Action>, t: State)
    requires Inv(s) && Leads(s, acts, t)
    ensures Inv(t)
  {
    RunInv(s, acts);
  }

  lemma FreshNext(s: State)
    requires Inv(s)
    ensures s.book.next !in s.book.live
  {
  }

  /** An eager pool whose fillers work only after so many sessions hold a connection each. */
  lemma LateWarmupRun(c: Config, sessions: nat) returns (acts: seq<Action>, t: State)
    requires Warms(c) && sessions > 0
    ensures Leads(Initial(c), acts, t)
    ensures Holders(t) == sessions && |t.book.live| == sessions + c.initSize && t.book.peak <= sessions
  {
    var first, s := OutgrowingRun(c, sessions);
    InitialInv(c);
    RunInv(Initial(c), first);
    var rest;
    rest, t := FillRounds(s, 0);
    Then(Initial(c), first, s, rest, t);
    acts := first + rest;
  }

  function Unmade(f: Filler): nat { if f.Starting? || f.Filling? then 1 else 0 }

  /** Each filler makes at most one connection. */
  lemma {:induction false} WarmedBound(s: State, acts: seq<Action>)
    requires Valid(s, acts)
    ensures
      var t := Exec(s, acts);
      |t.fillers| == |s.fillers| && t.book.warmed + Sum(t.fillers, Unmade) <= s.book.warmed + Sum(s.fillers, Unmade)
    decreases |acts|
  {
    if acts != [] {
      WarmedStep(s, acts[0]);
      WarmedBound(Apply(s, acts[0]), acts[1..]);
    }
  }

  lemma WarmedStep(s: State, a: Action)
    requires Enabled(s, a)
    ensures
      var t := Apply(s, a);
      |t.fillers| == |s.fillers| && t.book.warmed + Sum(t.fillers, Unmade) <= s.book.warmed + Sum(s.fillers, Unmade)
  {
    StepSums(s, a, Making, Unmade);
    OneMoves(s, a);
  }

  /** Serving at most peak sessions at once, a pool has at most so many connections, however it runs. */
  function MostLive(c: Config, peak: nat): nat {
    if Warms(c) then peak + c.initSize
    else if c.maxSize == 0 && c.initSize == 0 then 0 else peak
  }

  lemma LiveBound(c: Config, acts: seq<Action>)
    requires Valid(Initial(c), acts)
    ensures |Exec(Initial(c), acts).book.live| <= MostLive(c, Exec(Initial(c), acts).book.peak)
  {
    EveryRun(c, acts);
    WarmedBound(Initial(c), acts);
    UnmadeAtMost(Initial(c).fillers);
    if c.maxSize == 0 && c.initSize == 0 { NothingCreated(c, acts); }
  }

  lemma {:induction false} UnmadeAtMost(fs: seq<Filler>)
    ensures Sum(fs, Unmade) <= |fs|
  {
    if fs != [] { UnmadeAtMost(fs[1..]); }
  }

  /** A run with at most peak sessions at once that ends with more connections than the pool's size. */
  ghost predicate Exceeds(c: Config, peak: nat, acts: seq<Action>) {
    && Valid(Initial(c), acts)
    && Exec(Initial(c), acts).book.peak <= peak
    && |Exec(Initial(c), acts).book.live| > c.maxSize
  }

  /** A pool serving at most peak sessions at once keeps to its maximum size in every run exactly
      when the peak does, counting in the warm-up connections of an eager pool; a pool that can create
      nothing keeps to it always. */
  lemma SizeKeptIff(c: Config, peak: nat)
    ensures (forall acts :: !Exceeds(c, peak, acts)) <==> MostLive(c, peak) <= c.maxSize
  {
    if MostLive(c, peak) <= c.maxSize {
      forall acts ensures !Exceeds(c, peak, acts) {
        if Exceeds(c, peak, acts) { LiveBound(c, acts); }
      }
    } else {
      var acts, t := OversizedRun(c, peak);
      assert Exceeds(c, peak, acts);
    }
  }

  /** One connection too many, with no more sessions than allowed. */
  lemma OversizedRun(c: Config, peak: nat) returns (acts: seq<Action>, t: State)
    requires MostLive(c, peak) > c.maxSize
    ensures Leads(Initial(c), acts, t)
    ensures |t.book.live| == c.maxSize + 1 && t.book.peak <= peak
  {
    if Warms(c) {
      acts, t := LateWarmupRun(c, c.maxSize + 1 - c.initSize);
    } else {
      acts, t := OutgrowingRun(c, c.maxSize + 1);
    }
  }

  lemma NothingCreated(c: Config, acts: seq<Action>)
    requires Valid(Initial(c), acts) && c.maxSize == 0 && c.initSize == 0
    ensures Exec(Initial(c), acts).book.live == {}
  {
    NothingToHold(Initial(c), acts);
  }

  lemma {:induction false} NothingToHold(s: State, acts: seq<Action>)
    requires Valid(s, acts) && s.permits == 0 && s.queue == [] && s.fillers == [] && s.book.live == {}
    requires forall i | 0 <= i < |s.clients| :: s.clients[i] in {Looking, Waiting, Left}
    ensures Exec(s, acts).book.live == {}
    decreases |acts|
  {
    if acts != [] {
      var a := acts[0];
      OneMoves(s, a);
      NothingToHold(Apply(s, a), acts[1..]);
    }
  }
}
