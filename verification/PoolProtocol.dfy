/** The connection pool as a protocol: one step per lock section or semaphore operation, any number
    of acquirers and warm-up threads, any interleaving. */
module PoolProtocol {
  import opened Sequences
  import opened Tally

  type Conn = nat

  datatype Config = Config(maxSize: nat, initSize: nat, eager: bool)

  /** Where a session stands, from entering acquire to having handed its connection back. */
  datatype Client =
    | Looking               // about to lock and look at the queue
    | Waiting               // found it empty, about to try for a permit
    | Checking              // has a permit, about to look again
    | Creating              // has a permit, found the queue empty again
    | Owing(conn: Conn)     // took a queued connection and still has the permit
    | Holding(conn: Conn)   // a manager has the connection
    | Returning             // pushed the connection, about to release a permit
    | Left

  datatype Filler =
    | Starting
    | Filling               // has a permit, is creating
    | Made(conn: Conn)
    | Pushed(full: bool)    // pushed, about to release the permit
    | Announcing            // saw the full queue, about to set the ready flag
    | Expanding             // about to exchange the expanded flag
    | Granting              // about to release the extra permits
    | Done(full: bool)

  /** Bookkeeping the code does not keep: what was ever made, granted, returned. The peak is the
      largest number of sessions that were in acquire or holding at once. */
  datatype Book = Book(next: Conn, live: set<Conn>, granted: nat, created: nat, warmed: nat, returned: nat, peak: nat)

  datatype State = State(
    config: Config, queue: seq<Conn>, permits: nat, ready: bool, expanded: bool,
    clients: seq<Client>, fillers: seq<Filler>, book: Book)

  predicate Warms(c: Config) {
    c.eager && c.initSize > 0 && c.maxSize > 0 && c.maxSize >= c.initSize
  }

  /** The constructor: an eager pool starts its fillers, any other expands at once and is ready. */
  function Initial(c: Config): State {
    var permits := if !Warms(c) && c.maxSize > c.initSize then c.maxSize else c.initSize;
    State(c, [], permits, !Warms(c), !Warms(c) && c.maxSize > c.initSize, [],
          if Warms(c) then seq(c.initSize, i => Starting) else [],
          Book(0, {}, permits, 0, 0, 0, 0))
  }

  datatype Action =
    | Arrive
    | Look(i: nat) | TimeOut(i: nat) | TakePermit(i: nat) | Recheck(i: nat) | GiveUnused(i: nat)
    | CreateFails(i: nat) | CreateWorks(i: nat) | GiveBack(i: nat) | ReleasePermit(i: nat) | Discard(i: nat)
    | Stop(f: nat) | TryFill(f: nat) | MissFill(f: nat) | FillFails(f: nat) | FillWorks(f: nat)
    | Push(f: nat) | Release(f: nat) | Announce(f: nat) | Expand(f: nat) | Grant(f: nat)

  predicate Enabled(s: State, a: Action) {
    match a
    case Arrive => true
    case Look(i) => i < |s.clients| && s.clients[i] == Looking
    case TimeOut(i) => i < |s.clients| && s.clients[i] == Waiting
    case TakePermit(i) => i < |s.clients| && s.clients[i] == Waiting && s.permits > 0
    case Recheck(i) => i < |s.clients| && s.clients[i] == Checking
    case GiveUnused(i) => i < |s.clients| && s.clients[i].Owing?
    case CreateFails(i) => i < |s.clients| && s.clients[i] == Creating
    case CreateWorks(i) => i < |s.clients| && s.clients[i] == Creating
    case GiveBack(i) => i < |s.clients| && s.clients[i].Holding?
    case ReleasePermit(i) => i < |s.clients| && s.clients[i] == Returning
    case Discard(i) => i < |s.clients| && s.clients[i].Holding?
    case Stop(f) => f < |s.fillers| && s.fillers[f] == Starting
    case TryFill(f) => f < |s.fillers| && s.fillers[f] == Starting && s.permits > 0
    case MissFill(f) => f < |s.fillers| && s.fillers[f] == Starting
    case FillFails(f) => f < |s.fillers| && s.fillers[f] == Filling
    case FillWorks(f) => f < |s.fillers| && s.fillers[f] == Filling
    case Push(f) => f < |s.fillers| && s.fillers[f].Made?
    case Release(f) => f < |s.fillers| && s.fillers[f].Pushed?
    case Announce(f) => f < |s.fillers| && s.fillers[f] == Announcing
    case Expand(f) => f < |s.fillers| && s.fillers[f] == Expanding
    case Grant(f) => f < |s.fillers| && s.fillers[f] == Granting
  }

  function SetClient(s: State, i: nat, c: Client): State
    requires i < |s.clients|
  {
    s.(clients := s.clients[i := c])
  }

  function SetFiller(s: State, f: nat, x: Filler): State
    requires f < |s.fillers|
  {
    s.(fillers := s.fillers[f := x])
  }

  function MakeConn(b: Book): Book {
    b.(next := b.next + 1, live := b.live + {b.next})
  }

  function Extra(c: Config): nat { if c.maxSize > c.initSize then c.maxSize - c.initSize else 0 }

  function Apply(s: State, a: Action): State
    requires Enabled(s, a)
  {
    match a
    case Arrive =>
      var clients := s.clients + [Looking];
      var demand := Sum(clients, Demand);
      s.(clients := clients, book := s.book.(peak := if demand > s.book.peak then demand else s.book.peak))
    case Look(i) =>
      if s.queue == [] then SetClient(s, i, Waiting)
      else SetClient(s, i, Holding(s.queue[0])).(queue := s.queue[1..])
    case TimeOut(i) => SetClient(s, i, Left)
    case TakePermit(i) => SetClient(s, i, Checking).(permits := s.permits - 1)
    case Recheck(i) =>
      if s.queue == [] then SetClient(s, i, Creating)
      else SetClient(s, i, Owing(s.queue[0])).(queue := s.queue[1..])
    case GiveUnused(i) => SetClient(s, i, Holding(s.clients[i].conn)).(permits := s.permits + 1)
    case CreateFails(i) => SetClient(s, i, Left).(permits := s.permits + 1)
    case CreateWorks(i) =>
      SetClient(s, i, Holding(s.book.next)).(book := MakeConn(s.book).(created := s.book.created + 1))
    case GiveBack(i) =>
      SetClient(s, i, Returning)
      .(queue := s.queue + [s.clients[i].conn], book := s.book.(returned := s.book.returned + 1))
    case ReleasePermit(i) => SetClient(s, i, Left).(permits := s.permits + 1)
    case Discard(i) => SetClient(s, i, Left).(book := s.book.(live := s.book.live - {s.clients[i].conn}))
    case Stop(f) => SetFiller(s, f, Done(false))
    case TryFill(f) => SetFiller(s, f, Filling).(permits := s.permits - 1)
    case MissFill(f) => SetFiller(s, f, Done(false))
    case FillFails(f) => SetFiller(s, f, Starting).(permits := s.permits + 1)
    case FillWorks(f) =>
      SetFiller(s, f, Made(s.book.next)).(book := MakeConn(s.book).(warmed := s.book.warmed + 1))
    case Push(f) =>
      SetFiller(s, f, Pushed(|s.queue| + 1 == s.config.initSize)).(queue := s.queue + [s.fillers[f].conn])
    case Release(f) =>
      SetFiller(s, f, if s.fillers[f].full then Announcing else Done(false)).(permits := s.permits + 1)
    case Announce(f) =>
      SetFiller(s, f, if s.config.maxSize > s.config.initSize then Expanding else Done(true)).(ready := true)
    case Expand(f) => SetFiller(s, f, if s.expanded then Done(true) else Granting).(expanded := true)
    case Grant(f) =>
      SetFiller(s, f, Done(true))
      .(permits := s.permits + Extra(s.config), book := s.book.(granted := s.book.granted + Extra(s.config)))
  }

  predicate Valid(s: State, acts: seq<Action>)
    decreases |acts|
  {
    acts == [] || (Enabled(s, acts[0]) && Valid(Apply(s, acts[0]), acts[1..]))
  }

  /** The state a schedule leads to. */
  function Exec(s: State, acts: seq<Action>): State
    requires Valid(s, acts)
    decreases |acts|
  {
    if acts == [] then s else Exec(Apply(s, acts[0]), acts[1..])
  }

  lemma {:induction false} ExecAppend(s: State, a: seq<Action>, b: seq<Action>)
    requires Valid(s, a) && Valid(Exec(s, a), b)
    ensures Valid(s, a + b) && Exec(s, a + b) == Exec(Exec(s, a), b)
    decreases |a|
  {
    if a == [] {
      assert a + b == b;
    } else {
      assert (a + b)[1..] == a[1..] + b;
      ExecAppend(Apply(s, a[0]), a[1..], b);
    }
  }

  // ---- What each phase counts for ----

  function Permit(c: Client): nat { if c.Checking? || c.Creating? || c.Owing? || c.Returning? then 1 else 0 }

  /** A permit that is in the pool or on its way back to it. */
  function Waking(c: Client): nat { if c.Checking? || c.Owing? || c.Returning? then 1 else 0 }

  function Making(c: Client): nat { if c.Creating? then 1 else 0 }

  /** In acquire, or holding a connection. */
  function Demand(c: Client): nat { if c.Returning? || c.Left? then 0 else 1 }

  function FillPermit(f: Filler): nat { if f.Filling? || f.Made? || f.Pushed? then 1 else 0 }

  function Carrying(f: Filler): nat { if f.Made? then 1 else 0 }

  datatype Actor = Newcomer | Session(i: nat) | WarmUp(f: nat)

  function Who(a: Action): Actor {
    match a
    case Arrive => Newcomer
    case Look(i) => Session(i) case TimeOut(i) => Session(i) case TakePermit(i) => Session(i)
    case Recheck(i) => Session(i) case GiveUnused(i) => Session(i) case CreateFails(i) => Session(i)
    case CreateWorks(i) => Session(i) case GiveBack(i) => Session(i) case ReleasePermit(i) => Session(i)
    case Discard(i) => Session(i)
    case Stop(f) => WarmUp(f) case TryFill(f) => WarmUp(f) case MissFill(f) => WarmUp(f)
    case FillFails(f) => WarmUp(f) case FillWorks(f) => WarmUp(f) case Push(f) => WarmUp(f)
    case Release(f) => WarmUp(f) case Announce(f) => WarmUp(f) case Expand(f) => WarmUp(f) case Grant(f) => WarmUp(f)
  }

  /** The state after a schedule of the threads other than one, steps not possible when their turn
      comes being passed over. */
  function Played(s: State, me: Actor, schedule: seq<Action>): State
    decreases |schedule|
  {
    if schedule == [] then s
    else
      var n := |schedule| - 1;
      var t, a := Played(s, me, schedule[..n]), schedule[n];
      if Enabled(t, a) && Who(a) != me then Apply(t, a) else t
  }

  /** The steps of a run that one thread took, in order. */
  function Own(run: seq<Action>, me: Actor): (own: seq<Action>)
    ensures run == [] ==> own == []
  {
    Filter(run, Mine(me))
  }

  function Mine(me: Actor): Action -> bool { (a: Action) => Who(a) == me }

  /** A step changes the phase of the one thread that takes it. */
  lemma OneMoves(s: State, a: Action)
    requires Enabled(s, a)
    ensures
      var t := Apply(s, a);
      match Who(a)
      case Newcomer => t.clients == s.clients + [Looking] && t.fillers == s.fillers
      case Session(i) =>
        i < |s.clients| == |t.clients| && t.clients == s.clients[i := t.clients[i]] && t.fillers == s.fillers
      case WarmUp(f) =>
        f < |s.fillers| == |t.fillers| && t.fillers == s.fillers[f := t.fillers[f]] && t.clients == s.clients
  {
  }

  lemma StepSums(s: State, a: Action, w: Client -> nat, v: Filler -> nat)
    requires Enabled(s, a)
    ensures
      var t := Apply(s, a);
      match Who(a)
      case Newcomer => Sum(t.clients, w) == Sum(s.clients, w) + w(Looking) && t.fillers == s.fillers
      case Session(i) =>
        && i < |s.clients| == |t.clients| && t.fillers == s.fillers
        && Sum(t.clients, w) + w(s.clients[i]) == Sum(s.clients, w) + w(t.clients[i])
      case WarmUp(f) =>
        && f < |s.fillers| == |t.fillers| && t.clients == s.clients
        && Sum(t.fillers, v) + v(s.fillers[f]) == Sum(s.fillers, v) + v(t.fillers[f])
  {
    OneMoves(s, a);
    var t := Apply(s, a);
    match Who(a)
    case Newcomer => SumAppend(s.clients, Looking, w);
    case Session(i) => SumUpdate(s.clients, i, t.clients[i], w);
    case WarmUp(f) => SumUpdate(s.fillers, f, t.fillers[f], v);
  }

  // ---- The permit law ----

  /** Every permit granted, and one for each connection returned, is in the pool, in a thread's
      hands, owed, or was spent on a connection acquire created. */
  ghost predicate PermitLaw(s: State) {
    s.permits + Sum(s.clients, Permit) + Sum(s.fillers, FillPermit) + s.book.created == s.book.granted + s.book.returned
  }

  lemma PermitStep(s: State, a: Action)
    requires Enabled(s, a) && PermitLaw(s)
    ensures PermitLaw(Apply(s, a))
  {
    hide Sum;
    StepSums(s, a, Permit, FillPermit);
  }

  /** A queued connection never lies beside sessions that all wait for a permit no one will release. */
  ghost predicate Awake(s: State) {
    s.queue != [] ==> s.permits + Sum(s.clients, Waking) + Sum(s.fillers, FillPermit) >= 1
  }

  lemma AwakeStep(s: State, a: Action)
    requires Enabled(s, a) && Awake(s)
    ensures Awake(Apply(s, a))
  {
    hide Sum;
    StepSums(s, a, Waking, FillPermit);
    OneMoves(s, a);
    var t := Apply(s, a);
    match Who(a)
    case Newcomer =>
    case Session(i) => SumAtLeast(t.clients, i, Waking);
    case WarmUp(f) => SumAtLeast(t.fillers, f, FillPermit);
  }

  // ---- Ownership ----

  predicate Owns(x: Client, c: Conn) { (x.Owing? || x.Holding?) && x.conn == c }

  function Is(c: Conn): Conn -> nat { (x: Conn) => if x == c then 1 else 0 }

  function Has(c: Conn): Client -> nat { (x: Client) => if Owns(x, c) then 1 else 0 }

  function Carries(c: Conn): Filler -> nat { (x: Filler) => if x.Made? && x.conn == c then 1 else 0 }

  /** The places a connection is in: the queue, a session's hands, a filler's hands. */
  function Places(s: State, c: Conn): nat {
    Sum(s.queue, Is(c)) + Sum(s.clients, Has(c)) + Sum(s.fillers, Carries(c))
  }

  /** Every live connection is in exactly one place, and no other connection is in any. */
  ghost predicate Owned(s: State) {
    && (forall c :: Places(s, c) == if c in s.book.live then 1 else 0)
    && (forall c <- s.book.live :: c < s.book.next)
  }

  function Appears(s: State, a: Action, c: Conn): nat {
    if (a.CreateWorks? || a.FillWorks?) && c == s.book.next then 1 else 0
  }

  function Vanishes(s: State, a: Action, c: Conn): nat
    requires Enabled(s, a)
  {
    if a.Discard? && s.clients[a.i].conn == c then 1 else 0
  }

  lemma QueueStep(s: State, a: Action, c: Conn)
    requires Enabled(s, a)
    ensures
      Sum(Apply(s, a).queue, Is(c)) ==
        if (a.Look? || a.Recheck?) && s.queue != [] then Sum(s.queue, Is(c)) - Is(c)(s.queue[0])
        else if a.GiveBack? then Sum(s.queue, Is(c)) + Is(c)(s.clients[a.i].conn)
        else if a.Push? then Sum(s.queue, Is(c)) + Is(c)(s.fillers[a.f].conn)
        else Sum(s.queue, Is(c))
  {
    if a.GiveBack? { SumAppend(s.queue, s.clients[a.i].conn, Is(c)); }
    if a.Push? { SumAppend(s.queue, s.fillers[a.f].conn, Is(c)); }
  }

  /** A connection only moves, except where it is made or thrown away. */
  lemma PlacesStep(s: State, a: Action, c: Conn)
    requires Enabled(s, a)
    ensures Places(Apply(s, a), c) + Vanishes(s, a, c) == Places(s, c) + Appears(s, a, c)
  {
    match Who(a)
    case Newcomer => SumAppend(s.clients, Looking, Has(c));
    case Session(i) => SessionPlaces(s, a, i, c);
    case WarmUp(f) => FillerPlaces(s, a, f, c);
  }

  lemma SessionPlaces(s: State, a: Action, i: nat, c: Conn)
    requires Enabled(s, a) && Who(a) == Session(i)
    ensures Places(Apply(s, a), c) + Vanishes(s, a, c) == Places(s, c) + Appears(s, a, c)
  {
    hide Sum;
    QueueStep(s, a, c);
    OneMoves(s, a);
    SumUpdate(s.clients, i, Apply(s, a).clients[i], Has(c));
  }

  lemma FillerPlaces(s: State, a: Action, f: nat, c: Conn)
    requires Enabled(s, a) && Who(a) == WarmUp(f)
    ensures Places(Apply(s, a), c) + Vanishes(s, a, c) == Places(s, c) + Appears(s, a, c)
  {
    hide Sum;
    QueueStep(s, a, c);
    OneMoves(s, a);
    SumUpdate(s.fillers, f, Apply(s, a).fillers[f], Carries(c));
  }

  lemma OwnedStep(s: State, a: Action)
    requires Enabled(s, a) && Owned(s)
    ensures Owned(Apply(s, a))
  {
    hide Places, Apply, Enabled, Appears, Vanishes;
    var t := Apply(s, a);
    LiveNumbered(s, a);
    forall c ensures Places(t, c) == if c in t.book.live then 1 else 0 {
      assert Places(s, c) == if c in s.book.live then 1 else 0;
      PlacesStep(s, a, c);
      LiveStep(s, a, c);
    }
  }

  lemma LiveNumbered(s: State, a: Action)
    requires Enabled(s, a) && forall c <- s.book.live :: c < s.book.next
    ensures forall c <- Apply(s, a).book.live :: c < Apply(s, a).book.next
  {
  }

  lemma LiveStep(s: State, a: Action, c: Conn)
    requires Enabled(s, a) && Owned(s)
    ensures
      var t := Apply(s, a);
      (if c in t.book.live then 1 else 0) + Vanishes(s, a, c) == (if c in s.book.live then 1 else 0) + Appears(s, a, c)
  {
    hide Places, Has;
    if a.Discard? { HeldIsLive(s, a.i); }
  }

  lemma HeldIsLive(s: State, i: nat)
    requires Owned(s) && i < |s.clients| && (s.clients[i].Holding? || s.clients[i].Owing?)
    ensures s.clients[i].conn in s.book.live
  {
    assert Places(s, s.clients[i].conn) >= Sum(s.clients, Has(s.clients[i].conn));
    SumAtLeast(s.clients, i, Has(s.clients[i].conn));
  }

  // ---- Demand ----

  /** Connections live or being created by acquire never outnumber the peak of simultaneous
      sessions together with the warm-up connections. */
  ghost predicate Bounded(s: State) {
    && |s.book.live| + Sum(s.clients, Making) <= s.book.peak + s.book.warmed
    && Sum(s.clients, Demand) <= s.book.peak
    && Sum(s.fillers, Carrying) <= s.book.warmed
  }

  function OwnsCount(c: Client): nat { if c.Owing? || c.Holding? then 1 else 0 }

  function Claims(c: Client): nat { OwnsCount(c) + Making(c) }

  function Hands(c: Client): set<Conn> { if c.Owing? || c.Holding? then {c.conn} else {} }

  function Load(f: Filler): set<Conn> { if f.Made? then {f.conn} else {} }

  /** With an empty queue every connection acquire is responsible for belongs to a session in demand. */
  lemma EmptyQueueDemand(s: State)
    requires Owned(s) && s.queue == []
    ensures |s.book.live| + Sum(s.clients, Making) <= Sum(s.clients, Demand) + Sum(s.fillers, Carrying)
  {
    UnionSize(s.clients, Hands, OwnsCount);
    UnionSize(s.fillers, Load, Carrying);
    SumPlus(s.clients, OwnsCount, Making, Claims);
    SumAtMost(s.clients, Claims, Demand);
    var places := Union(s.clients, Hands) + Union(s.fillers, Load);
    forall c <- s.book.live ensures c in places {
      assert Places(s, c) == 1;
      UnionCovers(s.clients, Hands, c, Has(c));
      UnionCovers(s.fillers, Load, c, Carries(c));
    }
    SubsetSize(s.book.live, places);
    SetUnionSize(Union(s.clients, Hands), Union(s.fillers, Load));
  }

  lemma BoundedStep(s: State, a: Action)
    requires Enabled(s, a) && Owned(s) && Bounded(s)
    ensures Bounded(Apply(s, a))
  {
    DemandStep(s, a);
    if a.Recheck? && s.queue == [] {
      OwnedStep(s, a);
      EmptyQueueDemand(Apply(s, a));
    } else {
      MakingStep(s, a);
      assert Apply(s, a).book.peak >= s.book.peak;
    }
  }

  lemma DemandStep(s: State, a: Action)
    requires Enabled(s, a) && Sum(s.clients, Demand) <= s.book.peak && Sum(s.fillers, Carrying) <= s.book.warmed
    ensures
      var t := Apply(s, a);
      Sum(t.clients, Demand) <= t.book.peak && Sum(t.fillers, Carrying) <= t.book.warmed
  {
    hide Sum;
    StepSums(s, a, Demand, Carrying);
  }

  /** Only a session that finds the queue empty with a permit in hand adds to the connections. */
  lemma MakingStep(s: State, a: Action)
    requires Enabled(s, a) && !(a.Recheck? && s.queue == [])
    ensures
      var t := Apply(s, a);
      |t.book.live| + Sum(t.clients, Making) + s.book.warmed <= |s.book.live| + Sum(s.clients, Making) + t.book.warmed
  {
    StepSums(s, a, Making, Carrying);
    OneMoves(s, a);
    var t := Apply(s, a);
    if a.CreateWorks? || a.FillWorks? {
      assert |t.book.live| <= |s.book.live| + 1 by { SetGrows(s.book.live, s.book.next); }
    } else if a.Discard? {
      SetShrinks(s.book.live, s.clients[a.i].conn);
    }
  }

  lemma SetGrows(x: set<Conn>, c: Conn)
    ensures |x + {c}| <= |x| + 1
  {
    if c in x { assert x + {c} == x; }
  }

  lemma SetShrinks(x: set<Conn>, c: Conn)
    ensures |x - {c}| <= |x|
  {
    if c !in x { assert x - {c} == x; }
  }
}
