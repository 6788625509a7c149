/** The pool's code: the queue, the semaphore and the flags, changed one lock section or semaphore
    operation at a time. Other threads' steps, given as a schedule, run between any two of them. */
module ConnectionPool {
  import opened Sequences
  import opened Tally
  import opened PoolProtocol
  import opened PoolRuns

  datatype Acquired = Got(conn: Conn) | TimedOut | Failed

  /** What the environment decides in one acquire: the other threads' steps in its gaps, whether the
      deadline has passed, whether the timed wait catches an available permit, whether creation works. */
  datatype Chances = Chances(gaps: seq<seq<Action>>, expired: bool, patient: bool, creates: bool)

  /** One turn of a filler's loop: the others' steps while it creates, and after that, before it pushes
      or, having failed, tries again. */
  datatype Turn = Turn(stopped: bool, misses: bool, creates: bool, during: seq<Action>, after: seq<Action>)

  // ---- The steps a call takes itself ----

  /** From the permit on: the second look, and what came of it. */
  predicate FinishSteps(me: nat, own: seq<Action>, r: Acquired) {
    || (own == [Recheck(me), GiveUnused(me)] && r.Got?)
    || (own == [Recheck(me), CreateWorks(me)] && r.Got?)
    || (own == [Recheck(me), CreateFails(me)] && r == Failed)
  }

  /** The end of the wait, or a permit and from there on. */
  predicate WaitSteps(me: nat, own: seq<Action>, r: Acquired) {
    || (own == [TimeOut(me)] && r == TimedOut)
    || (own != [] && own[0] == TakePermit(me) && FinishSteps(me, own[1..], r))
  }

  /** One look, and if it finds nothing the wait. */
  predicate AcquireSteps(me: nat, own: seq<Action>, r: Acquired) {
    || (own == [Look(me)] && r.Got?)
    || (own != [] && own[0] == Look(me) && WaitSteps(me, own[1..], r))
  }

  /** The announcement, and the expansion if there is one. */
  predicate Opens(c: Config, me: nat, own: seq<Action>) {
    if c.maxSize > c.initSize then own == [Announce(me), Expand(me)] || own == [Announce(me), Expand(me), Grant(me)]
    else own == [Announce(me)]
  }

  /** A made connection is pushed and its permit released; who saw the queue full announces it. */
  predicate FillEnd(c: Config, me: nat, own: seq<Action>, end: Filler) {
    && end.Done? && |own| >= 2 && own[..2] == [Push(me), Release(me)]
    && if end.full then Opens(c, me, own[2..]) else |own| == 2
  }

  /** The turn a filler ends in. */
  predicate TurnSteps(c: Config, me: nat, turn: Turn, own: seq<Action>, end: Filler) {
    if turn.stopped then own == [Stop(me)] && end == Done(false)
    else
      || (own == [MissFill(me)] && end == Done(false))
      || (turn.creates && |own| >= 2 && own[..2] == [TryFill(me), FillWorks(me)] && FillEnd(c, me, own[2..], end))
  }

  function Retries(me: nat, k: nat): seq<Action> {
    if k == 0 then [] else Retries(me, k - 1) + [TryFill(me), FillFails(me)]
  }

  /** So many failed creations, and the turn the filler ends in. */
  predicate FillerSteps(c: Config, me: nat, failures: nat, turn: Turn, own: seq<Action>, end: Filler) {
    var n := |Retries(me, failures)|;
    |own| >= n && own[..n] == Retries(me, failures) && TurnSteps(c, me, turn, own[n..], end)
  }

  class Pool {
    const config: Config
    var connections: seq<Conn>
    var capacity: nat
    var ready: bool
    var expanded: bool
    // The threads inside the pool, and the bookkeeping of the protocol.
    var clients: seq<Client>
    var fillers: seq<Filler>
    var book: Book

    function View(): State
      reads this
    {
      State(config, connections, capacity, ready, expanded, clients, fillers, book)
    }

    ghost predicate Consistent()
      reads this
    {
      Inv(View())
    }

    constructor (c: Config)
      ensures View() == Initial(c) && Consistent()
    {
      config := c;
      connections, capacity := [], c.initSize;
      clients, fillers := [], [];
      ready, expanded := false, false;
      if c.eager && c.initSize > 0 && c.maxSize > 0 && c.maxSize >= c.initSize {
        fillers := seq(c.initSize, i => Starting);
      } else {
        if c.maxSize > c.initSize {
          expanded, capacity := true, c.initSize + (c.maxSize - c.initSize);
        }
        ready := true;
      }
      new;
      book := Book(0, {}, capacity, 0, 0, 0, 0);
      InitialInv(c);
    }

    /** Steps of the other threads; those not possible when their turn comes are passed over. */
    method Others(me: Actor, schedule: seq<Action>) returns (ghost run: seq<Action>)
      requires Consistent()
      modifies this
      ensures Consistent() && Leads(old(View()), run, View())
      ensures Own(run, me) == [] && View() == Played(old(View()), me, schedule)
      ensures me.Session? && me.i < old(|clients|) ==> me.i < |clients| && clients[me.i] == old(clients[me.i])
      ensures me.WarmUp? && me.f < old(|fillers|) ==> me.f < |fillers| && fillers[me.f] == old(fillers[me.f])
    {
      run := [];
      ghost var start := View();
      for k := 0 to |schedule|
        invariant Consistent() && Leads(start, run, View())
        invariant Own(run, me) == [] && View() == Played(start, me, schedule[..k])
        invariant me.Session? && me.i < |start.clients| ==> me.i < |clients| && clients[me.i] == start.clients[me.i]
        invariant me.WarmUp? && me.f < |start.fillers| ==> me.f < |fillers| && fillers[me.f] == start.fillers[me.f]
      {
        var a := schedule[k];
        assert schedule[..k + 1][..k] == schedule[..k];
        if Enabled(View(), a) && Who(a) != me {
          ghost var before := View();
          OneMoves(before, a);
          Perform(a);
          run := Extend(me, start, run, before, a);
        }
      }
      assert schedule[..|schedule|] == schedule;
    }

    method Perform(a: Action)
      requires Enabled(View(), a)
      modifies this
      ensures View() == Apply(old(View()), a)
    {
      var next := Apply(View(), a);
      connections, capacity, ready, expanded := next.queue, next.permits, next.ready, next.expanded;
      clients, fillers, book := next.clients, next.fillers, next.book;
    }

    ghost method Extend(me: Actor, start: State, run: seq<Action>, before: State, a: Action)
      returns (longer: seq<Action>)
      requires Leads(start, run, before) && Inv(before) && Enabled(before, a) && View() == Apply(before, a)
      ensures Leads(start, longer, View()) && Consistent()
      ensures Own(longer, me) == Own(run, me) + if Who(a) == me then [a] else []
    {
      One(before, a);
      Then(start, run, before, [a], View());
      RunInv(before, [a]);
      FilterAppend(run, [a], Mine(me));
      FilterOne(a, Mine(me));
      longer := run + [a];
    }

    /** The lock section that takes the front connection if there is one. */
    method TakeFront(me: nat) returns (found: bool)
      requires me < |clients| && clients[me] in {Looking, Checking}
      modifies this
      ensures View() == Apply(old(View()), if old(clients[me]) == Looking then Look(me) else Recheck(me))
      ensures found == (old(connections) != [])
      ensures me < |clients| &&
        if old(clients[me]) == Looking then if found then clients[me].Holding? else clients[me] == Waiting
        else if found then clients[me].Owing? else clients[me] == Creating
    {
      found := connections != [];
      if found {
        var conn := connections[0];
        connections := connections[1..];
        clients := clients[me := if clients[me] == Looking then Holding(conn) else Owing(conn)];
      } else {
        clients := clients[me := if clients[me] == Looking then Waiting else Creating];
      }
    }

    method TryPermit(me: nat, patient: bool) returns (taken: bool)
      requires me < |clients| && clients[me] == Waiting
      modifies this
      ensures taken == (patient && old(capacity) > 0)
      ensures View() == Apply(old(View()), if taken then TakePermit(me) else TimeOut(me))
      ensures me < |clients| && clients[me] == if taken then Checking else Left
      ensures !taken ==> capacity == old(capacity)
    {
      taken := patient && capacity > 0;
      if taken {
        capacity := capacity - 1;
        clients := clients[me := Checking];
      } else {
        clients := clients[me := Left];
      }
    }

    method Enter() returns (me: nat)
      modifies this
      ensures View() == Apply(old(View()), Arrive)
      ensures me == old(|clients|) && |clients| == me + 1 && clients[me] == Looking
    {
      me := |clients|;
      Perform(Arrive);
    }

    /** The call ends with the session holding what it got, or gone; and its steps, with the others'
        between them, are a run of the protocol. */
    method Acquire(c: Chances) returns (me: nat, r: Acquired, ghost run: seq<Action>)
      requires Consistent() && |c.gaps| == 4
      modifies this
      ensures Consistent() && Leads(old(View()), run, View())
      ensures me == old(|clients|) < |clients|
      ensures AcquireSteps(me, Own(run, Session(me)), r)
      ensures r == TimedOut ==> c.expired || !c.patient || capacity == 0
      ensures r != TimedOut && Own(run, Session(me)) != [Look(me)] ==> !c.expired && c.patient
      ensures r == Failed ==> !c.creates
      ensures CreateWorks(me) in Own(run, Session(me)) ==> c.creates
      ensures clients[me] == if r.Got? then Holding(r.conn) else Left
      ensures r.Got? ==> r.conn in book.live && r.conn !in connections
    {
      hide Inv, Apply, Leads, Own;
      ghost var start := View();
      Stay(start);
      me := Enter();
      run := Extend(Session(me), start, [], start, Arrive);
      ghost var between := Others(Session(me), c.gaps[0]);
      run := Join(Session(me), start, run, between, View());
      ghost var before := View();
      var found := TakeFront(me);
      run := Extend(Session(me), start, run, before, Look(me));
      if found {
        r := Outcome(me);
        return;
      }
      ghost var own := Own(run, Session(me));
      assert own == [Look(me)];
      r, between := Await(me, c);
      run := Join(Session(me), start, run, between, View());
      assert Own(run, Session(me))[0] == own[0] && Own(run, Session(me))[1..] == Own(between, Session(me));
    }

    /** Acquire from the empty queue on: the timed wait for a permit. */
    method Await(me: nat, c: Chances) returns (r: Acquired, ghost run: seq<Action>)
      requires Consistent() && |c.gaps| == 4 && me < |clients| && clients[me] == Waiting
      modifies this
      ensures Consistent() && Leads(old(View()), run, View())
      ensures WaitSteps(me, Own(run, Session(me)), r)
      ensures r == TimedOut ==> c.expired || !c.patient || capacity == 0
      ensures r != TimedOut ==> !c.expired && c.patient
      ensures r == Failed ==> !c.creates
      ensures CreateWorks(me) in Own(run, Session(me)) ==> c.creates
      ensures me < |clients| && clients[me] == if r.Got? then Holding(r.conn) else Left
      ensures r.Got? ==> r.conn in book.live && r.conn !in connections
    {
      hide Inv, Apply, Leads, Own;
      ghost var start := View();
      run := Others(Session(me), c.gaps[1]);
      ghost var before := View();
      var taken := TryPermit(me, !c.expired && c.patient);
      run := Extend(Session(me), start, run, before, if taken then TakePermit(me) else TimeOut(me));
      r := TimedOut;
      if taken {
        ghost var own := Own(run, Session(me));
        assert own == [TakePermit(me)];
        ghost var between;
        r, between := Finish(me, c);
        run := Join(Session(me), start, run, between, View());
        assert Own(run, Session(me))[0] == own[0] && Own(run, Session(me))[1..] == Own(between, Session(me));
      }
    }

    ghost method Join(me: Actor, start: State, run: seq<Action>, more: seq<Action>, end: State)
      returns (longer: seq<Action>)
      requires exists mid :: Leads(start, run, mid) && Leads(mid, more, end)
      ensures Leads(start, longer, end) && Own(longer, me) == Own(run, me) + Own(more, me)
    {
      var mid :| Leads(start, run, mid) && Leads(mid, more, end);
      Then(start, run, mid, more, end);
      FilterAppend(run, more, Mine(me));
      longer := run + more;
    }

    /** Releases one permit: an unused one, one whose creation failed, or a returned connection's. */
    method ReleasePermit(me: nat)
      requires me < |clients| && (clients[me].Owing? || clients[me] == Creating || clients[me] == Returning)
      modifies this
      ensures View() == Apply(old(View()), Released(me, old(clients[me])))
      ensures me < |clients| && book == old(book)
      ensures clients[me] == if old(clients[me]).Owing? then Holding(old(clients[me]).conn) else Left
    {
      capacity := capacity + 1;
      clients := clients[me := if clients[me].Owing? then Holding(clients[me].conn) else Left];
    }

    method PushBack(me: nat)
      requires me < |clients| && clients[me].Holding?
      modifies this
      ensures View() == Apply(old(View()), GiveBack(me))
      ensures me < |clients| && clients[me] == Returning && book.returned == old(book.returned) + 1
    {
      connections := connections + [clients[me].conn];
      clients := clients[me := Returning];
      book := book.(returned := book.returned + 1);
    }

    /** Acquire from the permit on: look again, else create. */
    method Finish(me: nat, c: Chances) returns (r: Acquired, ghost run: seq<Action>)
      requires Consistent() && |c.gaps| == 4 && me < |clients| && clients[me] == Checking
      modifies this
      ensures Consistent() && Leads(old(View()), run, View())
      ensures FinishSteps(me, Own(run, Session(me)), r)
      ensures Own(run, Session(me)) == [Recheck(me), GiveUnused(me)] || (r.Got? <==> c.creates)
      ensures me < |clients| && clients[me] == if r.Got? then Holding(r.conn) else Left
      ensures r.Got? ==> r.conn in book.live && r.conn !in connections
    {
      hide Inv, Apply, Leads, Own;
      ghost var start := View();
      run := Others(Session(me), c.gaps[2]);
      ghost var before := View();
      var found := TakeFront(me);
      run := Extend(Session(me), start, run, before, Recheck(me));
      ghost var between := Others(Session(me), c.gaps[3]);
      run := Join(Session(me), start, run, between, View());
      before := View();
      if found || !c.creates {
        ReleasePermit(me);
        run := Extend(Session(me), start, run, before, Released(me, before.clients[me]));
      } else {
        Create(me);
        run := Extend(Session(me), start, run, before, CreateWorks(me));
      }
      r := Outcome(me);
    }

    /** The factory made a connection: it goes to the session, which keeps its permit spent. */
    method Create(me: nat)
      requires me < |clients| && clients[me] == Creating
      modifies this
      ensures View() == Apply(old(View()), CreateWorks(me)) && me < |clients| && clients[me].Holding?
    {
      var conn := book.next;
      book := MakeConn(book).(created := book.created + 1);
      clients := clients[me := Holding(conn)];
    }

    method Outcome(me: nat) returns (r: Acquired)
      requires Consistent() && me < |clients| && (clients[me].Holding? || clients[me] == Left)
      ensures clients[me] == if r.Got? then Holding(r.conn) else Left
      ensures r.Got? ==> r.conn in book.live && r.conn !in connections
      ensures !r.Got? ==> r == Failed
    {
      if clients[me].Holding? {
        r := Got(clients[me].conn);
        HolderAlone(View(), me);
      } else {
        r := Failed;
      }
    }

    /** The releaser: push under the lock, then release a permit. */
    method GiveBackConnection(me: nat, gap: seq<Action>) returns (ghost run: seq<Action>)
      requires Consistent() && me < |clients| && clients[me].Holding?
      modifies this
      ensures Consistent() && Leads(old(View()), run, View())
      ensures me < |clients| && clients[me] == Left
      ensures Own(run, Session(me)) == [GiveBack(me), Action.ReleasePermit(me)]
      ensures book.returned > old(book.returned)
    {
      hide Inv, Apply, Leads, Own;
      ghost var start := View();
      Stay(start);
      PushBack(me);
      run := Extend(Session(me), start, [], start, GiveBack(me));
      ghost var middle := View();
      ghost var between := Others(Session(me), gap);
      ReturnedGrows(middle, between, View());
      run := Join(Session(me), start, run, between, View());
      ghost var before := View();
      ReleasePermit(me);
      run := Extend(Session(me), start, run, before, Action.ReleasePermit(me));
    }

    /** One filler: tries for a permit, creates, retries after a failed creation, pushes, and the one
        that saw the queue full announces the pool and expands it once. */
    method FillPool(me: nat, turns: seq<Turn>, gaps: seq<seq<Action>>)
      returns (ghost run: seq<Action>, ghost failures: nat, finished: bool)
      requires Consistent() && me < |fillers| && fillers[me] == Starting && |gaps| == 4
      modifies this
      ensures Consistent() && Leads(old(View()), run, View())
      ensures me < |fillers| && if finished then fillers[me].Done? else fillers[me] == Starting
      ensures failures <= |turns| && forall k | 0 <= k < failures :: !turns[k].stopped && !turns[k].creates
      ensures if finished
              then failures < |turns|
                   && FillerSteps(config, me, failures, turns[failures], Own(run, WarmUp(me)), fillers[me])
              else failures == |turns| && Own(run, WarmUp(me)) == Retries(me, failures)
    {
      hide Inv, Apply, Leads, Own, TurnSteps;
      ghost var start := View();
      Stay(start);
      run, failures, finished := [], 0, false;
      var k := 0;
      while k < |turns| && !finished
        invariant k <= |turns| && Consistent() && Leads(start, run, View())
        invariant me < |fillers| && if finished then fillers[me].Done? else fillers[me] == Starting
        invariant failures <= |turns| && forall j | 0 <= j < failures :: !turns[j].stopped && !turns[j].creates
        invariant if finished
                  then failures < |turns|
                       && FillerSteps(config, me, failures, turns[failures], Own(run, WarmUp(me)), fillers[me])
                  else failures == k && Own(run, WarmUp(me)) == Retries(me, failures)
        decreases |turns| - k
      {
        ghost var more, own := [], Own(run, WarmUp(me));
        more, finished := FillTurn(me, turns[k], gaps);
        run := Join(WarmUp(me), start, run, more, View());
        if finished {
          assert Own(run, WarmUp(me))[..|own|] == own && Own(run, WarmUp(me))[|own|..] == Own(more, WarmUp(me));
        } else {
          failures := failures + 1;
        }
        k := k + 1;
      }
    }

    /** The first step is decided at once: by the stop request, by the semaphore, by the creation. */
    method FillTurn(me: nat, turn: Turn, gaps: seq<seq<Action>>) returns (ghost run: seq<Action>, finished: bool)
      requires Consistent() && me < |fillers| && fillers[me] == Starting && |gaps| == 4
      modifies this
      ensures Consistent() && Leads(old(View()), run, View())
      ensures me < |fillers| && if finished then fillers[me].Done? else fillers[me] == Starting
      ensures
        var own := Own(run, WarmUp(me));
        if finished then TurnSteps(config, me, turn, own, fillers[me])
        else own == [TryFill(me), FillFails(me)] && !turn.stopped && !turn.creates
      ensures Own(run, WarmUp(me)) == [MissFill(me)] <==> !turn.stopped && (turn.misses || old(capacity) == 0)
    {
      hide Inv, Apply, Leads, Own;
      ghost var start := View();
      Stay(start);
      var taken := TryFillPermit(me, turn);
      run := Extend(WarmUp(me), start, [], start,
                    if taken then TryFill(me) else if turn.stopped then Stop(me) else MissFill(me));
      finished := !taken;
      if taken {
        ghost var between;
        between, finished := CreateAndPush(me, turn, gaps);
        run := Join(WarmUp(me), start, run, between, View());
        ghost var own := Own(run, WarmUp(me));
        assert own[0] == TryFill(me) && own[1..] == Own(between, WarmUp(me));
      }
    }

    /** From the permit on. */
    method CreateAndPush(me: nat, turn: Turn, gaps: seq<seq<Action>>) returns (ghost run: seq<Action>, pushed: bool)
      requires Consistent() && me < |fillers| && fillers[me] == Filling && |gaps| == 4
      modifies this
      ensures Consistent() && Leads(old(View()), run, View()) && pushed == turn.creates
      ensures me < |fillers| && if pushed then fillers[me].Done? else fillers[me] == Starting
      ensures
        var own := Own(run, WarmUp(me));
        if pushed then own != [] && own[0] == FillWorks(me) && FillEnd(config, me, own[1..], fillers[me])
        else own == [FillFails(me)]
    {
      hide Inv, Apply, Leads, Own;
      ghost var start := View();
      run := Others(WarmUp(me), turn.during);
      ghost var before := View();
      CreateForQueue(me, turn.creates);
      run := Extend(WarmUp(me), start, run, before, if turn.creates then FillWorks(me) else FillFails(me));
      ghost var between := Others(WarmUp(me), turn.after);
      run := Join(WarmUp(me), start, run, between, View());
      pushed := turn.creates;
      if pushed {
        between := FinishFilling(me, gaps);
        run := Join(WarmUp(me), start, run, between, View());
        ghost var own := Own(run, WarmUp(me));
        assert own[0] == FillWorks(me) && own[1..] == Own(between, WarmUp(me));
      }
    }

    /** A failed creation puts the permit back, and the filler starts again. */
    method CreateForQueue(me: nat, works: bool)
      requires me < |fillers| && fillers[me] == Filling
      modifies this
      ensures View() == Apply(old(View()), if works then FillWorks(me) else FillFails(me))
      ensures me < |fillers| && if works then fillers[me].Made? else fillers[me] == Starting
    {
      if works {
        var conn := book.next;
        book := MakeConn(book).(warmed := book.warmed + 1);
        fillers := fillers[me := Made(conn)];
      } else {
        capacity := capacity + 1;
        fillers := fillers[me := Starting];
      }
    }

    method TryFillPermit(me: nat, turn: Turn) returns (taken: bool)
      requires me < |fillers| && fillers[me] == Starting
      modifies this
      ensures taken == (!turn.stopped && !turn.misses && old(capacity) > 0)
      ensures me < |fillers| && fillers[me] == if taken then Filling else Done(false)
      ensures View() == Apply(old(View()),
              if taken then TryFill(me) else if turn.stopped then Stop(me) else MissFill(me))
    {
      taken := !turn.stopped && !turn.misses && capacity > 0;
      if taken {
        capacity := capacity - 1;
        fillers := fillers[me := Filling];
      } else {
        fillers := fillers[me := Done(false)];
      }
    }

    method FinishFilling(me: nat, gaps: seq<seq<Action>>) returns (ghost run: seq<Action>)
      requires Consistent() && me < |fillers| && fillers[me].Made? && |gaps| == 4
      modifies this
      ensures Consistent() && Leads(old(View()), run, View())
      ensures me < |fillers| && FillEnd(config, me, Own(run, WarmUp(me)), fillers[me])
    {
      hide Inv, Apply, Leads, Own;
      ghost var start := View();
      Stay(start);
      PushMade(me);
      run := Extend(WarmUp(me), start, [], start, Push(me));
      ghost var between := Others(WarmUp(me), gaps[0]);
      run := Join(WarmUp(me), start, run, between, View());
      ghost var before := View();
      ReleaseFillPermit(me);
      run := Extend(WarmUp(me), start, run, before, Release(me));
      ghost var own := Own(run, WarmUp(me));
      assert own == [Push(me), Release(me)] && own[..2] == own;
      if fillers[me] == Announcing {
        between := AnnounceAndExpand(me, gaps);
        run := Join(WarmUp(me), start, run, between, View());
        assert Own(run, WarmUp(me))[..2] == own && Own(run, WarmUp(me))[2..] == Own(between, WarmUp(me));
      }
    }

    method ReleaseFillPermit(me: nat)
      requires me < |fillers| && fillers[me].Pushed?
      modifies this
      ensures View() == Apply(old(View()), Release(me))
      ensures me < |fillers| && fillers[me] == if old(fillers[me]).full then Announcing else Done(false)
    {
      capacity := capacity + 1;
      fillers := fillers[me := if fillers[me].full then Announcing else Done(false)];
    }

    method PushMade(me: nat)
      requires me < |fillers| && fillers[me].Made?
      modifies this
      ensures View() == Apply(old(View()), Push(me)) && me < |fillers| && fillers[me].Pushed?
    {
      connections := connections + [fillers[me].conn];
      var isFull := |connections| == config.initSize;
      fillers := fillers[me := Pushed(isFull)];
    }

    method AnnounceAndExpand(me: nat, gaps: seq<seq<Action>>) returns (ghost run: seq<Action>)
      requires Consistent() && me < |fillers| && fillers[me] == Announcing && |gaps| == 4
      modifies this
      ensures Consistent() && Leads(old(View()), run, View())
      ensures me < |fillers| && fillers[me] == Done(true) && Opens(config, me, Own(run, WarmUp(me)))
    {
      hide Inv, Apply, Leads, Own;
      ghost var start := View();
      run := Others(WarmUp(me), gaps[1]);
      ghost var before := View();
      SetReady(me);
      run := Extend(WarmUp(me), start, run, before, Announce(me));
      if fillers[me] == Expanding {
        ghost var between := ExpandOnce(me, gaps);
        run := Join(WarmUp(me), start, run, between, View());
      }
    }

    method SetReady(me: nat)
      requires me < |fillers| && fillers[me] == Announcing
      modifies this
      ensures View() == Apply(old(View()), Announce(me))
      ensures me < |fillers| && fillers[me] == if config.maxSize > config.initSize then Expanding else Done(true)
    {
      ready := true;
      fillers := fillers[me := if config.maxSize > config.initSize then Expanding else Done(true)];
    }

    /** The exchange of the expanded flag decides who releases the extra permits. */
    method ExpandOnce(me: nat, gaps: seq<seq<Action>>) returns (ghost run: seq<Action>)
      requires Consistent() && me < |fillers| && fillers[me] == Expanding && |gaps| == 4
      modifies this
      ensures Consistent() && Leads(old(View()), run, View())
      ensures me < |fillers| && fillers[me] == Done(true)
      ensures Own(run, WarmUp(me)) == [Expand(me)] || Own(run, WarmUp(me)) == [Expand(me), Grant(me)]
    {
      hide Inv, Apply, Leads, Own;
      ghost var start := View();
      run := Others(WarmUp(me), gaps[2]);
      ghost var before := View();
      ExchangeExpanded(me);
      run := Extend(WarmUp(me), start, run, before, Expand(me));
      if fillers[me] == Granting {
        ghost var between := GrantLater(me, gaps[3]);
        run := Join(WarmUp(me), start, run, between, View());
      }
    }

    method GrantLater(me: nat, gap: seq<Action>) returns (ghost run: seq<Action>)
      requires Consistent() && me < |fillers| && fillers[me] == Granting
      modifies this
      ensures Consistent() && Leads(old(View()), run, View())
      ensures me < |fillers| && fillers[me] == Done(true) && Own(run, WarmUp(me)) == [Grant(me)]
    {
      hide Inv, Apply, Leads, Own;
      ghost var start := View();
      run := Others(WarmUp(me), gap);
      ghost var before := View();
      GrantExtra(me);
      run := Extend(WarmUp(me), start, run, before, Grant(me));
    }

    /** Only the filler that finds the flag unset goes on to release permits. */
    method ExchangeExpanded(me: nat)
      requires me < |fillers| && fillers[me] == Expanding
      modifies this
      ensures View() == Apply(old(View()), Expand(me)) && expanded
      ensures me < |fillers| && fillers[me] == if old(expanded) then Done(true) else Granting
    {
      var was := expanded;
      expanded := true;
      fillers := fillers[me := if was then Done(true) else Granting];
    }

    method GrantExtra(me: nat)
      requires me < |fillers| && fillers[me] == Granting
      modifies this
      ensures View() == Apply(old(View()), Grant(me))
      ensures me < |fillers| && fillers[me] == Done(true)
    {
      capacity := capacity + Extra(config);
      book := book.(granted := book.granted + Extra(config));
      fillers := fillers[me := Done(true)];
    }
  }

  function Released(me: nat, phase: Client): Action {
    if phase.Owing? then GiveUnused(me) else if phase == Creating then CreateFails(me) else Action.ReleasePermit(me)
  }

  /** The connection a session holds is live and in no other place. */
  lemma HolderAlone(s: State, me: nat)
    requires Inv(s) && me < |s.clients| && s.clients[me].Holding?
    ensures s.clients[me].conn in s.book.live && s.clients[me].conn !in s.queue
  {
    var c := s.clients[me].conn;
    SumAtLeast(s.clients, me, Has(c));
    assert Places(s, c) == 1;
    if c in s.queue {
      var k :| 0 <= k < |s.queue| && s.queue[k] == c;
      SumAtLeast(s.queue, k, Is(c));
    }
  }

  lemma ReturnedGrows(s: State, acts: seq<Action>, t: State)
    requires Leads(s, acts, t)
    ensures t.book.returned >= s.book.returned
  {
    ReturnedRun(s, acts);
  }

  lemma {:induction false} ReturnedRun(s: State, acts: seq<Action>)
    requires Valid(s, acts)
    ensures Exec(s, acts).book.returned >= s.book.returned
    decreases |acts|
  {
    if acts != [] { ReturnedRun(Apply(s, acts[0]), acts[1..]); }
  }
}
