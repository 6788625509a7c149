/** The client's code: the request queue, the callback queue, the idle counter and the overflow list,
    changed one lock section or atomic access at a time, with other threads' steps in between. */
module PostgresClient {
  import opened Sequences
  import opened ClientProtocol
  import opened ClientRuns

  /** Schedules for the gaps of one delivery: before the call or the look at the idle counter, and
      between that look and the hand-over. */
  datatype Gaps = Gaps(first: seq<Action>, second: seq<Action>)

  const NO_GAPS := Gaps([], [])

  /** What the environment decides in one turn of the worker's loop: a heartbeat falling due, the
      query's success, and the other threads' steps in every gap, those of a drain one by one. */
  datatype Turn = Turn(
    beat: bool, works: bool, begin: seq<Action>, head: seq<Action>, wait: seq<Action>, work: seq<Action>,
    post: Gaps, drain: seq<Gaps>, between: seq<seq<Action>>)

  /** One turn of a callback worker. */
  datatype CallbackGaps = CallbackGaps(before: seq<Action>, wait: seq<Action>, work: seq<Action>)

  // ---- The steps a turn takes itself ----

  /** What a turn of the worker's loop comes to. */
  datatype Round =
    | Leave                                              // told to stop at the loop head
    | Beats                                              // a heartbeat
    | StillWaiting
    | Lapse                                              // the wait ended with the heartbeat falling due
    | Serve(request: Request, works: bool, queued: bool)
    | DrainOut(requests: seq<Request>, routes: seq<bool>)

  /** Queued tells which way a callback that is not called directly went. */
  function DeliverySteps(r: Request, queued: bool): seq<Action> {
    if r.direct then [Call] else [Decide, if queued then Queue else Register]
  }

  function DrainedSteps(rs: seq<Request>, queued: seq<bool>): seq<Action>
    requires |rs| == |queued|
    decreases |rs|
  {
    if rs == [] then []
    else
      var n := |rs| - 1;
      DrainedSteps(rs[..n], queued[..n]) + [NextDrained] + DeliverySteps(rs[n], queued[n])
  }

  predicate Proper(x: Round) { x.DrainOut? ==> |x.requests| == |x.routes| }

  /** The worker's steps behind the test at the loop head. */
  function Behind(x: Round): seq<Action>
    requires Proper(x)
  {
    match x
    case Leave => []
    case Beats => [Beat, BeatOver]
    case StillWaiting => [Wait]
    case Lapse => [Wait, Nothing]
    case Serve(r, works, queued) => [Wait, Take, Execute(works)] + DeliverySteps(r, queued)
    case DrainOut(rs, queued) => [Wait, StartDrain] + DrainedSteps(rs, queued) + [NextDrained]
  }

  function RoundEnd(x: Round): Worker {
    match x
    case Leave => Exited(false)
    case DrainOut(_, _) => Exited(true)
    case StillWaiting => Waiting
    case _ => AtHead
  }

  function ShutDown(rs: seq<Request>): seq<Task> {
    seq(|rs|, k requires 0 <= k < |rs| => Task(rs[k], ShuttingDown))
  }

  function RoundAnswers(x: Round): seq<Task> {
    match x
    case Serve(r, works, _) => [Task(r, if works then Success else QueryError)]
    case DrainOut(rs, _) => ShutDown(rs)
    case _ => []
  }

  /** The worker's steps over several turns, and what they answer. */
  function RoundsSteps(xs: seq<Round>): seq<Action>
    requires forall x <- xs :: Proper(x)
  {
    if xs == [] then [] else RoundsSteps(xs[..|xs| - 1]) + ([Head] + Behind(xs[|xs| - 1]))
  }

  function RoundsAnswers(xs: seq<Round>): seq<Task> {
    if xs == [] then [] else RoundsAnswers(xs[..|xs| - 1]) + RoundAnswers(xs[|xs| - 1])
  }

  /** The steps of a callback worker's turn, by where it is after it. */
  function CallbackSteps(i: nat, end: CbWorker): seq<Action> {
    match end
    case Idle => [Enter(i)]
    case Gone => [Enter(i), Wake(i)]
    case _ => [Enter(i), Wake(i), Action.Finish(i)]
  }

  function Served(i: nat, n: nat): seq<Action> {
    if n == 0 then [] else Served(i, n - 1) + [Enter(i), Wake(i), Action.Finish(i)]
  }

  /** The destructor's steps, in its order. */
  const DESTRUCTION: seq<Action> := [StopWorker, JoinWorker, JoinOverflow, StopPool, JoinPool]

  function GapsAt(gaps: seq<Gaps>, k: nat): Gaps { if k < |gaps| then gaps[k] else NO_GAPS }

  function ScheduleAt(schedules: seq<seq<Action>>, k: nat): seq<Action> {
    if k < |schedules| then schedules[k] else []
  }

  class Client {
    const heartbeat: bool
    var accepted: seq<Request>
    var requests: seq<Request>
    var answers: seq<Task>
    var drainedFrom: nat
    var worker: Worker
    var stop: bool
    var cbQueue: seq<Task>
    var idle: int
    var cbStop: bool
    var cbWorkers: seq<CbWorker>
    var overflow: seq<Overflow>
    var ran: seq<Task>
    var destruction: Destruction

    function View(): State
      reads this
    {
      State(heartbeat, accepted, requests, answers, drainedFrom, worker, stop,
            cbQueue, idle, cbStop, cbWorkers, overflow, ran, destruction)
    }

    ghost predicate Consistent()
      reads this
    {
      Inv(View())
    }

    constructor Connect(beats: bool, cbThreads: nat)
      ensures View() == Connected(beats, cbThreads) && Consistent()
    {
      heartbeat := beats;
      accepted, requests, answers, drainedFrom := [], [], [], 0;
      worker, stop := AtHead, false;
      cbQueue, idle, cbStop, cbWorkers := [], 0, false, seq(cbThreads, i => Entering);
      overflow, ran, destruction := [], [], NotYet;
      new;
      ConnectedInv(beats, cbThreads);
    }

    method Perform(a: Action)
      requires Enabled(View(), a)
      modifies this
      ensures View() == Apply(old(View()), a)
    {
      SettingKept(View(), a);
      hide Enabled, Apply;
      Become(Apply(View(), a));
    }

    method Become(next: State)
      requires next.heartbeat == heartbeat
      modifies this
      ensures View() == next
    {
      accepted, requests, answers, drainedFrom := next.accepted, next.pending, next.answers, next.drainedFrom;
      worker, stop, destruction := next.worker, next.stop, next.destruction;
      BecomePool(next.queue, next.idle, next.poolStop, next.workers, next.overflow, next.ran);
    }

    method BecomePool(q: seq<Task>, n: int, told: bool, ws: seq<CbWorker>, threads: seq<Overflow>, done: seq<Task>)
      modifies this`cbQueue, this`idle, this`cbStop, this`cbWorkers, this`overflow, this`ran
      ensures cbQueue == q && idle == n && cbStop == told && cbWorkers == ws && overflow == threads && ran == done
    {
      cbQueue, idle, cbStop, cbWorkers, overflow, ran := q, n, told, ws, threads, done;
    }

    /** Steps of the other threads; those not possible when their turn comes are passed over. */
    method Others(me: Actor, schedule: seq<Action>) returns (ghost run: seq<Action>)
      requires Consistent()
      modifies this
      ensures Consistent() && Leads(old(View()), run, View()) && Unmoved(me, old(View()), View())
      ensures Own(run, me) == [] && View() == Played(old(View()), me, schedule)
    {
      hide Enabled, Apply, Inv, Who, Own;
      run := [];
      ghost var start := View();
      for k := 0 to |schedule|
        invariant Consistent() && Leads(start, run, View()) && Unmoved(me, start, View())
        invariant Own(run, me) == [] && View() == Played(start, me, schedule[..k])
      {
        var a := schedule[k];
        assert schedule[..k + 1][..k] == schedule[..k];
        if Enabled(View(), a) && Who(a) != me {
          ghost var before := View();
          OneMoves(me, before, a);
          Perform(a);
          run := Extend(me, start, run, before, a);
        }
      }
      assert schedule[..|schedule|] == schedule;
    }

    ghost method Extend(me: Actor, start: State, run: seq<Action>, before: State, a: Action)
      returns (longer: seq<Action>)
      requires Leads(start, run, before) && Inv(before) && Enabled(before, a) && View() == Apply(before, a)
      ensures Leads(start, longer, View()) && Consistent()
      ensures Own(longer, me) == Own(run, me) + if Who(a) == me then [a] else []
    {
      FilterAppend(run, [a], Mine(me));
      FilterOne(a, Mine(me));
      One(before, a);
      Then(start, run, before, [a], View());
      RunInv(before, [a]);
      longer := run + [a];
    }

    ghost method Join(me: Actor, start: State, run: seq<Action>, mid: State, more: seq<Action>)
      returns (longer: seq<Action>)
      requires Leads(start, run, mid) && Leads(mid, more, View())
      ensures Leads(start, longer, View()) && Own(longer, me) == Own(run, me) + Own(more, me)
    {
      FilterAppend(run, more, Mine(me));
      Then(start, run, mid, more, View());
      longer := run + more;
    }

    /** SendToWorker (direct) and EnqueueAsync: append under the lock. */
    method Enqueue(direct: bool)
      requires destruction != Destroyed
      modifies this
      ensures View() == Apply(old(View()), Submit(direct))
      ensures requests == old(requests) + [Request(|old(accepted)|, direct)]
    {
      var request := Request(|accepted|, direct);
      accepted := accepted + [request];
      requests := requests + [request];
    }

    /** Erases the finished threads of the list: an erased entry is marked, to keep its place. */
    method ReapOverflowThreads()
      modifies this`overflow
      ensures overflow == ReapAll(old(overflow)) && |overflow| == |old(overflow)|
      ensures forall j | 0 <= j < |overflow| ::
        var o := old(overflow)[j];
        overflow[j] == if o.listed && o.done then o.(erased := true) else o
    {
      var j := 0;
      while j < |overflow|
        invariant 0 <= j <= |overflow| == |old(overflow)|
        invariant forall k | 0 <= k < j :: overflow[k] == Reap(old(overflow)[k])
        invariant forall k | j <= k < |overflow| :: overflow[k] == old(overflow)[k]
      {
        if overflow[j].listed && overflow[j].done {
          overflow := overflow[j := overflow[j].(erased := true)];
        }
        j := j + 1;
      }
    }

    /** The worker's lock section behind the wait: drain when told to stop, else take the front. */
    method TakeOrDrain() returns (a: Action)
      requires worker == Waiting && (stop || requests != [] || heartbeat)
      modifies this
      ensures a == (if old(stop) then StartDrain else if old(requests) == [] then Nothing else Take)
      ensures a == StartDrain ==> worker == Draining(old(requests))
      ensures a == Nothing ==> worker == AtHead
      ensures a == Take ==> worker == Executing(old(requests)[0])
      ensures answers == old(answers)
      ensures View() == Apply(old(View()), a)
    {
      if stop {
        var swapped := requests;
        requests, worker, drainedFrom := [], Draining(swapped), |answers|;
        a := StartDrain;
      } else if requests == [] {
        worker := AtHead;
        a := Nothing;
      } else {
        worker := Executing(requests[0]);
        requests := requests[1..];
        a := Take;
      }
    }

    /** Calls a direct request's callback, posts any other's: one answer more. */
    method Deliver(gaps: Gaps) returns (ghost run: seq<Action>, ghost queued: bool)
      requires Consistent() && worker.Delivering?
      modifies this
      ensures Consistent() && Leads(old(View()), run, View()) && worker == Resume(old(worker).after)
      ensures Own(run, DatabaseWorker) == DeliverySteps(old(worker).task.request, queued)
      ensures answers == old(answers) + [old(worker).task]
    {
      hide Inv, Apply, Leads, Own;
      ghost var start := View();
      run := Others(DatabaseWorker, gaps.first);
      ghost var mid := View();
      if worker.task.request.direct {
        CallBack();
        run := Extend(DatabaseWorker, start, run, mid, Call);
        queued := false;
      } else {
        ghost var more;
        more, queued := PostCallback(gaps.second);
        run := Join(DatabaseWorker, start, run, mid, more);
      }
    }

    method CallBack()
      requires worker.Delivering? && worker.task.request.direct
      modifies this
      ensures View() == Apply(old(View()), Call) && worker == Resume(old(worker).after)
      ensures answers == old(answers) + [old(worker).task]
    {
      answers, worker := answers + [worker.task], Resume(worker.after);
    }

    /** To its own thread when no callback worker is idle, else to the queue. The database worker is
        no callback thread, so the route that runs the callback inline is never taken. */
    method PostCallback(gap: seq<Action>) returns (ghost run: seq<Action>, ghost queued: bool)
      requires Consistent() && worker.Delivering? && !worker.task.request.direct
      modifies this
      ensures Consistent() && Leads(old(View()), run, View()) && worker == Resume(old(worker).after)
      ensures Own(run, DatabaseWorker) == [Decide, if queued then Queue else Register] && queued == (old(idle) != 0)
      ensures answers == old(answers) + [old(worker).task]
    {
      hide Inv, Apply, Leads, Own;
      ghost var start := View();
      Stay(start);
      queued := idle != 0;
      ChooseRoute();
      run := Extend(DatabaseWorker, start, [], start, Decide);
      ghost var mid := View();
      ghost var between := Others(DatabaseWorker, gap);
      run := Join(DatabaseWorker, start, run, mid, between);
      mid := View();
      if worker.Queueing? {
        PushCallback();
        run := Extend(DatabaseWorker, start, run, mid, Queue);
      } else {
        ThreadListable();
        ListThread();
        run := Extend(DatabaseWorker, start, run, mid, Register);
      }
    }

    /** One read of the idle counter: none idle, it starts on a thread of its own at once. */
    method ChooseRoute()
      requires worker.Delivering? && !worker.task.request.direct
      modifies this
      ensures View() == Apply(old(View()), Decide)
      ensures worker == if idle != 0 then Queueing(old(worker).task, old(worker).after)
                        else Registering(old(|overflow|), old(worker).after)
      ensures idle == old(idle) && answers == old(answers) + if idle != 0 then [] else [old(worker).task]
    {
      if idle == 0 {
        answers := answers + [worker.task];
        overflow, worker :=
          overflow + [Overflow(worker.task, false, false, false, false)], Registering(|overflow|, worker.after);
      } else {
        worker := Queueing(worker.task, worker.after);
      }
    }

    lemma ThreadListable()
      requires Consistent() && worker.Registering?
      ensures worker.thread < |overflow|
    {
    }

    method PushCallback()
      requires worker.Queueing?
      modifies this
      ensures View() == Apply(old(View()), Queue) && worker == Resume(old(worker).after)
      ensures answers == old(answers) + [old(worker).task]
    {
      cbQueue, answers := cbQueue + [worker.task], answers + [worker.task];
      worker := Resume(worker.after);
    }

    method ListThread()
      requires worker.Registering? && worker.thread < |overflow|
      modifies this
      ensures View() == Apply(old(View()), Register) && worker == Resume(old(worker).after)
      ensures answers == old(answers)
    {
      var j, thread := worker.thread, overflow[worker.thread];
      ReapOverflowThreads();
      overflow := overflow[j := thread.(listed := true)];
      worker := Resume(worker.after);
    }

    /** The drain: every swapped-out request gets the shutting-down error, in order, with other
        threads' steps before and during each delivery. */
    method DrainAll(between: seq<seq<Action>>, gaps: seq<Gaps>)
      returns (ghost run: seq<Action>, ghost queued: seq<bool>)
      requires Consistent() && worker.Draining?
      modifies this
      ensures Consistent() && Leads(old(View()), run, View()) && worker == Exited(true)
      ensures |queued| == |old(worker).rest|
      ensures Own(run, DatabaseWorker) == DrainedSteps(old(worker).rest, queued) + [NextDrained]
      ensures answers == old(answers) + ShutDown(old(worker).rest)
    {
      hide Inv, Apply, Leads, Own, Who, DrainedSteps, DeliverySteps, ShutDown;
      ghost var start, all, before := View(), worker.rest, answers;
      Stay(start);
      NoneYet(all);
      run, queued := [], [];
      var k := 0;
      while worker.rest != []
        invariant Consistent() && Leads(start, run, View()) && worker.Draining?
        invariant k <= |all| && worker.rest == all[k..] && |queued| == k
        invariant Own(run, DatabaseWorker) == DrainedSteps(all[..k], queued)
        invariant answers == before + ShutDown(all[..k])
        decreases |worker.rest|
      {
        ghost var mid := View();
        ghost var more, q := DrainOne(ScheduleAt(between, k), GapsAt(gaps, k));
        run := Join(DatabaseWorker, start, run, mid, more);
        OneMore(all, k, queued, q);
        queued := queued + [q];
        k := k + 1;
      }
      assert all[..k] == all;
      ghost var mid := View();
      ghost var more := Others(DatabaseWorker, ScheduleAt(between, k));
      run := Join(DatabaseWorker, start, run, mid, more);
      mid := View();
      NextOrLeave();
      NextDrainedOwn();
      run := Extend(DatabaseWorker, start, run, mid, NextDrained);
    }

    static lemma NoneYet(all: seq<Request>)
      ensures DrainedSteps(all[..0], []) == [] && ShutDown(all[..0]) == []
    {
    }

    static lemma OneMore(all: seq<Request>, k: nat, queued: seq<bool>, q: bool)
      requires k < |all| && |queued| == k
      ensures DrainedSteps(all[..k + 1], queued + [q]) ==
              DrainedSteps(all[..k], queued) + ([NextDrained] + DeliverySteps(all[k], q))
      ensures ShutDown(all[..k + 1]) == ShutDown(all[..k]) + [Task(all[k], ShuttingDown)]
    {
      hide DeliverySteps, ShutDown;
      var rs, routes := all[..k + 1], queued + [q];
      assert rs[..k] == all[..k] && routes[..k] == queued && rs[k] == all[k] && routes[k] == q;
      DrainedLast(rs, routes);
      OneMoreAnswer(all, k);
    }

    static lemma DrainedLast(rs: seq<Request>, queued: seq<bool>)
      requires |rs| == |queued| > 0
      ensures
        var n := |rs| - 1;
        DrainedSteps(rs, queued) ==
        DrainedSteps(rs[..n], queued[..n]) + ([NextDrained] + DeliverySteps(rs[n], queued[n]))
    {
      hide DeliverySteps;
    }

    static lemma OneMoreAnswer(all: seq<Request>, k: nat)
      requires k < |all|
      ensures ShutDown(all[..k + 1]) == ShutDown(all[..k]) + [Task(all[k], ShuttingDown)]
    {
    }

    lemma NextDrainedOwn()
      ensures Who(NextDrained) == DatabaseWorker
    {
    }

    method NextOrLeave()
      requires worker.Draining?
      modifies this
      ensures View() == Apply(old(View()), NextDrained)
      ensures worker == if old(worker).rest == [] then Exited(true)
                        else Delivering(Task(old(worker).rest[0], ShuttingDown), Drain(old(worker).rest[1..]))
      ensures answers == old(answers)
    {
      if worker.rest == [] {
        worker := Exited(true);
      } else {
        worker := Delivering(Task(worker.rest[0], ShuttingDown), Drain(worker.rest[1..]));
      }
    }

    method DrainOne(between: seq<Action>, gaps: Gaps) returns (ghost run: seq<Action>, ghost queued: bool)
      requires Consistent() && worker.Draining? && worker.rest != []
      modifies this
      ensures Consistent() && Leads(old(View()), run, View()) && worker == Draining(old(worker).rest[1..])
      ensures Own(run, DatabaseWorker) == [NextDrained] + DeliverySteps(old(worker).rest[0], queued)
      ensures answers == old(answers) + [Task(old(worker).rest[0], ShuttingDown)]
    {
      hide Inv, Apply, Leads, Own;
      ghost var start := View();
      run := Others(DatabaseWorker, between);
      ghost var mid := View();
      NextOrLeave();
      run := Extend(DatabaseWorker, start, run, mid, NextDrained);
      mid := View();
      ghost var more;
      more, queued := Deliver(gaps);
      run := Join(DatabaseWorker, start, run, mid, more);
    }

    /** One turn of the worker's loop: whatever the other threads do, its own steps are those of one
        kind of round, it answers what that round answers, and ends where that round ends. A worker
        still waiting when the schedule of its wait ends is left there. */
    method WorkerTurn(t: Turn) returns (ghost run: seq<Action>, ghost round: Round)
      requires Consistent() && worker == AtHead
      modifies this
      ensures Consistent() && Leads(old(View()), run, View())
      ensures Proper(round) && Own(run, DatabaseWorker) == [Head] + Behind(round) && worker == RoundEnd(round)
      ensures answers == old(answers) + RoundAnswers(round)
      ensures !round.Leave? ==> (round.Beats? <==> heartbeat && t.beat)
      ensures round.StillWaiting? ==> !heartbeat && !stop && requests == []
      ensures round.Serve? ==> round.works == t.works
    {
      hide Inv, Apply, Leads, Own;
      ghost var start := View();
      run := Others(DatabaseWorker, t.begin);
      ghost var mid := View();
      TestStop();
      run := Extend(DatabaseWorker, start, run, mid, Head);
      round := Leave;
      if worker.Exited? {
        return;
      }
      mid := View();
      ghost var more := Others(DatabaseWorker, t.head);
      run := Join(DatabaseWorker, start, run, mid, more);
      mid := View();
      if heartbeat && t.beat {
        more := Heartbeat(t.work);
        round := Beats;
      } else {
        more, round := WaitAndServe(t);
      }
      run := Join(DatabaseWorker, start, run, mid, more);
    }

    /** The test at the loop head. */
    method TestStop()
      requires worker == AtHead
      modifies this
      ensures View() == Apply(old(View()), Head) && worker == (if stop then Exited(false) else Locking)
      ensures answers == old(answers)
    {
      worker := if stop then Exited(false) else Locking;
    }

    method StartWaiting()
      requires worker == Locking
      modifies this
      ensures View() == Apply(old(View()), Wait) && worker == Waiting && answers == old(answers)
    {
      worker := Waiting;
    }

    /** The wait, and what it is over for. */
    method WaitAndServe(t: Turn) returns (ghost run: seq<Action>, ghost round: Round)
      requires Consistent() && worker == Locking
      modifies this
      ensures Consistent() && Leads(old(View()), run, View())
      ensures !round.Leave? && !round.Beats? && Proper(round)
      ensures round.StillWaiting? ==> !heartbeat && !stop && requests == []
      ensures Own(run, DatabaseWorker) == Behind(round) && worker == RoundEnd(round)
      ensures answers == old(answers) + RoundAnswers(round)
      ensures round.Serve? ==> round.works == t.works
    {
      hide Inv, Apply, Leads, Own;
      ghost var start := View();
      Stay(start);
      StartWaiting();
      run := Extend(DatabaseWorker, start, [], start, Wait);
      ghost var mid := View();
      ghost var more := Others(DatabaseWorker, t.wait);
      run := Join(DatabaseWorker, start, run, mid, more);
      round := StillWaiting;
      if !stop && requests == [] && !heartbeat {
        return;
      }
      mid := View();
      more, round := ServeOrDrain(t);
      run := Join(DatabaseWorker, start, run, mid, more);
      WaitFirst(round);
    }

    lemma WaitFirst(x: Round)
      requires Proper(x) && (x.Lapse? || x.Serve? || x.DrainOut?)
      ensures Behind(x) == [Wait] + Behind(x)[1..]
    {
    }

    /** Behind the wait. */
    method ServeOrDrain(t: Turn) returns (ghost run: seq<Action>, ghost round: Round)
      requires Consistent() && worker == Waiting && (stop || requests != [] || heartbeat)
      modifies this
      ensures Consistent() && Leads(old(View()), run, View())
      ensures (round.Lapse? || round.Serve? || round.DrainOut?) && Proper(round)
      ensures Own(run, DatabaseWorker) == Behind(round)[1..] && worker == RoundEnd(round)
      ensures answers == old(answers) + RoundAnswers(round)
      ensures round.Serve? ==> round.works == t.works
      ensures round.DrainOut? <==> old(stop)
      ensures if old(stop) then round.requests == old(requests)
              else if old(requests) == [] then round.Lapse? else round.Serve? && round.request == old(requests)[0]
    {
      hide Inv, Apply, Leads, Own, DrainedSteps, DeliverySteps;
      ghost var start := View();
      Stay(start);
      var taken := TakeOrDrain();
      run := Extend(DatabaseWorker, start, [], start, taken);
      ghost var mid := View();
      round := Lapse;
      if worker.Draining? {
        ghost var rs := worker.rest;
        ghost var more, queued := DrainAll(t.between, t.drain);
        run := Join(DatabaseWorker, start, run, mid, more);
        round := DrainOut(rs, queued);
        DrainBehind(rs, queued);
      } else if worker.Executing? {
        ghost var r := worker.request;
        ghost var more, queued := ExecuteAndDeliver(t);
        run := Join(DatabaseWorker, start, run, mid, more);
        round := Serve(r, t.works, queued);
        ServeBehind(r, t.works, queued);
      }
    }

    static lemma DrainBehind(rs: seq<Request>, queued: seq<bool>)
      requires |rs| == |queued|
      ensures Behind(DrainOut(rs, queued))[1..] == [StartDrain] + (DrainedSteps(rs, queued) + [NextDrained])
    {
    }

    static lemma ServeBehind(r: Request, works: bool, queued: bool)
      ensures Behind(Serve(r, works, queued))[1..] == [Take] + ([Execute(works)] + DeliverySteps(r, queued))
    {
    }

    method Heartbeat(gap: seq<Action>) returns (ghost run: seq<Action>)
      requires Consistent() && worker == Locking && heartbeat
      modifies this
      ensures Consistent() && Leads(old(View()), run, View()) && worker == AtHead
      ensures Own(run, DatabaseWorker) == [Beat, BeatOver] && answers == old(answers)
    {
      hide Inv, Leads, Own;
      ghost var start := View();
      Stay(start);
      worker := Beating;
      run := Extend(DatabaseWorker, start, [], start, Beat);
      ghost var mid := View();
      ghost var more := Others(DatabaseWorker, gap);
      run := Join(DatabaseWorker, start, run, mid, more);
      mid := View();
      worker := AtHead;
      run := Extend(DatabaseWorker, start, run, mid, BeatOver);
    }

    method ExecuteAndDeliver(t: Turn) returns (ghost run: seq<Action>, ghost queued: bool)
      requires Consistent() && worker.Executing?
      modifies this
      ensures Consistent() && Leads(old(View()), run, View()) && worker == AtHead
      ensures Own(run, DatabaseWorker) == [Execute(t.works)] + DeliverySteps(old(worker).request, queued)
      ensures answers == old(answers) + [Task(old(worker).request, if t.works then Success else QueryError)]
    {
      hide Inv, Apply, Leads, Own;
      ghost var start := View();
      run := Others(DatabaseWorker, t.work);
      ghost var mid := View();
      ExecuteQuery(t.works);
      run := Extend(DatabaseWorker, start, run, mid, Execute(t.works));
      mid := View();
      ghost var more;
      more, queued := Deliver(t.post);
      run := Join(DatabaseWorker, start, run, mid, more);
    }

    method ExecuteQuery(works: bool)
      requires worker.Executing?
      modifies this
      ensures View() == Apply(old(View()), Execute(works))
      ensures worker == Delivering(Task(old(worker).request, if works then Success else QueryError), Loop)
      ensures answers == old(answers)
    {
      worker := Delivering(Task(worker.request, if works then Success else QueryError), Loop);
    }

    /** QueryWorker: rounds until it leaves or is left waiting, one for each turn; it answers what they
        answer, and stops early only where it no longer is at the loop head. */
    method QueryWorker(turns: seq<Turn>) returns (ghost run: seq<Action>, ghost rounds: seq<Round>)
      requires Consistent() && worker == AtHead
      modifies this
      ensures Consistent() && Leads(old(View()), run, View())
      ensures |rounds| <= |turns| && forall x <- rounds :: Proper(x)
      ensures Own(run, DatabaseWorker) == RoundsSteps(rounds) && answers == old(answers) + RoundsAnswers(rounds)
      ensures worker == if rounds == [] then AtHead else RoundEnd(rounds[|rounds| - 1])
      ensures |rounds| < |turns| ==> worker != AtHead
      ensures worker == Waiting ==> !heartbeat && !stop && requests == []
      ensures forall k | 0 <= k < |rounds| - 1 :: RoundEnd(rounds[k]) == AtHead
    {
      hide Inv, Apply, Leads, Own, Who, Behind, RoundAnswers;
      ghost var start, before := View(), answers;
      Stay(start);
      run, rounds := [], [];
      var k := 0;
      while k < |turns| && worker == AtHead
        invariant Consistent() && Leads(start, run, View())
        invariant k == |rounds| <= |turns| && forall x <- rounds :: Proper(x)
        invariant Own(run, DatabaseWorker) == RoundsSteps(rounds) && answers == before + RoundsAnswers(rounds)
        invariant worker == if rounds == [] then AtHead else RoundEnd(rounds[|rounds| - 1])
        invariant worker == Waiting ==> !heartbeat && !stop && requests == []
        invariant forall k | 0 <= k < |rounds| - 1 :: RoundEnd(rounds[k]) == AtHead
        decreases |turns| - k
      {
        ghost var mid := View();
        ghost var more, round := WorkerTurn(turns[k]);
        run := Join(DatabaseWorker, start, run, mid, more);
        assert (rounds + [round])[..|rounds|] == rounds;
        rounds := rounds + [round];
        k := k + 1;
      }
    }

    /** Under the lock, before the wait. */
    method CountIdle(i: nat)
      requires i < |cbWorkers| && cbWorkers[i] == Entering
      modifies this
      ensures View() == Apply(old(View()), Enter(i))
      ensures i < |cbWorkers| && cbWorkers[i] == Idle
    {
      idle := idle + 1;
      cbWorkers := cbWorkers[i := Idle];
    }

    /** Under the lock, behind the wait: take a task, or leave when there is none. */
    method TakeCallback(i: nat) returns (left: bool)
      requires i < |cbWorkers| && cbWorkers[i] == Idle && (cbStop || cbQueue != [])
      modifies this
      ensures View() == Apply(old(View()), Wake(i))
      ensures left == (old(cbQueue) == [])
      ensures i < |cbWorkers| && if left then cbWorkers[i] == Gone else cbWorkers[i].Running?
    {
      idle := idle - 1;
      left := cbQueue == [];
      if left {
        cbWorkers := cbWorkers[i := Gone];
      } else {
        cbWorkers := cbWorkers[i := Running(cbQueue[0])];
        cbQueue := cbQueue[1..];
      }
    }

    /** One turn of a callback worker. A worker still waiting when the schedule of its wait ends stays
        idle. */
    method CallbackTurn(i: nat, gaps: CallbackGaps) returns (ghost run: seq<Action>)
      requires Consistent() && i < |cbWorkers| && cbWorkers[i] == Entering
      modifies this
      ensures Consistent() && Leads(old(View()), run, View())
      ensures i < |cbWorkers| && cbWorkers[i] in {Entering, Idle, Gone}
      ensures Own(run, CallbackThread(i)) == CallbackSteps(i, cbWorkers[i])
      ensures cbWorkers[i] == Idle ==> !cbStop && cbQueue == []
    {
      hide Inv, Apply, Leads, Own;
      ghost var start := View();
      run := Others(CallbackThread(i), gaps.before);
      ghost var mid := View();
      CountIdle(i);
      run := Extend(CallbackThread(i), start, run, mid, Enter(i));
      mid := View();
      ghost var more := Others(CallbackThread(i), gaps.wait);
      run := Join(CallbackThread(i), start, run, mid, more);
      if cbStop || cbQueue != [] {
        mid := View();
        more := TakeAndRun(i, gaps.work);
        run := Join(CallbackThread(i), start, run, mid, more);
      }
    }

    method TakeAndRun(i: nat, work: seq<Action>) returns (ghost run: seq<Action>)
      requires Consistent() && i < |cbWorkers| && cbWorkers[i] == Idle && (cbStop || cbQueue != [])
      modifies this
      ensures Consistent() && Leads(old(View()), run, View())
      ensures i < |cbWorkers| && cbWorkers[i] in {Entering, Gone}
      ensures Own(run, CallbackThread(i)) == CallbackSteps(i, cbWorkers[i])[1..]
    {
      hide Inv, Apply, Leads, Own;
      ghost var start := View();
      Stay(start);
      var left := TakeCallback(i);
      run := Extend(CallbackThread(i), start, [], start, Wake(i));
      if !left {
        ghost var mid := View();
        ghost var more := RunCallback(i, work);
        run := Join(CallbackThread(i), start, run, mid, more);
      }
    }

    method RunCallback(i: nat, work: seq<Action>) returns (ghost run: seq<Action>)
      requires Consistent() && i < |cbWorkers| && cbWorkers[i].Running?
      modifies this
      ensures Consistent() && Leads(old(View()), run, View())
      ensures i < |cbWorkers| && cbWorkers[i] == Entering
      ensures Own(run, CallbackThread(i)) == [Action.Finish(i)]
    {
      ghost var start := View();
      run := Others(CallbackThread(i), work);
      ghost var mid := View();
      ran := ran + [cbWorkers[i].task];
      cbWorkers := cbWorkers[i := Entering];
      run := Extend(CallbackThread(i), start, run, mid, Finish(i));
    }

    /** CallbackWorker: it serves callbacks one after another until it is left waiting, or leaves; it
        leaves only when told to stop, and with nothing left in the queue. */
    method CallbackWorker(i: nat, turns: seq<CallbackGaps>) returns (ghost run: seq<Action>, ghost served: nat)
      requires Consistent() && i < |cbWorkers| && cbWorkers[i] == Entering
      modifies this
      ensures Consistent() && Leads(old(View()), run, View())
      ensures i < |cbWorkers| && cbWorkers[i] in {Entering, Idle, Gone}
      ensures Own(run, CallbackThread(i)) ==
              Served(i, served) + if cbWorkers[i] == Entering then [] else CallbackSteps(i, cbWorkers[i])
      ensures if cbWorkers[i] == Entering then served == |turns| else served < |turns|
      ensures cbWorkers[i] == Idle ==> !cbStop && cbQueue == []
      ensures cbWorkers[i] == Gone ==> cbStop && cbQueue == []
    {
      hide Inv, Apply, Leads, Own, Who;
      ghost var start := View();
      Stay(start);
      run, served := [], 0;
      var k := 0;
      while k < |turns| && cbWorkers[i] == Entering
        invariant Consistent() && Leads(start, run, View()) && k <= |turns|
        invariant i < |cbWorkers| && cbWorkers[i] in {Entering, Idle, Gone}
        invariant Own(run, CallbackThread(i)) ==
                  Served(i, served) + if cbWorkers[i] == Entering then [] else CallbackSteps(i, cbWorkers[i])
        invariant if cbWorkers[i] == Entering then served == k else served + 1 == k
        invariant cbWorkers[i] == Idle ==> !cbStop && cbQueue == []
        decreases |turns| - k
      {
        ghost var mid := View();
        ghost var more := CallbackTurn(i, turns[k]);
        run := Join(CallbackThread(i), start, run, mid, more);
        if cbWorkers[i] == Entering {
          served := served + 1;
        }
        k := k + 1;
      }
      GoneFinally(View(), i);
    }

    /** How far the destructor is after one of its steps. */
    static function Stage(a: Action): Destruction
      requires Who(a) == Destructor
    {
      match a
      case StopWorker => WorkerStopping
      case JoinWorker => WorkerJoined
      case JoinOverflow => OverflowJoined
      case StopPool => PoolStopping
      case JoinPool => Destroyed
    }

    /** The request to stop waits for nothing. */
    static lemma StopPossible(s: State)
      requires s.destruction == NotYet
      ensures Enabled(s, StopWorker)
    {
    }

    /** One step of the destructor, if it is possible now, after the others' steps in the gap. */
    method DestructorStep(a: Action, gap: seq<Action>) returns (ghost run: seq<Action>, taken: bool)
      requires Consistent() && Who(a) == Destructor
      modifies this
      ensures Consistent() && Leads(old(View()), run, View())
      ensures taken ==> destruction == Stage(a)
      ensures !taken ==> !Enabled(View(), a) && destruction == old(destruction)
      ensures Own(run, Destructor) == if taken then [a] else []
    {
      ghost var start := View();
      run := Others(Destructor, gap);
      taken := Enabled(View(), a);
      if taken {
        ghost var before := View();
        Advance(a);
        run := Extend(Destructor, start, run, before, a);
      }
    }

    /** The request to stop, the joins that found their threads done, and the clearing of the list. */
    method Advance(a: Action)
      requires Who(a) == Destructor && Enabled(View(), a)
      modifies this
      ensures View() == Apply(old(View()), a) && destruction == Stage(a)
    {
      match a {
        case StopWorker => stop := true;
        case JoinOverflow => ReapOverflowThreads();
        case StopPool => cbStop := true;
        case _ =>
      }
      destruction := Stage(a);
    }

    /** The destructor: stop and join the worker, join the overflow threads, stop and join the callback
        workers, in this order; each join waits through the others' steps in its gap. Once it is
        through, every answered request's callback has run exactly once. */
    method Destroy(gaps: seq<seq<Action>>) returns (ghost run: seq<Action>, ghost taken: nat, through: bool)
      requires Consistent() && destruction == NotYet && |gaps| == 5
      modifies this
      ensures Consistent() && Leads(old(View()), run, View())
      ensures taken <= |DESTRUCTION| && Own(run, Destructor) == DESTRUCTION[..taken]
      ensures DESTRUCTION == [StopWorker, JoinWorker, JoinOverflow, StopPool, JoinPool]
      ensures through <==> taken == |DESTRUCTION|
      ensures through ==> destruction == Destroyed && AllRan(View())
      ensures !through ==> taken > 0 && !Enabled(View(), DESTRUCTION[taken])
    {
      hide Enabled, Apply, Inv, AllRan, Leads, Own;
      ghost var start := View();
      Stay(start);
      run, taken, through := [], 0, true;
      var k := 0;
      while k < |DESTRUCTION| && through
        invariant k <= |DESTRUCTION| && Consistent() && Leads(start, run, View())
        invariant taken <= k && (through <==> taken == k) && Own(run, Destructor) == DESTRUCTION[..taken]
        invariant k == 0 ==> destruction == NotYet
        invariant !through ==> 0 < taken < |DESTRUCTION| && !Enabled(View(), DESTRUCTION[taken])
        invariant through && k == |DESTRUCTION| ==> destruction == Destroyed
        decreases |DESTRUCTION| - k
      {
        ghost var mid := View();
        ghost var more;
        more, through := DestructorStep(DESTRUCTION[k], gaps[k]);
        if k == 0 && !through { StopPossible(View()); }
        run := Join(Destructor, start, run, mid, more);
        if through {
          assert DESTRUCTION[..k + 1] == DESTRUCTION[..k] + [DESTRUCTION[k]];
          taken := taken + 1;
        }
        k := k + 1;
      }
      if through {
        DestroyedRan(View());
      }
    }
  }
}
