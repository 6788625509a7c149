/** What every run of the client's threads keeps: how requests end, and that the destructor returns
    only after every callback has run once. */
module ClientRuns {
  import opened Sequences
  import opened Tally
  import opened ClientProtocol

  // ---- How requests end ----

  /** The worker has swapped the queue out and answers what it took, or has finished doing so. */
  predicate InDrain(w: Worker) {
    match w
    case Draining(_) => true
    case Exited(drained) => drained
    case Delivering(_, after) => after.Drain?
    case Queueing(_, after) => after.Drain?
    case Registering(_, after) => after.Drain?
    case _ => false
  }

  function Now(w: Worker): seq<Task> {
    match w case Delivering(t, _) => [t] case Queueing(t, _) => [t] case _ => []
  }

  /** Shutting-down errors go to exactly the requests swapped out by the drain. */
  ghost predicate Outcomes(s: State) {
    var all := s.answers + Now(s.worker);
    if InDrain(s.worker) then
      && s.drainedFrom <= |s.answers|
      && forall k | 0 <= k < |all| :: all[k].outcome == ShuttingDown <==> k >= s.drainedFrom
    else forall k | 0 <= k < |all| :: all[k].outcome != ShuttingDown
  }

  lemma OutcomesStep(s: State, a: Action)
    requires Enabled(s, a) && Outcomes(s)
    ensures Outcomes(Apply(s, a))
  {
    if ByDatabaseWorker(a) {
      if s.worker.Delivering? || s.worker.Queueing? { HandedOver(s, a); } else { TakenUp(s, a); }
    }
  }

  lemma HandedOver(s: State, a: Action)
    requires Enabled(s, a) && Outcomes(s) && ByDatabaseWorker(a) && (s.worker.Delivering? || s.worker.Queueing?)
    ensures Outcomes(Apply(s, a))
  {
    var t := Apply(s, a);
    assert t.answers + Now(t.worker) == s.answers + Now(s.worker);
    assert InDrain(t.worker) == InDrain(s.worker);
  }

  lemma TakenUp(s: State, a: Action)
    requires Enabled(s, a) && Outcomes(s) && ByDatabaseWorker(a) && !s.worker.Delivering? && !s.worker.Queueing?
    ensures Outcomes(Apply(s, a))
  {
    var t := Apply(s, a);
    assert s.answers + Now(s.worker) == s.answers && t.answers == s.answers;
    assert forall k | 0 <= k < |s.answers| :: (t.answers + Now(t.worker))[k] == s.answers[k];
  }

  // ---- Callbacks ----

  function Is(t: Task): Task -> nat { (x: Task) => if x == t then 1 else 0 }

  function Posted(t: Task): Task -> nat { (x: Task) => if x == t && !x.request.direct then 1 else 0 }

  function Doing(t: Task): CbWorker -> nat { (w: CbWorker) => if w == Running(t) then 1 else 0 }

  function Unrun(t: Task): Overflow -> nat { (o: Overflow) => if !o.ran && o.task == t then 1 else 0 }

  function IsIdle(w: CbWorker): nat { if w == Idle then 1 else 0 }

  /** How often a task has run or is still somewhere to be run. */
  function Whereabouts(s: State, t: Task): nat {
    Sum(s.ran, Is(t)) + Sum(s.queue, Is(t)) + Sum(s.workers, Doing(t)) + Sum(s.overflow, Unrun(t))
  }

  /** Every posted task is in one place: run, queued, being run, or with its own thread. */
  ghost predicate Kept(s: State) {
    && (forall t :: Whereabouts(s, t) == Sum(s.answers, Posted(t)))
    && (s.worker.Queueing? ==> !s.worker.task.request.direct)
  }

  lemma {:induction false} ReapSum(threads: seq<Overflow>, t: Task)
    ensures Sum(ReapAll(threads), Unrun(t)) == Sum(threads, Unrun(t))
  {
    if threads != [] {
      assert ReapAll(threads)[1..] == ReapAll(threads[1..]);
      ReapSum(threads[1..], t);
    }
  }

  lemma WorkerKeeps(s: State, a: Action, t: Task)
    requires Enabled(s, a) && (a.Call? || a.Decide? || a.Queue? || a.Register?)
    requires s.worker.Queueing? ==> !s.worker.task.request.direct
    ensures Whereabouts(Apply(s, a), t) + Sum(s.answers, Posted(t))
            == Whereabouts(s, t) + Sum(Apply(s, a).answers, Posted(t))
  {
    hide Sum;
    match a
    case Call => SumAppend(s.answers, s.worker.task, Posted(t));
    case Queue =>
      SumAppend(s.answers, s.worker.task, Posted(t));
      SumAppend(s.queue, s.worker.task, Is(t));
    case Decide =>
      SumAppend(s.answers, s.worker.task, Posted(t));
      SumAppend(s.overflow, Overflow(s.worker.task, false, false, false, false), Unrun(t));
    case Register =>
      var j := s.worker.thread;
      ReapSum(s.overflow, t);
      SumUpdate(ReapAll(s.overflow), j, s.overflow[j].(listed := true), Unrun(t));
  }

  lemma FrontTaken(queue: seq<Task>, t: Task)
    requires queue != []
    ensures Sum(queue, Is(t)) == Is(t)(queue[0]) + Sum(queue[1..], Is(t))
  {
  }

  lemma PoolKeeps(s: State, a: Action, t: Task)
    requires Enabled(s, a) && (a.Enter? || a.Wake? || a.Finish?)
    ensures Whereabouts(Apply(s, a), t) == Whereabouts(s, t) && Apply(s, a).answers == s.answers
  {
    hide Sum;
    if a.Wake? && s.queue != [] { FrontTaken(s.queue, t); }
    SumUpdate(s.workers, a.i, Apply(s, a).workers[a.i], Doing(t));
    if a.Finish? { SumAppend(s.ran, s.workers[a.i].task, Is(t)); }
  }

  lemma OverflowKeeps(s: State, a: Action, t: Task)
    requires Enabled(s, a) && (a.RunOverflow? || a.MarkDone? || a.JoinOverflow?)
    ensures Whereabouts(Apply(s, a), t) == Whereabouts(s, t) && Apply(s, a).answers == s.answers
  {
    hide Sum, ReapAll;
    if a.JoinOverflow? {
      ReapSum(s.overflow, t);
    } else {
      SumUpdate(s.overflow, a.j, Apply(s, a).overflow[a.j], Unrun(t));
      if a.RunOverflow? { SumAppend(s.ran, s.overflow[a.j].task, Is(t)); }
    }
  }

  lemma OthersKeep(s: State, a: Action, t: Task)
    requires Enabled(s, a) && !(a.Call? || a.Decide? || a.Queue? || a.Register?)
    requires !(a.Enter? || a.Wake? || a.Finish?) && !(a.RunOverflow? || a.MarkDone? || a.JoinOverflow?)
    ensures Whereabouts(Apply(s, a), t) == Whereabouts(s, t) && Apply(s, a).answers == s.answers
  {
  }

  lemma WorkerUntouched(s: State, a: Action)
    requires Enabled(s, a) && !ByDatabaseWorker(a)
    ensures
      var t := Apply(s, a);
      && t.worker == s.worker && t.heartbeat == s.heartbeat && t.answers == s.answers && t.drainedFrom == s.drainedFrom
      && s.accepted <= t.accepted && s.pending <= t.pending && (s.stop ==> t.stop)
  {
  }

  lemma QueueingIsPosted(s: State, a: Action)
    requires Enabled(s, a) && ByDatabaseWorker(a)
    ensures Apply(s, a).worker.Queueing? ==> !Apply(s, a).worker.task.request.direct
  {
  }

  lemma KeptStep(s: State, a: Action)
    requires Enabled(s, a) && Kept(s)
    ensures Kept(Apply(s, a))
  {
    if ByDatabaseWorker(a) { QueueingIsPosted(s, a); } else { WorkerUntouched(s, a); }
    hide Whereabouts, Sum, Apply, Enabled;
    forall t ensures Whereabouts(Apply(s, a), t) == Sum(Apply(s, a).answers, Posted(t)) {
      assert Whereabouts(s, t) == Sum(s.answers, Posted(t));
      if a.Call? || a.Decide? || a.Queue? || a.Register? {
        WorkerKeeps(s, a, t);
      } else if a.Enter? || a.Wake? || a.Finish? {
        PoolKeeps(s, a, t);
      } else if a.RunOverflow? || a.MarkDone? || a.JoinOverflow? {
        OverflowKeeps(s, a, t);
      } else {
        OthersKeep(s, a, t);
      }
    }
  }

  /** The idle counter counts the idle workers. */
  ghost predicate Counted(s: State) { s.idle == Sum(s.workers, IsIdle) }

  lemma CountedStep(s: State, a: Action)
    requires Enabled(s, a) && Counted(s)
    ensures Counted(Apply(s, a))
  {
    var t := Apply(s, a);
    match a
    case Enter(i) => SumUpdate(s.workers, i, t.workers[i], IsIdle);
    case Wake(i) => SumUpdate(s.workers, i, t.workers[i], IsIdle);
    case Finish(i) => SumUpdate(s.workers, i, Entering, IsIdle);
    case _ =>
  }

  // ---- The order of shutting down ----

  predicate PoolTold(d: Destruction) { d.PoolStopping? || d.Destroyed? }

  predicate WorkerDone(d: Destruction) { !d.NotYet? && !d.WorkerStopping? }

  predicate OverflowDone(d: Destruction) { WorkerDone(d) && !d.WorkerJoined? }

  /** A thread is reaped only once listed and finished, and is unlisted only while the worker is
      about to list it. */
  ghost predicate Threads(s: State) {
    forall j | 0 <= j < |s.overflow| :: Traced(s, j)
  }

  ghost predicate Traced(s: State, j: nat)
    requires j < |s.overflow|
  {
    var o := s.overflow[j];
    && (o.done ==> o.ran) && (o.erased ==> o.done && o.listed)
    && (o.listed || (s.worker.Registering? && s.worker.thread == j))
    && (OverflowDone(s.destruction) ==> o.done)
  }

  ghost predicate Ordered(s: State) {
    && (s.stop <==> !s.destruction.NotYet?)
    && (InDrain(s.worker) || s.worker.Exited? ==> s.stop)
    && (s.poolStop <==> PoolTold(s.destruction))
    && (WorkerDone(s.destruction) ==> s.worker.Exited?)
    && (s.worker.Registering? ==> s.worker.thread < |s.overflow|)
    && (forall i | 0 <= i < |s.workers| && s.workers[i] == Gone :: s.poolStop && s.queue == [])
    && (s.queue != [] || s.worker.Queueing? ==> s.workers != [])
    && (s.destruction.Destroyed? ==> forall i | 0 <= i < |s.workers| :: s.workers[i] == Gone)
  }

  lemma ThreadsStep(s: State, a: Action)
    requires Enabled(s, a) && Threads(s) && Ordered(s)
    ensures Threads(Apply(s, a))
  {
    var t := Apply(s, a);
    forall j | 0 <= j < |t.overflow| ensures Traced(t, j) {
      if j < |s.overflow| {
        assert Traced(s, j);
        TracedStep(s, a, j);
      }
    }
  }

  lemma TracedStep(s: State, a: Action, j: nat)
    requires Enabled(s, a) && Ordered(s) && j < |s.overflow| && Traced(s, j)
    ensures j < |Apply(s, a).overflow| && Traced(Apply(s, a), j)
  {
    if Who(a).CallbackThread? || a.Submit? {
      ThreadsUntouched(s, a);
    } else if ByDatabaseWorker(a) {
      WorkerTraced(s, a, j);
    }
  }

  lemma ThreadsUntouched(s: State, a: Action)
    requires Enabled(s, a) && (Who(a).CallbackThread? || a.Submit?)
    ensures
      var t := Apply(s, a);
      t.overflow == s.overflow && t.worker == s.worker && t.destruction == s.destruction
  {
  }

  lemma WorkerTraced(s: State, a: Action, j: nat)
    requires Enabled(s, a) && ByDatabaseWorker(a) && Ordered(s) && j < |s.overflow| && Traced(s, j)
    ensures j < |Apply(s, a).overflow| && Traced(Apply(s, a), j)
  {
  }

  lemma OrderedStep(s: State, a: Action)
    requires Enabled(s, a) && Ordered(s) && Counted(s)
    ensures Ordered(Apply(s, a))
  {
    if ByDatabaseWorker(a) {
      if s.workers == [] { assert s.idle == 0; }
      WorkerOrdered(s, a);
    } else if a.Enter? || a.Wake? || a.Finish? {
      PoolOrdered(s, a);
    }
  }

  /** The worker queues a callback only for a pool that has a worker, and never after the pool was told to stop. */
  lemma WorkerOrdered(s: State, a: Action)
    requires Enabled(s, a) && Ordered(s) && ByDatabaseWorker(a) && (s.workers == [] ==> s.idle == 0)
    ensures Ordered(Apply(s, a))
  {
  }

  lemma PoolOrdered(s: State, a: Action)
    requires Enabled(s, a) && Ordered(s) && (a.Enter? || a.Wake? || a.Finish?)
    ensures Ordered(Apply(s, a))
  {
  }

  lemma GoneFinally(s: State, i: nat)
    requires Inv(s) && i < |s.workers|
    ensures s.workers[i] == Gone ==> s.poolStop && s.queue == []
  {
  }

  // ---- Runs ----

  ghost predicate Inv(s: State) {
    Conserved(s) && Outcomes(s) && Kept(s) && Counted(s) && Ordered(s) && Threads(s)
  }

  lemma ConnectedInv(heartbeat: bool, n: nat)
    ensures Inv(Connected(heartbeat, n))
  {
    var s := Connected(heartbeat, n);
    SumZero(s.workers, IsIdle);
    forall t ensures Whereabouts(s, t) == 0 { SumZero(s.workers, Doing(t)); }
  }

  lemma {:induction false} RunInv(s: State, acts: seq<Action>)
    requires Inv(s) && Valid(s, acts)
    ensures Inv(Exec(s, acts))
    decreases |acts|
  {
    if acts != [] {
      var a := acts[0];
      ConservedStep(s, a);
      OutcomesStep(s, a);
      KeptStep(s, a);
      CountedStep(s, a);
      OrderedStep(s, a);
      ThreadsStep(s, a);
      RunInv(Apply(s, a), acts[1..]);
    }
  }

  /** At every moment of every run: requests are answered in the order they were accepted, each at
      most once; what is not answered is in the worker's hands or pending behind it. */
  lemma AnsweredInOrder(heartbeat: bool, n: nat, acts: seq<Action>)
    requires Valid(Connected(heartbeat, n), acts)
    ensures
      var s := Exec(Connected(heartbeat, n), acts);
      && Requests(s.answers) <= s.accepted
      && s.accepted == Requests(s.answers) + InHand(s.worker) + s.pending
      && forall j, k | 0 <= j < k < |s.answers| :: s.answers[j].request != s.answers[k].request
  {
    var s := Exec(Connected(heartbeat, n), acts);
    ConnectedInv(heartbeat, n);
    RunInv(Connected(heartbeat, n), acts);
    forall j, k | 0 <= j < k < |s.answers| ensures s.answers[j].request != s.answers[k].request {
      assert s.accepted[j] == Requests(s.answers)[j] && s.accepted[k] == Requests(s.answers)[k];
    }
  }

  /** How the worker leaves: through the drain, everything it swapped out was answered with
      shutting-down and nothing else was; at the loop head no request was. Either way what is left
      unanswered is exactly the pending rest, so all are answered just when nothing is pending. */
  lemma WorkerExit(heartbeat: bool, n: nat, acts: seq<Action>)
    requires Valid(Connected(heartbeat, n), acts) && Exec(Connected(heartbeat, n), acts).worker.Exited?
    ensures
      var s := Exec(Connected(heartbeat, n), acts);
      && s.accepted == Requests(s.answers) + s.pending
      && (forall k | 0 <= k < |s.answers| ::
            s.answers[k].outcome == ShuttingDown <==> s.worker.drained && k >= s.drainedFrom)
  {
    var s := Exec(Connected(heartbeat, n), acts);
    ConnectedInv(heartbeat, n);
    RunInv(Connected(heartbeat, n), acts);
    assert s.answers + Now(s.worker) == s.answers;
  }

  /** Once the queue is swapped out, the worker answers what it took and nothing more. */
  ghost predicate DrainGoesOn(s: State, t: State) {
    && InDrain(t.worker) && s.answers <= t.answers && s.accepted <= t.accepted && t.drainedFrom == s.drainedFrom
    && |t.answers| + |InHand(t.worker)| == |s.answers| + |InHand(s.worker)|
  }

  lemma DrainStep(s: State, a: Action)
    requires Enabled(s, a) && InDrain(s.worker)
    ensures DrainGoesOn(s, Apply(s, a))
  {
    hide ReapAll, TakeTask;
    if !ByDatabaseWorker(a) { WorkerUntouched(s, a); }
  }

  lemma {:induction false} DrainRun(s: State, acts: seq<Action>)
    requires Valid(s, acts) && InDrain(s.worker)
    ensures DrainGoesOn(s, Exec(s, acts))
    decreases |acts|
  {
    if acts != [] {
      DrainStep(s, acts[0]);
      DrainRun(Apply(s, acts[0]), acts[1..]);
    }
  }

  /** The drain loses nothing: when the worker has left through it, exactly the requests accepted
      before the swap are answered, those that were still queued with shutting-down. */
  lemma DrainAnswersAll(heartbeat: bool, n: nat, before: seq<Action>, after: seq<Action>)
    requires Valid(Connected(heartbeat, n), before) && Enabled(Exec(Connected(heartbeat, n), before), StartDrain)
    requires Valid(Apply(Exec(Connected(heartbeat, n), before), StartDrain), after)
    requires Exec(Apply(Exec(Connected(heartbeat, n), before), StartDrain), after).worker.Exited?
    ensures
      var s := Exec(Connected(heartbeat, n), before);
      var t := Exec(Apply(s, StartDrain), after);
      && Requests(t.answers) == s.accepted
      && forall k | |s.answers| <= k < |t.answers| :: t.answers[k].outcome == ShuttingDown
  {
    var s := Exec(Connected(heartbeat, n), before);
    var d := Apply(s, StartDrain);
    ConnectedInv(heartbeat, n);
    RunInv(Connected(heartbeat, n), before);
    One(s, StartDrain);
    RunInv(s, [StartDrain]);
    RunInv(d, after);
    DrainRun(d, after);
    var t := Exec(d, after);
    assert t.answers + Now(t.worker) == t.answers;
    assert s.accepted == Requests(s.answers) + [] + s.pending;
    assert t.accepted == Requests(t.answers) + [] + t.pending;
    assert Requests(t.answers) == t.accepted[..|s.accepted|];
  }

  // ---- What a stop request loses ----

  /** Past the test at the loop head and past any heartbeat: the worker will look at the queue again. */
  predicate Waits(s: State) { s.worker == Waiting || (s.worker == Locking && !s.heartbeat) }

  /** The requests that are answered, or certain to be once stop is requested. */
  function Assured(s: State): nat {
    |s.answers| + |InHand(s.worker)| + if Waits(s) then |s.pending| else 0
  }

  ghost predicate AssuredOn(s: State, t: State) {
    t.stop && s.accepted <= t.accepted && Assured(s) <= Assured(t)
  }

  lemma AssuredStep(s: State, a: Action)
    requires Enabled(s, a) && s.stop
    ensures AssuredOn(s, Apply(s, a))
  {
    hide ReapAll, TakeTask;
    if !ByDatabaseWorker(a) { WorkerUntouched(s, a); }
  }

  lemma {:induction false} AssuredRun(s: State, acts: seq<Action>)
    requires Valid(s, acts) && s.stop
    ensures AssuredOn(s, Exec(s, acts))
    decreases |acts|
  {
    if acts != [] {
      AssuredStep(s, acts[0]);
      AssuredRun(Apply(s, acts[0]), acts[1..]);
    }
  }

  /** The worker leaves, and a request accepted before is without an answer for good. */
  ghost predicate Loses(s: State, after: seq<Action>) {
    && Valid(s, after) && Exec(s, after).worker.Exited?
    && !(s.accepted <= Requests(Exec(s, after).answers))
  }

  lemma AllAssured(s: State, after: seq<Action>)
    requires Inv(s) && s.stop && (s.pending == [] || Waits(s))
    ensures !Loses(s, after)
  {
    if Valid(s, after) && Exec(s, after).worker.Exited? {
      var t := Exec(s, after);
      RunInv(s, after);
      AssuredRun(s, after);
      assert |s.accepted| == |s.answers| + |InHand(s.worker)| + |s.pending|;
      assert t.accepted == Requests(t.answers) + [] + t.pending;
      assert Requests(t.answers) == t.accepted[..|t.answers|];
    }
  }

  /** A worker at none of its waits, and not in a drain, has so many steps to the loop head. */
  function Distance(w: Worker): nat {
    match w
    case Executing(_) => 3
    case Locking => 2
    case Delivering(_, _) => 2
    case Beating => 1
    case Queueing(_, _) => 1
    case Registering(_, _) => 1
    case _ => 0
  }

  function Onward(w: Worker): Action {
    match w
    case Executing(_) => Execute(true)
    case Locking => Beat
    case Delivering(t, _) => if t.request.direct then Call else Decide
    case Beating => BeatOver
    case Queueing(_, _) => Queue
    case Registering(_, _) => Register
    case _ => Head
  }

  ghost predicate Unsafe(s: State) {
    s.stop && s.pending != [] && !Waits(s) && !InDrain(s.worker) && !s.worker.Exited?
  }

  lemma OnwardStep(s: State)
    requires Ordered(s) && Unsafe(s) && s.worker != AtHead
    ensures
      var a := Onward(s.worker);
      && Enabled(s, a)
      && var t := Apply(s, a);
         Unsafe(t) && t.pending == s.pending && t.accepted == s.accepted && Distance(t.worker) < Distance(s.worker)
  {
  }

  lemma {:induction false} ToHead(s: State) returns (acts: seq<Action>, t: State)
    requires Inv(s) && Unsafe(s)
    ensures Leads(s, acts, t) && Inv(t)
    ensures t.worker == AtHead && t.stop && t.pending == s.pending && t.accepted == s.accepted
    decreases Distance(s.worker)
  {
    acts, t := [], s;
    if s.worker != AtHead {
      var a := Onward(s.worker);
      OnwardStep(s);
      One(s, a);
      RunInv(s, [a]);
      var rest;
      rest, t := ToHead(Apply(s, a));
      Then(s, [a], Apply(s, a), rest, t);
      acts := [a] + rest;
    }
  }

  lemma LosingRun(s: State) returns (after: seq<Action>)
    requires Inv(s) && Unsafe(s)
    ensures Loses(s, after)
  {
    var acts, t := ToHead(s);
    One(t, Head);
    Then(s, acts, t, [Head], Apply(t, Head));
    after := acts + [Head];
    assert t.accepted == Requests(t.answers) + [] + t.pending;
    assert |s.accepted| > |Requests(t.answers)|;
  }

  /** What calling the destructor loses: in every run from the stop request on, each request accepted
      by then is answered, if and only if at that moment none is queued or the worker is at its wait.
      A worker that is executing, delivering, in a heartbeat or at the loop head can leave without
      another look at the queue. */
  lemma StopLosesIff(heartbeat: bool, n: nat, before: seq<Action>)
    requires Valid(Connected(heartbeat, n), before)
    requires Enabled(Exec(Connected(heartbeat, n), before), StopWorker)
    ensures
      var s := Apply(Exec(Connected(heartbeat, n), before), StopWorker);
      (forall after :: !Loses(s, after)) <==> s.pending == [] || Waits(s)
  {
    var was := Exec(Connected(heartbeat, n), before);
    var s := Apply(was, StopWorker);
    ConnectedInv(heartbeat, n);
    RunInv(Connected(heartbeat, n), before);
    One(was, StopWorker);
    RunInv(was, [StopWorker]);
    if s.pending == [] || Waits(s) {
      forall after ensures !Loses(s, after) { AllAssured(s, after); }
    } else {
      var after := LosingRun(s);
      assert Loses(s, after);
    }
  }

  lemma {:induction false} SumSingle<T>(s: seq<T>, k: nat, w: T -> nat)
    requires forall j | 0 <= j < |s| && j != k :: w(s[j]) == 0
    ensures Sum(s, w) == if k < |s| then w(s[k]) else 0
  {
    if s != [] {
      var rest := s[1..];
      if k == 0 {
        SumZero(rest, w);
      } else {
        assert forall j | 0 <= j < |rest| && j != k - 1 :: w(rest[j]) == 0;
        SumSingle(rest, k - 1, w);
      }
    }
  }

  // ---- The order of the callback queue ----

  /** What a step puts into the queue, and what its worker gets out of it. */
  function PutIn(s: State, a: Action): seq<Task>
    requires Enabled(s, a)
  {
    if a.Queue? then [s.worker.task] else []
  }

  function TakenOut(s: State, a: Action): seq<Task>
    requires Enabled(s, a)
  {
    if a.Wake? && Apply(s, a).workers[a.i].Running? then [Apply(s, a).workers[a.i].task] else []
  }

  function Queued(s: State, acts: seq<Action>): seq<Task>
    requires Valid(s, acts)
    decreases |acts|
  {
    if acts == [] then [] else PutIn(s, acts[0]) + Queued(Apply(s, acts[0]), acts[1..])
  }

  function Taken(s: State, acts: seq<Action>): seq<Task>
    requires Valid(s, acts)
    decreases |acts|
  {
    if acts == [] then [] else TakenOut(s, acts[0]) + Taken(Apply(s, acts[0]), acts[1..])
  }

  lemma QueueMoves(s: State, a: Action)
    requires Enabled(s, a)
    ensures s.queue + PutIn(s, a) == TakenOut(s, a) + Apply(s, a).queue
  {
    if a.Wake? && s.queue != [] { assert s.queue == [s.queue[0]] + s.queue[1..]; }
  }

  /** Callbacks do not overtake each other in the queue: what was put in is what was got out and then
      what is still in. */
  lemma {:induction false} FirstInFirstOut(s: State, acts: seq<Action>)
    requires Valid(s, acts)
    ensures s.queue + Queued(s, acts) == Taken(s, acts) + Exec(s, acts).queue
    decreases |acts|
  {
    hide PutIn, TakenOut, Apply, Enabled;
    if acts != [] {
      var a, t, rest := acts[0], Apply(s, acts[0]), acts[1..];
      FirstInFirstOut(t, rest);
      QueueMoves(s, a);
      Regroup(s.queue, PutIn(s, a), Queued(t, rest), TakenOut(s, a), t.queue, Taken(t, rest), Exec(t, rest).queue);
    }
  }

  /** How often a callback was posted: once, with the outcome its request was answered with. */
  lemma PostedOnce(s: State, k: nat, o: Outcome)
    requires Conserved(s) && k < |s.accepted| && !s.accepted[k].direct
    ensures Sum(s.answers, Posted(Task(s.accepted[k], o))) ==
            if k < |s.answers| && s.answers[k].outcome == o then 1 else 0
  {
    var t := Task(s.accepted[k], o);
    forall j | 0 <= j < |s.answers| && j != k ensures Posted(t)(s.answers[j]) == 0 {
      assert s.accepted[j] == Requests(s.answers)[j];
    }
    if k < |s.answers| { assert s.accepted[k] == Requests(s.answers)[k]; }
    SumSingle(s.answers, k, Posted(t));
  }

  /** A callback never runs twice, nor with an outcome its request was not answered with. */
  lemma AtMostOnce(heartbeat: bool, n: nat, acts: seq<Action>, k: nat, o: Outcome)
    requires Valid(Connected(heartbeat, n), acts)
    requires k < |Exec(Connected(heartbeat, n), acts).accepted|
             && !Exec(Connected(heartbeat, n), acts).accepted[k].direct
    ensures
      var s := Exec(Connected(heartbeat, n), acts);
      Sum(s.ran, Is(Task(s.accepted[k], o))) <= if k < |s.answers| && s.answers[k].outcome == o then 1 else 0
  {
    var s := Exec(Connected(heartbeat, n), acts);
    ConnectedInv(heartbeat, n);
    RunInv(Connected(heartbeat, n), acts);
    PostedOnce(s, k, o);
    assert Whereabouts(s, Task(s.accepted[k], o)) == Sum(s.answers, Posted(Task(s.accepted[k], o)));
  }

  /** The callback of every answered request has run exactly once, with the outcome of the answer,
      and no other callback has run. */
  ghost predicate AllRan(s: State) {
    forall k: nat, o | k < |s.accepted| && !s.accepted[k].direct :: RanOnce(s, k, o)
  }

  ghost predicate RanOnce(s: State, k: nat, o: Outcome)
    requires k < |s.accepted|
  {
    Sum(s.ran, Is(Task(s.accepted[k], o))) == if k < |s.answers| && s.answers[k].outcome == o then 1 else 0
  }

  lemma DestroyedRan(s: State)
    requires Inv(s) && s.destruction == Destroyed
    ensures AllRan(s)
  {
    forall k: nat, o | k < |s.accepted| && !s.accepted[k].direct ensures RanOnce(s, k, o) {
      PostedOnce(s, k, o);
      NothingLeft(s, Task(s.accepted[k], o));
    }
  }

  lemma NothingLeft(s: State, t: Task)
    requires Inv(s) && s.destruction == Destroyed
    ensures Sum(s.ran, Is(t)) == Sum(s.answers, Posted(t))
  {
    assert Whereabouts(s, t) == Sum(s.answers, Posted(t));
    SumZero(s.workers, Doing(t));
    forall o <- s.overflow ensures Unrun(t)(o) == 0 {
      var j :| 0 <= j < |s.overflow| && s.overflow[j] == o;
      assert Traced(s, j);
    }
    SumZero(s.overflow, Unrun(t));
    if s.workers != [] { assert s.workers[0] == Gone; }
    assert s.queue == [];
  }

  /** When the destructor is through, the callback of every answered request has run exactly once,
      with the outcome of the answer, whichever way it was dispatched. */
  lemma AllCallbacksRan(heartbeat: bool, n: nat, acts: seq<Action>, k: nat, o: Outcome)
    requires Valid(Connected(heartbeat, n), acts) && Exec(Connected(heartbeat, n), acts).destruction == Destroyed
    requires k < |Exec(Connected(heartbeat, n), acts).accepted|
             && !Exec(Connected(heartbeat, n), acts).accepted[k].direct
    ensures
      var s := Exec(Connected(heartbeat, n), acts);
      Sum(s.ran, Is(Task(s.accepted[k], o))) == if k < |s.answers| && s.answers[k].outcome == o then 1 else 0
  {
    ConnectedInv(heartbeat, n);
    RunInv(Connected(heartbeat, n), acts);
    DestroyedRan(Exec(Connected(heartbeat, n), acts));
    assert RanOnce(Exec(Connected(heartbeat, n), acts), k, o);
  }

  lemma Further(s: State, acts: seq<Action>, t: State, a: Action) returns (longer: seq<Action>, u: State)
    requires Leads(s, acts, t) && Enabled(t, a)
    ensures Leads(s, longer, u) && longer == acts + [a] && u == Apply(t, a)
  {
    One(t, a);
    Then(s, acts, t, [a], Apply(t, a));
    longer, u := acts + [a], Apply(t, a);
  }

  /** A stop requested while a request executes leaves a later one unanswered for good: the worker
      leaves at the loop head without draining. */
  lemma HeadExitLeavesPending() returns (acts: seq<Action>, t: State)
    ensures Leads(Connected(false, 1), acts, t)
    ensures t.worker == Exited(false) && t.pending != [] && |t.answers| < |t.accepted|
  {
    hide Leads;
    var s := Connected(false, 1);
    Stay(s);
    acts, t := Further(s, [], s, Submit(true));
    acts, t := Further(s, acts, t, Head);
    acts, t := Further(s, acts, t, Wait);
    acts, t := Further(s, acts, t, Take);
    var r := Request(0, true);
    assert t == s.(worker := Executing(r), accepted := [r]);
    acts, t := LaterOneLost(s, acts, t);
  }

  lemma LaterOneLost(s: State, before: seq<Action>, busy: State) returns (acts: seq<Action>, t: State)
    requires Leads(s, before, busy) && busy.worker.Executing? && busy.worker.request.direct
             && busy.destruction == NotYet
    requires busy.answers == [] && |busy.accepted| == 1
    ensures Leads(s, acts, t) && t.worker == Exited(false) && t.pending != [] && |t.answers| < |t.accepted|
  {
    hide Leads;
    acts, t := Further(s, before, busy, Submit(true));
    acts, t := Further(s, acts, t, StopWorker);
    acts, t := Further(s, acts, t, Execute(true));
    acts, t := Further(s, acts, t, Call);
    acts, t := Further(s, acts, t, Head);
  }
}
