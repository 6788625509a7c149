/** The client's threads as a protocol: submitters, the database worker, the callback workers,
    overflow threads and the destructor, one step per lock section or atomic access. */
module ClientProtocol {
  import opened Sequences

  /** The id is the request's place in the order of acceptance. A direct request's callback is called
      by the database worker itself, any other's is handed to the callback pool. */
  datatype Request = Request(id: nat, direct: bool)

  datatype Outcome = Success | QueryError | ShuttingDown

  datatype Task = Task(request: Request, outcome: Outcome)

  /** What the worker does after a delivery: go round the loop, or deliver the rest of a drain. */
  datatype After = Loop | Drain(rest: seq<Request>)

  datatype Worker =
    | AtHead                                     // about to test for stop at the loop head
    | Locking                                    // past the head, about to lock and see to the heartbeat
    | Waiting                                    // past that too: waits, or was woken and is about to look
    | Beating                                    // heartbeat query under way
    | Executing(request: Request)
    | Delivering(task: Task, after: After)       // about to call or to post
    | Queueing(task: Task, after: After)         // saw an idle callback worker, about to push
    | Registering(thread: nat, after: After)     // started an overflow thread, about to list it
    | Draining(rest: seq<Request>)
    | Exited(drained: bool)

  /** An idle worker counts as such: it waits, or has just counted itself and is about to look. */
  datatype CbWorker = Entering | Idle | Running(task: Task) | Gone

  datatype Overflow = Overflow(task: Task, ran: bool, done: bool, listed: bool, erased: bool)

  datatype Destruction = NotYet | WorkerStopping | WorkerJoined | OverflowJoined | PoolStopping | Destroyed

  /** The heartbeat flag is the client's setting: without it the worker waits for as long as it takes. */
  datatype State = State(
    heartbeat: bool, accepted: seq<Request>, pending: seq<Request>, answers: seq<Task>, drainedFrom: nat,
    worker: Worker, stop: bool,
    queue: seq<Task>, idle: int, poolStop: bool, workers: seq<CbWorker>, overflow: seq<Overflow>,
    ran: seq<Task>, destruction: Destruction)

  /** After connect: the worker and n callback workers are started. */
  function Connected(heartbeat: bool, n: nat): State {
    State(heartbeat, [], [], [], 0, AtHead, false, [], 0, false, seq(n, i => Entering), [], [], NotYet)
  }

  datatype Action =
    | Submit(direct: bool)
    | Head | Beat | BeatOver | Wait | Nothing | StartDrain | Take | Execute(works: bool)
    | NextDrained | Call | Decide | Queue | Register
    | Enter(i: nat) | Wake(i: nat) | Finish(i: nat)
    | RunOverflow(j: nat) | MarkDone(j: nat)
    | StopWorker | JoinWorker | JoinOverflow | StopPool | JoinPool

  predicate Enabled(s: State, a: Action) {
    match a
    case Submit(_) => s.destruction != Destroyed
    case Head => s.worker == AtHead
    case Beat => s.worker == Locking && s.heartbeat
    case BeatOver => s.worker == Beating
    case Wait => s.worker == Locking
    case Nothing => s.worker == Waiting && s.heartbeat && !s.stop && s.pending == []
    case StartDrain => s.worker == Waiting && s.stop
    case Take => s.worker == Waiting && !s.stop && s.pending != []
    case Execute(_) => s.worker.Executing?
    case NextDrained => s.worker.Draining?
    case Call => s.worker.Delivering? && s.worker.task.request.direct
    case Decide => s.worker.Delivering? && !s.worker.task.request.direct
    case Queue => s.worker.Queueing?
    case Register => s.worker.Registering? && s.worker.thread < |s.overflow|
    case Enter(i) => i < |s.workers| && s.workers[i] == Entering
    case Wake(i) => i < |s.workers| && s.workers[i] == Idle && (s.poolStop || s.queue != [])
    case Finish(i) => i < |s.workers| && s.workers[i].Running?
    case RunOverflow(j) => j < |s.overflow| && !s.overflow[j].ran
    case MarkDone(j) => j < |s.overflow| && s.overflow[j].ran && !s.overflow[j].done
    case StopWorker => s.destruction == NotYet
    case JoinWorker => s.destruction == WorkerStopping && s.worker.Exited?
    case JoinOverflow => s.destruction == WorkerJoined
      && forall j | 0 <= j < |s.overflow| && s.overflow[j].listed :: s.overflow[j].done
    case StopPool => s.destruction == OverflowJoined
    case JoinPool => s.destruction == PoolStopping && forall i | 0 <= i < |s.workers| :: s.workers[i] == Gone
  }

  function Resume(after: After): Worker {
    match after case Loop => AtHead case Drain(rest) => Draining(rest)
  }

  /** A list without its finished threads: an entry is only marked, to keep its place. */
  function Reap(o: Overflow): Overflow { if o.listed && o.done then o.(erased := true) else o }

  function ReapAll(threads: seq<Overflow>): seq<Overflow> {
    seq(|threads|, j requires 0 <= j < |threads| => Reap(threads[j]))
  }

  /** Behind the wait: leave when there is nothing to run, else take the front task. */
  function TakeTask(s: State, i: nat): State
    requires i < |s.workers|
  {
    if s.queue == [] then s.(workers := s.workers[i := Gone])
    else s.(workers := s.workers[i := Running(s.queue[0])], queue := s.queue[1..])
  }

  function Apply(s: State, a: Action): State
    requires Enabled(s, a)
  {
    match a
    case Submit(direct) =>
      var r := Request(|s.accepted|, direct);
      s.(accepted := s.accepted + [r], pending := s.pending + [r])
    case Head => s.(worker := if s.stop then Exited(false) else Locking)
    case Beat => s.(worker := Beating)
    case BeatOver => s.(worker := AtHead)
    case Wait => s.(worker := Waiting)
    case Nothing => s.(worker := AtHead)
    case StartDrain => s.(worker := Draining(s.pending), pending := [], drainedFrom := |s.answers|)
    case Take => s.(worker := Executing(s.pending[0]), pending := s.pending[1..])
    case Execute(works) =>
      s.(worker := Delivering(Task(s.worker.request, if works then Success else QueryError), Loop))
    case NextDrained =>
      s.(worker := if s.worker.rest == [] then Exited(true)
                   else Delivering(Task(s.worker.rest[0], ShuttingDown), Drain(s.worker.rest[1..])))
    case Call => s.(worker := Resume(s.worker.after), answers := s.answers + [s.worker.task])
    case Decide =>
      if s.idle == 0 then
        s.(worker := Registering(|s.overflow|, s.worker.after), answers := s.answers + [s.worker.task],
           overflow := s.overflow + [Overflow(s.worker.task, false, false, false, false)])
      else s.(worker := Queueing(s.worker.task, s.worker.after))
    case Queue =>
      s.(worker := Resume(s.worker.after), answers := s.answers + [s.worker.task], queue := s.queue + [s.worker.task])
    case Register =>
      var j := s.worker.thread;
      s.(worker := Resume(s.worker.after),
         overflow := ReapAll(s.overflow)[j := s.overflow[j].(listed := true)])
    case Enter(i) => s.(workers := s.workers[i := Idle], idle := s.idle + 1)
    case Wake(i) => TakeTask(s.(idle := s.idle - 1), i)
    case Finish(i) => s.(workers := s.workers[i := Entering], ran := s.ran + [s.workers[i].task])
    case RunOverflow(j) =>
      s.(overflow := s.overflow[j := s.overflow[j].(ran := true)], ran := s.ran + [s.overflow[j].task])
    case MarkDone(j) => s.(overflow := s.overflow[j := s.overflow[j].(done := true)])
    case StopWorker => s.(stop := true, destruction := WorkerStopping)
    case JoinWorker => s.(destruction := WorkerJoined)
    case JoinOverflow => s.(overflow := ReapAll(s.overflow), destruction := OverflowJoined)
    case StopPool => s.(poolStop := true, destruction := PoolStopping)
    case JoinPool => s.(destruction := Destroyed)
  }

  predicate Valid(s: State, acts: seq<Action>)
    decreases |acts|
  {
    acts == [] || (Enabled(s, acts[0]) && Valid(Apply(s, acts[0]), acts[1..]))
  }

  function Exec(s: State, acts: seq<Action>): State
    requires Valid(s, acts)
    decreases |acts|
  {
    if acts == [] then s else Exec(Apply(s, acts[0]), acts[1..])
  }

  lemma {:induction false} ExecAppend(s: State, a: seq<Action>, b: seq<Action>)
    requires Valid(s, a) && Valid(Exec(s, a), b)
    ensures Valid(s, a + b) && Exec(s, a + b) == Exec(Exec(s, a), b)
    decreases |a|
  {
    if a == [] {
      assert a + b == b;
    } else {
      assert (a + b)[1..] == a[1..] + b;
      ExecAppend(Apply(s, a[0]), a[1..], b);
    }
  }

  /** The schedule acts leads from s to t. */
  ghost predicate Leads(s: State, acts: seq<Action>, t: State) {
    Valid(s, acts) && Exec(s, acts) == t
  }

  lemma Stay(s: State)
    ensures Leads(s, [], s)
  {
  }

  lemma One(s: State, a: Action)
    requires Enabled(s, a)
    ensures Leads(s, [a], Apply(s, a))
  {
    assert [a][1..] == [];
  }

  lemma Then(s: State, a: seq<Action>, t: State, b: seq<Action>, u: State)
    requires Leads(s, a, t) && Leads(t, b, u)
    ensures Leads(s, a + b, u)
  {
    ExecAppend(s, a, b);
  }

  predicate ByDatabaseWorker(a: Action) {
    a.Head? || a.Beat? || a.BeatOver? || a.Wait? || a.Nothing? || a.StartDrain? || a.Take? || a.Execute? ||
    a.NextDrained? || a.Call? || a.Decide? || a.Queue? || a.Register?
  }

  datatype Actor = DatabaseWorker | CallbackThread(i: nat) | Destructor | Elsewhere

  function Who(a: Action): Actor {
    if ByDatabaseWorker(a) then DatabaseWorker
    else match a
      case Enter(i) => CallbackThread(i) case Wake(i) => CallbackThread(i) case Finish(i) => CallbackThread(i)
      case StopWorker => Destructor case JoinWorker => Destructor case JoinOverflow => Destructor
      case StopPool => Destructor case JoinPool => Destructor
      case _ => Elsewhere
  }

  /** The state after a schedule of the threads other than one, steps not possible when their turn
      comes being passed over. */
  function Played(s: State, me: Actor, schedule: seq<Action>): State
    decreases |schedule|
  {
    if schedule == [] then s
    else
      var n := |schedule| - 1;
      var t, a := Played(s, me, schedule[..n]), schedule[n];
      if Enabled(t, a) && Who(a) != me then Apply(t, a) else t
  }

  /** The steps of a run that one thread took, in order. */
  function Own(run: seq<Action>, me: Actor): (own: seq<Action>)
    ensures run == [] ==> own == []
  {
    Filter(run, Mine(me))
  }

  function Mine(me: Actor): Action -> bool { (a: Action) => Who(a) == me }

  /** No thread moves another one. */
  predicate Unmoved(me: Actor, s: State, t: State) {
    match me
    case DatabaseWorker => t.worker == s.worker && t.answers == s.answers
    case CallbackThread(i) => i < |s.workers| ==> i < |t.workers| && t.workers[i] == s.workers[i]
    case Destructor => t.destruction == s.destruction
    case Elsewhere => true
  }

  lemma SettingKept(s: State, a: Action)
    requires Enabled(s, a)
    ensures Apply(s, a).heartbeat == s.heartbeat
  {
  }

  lemma OneMoves(me: Actor, s: State, a: Action)
    requires Enabled(s, a) && Who(a) != me
    ensures Unmoved(me, s, Apply(s, a))
  {
  }

  // ---- Requests: conservation and order ----

  function Requests(tasks: seq<Task>): seq<Request> {
    seq(|tasks|, k requires 0 <= k < |tasks| => tasks[k].request)
  }

  function Rest(after: After): seq<Request> { match after case Loop => [] case Drain(rest) => rest }

  /** Taken from the queue and not answered yet, in order. */
  function InHand(w: Worker): seq<Request> {
    match w
    case Executing(r) => [r]
    case Delivering(t, after) => [t.request] + Rest(after)
    case Queueing(t, after) => [t.request] + Rest(after)
    case Registering(_, after) => Rest(after)
    case Draining(rest) => rest
    case _ => []
  }

  /** Accepted requests are the answered ones, then at most one batch in the worker's hands, then
      the pending ones, in order; and they are numbered in that order. */
  ghost predicate Conserved(s: State) {
    && s.accepted == Requests(s.answers) + InHand(s.worker) + s.pending
    && Numbered(s.accepted)
  }

  ghost predicate Numbered(rs: seq<Request>) {
    forall k | 0 <= k < |rs| :: rs[k].id == k
  }

  lemma Answered(tasks: seq<Task>, t: Task)
    ensures Requests(tasks + [t]) == Requests(tasks) + [t.request]
  {
  }

  lemma ConservedStep(s: State, a: Action)
    requires Enabled(s, a) && Conserved(s)
    ensures Conserved(Apply(s, a))
  {
    var done := Requests(s.answers);
    if a.Submit? {
      Associate(done + InHand(s.worker), s.pending, [Request(|s.accepted|, a.direct)]);
    } else if a.Take? {
      assert s.pending == [s.pending[0]] + s.pending[1..] && done + [] == done;
      Associate(done, [s.pending[0]], s.pending[1..]);
    } else if a.StartDrain? {
      assert done + [] + s.pending == done + s.pending + [];
    } else if a.NextDrained? {
      DrainKeeps(s);
    } else if a.Call? || a.Decide? || a.Queue? {
      AnswerKeeps(s, a);
    } else if ByDatabaseWorker(a) {
      HandKept(s, a);
    } else {
      OthersKeepHands(s, a);
    }
  }

  lemma OthersKeepHands(s: State, a: Action)
    requires Enabled(s, a) && !ByDatabaseWorker(a) && !a.Submit?
    ensures
      var t := Apply(s, a);
      t.accepted == s.accepted && t.answers == s.answers && t.pending == s.pending && t.worker == s.worker
  {
  }

  lemma HandKept(s: State, a: Action)
    requires Enabled(s, a) && ByDatabaseWorker(a) && !a.Take? && !a.StartDrain? && !a.NextDrained?
    requires !a.Call? && !a.Decide? && !a.Queue?
    ensures
      var t := Apply(s, a);
      t.accepted == s.accepted && t.answers == s.answers && t.pending == s.pending
      && InHand(t.worker) == InHand(s.worker)
  {
  }

  lemma AnswerKeeps(s: State, a: Action)
    requires Enabled(s, a) && Conserved(s) && (a.Call? || a.Decide? || a.Queue?)
    ensures Conserved(Apply(s, a))
  {
    Associate(Requests(s.answers), [s.worker.task.request], Rest(s.worker.after));
    Answered(s.answers, s.worker.task);
  }

  lemma DrainKeeps(s: State)
    requires s.worker.Draining?
    ensures InHand(Apply(s, NextDrained).worker) == s.worker.rest
  {
    if s.worker.rest != [] { assert s.worker.rest == [s.worker.rest[0]] + s.worker.rest[1..]; }
  }
}
