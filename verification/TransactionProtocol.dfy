/** Transaction handles: any number of threads executing, committing, rolling back, moving and
    destroying; the state changes under the handle's lock, the terminator is sent after unlocking. */
module TransactionProtocol {

  datatype Phase = Active | Committed | RolledBack

  datatype Message = Begin | Statement(query: nat) | Commit | Rollback

  datatype Life = Alive | Dying | Dead

  /** The owner is the handle whose executor pointer is not null. The unsent terminator is that of a
      thread past the unlock and before the send. */
  datatype Handle = Handle(owner: bool, phase: Phase, unsent: seq<Message>, life: Life)

  /** One created transaction: its handles and the requests sent for it, in order. */
  datatype Txn = Txn(handles: seq<Handle>, log: seq<Message>)

  /** After create_transaction has sent BEGIN. */
  const CREATED := Txn([Handle(true, Active, [], Alive)], [Begin])

  datatype Action =
    | Execute(h: nat, query: nat)      // execute or execute_async
    | StartCommit(h: nat)
    | StartRollback(h: nat)
    | Send(h: nat)                     // the terminator, after the unlock
    | Move(h: nat)                     // into a new handle
    | StartDestroy(h: nat)

  /** What callers owe: no use of a destroyed handle or, while it is active, of a moved-from one, and
      no move or destruction while another operation on the handle is under way. */
  predicate Usable(x: Handle) { x.life == Alive && (x.owner || x.phase != Active) }

  predicate Enabled(t: Txn, a: Action) {
    && a.h < |t.handles|
    && var x := t.handles[a.h];
       match a
       case Execute(_, _) => Usable(x)
       case StartCommit(_) => Usable(x)
       case StartRollback(_) => Usable(x)
       case Send(_) => x.unsent != []
       case Move(_) => x.life == Alive && x.unsent == []
       case StartDestroy(_) => x.life == Alive && x.unsent == []
  }

  /** Under the lock: the first to end an active transaction will send its terminator. */
  function Close(x: Handle, phase: Phase, m: Message): Handle {
    if x.phase == Active then x.(phase := phase, unsent := [m]) else x
  }

  function CloseForGood(x: Handle): Handle {
    if x.phase == Active && x.owner then x.(phase := RolledBack, unsent := [Rollback], life := Dying)
    else x.(life := Dead)
  }

  function Apply(t: Txn, a: Action): Txn
    requires Enabled(t, a)
  {
    var x := t.handles[a.h];
    match a
    case Execute(h, q) => if x.phase == Active then t.(log := t.log + [Statement(q)]) else t
    case StartCommit(h) => t.(handles := t.handles[h := Close(x, Committed, Commit)])
    case StartRollback(h) => t.(handles := t.handles[h := Close(x, RolledBack, Rollback)])
    case Send(h) =>
      Txn(t.handles[h := x.(unsent := [], life := if x.life == Dying then Dead else x.life)], t.log + x.unsent)
    case Move(h) => t.(handles := t.handles[h := x.(owner := false)] + [Handle(x.owner, x.phase, [], Alive)])
    case StartDestroy(h) => t.(handles := t.handles[h := CloseForGood(x)])
  }

  predicate Valid(t: Txn, acts: seq<Action>)
    decreases |acts|
  {
    acts == [] || (Enabled(t, acts[0]) && Valid(Apply(t, acts[0]), acts[1..]))
  }

  function Exec(t: Txn, acts: seq<Action>): Txn
    requires Valid(t, acts)
    decreases |acts|
  {
    if acts == [] then t else Exec(Apply(t, acts[0]), acts[1..])
  }

  predicate Ends(m: Message) { m == Commit || m == Rollback }

  /** BEGIN, statements, then at most one terminator and nothing after it. */
  predicate Shaped(log: seq<Message>) {
    && log != [] && log[0] == Begin
    && forall k | 1 <= k < |log| :: log[k].Statement? || (k == |log| - 1 && Ends(log[k]))
  }

  predicate Ended(log: seq<Message>) { log != [] && Ends(log[|log| - 1]) }

  function Terminator(p: Phase): Message { if p == Committed then Commit else Rollback }

  /** One handle owns the transaction; until it is closed nothing ends the log, and once it is, its
      terminator is either still to be sent or the end of the log. */
  ghost predicate Sound(t: Txn, o: nat) {
    && Shaped(t.log)
    && o < |t.handles| && t.handles[o].owner
    && (forall h | 0 <= h < |t.handles| && h != o ::
          !t.handles[h].owner && t.handles[h].unsent == [] && !t.handles[h].life.Dying?)
    && var x := t.handles[o];
       if x.phase == Active then x.unsent == [] && x.life == Alive && !Ended(t.log)
       else if x.unsent == [] then Ended(t.log) && t.log[|t.log| - 1] == Terminator(x.phase) && x.life != Dying
       else x.unsent == [Terminator(x.phase)] && !Ended(t.log) && x.life != Dead
  }

  function OwnerAfter(t: Txn, a: Action, o: nat): nat { if a == Move(o) then |t.handles| else o }

  lemma SoundStep(t: Txn, a: Action, o: nat)
    requires Enabled(t, a) && Sound(t, o)
    ensures Sound(Apply(t, a), OwnerAfter(t, a, o))
  {
  }

  lemma {:induction false} RunSound(t: Txn, acts: seq<Action>, o: nat) returns (owner: nat)
    requires Valid(t, acts) && Sound(t, o)
    ensures Sound(Exec(t, acts), owner)
    decreases |acts|
  {
    owner := o;
    if acts != [] {
      SoundStep(t, acts[0], o);
      owner := RunSound(Apply(t, acts[0]), acts[1..], OwnerAfter(t, acts[0], o));
    }
  }

  /** In every interleaving, across moves: the log keeps its shape, one handle owns the transaction,
      and once that one is destroyed, whatever moved-from handles are left, it ends with exactly one
      terminator, COMMIT just when a commit closed the transaction first. */
  lemma LogShape(acts: seq<Action>)
    requires Valid(CREATED, acts)
    ensures
      var t := Exec(CREATED, acts);
      && Shaped(t.log)
      && (exists o :: 0 <= o < |t.handles| && OwnsAlone(t, o))
      && forall o | 0 <= o < |t.handles| && t.handles[o].owner && t.handles[o].life == Dead ::
           && t.handles[o].phase != Active
           && Ended(t.log) && t.log[|t.log| - 1] == Terminator(t.handles[o].phase)
  {
    var w := RunSound(CREATED, acts, 0);
    assert Sound(Exec(CREATED, acts), w);
    assert OwnsAlone(Exec(CREATED, acts), w);
  }

  /** Some commit found the handle it was called on active. */
  predicate CommitCloses(t: Txn, acts: seq<Action>)
    requires Valid(t, acts)
    decreases |acts|
  {
    acts != [] &&
    ((acts[0].StartCommit? && t.handles[acts[0].h].phase == Active) || CommitCloses(Apply(t, acts[0]), acts[1..]))
  }

  lemma {:induction false} RunCommits(t: Txn, acts: seq<Action>, o: nat) returns (owner: nat)
    requires Valid(t, acts) && Sound(t, o)
    ensures Sound(Exec(t, acts), owner)
    ensures Exec(t, acts).handles[owner].phase == Committed <==>
            t.handles[o].phase == Committed || CommitCloses(t, acts)
    decreases |acts|
  {
    owner := o;
    if acts != [] {
      SoundStep(t, acts[0], o);
      ClosingStep(t, acts[0], o);
      owner := RunCommits(Apply(t, acts[0]), acts[1..], OwnerAfter(t, acts[0], o));
    }
  }

  lemma ClosingStep(t: Txn, a: Action, o: nat)
    requires Enabled(t, a) && Sound(t, o)
    ensures
      var p := OwnerAfter(t, a, o);
      p < |Apply(t, a).handles| &&
      (Apply(t, a).handles[p].phase == Committed <==>
         t.handles[o].phase == Committed || (a.StartCommit? && t.handles[a.h].phase == Active))
  {
  }

  /** COMMIT is sent only if a commit closed the transaction, and once the owner is destroyed the log
      ends with COMMIT if that is so and with ROLLBACK if not. */
  lemma CommitIff(acts: seq<Action>)
    requires Valid(CREATED, acts)
    ensures
      var t := Exec(CREATED, acts);
      && (Commit in t.log ==> CommitCloses(CREATED, acts))
      && forall o | 0 <= o < |t.handles| && t.handles[o].owner && t.handles[o].life == Dead ::
           t.log != [] && t.log[|t.log| - 1] == if CommitCloses(CREATED, acts) then Commit else Rollback
  {
    var w := RunCommits(CREATED, acts, 0);
    var t := Exec(CREATED, acts);
    assert Sound(t, w);
    if Commit in t.log {
      var k :| 0 <= k < |t.log| && t.log[k] == Commit;
      assert k == |t.log| - 1;
    }
  }

  predicate OwnsAlone(t: Txn, o: nat)
    requires o < |t.handles|
  {
    t.handles[o].owner && forall h | 0 <= h < |t.handles| && h != o :: !t.handles[h].owner
  }

  // ---- Many transactions on one client ----

  datatype Entry = Entry(txn: nat, message: Message) | Plain

  datatype System = System(txns: seq<Txn>, sent: seq<Entry>)

  function Project(sent: seq<Entry>, i: nat): seq<Message> {
    if sent == [] then []
    else
      var e := sent[|sent| - 1];
      Project(sent[..|sent| - 1], i) + if e.Entry? && e.txn == i then [e.message] else []
  }

  datatype Step = Begins | Queries | Steps(i: nat, a: Action)

  predicate CanStep(s: System, st: Step) {
    st.Steps? ==> st.i < |s.txns| && Enabled(s.txns[st.i], st.a)
  }

  /** What a step sends is what it appends to its transaction's log. */
  function Do(s: System, st: Step): System
    requires CanStep(s, st)
  {
    match st
    case Begins => System(s.txns + [CREATED], s.sent + [Entry(|s.txns|, Begin)])
    case Queries => s.(sent := s.sent + [Plain])
    case Steps(i, a) =>
      var t := Apply(s.txns[i], a);
      var added := t.log[|s.txns[i].log|..];
      System(s.txns[i := t], s.sent + seq(|added|, k requires 0 <= k < |added| => Entry(i, added[k])))
  }

  predicate CanRun(s: System, steps: seq<Step>)
    decreases |steps|
  {
    steps == [] || (CanStep(s, steps[0]) && CanRun(Do(s, steps[0]), steps[1..]))
  }

  function Run(s: System, steps: seq<Step>): System
    requires CanRun(s, steps)
    decreases |steps|
  {
    if steps == [] then s else Run(Do(s, steps[0]), steps[1..])
  }

  /** What was sent under a transaction's number is its log. */
  ghost predicate TaggedAt(s: System, i: nat) {
    if i < |s.txns| then Project(s.sent, i) == s.txns[i].log && exists o :: Sound(s.txns[i], o)
    else Project(s.sent, i) == []
  }

  ghost predicate Tagged(s: System) {
    forall i: nat :: TaggedAt(s, i)
  }

  lemma ProjectSnoc(sent: seq<Entry>, e: Entry, i: nat)
    ensures Project(sent + [e], i) == Project(sent, i) + if e.Entry? && e.txn == i then [e.message] else []
  {
    assert (sent + [e])[..|sent|] == sent;
  }

  lemma LogGrows(t: Txn, a: Action, o: nat)
    requires Enabled(t, a) && Sound(t, o)
    ensures t.log <= Apply(t, a).log && |Apply(t, a).log| <= |t.log| + 1
  {
  }

  lemma TaggedStep(s: System, st: Step)
    requires Tagged(s) && CanStep(s, st)
    ensures Tagged(Do(s, st))
  {
    forall i: nat ensures TaggedAt(Do(s, st), i) {
      assert TaggedAt(s, i);
      match st
      case Begins =>
        ProjectSnoc(s.sent, Entry(|s.txns|, Begin), i);
        assert Sound(CREATED, 0);
      case Queries => ProjectSnoc(s.sent, Plain, i);
      case Steps(j, a) =>
        assert TaggedAt(s, j);
        TaggedMove(s, j, a, i);
    }
  }

  lemma TaggedMove(s: System, j: nat, a: Action, i: nat)
    requires TaggedAt(s, i) && TaggedAt(s, j) && CanStep(s, Steps(j, a))
    ensures TaggedAt(Do(s, Steps(j, a)), i)
  {
    hide Sound, Apply, Enabled, Project;
    var t, x := Do(s, Steps(j, a)), s.txns[j];
    var o :| Sound(x, o);
    SoundStep(x, a, o);
    LogGrows(x, a, o);
    var y := Apply(x, a);
    if |y.log| == |x.log| {
      assert y.log == x.log && t.sent == s.sent;
    } else {
      assert y.log == x.log + [y.log[|x.log|]];
      assert t.sent == s.sent + [Entry(j, y.log[|x.log|])];
      ProjectSnoc(s.sent, Entry(j, y.log[|x.log|]), i);
    }
    assert i < |t.txns| && i != j ==> t.txns[i] == s.txns[i];
  }

  lemma {:induction false} RunTagged(s: System, steps: seq<Step>)
    requires Tagged(s) && CanRun(s, steps)
    ensures Tagged(Run(s, steps))
    decreases |steps|
  {
    if steps != [] {
      TaggedStep(s, steps[0]);
      RunTagged(Do(s, steps[0]), steps[1..]);
    }
  }

  lemma {:induction false} ProjectPrefix(sent: seq<Entry>, n: nat, i: nat)
    requires n <= |sent|
    ensures Project(sent[..n], i) <= Project(sent, i)
    decreases |sent|
  {
    if n < |sent| {
      ProjectPrefix(sent[..|sent| - 1], n, i);
      assert sent[..|sent| - 1][..n] == sent[..n];
    } else {
      assert sent[..n] == sent;
    }
  }

  /** However transactions and plain queries interleave on a client: the first n requests of the
      queue contain, of each transaction, nothing or a shaped part of its log from the start. */
  lemma OrderReachesExecution(steps: seq<Step>, n: nat, i: nat)
    requires CanRun(System([], []), steps)
    requires n <= |Run(System([], []), steps).sent| && i < |Run(System([], []), steps).txns|
    ensures
      var s := Run(System([], []), steps);
      && Project(s.sent, i) == s.txns[i].log && Shaped(s.txns[i].log)
      && Project(s.sent[..n], i) <= s.txns[i].log
      && (Project(s.sent[..n], i) == [] || Shaped(Project(s.sent[..n], i)))
  {
    RunTagged(System([], []), steps);
    PrefixShaped(Run(System([], []), steps), n, i);
  }

  lemma PrefixShaped(s: System, n: nat, i: nat)
    requires Tagged(s) && n <= |s.sent| && i < |s.txns|
    ensures
      && Project(s.sent, i) == s.txns[i].log && Shaped(s.txns[i].log)
      && Project(s.sent[..n], i) <= s.txns[i].log
      && (Project(s.sent[..n], i) == [] || Shaped(Project(s.sent[..n], i)))
  {
    assert TaggedAt(s, i);
    ProjectPrefix(s.sent, n, i);
  }
}
