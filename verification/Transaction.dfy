/** The transaction handle's code. */
module Transaction {
  import opened TransactionProtocol

  /** What another thread tries on the handle. */
  datatype Attempt = Query(query: nat) | Finish(commit: bool)

  /** The part of the client a transaction sees: an append to its request queue. */
  class Executor {
    var sent: seq<Message>

    constructor ()
      ensures sent == []
    {
      sent := [];
    }

    method SendToWorker(m: Message)
      modifies this
      ensures sent == old(sent) + [m]
    {
      sent := sent + [m];
    }
  }

  class TransactionHandle {
    var executor: Executor?
    var state: Phase

    function View(): Handle
      reads this
    {
      Handle(executor != null, state, [], Alive)
    }

    /** The protocol's view of a transaction with this one handle. */
    function Alone(): Txn
      requires executor != null
      reads this, executor
    {
      Txn([View()], executor.sent)
    }

    constructor (e: Executor)
      ensures executor == e && state == Active
    {
      executor, state := e, Active;
    }

    /** The move leaves the source without an executor but does not change its state. */
    constructor Move(other: TransactionHandle)
      modifies other`executor
      ensures executor == old(other.executor) && other.executor == null
      ensures View() == old(other.View()) && other.View() == old(other.View()).(owner := false)
    {
      executor, state := other.executor, other.state;
      new;
      other.executor := null;
    }

    /** Check and append under one lock; a closed transaction refuses. Only an active handle needs its
        executor, so a moved-from one may be used once it is closed. */
    method Execute(m: Message) returns (accepted: bool)
      requires executor != null || state != Active
      modifies if executor != null then {executor} else {}
      ensures accepted == (state == Active)
      ensures executor != null ==> executor.sent == old(executor.sent) + if accepted then [m] else []
      ensures executor != null && m.Statement? ==> Alone() == Apply(old(Alone()), Action.Execute(0, m.query))
    {
      accepted := state == Active;
      if accepted {
        executor.SendToWorker(m);
      }
    }

    /** Under the lock: whether this call is the one that closes the transaction. */
    method Close(phase: Phase) returns (won: bool)
      requires phase != Active
      modifies this`state
      ensures won == (old(state) == Active) && state == if won then phase else old(state)
      ensures View().(unsent := if won then [Terminator(phase)] else []) ==
              TransactionProtocol.Close(old(View()), phase, Terminator(phase))
    {
      won := state == Active;
      if won {
        state := phase;
      }
    }

    /** What other threads try between the unlock and the send: any statements and endings, in any order. */
    method Meanwhile(attempts: seq<Attempt>)
      requires executor != null && state != Active
      modifies executor, this`state
      ensures state == old(state) && executor.sent == old(executor.sent)
    {
      for k := 0 to |attempts|
        invariant state == old(state) && executor.sent == old(executor.sent)
      {
        match attempts[k]
        case Query(q) => var accepted := Execute(Statement(q));
        case Finish(commit) => var won := Close(if commit then Committed else RolledBack);
      }
    }

    /** commit, rollback: close under the lock, then send the terminator; whatever other threads try
        in between, the log grows by that terminator alone, and a closed transaction sends nothing. */
    method End(phase: Phase, attempts: seq<Attempt>)
      requires (executor != null || state != Active) && phase != Active
      modifies this`state, if executor != null then {executor} else {}
      ensures state == if old(state) == Active then phase else old(state)
      ensures executor != null ==>
        && executor.sent == old(executor.sent) +
             (if old(state) != Active then [] else if phase == Committed then [Commit] else [Rollback])
        && Valid(old(Alone()), Ending(phase, old(state) == Active))
        && Alone() == Exec(old(Alone()), Ending(phase, old(state) == Active))
    {
      var won := Close(phase);
      if won {
        Meanwhile(attempts);
        executor.SendToWorker(Terminator(phase));
      }
      if executor != null { EndingRun(old(Alone()), phase); }
    }

    /** The destructor: an active owner rolls back; a moved-from or closed handle sends nothing and
        keeps its state. */
    method Destroy()
      modifies this`state, if executor != null then {executor} else {}
      ensures state == if old(state) == Active && executor != null then RolledBack else old(state)
      ensures executor != null ==>
        && executor.sent == old(executor.sent) + (if old(state) == Active then [Rollback] else [])
        && Valid(old(Alone()), Destruction(old(state) == Active))
        && Txn([View().(life := Dead)], executor.sent) == Exec(old(Alone()), Destruction(old(state) == Active))
    {
      if state == Active && executor != null {
        state := RolledBack;
        executor.SendToWorker(Rollback);
      }
      if executor != null { DestructionRun(old(Alone())); }
    }
  }

  function Destruction(active: bool): seq<Action> { [StartDestroy(0)] + if active then [Send(0)] else [] }

  lemma DestructionRun(t: Txn)
    requires |t.handles| == 1 && t.handles[0] == Handle(true, t.handles[0].phase, [], Alive)
    ensures
      var x := t.handles[0];
      && Valid(t, Destruction(x.phase == Active))
      && Exec(t, Destruction(x.phase == Active)) ==
         if x.phase == Active then Txn([x.(phase := RolledBack, life := Dead)], t.log + [Rollback])
         else Txn([x.(life := Dead)], t.log)
  {
    var steps := Destruction(t.handles[0].phase == Active);
    var closed := Apply(t, steps[0]);
    if t.handles[0].phase == Active {
      assert steps[1..] == [Send(0)] && [Send(0)][1..] == [];
    } else {
      assert steps[1..] == [] && closed == Txn([t.handles[0].(life := Dead)], t.log);
    }
  }

  /** The protocol steps of a call to commit or rollback: only the call that closes the transaction sends. */
  function Ending(phase: Phase, active: bool): seq<Action>
    requires phase != Active
  {
    [if phase == Committed then StartCommit(0) else StartRollback(0)] + if active then [Send(0)] else []
  }

  lemma EndingRun(t: Txn, phase: Phase)
    requires phase != Active && |t.handles| == 1 && t.handles[0] == Handle(true, t.handles[0].phase, [], Alive)
    ensures
      var active := t.handles[0].phase == Active;
      && Valid(t, Ending(phase, active))
      && Exec(t, Ending(phase, active)) ==
         if active then Txn([t.handles[0].(phase := phase)], t.log + [Terminator(phase)]) else t
  {
    var steps := Ending(phase, t.handles[0].phase == Active);
    var closed := Apply(t, steps[0]);
    if t.handles[0].phase == Active {
      assert steps[1..] == [Send(0)] && [Send(0)][1..] == [];
      assert Apply(closed, Send(0)) == Txn([t.handles[0].(phase := phase)], t.log + [Terminator(phase)]);
    } else {
      assert steps[1..] == [] && closed == t;
    }
  }

  /** create_transaction: BEGIN goes first; when it fails the handle is destroyed at once and rolls back. */
  method CreateTransaction(e: Executor, beginFails: bool) returns (h: TransactionHandle?)
    modifies e
    ensures (h == null) == beginFails
    ensures e.sent == old(e.sent) + [Begin] + if beginFails then [Rollback] else []
    ensures h != null ==> h.executor == e && h.state == Active
  {
    var txn := new TransactionHandle(e);
    var accepted := txn.Execute(Begin);
    if beginFails {
      txn.Destroy();
      h := null;
    } else {
      h := txn;
    }
  }
}
