/** Transactions and the client that executes their requests, as one system: what a transaction step
    sends is what the client accepts, and both go on in any interleaving. */
module TransactionOrder {
  import opened TransactionProtocol
  import Client = ClientProtocol
  import ClientRuns

  datatype Joint = Joint(client: Client.State, txns: System)

  /** The asynchronous flag tells execute_async from execute. */
  datatype JointStep = ByClient(a: Client.Action) | ByCaller(st: Step, async: bool)

  function Start(heartbeat: bool, n: nat): Joint { Joint(Client.Connected(heartbeat, n), System([], [])) }

  /** BEGIN and the terminators are waited for; only statements and plain queries can be asynchronous. */
  function Direct(st: Step, async: bool): bool {
    !(async && (st.Queries? || (st.Steps? && st.a.Execute?)))
  }

  predicate CanGo(j: Joint, step: JointStep) {
    match step
    case ByClient(a) => !a.Submit? && Client.Enabled(j.client, a)
    case ByCaller(st, async) => CanStep(j.txns, st) && Client.Enabled(j.client, Client.Submit(Direct(st, async)))
  }

  /** A caller's step that sends a request submits it to the client in the same step. */
  function Go(j: Joint, step: JointStep): Joint
    requires CanGo(j, step)
  {
    match step
    case ByClient(a) => j.(client := Client.Apply(j.client, a))
    case ByCaller(st, async) =>
      var txns := Do(j.txns, st);
      if txns.sent == j.txns.sent then j.(txns := txns)
      else Joint(Client.Apply(j.client, Client.Submit(Direct(st, async))), txns)
  }

  predicate CanGoOn(j: Joint, steps: seq<JointStep>)
    decreases |steps|
  {
    steps == [] || (CanGo(j, steps[0]) && CanGoOn(Go(j, steps[0]), steps[1..]))
  }

  function GoOn(j: Joint, steps: seq<JointStep>): Joint
    requires CanGoOn(j, steps)
    decreases |steps|
  {
    if steps == [] then j else GoOn(Go(j, steps[0]), steps[1..])
  }

  /** The k-th accepted request is the k-th sent one; BEGIN and the terminators are direct requests. */
  ghost predicate Matched(j: Joint) {
    && ClientRuns.Inv(j.client) && Tagged(j.txns)
    && |j.client.accepted| == |j.txns.sent|
    && forall k | 0 <= k < |j.txns.sent| :: Awaited(j, k)
  }

  predicate Awaited(j: Joint, k: nat)
    requires k < |j.txns.sent| == |j.client.accepted|
  {
    var e := j.txns.sent[k];
    e.Entry? && !e.message.Statement? ==> j.client.accepted[k].direct
  }

  /** A step sends at most one request, and one that can be asynchronous nothing but a statement. */
  lemma SendsOne(s: System, st: Step)
    requires Tagged(s) && CanStep(s, st)
    ensures
      var t := Do(s, st);
      || t.sent == s.sent
      || (t.sent == s.sent + [t.sent[|s.sent|]]
          && (!Direct(st, true) && t.sent[|s.sent|].Entry? ==> t.sent[|s.sent|].message.Statement?))
  {
    if st.Steps? {
      assert TaggedAt(s, st.i);
      var x := s.txns[st.i];
      var o :| Sound(x, o);
      LogGrows(x, st.a, o);
      var y := Apply(x, st.a);
      if |y.log| == |x.log| {
        assert Do(s, st).sent == s.sent;
      } else {
        assert Do(s, st).sent == s.sent + [Entry(st.i, y.log[|x.log|])];
      }
    }
  }

  lemma ClientKept(c: Client.State, a: Client.Action)
    requires ClientRuns.Inv(c) && Client.Enabled(c, a)
    ensures ClientRuns.Inv(Client.Apply(c, a))
    ensures !a.Submit? ==> Client.Apply(c, a).accepted == c.accepted
    ensures a.Submit? ==> Client.Apply(c, a).accepted == c.accepted + [Client.Request(|c.accepted|, a.direct)]
  {
    Client.One(c, a);
    ClientRuns.RunInv(c, [a]);
  }

  lemma MatchedStep(j: Joint, step: JointStep)
    requires Matched(j) && CanGo(j, step)
    ensures Matched(Go(j, step))
  {
    hide ClientRuns.Inv, Client.Apply, Client.Enabled, Tagged, Do, CanStep;
    var next := Go(j, step);
    match step
    case ByClient(a) =>
      ClientKept(j.client, a);
      forall k | 0 <= k < |next.txns.sent| ensures Awaited(next, k) { assert Awaited(j, k); }
    case ByCaller(st, async) =>
      TaggedStep(j.txns, st);
      SendsOne(j.txns, st);
      ClientKept(j.client, Client.Submit(Direct(st, async)));
      forall k | 0 <= k < |next.txns.sent| ensures Awaited(next, k) {
        if k < |j.txns.sent| { assert Awaited(j, k); }
      }
  }

  lemma {:induction false} MatchedRun(j: Joint, steps: seq<JointStep>)
    requires Matched(j) && CanGoOn(j, steps)
    ensures Matched(GoOn(j, steps))
    decreases |steps|
  {
    if steps != [] {
      MatchedStep(j, steps[0]);
      MatchedRun(Go(j, steps[0]), steps[1..]);
    }
  }

  /** In every run of the whole: the requests the worker has answered are the first ones sent, in
      order, and contain of each transaction nothing or a shaped part of its log from the start. */
  lemma AnsweredInTransactionOrder(heartbeat: bool, n: nat, steps: seq<JointStep>, i: nat)
    requires CanGoOn(Start(heartbeat, n), steps)
    requires i < |GoOn(Start(heartbeat, n), steps).txns.txns|
    ensures
      var j := GoOn(Start(heartbeat, n), steps);
      var answers, sent := j.client.answers, j.txns.sent;
      && |answers| <= |sent| == |j.client.accepted|
      && (forall k | 0 <= k < |answers| :: answers[k].request == j.client.accepted[k])
      && (forall k | 0 <= k < |sent| && sent[k].Entry? && !sent[k].message.Statement? :: j.client.accepted[k].direct)
      && Project(sent[..|answers|], i) <= j.txns.txns[i].log
      && (Project(sent[..|answers|], i) == [] || Shaped(Project(sent[..|answers|], i)))
  {
    var j := GoOn(Start(heartbeat, n), steps);
    var c := j.client;
    ClientRuns.ConnectedInv(heartbeat, n);
    MatchedRun(Start(heartbeat, n), steps);
    forall k | 0 <= k < |c.answers| ensures c.answers[k].request == c.accepted[k] {
      assert c.accepted[k] == Client.Requests(c.answers)[k];
    }
    forall k | 0 <= k < |j.txns.sent| && j.txns.sent[k].Entry? && !j.txns.sent[k].message.Statement?
      ensures c.accepted[k].direct { assert Awaited(j, k); }
    PrefixShaped(j.txns, |c.answers|, i);
  }
}
