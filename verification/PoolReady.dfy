/** When an eager pool gets ready: exactly when no session comes before it is. */
module PoolReady {
  import opened Tally
  import opened PoolProtocol
  import opened PoolRuns
  import opened PoolWarmup
  import opened PoolCalm

  // ---- Who announces ----

  ghost predicate Told(s: State) { s.ready <==> Sum(s.fillers, Announced) > 0 }

  lemma ToldStep(s: State, a: Action)
    requires Enabled(s, a) && Told(s)
    ensures Told(Apply(s, a))
  {
    hide Sum;
    OneMoves(s, a);
    StepSums(s, a, Demand, Announced);
    if a.Announce? { SumAtLeast(Apply(s, a).fillers, a.f, Announced); }
  }

  lemma {:induction false} ToldRun(s: State, acts: seq<Action>)
    requires Valid(s, acts) && Told(s)
    ensures Told(Exec(s, acts))
    decreases |acts|
  {
    if acts != [] {
      ToldStep(s, acts[0]);
      ToldRun(Apply(s, acts[0]), acts[1..]);
    }
  }

  /** In every run whatsoever: once all fillers of an eager pool have finished, it is ready if and only
      if one of them pushed the connection that made the queue its initial size. */
  lemma ReadyIffSeen(c: Config, acts: seq<Action>)
    requires Warms(c) && Valid(Initial(c), acts)
    requires forall f <- Exec(Initial(c), acts).fillers :: f.Done?
    ensures Exec(Initial(c), acts).ready <==> Done(true) in Exec(Initial(c), acts).fillers
  {
    var s := Exec(Initial(c), acts);
    SumZero(Initial(c).fillers, Announced);
    ToldRun(Initial(c), acts);
    if Done(true) in s.fillers {
      var f :| 0 <= f < |s.fillers| && s.fillers[f] == Done(true);
      SumAtLeast(s.fillers, f, Announced);
    } else {
      SumZero(s.fillers, Announced);
    }
  }

  /** A pool that is not ready when its fillers have finished never will be. */
  lemma {:induction false} NeverReady(s: State, acts: seq<Action>)
    requires Valid(s, acts) && !s.ready && forall f | 0 <= f < |s.fillers| :: s.fillers[f].Done?
    ensures !Exec(s, acts).ready
    decreases |acts|
  {
    if acts != [] {
      var a := acts[0];
      OneMoves(s, a);
      NeverReady(Apply(s, acts[0]), acts[1..]);
    }
  }

  // ---- What a session before readiness can do ----

  /** No filler is stopped, and a try for a permit fails only when there is none. */
  predicate Polite(s: State, a: Action) { Enabled(s, a) && !a.Stop? && (a.MissFill? ==> s.permits == 0) }

  predicate PoliteRun(s: State, acts: seq<Action>)
    decreases |acts|
  {
    acts == [] || (Polite(s, acts[0]) && PoliteRun(Apply(s, acts[0]), acts[1..]))
  }

  /** The fillers have finished and the pool is not ready, with so many sessions at most until then. */
  ghost predicate EndsUnready(c: Config, sessions: nat, acts: seq<Action>) {
    && Valid(Initial(c), acts) && PoliteRun(Initial(c), acts)
    && var s := Exec(Initial(c), acts);
       !s.ready && |s.clients| <= sessions && forall f <- s.fillers :: f.Done?
  }

  lemma {:induction false} SessionsStay(s: State, acts: seq<Action>)
    requires Valid(s, acts)
    ensures |Exec(s, acts).clients| >= |s.clients|
    decreases |acts|
  {
    if acts != [] {
      OneMoves(s, acts[0]);
      SessionsStay(Apply(s, acts[0]), acts[1..]);
    }
  }

  lemma {:induction false} EmptyIsCalm(s: State, acts: seq<Action>)
    requires Valid(s, acts) && PoliteRun(s, acts) && Exec(s, acts).clients == []
    ensures CalmRun(s, acts)
    decreases |acts|
  {
    if acts != [] {
      SessionsStay(Apply(s, acts[0]), acts[1..]);
      EmptyIsCalm(Apply(s, acts[0]), acts[1..]);
    }
  }

  lemma {:induction false} HarmlessIsPolite(s: State, acts: seq<Action>)
    requires Valid(s, acts) && forall a <- acts :: Harmless(a)
    ensures PoliteRun(s, acts)
    decreases |acts|
  {
    if acts != [] {
      assert acts[0] in acts;
      HarmlessIsPolite(Apply(s, acts[0]), acts[1..]);
    }
  }

  /** Too few connections are left to make for the queue to reach its initial size. */
  predicate Short(s: State, f: nat) {
    && f <= |s.fillers| && |s.queue| + (|s.fillers| - f) < s.config.initSize && s.permits > 0 && !s.ready
    && (forall g | 0 <= g < f :: s.fillers[g] == Done(false))
    && (forall g | f <= g < |s.fillers| :: s.fillers[g] == Starting)
  }

  lemma {:induction false} FillShort(s: State, f: nat) returns (acts: seq<Action>, t: State)
    requires Short(s, f)
    ensures Leads(s, acts, t) && !t.ready && t.clients == s.clients
    ensures forall g <- t.fillers :: g.Done?
    ensures forall a <- acts :: Harmless(a)
    decreases |s.fillers| - f
  {
    acts, t := [], s;
    if f < |s.fillers| {
      FillRound(s, f);
      var rest;
      rest, t := FillShort(Filled(s, f), f + 1);
      Then(s, FillSteps(f), Filled(s, f), rest, t);
      acts := FillSteps(f) + rest;
    }
  }

  /** The only filler of a pool finds its permit taken by a session, and gives up. */
  lemma SoleFillerMisses(c: Config) returns (acts: seq<Action>)
    requires Warms(c) && c.initSize == 1
    ensures EndsUnready(c, 1, acts)
  {
    var s := Initial(c);
    var looked := Apply(Apply(s, Arrive), Look(0));
    Two(s, Arrive, Look(0));
    var taken := Apply(looked, TakePermit(0));
    One(looked, TakePermit(0));
    var coming := [Arrive] + [Look(0)] + [TakePermit(0)];
    Then(s, [Arrive] + [Look(0)], looked, [TakePermit(0)], taken);
    HarmlessIsPolite(s, coming);
    One(taken, MissFill(0));
    Then(s, coming, taken, [MissFill(0)], Apply(taken, MissFill(0)));
    acts := coming + [MissFill(0)];
    PoliteAppend(s, coming, taken, MissFill(0));
  }

  lemma {:induction false} PoliteAppend(s: State, acts: seq<Action>, t: State, a: Action)
    requires Leads(s, acts, t) && PoliteRun(s, acts) && Polite(t, a)
    ensures PoliteRun(s, acts + [a])
    decreases |acts|
  {
    if acts == [] {
      assert [a][1..] == [];
      assert acts + [a] == [a];
    } else {
      assert (acts + [a])[1..] == acts[1..] + [a];
      PoliteAppend(Apply(s, acts[0]), acts[1..], t, a);
    }
  }

  /** A session takes the first warm connection away, and the queue stays one short. */
  lemma QueueStaysShort(c: Config) returns (acts: seq<Action>)
    requires Warms(c) && c.initSize > 1
    ensures EndsUnready(c, 1, acts)
  {
    var s := Initial(c);
    var one := Filled(s, 0);
    FillRound(s, 0);
    var taken := Apply(Apply(one, Arrive), Look(0));
    Two(one, Arrive, Look(0));
    Then(s, FillSteps(0), one, [Arrive] + [Look(0)], taken);
    var first := FillSteps(0) + ([Arrive] + [Look(0)]);
    var rest, t := FillShort(taken, 1);
    Then(s, first, taken, rest, t);
    acts := first + rest;
    HarmlessIsPolite(s, acts);
  }

  /** With fillers that are never stopped and never miss a permit that is there, an eager pool is ready
      whenever its fillers have finished if and only if no session is let in before: one session is
      enough to leave it unready for good. */
  lemma ReadyIff(c: Config, sessions: nat)
    requires Warms(c)
    ensures (forall acts :: !EndsUnready(c, sessions, acts)) <==> sessions == 0
  {
    if sessions == 0 {
      forall acts ensures !EndsUnready(c, 0, acts) {
        if EndsUnready(c, 0, acts) {
          EmptyIsCalm(Initial(c), acts);
          WarmupResult(c, acts);
        }
      }
    } else if c.initSize == 1 {
      var acts := SoleFillerMisses(c);
      assert EndsUnready(c, sessions, acts);
    } else {
      var acts := QueueStaysShort(c);
      assert EndsUnready(c, sessions, acts);
    }
  }
}
