/** The pool used as intended: sessions come only once it is ready. Its size then depends on the
    sessions alone. */
module PoolCalm {
  import opened Tally
  import opened PoolProtocol
  import opened PoolRuns
  import opened PoolWarmup

  // ---- The bound ----

  /** The connections there are, being made by sessions, or still to be made by fillers. */
  ghost predicate Confined(s: State) {
    |s.book.live| + Sum(s.clients, Making) + Sum(s.fillers, Unmade) <= Max(s.config.initSize, s.book.peak)
  }

  lemma AllPast(fs: seq<Filler>)
    requires Sum(fs, Past) == |fs|
    ensures Sum(fs, Unmade) == 0 && Sum(fs, Carrying) == 0
  {
    SumOnes(fs);
    SumAtMost(fs, Unmade, Behind);
    SumAtMost(fs, Carrying, Behind);
  }

  /** While a session is in the pool every filler has pushed. */
  lemma SessionsMeetNoFiller(s: State)
    requires Warming(s) && s.clients != []
    ensures Sum(s.fillers, Unmade) == 0 && Sum(s.fillers, Carrying) == 0
  {
    Orders(s);
    AllPast(s.fillers);
  }

  lemma ConfinedStep(s: State, a: Action)
    requires Inv(s) && Warming(s) && Confined(s) && Calm(s, a)
    ensures Confined(Apply(s, a))
  {
    var t := Apply(s, a);
    hide Sum, Inv;
    PeakGrows(s, a);
    if a.Recheck? && s.queue == [] {
      SessionsMeetNoFiller(s);
      RecheckDemand(s, a);
    } else {
      MakingStep(s, a);
      WarmedStep(s, a);
    }
  }

  lemma PeakGrows(s: State, a: Action)
    requires Enabled(s, a)
    ensures Apply(s, a).book.peak >= s.book.peak && Apply(s, a).config == s.config
  {
  }

  /** A session that is about to create finds every connection with a session. */
  lemma RecheckDemand(s: State, a: Action)
    requires Inv(s) && Enabled(s, a) && a.Recheck? && s.queue == [] && Sum(s.fillers, Carrying) == 0
    ensures
      var t := Apply(s, a);
      t.fillers == s.fillers && |t.book.live| + Sum(t.clients, Making) <= t.book.peak
  {
    var t := Apply(s, a);
    OwnedStep(s, a);
    DemandStep(s, a);
    EmptyQueueDemand(t);
  }

  lemma {:induction false} CalmInv(s: State, acts: seq<Action>)
    requires Inv(s) && Warming(s) && Confined(s) && CalmRun(s, acts) && Valid(s, acts)
    ensures Inv(Exec(s, acts)) && Warming(Exec(s, acts)) && Confined(Exec(s, acts)) && Exec(s, acts).config == s.config
    decreases |acts|
  {
    if acts != [] {
      var a := acts[0];
      One(s, a);
      RunInv(s, [a]);
      WarmingStep(s, a);
      ConfinedStep(s, a);
      PeakGrows(s, a);
      CalmInv(Apply(s, a), acts[1..]);
    }
  }

  /** In calm runs connections never outnumber the sessions at their peak, or the initial ones. */
  lemma CalmBound(c: Config, acts: seq<Action>)
    requires Warms(c) && CalmRun(Initial(c), acts) && Valid(Initial(c), acts)
    ensures
      var s := Exec(Initial(c), acts);
      |s.book.live| + Sum(s.clients, Making) <= Max(c.initSize, s.book.peak)
  {
    InitialInv(c);
    InitialWarming(c);
    UnmadeAtMost(Initial(c).fillers);
    CalmInv(Initial(c), acts);
  }

  // ---- The run that reaches it ----

  /** Steps that are calm whenever they are possible, but for an arrival before the pool is ready. */
  predicate Harmless(a: Action) { !a.Stop? && !a.MissFill? }

  lemma {:induction false} HarmlessIsCalm(s: State, acts: seq<Action>)
    requires Valid(s, acts) && (forall a <- acts :: Harmless(a)) && (s.ready || forall a <- acts :: !a.Arrive?)
    ensures CalmRun(s, acts)
    decreases |acts|
  {
    if acts != [] {
      assert acts[0] in acts && (s.ready ==> Apply(s, acts[0]).ready);
      HarmlessIsCalm(Apply(s, acts[0]), acts[1..]);
    }
  }

  lemma {:induction false} CalmAppend(s: State, a: seq<Action>, b: seq<Action>)
    requires CalmRun(s, a) && Valid(s, a) && CalmRun(Exec(s, a), b)
    ensures CalmRun(s, a + b)
    decreases |a|
  {
    hide Enabled, Apply;
    if a == [] {
      assert a + b == b;
    } else {
      assert (a + b)[1..] == a[1..] + b;
      CalmAppend(Apply(s, a[0]), a[1..], b);
    }
  }

  /** The fillers before f are through, and only the one that filled the queue has more to do. */
  predicate FilledUpTo(s: State, f: nat) {
    && |s.queue| == f <= |s.fillers| == s.config.initSize && s.permits > 0
    && (forall g | 0 <= g < f :: s.fillers[g] == if g + 1 == |s.fillers| then Announcing else Done(false))
    && (forall g | f <= g < |s.fillers| :: s.fillers[g] == Starting)
    && |s.book.live| == f && (forall c <- s.book.live :: c < s.book.next)
  }

  lemma {:induction false} FillAll(s: State, f: nat) returns (acts: seq<Action>, t: State)
    requires FilledUpTo(s, f)
    ensures Leads(s, acts, t) && FilledUpTo(t, |s.fillers|)
    ensures t.clients == s.clients && t.config == s.config && t.expanded == s.expanded && t.book.peak == s.book.peak
    ensures forall a <- acts :: Harmless(a) && !a.Arrive?
    decreases |s.fillers| - f
  {
    acts, t := [], s;
    if f < |s.fillers| {
      FillRound(s, f);
      var rest;
      rest, t := FillAll(Filled(s, f), f + 1);
      Then(s, FillSteps(f), Filled(s, f), rest, t);
      acts := FillSteps(f) + rest;
    }
  }

  /** The last filler announces the pool, expands it if there is more to grant, and is through. */
  lemma OpenUp(s: State, f: nat) returns (acts: seq<Action>, t: State)
    requires f < |s.fillers| && s.fillers[f] == Announcing && !s.expanded
    requires forall g | 0 <= g < |s.fillers| && g != f :: s.fillers[g].Done?
    ensures Leads(s, acts, t) && t.clients == s.clients && t.config == s.config && t.book.peak == s.book.peak
    ensures t.book.live == s.book.live
    ensures forall g <- t.fillers :: g.Done?
    ensures forall a <- acts :: Harmless(a) && !a.Arrive?
  {
    var told := Apply(s, Announce(f));
    One(s, Announce(f));
    acts, t := [Announce(f)], told;
    if told.fillers[f] == Expanding {
      Two(told, Expand(f), Grant(f));
      t := Apply(Apply(told, Expand(f)), Grant(f));
      Then(s, acts, told, [Expand(f)] + [Grant(f)], t);
      acts := acts + ([Expand(f)] + [Grant(f)]);
    }
  }

  /** A calm warm-up, start to end. */
  lemma WarmUpRun(c: Config) returns (acts: seq<Action>, t: State)
    requires Warms(c)
    ensures Leads(Initial(c), acts, t) && CalmRun(Initial(c), acts)
    ensures t.ready && t.clients == [] && |t.queue| == c.initSize && t.permits == c.maxSize && t.book.peak == 0
    ensures |t.book.live| == c.initSize && DemandOf(t) == 0
  {
    var s := Initial(c);
    var filling, full := FillAll(s, 0);
    var opening;
    opening, t := OpenUp(full, |full.fillers| - 1);
    Then(s, filling, full, opening, t);
    acts := filling + opening;
    HarmlessIsCalm(s, acts);
    WarmupResult(c, acts);
  }

  /** A session comes and takes the front of the queue, which it keeps. */
  lemma {:induction false} TakeRounds(s: State, k: nat) returns (acts: seq<Action>, t: State)
    requires k <= |s.queue|
    ensures Leads(s, acts, t)
    ensures |t.queue| == |s.queue| - k && t.permits == s.permits && t.book.live == s.book.live
    ensures DemandOf(t) == DemandOf(s) + k && t.book.peak <= Max(s.book.peak, DemandOf(s) + k)
    ensures forall a <- acts :: !Who(a).WarmUp?
    decreases k
  {
    acts, t := [], s;
    if k > 0 {
      var n := |s.clients|;
      PoolRuns.Enter(s);
      var mid := Apply(Apply(s, Arrive), Look(n));
      Two(s, Arrive, Look(n));
      assert mid.clients == s.clients + [Holding(s.queue[0])];
      SumAppend(s.clients, Holding(s.queue[0]), Demand);
      var rest;
      rest, t := TakeRounds(mid, k - 1);
      Then(s, [Arrive] + [Look(n)], mid, rest, t);
      acts := [Arrive] + [Look(n)] + rest;
    }
  }

  /** A session more than the size: the initial connections are taken, the others created. */
  lemma CrowdedRun(c: Config) returns (acts: seq<Action>, t: State)
    requires Warms(c)
    ensures Leads(Initial(c), acts, t) && CalmRun(Initial(c), acts)
    ensures |t.book.live| == c.maxSize + 1 && t.book.peak <= c.maxSize + 1
  {
    hide Inv, Sum, Leads, CalmRun;
    var s := Initial(c);
    var warm, ready := WarmUpRun(c);
    var taking, taken := TakeRounds(ready, c.initSize);
    Then(s, warm, ready, taking, taken);
    InitialInv(c);
    LeadsInv(s, warm + taking, taken);
    var making;
    making, t := SlowRounds(taken, c.maxSize + 1 - c.initSize);
    Then(ready, taking, taken, making, t);
    Then(s, warm, ready, taking + making, t);
    acts := warm + (taking + making);
    SessionsAreCalm(ready, taking + making, t);
    CalmThen(s, warm, ready, taking + making, t);
  }

  lemma SessionsAreCalm(s: State, acts: seq<Action>, t: State)
    requires Leads(s, acts, t) && s.ready && forall a <- acts :: !Who(a).WarmUp?
    ensures CalmRun(s, acts)
  {
    HarmlessIsCalm(s, acts);
  }

  lemma CalmThen(s: State, a: seq<Action>, t: State, b: seq<Action>, u: State)
    requires CalmRun(s, a) && Leads(s, a, t) && CalmRun(t, b) && Leads(t, b, u)
    ensures CalmRun(s, a + b)
  {
    CalmAppend(s, a, b);
  }

  /** A calm run with at most peak sessions at once that ends with more connections than the size. */
  ghost predicate CalmExceeds(c: Config, peak: nat, acts: seq<Action>) {
    CalmRun(Initial(c), acts) && Exceeds(c, peak, acts)
  }

  /** An eager pool whose sessions wait for it keeps to its maximum size in every run exactly when
      the sessions at once do: its warm-up connections do not count against them. */
  lemma CalmSizeKeptIff(c: Config, peak: nat)
    requires Warms(c)
    ensures (forall acts :: !CalmExceeds(c, peak, acts)) <==> peak <= c.maxSize
  {
    if peak <= c.maxSize {
      forall acts ensures !CalmExceeds(c, peak, acts) {
        if CalmExceeds(c, peak, acts) { CalmBound(c, acts); }
      }
    } else {
      var acts, t := CrowdedRun(c);
      assert CalmExceeds(c, peak, acts);
    }
  }
}
