/** Warming up an eager pool: no session enters before the pool is ready, no filler is stopped, and a
    filler's try for a permit fails only when there is none. Creation may fail and be retried. */
module PoolWarmup {
  import opened Tally
  import opened PoolProtocol

  predicate Calm(s: State, a: Action) {
    Enabled(s, a) && (a.Arrive? ==> s.ready) && !a.Stop? && (a.MissFill? ==> s.permits == 0)
  }

  predicate CalmRun(s: State, acts: seq<Action>)
    decreases |acts|
  {
    acts == [] || (Calm(s, acts[0]) && CalmRun(Apply(s, acts[0]), acts[1..]))
  }

  lemma {:induction false} CalmIsValid(s: State, acts: seq<Action>)
    requires CalmRun(s, acts)
    ensures Valid(s, acts)
    decreases |acts|
  {
    if acts != [] { CalmIsValid(Apply(s, acts[0]), acts[1..]); }
  }

  // ---- How far the fillers are ----

  function Past(f: Filler): nat { if f.Starting? || f.Filling? || f.Made? then 0 else 1 }

  function Behind(f: Filler): nat { 1 - Past(f) }

  /** Saw the queue reach its initial size. */
  function SawFull(f: Filler): nat {
    match f
    case Pushed(full) => if full then 1 else 0
    case Done(full) => if full then 1 else 0
    case Announcing => 1
    case Expanding => 1
    case Granting => 1
    case _ => 0
  }

  /** Has set the ready flag, has set the expanded flag, has released the extra permits. */
  function Announced(f: Filler): nat { if f.Expanding? || f.Granting? || f == Done(true) then 1 else 0 }

  function HasExpanded(f: Filler): nat { if f.Granting? || f == Done(true) then 1 else 0 }

  function HasGranted(f: Filler): nat { if f == Done(true) then 1 else 0 }

  ghost predicate Warming(s: State) {
    var n := |s.fillers|;
    && Warms(s.config) && n == s.config.initSize
    && PermitLaw(s)
    && Sum(s.fillers, SawFull) == (if Sum(s.fillers, Past) == n then 1 else 0)
    && (s.ready <==> Sum(s.fillers, Announced) > 0)
    && (!s.ready ==> s.clients == [])
    && (s.clients == [] ==> |s.queue| == Sum(s.fillers, Past) && s.book.created == 0 && s.book.returned == 0)
    && s.book.granted == n + (if Sum(s.fillers, HasGranted) > 0 then Extra(s.config) else 0)
    && (if s.config.maxSize > n then s.expanded <==> Sum(s.fillers, HasExpanded) > 0
        else !s.expanded && forall f <- s.fillers :: !f.Expanding? && !f.Granting?)
  }

  lemma InitialWarming(c: Config)
    requires Warms(c)
    ensures Warming(Initial(c))
  {
    var s := Initial(c);
    SumZero(s.fillers, FillPermit);
    SumZero(s.fillers, Past);
    SumZero(s.fillers, SawFull);
    SumZero(s.fillers, Announced);
    SumZero(s.fillers, HasExpanded);
    SumZero(s.fillers, HasGranted);
  }

  lemma {:induction false} SumOnes(s: seq<Filler>)
    ensures Sum(s, Past) + Sum(s, Behind) == |s|
  {
    if s != [] { SumOnes(s[1..]); }
  }

  /** A filler that has not pushed yet keeps the others from having all pushed. */
  lemma NotAllPast(s: State, f: nat)
    requires f < |s.fillers| && Past(s.fillers[f]) == 0
    ensures Sum(s.fillers, Past) < |s.fillers|
  {
    SumOnes(s.fillers);
    SumAtLeast(s.fillers, f, Behind);
  }

  lemma {:induction false} PermitsBehind(s: seq<Filler>, f: nat)
    requires f < |s| && FillPermit(s[f]) == 0
    ensures Sum(s, FillPermit) < |s|
  {
    if f == 0 { PermitsAtMost(s[1..]); } else { PermitsBehind(s[1..], f - 1); }
  }

  lemma {:induction false} PermitsAtMost(s: seq<Filler>)
    ensures Sum(s, FillPermit) <= |s|
  {
    if s != [] { PermitsAtMost(s[1..]); }
  }

  lemma Orders(s: State)
    ensures Sum(s.fillers, HasGranted) <= Sum(s.fillers, HasExpanded) <= Sum(s.fillers, Announced)
            <= Sum(s.fillers, SawFull)
  {
    SumAtMost(s.fillers, HasGranted, HasExpanded);
    SumAtMost(s.fillers, HasExpanded, Announced);
    SumAtMost(s.fillers, Announced, SawFull);
  }

  /** Every filler that is due a permit finds one. */
  lemma FillerFindsPermit(s: State, f: nat)
    requires Warming(s) && f < |s.fillers| && s.fillers[f] == Starting
    ensures s.permits > 0
  {
    NotAllPast(s, f);
    Orders(s);
    PermitsBehind(s.fillers, f);
  }

  /** The one filler that saw the queue full accounts for all that follows from it. */
  lemma {:induction false} SoleSeer(s: seq<Filler>, f: nat, w: Filler -> nat)
    requires f < |s| && SawFull(s[f]) == 1 && Sum(s, SawFull) <= 1
    requires forall x :: w(x) <= SawFull(x)
    ensures Sum(s, w) == w(s[f])
  {
    if f == 0 {
      SumAtMost(s[1..], w, SawFull);
    } else {
      SumAtLeast(s[1..], f - 1, SawFull);
      SoleSeer(s[1..], f - 1, w);
    }
  }

  /** The counts before and after a filler's step. */
  lemma FillerSums(s: State, a: Action, f: nat)
    requires Enabled(s, a) && Who(a) == WarmUp(f)
    ensures
      var t := Apply(s, a);
      && f < |s.fillers| == |t.fillers|
      && Sum(t.fillers, Past) + Past(s.fillers[f]) == Sum(s.fillers, Past) + Past(t.fillers[f])
      && Sum(t.fillers, SawFull) + SawFull(s.fillers[f]) == Sum(s.fillers, SawFull) + SawFull(t.fillers[f])
      && Sum(t.fillers, Announced) + Announced(s.fillers[f]) == Sum(s.fillers, Announced) + Announced(t.fillers[f])
      && Sum(t.fillers, HasExpanded) + HasExpanded(s.fillers[f])
         == Sum(s.fillers, HasExpanded) + HasExpanded(t.fillers[f])
      && Sum(t.fillers, HasGranted) + HasGranted(s.fillers[f]) == Sum(s.fillers, HasGranted) + HasGranted(t.fillers[f])
  {
    StepSums(s, a, Demand, Past);
    StepSums(s, a, Demand, SawFull);
    StepSums(s, a, Demand, Announced);
    StepSums(s, a, Demand, HasExpanded);
    StepSums(s, a, Demand, HasGranted);
  }

  lemma FillerStep(s: State, a: Action, f: nat)
    requires Warming(s) && Calm(s, a) && Who(a) == WarmUp(f)
    ensures Warming(Apply(s, a))
  {
    PermitStep(s, a);
    FillerSums(s, a, f);
    Orders(s);
    if SawFull(s.fillers[f]) == 1 {
      SoleSeer(s.fillers, f, Announced);
      SoleSeer(s.fillers, f, HasExpanded);
      SoleSeer(s.fillers, f, HasGranted);
      SeerStep(s, a, f);
    } else {
      if s.fillers[f] == Starting { FillerFindsPermit(s, f); }
      if Past(s.fillers[f]) == 0 { NotAllPast(s, f); }
      EarlyStep(s, a, f);
    }
  }

  lemma SeerStep(s: State, a: Action, f: nat)
    requires Warming(s) && Calm(s, a) && Who(a) == WarmUp(f) && SawFull(s.fillers[f]) == 1
    requires PermitLaw(Apply(s, a))
    requires Sum(s.fillers, Announced) == Announced(s.fillers[f])
    requires Sum(s.fillers, HasExpanded) == HasExpanded(s.fillers[f])
    requires Sum(s.fillers, HasGranted) == HasGranted(s.fillers[f])
    ensures Warming(Apply(s, a))
  {
    FillerSums(s, a, f);
    OneMoves(s, a);
  }

  lemma EarlyStep(s: State, a: Action, f: nat)
    requires Warming(s) && Calm(s, a) && Who(a) == WarmUp(f) && SawFull(s.fillers[f]) == 0
    requires PermitLaw(Apply(s, a)) && !a.MissFill?
    requires Past(s.fillers[f]) == 0 ==> Sum(s.fillers, Past) < |s.fillers|
    ensures Warming(Apply(s, a))
  {
    FillerSums(s, a, f);
    OneMoves(s, a);
    Orders(s);
  }

  lemma WarmingStep(s: State, a: Action)
    requires Warming(s) && Calm(s, a)
    ensures Warming(Apply(s, a))
  {
    if Who(a).WarmUp? {
      FillerStep(s, a, Who(a).f);
    } else {
      OneMoves(s, a);
      PermitStep(s, a);
    }
  }

  lemma {:induction false} RunWarming(s: State, acts: seq<Action>)
    requires Warming(s) && CalmRun(s, acts) && Valid(s, acts)
    ensures Warming(Exec(s, acts)) && Exec(s, acts).config == s.config
    decreases |acts|
  {
    if acts != [] {
      WarmingStep(s, acts[0]);
      RunWarming(Apply(s, acts[0]), acts[1..]);
    }
  }

  /** In every interleaving: a filler that tries for a permit gets one, at most one filler sees the
      queue full, and nobody is told the pool is ready before every filler has pushed. */
  lemma WarmupRun(c: Config, acts: seq<Action>, f: nat)
    requires Warms(c) && CalmRun(Initial(c), acts) && Valid(Initial(c), acts)
    ensures
      var s := Exec(Initial(c), acts);
      && (f < |s.fillers| && s.fillers[f] == Starting ==> s.permits > 0)
      && Sum(s.fillers, SawFull) <= 1
      && (s.ready ==> Sum(s.fillers, Past) == c.initSize)
  {
    var s := Exec(Initial(c), acts);
    InitialWarming(c);
    RunWarming(Initial(c), acts);
    Orders(s);
    if f < |s.fillers| && s.fillers[f] == Starting { FillerFindsPermit(s, f); }
  }

  /** When every filler has finished, the pool is ready, exactly one of them saw it full, and it was
      granted its maximum size once; if no session has entered, the queue holds the initial
      connections and the permits are the maximum size. */
  lemma WarmupResult(c: Config, acts: seq<Action>)
    requires Warms(c) && CalmRun(Initial(c), acts) && Valid(Initial(c), acts)
    requires forall f <- Exec(Initial(c), acts).fillers :: f.Done?
    ensures
      var s := Exec(Initial(c), acts);
      && s.ready && Sum(s.fillers, SawFull) == 1
      && s.book.granted == c.maxSize && (s.expanded <==> c.maxSize > c.initSize)
      && (s.clients == [] ==> |s.queue| == c.initSize && s.permits == c.maxSize)
  {
    var s := Exec(Initial(c), acts);
    InitialWarming(c);
    RunWarming(Initial(c), acts);
    Orders(s);
    SumOnes(s.fillers);
    SumZero(s.fillers, Behind);
    SumZero(s.fillers, FillPermit);
    SumAtMost(s.fillers, SawFull, HasGranted);
  }
}
