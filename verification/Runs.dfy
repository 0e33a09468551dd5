/** Runs: finite interleavings of atomic steps, and the invariant on every state they reach. */
module Runs {
  import opened Machine
  import opened Invariant
  import opened Preservation
  import opened Claims
  import opened Wakeups
  import opened Shutdown

  ghost predicate Inv(v: State) {
    Core(v) && ClaimsOk(v) && StaleOk(v.size, v.h.log, v.h.writes) && WakersOk(v) && DropOk(v)
  }

  /** Taking `steps` one after the other leads from `v` to `v'`. */
  ghost predicate Run(v: State, steps: seq<Step>, v': State)
    decreases |steps|
  {
    if steps == [] then v' == v
    else WellFormed(v) && Enabled(v, steps[0]) && Run(Apply(v, steps[0]), steps[1..], v')
  }

  // ----- reachability as closure -----

  /** Who takes a step. */
  datatype Party = Sender(a: nat) | Receiving(i: nat) | Other

  function Actor(step: Step): Party {
    match step
    case Clone => Other
    case StartRecv(i, _, _) => Receiving(i)
    case Inspect(i) => Receiving(i)
    case Register(i) => Receiving(i)
    case ReadNext(i) => Receiving(i)
    case Commit(i) => Receiving(i)
    case DropReceiver(i) => Receiving(i)
    case _ => Sender(step.a)
  }

  /** No step of anybody but `me` leads out of the set; with `Nobody`, no step at all. */
  ghost predicate ClosedUnder(S: iset<State>, me: Excluded) {
    forall w: State, step: Step ::
      w in S && WellFormed(w) && Enabled(w, step) && me != Someone(Actor(step)) ==> Apply(w, step) in S
  }

  /** Whose steps are left out. */
  datatype Excluded = Nobody | Someone(party: Party)

  /** The others, by any number of steps, can lead from `v` to `v'`. */
  ghost predicate Leads(me: Excluded, v: State, v': State) {
    forall S: iset<State> :: v in S && ClosedUnder(S, me) ==> v' in S
  }

  /** Some interleaving from some initial channel leads to `v`. */
  ghost predicate Reachable(v: State) {
    WellFormed(v) && exists size: int, slots: seq<Item>, m: nat, n: nat ::
      ValidSize(size) && |slots| == size && Leads(Nobody, Initial(size, slots, m, n), v)
  }

  lemma InitialInv(size: int, slots: seq<Item>, m: nat, n: nat)
    requires ValidSize(size) && |slots| == size
    ensures Inv(Initial(size, slots, m, n))
  {
    InitialCore(size, slots, m, n);
  }

  lemma StepKeepsInv(v: State, step: Step)
    requires Inv(v) && Enabled(v, step)
    ensures Inv(Apply(v, step)) && Evolves(v, Apply(v, step))
  {
    StepKeepsCore(v, step);
    StepKeepsClaims(v, step);
    StepKeepsStale(v, step);
    StepKeepsWakers(v, step);
    StepKeepsDrop(v, step);
  }

  lemma {:induction false} RunKeepsInv(v: State, steps: seq<Step>, v': State)
    requires Inv(v) && Run(v, steps, v')
    ensures Inv(v')
    decreases |steps|
  {
    if steps != [] {
      StepKeepsInv(v, steps[0]);
      RunKeepsInv(Apply(v, steps[0]), steps[1..], v');
    }
  }

  lemma LeadsKeepsInv(me: Excluded, v: State, v': State)
    requires Inv(v) && Leads(me, v, v')
    ensures Inv(v')
  {
    var S := iset w: State | Inv(w);
    forall w: State, step: Step | w in S && WellFormed(w) && Enabled(w, step) && me != Someone(Actor(step))
      ensures Apply(w, step) in S
    {
      StepKeepsInv(w, step);
    }
    assert ClosedUnder(S, me);
  }

  /** The invariant holds in every state any interleaving reaches, from any ring and any population. */
  lemma ReachableInv(v: State)
    requires Reachable(v)
    ensures Inv(v)
  {
    var size: int, slots: seq<Item>, m: nat, n: nat :|
      ValidSize(size) && |slots| == size && Leads(Nobody, Initial(size, slots, m, n), v);
    InitialInv(size, slots, m, n);
    LeadsKeepsInv(Nobody, Initial(size, slots, m, n), v);
  }

  lemma LeadsStep(me: Excluded, v: State, w: State, step: Step)
    requires Leads(me, v, w) && WellFormed(w) && Enabled(w, step) && me != Someone(Actor(step))
    ensures Leads(me, v, Apply(w, step))
  {}

  lemma LeadsTrans(me: Excluded, u: State, v: State, w: State)
    requires Leads(me, u, v) && Leads(me, v, w)
    ensures Leads(me, u, w)
  {}

  /** What the others can do anybody can do. */
  lemma LeadsWeaken(me: Excluded, v: State, v': State)
    requires Leads(me, v, v')
    ensures Leads(Nobody, v, v')
  {
    forall S: iset<State> | v in S && ClosedUnder(S, Nobody)
      ensures v' in S
    {
      assert ClosedUnder(S, me);
    }
  }

  /** A run leads, and whatever it leads to is led to by a run: closure and runs are the same. */
  lemma {:induction false} RunLeads(v: State, steps: seq<Step>, v': State)
    requires Run(v, steps, v')
    ensures Leads(Nobody, v, v')
    decreases |steps|
  {
    if steps != [] {
      RunLeads(Apply(v, steps[0]), steps[1..], v');
      LeadsStep(Nobody, v, v, steps[0]);
      LeadsTrans(Nobody, v, Apply(v, steps[0]), v');
    }
  }

  ghost predicate RunsTo(v: State, v': State) { exists steps :: Run(v, steps, v') }

  lemma LeadsRun(v: State, v': State)
    requires Leads(Nobody, v, v')
    ensures RunsTo(v, v')
  {
    var S := iset w: State | RunsTo(v, w);
    assert Run(v, [], v);
    forall w: State, step: Step | w in S && WellFormed(w) && Enabled(w, step)
      ensures Apply(w, step) in S
    {
      var steps :| Run(v, steps, w);
      RunOne(w, step);
      RunThenRun(v, steps, w, [step], Apply(w, step));
    }
    assert ClosedUnder(S, Nobody);
  }

  lemma ReachableStep(v: State, step: Step)
    requires Reachable(v) && Enabled(v, step)
    ensures Reachable(Apply(v, step))
  {
    ReachableInv(v);
    StepKeepsInv(v, step);
    ReachableLeads(v, Apply(v, step), step);
  }

  lemma ReachableLeads(v: State, v': State, step: Step)
    requires Reachable(v) && Enabled(v, step) && v' == Apply(v, step) && WellFormed(v')
    ensures Reachable(v')
  {
    var size: int, slots: seq<Item>, m: nat, n: nat :|
      ValidSize(size) && |slots| == size && Leads(Nobody, Initial(size, slots, m, n), v);
    LeadsStep(Nobody, Initial(size, slots, m, n), v, step);
  }

  /** Nothing is excluded: whatever a run from an initial channel leads to is reachable. */
  lemma RunReaches(size: int, slots: seq<Item>, m: nat, n: nat, steps: seq<Step>, v: State)
    requires ValidSize(size) && |slots| == size && Run(Initial(size, slots, m, n), steps, v)
    ensures Reachable(v)
  {
    InitialInv(size, slots, m, n);
    RunKeepsInv(Initial(size, slots, m, n), steps, v);
    RunLeads(Initial(size, slots, m, n), steps, v);
  }

  lemma {:induction false} RunThenRun(v: State, s: seq<Step>, w: State, t: seq<Step>, x: State)
    requires Run(v, s, w) && Run(w, t, x)
    ensures Run(v, s + t, x)
    decreases |s|
  {
    if s == [] {
      assert s + t == t;
    } else {
      assert (s + t)[0] == s[0] && (s + t)[1..] == s[1..] + t;
      RunThenRun(Apply(v, s[0]), s[1..], w, t, x);
    }
  }

  lemma RunOne(v: State, step: Step)
    requires WellFormed(v) && Enabled(v, step)
    ensures Run(v, [step], Apply(v, step))
  {
    assert Run(Apply(v, step), [step][1..], Apply(v, step));
  }
}
