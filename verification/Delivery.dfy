/** What can still be delivered: everything up to the first given-up claim, and nothing behind it. */
module Delivery {
  import opened RingMath
  import opened Machine
  import opened Invariant
  import opened Preservation
  import opened Wakeups
  import opened Safety
  import opened Closing
  import opened LogRefinement
  import opened Runs
  import opened Interference

  /** Some run from `v` gives receiver `i` at least the first `n` log entries. */
  ghost predicate CanGet(v: State, i: nat, n: int) {
    exists w: State :: Leads(Nobody, v, w) && i < |w.receivers| && |w.receivers[i].stream| >= n
  }

  /** `w` comes after `v` by steps of receiver `i` that took nothing away from it. */
  ghost predicate Further(v: State, w: State, i: nat) {
    && Reachable(w) && Leads(Nobody, v, w) && i < |v.receivers| == |w.receivers| && w.Live(i)
    && w.h.published == v.h.published && |w.receivers[i].stream| >= |v.receivers[i].stream|
  }

  lemma FurtherTrans(u: State, v: State, w: State, i: nat)
    requires Further(u, v, i) && Further(v, w, i)
    ensures Further(u, w, i)
  {
    LeadsTrans(Nobody, u, v, w);
  }

  /** One step of the receiver's own call. */
  lemma OneFurther(v: State, step: Step, i: nat)
    requires Reachable(v) && i < |v.receivers| && v.Live(i) && Enabled(v, step)
    requires step == Inspect(i) || step == Register(i) || step == Commit(i) || step == StartRecv(i, 1, Sync)
    ensures Further(v, Apply(v, step), i)
  {
    Advance(v, step);
  }

  /** How far a call of a receiver is from its end. */
  function Rank(pc: RecvPc): nat {
    match pc
    case Reading(_, _, _) => 1
    case Scanning(_, _, _, _, mode) => if mode.FirstPoll? then 4 else 2
    case Registering(_) => 3
    case _ => 0
  }

  function Remaining(pc: RecvPc): int {
    if pc.Scanning? then Max(pc.stop - pc.next, 0) else 0
  }

  /** A call comes to its end. */
  lemma {:induction false} CallEnds(v: State, i: nat) returns (w: State)
    requires Reachable(v) && i < |v.receivers| && v.Live(i)
    ensures Further(v, w, i) && BetweenCalls(w, i)
    decreases Rank(v.receivers[i].pc), Remaining(v.receivers[i].pc)
  {
    if BetweenCalls(v, i) {
      return v;
    }
    var step := match v.receivers[i].pc
      case Scanning(_, _, _, _, _) => Inspect(i)
      case Registering(_) => Register(i)
      case _ => Commit(i);
    OneFurther(v, step, i);
    StepRanks(v, step, i);
    w := CallEnds(Apply(v, step), i);
    FurtherTrans(v, Apply(v, step), w, i);
  }

  lemma StepRanks(v: State, step: Step, i: nat)
    requires WellFormed(v) && i < |v.receivers| && Enabled(v, step)
    requires step == Inspect(i) || step == Register(i) || step == Commit(i)
    ensures i < |Apply(v, step).receivers|
    ensures var pc, pc' := v.receivers[i].pc, Apply(v, step).receivers[i].pc;
      Rank(pc') < Rank(pc) || (Rank(pc') == Rank(pc) && Remaining(pc') < Remaining(pc))
  {}

  /** A receiver that is behind the published prefix can get the next entry. */
  lemma ReceiveNext(v: State, i: nat) returns (w: State)
    requires Reachable(v) && BetweenCalls(v, i) && |v.receivers[i].stream| <= v.P()
    ensures Further(v, w, i) && BetweenCalls(w, i) && |w.receivers[i].stream| > |v.receivers[i].stream|
  {
    var v1 := DoStartRecv(v, i, 1, Sync);
    OneFurther(v, StartRecv(i, 1, Sync), i);
    StreamIsLogPrefix(v, i);
    var v2 := DoInspect(v1, i);
    OneFurther(v1, Inspect(i), i);
    NextMatches(v1, i);
    w := DoCommit(v2, i);
    OneFurther(v2, Commit(i), i);
    FurtherTrans(v, v1, v2, i);
    FurtherTrans(v, v2, w, i);
  }

  lemma NextMatches(v: State, i: nat)
    requires Reachable(v) && Enabled(v, Inspect(i))
    requires v.receivers[i].pc.next == v.receivers[i].pc.start == v.receivers[i].pc.stop
    requires |v.receivers[i].stream| <= v.P()
    ensures DoInspect(v, i).receivers[i].pc.Reading?
  {
    ReachableInv(v);
    assert ReceiverOk(v, v.mem.consumed[i], v.receivers[i]);
    assert v.Live(i);
    FlagMeansPublished(v, i, v.receivers[i].pc.next);
  }

  /** A live receiver, whatever it is doing, can get the whole published prefix. */
  lemma {:induction false} PrefixCanBeGot(v: State, i: nat)
    requires Reachable(v) && i < |v.receivers| && v.Live(i)
    ensures CanGet(v, i, v.P() + 1)
    decreases v.P() + 1 - |v.receivers[i].stream|
  {
    var w := CallEnds(v, i);
    if |w.receivers[i].stream| <= v.P() {
      var x := ReceiveNext(w, i);
      FurtherTrans(v, w, x, i);
      PrefixCanBeGot(x, i);
      var y: State :| Leads(Nobody, x, y) && i < |y.receivers| && |y.receivers[i].stream| >= x.P() + 1;
      LeadsTrans(Nobody, v, x, y);
    }
  }

  /** No receiver ever gets beyond a given-up sequence. */
  lemma GivenUpEndsStreams(v: State, v': State, i: nat, s: int)
    requires Reachable(v) && s in v.h.abandoned && Leads(Nobody, v, v') && i < |v'.receivers|
    ensures |v'.receivers[i].stream| <= s
  {
    ReachableInv(v);
    LeadsHistory(v, v');
    ReachableOn(v, v');
    ReachableInv(v');
    StreamIsLogPrefix(v', i);
  }

  /** After the last sender has dropped, a published item can still be delivered to a live receiver if and only if
      no given-up sequence lies before it, whenever it was published. */
  lemma DeliverableIff(v: State, i: nat, s: int)
    requires Reachable(v) && v.dropping && s in v.h.published && i < |v.receivers| && v.Live(i)
    ensures CanGet(v, i, s + 1) <==> forall g :: g in v.h.abandoned ==> s < g
  {
    ReachableInv(v);
    DropLosesNothing(v);
    if forall g :: g in v.h.abandoned ==> s < g {
      PrefixCanBeGot(v, i);
      assert v.P() + 1 in v.h.abandoned ==> s <= v.P();
    } else {
      var g :| g in v.h.abandoned && g <= s;
      if CanGet(v, i, s + 1) {
        var w: State :| Leads(Nobody, v, w) && i < |w.receivers| && |w.receivers[i].stream| >= s + 1;
        GivenUpEndsStreams(v, w, i, g);
      }
    }
  }

  // ----- wake-ups -----

  /** How far an agent that owes receiver `i` a notification is from it. */
  function Owing(g: Agent, i: nat): (int, int) {
    match g.pc
    case Holding => (3, if g.claim.Claim? then g.claim.end - g.claim.stored else 0)
    case CloseStoring(_, _) => (2, 0)
    case Notifying(next, _) => (1, i - next)
    case _ => (0, 0)
  }

  function NextStep(g: Agent, a: nat): Step {
    match g.pc
    case Holding => StoreFlag(a)
    case CloseStoring(_, _) => CloseStore(a)
    case _ => Wake(a)
  }

  /** The agent's next step is enabled, whatever the others do, and brings it nearer. */
  lemma OwingStep(v: State, a: nat, i: nat)
    requires Reachable(v) && a < |v.agents| && WillNotify(v.agents[a], i) && i < |v.wakers| && v.wakers[i].registered
    ensures Enabled(v, NextStep(v.agents[a], a))
    ensures var v', step := Apply(v, NextStep(v.agents[a], a)), NextStep(v.agents[a], a);
      && a < |v'.agents| && i < |v'.wakers|
      && (v'.wakers[i].fired ||
            (v'.wakers[i].registered && WillNotify(v'.agents[a], i) &&
             Nearer(Owing(v'.agents[a], i), Owing(v.agents[a], i))))
  {
    ReachableInv(v);
    assert AgentOk(v, a, v.agents[a]);
    OwingStepFrom(v, a, i);
  }

  predicate Nearer(x: (int, int), y: (int, int)) {
    0 <= y.0 && 0 <= y.1 && (x.0 < y.0 || (x.0 == y.0 && x.1 < y.1))
  }

  lemma OwingStepFrom(v: State, a: nat, i: nat)
    requires WellFormed(v) && a < |v.agents| && AgentOk(v, a, v.agents[a])
    requires WillNotify(v.agents[a], i) && i < |v.wakers| && v.wakers[i].registered
    ensures Enabled(v, NextStep(v.agents[a], a))
    ensures var v' := Apply(v, NextStep(v.agents[a], a));
      && a < |v'.agents| && i < |v'.wakers|
      && (v'.wakers[i].fired ||
            (v'.wakers[i].registered && WillNotify(v'.agents[a], i) &&
             Nearer(Owing(v'.agents[a], i), Owing(v.agents[a], i))))
  {}

  /** It reaches that notification by its own steps alone. */
  lemma {:induction false} WakeCanFire(v: State, a: nat, i: nat) returns (w: State)
    requires Reachable(v) && a < |v.agents| && WillNotify(v.agents[a], i) && i < |v.wakers| && v.wakers[i].registered
    ensures Leads(Someone(Receiving(i)), v, w) && i < |w.wakers| && w.wakers[i].fired
    decreases Owing(v.agents[a], i).0, Owing(v.agents[a], i).1
  {
    OwingStep(v, a, i);
    w := Apply(v, NextStep(v.agents[a], a));
    Advance(v, NextStep(v.agents[a], a));
    LeadsStep(Someone(Receiving(i)), v, v, NextStep(v.agents[a], a));
    if !w.wakers[i].fired {
      var v' := w;
      w := WakeCanFire(v', a, i);
      LeadsTrans(Someone(Receiving(i)), v, v', w);
    }
  }

  /** A pending receiver whose next poll would succeed has been woken, or will be without a step of its own: a sender's
      steps, each enabled, lead to its wake. */
  lemma WakeupIsNear(v: State, i: nat)
    requires Reachable(v) && i < |v.receivers| && v.receivers[i].pc.Pending?
    requires v.mem.consumed[i] + 1 in v.h.published ||
             HasBit(v.mem.words[Index(v.mem.consumed[i] + 1, v.size)])
    ensures exists w: State :: Leads(Someone(Receiving(i)), v, w) && i < |w.wakers| && w.wakers[i].fired
  {
    if !v.wakers[i].fired {
      NoLostWakeup(v, i);
      PendingIsRegistered(v, i);
      var a: nat :| a < |v.agents| && WillNotify(v.agents[a], i);
      var w := WakeCanFire(v, a, i);
    } else {
      assert Leads(Someone(Receiving(i)), v, v);
    }
  }
}
