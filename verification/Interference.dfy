/** What the steps of others leave alone, for code that runs one party's program between them. */
module Interference {
  import opened Bits
  import opened RingMath
  import opened Machine
  import opened Invariant
  import opened Preservation
  import opened Claims
  import opened Wakeups
  import opened Shutdown
  import opened Safety
  import opened Runs

  /** What an agent can rely on while the others run. */
  ghost predicate AgentView(v: State, v': State, a: nat) {
    && v'.size == v.size && |v'.receivers| == |v.receivers| && |v'.wakers| == |v.wakers|
    && a < |v.agents| <= |v'.agents| && v'.agents[a] == v.agents[a]
    && v.h.published <= v'.h.published && |v.h.log| <= |v'.h.log|
    && (forall s :: 0 <= s < |v.h.log| && (s in v.h.published || Holds(v, a, s)) ==> v'.h.log[s] == v.h.log[s])
    && (v.h.mark >= 0 ==> v'.h.mark >= 0) && DoneBy(v', a) == DoneBy(v, a)
  }

  /** What a receiver can rely on while the others run. */
  ghost predicate ReceiverView(v: State, v': State, i: nat) {
    && v'.size == v.size && i < |v.receivers| == |v'.receivers| && v'.receivers[i] == v.receivers[i]
    && |v'.mem.consumed| == |v'.receivers| && |v.mem.consumed| == |v.receivers|
    && v'.mem.consumed[i] == v.mem.consumed[i]
    && v.h.published <= v'.h.published && |v.h.log| <= |v'.h.log|
    && (forall s :: 0 <= s < |v.h.log| && s in v.h.published ==> v'.h.log[s] == v.h.log[s])
  }

  lemma LogOfHeldKept(v: State, step: Step, a: nat, s: int)
    requires Inv(v) && Enabled(v, step) && Actor(step) != Sender(a) && Holds(v, a, s) && 0 <= s < |v.h.log|
    requires |v.h.log| <= |Apply(v, step).h.log|
    ensures Apply(v, step).h.log[s] == v.h.log[s]
  {
    if step.Write? {
      assert AgentOk(v, step.a, v.agents[step.a]) && AgentOk(v, a, v.agents[a]);
    } else {
      LogUnlessWrite(v, step);
    }
  }

  lemma LogUnlessWrite(v: State, step: Step)
    requires WellFormed(v) && Enabled(v, step) && !step.Write?
    ensures v.h.log <= Apply(v, step).h.log && v.h.writes <= Apply(v, step).h.writes
    ensures |Apply(v, step).h.log| == |Apply(v, step).h.writes|
  {}

  lemma MarkKept(v: State, step: Step)
    requires Inv(v) && Enabled(v, step) && v.h.mark >= 0
    ensures Apply(v, step).h.mark == v.h.mark
  {
    SealedFrozen(v, step);
  }

  lemma OthersDone(v: State, step: Step, a: nat)
    requires WellFormed(v) && Enabled(v, step) && Actor(step) != Sender(a)
    ensures DoneBy(Apply(v, step), a) == DoneBy(v, a)
  {
    match step
    case Decide(b) => DecideDone(v, b, a);
    case CloseStore(b) => CloseStoreDone(v, b, a);
    case _ => DoingsUnless(v, step);
  }

  lemma StepAgentView(v: State, step: Step, a: nat)
    requires Inv(v) && Enabled(v, step) && Actor(step) != Sender(a) && a < |v.agents|
    ensures AgentView(v, Apply(v, step), a)
  {
    StepKeepsInv(v, step);
    OthersDone(v, step, a);
    if v.h.mark >= 0 { MarkKept(v, step); }
    if ByReceiver(step) { ReceiverFrame(v, step); } else { AgentFrame(v, step); }
    forall s | 0 <= s < |v.h.log| && Holds(v, a, s)
      ensures Apply(v, step).h.log[s] == v.h.log[s]
    {
      LogOfHeldKept(v, step, a, s);
    }
  }

  lemma AgentViewTrans(u: State, v: State, w: State, a: nat)
    requires AgentView(u, v, a) && AgentView(v, w, a)
    ensures AgentView(u, w, a)
  {
    forall s | 0 <= s < |u.h.log| && (s in u.h.published || Holds(u, a, s))
      ensures w.h.log[s] == u.h.log[s]
    {
      assert s in v.h.published || Holds(v, a, s);
    }
  }

  lemma ThenAgentView(v: State, w: State, step: Step, a: nat)
    requires Inv(w) && AgentView(v, w, a) && Enabled(w, step) && Actor(step) != Sender(a)
    ensures Inv(Apply(w, step)) && AgentView(v, Apply(w, step), a)
  {
    StepKeepsInv(w, step);
    StepAgentView(w, step, a);
    AgentViewTrans(v, w, Apply(w, step), a);
  }

  /** However many steps the others take, agent `a` keeps its place and its claim. */
  lemma OthersKeepAgent(v: State, v': State, a: nat)
    requires Inv(v) && a < |v.agents| && Leads(Someone(Sender(a)), v, v')
    ensures Inv(v') && AgentView(v, v', a)
  {
    var S := iset w: State | Inv(w) && AgentView(v, w, a);
    forall w: State, step: Step |
      w in S && WellFormed(w) && Enabled(w, step) && Someone(Sender(a)) != Someone(Actor(step))
      ensures Apply(w, step) in S
    {
      ThenAgentView(v, w, step, a);
    }
    assert ClosedUnder(S, Someone(Sender(a)));
  }

  lemma ReceiverViewOf(v: State, v': State, i: nat)
    requires WellFormed(v) && WellFormed(v') && Evolves(v, v') && i < |v.receivers|
    requires v'.receivers[i] == v.receivers[i] && v'.mem.consumed[i] == v.mem.consumed[i]
    ensures ReceiverView(v, v', i)
  {}

  lemma OthersLeaveReceiver(v: State, step: Step, i: nat)
    requires WellFormed(v) && Enabled(v, step) && Actor(step) != Receiving(i) && i < |v.receivers|
    ensures var v' := Apply(v, step);
      |v'.receivers| == |v.receivers| == |v'.mem.consumed| &&
      v'.receivers[i] == v.receivers[i] && v'.mem.consumed[i] == v.mem.consumed[i]
  {
    if ByReceiver(step) { ReceiverFrame(v, step); } else { AgentFrame(v, step); }
  }

  lemma StepReceiverView(v: State, step: Step, i: nat)
    requires Inv(v) && Enabled(v, step) && Actor(step) != Receiving(i) && i < |v.receivers|
    ensures ReceiverView(v, Apply(v, step), i)
  {
    StepKeepsInv(v, step);
    OthersLeaveReceiver(v, step, i);
    ReceiverViewOf(v, Apply(v, step), i);
  }

  lemma ReceiverViewTrans(u: State, v: State, w: State, i: nat)
    requires ReceiverView(u, v, i) && ReceiverView(v, w, i)
    ensures ReceiverView(u, w, i)
  {}

  lemma ThenReceiverView(v: State, w: State, step: Step, i: nat)
    requires Inv(w) && ReceiverView(v, w, i) && Enabled(w, step) && Actor(step) != Receiving(i)
    ensures Inv(Apply(w, step)) && ReceiverView(v, Apply(w, step), i)
  {
    StepKeepsInv(w, step);
    StepReceiverView(w, step, i);
    ReceiverViewTrans(v, w, Apply(w, step), i);
  }

  /** However many steps the others take, receiver `i` keeps its place, its cursor and what it may read. */
  lemma OthersKeepReceiver(v: State, v': State, i: nat)
    requires Inv(v) && i < |v.receivers| && Leads(Someone(Receiving(i)), v, v')
    ensures Inv(v') && ReceiverView(v, v', i)
  {
    var S := iset w: State | Inv(w) && ReceiverView(v, w, i);
    forall w: State, step: Step |
      w in S && WellFormed(w) && Enabled(w, step) && Someone(Receiving(i)) != Someone(Actor(step))
      ensures Apply(w, step) in S
    {
      ThenReceiverView(v, w, step, i);
    }
    assert ClosedUnder(S, Someone(Receiving(i)));
  }

  lemma ReachableOn(v: State, v': State)
    requires Reachable(v) && Leads(Nobody, v, v')
    ensures Reachable(v')
  {
    ReachableInv(v);
    LeadsKeepsInv(Nobody, v, v');
    var size: int, slots: seq<Item>, m: nat, n: nat :|
      ValidSize(size) && |slots| == size && Leads(Nobody, Initial(size, slots, m, n), v);
    LeadsTrans(Nobody, Initial(size, slots, m, n), v, v');
  }

  /** One step from a reachable state. */
  lemma Advance(v: State, step: Step)
    requires Reachable(v) && Enabled(v, step)
    ensures Reachable(Apply(v, step)) && Leads(Nobody, v, Apply(v, step))
  {
    ReachableStep(v, step);
    LeadsStep(Nobody, v, v, step);
  }

  lemma SenderResumes(v: State, v': State, a: nat)
    requires Reachable(v) && a < |v.agents| && Leads(Someone(Sender(a)), v, v')
    ensures AgentView(v, v', a) && Leads(Nobody, v, v')
  {
    ReachableInv(v);
    OthersKeepAgent(v, v', a);
    LeadsWeaken(Someone(Sender(a)), v, v');
  }

  lemma ReceiverResumes(v: State, v': State, i: nat)
    requires Reachable(v) && i < |v.receivers| && Leads(Someone(Receiving(i)), v, v')
    ensures ReceiverView(v, v', i) && Leads(Nobody, v, v')
  {
    ReachableInv(v);
    OthersKeepReceiver(v, v', i);
    LeadsWeaken(Someone(Receiving(i)), v, v');
  }

  // ----- what a party knows of a reachable state -----

  /** At some instant between `u` and `v` the ring was full. */
  ghost predicate FullSince(u: State, v: State) {
    exists w: State :: Leads(Nobody, u, w) && Leads(Nobody, w, v) && WellFormed(w) && RingFull(w)
  }

  lemma FullSinceTrans(t: State, u: State, v: State, w: State)
    requires Leads(Nobody, t, u) && FullSince(u, v) && Leads(Nobody, v, w)
    ensures FullSince(t, w)
  {
    var x: State :| Leads(Nobody, u, x) && Leads(Nobody, x, v) && WellFormed(x) && RingFull(x);
    LeadsTrans(Nobody, t, u, x);
    LeadsTrans(Nobody, x, v, w);
  }

  ghost predicate AllDropped(v: State) { forall r :: r in v.receivers ==> r.pc.Dropped? }

  lemma ClaimedFacts(v: State)
    requires Reachable(v)
    ensures -1 <= v.Top() < I64_MAX - v.size
    ensures HasShutdown(v.mem.claimed) ==> 0 <= LastClaimed(v.mem.claimed) <= v.Top()
    ensures !HasShutdown(v.mem.claimed) ==> v.mem.claimed == v.Top()
    ensures I64_MIN <= v.mem.claimed <= I64_MAX
  {
    ReachableInv(v);
  }

  lemma GateFacts(v: State, a: nat)
    requires Reachable(v) && a < |v.agents| && v.agents[a].pc.Gating?
    ensures var g := v.agents[a].pc.gate;
      && 1 <= g.n <= v.size && -1 <= g.seen <= v.Top() && v.agents[a].claim.NoClaim?
      && (g.min != SHUTDOWN_OPEN ==> AvailableSlots(v.size, g.seen, g.min) >= 0 && g.min < SHUTDOWN_OPEN)
      && (g.min != SHUTDOWN_OPEN && AvailableSlots(v.size, g.seen, g.min) == 0 ==> g.trail.sawFull)
      && (g.min == SHUTDOWN_OPEN && g.next >= |v.receivers| ==> AllDropped(v))
  {
    ReachableInv(v);
    PrefixBelowTop(v);
    assert AgentOk(v, a, v.agents[a]);
    forall j: nat | j < |v.receivers| && v.Live(j)
      ensures v.mem.consumed[j] < SHUTDOWN_OPEN
    {
      assert ReceiverOk(v, v.mem.consumed[j], v.receivers[j]);
    }
    if v.agents[a].pc.gate.min == SHUTDOWN_OPEN && v.agents[a].pc.gate.next >= |v.receivers| {
      forall r | r in v.receivers
        ensures r.pc.Dropped?
      {
        var j: nat :| j < |v.receivers| && v.receivers[j] == r;
        assert v.receivers[j].pc.Dropped? <==> !v.Live(j);
      }
    }
  }

  // ----- what any number of steps of anybody keeps -----

  /** The history only grows, an entry its claimer has written or given up is final, and closing is for good. */
  ghost predicate HistoryKept(v: State, v': State) {
    && v'.size == v.size && |v'.receivers| == |v.receivers| && |v'.wakers| == |v.wakers|
    && v.h.published <= v'.h.published && |v.h.log| <= |v'.h.log|
    && v.h.abandoned <= v'.h.abandoned && |v'.h.writes| == |v'.h.log| && |v.h.writes| == |v.h.log|
    && (forall s :: 0 <= s < |v.h.log| && v.h.writes[s] >= 1 ==> v'.h.writes[s] >= 1)
    && (forall s :: 0 <= s < |v.h.log| && (v.h.writes[s] >= 1 || s in v.h.abandoned) ==> v'.h.log[s] == v.h.log[s])
    && (NoMoreClaims(v) ==> NoMoreClaims(v'))
    && (v.dropping ==>
          && v'.dropping && Ended(v.h, v'.h) && LastClaimed(v'.mem.claimed) == LastClaimed(v.mem.claimed)
          && OnlyMarked(v, v'))
    && (v.h.mark >= 0 ==> v'.h.mark == v.h.mark && v'.mem.words == v.mem.words)
  }

  /** Nothing more is claimed, published or given up, and no close is torn. */
  ghost predicate Ended(h: History, h': History) {
    h'.log == h.log && h'.published == h.published && h'.abandoned == h.abandoned && h'.torn == h.torn
  }

  /** The words are as they were, but for the bit of the last sender's mark. */
  ghost predicate OnlyMarked(v: State, v': State) {
    if v'.h.mark == v.h.mark then v'.mem.words == v.mem.words
    else v.h.mark == -1 && v'.h.mark >= 0 && BitPlanted(v.size, v.mem.words, v'.mem.words, v'.h.mark)
  }

  /** The slot of `at` has got the shutdown bit, and that is all. */
  ghost predicate BitPlanted(size: int, words: seq<int>, words': seq<int>, at: int) {
    && 0 < size == |words| == |words'| && HasBit(words'[Index(at, size)])
    && (forall j :: 0 <= j < size ==> Lap(words'[j]) == Lap(words[j]))
    && (forall j :: 0 <= j < size && j != Index(at, size) ==> words'[j] == words[j])
  }

  /** From the moment the last sender handle is being dropped the history is over. */
  lemma DroppingEnds(v: State, step: Step)
    requires WellFormed(v) && ClaimedOk(v) && DropOk(v) && v.dropping && Enabled(v, step)
    requires step.CloseInspect? || step.CloseMark? || step.CloseStore? ==> AgentOk(v, step.a, v.agents[step.a])
    ensures Apply(v, step).dropping && Ended(v.h, Apply(v, step).h)
    ensures LastClaimed(Apply(v, step).mem.claimed) == LastClaimed(v.mem.claimed)
    ensures OnlyMarked(v, Apply(v, step))
  {
    if !ByReceiver(step) && !step.Clone? {
      assert DroppingAgentOk(v.size, v.mem.words, v.mem.claimed, v.h.mark, v.agents[step.a]);
    }
  }

  lemma StepHistory(v: State, step: Step)
    requires Inv(v) && Enabled(v, step)
    ensures HistoryKept(v, Apply(v, step))
  {
    StepKeepsInv(v, step);
    if NoMoreClaims(v) { NoMoreClaimsStep(v, step); }
    if v.h.mark >= 0 { SealedFrozen(v, step); }
    if v.dropping {
      if !ByReceiver(step) && !step.Clone? { assert AgentOk(v, step.a, v.agents[step.a]); }
      DroppingEnds(v, step);
    }
    if ByReceiver(step) { ReceiverFrame(v, step); } else { AgentFrame(v, step); }
    WrittenIsFinal(v, step);
  }

  /** A permit writes once, so what it wrote stays, and after it gave up it does not write. */
  lemma WrittenIsFinal(v: State, step: Step)
    requires Inv(v) && Enabled(v, step)
    ensures |v.h.log| <= |Apply(v, step).h.log| == |Apply(v, step).h.writes|
    ensures forall s :: 0 <= s < |v.h.log| && v.h.writes[s] >= 1 ==> Apply(v, step).h.writes[s] >= 1
    ensures forall s :: 0 <= s < |v.h.log| && (v.h.writes[s] >= 1 || s in v.h.abandoned) ==>
              Apply(v, step).h.log[s] == v.h.log[s]
  {
    if step.Write? {
      assert AgentOk(v, step.a, v.agents[step.a]);
      assert WrittenOnce(v, v.agents[step.a].claim);
    } else {
      LogUnlessWrite(v, step);
    }
  }

  lemma HistoryTrans(u: State, v: State, w: State)
    requires HistoryKept(u, v) && HistoryKept(v, w)
    ensures HistoryKept(u, w)
  {}

  lemma ThenHistory(v: State, w: State, step: Step)
    requires Inv(w) && HistoryKept(v, w) && Enabled(w, step)
    ensures Inv(Apply(w, step)) && HistoryKept(v, Apply(w, step))
  {
    StepKeepsInv(w, step);
    StepHistory(w, step);
    HistoryTrans(v, w, Apply(w, step));
  }

  lemma LeadsHistoryFrom(v: State, v': State)
    requires Inv(v) && HistoryKept(v, v) && Leads(Nobody, v, v')
    ensures HistoryKept(v, v')
  {
    var S := iset w: State | Inv(w) && HistoryKept(v, w);
    forall w: State, step: Step | w in S && WellFormed(w) && Enabled(w, step)
      ensures Apply(w, step) in S
    {
      ThenHistory(v, w, step);
    }
    assert ClosedUnder(S, Nobody);
  }

  lemma LeadsHistory(v: State, v': State)
    requires Reachable(v) && Leads(Nobody, v, v')
    ensures HistoryKept(v, v')
  {
    ReachableInv(v);
    assert HistoryKept(v, v);
    LeadsHistoryFrom(v, v');
  }

  lemma MarkedIsDropping(v: State)
    requires Reachable(v) && v.h.mark >= 0
    ensures v.dropping
  {
    ReachableInv(v);
  }

  lemma ClosingFacts(v: State, a: nat)
    requires Reachable(v) && a < |v.agents|
    requires v.agents[a].pc.CloseScanning? || v.agents[a].pc.CloseMarking? || v.agents[a].pc.CloseStoring?
    ensures var pc := v.agents[a].pc;
      && I64_MIN <= pc.raw < I64_MAX && -1 <= LastClaimed(pc.raw) && (LastClaimed(pc.raw) == -1 ==> v.dropping)
      && (pc.after.ToGone? ==> v.dropping)
      && (pc.CloseStoring? && pc.after.ToGone? ==> v.h.mark >= 0)
  {
    ReachableInv(v);
    assert AgentOk(v, a, v.agents[a]);
    if v.dropping { assert DroppingAgentOk(v.size, v.mem.words, v.mem.claimed, v.h.mark, v.agents[a]); }
  }

  /** Agent `a` holds the claim [start, end] and has written the sequences before `written`. */
  ghost predicate Held(v: State, a: nat, start: int, end: int, written: int) {
    a < |v.agents| && v.agents[a] == Agent(Holding, Claim(start, end, written, start))
  }

  /** Of a claim, what is written was written once, what is not lies in its slots as the lap before left it. */
  lemma HeldFacts(v: State, a: nat, start: int, end: int, written: int)
    requires Reachable(v) && Held(v, a, start, end, written)
    ensures 0 <= start <= written <= end + 1 <= |v.h.log| == |v.h.writes| && start <= end
    ensures v.size > 0 && |v.mem.slots| == v.size
    ensures forall s :: start <= s <= end ==> v.mem.slots[Index(s, v.size)] == v.h.log[s]
    ensures forall s :: start <= s <= end ==> v.h.writes[s] == if s < written then 1 else 0
    ensures forall s :: start <= s <= end ==> Holds(v, a, s)
  {
    ReachableInv(v);
    assert AgentOk(v, a, v.agents[a]);
    assert WrittenOnce(v, v.agents[a].claim);
    HeldBeyondPrefix(v, a);
  }
}
