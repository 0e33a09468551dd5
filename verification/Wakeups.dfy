/** No lost wake-up: a pending receiver whose next sequence became visible has been, or will be, woken. */
module Wakeups {
  import opened RingMath
  import opened Machine
  import opened Invariant
  import opened Preservation

  /** The next poll of receiver `i` would not be Pending: its next slot is published or carries the bit. */
  ghost predicate Ready(v: State, i: nat)
    requires WellFormed(v) && i < |v.receivers|
  {
    var s := v.mem.consumed[i] + 1;
    s in v.h.published || HasBit(v.mem.words[Index(s, v.size)])
  }

  /** The agent has stored a flag or a mark and has not yet passed receiver `i` in its `notify`. */
  predicate WillNotify(g: Agent, i: nat) {
    || (g.claim.Claim? && g.claim.stored > g.claim.start)
    || g.pc.CloseStoring?
    || (g.pc.Notifying? && g.pc.next <= i)
  }

  ghost predicate SomeoneNotifies(v: State, i: nat) {
    exists a: nat :: a < |v.agents| && WillNotify(v.agents[a], i)
  }

  predicate Waiting(pc: RecvPc) { pc.Pending? || (pc.Scanning? && pc.mode.SecondPoll?) }

  ghost predicate WakeOk(v: State, i: nat)
    requires WellFormed(v) && i < |v.receivers|
  {
    && (Waiting(v.receivers[i].pc) ==> v.wakers[i].registered || v.wakers[i].fired)
    && (v.receivers[i].pc.Pending? && Ready(v, i) ==> v.wakers[i].fired || SomeoneNotifies(v, i))
  }

  ghost predicate WakersOk(v: State)
    requires WellFormed(v)
  {
    forall i: nat :: i < |v.receivers| ==> WakeOk(v, i)
  }

  predicate ByReceiver(step: Step) {
    step.StartRecv? || step.Inspect? || step.Register? || step.ReadNext? || step.Commit? || step.DropReceiver?
  }

  lemma ReceiverFrame(v: State, step: Step)
    requires WellFormed(v) && Enabled(v, step) && ByReceiver(step)
    ensures var v' := Apply(v, step);
      && v'.size == v.size && v'.agents == v.agents && v'.dropping == v.dropping
      && v'.mem == v.mem.(consumed := v'.mem.consumed) && v'.h == v.h.(moves := v'.h.moves)
      && |v'.receivers| == |v.receivers| && |v'.wakers| == |v.wakers| && |v'.mem.consumed| == |v.mem.consumed|
      && forall j: nat :: j < |v.receivers| && j != step.i ==>
           v'.receivers[j] == v.receivers[j] && v'.wakers[j] == v.wakers[j] && v'.mem.consumed[j] == v.mem.consumed[j]
  {}

  lemma AgentFrame(v: State, step: Step)
    requires WellFormed(v) && Enabled(v, step) && !ByReceiver(step)
    ensures var v' := Apply(v, step);
      && v'.size == v.size && v'.receivers == v.receivers && v'.mem.consumed == v.mem.consumed
      && |v'.wakers| == |v.wakers|
      && (forall j :: 0 <= j < |v.wakers| ==> v'.wakers[j] == v.wakers[j] || v'.wakers[j] == Woken(v.wakers[j]))
      && |v'.agents| >= |v.agents|
      && forall b: nat :: b < |v.agents| && !(!step.Clone? && b == step.a) ==> v'.agents[b] == v.agents[b]
  {}

  /** An agent that owes receiver `i` a notification still owes it after its step, or has just woken it. */
  lemma OwedOrWoken(v: State, step: Step, i: nat)
    requires WellFormed(v) && Enabled(v, step) && !ByReceiver(step) && !step.Clone?
    requires AgentOk(v, step.a, v.agents[step.a])
    requires i < |v.receivers| && (v.wakers[i].registered || v.wakers[i].fired)
    requires WillNotify(v.agents[step.a], i)
    ensures WillNotify(Apply(v, step).agents[step.a], i) || Apply(v, step).wakers[i].fired
  {}

  /** Only a flag store and a shutdown mark make a next sequence ready, and both owe a notification. */
  lemma ReadyIsOwed(v: State, step: Step, i: nat)
    requires WellFormed(v) && Enabled(v, step) && !ByReceiver(step) && WellFormed(Apply(v, step))
    requires step.StoreFlag? ==> ClaimOk(v, step.a, v.agents[step.a].claim)
    requires i < |v.receivers| && Apply(v, step).receivers == v.receivers
    requires !Ready(v, i) && Ready(Apply(v, step), i)
    ensures !step.Clone? && WillNotify(Apply(v, step).agents[step.a], i)
  {
    if step.StoreFlag? {
      assert !HasBit(Flag(v.agents[step.a].claim.stored, v.size));
    }
  }

  lemma AgentStepWake(v: State, step: Step, i: nat)
    requires Core(v) && Enabled(v, step) && !ByReceiver(step) && WellFormed(Apply(v, step))
    requires i < |v.receivers| && WakeOk(v, i)
    ensures i < |Apply(v, step).receivers| && WakeOk(Apply(v, step), i)
  {
    var v' := Apply(v, step);
    AgentFrame(v, step);
    if v.receivers[i].pc.Pending? && Ready(v', i) && !v'.wakers[i].fired {
      if Ready(v, i) {
        var b: nat :| b < |v.agents| && WillNotify(v.agents[b], i);
        if !step.Clone? && b == step.a {
          assert AgentOk(v, b, v.agents[b]);
          OwedOrWoken(v, step, i);
        }
        assert WillNotify(v'.agents[b], i);
      } else {
        if step.StoreFlag? { assert AgentOk(v, step.a, v.agents[step.a]); }
        ReadyIsOwed(v, step, i);
      }
    }
  }

  /** A poll ends Pending only if at that instant the next sequence was neither published nor marked. */
  lemma PendingWasNotReady(v: State, i: nat)
    requires Core(v) && Enabled(v, Inspect(i)) && DoInspect(v, i).receivers[i].pc.Pending?
    ensures !Ready(v, i)
  {
    assert ReceiverOk(v, v.mem.consumed[i], v.receivers[i]);
    assert v.Live(i);
    FlagMeansPublished(v, i, v.receivers[i].pc.next);
  }

  lemma OwnStepWake(v: State, step: Step)
    requires WellFormed(v) && Enabled(v, step) && ByReceiver(step) && WellFormed(Apply(v, step))
    requires WakeOk(v, step.i) && step.i < |Apply(v, step).receivers|
    requires step.Inspect? && DoInspect(v, step.i).receivers[step.i].pc.Pending? ==> !Ready(v, step.i)
    ensures WakeOk(Apply(v, step), step.i)
  {
    var v' := Apply(v, step);
    if step.Inspect? {
      assert v'.wakers == v.wakers && v'.mem == v.mem && v'.h == v.h;
    }
  }

  lemma BystanderWake(v: State, v': State, i: nat)
    requires WellFormed(v) && WellFormed(v') && v'.size == v.size && v'.agents == v.agents
    requires v'.mem.words == v.mem.words && v'.h.published == v.h.published
    requires i < |v.receivers| == |v'.receivers| && v'.receivers[i] == v.receivers[i]
    requires v'.wakers[i] == v.wakers[i] && v'.mem.consumed[i] == v.mem.consumed[i]
    requires WakeOk(v, i)
    ensures WakeOk(v', i)
  {
    assert SomeoneNotifies(v, i) ==> SomeoneNotifies(v', i);
  }

  lemma StepKeepsWakers(v: State, step: Step)
    requires Core(v) && Enabled(v, step) && WakersOk(v) && WellFormed(Apply(v, step))
    ensures WakersOk(Apply(v, step))
  {
    if ByReceiver(step) {
      ReceiverFrame(v, step);
      if step.Inspect? && DoInspect(v, step.i).receivers[step.i].pc.Pending? { PendingWasNotReady(v, step.i); }
      OwnStepWake(v, step);
      forall i: nat | i < |v.receivers| && i != step.i
        ensures WakeOk(Apply(v, step), i)
      {
        BystanderWake(v, Apply(v, step), i);
      }
    } else {
      AgentFrame(v, step);
      forall i: nat | i < |v.receivers|
        ensures WakeOk(Apply(v, step), i)
      {
        AgentStepWake(v, step, i);
      }
    }
  }
}
