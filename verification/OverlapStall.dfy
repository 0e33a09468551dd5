/** A receiver whose cursor was stored back behind an overwritten sequence is stuck, and the senders with it. */
module OverlapStall {
  import opened Bits
  import opened RingMath
  import opened Machine
  import opened Wakeups
  import opened OverlapMachine
  import opened OverlapInvariant
  import opened OverlappingGuards

  /** Every sender whose compare-and-swap could still win has the cursor of receiver `i` to read, or saw at most `e`. */
  ghost predicate GatesShut(v: State, i: nat, e: int) {
    forall a: nat :: a < |v.agents| && v.agents[a].pc.Gating? ==>
      var g := v.agents[a].pc.gate; g.seen == v.mem.claimed && g.next > i ==> g.min <= e
  }

  /** At most `n` claims ever succeed, and none beyond `bound`. */
  ghost predicate ClaimsEnd(v: State, i: nat, e: int, n: nat, bound: int) {
    if |v.h.claims| == n then GatesShut(v, i, e) && v.Top() <= bound
    else |v.h.claims| == n - 1 && v.Top() + v.size <= bound
  }

  /** Receiver `i` has its cursor at `e` and no guard. */
  ghost predicate Waits(v: State, i: nat, e: int, stream: seq<Item>) {
    && i < |v.receivers| == |v.mem.consumed| && v.mem.consumed[i] == e && v.receivers[i].stream == stream
    && !v.receivers[i].pc.Reading?
    && (v.receivers[i].pc.Scanning? ==> v.receivers[i].pc.start == v.receivers[i].pc.next == e + 1)
  }

  ghost predicate Stalled(d: Overlap, i: nat, e: int, stream: seq<Item>, n: nat, bound: int) {
    && -1 <= e && Waits(d.v, i, e, stream) && !KeptBy(d.kept, i) && ClaimsEnd(d.v, i, e, n, bound)
    && e + 1 + d.v.size in d.v.h.published && bound < e + 1 + d.v.size * LAP_SPAN
  }

  ghost predicate StalledOrDropped(d: Overlap, i: nat, e: int, stream: seq<Item>, n: nat, bound: int) {
    i < |d.v.receivers| && (d.v.Live(i) ==> Stalled(d, i, e, stream, n, bound))
  }

  // ----- moves of receivers -----

  lemma SameGates(v: State, v': State, i: nat, e: int, n: nat, bound: int)
    requires v'.agents == v.agents && v'.mem.claimed == v.mem.claimed && v'.size == v.size
    requires v'.h.claims == v.h.claims && v'.h.log == v.h.log && ClaimsEnd(v, i, e, n, bound)
    ensures ClaimsEnd(v', i, e, n, bound)
  {}

  lemma OwnStepWaits(v: State, step: Step, i: nat, e: int, stream: seq<Item>)
    requires WellFormed(v) && Enabled(v, step) && ByReceiver(step) && step.i == i && Waits(v, i, e, stream)
    requires Lap(v.mem.words[Index(e + 1, v.size)]) != Flag(e + 1, v.size)
    ensures i < |Apply(v, step).receivers|
    ensures Apply(v, step).Live(i) ==> Waits(Apply(v, step), i, e, stream)
  {}

  lemma ReceiverMoveStalled(d: Overlap, v': State, j: nat, kept': seq<Kept>, i: nat, e: int, stream: seq<Item>, n: nat,
                            bound: int)
    requires Stalled(d, i, e, stream, n, bound) && OnlyReceiverMoved(d.v, v', j)
    requires j == i ==> (v'.Live(i) ==> Waits(v', i, e, stream))
    requires !KeptBy(kept', i)
    ensures StalledOrDropped(d.(v := v', kept := kept'), i, e, stream, n, bound)
  {
    SameGates(d.v, v', i, e, n, bound);
  }

  lemma MismatchNow(d: Overlap, i: nat, e: int, stream: seq<Item>, n: nat, bound: int)
    requires Loose(d) && Stalled(d, i, e, stream, n, bound)
    ensures Lap(d.v.mem.words[Index(e + 1, d.v.size)]) != Flag(e + 1, d.v.size)
    ensures e + 1 + d.v.size <= d.v.Top()
  {
    OverwrittenMismatch(d.v, e + 1);
  }

  lemma ReceiverStalled(d: Overlap, step: Step, i: nat, e: int, stream: seq<Item>, n: nat, bound: int)
    requires Loose(d) && CanMove(d, Take(step)) && ByReceiver(step) && Stalled(d, i, e, stream, n, bound)
    ensures StalledOrDropped(DoTake(d, step), i, e, stream, n, bound)
  {
    ReceiverStepFrame(d.v, step);
    MismatchNow(d, i, e, stream, n, bound);
    if step.i == i { OwnStepWaits(d.v, step, i, e, stream); }
    ReceiverMoveStalled(d, Apply(d.v, step), step.i, d.kept, i, e, stream, n, bound);
  }

  lemma KeepStalled(d: Overlap, j: nat, i: nat, e: int, stream: seq<Item>, n: nat, bound: int)
    requires Loose(d) && CanMove(d, Keep(j)) && Stalled(d, i, e, stream, n, bound)
    ensures StalledOrDropped(DoKeep(d, j), i, e, stream, n, bound)
  {
    var d' := DoKeep(d, j);
    forall g | g in d'.kept
      ensures g.i != i
    {
      assert g in d.kept ==> (g.i == i ==> KeptBy(d.kept, i));
    }
    ReceiverMoveStalled(d, d'.v, j, d'.kept, i, e, stream, n, bound);
  }

  lemma DropKeptStalled(d: Overlap, k: nat, i: nat, e: int, stream: seq<Item>, n: nat, bound: int)
    requires Loose(d) && CanMove(d, DropKept(k)) && Stalled(d, i, e, stream, n, bound)
    ensures StalledOrDropped(DoDropKept(d, k), i, e, stream, n, bound)
  {
    var d' := DoDropKept(d, k);
    assert d.kept[k] in d.kept && (d.kept[k].i == i ==> KeptBy(d.kept, i));
    forall g | g in d'.kept
      ensures g.i != i
    {
      assert g in d.kept && (g.i == i ==> KeptBy(d.kept, i));
    }
    assert KeptOk(d.v, d.kept[k]);
    ReceiverMoveStalled(d, d'.v, d.kept[k].i, d'.kept, i, e, stream, n, bound);
  }

  // ----- steps of agents -----

  /** Steps that neither claim nor store `claimed` leave every other gate as it is. */
  lemma QuietGates(v: State, step: Step, i: nat, e: int, n: nat, bound: int)
    requires WellFormed(v) && Enabled(v, step) && !ByReceiver(step) && !step.Decide? && !step.CloseStore?
    requires i < |v.receivers| && v.mem.consumed[i] == e && ClaimsEnd(v, i, e, n, bound)
    ensures ClaimsEnd(Apply(v, step), i, e, n, bound)
  {
    AgentFrame(v, step);
  }

  lemma StoredGates(v: State, a: nat, i: nat, e: int, n: nat, bound: int)
    requires WellFormed(v) && Enabled(v, CloseStore(a)) && ClaimsEnd(v, i, e, n, bound)
    requires 0 <= LastClaimed(v.agents[a].pc.raw) < I64_MAX
    requires forall b: nat :: b < |v.agents| && v.agents[b].pc.Gating? ==> v.agents[b].pc.gate.seen >= -1
    ensures ClaimsEnd(DoCloseStore(v, a), i, e, n, bound)
  {}

  lemma LostGates(v: State, a: nat, i: nat, e: int, n: nat, bound: int)
    requires WellFormed(v) && Enabled(v, Decide(a)) && !CasWins(v, v.agents[a].pc.gate) && ClaimsEnd(v, i, e, n, bound)
    ensures ClaimsEnd(DoDecide(v, a), i, e, n, bound)
  {}

  /** A gate that is shut does not let a claim through; an open one lets the last one through and shuts the others. */
  lemma WonGates(v: State, a: nat, i: nat, e: int, n: nat, bound: int)
    requires WellFormed(v) && Enabled(v, Decide(a)) && CasWins(v, v.agents[a].pc.gate) && ClaimsEnd(v, i, e, n, bound)
    requires i < |v.receivers| && v.agents[a].pc.gate.seen == v.Top() && e + 1 + v.size <= v.Top()
    requires 1 <= Wanted(v.size, v.agents[a].pc.gate) <= v.size
    requires forall b: nat :: b < |v.agents| && v.agents[b].pc.Gating? ==> v.agents[b].pc.gate.seen <= v.Top()
    ensures ClaimsEnd(DoDecide(v, a), i, e, n, bound)
  {}

  lemma GateFactsLoose(d: Overlap)
    requires Loose(d)
    ensures forall b: nat :: b < |d.v.agents| && d.v.agents[b].pc.Gating? ==>
              -1 <= d.v.agents[b].pc.gate.seen <= d.v.Top()
  {
    forall b: nat | b < |d.v.agents| && d.v.agents[b].pc.Gating?
      ensures -1 <= d.v.agents[b].pc.gate.seen <= d.v.Top()
    {
      assert LooseAgent(d.v, d.high, b, d.v.agents[b]);
    }
  }

  lemma AgentGates(d: Overlap, step: Step, i: nat, e: int, stream: seq<Item>, n: nat, bound: int)
    requires Loose(d) && Enabled(d.v, step) && !ByReceiver(step) && Stalled(d, i, e, stream, n, bound)
    ensures ClaimsEnd(Apply(d.v, step), i, e, n, bound)
  {
    GateFactsLoose(d);
    MismatchNow(d, i, e, stream, n, bound);
    match step
    case Decide(a) =>
      if CasWins(d.v, d.v.agents[a].pc.gate) {
        ClaimBound(d, a);
        WonGates(d.v, a, i, e, n, bound);
      } else {
        LostGates(d.v, a, i, e, n, bound);
      }
    case CloseStore(a) =>
      assert LooseAgent(d.v, d.high, a, d.v.agents[a]);
      StoredGates(d.v, a, i, e, n, bound);
    case _ => QuietGates(d.v, step, i, e, n, bound);
  }

  lemma PublishedStays(v: State, step: Step)
    requires WellFormed(v) && Enabled(v, step)
    ensures v.h.published <= Apply(v, step).h.published
  {}

  lemma AgentStalled(d: Overlap, step: Step, i: nat, e: int, stream: seq<Item>, n: nat, bound: int)
    requires Loose(d) && CanMove(d, Take(step)) && !ByReceiver(step) && Stalled(d, i, e, stream, n, bound)
    ensures StalledOrDropped(DoTake(d, step), i, e, stream, n, bound)
  {
    AgentGates(d, step, i, e, stream, n, bound);
    AgentFrame(d.v, step);
    PublishedStays(d.v, step);
  }

  // ----- runs -----

  lemma MoveStalled(d: Overlap, move: Move, i: nat, e: int, stream: seq<Item>, n: nat, bound: int)
    requires Loose(d) && CanMove(d, move) && Stalled(d, i, e, stream, n, bound)
    ensures StalledOrDropped(DoMove(d, move), i, e, stream, n, bound)
  {
    match move
    case Take(step) =>
      if ByReceiver(step) {
        ReceiverStalled(d, step, i, e, stream, n, bound);
      } else {
        AgentStalled(d, step, i, e, stream, n, bound);
      }
    case Keep(j) => KeepStalled(d, j, i, e, stream, n, bound);
    case DropKept(k) => DropKeptStalled(d, k, i, e, stream, n, bound);
  }

  lemma DroppedStays(d: Overlap, move: Move, i: nat)
    requires Loose(d) && CanMove(d, move) && i < |d.v.receivers| && !d.v.Live(i)
    ensures i < |DoMove(d, move).v.receivers| && !DoMove(d, move).v.Live(i)
  {
    match move
    case Take(step) => if ByReceiver(step) { ReceiverFrame(d.v, step); } else { AgentFrame(d.v, step); }
    case Keep(_) =>
    case DropKept(k) => assert KeptOk(d.v, d.kept[k]);
  }

  lemma StaysStalled(d: Overlap, d': Overlap, i: nat, e: int, stream: seq<Item>, n: nat, bound: int)
    requires Loose(d) && Stalled(d, i, e, stream, n, bound) && MovesLead(d, d')
    ensures Loose(d') && StalledOrDropped(d', i, e, stream, n, bound)
  {
    var S := iset o: Overlap | Loose(o) && StalledOrDropped(o, i, e, stream, n, bound);
    forall o: Overlap, move: Move | o in S && CanMove(o, move)
      ensures DoMove(o, move) in S
    {
      MoveLoose(o, move);
      if o.v.Live(i) { MoveStalled(o, move, i, e, stream, n, bound); } else { DroppedStays(o, move, i); }
    }
    assert ClosedUnderMoves(S);
  }

  /** The receiver has no call and no guard out, and its next sequence was overwritten by the publication of a later
      lap; fewer than 2^31 laps are claimed since, even with one claim more. */
  ghost predicate LeftBehind(d: Overlap, i: nat) {
    && WellFormed(d.v) && BetweenCalls(d.v, i) && !KeptBy(d.kept, i)
    && d.v.mem.consumed[i] + 1 + d.v.size in d.v.h.published
    && d.v.Top() + d.v.size < d.v.mem.consumed[i] + 1 + d.v.size * LAP_SPAN
  }

  /** Wherever drops have left the cursor of a receiver: if its next sequence is overwritten, then as long as it is not
      dropped it never gets an item again, and at most one more claim of any sender ever succeeds; none, if no sender
      has got past this cursor with the current `claimed`. */
  lemma LeftBehindForGood(d: Overlap, i: nat, d': Overlap)
    requires Possible(d) && LeftBehind(d, i) && MovesLead(d, d') && i < |d'.v.receivers| && d'.v.Live(i)
    ensures i < |d'.v.mem.consumed| && d'.v.mem.consumed[i] == d.v.mem.consumed[i]
    ensures d'.v.receivers[i].stream == d.v.receivers[i].stream && !d'.v.receivers[i].pc.Reading?
    ensures |d.v.h.claims| <= |d'.v.h.claims| <= |d.v.h.claims| + 1
    ensures GatesShut(d.v, i, d.v.mem.consumed[i]) ==> |d'.v.h.claims| == |d.v.h.claims|
  {
    PossibleLoose(d);
    HighWater(d, i);
    var e, stream, n := d.v.mem.consumed[i], d.v.receivers[i].stream, |d.v.h.claims|;
    StaysStalled(d, d', i, e, stream, n + 1, d.v.Top() + d.v.size);
    if GatesShut(d.v, i, e) { StaysStalledShut(d, d', i, e, stream); }
  }

  lemma StaysStalledShut(d: Overlap, d': Overlap, i: nat, e: int, stream: seq<Item>)
    requires Loose(d) && Waits(d.v, i, e, stream) && -1 <= e && !KeptBy(d.kept, i) && GatesShut(d.v, i, e)
    requires e + 1 + d.v.size in d.v.h.published && d.v.Top() + d.v.size < e + 1 + d.v.size * LAP_SPAN
    requires MovesLead(d, d') && i < |d'.v.receivers| && d'.v.Live(i) && |d'.v.h.claims| >= |d.v.h.claims|
    ensures |d'.v.h.claims| == |d.v.h.claims|
  {
    StaysStalled(d, d', i, e, stream, |d.v.h.claims|, d.v.Top());
  }

  /** A guard dropped although the cursor had passed it leaves its receiver behind, if the lap after the guard's end is
      published already. */
  lemma DropLeavesBehind(d: Overlap, k: nat)
    requires Possible(d) && CanMove(d, DropKept(k)) && BetweenCalls(d.v, d.kept[k].i)
    requires !KeptBy(d.kept[..k] + d.kept[k + 1..], d.kept[k].i) && d.kept[k].end + 1 + d.v.size in d.v.h.published
    requires d.v.Top() + d.v.size < d.kept[k].end + 1 + d.v.size * LAP_SPAN
    ensures Possible(DoDropKept(d, k)) && LeftBehind(DoDropKept(d, k), d.kept[k].i)
  {
    PossibleOn(d, DropKept(k));
  }
}
