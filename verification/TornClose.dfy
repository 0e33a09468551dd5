/** Why the exactness of the shutdown boundary needs an untorn close: a concrete run.

    Sender 0 of a two-slot channel claims sequence 0 and, its recycler having panicked in a batch, loads
    `claimed` for its close.  Sender 1 then claims sequence 1, and only after that does the close store the
    outdated value.  Both publish and drop.  The drop scans from sequence 0 only, marks the published slot of
    sequence 1, and the receiver, having read both items, finds no mark and waits for ever. */
module TornClose {
  import opened Bits
  import opened RingMath
  import opened Machine
  import opened Safety
  import opened Runs
  import opened Interference
  import opened Closing
  import opened Delivery

  function At(x: Item, claimed: int, words: seq<int>, a0: Agent, a1: Agent, dropping: bool, h: History): State {
    State(2, Memory(claimed, words, [x, x], [-1]), [a0, a1],
          [Receiver(Resting(NothingYet), [])], [Waker(false, false)], dropping, h)
  }

  const FIRST := ClaimRecord(0, 0, 0, 1)
  const SECOND := ClaimRecord(1, 1, 1, 1)

  function H2(x: Item, writes: seq<nat>, published: set<int>, closers: seq<nat>, torn: bool, mark: int): History {
    History([x, x], [0, 1], writes, published, {}, [FIRST, SECOND], closers, 2 + |closers|, 0, torn, mark)
  }

  /** Sender 0 is about to read the receiver's cursor. */
  function AtGate(x: Item): State {
    At(x, -1, [0, 0], Agent(Gating(Gate(1, -1, 0, SHUTDOWN_OPEN, Trail(false, 0, 0, 0, -1, 0))), NoClaim),
       Agent(Idle(NotCalled), NoClaim), false, History([], [], [], {}, {}, [], [], 0, 0, false, -1))
  }

  /** Sender 0 claimed sequence 0. */
  function Claimed(x: Item): State {
    At(x, 0, [0, 0], Agent(Holding, Claim(0, 0, 0, 0)), Agent(Idle(NotCalled), NoClaim), false,
       History([x], [0], [0], {}, {}, [FIRST], [], 1, 0, false, -1))
  }

  /** It wrote it, and its close has loaded `claimed == 0`. */
  function Loaded(x: Item): State {
    At(x, 0, [0, 0], Agent(CloseScanning(0, 0, ToHolding), Claim(0, 0, 1, 0)), Agent(Idle(NotCalled), NoClaim), false,
       History([x], [0], [1], {}, {}, [FIRST], [], 1, 0, false, -1))
  }

  /** Sender 1 claimed sequence 1 meanwhile. */
  function Overtaken(x: Item): State {
    At(x, 1, [0, 0], Agent(CloseScanning(0, 0, ToHolding), Claim(0, 0, 1, 0)), Agent(Holding, Claim(1, 1, 1, 1)), false,
       H2(x, [1, 0], {}, [], false, -1))
  }

  /** The close marked slot 0 and stored the outdated `claimed`; `pc` is where sender 0 is then. */
  function Torn(x: Item, pc: Pc): State {
    At(x, I64_MIN, [LAP_SPAN, 0], Agent(pc, Claim(0, 0, 1, 0)), Agent(Holding, Claim(1, 1, 1, 1)), false,
       H2(x, [1, 0], {}, [0], true, -1))
  }

  /** Sender 0 published sequence 0, which erased the mark; `pc` is where it is then. */
  function FirstOut(x: Item, pc: Pc): State {
    At(x, I64_MIN, [1, 0], Agent(pc, NoClaim), Agent(Holding, Claim(1, 1, 1, 1)), false,
       H2(x, [1, 0], {0}, [0], true, -1))
  }

  /** Sender 1 published sequence 1; `pc` is where it is then. */
  function SecondOut(x: Item, pc: Pc): State {
    At(x, I64_MIN, [1, 1], Agent(Idle(Sent), NoClaim), Agent(pc, NoClaim), false,
       H2(x, [1, 1], {0, 1}, [0], true, -1))
  }

  /** The last sender's drop has loaded the outdated `claimed`. */
  function Dropping(x: Item): State {
    At(x, I64_MIN, [1, 1], Agent(CloseScanning(I64_MIN, 0, ToGone), NoClaim), Agent(Idle(Sent), NoClaim), true,
       H2(x, [1, 1], {0, 1}, [0], true, -1))
  }

  /** The drop of the last sender marked the slot of sequence 1. */
  function Marked(x: Item): State {
    At(x, I64_MIN, [1, LAP_SPAN + 1], Agent(CloseStoring(I64_MIN, ToGone), NoClaim), Agent(Idle(Sent), NoClaim), true,
       H2(x, [1, 1], {0, 1}, [0], true, 1))
  }

  /** The last sender has dropped. */
  function AfterDrop(x: Item): State {
    At(x, I64_MIN, [1, LAP_SPAN + 1], Agent(Gone, NoClaim), Agent(Idle(Sent), NoClaim), true,
       H2(x, [1, 1], {0, 1}, [0, 0], true, 1))
  }

  lemma ReachStart(x: Item)
    ensures Reachable(Initial(2, [x, x], 2, 1))
    ensures Initial(2, [x, x], 2, 1) ==
      At(x, -1, [0, 0], Agent(Idle(NotCalled), NoClaim), Agent(Idle(NotCalled), NoClaim), false,
         History([], [], [], {}, {}, [], [], 0, 0, false, -1))
  {
    var v := Initial(2, [x, x], 2, 1);
    assert Run(v, [], v);
    RunReaches(2, [x, x], 2, 1, [], v);
    assert v.mem.words == [0, 0] && v.mem.consumed == [-1];
    assert v.agents == [Agent(Idle(NotCalled), NoClaim), Agent(Idle(NotCalled), NoClaim)];
  }

  lemma ReachGating(x: Item)
    ensures Reachable(AtGate(x))
  {
    ReachStart(x);
    var v0 := Initial(2, [x, x], 2, 1);
    ReachableStep(v0, StartClaim(0, 1));
    assert Apply(v0, StartClaim(0, 1)) == AtGate(x);
  }

  lemma ReachClaimed(x: Item)
    ensures Reachable(Claimed(x))
  {
    ReachGating(x);
    var v1 := AtGate(x);
    ReachableStep(v1, ReadCursor(0));
    var v2 := Apply(v1, ReadCursor(0));
    ReachableStep(v2, Decide(0));
    assert Apply(v2, Decide(0)) == Claimed(x);
  }

  lemma ReachLoaded(x: Item)
    ensures Reachable(Loaded(x))
  {
    ReachClaimed(x);
    var v0 := Claimed(x);
    ReachableStep(v0, Write(0, x));
    var v1 := Apply(v0, Write(0, x));
    ReachableStep(v1, CloseLoad(0, ToHolding));
    assert Apply(v1, CloseLoad(0, ToHolding)) == Loaded(x);
  }

  lemma ReachOvertaken(x: Item)
    ensures Reachable(Overtaken(x))
  {
    ReachLoaded(x);
    var v0 := Loaded(x);
    ReachableStep(v0, StartClaim(1, 1));
    var v1 := Apply(v0, StartClaim(1, 1));
    ReachableStep(v1, ReadCursor(1));
    var v2 := Apply(v1, ReadCursor(1));
    ReachableStep(v2, Decide(1));
    assert Apply(v2, Decide(1)) == Overtaken(x);
  }

  lemma ReachTornStore(x: Item)
    ensures Reachable(Torn(x, Notifying(0, ToHolding)))
  {
    ReachOvertaken(x);
    var v0 := Overtaken(x);
    ReachableStep(v0, CloseInspect(0));
    var v1 := Apply(v0, CloseInspect(0));
    ReachableStep(v1, CloseMark(0));
    var v2 := Apply(v1, CloseMark(0));
    ReachableStep(v2, CloseStore(0));
    assert Apply(v2, CloseStore(0)) == Torn(x, Notifying(0, ToHolding));
  }

  lemma ReachTorn(x: Item)
    ensures Reachable(Torn(x, Holding))
  {
    ReachTornStore(x);
    var v0 := Torn(x, Notifying(0, ToHolding));
    ReachableStep(v0, Wake(0));
    var v1 := Apply(v0, Wake(0));
    ReachableStep(v1, Return(0));
    assert Apply(v1, Return(0)) == Torn(x, Holding);
  }

  /** One more step of the run after the torn close. */
  lemma Onward(x: Item, v: State, step: Step)
    requires Reachable(v) && Leads(Nobody, Torn(x, Holding), v) && Enabled(v, step)
    ensures Reachable(Apply(v, step)) && Leads(Nobody, Torn(x, Holding), Apply(v, step))
  {
    Advance(v, step);
    LeadsTrans(Nobody, Torn(x, Holding), v, Apply(v, step));
  }

  lemma ReachFirstStore(x: Item)
    ensures var v := FirstOut(x, Notifying(0, ToSent)); Reachable(v) && Leads(Nobody, Torn(x, Holding), v)
  {
    ReachTorn(x);
    var v0 := Torn(x, Holding);
    Onward(x, v0, StoreFlag(0));
    assert Apply(v0, StoreFlag(0)) == FirstOut(x, Notifying(0, ToSent));
  }

  lemma ReachFirstOut(x: Item)
    ensures var v := FirstOut(x, Idle(Sent)); Reachable(v) && Leads(Nobody, Torn(x, Holding), v)
  {
    ReachFirstStore(x);
    var v1 := FirstOut(x, Notifying(0, ToSent));
    Onward(x, v1, Wake(0));
    var v2 := Apply(v1, Wake(0));
    Onward(x, v2, Return(0));
    assert Apply(v2, Return(0)) == FirstOut(x, Idle(Sent));
  }

  lemma ReachSecondStore(x: Item)
    ensures var v := SecondOut(x, Notifying(0, ToSent)); Reachable(v) && Leads(Nobody, Torn(x, Holding), v)
  {
    ReachFirstOut(x);
    var v0 := FirstOut(x, Idle(Sent));
    Onward(x, v0, Write(1, x));
    var v1 := Apply(v0, Write(1, x));
    Onward(x, v1, StoreFlag(1));
    assert Apply(v1, StoreFlag(1)) == SecondOut(x, Notifying(0, ToSent));
  }

  lemma ReachSecondOut(x: Item)
    ensures var v := SecondOut(x, Idle(Sent)); Reachable(v) && Leads(Nobody, Torn(x, Holding), v)
  {
    ReachSecondStore(x);
    var v0 := SecondOut(x, Notifying(0, ToSent));
    Onward(x, v0, Wake(1));
    var v1 := Apply(v0, Wake(1));
    Onward(x, v1, Return(1));
    assert Apply(v1, Return(1)) == SecondOut(x, Idle(Sent));
  }

  lemma TwoPublished(v: State)
    requires v.h.published == {0, 1}
    ensures v.P() == 1
  {
    assert -1 <= v.P() < 1 ==> v.P() + 1 in v.h.published;
    assert v.P() >= 2 ==> 2 in v.h.published;
  }

  /** What is committed after another sender's panic need not be lost: sender 1 publishes sequence 1 after the close
      that followed the panic of sender 0, and it can still be delivered, as can what sender 0 left in its slot. */
  lemma PublishedAfterPanic(x: Item)
    ensures var v, w := Torn(x, Holding), SecondOut(x, Idle(Sent));
      && Reachable(v) && NoMoreClaims(v) && v.h.published == {} && Leads(Nobody, v, w)
      && Reachable(w) && w.h.published == {0, 1} && w.P() == 1 && CanGet(w, 0, 2)
  {
    ReachTorn(x);
    ReachSecondOut(x);
    var w := SecondOut(x, Idle(Sent));
    TwoPublished(w);
    PrefixCanBeGot(w, 0);
  }

  /** A receiver can lag by the full capacity: in that state both slots are published and unread. */
  lemma LagsByCapacity(x: Item)
    ensures var v := SecondOut(x, Idle(Sent));
      Reachable(v) && v.Live(0) && v.h.published == {0, 1} && v.Top() - v.mem.consumed[0] == v.size
  {
    ReachSecondOut(x);
  }

  lemma ReachDropping(x: Item)
    ensures Reachable(Dropping(x))
  {
    ReachSecondOut(x);
    var v0 := SecondOut(x, Idle(Sent));
    ReachableStep(v0, CloseLoad(0, ToGone));
    assert Apply(v0, CloseLoad(0, ToGone)) == Dropping(x);
  }

  lemma ReachMarked(x: Item)
    ensures Reachable(Marked(x))
  {
    ReachDropping(x);
    var v1 := Dropping(x);
    ReachableStep(v1, CloseInspect(0));
    var v2 := Apply(v1, CloseInspect(0));
    ReachableStep(v2, CloseMark(0));
    assert Apply(v2, CloseMark(0)) == Marked(x);
  }

  lemma ReachAfterDrop(x: Item)
    ensures Reachable(AfterDrop(x))
  {
    ReachMarked(x);
    var v0 := Marked(x);
    ReachableStep(v0, CloseStore(0));
    var v1 := Apply(v0, CloseStore(0));
    ReachableStep(v1, Wake(0));
    var v2 := Apply(v1, Wake(0));
    ReachableStep(v2, Return(0));
    assert Apply(v2, Return(0)) == AfterDrop(x);
  }

  /** After that run the last sender is gone, its mark missed the boundary, and the slot a drained receiver
      looks at carries no bit: by `DrainThenDisconnect` it never gets to see the disconnect. */
  lemma TornCloseMissesBoundary(x: Item)
    ensures var v := AfterDrop(x);
      Reachable(v) && v.h.torn && v.h.mark == 1 && v.P() == 1 &&
      !HasBit(v.mem.words[Index(v.P() + 1, v.size)])
  {
    ReachAfterDrop(x);
    TwoPublished(AfterDrop(x));
  }

  /** Once drained, the receiver's next claim attempt in that state, and in all later ones, is not Closed. */
  lemma TornCloseHidesDisconnect(x: Item, steps: seq<Step>, v': State)
    requires Run(AfterDrop(x), steps, v') && Enabled(v', Inspect(0))
    requires v'.receivers[0].pc.next == v'.receivers[0].pc.start
    requires |v'.mem.consumed| == 1 && v'.mem.consumed[0] == 1
    ensures WellFormed(v') && DoInspect(v', 0).receivers[0].pc != Resting(Closed)
  {
    TornCloseMissesBoundary(x);
    DrainThenDisconnect(AfterDrop(x), steps, v', 0);
  }

  /** The receiver has read both items and looks for the next one. */
  function Drained(x: Item): State {
    AfterDrop(x).(mem := AfterDrop(x).mem.(consumed := [1]),
                  receivers := [Receiver(Scanning(2, 2, 2, false, Sync), [x, x])],
                  h := AfterDrop(x).h.(moves := 1))
  }

  /** The receiver's guard covers both items. */
  function ReadingBoth(x: Item): State {
    AfterDrop(x).(receivers := [Receiver(Reading(0, 1, []), [])])
  }

  lemma ReachReadingBoth(x: Item)
    ensures Reachable(ReadingBoth(x)) && Leads(Nobody, AfterDrop(x), ReadingBoth(x))
  {
    ReachAfterDrop(x);
    var v0 := AfterDrop(x);
    Advance(v0, StartRecv(0, 2, Sync));
    var v1 := DoStartRecv(v0, 0, 2, Sync);
    Advance(v1, Inspect(0));
    var v2 := DoInspect(v1, 0);
    Advance(v2, Inspect(0));
    LeadsTrans(Nobody, v0, v1, v2);
    LeadsTrans(Nobody, v0, v2, DoInspect(v2, 0));
    assert DoInspect(v2, 0) == ReadingBoth(x);
  }

  lemma ReachDrained(x: Item)
    ensures Leads(Nobody, AfterDrop(x), Drained(x))
  {
    ReachReadingBoth(x);
    var v0 := ReadingBoth(x);
    Advance(v0, Commit(0));
    var v1 := DoCommit(v0, 0);
    assert v1.receivers[0].stream == [x, x];
    Advance(v1, StartRecv(0, 1, Sync));
    var v2 := DoStartRecv(v1, 0, 1, Sync);
    LeadsTrans(Nobody, AfterDrop(x), v0, v1);
    LeadsTrans(Nobody, AfterDrop(x), v1, v2);
    assert v2 == Drained(x);
  }

  /** A run to such a claim attempt, which finds the channel Empty. */
  lemma TornCloseStarves(x: Item)
    ensures var v := Drained(x);
      && RunsTo(AfterDrop(x), v) && WellFormed(v) && Enabled(v, Inspect(0))
      && v.receivers[0].pc.next == v.receivers[0].pc.start && v.mem.consumed == [1]
      && DoInspect(v, 0).receivers[0].pc == Resting(Empty)
  {
    ReachDrained(x);
    LeadsRun(AfterDrop(x), Drained(x));
  }
}
