/** Two overlapping read guards on a two-slot channel, step by step.

    Sequences 0 and 1 are published with item `x`.  The receiver takes guard A on [0, 0] and, with A still out, guard B
    on [0, 1].

    First it drops B; a sender claims 2 and 3 and writes item `y` into both slots.  Guard A now shows a slot that the
    sender holds.  Then A is dropped, which moves the cursor back from 1 to 0.

    In the other order it drops A first, so that the cursor only moves forward; a sender claims 2 and writes `y` into
    the slot that B still gives access to. */
module OverlapRun {
  import opened Bits
  import opened RingMath
  import opened Machine
  import opened Invariant
  import opened Wakeups
  import opened Runs
  import opened OverlapMachine
  import opened OverlapInvariant
  import opened OverlappingGuards
  import opened OverlapStall

  const GUARD_A := Kept(0, 0, 0)

  function At(claimed: int, words: seq<int>, slots: seq<Item>, consumed: int, agent: Agent, r: Receiver,
              h: History): State
  {
    State(2, Memory(claimed, words, slots, [consumed]), [agent], [r], [Waker(false, false)], false, h)
  }

  const FIRST := ClaimRecord(0, 0, 1, 2)

  function OneClaim(x: Item, writes: seq<nat>, published: set<int>, moves: nat): History {
    History([x, x], [0, 0], writes, published, {}, [FIRST], [], 1, moves, false, -1)
  }

  /** The sender claimed both slots. */
  function Claimed(x: Item): State {
    At(1, [0, 0], [x, x], -1, Agent(Holding, Claim(0, 1, 0, 0)), Receiver(Resting(NothingYet), []),
       OneClaim(x, [0, 0], {}, 0))
  }

  /** It wrote both; `pc` and `claim` are where it is with publishing them. */
  function Publishing(x: Item, pc: Pc, claim: Claim, words: seq<int>, published: set<int>, r: Receiver): State {
    At(1, words, [x, x], -1, Agent(pc, claim), r, OneClaim(x, [1, 1], published, 0))
  }

  /** Both are published and the sender is idle again. */
  function Two(x: Item, r: RecvPc): State {
    Publishing(x, Idle(Sent), NoClaim, [1, 1], {0, 1}, Receiver(r, []))
  }

  /** Guard B is dropped; guard A is still out. */
  function BDropped(x: Item, agent: Agent): State {
    At(1, [1, 1], [x, x], 1, agent, Receiver(Resting(Received), [x, x]), OneClaim(x, [1, 1], {0, 1}, 1))
  }

  function TwoClaims(log: seq<Item>, writes: seq<nat>, published: set<int>, moves: nat): History {
    History(log, [0, 0, 0, 0], writes, published, {}, [FIRST, ClaimRecord(0, 2, 3, 2)], [], 2, moves, false, -1)
  }

  /** The sender claimed both slots again. */
  function ClaimedAgain(x: Item): State {
    At(3, [1, 1], [x, x], 1, Agent(Holding, Claim(2, 3, 2, 2)), Receiver(Resting(Received), [x, x]),
       TwoClaims([x, x, x, x], [1, 1, 0, 0], {0, 1}, 1))
  }

  /** It wrote `y` into both. */
  function Overwritten(x: Item, y: Item): State {
    At(3, [1, 1], [y, y], 1, Agent(Holding, Claim(2, 3, 4, 2)), Receiver(Resting(Received), [x, x]),
       TwoClaims([x, x, y, y], [1, 1, 1, 1], {0, 1}, 1))
  }

  /** Guard A is dropped, and the receiver has gone on to `r`. */
  function ADropped(x: Item, y: Item, r: RecvPc): State {
    At(3, [1, 1], [y, y], 0, Agent(Holding, Claim(2, 3, 4, 2)), Receiver(r, [x, x, y]),
       TwoClaims([x, x, y, y], [1, 1, 1, 1], {0, 1}, 2))
  }

  function D(v: State, kept: seq<Kept>, high: int, got: seq<int>): Overlap { Overlap(v, kept, [high], [got]) }

  /** A step other than a commit or the drop of the receiver. */
  lemma Go(v: State, step: Step, kept: seq<Kept>, high: int, got: seq<int>)
    requires Possible(D(v, kept, high, got)) && Enabled(v, step) && !step.Commit? && !step.DropReceiver?
    ensures WellFormed(v) && Possible(D(Apply(v, step), kept, high, got))
  {
    PossibleOn(D(v, kept, high, got), Take(step));
  }

  lemma PassedIs(v: State, kept: seq<Kept>, high: int, got: seq<int>, g: Kept, v': State, kept': seq<Kept>,
                 got': seq<int>)
    requires g.i == 0 && g.start <= g.end && got' == got + Range(g.start, g.end)
    ensures Passed(D(v, kept, high, got), g, v', kept') == D(v', kept', Max(high, g.end), got')
  {}

  /** Nothing has happened yet. */
  function Fresh(x: Item): State {
    At(-1, [0, 0], [x, x], -1, Agent(Idle(NotCalled), NoClaim), Receiver(Resting(NothingYet), []),
       History([], [], [], {}, {}, [], [], 0, 0, false, -1))
  }

  lemma ReachStart(x: Item)
    ensures Possible(D(Fresh(x), [], -1, []))
  {
    var v := Initial(2, [x, x], 1, 1);
    InitialInv(2, [x, x], 1, 1);
    assert MovesLead(Start(2, [x, x], 1, 1), Start(2, [x, x], 1, 1));
    assert v.mem.words == [0, 0] && v.mem.consumed == [-1] && v.agents == [Agent(Idle(NotCalled), NoClaim)];
    assert v.receivers == [Receiver(Resting(NothingYet), [])] && v.wakers == [Waker(false, false)];
    assert Start(2, [x, x], 1, 1) == D(Fresh(x), [], -1, []);
  }

  lemma DecideFirst(x: Item, v: State)
    requires |v.agents| == 1 && v.agents[0].pc.Gating? && v.agents[0].claim.NoClaim?
    requires v == Fresh(x).(agents := v.agents)
    requires var g := v.agents[0].pc.gate; g.n == 2 && g.seen == -1 && g.next == 1 && g.min == -1
    ensures Enabled(v, Decide(0)) && DoDecide(v, 0) == Claimed(x)
  {
    assert Contents([x, x], 2, 0, 2) == [x, x];
    assert seq(2, _ => 0 as nat) == [0, 0];
  }

  lemma ReachClaimed(x: Item)
    ensures Possible(D(Claimed(x), [], -1, []))
  {
    ReachStart(x);
    var v0 := Fresh(x);
    Go(v0, StartClaim(0, 2), [], -1, []);
    var v1 := DoStartClaim(v0, 0, 2);
    Go(v1, ReadCursor(0), [], -1, []);
    var v2 := DoReadCursor(v1, 0);
    DecideFirst(x, v2);
    Go(v2, Decide(0), [], -1, []);
  }

  lemma ReachWritten(x: Item)
    ensures Possible(D(Publishing(x, Holding, Claim(0, 1, 2, 0), [0, 0], {}, Receiver(Resting(NothingYet), [])),
                       [], -1, []))
  {
    ReachClaimed(x);
    var v0 := Claimed(x);
    Go(v0, Write(0, x), [], -1, []);
    var v1 := Apply(v0, Write(0, x));
    Go(v1, Write(0, x), [], -1, []);
    assert Apply(v1, Write(0, x)) ==
      Publishing(x, Holding, Claim(0, 1, 2, 0), [0, 0], {}, Receiver(Resting(NothingYet), []));
  }

  /** Both are published; the sender is notifying. */
  function Stored(x: Item): State {
    Publishing(x, Notifying(0, ToSent), NoClaim, [1, 1], {0, 1}, Receiver(Resting(NothingYet), []))
  }

  lemma ReachStored(x: Item)
    ensures Possible(D(Stored(x), [], -1, []))
  {
    ReachWritten(x);
    var v0 := Publishing(x, Holding, Claim(0, 1, 2, 0), [0, 0], {}, Receiver(Resting(NothingYet), []));
    Go(v0, StoreFlag(0), [], -1, []);
    var v1 := Apply(v0, StoreFlag(0));
    Go(v1, StoreFlag(0), [], -1, []);
    assert Apply(v1, StoreFlag(0)) == Stored(x);
  }

  lemma ReachTwo(x: Item)
    ensures Possible(D(Two(x, Resting(NothingYet)), [], -1, []))
  {
    ReachStored(x);
    var v0 := Stored(x);
    Go(v0, Wake(0), [], -1, []);
    var v1 := Apply(v0, Wake(0));
    Go(v1, Return(0), [], -1, []);
    assert Apply(v1, Return(0)) == Two(x, Resting(NothingYet));
  }

  // ----- with guard A kept aside -----

  lemma TakeA(x: Item)
    ensures Possible(D(Two(x, Reading(0, 0, [])), [], -1, []))
  {
    ReachTwo(x);
    var v0 := Two(x, Resting(NothingYet));
    Go(v0, StartRecv(0, 1, Sync), [], -1, []);
    var v1 := DoStartRecv(v0, 0, 1, Sync);
    Go(v1, Inspect(0), [], -1, []);
    assert DoInspect(v1, 0) == Two(x, Reading(0, 0, []));
  }

  lemma KeepA(x: Item)
    ensures Possible(D(Two(x, Resting(NothingYet)), [GUARD_A], -1, []))
  {
    TakeA(x);
    var d := D(Two(x, Reading(0, 0, [])), [], -1, []);
    PossibleOn(d, Keep(0));
    assert DoKeep(d, 0) == D(Two(x, Resting(NothingYet)), [GUARD_A], -1, []);
  }

  lemma TakeB(x: Item)
    ensures Possible(D(Two(x, Reading(0, 1, [])), [GUARD_A], -1, []))
  {
    KeepA(x);
    var v0 := Two(x, Resting(NothingYet));
    Go(v0, StartRecv(0, 2, Sync), [GUARD_A], -1, []);
    var v1 := DoStartRecv(v0, 0, 2, Sync);
    Go(v1, Inspect(0), [GUARD_A], -1, []);
    var v2 := DoInspect(v1, 0);
    Go(v2, Inspect(0), [GUARD_A], -1, []);
    assert DoInspect(v2, 0) == Two(x, Reading(0, 1, []));
  }

  lemma DropOfA(v: State, high: int, got: seq<int>, got': seq<int>)
    requires CanMove(D(v, [GUARD_A], high, got), DropKept(0)) && got' == got + [0]
    ensures DoDropKept(D(v, [GUARD_A], high, got), 0) == D(StoreKept(v, GUARD_A), [], Max(high, 0), got')
  {
    assert Range(0, 0) == [0];
    PassedIs(v, [GUARD_A], high, got, GUARD_A, StoreKept(v, GUARD_A), [], got');
  }

  // ----- B is dropped first -----

  lemma DropB(x: Item)
    ensures Possible(D(BDropped(x, Agent(Idle(Sent), NoClaim)), [GUARD_A], 1, [0, 1]))
  {
    TakeB(x);
    var d := D(Two(x, Reading(0, 1, [])), [GUARD_A], -1, []);
    PossibleOn(d, Take(Commit(0)));
    assert DoCommit(d.v, 0).receivers[0].stream == [x, x];
    assert [] + Range(0, 1) == [0, 1];
    PassedIs(d.v, [GUARD_A], -1, [], Kept(0, 0, 1), DoCommit(d.v, 0), [GUARD_A], [0, 1]);
    assert DoTake(d, Commit(0)) == D(BDropped(x, Agent(Idle(Sent), NoClaim)), [GUARD_A], 1, [0, 1]);
  }

  /** The sender is back in the claim loop and has read the first `next` cursors. */
  function GateAgain(n: int, next: nat, min: int): Agent {
    Agent(Gating(Gate(n, 1, next, min, Trail(false, 0, 1, 1, 1, 1))), NoClaim)
  }

  lemma AskAgain(x: Item)
    ensures Possible(D(BDropped(x, GateAgain(2, 0, SHUTDOWN_OPEN)), [GUARD_A], 1, [0, 1]))
  {
    DropB(x);
    var v0 := BDropped(x, Agent(Idle(Sent), NoClaim));
    Go(v0, StartClaim(0, 2), [GUARD_A], 1, [0, 1]);
    assert DoStartClaim(v0, 0, 2) == BDropped(x, GateAgain(2, 0, SHUTDOWN_OPEN));
  }

  lemma GateOpen(x: Item)
    ensures Possible(D(BDropped(x, GateAgain(2, 1, 1)), [GUARD_A], 1, [0, 1]))
  {
    AskAgain(x);
    var v0 := BDropped(x, GateAgain(2, 0, SHUTDOWN_OPEN));
    Go(v0, ReadCursor(0), [GUARD_A], 1, [0, 1]);
    assert DoReadCursor(v0, 0) == BDropped(x, GateAgain(2, 1, 1));
  }

  lemma DecideAgain(x: Item)
    ensures var v := BDropped(x, GateAgain(2, 1, 1)); Enabled(v, Decide(0)) && DoDecide(v, 0) == ClaimedAgain(x)
  {
    assert Contents([x, x], 2, 2, 2) == [x, x];
    assert seq(2, _ => 0 as nat) == [0, 0];
  }

  lemma ClaimAgain(x: Item)
    ensures Possible(D(ClaimedAgain(x), [GUARD_A], 1, [0, 1]))
  {
    GateOpen(x);
    DecideAgain(x);
    Go(BDropped(x, GateAgain(2, 1, 1)), Decide(0), [GUARD_A], 1, [0, 1]);
  }

  lemma TwoPublished(v: State)
    requires v.h.published == {0, 1}
    ensures v.P() == 1
  {
    assert -1 <= v.P() < 1 ==> v.P() + 1 in v.h.published;
    assert v.P() >= 2 ==> 2 in v.h.published;
  }

  /** With B committed, the slot under the live guard A is claimed and overwritten: A shows `y`, which is not
      published, while a sender may still write there. */
  lemma ExclusivityLost(x: Item, y: Item)
    ensures var d := D(Overwritten(x, y), [GUARD_A], 1, [0, 1]);
      && Possible(d) && WriterOn(d.v, GUARD_A.start) && d.v.P() == 1
      && d.v.h.log[GUARD_A.start] == x && d.v.mem.slots[Index(GUARD_A.start, 2)] == y
  {
    ClaimAgain(x);
    var v0 := ClaimedAgain(x);
    Go(v0, Write(0, y), [GUARD_A], 1, [0, 1]);
    var v1 := DoWrite(v0, 0, y);
    Go(v1, Write(0, y), [GUARD_A], 1, [0, 1]);
    assert DoWrite(v1, 0, y) == Overwritten(x, y);
    assert Holds(Overwritten(x, y), 0, 2) && Index(2, 2) == Index(0, 2);
    TwoPublished(Overwritten(x, y));
  }

  /** In that state the drop of A moves the cursor from 1 back to 0, and delivers sequence 0 a second time, with `y`,
      the item of the unpublished sequence 2. */
  lemma CursorMovesBack(x: Item, y: Item)
    ensures var d := D(Overwritten(x, y), [GUARD_A], 1, [0, 1]);
      && Possible(d) && CanMove(d, DropKept(0)) && d.v.mem.consumed == [1]
      && DoDropKept(d, 0) == D(ADropped(x, y, Resting(Received)), [], 1, [0, 1, 0])
      && Possible(DoDropKept(d, 0)) && DoDropKept(d, 0).v.mem.consumed == [0]
      && DoDropKept(d, 0).v.receivers[0].stream == [x, x, y] && 2 !in d.v.h.published
  {
    ExclusivityLost(x, y);
    var d := D(Overwritten(x, y), [GUARD_A], 1, [0, 1]);
    PossibleOn(d, DropKept(0));
    assert StoreKept(d.v, GUARD_A).receivers[0].stream == [x, x, y];
    DropOfA(d.v, 1, [0, 1], [0, 1, 0]);
    assert DoDropKept(d, 0) == D(ADropped(x, y, Resting(Received)), [], 1, [0, 1, 0]);
  }

  /** The receiver's next claim succeeds: it gets a guard on sequence 1, reads the unpublished `y` instead of `x`, and
      a sender may write that slot meanwhile. */
  lemma ReadsUnpublished(x: Item, y: Item)
    ensures var v := ADropped(x, y, Reading(1, 1, [y]));
      Possible(D(v, [], 1, [0, 1, 0])) && v.h.log[1] == x && WriterOn(v, 1)
  {
    AskForNext(x, y);
    GuardAgain(x, y);
    ReadsNext(x, y);
  }

  lemma AskForNext(x: Item, y: Item)
    ensures Possible(D(ADropped(x, y, Scanning(1, 2, 1, false, Sync)), [], 1, [0, 1, 0]))
  {
    CursorMovesBack(x, y);
    var v0 := ADropped(x, y, Resting(Received));
    Go(v0, StartRecv(0, 2, Sync), [], 1, [0, 1, 0]);
    assert DoStartRecv(v0, 0, 2, Sync) == ADropped(x, y, Scanning(1, 2, 1, false, Sync));
  }

  lemma GuardAgain(x: Item, y: Item)
    requires Possible(D(ADropped(x, y, Scanning(1, 2, 1, false, Sync)), [], 1, [0, 1, 0]))
    ensures Possible(D(ADropped(x, y, Reading(1, 1, [])), [], 1, [0, 1, 0]))
  {
    var v0 := ADropped(x, y, Scanning(1, 2, 1, false, Sync));
    Go(v0, Inspect(0), [], 1, [0, 1, 0]);
    var v1 := DoInspect(v0, 0);
    Go(v1, Inspect(0), [], 1, [0, 1, 0]);
    assert DoInspect(v1, 0) == ADropped(x, y, Reading(1, 1, []));
  }

  lemma ReadsNext(x: Item, y: Item)
    requires Possible(D(ADropped(x, y, Reading(1, 1, [])), [], 1, [0, 1, 0]))
    ensures var v := ADropped(x, y, Reading(1, 1, [y])); Possible(D(v, [], 1, [0, 1, 0])) && WriterOn(v, 1)
  {
    var v := ADropped(x, y, Reading(1, 1, []));
    Go(v, ReadNext(0), [], 1, [0, 1, 0]);
    assert DoReadNext(v, 0).receivers[0].pc.got == [y];
    assert DoReadNext(v, 0) == ADropped(x, y, Reading(1, 1, [y]));
    assert Holds(ADropped(x, y, Reading(1, 1, [y])), 0, 3);
  }

  // ----- B is dropped first, and the sender publishes before A is dropped -----

  /** The sender has published 2 and 3; `pc` is where it is then. */
  function Published(x: Item, y: Item, consumed: int, pc: Pc, stream: seq<Item>, moves: nat): State {
    At(3, [2, 2], [y, y], consumed, Agent(pc, NoClaim), Receiver(Resting(Received), stream),
       TwoClaims([x, x, y, y], [1, 1, 1, 1], {0, 1, 2, 3}, moves))
  }

  lemma PublishTwo(x: Item, y: Item)
    ensures Possible(D(Published(x, y, 1, Notifying(0, ToSent), [x, x], 1), [GUARD_A], 1, [0, 1]))
  {
    ExclusivityLost(x, y);
    var v0 := Overwritten(x, y);
    Go(v0, StoreFlag(0), [GUARD_A], 1, [0, 1]);
    var v1 := DoStoreFlag(v0, 0);
    Go(v1, StoreFlag(0), [GUARD_A], 1, [0, 1]);
    assert DoStoreFlag(v1, 0) == Published(x, y, 1, Notifying(0, ToSent), [x, x], 1);
  }

  lemma PublishThree(x: Item, y: Item)
    ensures Possible(D(Published(x, y, 1, Idle(Sent), [x, x], 1), [GUARD_A], 1, [0, 1]))
  {
    PublishTwo(x, y);
    var v0 := Published(x, y, 1, Notifying(0, ToSent), [x, x], 1);
    Go(v0, Wake(0), [GUARD_A], 1, [0, 1]);
    var v1 := DoWake(v0, 0);
    Go(v1, Return(0), [GUARD_A], 1, [0, 1]);
    assert DoReturn(v1, 0) == Published(x, y, 1, Idle(Sent), [x, x], 1);
  }

  /** Guard A is dropped: the cursor is back at 0 while all of 0 to 3 are published. */
  function Stuck(x: Item, y: Item): State { Published(x, y, 0, Idle(Sent), [x, x, y], 2) }

  /** With 2 and 3 published the drop of A moves the cursor from 1 back to 0, behind an overwritten sequence. */
  lemma ReachStuck(x: Item, y: Item)
    ensures var d := D(Published(x, y, 1, Idle(Sent), [x, x], 1), [GUARD_A], 1, [0, 1]);
      && Possible(d) && CanMove(d, DropKept(0)) && d.v.mem.consumed == [1]
      && DoDropKept(d, 0) == D(Stuck(x, y), [], 1, [0, 1, 0])
      && Possible(DoDropKept(d, 0)) && LeftBehind(DoDropKept(d, 0), 0)
  {
    PublishThree(x, y);
    var d := D(Published(x, y, 1, Idle(Sent), [x, x], 1), [GUARD_A], 1, [0, 1]);
    PossibleOn(d, DropKept(0));
    assert StoreKept(d.v, GUARD_A).receivers[0].stream == [x, x, y];
    DropOfA(d.v, 1, [0, 1], [0, 1, 0]);
    assert DoDropKept(d, 0) == D(Stuck(x, y), [], 1, [0, 1, 0]);
  }

  // ----- A is dropped first -----

  /** Guard B is live, A is dropped: the cursor has moved forward to 0. */
  function AFirst(x: Item, agent: Agent): State {
    At(1, [1, 1], [x, x], 0, agent, Receiver(Reading(0, 1, []), [x]), OneClaim(x, [1, 1], {0, 1}, 1))
  }

  function ThreeLog(log: seq<Item>, writes: seq<nat>, moves: nat): History {
    History(log, [0, 0, 0], writes, {0, 1}, {}, [FIRST, ClaimRecord(0, 2, 2, 1)], [], 2, moves, false, -1)
  }

  /** The sender claimed 2. */
  function ClaimedTwo(x: Item): State {
    At(2, [1, 1], [x, x], 0, Agent(Holding, Claim(2, 2, 2, 2)), Receiver(Reading(0, 1, []), [x]),
       ThreeLog([x, x, x], [1, 1, 0], 1))
  }

  /** It wrote `y`. */
  function WroteTwo(x: Item, y: Item): State {
    At(2, [1, 1], [y, x], 0, Agent(Holding, Claim(2, 2, 3, 2)), Receiver(Reading(0, 1, []), [x]),
       ThreeLog([x, x, y], [1, 1, 1], 1))
  }

  /** B is dropped, too. */
  function BothDropped(x: Item, y: Item): State {
    At(2, [1, 1], [y, x], 1, Agent(Holding, Claim(2, 2, 3, 2)), Receiver(Resting(Received), [x, y, x]),
       ThreeLog([x, x, y], [1, 1, 1], 2))
  }

  lemma DropAFirst(x: Item)
    ensures Possible(D(AFirst(x, Agent(Idle(Sent), NoClaim)), [], 0, [0]))
  {
    TakeB(x);
    var d := D(Two(x, Reading(0, 1, [])), [GUARD_A], -1, []);
    PossibleOn(d, DropKept(0));
    assert StoreKept(d.v, GUARD_A).receivers[0].stream == [x];
    DropOfA(d.v, -1, [], [0]);
    assert DoDropKept(d, 0) == D(AFirst(x, Agent(Idle(Sent), NoClaim)), [], 0, [0]);
  }

  lemma GateForTwo(x: Item)
    ensures Possible(D(AFirst(x, GateAgain(1, 1, 0)), [], 0, [0]))
  {
    DropAFirst(x);
    var v0 := AFirst(x, Agent(Idle(Sent), NoClaim));
    Go(v0, StartClaim(0, 1), [], 0, [0]);
    assert DoStartClaim(v0, 0, 1) == AFirst(x, GateAgain(1, 0, SHUTDOWN_OPEN));
    var v1 := AFirst(x, GateAgain(1, 0, SHUTDOWN_OPEN));
    Go(v1, ReadCursor(0), [], 0, [0]);
    NotFull(v1);
    assert DoReadCursor(v1, 0) == AFirst(x, GateAgain(1, 1, 0));
  }

  lemma NotFull(v: State)
    requires |v.receivers| == |v.mem.consumed| == 1 && v.Top() - v.mem.consumed[0] != v.size
    ensures !RingFull(v)
  {}

  lemma DecideTwo(x: Item)
    ensures var v := AFirst(x, GateAgain(1, 1, 0)); Enabled(v, Decide(0)) && DoDecide(v, 0) == ClaimedTwo(x)
  {
    assert Contents([x, x], 2, 2, 1) == [x];
    assert seq(1, _ => 0 as nat) == [0];
  }

  /** The cursor never moved back, and still a sender may write a slot under the live guard B; it has written `y`. */
  lemma ExclusivityLostInOrder(x: Item, y: Item)
    ensures var d := D(WroteTwo(x, y), [], 0, [0]);
      && Possible(d) && d.v.receivers[0].pc == Reading(0, 1, []) && WriterOn(d.v, 0) && d.v.P() == 1
      && d.v.h.log[0] == x && d.v.mem.slots[Index(0, 2)] == y
  {
    GateForTwo(x);
    DecideTwo(x);
    Go(AFirst(x, GateAgain(1, 1, 0)), Decide(0), [], 0, [0]);
    Go(ClaimedTwo(x), Write(0, y), [], 0, [0]);
    assert DoWrite(ClaimedTwo(x), 0, y) == WroteTwo(x, y);
    assert Holds(WroteTwo(x, y), 0, 2) && Index(2, 2) == Index(0, 2);
    TwoPublished(WroteTwo(x, y));
  }

  /** The drop of B then leaves the cursor at 1, as if all were well; but sequence 0 was delivered twice, the second
      time with the unpublished `y`. */
  lemma DeliversTwiceInOrder(x: Item, y: Item)
    ensures var d := D(WroteTwo(x, y), [], 0, [0]);
      && Possible(d) && CanMove(d, Take(Commit(0))) && d.v.mem.consumed == [0]
      && DoTake(d, Commit(0)) == D(BothDropped(x, y), [], 1, [0, 0, 1])
      && Possible(DoTake(d, Commit(0))) && DoTake(d, Commit(0)).v.mem.consumed == [1]
      && DoTake(d, Commit(0)).v.receivers[0].stream == [x, y, x]
  {
    ExclusivityLostInOrder(x, y);
    var d := D(WroteTwo(x, y), [], 0, [0]);
    PossibleOn(d, Take(Commit(0)));
    assert DoCommit(d.v, 0).receivers[0].stream == [x, y, x];
    assert [0] + Range(0, 1) == [0, 0, 1];
    PassedIs(d.v, [], 0, [0], Kept(0, 0, 1), DoCommit(d.v, 0), [], [0, 0, 1]);
    assert DoTake(d, Commit(0)) == D(BothDropped(x, y), [], 1, [0, 0, 1]);
  }

  // ----- and then nothing moves any more -----

  /** A sender that got to see only the cursor at 0, or the dropped receiver's. */
  predicate StuckAgent(g: Agent) {
    && g.claim.NoClaim?
    && match g.pc
       case Idle(_) => true
       case Gating(gate) => gate.n > 0 && gate.seen == 3 && (gate.min == SHUTDOWN_OPEN || gate.min == 0)
       case CloseScanning(raw, _, after) => after.ToGone? && LastClaimed(raw) == 3
       case CloseMarking(raw, _, after) => after.ToGone? && LastClaimed(raw) == 3
       case CloseStoring(raw, after) => after.ToGone? && LastClaimed(raw) == 3 && I64_MIN <= raw <= I64_MAX
       case Notifying(_, after) => !after.ToHolding?
       case Gone => true
       case Holding => false
  }

  predicate StuckReceiver(r: Receiver, c: int) {
    && (c == 0 || (c == SHUTDOWN_OPEN && r.pc.Dropped?))
    && !r.pc.Reading? && (r.pc.Scanning? ==> r.pc.start == r.pc.next == 1)
  }

  ghost predicate StuckOk(v: State, claims: seq<ClaimRecord>, stream: seq<Item>) {
    && v.size == 2 && LastClaimed(v.mem.claimed) == 3 && v.h.claims == claims
    && |v.mem.words| == 2 && Lap(v.mem.words[1]) == 2
    && |v.receivers| == |v.mem.consumed| == 1 && v.receivers[0].stream == stream
    && StuckReceiver(v.receivers[0], v.mem.consumed[0])
    && forall a: nat :: a < |v.agents| ==> StuckAgent(v.agents[a])
  }

  lemma StuckClaimStep(v: State, step: Step, claims: seq<ClaimRecord>, stream: seq<Item>)
    requires WellFormed(v) && Enabled(v, step) && StuckOk(v, claims, stream)
    requires step.Clone? || step.StartClaim? || step.ReadCursor? || step.Decide?
    ensures StuckOk(Apply(v, step), claims, stream)
  {}

  lemma StuckCloseStep(v: State, step: Step, claims: seq<ClaimRecord>, stream: seq<Item>)
    requires WellFormed(v) && Enabled(v, step) && StuckOk(v, claims, stream) && !ByReceiver(step)
    requires !step.Clone? && !step.StartClaim? && !step.ReadCursor? && !step.Decide?
    ensures StuckOk(Apply(v, step), claims, stream)
  {}

  lemma StuckReceiverStep(v: State, step: Step, claims: seq<ClaimRecord>, stream: seq<Item>)
    requires WellFormed(v) && Enabled(v, step) && StuckOk(v, claims, stream) && ByReceiver(step)
    ensures StuckOk(Apply(v, step), claims, stream)
  {}

  lemma StuckStep(v: State, step: Step, claims: seq<ClaimRecord>, stream: seq<Item>)
    requires WellFormed(v) && Enabled(v, step) && StuckOk(v, claims, stream)
    ensures StuckOk(Apply(v, step), claims, stream)
  {
    if ByReceiver(step) {
      StuckReceiverStep(v, step, claims, stream);
    } else if step.Clone? || step.StartClaim? || step.ReadCursor? || step.Decide? {
      StuckClaimStep(v, step, claims, stream);
    } else {
      StuckCloseStep(v, step, claims, stream);
    }
  }

  /** In every run from there, no sender ever claims and the receiver never gets an item: all items from sequence 1
      on, though published, are lost. */
  lemma StuckForGood(x: Item, y: Item, v: State)
    requires Leads(Nobody, Stuck(x, y), v)
    ensures v.h.claims == Stuck(x, y).h.claims
    ensures |v.receivers| == 1 && v.receivers[0].stream == [x, x, y] && !v.receivers[0].pc.Reading?
  {
    var claims, stream := Stuck(x, y).h.claims, [x, x, y];
    var S := iset w: State | StuckOk(w, claims, stream);
    forall w: State, step: Step | w in S && WellFormed(w) && Enabled(w, step)
      ensures Apply(w, step) in S
    {
      StuckStep(w, step, claims, stream);
    }
    assert ClosedUnder(S, Nobody);
    assert Stuck(x, y) in S;
  }
}
