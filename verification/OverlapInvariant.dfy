/** What survives overlapping read guards: everything but the bound of the claims by the cursors.

    Senders trust the cursors they read, and a cursor may have been stored back.  But every cursor value ever stored
    was the end of a guard, hence of the published prefix; so the claims stay within one lap of the prefix, and of the
    highest value each live cursor ever had. */
module OverlapInvariant {
  import opened RingMath
  import opened Machine
  import opened Invariant
  import opened Preservation
  import opened Claims
  import opened Wakeups
  import opened Runs
  import opened OverlapMachine

  ghost predicate LooseGate(v: State, high: seq<int>, g: Gate)
    requires |high| == |v.receivers|
  {
    && 1 <= g.n <= v.size && -1 <= g.seen <= v.Top() && g.next <= |v.receivers|
    && (g.min == SHUTDOWN_OPEN || -1 <= g.min <= v.P())
    && forall j: nat :: j < g.next && v.Live(j) ==> g.min <= high[j]
  }

  ghost predicate LooseAgent(v: State, high: seq<int>, a: nat, g: Agent)
    requires |v.mem.consumed| == |v.receivers| == |high| && |v.h.owner| == |v.h.log|
  {
    if g.pc.Gating? then g.claim.NoClaim? && !v.dropping && LooseGate(v, high, g.pc.gate) else AgentOk(v, a, g)
  }

  ghost predicate LooseReceiver(v: State, hi: int, c: int, pc: RecvPc) {
    if pc.Dropped? then c == SHUTDOWN_OPEN
    else
      && -1 <= c <= hi <= v.P() && v.Top() <= hi + v.size
      && match pc
         case Scanning(start, stop, next, _, _) => 0 <= start <= next <= stop < start + v.size && next <= v.P() + 1
         case Registering(n) => 1 <= n <= v.size
         case Reading(start, end, _) => 0 <= start <= end <= v.P()
         case _ => true
  }

  ghost predicate KeptOk(v: State, g: Kept) {
    g.i < |v.receivers| && v.Live(g.i) && 0 <= g.start <= g.end <= v.P()
  }

  /** Slot words, slots and the log, and who owns what: no cursor and no guard is involved. */
  ghost predicate Shared(v: State) {
    && WellFormed(v) && ClaimedOk(v) && PublishedOk(v) && FlagsOk(v) && DataOk(v) && OwnersOk(v)
    && StaleOk(v.size, v.h.log, v.h.writes)
  }

  ghost predicate Loose(d: Overlap) {
    && Shared(d.v) && |d.high| == |d.got| == |d.v.receivers|
    && (forall a: nat :: a < |d.v.agents| ==> LooseAgent(d.v, d.high, a, d.v.agents[a]))
    && (forall i: nat :: i < |d.v.receivers| ==>
          LooseReceiver(d.v, d.high[i], d.v.mem.consumed[i], d.v.receivers[i].pc) &&
          |d.v.receivers[i].stream| == |d.got[i]|)
    && (forall g :: g in d.kept ==> KeptOk(d.v, g))
  }

  lemma StartLoose(size: int, slots: seq<Item>, m: nat, n: nat)
    requires ValidSize(size) && |slots| == size
    ensures Loose(Start(size, slots, m, n))
  {
    InitialInv(size, slots, m, n);
  }

  // ----- moves of receivers -----

  /** `v'` differs from `v` in what belongs to receiver `i`, in its waker and in the count of moves. */
  ghost predicate OnlyReceiverMoved(v: State, v': State, i: nat) {
    && i < |v.receivers| == |v'.receivers| == |v.mem.consumed| == |v'.mem.consumed|
    && v'.size == v.size && v'.agents == v.agents && v'.dropping == v.dropping && |v'.wakers| == |v.wakers|
    && v'.mem == v.mem.(consumed := v'.mem.consumed) && v'.h == v.h.(moves := v'.h.moves)
    && (forall j: nat :: j < |v.receivers| && j != i ==>
          v'.receivers[j] == v.receivers[j] && v'.mem.consumed[j] == v.mem.consumed[j])
    && (v'.Live(i) ==> v.Live(i))
  }

  lemma SharedSame(v: State, v': State, i: nat)
    requires Shared(v) && WellFormed(v') && OnlyReceiverMoved(v, v', i)
    ensures Shared(v')
  {
    MemorySame(v, v');
    OwnersSame(v, v');
  }

  lemma LooseAgentSame(v: State, v': State, high: seq<int>, high': seq<int>, i: nat, a: nat, g: Agent)
    requires WellFormed(v) && WellFormed(v') && OnlyReceiverMoved(v, v', i)
    requires |high| == |high'| == |v.receivers| && forall j :: 0 <= j < |high| ==> high[j] <= high'[j]
    requires LooseAgent(v, high, a, g)
    ensures LooseAgent(v', high', a, g)
  {
    if g.pc.Gating? {
      forall j: nat | j < g.pc.gate.next && v'.Live(j)
        ensures g.pc.gate.min <= high'[j]
      {
        assert v.Live(j);
      }
    }
  }

  lemma ReceiverMoves(d: Overlap, d': Overlap, i: nat)
    requires Loose(d) && WellFormed(d'.v) && OnlyReceiverMoved(d.v, d'.v, i)
    requires |d'.high| == |d'.got| == |d.high|
    requires forall j :: 0 <= j < |d.high| && j != i ==> d'.high[j] == d.high[j] && d'.got[j] == d.got[j]
    requires d.high[i] <= d'.high[i] && |d'.v.receivers[i].stream| == |d'.got[i]|
    requires LooseReceiver(d'.v, d'.high[i], d'.v.mem.consumed[i], d'.v.receivers[i].pc)
    requires forall g :: g in d'.kept ==> KeptOk(d'.v, g)
    ensures Loose(d')
  {
    SharedSame(d.v, d'.v, i);
    forall a: nat | a < |d'.v.agents|
      ensures LooseAgent(d'.v, d'.high, a, d'.v.agents[a])
    {
      LooseAgentSame(d.v, d'.v, d.high, d'.high, i, a, d.v.agents[a]);
    }
    forall j: nat | j < |d'.v.receivers|
      ensures LooseReceiver(d'.v, d'.high[j], d'.v.mem.consumed[j], d'.v.receivers[j].pc)
      ensures |d'.v.receivers[j].stream| == |d'.got[j]|
    {
      if j != i { assert LooseReceiver(d.v, d.high[j], d.v.mem.consumed[j], d.v.receivers[j].pc); }
    }
  }

  lemma KeptStay(d: Overlap, v': State, i: nat)
    requires forall g :: g in d.kept ==> KeptOk(d.v, g)
    requires OnlyReceiverMoved(d.v, v', i) && (v'.Live(i) || !KeptBy(d.kept, i))
    ensures forall g :: g in d.kept ==> KeptOk(v', g)
  {
    forall g | g in d.kept
      ensures KeptOk(v', g)
    {
      assert KeptOk(d.v, g) && (g.i == i ==> KeptBy(d.kept, i));
      assert g.i != i ==> v'.receivers[g.i] == d.v.receivers[g.i];
    }
  }

  /** The sequence after the published prefix never matches. */
  lemma MatchedInPrefix(v: State, s: int)
    requires v.size > 0 && |v.mem.words| == v.size && FlagsOk(v) && s <= v.P() + 1
    requires Lap(v.mem.words[Index(s, v.size)]) == Flag(s, v.size)
    ensures s <= v.P()
  {
    if s == v.P() + 1 { LapBefore(s, v.size); }
  }

  /** So a scan passes only sequences of that prefix. */
  lemma InspectedLoose(v: State, hi: int, c: int, pc: RecvPc, matches: bool, bit: bool)
    requires pc.Scanning? && v.size > 0 && LooseReceiver(v, hi, c, pc) && (matches ==> pc.next <= v.P())
    ensures LooseReceiver(v, hi, c, Inspected(pc, matches, bit)) && ReceiverBounds(Inspected(pc, matches, bit))
  {
  }

  lemma InspectLoose(v: State, i: nat, hi: int)
    requires WellFormed(v) && FlagsOk(v) && Enabled(v, Inspect(i))
    requires LooseReceiver(v, hi, v.mem.consumed[i], v.receivers[i].pc)
    ensures WellFormed(DoInspect(v, i)) && LooseReceiver(v, hi, v.mem.consumed[i], DoInspect(v, i).receivers[i].pc)
  {
    var pc := v.receivers[i].pc;
    var word := v.mem.words[Index(pc.next, v.size)];
    if Lap(word) == Flag(pc.next, v.size) { MatchedInPrefix(v, pc.next); }
    InspectedLoose(v, hi, v.mem.consumed[i], pc, Lap(word) == Flag(pc.next, v.size), HasBit(word));
  }

  lemma ReceiverStepFrame(v: State, step: Step)
    requires WellFormed(v) && Enabled(v, step) && ByReceiver(step)
    ensures OnlyReceiverMoved(v, Apply(v, step), step.i)
    ensures !step.Inspect? ==> WellFormed(Apply(v, step))
    ensures !step.Commit? ==> Apply(v, step).receivers[step.i].stream == v.receivers[step.i].stream
    ensures step.Commit? ==>
              var r := v.receivers[step.i];
              |Apply(v, step).receivers[step.i].stream| == |r.stream| + r.pc.end - r.pc.start + 1
    ensures !step.DropReceiver? && v.Live(step.i) ==> Apply(v, step).Live(step.i)
  {
    ReceiverFrame(v, step);
  }

  lemma OwnStepLoose(v: State, step: Step, hi: int)
    requires WellFormed(v) && Enabled(v, step) && ByReceiver(step) && !step.Inspect?
    requires LooseReceiver(v, hi, v.mem.consumed[step.i], v.receivers[step.i].pc)
    ensures var v', i := Apply(v, step), step.i;
      i < |v'.receivers| == |v'.mem.consumed| &&
      LooseReceiver(v', if step.Commit? then Max(hi, v.receivers[i].pc.end) else hi, v'.mem.consumed[i],
                    v'.receivers[i].pc)
  {}

  lemma OwnMoveLoose(d: Overlap, step: Step)
    requires Loose(d) && CanMove(d, Take(step)) && ByReceiver(step)
    ensures WellFormed(Apply(d.v, step)) && OnlyReceiverMoved(d.v, Apply(d.v, step), step.i)
    ensures LooseReceiver(Apply(d.v, step), DoTake(d, step).high[step.i], Apply(d.v, step).mem.consumed[step.i],
                          Apply(d.v, step).receivers[step.i].pc)
  {
    ReceiverStepFrame(d.v, step);
    assert LooseReceiver(d.v, d.high[step.i], d.v.mem.consumed[step.i], d.v.receivers[step.i].pc);
    if step.Inspect? {
      InspectLoose(d.v, step.i, d.high[step.i]);
    } else {
      OwnStepLoose(d.v, step, d.high[step.i]);
    }
  }

  lemma ReceiverStepLoose(d: Overlap, step: Step)
    requires Loose(d) && CanMove(d, Take(step)) && ByReceiver(step)
    ensures Loose(DoTake(d, step))
  {
    OwnMoveLoose(d, step);
    ReceiverStepFrame(d.v, step);
    assert LooseReceiver(d.v, d.high[step.i], d.v.mem.consumed[step.i], d.v.receivers[step.i].pc);
    KeptStay(d, Apply(d.v, step), step.i);
    ReceiverMoves(d, DoTake(d, step), step.i);
  }

  lemma KeepLoose(d: Overlap, i: nat)
    requires Loose(d) && CanMove(d, Keep(i))
    ensures Loose(DoKeep(d, i))
  {
    assert LooseReceiver(d.v, d.high[i], d.v.mem.consumed[i], d.v.receivers[i].pc);
    var d' := DoKeep(d, i);
    KeptStay(d, d'.v, i);
    assert KeptOk(d'.v, LiveGuard(d.v, i));
    ReceiverMoves(d, d', i);
  }

  lemma DropKeptLoose(d: Overlap, k: nat)
    requires Loose(d) && CanMove(d, DropKept(k))
    ensures Loose(DoDropKept(d, k))
  {
    var g := d.kept[k];
    assert KeptOk(d.v, g) && LooseReceiver(d.v, d.high[g.i], d.v.mem.consumed[g.i], d.v.receivers[g.i].pc);
    var d' := DoDropKept(d, k);
    assert WellFormed(d'.v);
    KeptStay(d, d'.v, g.i);
    assert forall h :: h in d'.kept ==> h in d.kept;
    ReceiverMoves(d, d', g.i);
  }

  // ----- steps of agents -----

  lemma OtherLoose(v: State, v': State, high: seq<int>, a: nat, b: nat)
    requires WellFormed(v) && WellFormed(v') && Evolves(v, v') && OnlyAgentMoved(v, v', a) && |high| == |v.receivers|
    requires v'.receivers == v.receivers && b != a && b < |v.agents| && LooseAgent(v, high, b, v.agents[b])
    ensures LooseAgent(v', high, b, v'.agents[b])
  {
    if v.agents[b].pc.Gating? {
      assert forall j: nat :: j < |v.receivers| ==> (v'.Live(j) <==> v.Live(j));
    } else {
      OtherAgentStable(v, v', a, b);
    }
  }

  lemma AgentMoves(d: Overlap, v': State, a: nat)
    requires Loose(d) && Shared(v') && Evolves(d.v, v') && OnlyAgentMoved(d.v, v', a)
    requires v'.receivers == d.v.receivers && v'.mem.consumed == d.v.mem.consumed
    requires forall i: nat :: i < |d.v.receivers| && d.v.Live(i) ==> v'.Top() <= d.high[i] + d.v.size
    requires a < |d.v.agents| ==> LooseAgent(v', d.high, a, v'.agents[a])
    ensures Loose(d.(v := v'))
  {
    forall b: nat | b < |v'.agents|
      ensures LooseAgent(v', d.high, b, v'.agents[b])
    {
      if b < |d.v.agents| && b != a { OtherLoose(d.v, v', d.high, a, b); }
    }
    forall i: nat | i < |v'.receivers|
      ensures LooseReceiver(v', d.high[i], v'.mem.consumed[i], v'.receivers[i].pc)
      ensures |v'.receivers[i].stream| == |d.got[i]|
    {
      assert LooseReceiver(d.v, d.high[i], d.v.mem.consumed[i], d.v.receivers[i].pc);
      assert d.v.Live(i) <==> !d.v.receivers[i].pc.Dropped?;
    }
    forall g | g in d.kept
      ensures KeptOk(v', g)
    {
      assert KeptOk(d.v, g);
    }
  }

  /** A step that changes only the agent's program counter, and at most the wakers besides. */
  lemma AgentLocalLoose(d: Overlap, v': State, a: nat, g: Agent)
    requires Loose(d) && a < |d.v.agents|
    requires v' == d.v.(agents := d.v.agents[a := g], wakers := v'.wakers) && |v'.wakers| == |d.v.wakers|
    requires g.claim == d.v.agents[a].claim && AgentBounds(g, d.v.Top()) && LooseAgent(d.v, d.high, a, g)
    ensures Loose(d.(v := v'))
  {
    var v := d.v;
    assert WellFormed(v');
    assert forall i: nat :: i < |v.receivers| ==> (v'.Live(i) <==> v.Live(i));
    LocalEvolves(v, v');
    MemorySame(v, v');
    OwnersSame(v, v');
    if !g.pc.Gating? { LocalAgentStable(v, v', a, g); }
    TopWithinHigh(d);
    AgentMoves(d, v', a);
  }

  lemma TopWithinHigh(d: Overlap)
    requires Loose(d)
    ensures forall i: nat :: i < |d.v.receivers| && d.v.Live(i) ==> d.v.Top() <= d.high[i] + d.v.size
  {
    forall i: nat | i < |d.v.receivers| && d.v.Live(i)
      ensures d.v.Top() <= d.high[i] + d.v.size
    {
      assert LooseReceiver(d.v, d.high[i], d.v.mem.consumed[i], d.v.receivers[i].pc);
    }
  }

  lemma GateReads(d: Overlap, a: nat)
    requires Loose(d) && Enabled(d.v, ReadCursor(a))
    ensures LooseGate(d.v, d.high, DoReadCursor(d.v, a).agents[a].pc.gate)
  {
    assert LooseAgent(d.v, d.high, a, d.v.agents[a]);
    var j := d.v.agents[a].pc.gate.next;
    assert LooseReceiver(d.v, d.high[j], d.v.mem.consumed[j], d.v.receivers[j].pc);
    PrefixBelowTop(d.v);
    CursorRead(d.v, d.high, a);
  }

  lemma CursorRead(v: State, high: seq<int>, a: nat)
    requires |v.mem.consumed| == |v.receivers| == |high| && Enabled(v, ReadCursor(a)) && v.P() < SHUTDOWN_OPEN
    requires LooseGate(v, high, v.agents[a].pc.gate)
    requires var j := v.agents[a].pc.gate.next; LooseReceiver(v, high[j], v.mem.consumed[j], v.receivers[j].pc)
    ensures LooseGate(v, high, DoReadCursor(v, a).agents[a].pc.gate)
  {}

  lemma ClaimStepLoose(d: Overlap, step: Step)
    requires Loose(d) && Enabled(d.v, step) && (step.StartClaim? || step.ReadCursor? || step.Decide?)
    requires step.Decide? ==> !CasWins(d.v, d.v.agents[step.a].pc.gate)
    ensures Loose(d.(v := Apply(d.v, step)))
  {
    var a, v' := step.a, Apply(d.v, step);
    assert LooseAgent(d.v, d.high, a, d.v.agents[a]);
    if step.ReadCursor? { GateReads(d, a); }
    AgentLocalLoose(d, v', a, v'.agents[a]);
  }

  lemma ClaimBound(d: Overlap, a: nat)
    requires Loose(d) && Enabled(d.v, Decide(a)) && CasWins(d.v, d.v.agents[a].pc.gate)
    ensures var g := d.v.agents[a].pc.gate;
      && g.seen == d.v.Top() && 1 <= Wanted(d.v.size, g) <= d.v.size
      && d.v.Top() + Wanted(d.v.size, g) <= d.v.P() + d.v.size
      && forall i: nat :: i < |d.v.receivers| && d.v.Live(i) ==> d.v.Top() + Wanted(d.v.size, g) <= d.high[i] + d.v.size
  {
    assert LooseAgent(d.v, d.high, a, d.v.agents[a]);
  }

  lemma WonClaimLoose(d: Overlap, a: nat)
    requires Loose(d) && Enabled(d.v, Decide(a)) && CasWins(d.v, d.v.agents[a].pc.gate)
    ensures Loose(d.(v := DoDecide(d.v, a)))
  {
    assert LooseAgent(d.v, d.high, a, d.v.agents[a]);
    ClaimBound(d, a);
    ClaimEvolves(d.v, a);
    ClaimMemory(d.v, a);
    ClaimAgentOk(d.v, a);
    ClaimOwned(d.v, a);
    DecideKeepsStale(d.v, a);
    AgentMoves(d, DoDecide(d.v, a), a);
  }

  lemma CloneLoose(d: Overlap)
    requires Loose(d) && Enabled(d.v, Clone)
    ensures Loose(d.(v := Apply(d.v, Clone)))
  {
    var v, v' := d.v, Apply(d.v, Clone);
    assert WellFormed(v');
    forall s | 0 <= s <= v'.Top() && s !in v'.h.published && s !in v'.h.abandoned
      ensures Holds(v', v'.h.owner[s], s)
    {
      assert Holds(v, v.h.owner[s], s);
    }
    MemorySame(v, v');
    TopWithinHigh(d);
    AgentMoves(d, v', |v.agents|);
  }

  lemma WriteLoose(d: Overlap, a: nat, x: Item)
    requires Loose(d) && Enabled(d.v, Write(a, x))
    ensures Loose(d.(v := DoWrite(d.v, a, x)))
  {
    assert LooseAgent(d.v, d.high, a, d.v.agents[a]);
    WriteEvolves(d.v, a, x);
    WriteMemory(d.v, a, x);
    WriteOwned(d.v, a, x);
    WriteStepKeepsStale(d.v, a, x);
    TopWithinHigh(d);
    AgentMoves(d, DoWrite(d.v, a, x), a);
  }

  lemma StoreFlagLoose(d: Overlap, a: nat)
    requires Loose(d) && Enabled(d.v, StoreFlag(a))
    ensures Loose(d.(v := DoStoreFlag(d.v, a)))
  {
    assert LooseAgent(d.v, d.high, a, d.v.agents[a]);
    StoreFlagEvolves(d.v, a);
    StoreFlagAgent(d.v, a);
    StoreFlagMemory(d.v, a);
    StoreFlagOwned(d.v, a);
    OtherwiseSameLog(d.v, StoreFlag(a));
    TopWithinHigh(d);
    AgentMoves(d, DoStoreFlag(d.v, a), a);
  }

  lemma CloseLoadLoose(d: Overlap, a: nat, after: After)
    requires Loose(d) && Enabled(d.v, CloseLoad(a, after))
    ensures Loose(d.(v := DoCloseLoad(d.v, a, after)))
  {
    assert LooseAgent(d.v, d.high, a, d.v.agents[a]);
    CloseLoadEvolves(d.v, a, after);
    CloseLoadOwned(d.v, a, after);
    OtherwiseSameLog(d.v, CloseLoad(a, after));
    TopWithinHigh(d);
    AgentMoves(d, DoCloseLoad(d.v, a, after), a);
  }

  lemma CloseMarkLoose(d: Overlap, a: nat)
    requires Loose(d) && Enabled(d.v, CloseMark(a))
    ensures Loose(d.(v := DoCloseMark(d.v, a)))
  {
    assert LooseAgent(d.v, d.high, a, d.v.agents[a]);
    CloseMarkMemory(d.v, a);
    CloseMarkEvolves(d.v, a);
    OtherwiseSameLog(d.v, CloseMark(a));
    TopWithinHigh(d);
    AgentMoves(d, DoCloseMark(d.v, a), a);
  }

  lemma CloseStoreLoose(d: Overlap, a: nat)
    requires Loose(d) && Enabled(d.v, CloseStore(a))
    ensures Loose(d.(v := DoCloseStore(d.v, a)))
  {
    assert LooseAgent(d.v, d.high, a, d.v.agents[a]);
    CloseStoreMemory(d.v, a);
    CloseStoreEvolves(d.v, a);
    OtherwiseSameLog(d.v, CloseStore(a));
    TopWithinHigh(d);
    AgentMoves(d, DoCloseStore(d.v, a), a);
  }

  lemma QuietAgent(v: State, step: Step)
    requires WellFormed(v) && Enabled(v, step) && (step.CloseInspect? || step.Wake? || step.Return?)
    requires AgentOk(v, step.a, v.agents[step.a])
    ensures var v' := Apply(v, step);
      && step.a < |v'.agents| && |v'.wakers| == |v.wakers|
      && v' == v.(agents := v.agents[step.a := v'.agents[step.a]], wakers := v'.wakers)
      && v'.agents[step.a].claim == v.agents[step.a].claim && !v'.agents[step.a].pc.Gating?
      && AgentBounds(v'.agents[step.a], v.Top()) && AgentOk(v, step.a, v'.agents[step.a])
  {
    if step.CloseInspect? { CloseInspectAgent(v, step.a); }
  }

  lemma QuietLoose(d: Overlap, step: Step)
    requires Loose(d) && Enabled(d.v, step) && (step.CloseInspect? || step.Wake? || step.Return?)
    ensures Loose(d.(v := Apply(d.v, step)))
  {
    assert LooseAgent(d.v, d.high, step.a, d.v.agents[step.a]);
    QuietAgent(d.v, step);
    AgentLocalLoose(d, Apply(d.v, step), step.a, Apply(d.v, step).agents[step.a]);
  }

  lemma AgentStepLoose(d: Overlap, step: Step)
    requires Loose(d) && Enabled(d.v, step) && !ByReceiver(step)
    ensures Loose(d.(v := Apply(d.v, step)))
  {
    match step
    case Clone => CloneLoose(d);
    case StartClaim(_, _) => ClaimStepLoose(d, step);
    case ReadCursor(_) => ClaimStepLoose(d, step);
    case Decide(a) => if CasWins(d.v, d.v.agents[a].pc.gate) { WonClaimLoose(d, a); } else { ClaimStepLoose(d, step); }
    case Write(a, x) => WriteLoose(d, a, x);
    case StoreFlag(a) => StoreFlagLoose(d, a);
    case CloseLoad(a, after) => CloseLoadLoose(d, a, after);
    case CloseMark(a) => CloseMarkLoose(d, a);
    case CloseStore(a) => CloseStoreLoose(d, a);
    case _ => QuietLoose(d, step);
  }

  /** Every move, in whatever order guards are dropped, keeps what the claims and the slots depend on. */
  lemma MoveLoose(d: Overlap, move: Move)
    requires Loose(d) && CanMove(d, move)
    ensures Loose(DoMove(d, move))
  {
    match move
    case Take(step) => if ByReceiver(step) { ReceiverStepLoose(d, step); } else { AgentStepLoose(d, step); }
    case Keep(i) => KeepLoose(d, i);
    case DropKept(k) => DropKeptLoose(d, k);
  }

  lemma MovesLoose(d: Overlap, e: Overlap)
    requires Loose(d) && MovesLead(d, e)
    ensures Loose(e)
  {
    var S := iset o: Overlap | Loose(o);
    forall o: Overlap, move: Move | o in S && CanMove(o, move)
      ensures DoMove(o, move) in S
    {
      MoveLoose(o, move);
    }
    assert ClosedUnderMoves(S);
  }

  lemma PossibleLoose(d: Overlap)
    requires Possible(d)
    ensures Loose(d)
  {
    var size: int, slots: seq<Item>, m: nat, n: nat :|
      ValidSize(size) && |slots| == size && MovesLead(Start(size, slots, m, n), d);
    StartLoose(size, slots, m, n);
    MovesLoose(Start(size, slots, m, n), d);
  }

  lemma PossibleOn(d: Overlap, move: Move)
    requires Possible(d) && CanMove(d, move)
    ensures Possible(DoMove(d, move))
  {
    PossibleLoose(d);
    MoveLoose(d, move);
    var size: int, slots: seq<Item>, m: nat, n: nat :|
      ValidSize(size) && |slots| == size && MovesLead(Start(size, slots, m, n), d);
    MoveLeads(Start(size, slots, m, n), d, move);
  }

  /** What moves lead to from a possible state is possible. */
  lemma PossibleLeads(d: Overlap, e: Overlap)
    requires Possible(d) && MovesLead(d, e)
    ensures Possible(e)
  {
    PossibleLoose(d);
    MovesLoose(d, e);
    var size: int, slots: seq<Item>, m: nat, n: nat :|
      ValidSize(size) && |slots| == size && MovesLead(Start(size, slots, m, n), d);
    MovesTrans(Start(size, slots, m, n), d, e);
  }

  /** The protocol state `v` arises without a guard kept aside. */
  ghost predicate Arises(d: Overlap, v: State) {
    exists high: seq<int>, got: seq<seq<int>> ::
      |high| == |got| == |v.receivers| && MovesLead(d, Overlap(v, [], high, got))
  }

  lemma ArisesOn(d: Overlap, v: State, step: Step)
    requires Arises(d, v) && WellFormed(v) && Enabled(v, step)
    ensures Arises(d, Apply(v, step))
  {
    var high: seq<int>, got: seq<seq<int>> :|
      |high| == |got| == |v.receivers| && MovesLead(d, Overlap(v, [], high, got));
    var e := Overlap(v, [], high, got);
    MoveLeads(d, e, Take(step));
    if ByReceiver(step) { ReceiverFrame(v, step); } else { AgentFrame(v, step); }
    var e' := DoTake(e, step);
    assert e' == Overlap(Apply(v, step), [], e'.high, e'.got);
  }

  /** Every reachable state of the protocol is possible, with no guard kept aside. */
  lemma ReachableIsPossible(v: State)
    requires Reachable(v)
    ensures exists high: seq<int>, got: seq<seq<int>> :: Possible(Overlap(v, [], high, got))
  {
    var size: int, slots: seq<Item>, m: nat, n: nat :|
      ValidSize(size) && |slots| == size && Leads(Nobody, Initial(size, slots, m, n), v);
    var d := Start(size, slots, m, n);
    var S := iset w: State | Arises(d, w);
    assert MovesLead(d, Overlap(d.v, [], d.high, d.got));
    forall w: State, step: Step | w in S && WellFormed(w) && Enabled(w, step)
      ensures Apply(w, step) in S
    {
      ArisesOn(d, w, step);
    }
    assert ClosedUnder(S, Nobody);
    var high: seq<int>, got: seq<seq<int>> :|
      |high| == |got| == |v.receivers| && MovesLead(d, Overlap(v, [], high, got));
    assert Possible(Overlap(v, [], high, got));
  }
}
