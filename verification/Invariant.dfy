/** The inductive invariant of the protocol. */
module Invariant {
  import opened Bits
  import opened RingMath
  import opened Machine

  // ----- shared memory against the history -----

  /** `claimed` is the highest claimed sequence until a close stores; then it stays negative and not -1. */
  ghost predicate ClaimedOk(v: State) {
    && v.Top() + v.size < I64_MAX
    && if HasShutdown(v.mem.claimed) then 0 <= LastClaimed(v.mem.claimed) <= v.Top()
       else v.mem.claimed == v.Top()
  }

  /** Unpublished claims reach at most one lap beyond the published prefix. */
  ghost predicate PublishedOk(v: State) {
    && (forall s :: s in v.h.published ==> 0 <= s <= v.Top())
    && (forall s :: s in v.h.abandoned ==> 0 <= s <= v.Top() && s !in v.h.published)
    && v.Top() <= v.P() + v.size
  }

  /** In the lap after the published prefix, each slot word holds the flag of the last publication there. */
  ghost predicate FlagsMatch(size: int, words: seq<int>, published: set<int>)
    requires size > 0 && |words| == size
  {
    forall s :: PublishedEnd(published) < s <= PublishedEnd(published) + size ==>
      Lap(words[Index(s, size)]) == Flag(if s in published then s else s - size, size)
  }

  ghost predicate FlagsOk(v: State)
    requires v.size > 0 && |v.mem.words| == v.size
  {
    FlagsMatch(v.size, v.mem.words, v.h.published)
  }

  /** The slots of the last lap of claims hold what their claimers wrote last. */
  ghost predicate SlotsMatch(size: int, slots: seq<Item>, log: seq<Item>)
    requires size > 0 && |slots| == size
  {
    forall s :: 0 <= s && |log| - 1 - size < s < |log| ==> slots[Index(s, size)] == log[s]
  }

  ghost predicate DataOk(v: State)
    requires v.size > 0 && |v.mem.slots| == v.size
  {
    SlotsMatch(v.size, v.mem.slots, v.h.log)
  }

  // ----- senders -----

  ghost predicate Holds(v: State, a: nat, s: int) {
    a < |v.agents| && v.agents[a].claim.Claim? && v.agents[a].claim.stored <= s <= v.agents[a].claim.end
  }

  /** Every claimed sequence is published, given up, or still held by its claimer. */
  ghost predicate OwnersOk(v: State)
    requires |v.h.owner| == |v.h.log|
  {
    forall s :: 0 <= s <= v.Top() && s !in v.h.published && s !in v.h.abandoned ==> Holds(v, v.h.owner[s], s)
  }

  /** What a claim range owns: its stored part is published, the rest is nobody else's. */
  ghost predicate ClaimOk(v: State, a: nat, c: Claim)
    requires |v.h.owner| == |v.h.log|
  {
    c.Claim? ==>
      && 0 <= c.start <= c.stored <= c.end <= v.Top()
      && c.start <= c.written <= c.end + 1
      && (c.stored > c.start ==> c.written == c.end + 1)
      && (forall s :: c.start <= s < c.stored ==> s in v.h.published)
      && (forall s :: c.stored <= s <= c.end ==>
            s !in v.h.published && s !in v.h.abandoned && v.h.owner[s] == a)
  }

  ghost predicate TrailOk(v: State, g: Gate)
    requires |v.mem.consumed| == |v.receivers|
  {
    var t := g.trail;
    && t.winsAtStart + t.fails <= t.winsAtLoad <= v.h.wins
    && (t.winsAtLoad == v.h.wins ==> v.mem.claimed == g.seen)
    && -1 <= t.firstSeen && t.fails <= g.seen - t.firstSeen
    && t.movesAtStart <= v.h.moves
    && (t.movesAtStart == v.h.moves ==>
          && (forall j: nat :: j < |v.receivers| && v.Live(j) ==> v.mem.consumed[j] <= t.firstSeen)
          && (t.fails > 0 || g.min != SHUTDOWN_OPEN ==> exists j: nat :: j < |v.receivers| && v.Live(j)))
  }

  /** A partially read gate: `min` bounds the cursors read so far, however stale, and is consumed data. */
  ghost predicate GateOk(v: State, g: Gate)
    requires |v.mem.consumed| == |v.receivers|
  {
    && 1 <= g.n <= v.size
    && -1 <= g.seen <= v.Top()
    && g.next <= |v.receivers|
    && (g.min == SHUTDOWN_OPEN || (-1 <= g.min <= v.P() && g.seen - v.size <= g.min))
    && (forall j: nat :: j < g.next && v.Live(j) ==> g.min <= v.mem.consumed[j])
    && (g.min == g.seen - v.size ==> g.trail.sawFull)
    && TrailOk(v, g)
  }

  /** A `claimed` value some close has loaded. */
  ghost predicate RawOk(v: State, raw: int, after: After) {
    if raw == -1 then after.ToGone? && v.dropping && v.Top() == -1
    else 0 <= LastClaimed(raw) <= v.Top()
  }

  ghost predicate AgentOk(v: State, a: nat, g: Agent)
    requires |v.mem.consumed| == |v.receivers| && |v.h.owner| == |v.h.log|
  {
    && ClaimOk(v, a, g.claim)
    && match g.pc
       case Idle(_) => g.claim.NoClaim?
       case Gating(gate) => g.claim.NoClaim? && GateOk(v, gate) && !v.dropping
       case Holding => g.claim.Claim? && !v.dropping
       case CloseScanning(raw, at, after) =>
         ClosingOk(v, g.claim, after) && RawOk(v, raw, after) && 0 <= at <= LastClaimed(raw)
       case CloseMarking(raw, at, after) =>
         ClosingOk(v, g.claim, after) && RawOk(v, raw, after) && 0 <= at <= LastClaimed(raw) + 1
       case CloseStoring(raw, after) => ClosingOk(v, g.claim, after) && RawOk(v, raw, after)
       case Notifying(_, after) => ClosingOk(v, g.claim, after) && 0 <= g.pc.next <= |v.wakers|
       case Gone => g.claim.NoClaim? && v.dropping
  }

  ghost predicate ClosingOk(v: State, c: Claim, after: After) {
    match after
    case ToSent => c.NoClaim? && !v.dropping
    case ToPoisoned => c.NoClaim? && !v.dropping
    case ToHolding => c.Claim? && c.stored == c.start && !v.dropping
    case ToGone => c.NoClaim? && v.dropping
  }

  // ----- receivers -----

  /** A live receiver is within one lap of the highest claim and has received exactly the log prefix. */
  ghost predicate ReceiverOk(v: State, c: int, r: Receiver) {
    if r.pc.Dropped? then
      c == SHUTDOWN_OPEN && |r.stream| <= v.P() + 1 <= |v.h.log| && r.stream == v.h.log[..|r.stream|]
    else
      && -1 <= c <= v.P() && v.Top() <= c + v.size
      && c < |v.h.log| && r.stream == v.h.log[..c + 1]
      && match r.pc
         case Scanning(start, stop, next, shut, mode) =>
           && start == c + 1 && start <= next <= stop <= c + v.size
           && (forall s :: start <= s < next ==> s in v.h.published)
           && (next == start ==> !shut)
         case Registering(n) => 1 <= n <= v.size
         case Reading(start, end, got) =>
           && start == c + 1 && start <= end <= v.P() < |v.h.log| && |got| <= end - start + 1
           && got == v.h.log[start..start + |got|]
         case _ => true
  }

  /** The invariant of data safety. */
  ghost predicate Core(v: State) {
    && WellFormed(v)
    && ClaimedOk(v) && PublishedOk(v) && FlagsOk(v) && DataOk(v) && OwnersOk(v)
    && (forall a: nat :: a < |v.agents| ==> AgentOk(v, a, v.agents[a]))
    && (forall i: nat :: i < |v.receivers| ==> ReceiverOk(v, v.mem.consumed[i], v.receivers[i]))
  }

  /** What no step takes back: the history only grows, and published entries of the log are final. */
  ghost predicate Evolves(v: State, v': State)
    requires WellFormed(v) && WellFormed(v')
  {
    && v'.size == v.size && |v'.receivers| == |v.receivers| && |v'.agents| >= |v.agents|
    && v'.Top() >= v.Top() && v'.P() >= v.P()
    && v.h.published <= v'.h.published && v.h.abandoned <= v'.h.abandoned
    && (forall s :: s in v.h.published && 0 <= s <= v.Top() ==> v'.h.log[s] == v.h.log[s])
    && (forall i: nat :: i < |v.receivers| && v'.Live(i) ==>
          v.Live(i) && v.mem.consumed[i] <= v'.mem.consumed[i])
    && v.h.wins <= v'.h.wins && (v.h.wins == v'.h.wins ==> v.mem.claimed == v'.mem.claimed)
    && v.h.moves <= v'.h.moves
    && (v.h.moves == v'.h.moves ==>
          && v.mem.consumed == v'.mem.consumed
          && (forall i: nat :: i < |v.receivers| && v.Live(i) ==> v'.Live(i)))
    && (v.dropping ==> v'.dropping && v'.Top() == v.Top())
  }

  lemma EndMonotone(a: set<int>, b: set<int>)
    requires a <= b
    ensures PublishedEnd(a) <= PublishedEnd(b)
  {
    var p, q := PublishedEnd(a), PublishedEnd(b);
    assert 0 <= q + 1 <= p ==> q + 1 in a;
  }

  lemma PrefixBelowTop(v: State)
    requires PublishedOk(v)
    ensures v.P() <= v.Top()
  {
    if v.P() >= 0 { assert v.P() in v.h.published; }
  }

  // ----- parties that did not move keep their part of the invariant -----

  lemma GateStable(v: State, v': State, g: Gate)
    requires WellFormed(v) && WellFormed(v') && Evolves(v, v')
    requires GateOk(v, g)
    ensures GateOk(v', g)
  {
    if v'.h.moves == v.h.moves == g.trail.movesAtStart && (g.trail.fails > 0 || g.min != SHUTDOWN_OPEN) {
      var j: nat :| j < |v.receivers| && v.Live(j);
      assert v'.Live(j);
    }
  }

  lemma ReceiverStable(v: State, v': State, c: int, r: Receiver)
    requires WellFormed(v) && WellFormed(v') && Evolves(v, v') && PublishedOk(v) && PublishedOk(v')
    requires ReceiverOk(v, c, r) && (!r.pc.Dropped? ==> v'.Top() <= c + v.size)
    ensures ReceiverOk(v', c, r)
  {
    PrefixBelowTop(v);
    PrefixBelowTop(v');
    assert forall s :: 0 <= s <= v.P() ==> v'.h.log[s] == v.h.log[s];
    if r.pc.Reading? {
      assert v.h.log[r.pc.start..r.pc.start + |r.pc.got|] == v'.h.log[r.pc.start..r.pc.start + |r.pc.got|];
    }
    if r.pc.Dropped? {
      assert v'.h.log[..|r.stream|] == v.h.log[..|r.stream|];
    } else {
      assert v'.h.log[..c + 1] == v.h.log[..c + 1];
    }
  }

  /** Newly published or given-up sequences belong to agent `a`, and the other agents did not move. */
  ghost predicate OnlyAgentMoved(v: State, v': State, a: nat)
    requires WellFormed(v) && WellFormed(v')
  {
    && |v'.agents| >= |v.agents| && |v'.h.owner| >= |v.h.owner|
    && v'.h.owner[..|v.h.owner|] == v.h.owner
    && (forall s :: s in v'.h.published && s !in v.h.published ==> 0 <= s <= v.Top() && v.h.owner[s] == a)
    && (forall s :: s in v'.h.abandoned && s !in v.h.abandoned ==> 0 <= s <= v.Top() && v.h.owner[s] == a)
    && (forall b: nat :: b < |v.agents| && b != a ==> v'.agents[b] == v.agents[b])
    && (forall b: nat :: |v.agents| <= b < |v'.agents| ==> v'.agents[b] == Agent(Idle(NotCalled), NoClaim))
    && (v'.dropping == v.dropping || forall b: nat :: b < |v.agents| ==> v.agents[b].pc.Idle?)
  }

  lemma OtherAgentStable(v: State, v': State, a: nat, b: nat)
    requires WellFormed(v) && WellFormed(v') && Evolves(v, v') && OnlyAgentMoved(v, v', a)
    requires b != a && b < |v.agents| && AgentOk(v, b, v.agents[b])
    ensures AgentOk(v', b, v'.agents[b])
  {
    var g := v.agents[b];
    assert ClaimOk(v', b, g.claim) by {
      if g.claim.Claim? {
        forall s | g.claim.stored <= s <= g.claim.end
          ensures s !in v'.h.published && s !in v'.h.abandoned && v'.h.owner[s] == b
        {
          assert v'.h.owner[s] == v'.h.owner[..|v.h.owner|][s] == b;
        }
      }
    }
    if g.pc.Gating? { GateStable(v, v', g.pc.gate); }
  }

  lemma OwnersStable(v: State, v': State, a: nat)
    requires WellFormed(v) && WellFormed(v') && Evolves(v, v') && OnlyAgentMoved(v, v', a)
    requires OwnersOk(v)
    requires forall s | 0 <= s <= v'.Top() && s !in v'.h.published && s !in v'.h.abandoned ::
               (s > v.Top() || v.h.owner[s] == a) ==> v'.h.owner[s] == a && Holds(v', a, s)
    ensures OwnersOk(v')
  {
    forall s | 0 <= s <= v'.Top() && s !in v'.h.published && s !in v'.h.abandoned
      ensures Holds(v', v'.h.owner[s], s)
    {
      if s <= v.Top() && v.h.owner[s] != a {
        assert v'.h.owner[s] == v'.h.owner[..|v.h.owner|][s] == v.h.owner[s];
        assert Holds(v, v.h.owner[s], s);
      }
    }
  }

  /** An agent's step keeps the invariant once the memory and the agent's own part are established. */
  lemma AgentStepKeeps(v: State, v': State, a: nat)
    requires Core(v) && WellFormed(v') && Evolves(v, v') && OnlyAgentMoved(v, v', a)
    requires v'.receivers == v.receivers && v'.mem.consumed == v.mem.consumed
    requires forall i: nat :: i < |v.receivers| && v.Live(i) ==> v'.Top() <= v.mem.consumed[i] + v.size
    requires ClaimedOk(v') && PublishedOk(v') && FlagsOk(v') && DataOk(v') && OwnersOk(v')
    requires a < |v.agents| ==> AgentOk(v', a, v'.agents[a])
    ensures Core(v')
  {
    forall b: nat | b < |v'.agents|
      ensures AgentOk(v', b, v'.agents[b])
    {
      if b < |v.agents| && b != a { OtherAgentStable(v, v', a, b); }
    }
    forall i: nat | i < |v'.receivers|
      ensures ReceiverOk(v', v'.mem.consumed[i], v'.receivers[i])
    {
      assert !v.receivers[i].pc.Dropped? ==> v.Live(i);
      ReceiverStable(v, v', v.mem.consumed[i], v.receivers[i]);
    }
  }

  lemma MemorySame(v: State, v': State)
    requires WellFormed(v) && WellFormed(v') && v'.size == v.size
    requires v'.mem == v.mem.(consumed := v'.mem.consumed) && v'.h == v.h.(moves := v'.h.moves)
    requires ClaimedOk(v) && PublishedOk(v) && FlagsOk(v) && DataOk(v)
    ensures ClaimedOk(v') && PublishedOk(v') && FlagsOk(v') && DataOk(v')
  {}

  lemma LocalEvolves(v: State, v': State)
    requires WellFormed(v) && WellFormed(v') && v'.size == v.size && |v'.agents| == |v.agents|
    requires v'.mem == v.mem && v'.h == v.h && v'.dropping == v.dropping && |v'.receivers| == |v.receivers|
    requires forall i: nat :: i < |v.receivers| ==> (v'.Live(i) <==> v.Live(i))
    ensures Evolves(v, v')
  {}

  /** With the same history and claims, no sequence changes hands. */
  lemma OwnersSame(v: State, v': State)
    requires WellFormed(v) && WellFormed(v') && OwnersOk(v)
    requires v'.h == v.h.(moves := v'.h.moves) && |v'.agents| == |v.agents|
    requires forall b: nat :: b < |v.agents| ==> v'.agents[b].claim == v.agents[b].claim
    ensures OwnersOk(v')
  {
    forall s | 0 <= s <= v'.Top() && s !in v'.h.published && s !in v'.h.abandoned
      ensures Holds(v', v'.h.owner[s], s)
    {
      assert Holds(v, v.h.owner[s], s);
    }
  }

  lemma LocalAgentStable(v: State, v': State, a: nat, g: Agent)
    requires WellFormed(v) && WellFormed(v') && v'.mem == v.mem && v'.h == v.h && v'.size == v.size
    requires v'.receivers == v.receivers && v'.dropping == v.dropping && |v'.wakers| == |v.wakers|
    requires AgentOk(v, a, g)
    ensures AgentOk(v', a, g)
  {
    if g.pc.Gating? && TrailOk(v, g.pc.gate) {
      var t := g.pc.gate.trail;
      if t.movesAtStart == v.h.moves && (t.fails > 0 || g.pc.gate.min != SHUTDOWN_OPEN) {
        var j: nat :| j < |v.receivers| && v.Live(j);
        assert v'.Live(j);
      }
    }
  }

  /** A step that changes only an agent's program counter, and at most the wakers besides. */
  lemma AgentLocal(v: State, v': State, a: nat, g: Agent)
    requires Core(v) && a < |v.agents|
    requires v' == v.(agents := v.agents[a := g], wakers := v'.wakers) && |v'.wakers| == |v.wakers|
    requires g.claim == v.agents[a].claim && AgentBounds(g, v.Top()) && AgentOk(v, a, g)
    ensures Core(v') && Evolves(v, v')
  {
    assert WellFormed(v');
    assert forall i: nat :: i < |v.receivers| ==> (v'.Live(i) <==> v.Live(i));
    LocalEvolves(v, v');
    MemorySame(v, v');
    OwnersSame(v, v');
    LocalAgentStable(v, v', a, g);
    AgentStepKeeps(v, v', a);
  }

  /** A receiver's step keeps the invariant once its own part is established: it writes only its cursor. */
  lemma ReceiverStepKeeps(v: State, v': State, i: nat)
    requires Core(v) && WellFormed(v') && Evolves(v, v') && i < |v.receivers|
    requires v'.agents == v.agents && v'.mem == v.mem.(consumed := v'.mem.consumed)
    requires v'.h == v.h.(moves := v'.h.moves) && v'.dropping == v.dropping && |v'.wakers| == |v.wakers|
    requires forall j: nat :: j < |v.receivers| && j != i ==>
               v'.receivers[j] == v.receivers[j] && v'.mem.consumed[j] == v.mem.consumed[j]
    requires ReceiverOk(v', v'.mem.consumed[i], v'.receivers[i])
    ensures Core(v')
  {
    MemorySame(v, v');
    OwnersSame(v, v');
    forall b: nat | b < |v'.agents|
      ensures AgentOk(v', b, v'.agents[b])
    {
      OtherAgentStable(v, v', |v.agents|, b);
    }
    forall j: nat | j < |v'.receivers|
      ensures ReceiverOk(v', v'.mem.consumed[j], v'.receivers[j])
    {
      if j != i { ReceiverStable(v, v', v.mem.consumed[j], v.receivers[j]); }
    }
  }

  /** A step that changes one receiver's program counter, and at most the wakers besides. */
  lemma ReceiverLocal(v: State, v': State, i: nat, pc: RecvPc)
    requires Core(v) && i < |v.receivers|
    requires v' == WithReceiver(v, i, pc).(wakers := v'.wakers) && |v'.wakers| == |v.wakers|
    requires v.Live(i) && !pc.Dropped? && ReceiverBounds(pc)
    requires ReceiverOk(v, v.mem.consumed[i], v.receivers[i].(pc := pc))
    ensures Core(v') && Evolves(v, v')
  {
    LocalEvolves(v, v');
    ReceiverStepKeeps(v, v', i);
  }
}
