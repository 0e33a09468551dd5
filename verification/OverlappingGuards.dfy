/** Why a receiver may have only one live read guard: what holds, and what exactly is lost, when guards overlap. */
module OverlappingGuards {
  import opened Bits
  import opened RingMath
  import opened Machine
  import opened Invariant
  import opened Preservation
  import opened Runs
  import opened OverlapMachine
  import opened OverlapInvariant

  // ----- senders among themselves -----

  ghost predicate ClaimsSound(v: State) {
    && WellFormed(v) && PublishedOk(v) && OwnersOk(v)
    && forall a: nat :: a < |v.agents| ==> ClaimOk(v, a, v.agents[a].claim)
  }

  lemma ReachableSound(v: State)
    requires Reachable(v)
    ensures ClaimsSound(v)
  {
    ReachableInv(v);
    forall a: nat | a < |v.agents|
      ensures ClaimOk(v, a, v.agents[a].claim)
    {
      assert AgentOk(v, a, v.agents[a]);
    }
  }

  lemma PossibleSound(d: Overlap)
    requires Possible(d)
    ensures ClaimsSound(d.v)
  {
    PossibleLoose(d);
    forall a: nat | a < |d.v.agents|
      ensures ClaimOk(d.v, a, d.v.agents[a].claim)
    {
      assert LooseAgent(d.v, d.high, a, d.v.agents[a]);
    }
  }

  /** However guards overlap, two write claims never cover the same slot. */
  lemma WritersStayExclusive(d: Overlap, a: nat, b: nat, s: int, t: int)
    requires Possible(d) && Holds(d.v, a, s) && Holds(d.v, b, t) && (a != b || s != t)
    ensures s != t && Index(s, d.v.size) != Index(t, d.v.size)
  {
    PossibleSound(d);
    assert ClaimOk(d.v, a, d.v.agents[a].claim) && ClaimOk(d.v, b, d.v.agents[b].claim);
    HeldBeyondPrefix(d.v, a);
    HeldBeyondPrefix(d.v, b);
    assert d.v.h.owner[s] == a && d.v.h.owner[t] == b;
    if Index(s, d.v.size) == Index(t, d.v.size) { WindowInjective(s, t, d.v.size); }
  }

  /** Claims stay within a lap of the published prefix, and of the highest value a live cursor ever had. */
  lemma HighWater(d: Overlap, i: nat)
    requires Possible(d) && i < |d.v.receivers| && d.v.Live(i)
    ensures -1 <= d.v.mem.consumed[i] <= d.high[i] <= d.v.P() <= d.v.Top() <= d.high[i] + d.v.size
  {
    PossibleLoose(d);
    PrefixBelowTop(d.v);
    assert LooseReceiver(d.v, d.high[i], d.v.mem.consumed[i], d.v.receivers[i].pc);
  }

  // ----- senders and outstanding guards -----

  /** Some sender may write the slot of `s`. */
  ghost predicate WriterOn(v: State, s: int) {
    v.size > 0 && exists a: nat, t: int :: Holds(v, a, t) && Index(t, v.size) == Index(s, v.size)
  }

  /** `t` is the sequence of the slot of `s` in the lap after the published prefix. */
  ghost predicate NextInSlot(v: State, s: int, t: int) {
    v.size > 0 && v.P() < t <= v.P() + v.size && Index(t, v.size) == Index(s, v.size)
  }

  lemma WriterIff(v: State, s: int, t: int)
    requires ClaimsSound(v) && NextInSlot(v, s, t)
    ensures WriterOn(v, s) <==> t <= v.Top() && t !in v.h.published && t !in v.h.abandoned
  {
    PrefixBelowTop(v);
    if t <= v.Top() && t !in v.h.published && t !in v.h.abandoned {
      assert Holds(v, v.h.owner[t], t);
    }
    forall a: nat, u: int | Holds(v, a, u) && Index(u, v.size) == Index(s, v.size)
      ensures u == t && t <= v.Top() && t !in v.h.published && t !in v.h.abandoned
    {
      assert ClaimOk(v, a, v.agents[a].claim);
      HeldBeyondPrefix(v, a);
      WindowInjective(u, t, v.size);
    }
  }

  /** Within the protocol: the slot of a sequence of the last published lap may be written by some sender if and only
      if the sequence one lap later is claimed and neither published nor given up. */
  lemma SlotWriterIff(v: State, s: int)
    requires Reachable(v) && 0 <= s && v.P() - v.size < s <= v.P()
    ensures WriterOn(v, s) <==>
              s + v.size <= v.Top() && s + v.size !in v.h.published && s + v.size !in v.h.abandoned
  {
    ReachableSound(v);
    LapBefore(s + v.size, v.size);
    WriterIff(v, s, s + v.size);
  }

  /** Guard `g`, kept aside or live, covers `s`. */
  ghost predicate Covers(d: Overlap, g: Kept, s: int) { Out(d, g) && g.start <= s <= g.end }

  lemma CoveredFacts(d: Overlap, g: Kept, s: int)
    requires Possible(d) && Covers(d, g, s)
    ensures g.i < |d.v.receivers| && d.v.Live(g.i) && 0 <= s <= d.v.P() && 0 <= g.start <= g.end <= d.v.P()
  {
    PossibleLoose(d);
    if g in d.kept {
      assert KeptOk(d.v, g);
    } else {
      assert LooseReceiver(d.v, d.high[g.i], d.v.mem.consumed[g.i], d.v.receivers[g.i].pc);
    }
  }

  /** After any order of claims and drops, a slot may be written by a sender exactly when its next lap is claimed and
      neither published nor given up.  This is so for a slot under a guard, kept or live, too. */
  lemma SlotSharedIff(d: Overlap, s: int, t: int)
    requires Possible(d) && NextInSlot(d.v, s, t)
    ensures WriterOn(d.v, s) <==> t <= d.v.Top() && t !in d.v.h.published && t !in d.v.h.abandoned
  {
    PossibleSound(d);
    WriterIff(d.v, s, t);
  }

  lemma NoWriterAboveHigh(v: State, hi: int, s: int)
    requires ClaimsSound(v) && v.Top() <= hi + v.size && hi < s <= v.P()
    ensures !WriterOn(v, s)
  {
    forall a: nat, u: int | Holds(v, a, u)
      ensures Index(u, v.size) != Index(s, v.size)
    {
      assert ClaimOk(v, a, v.agents[a].claim);
      HeldBeyondPrefix(v, a);
      if Index(u, v.size) == Index(s, v.size) { WindowInjective(u, s, v.size); }
    }
  }

  /** It may not as long as no value the cursor of the guard's receiver ever had has reached it. */
  lemma GuardSafeAboveHighWater(d: Overlap, g: Kept, s: int)
    requires Possible(d) && Covers(d, g, s) && g.i < |d.high| && d.high[g.i] < s
    ensures !WriterOn(d.v, s)
  {
    CoveredFacts(d, g, s);
    HighWater(d, g.i);
    PossibleSound(d);
    NoWriterAboveHigh(d.v, d.high[g.i], s);
  }

  lemma SlotInLap(s: int, t: int, size: int)
    requires size > 0 && Index(s, size) == Index(t, size) && s < t
    ensures s <= t - size
  {
    if t - size < s { WindowInjective(s, t, size); }
  }

  lemma LastWritten(v: State, s: int, t: int)
    requires Shared(v) && NextInSlot(v, s, t) && 0 <= s <= v.P()
    ensures s <= t - v.size <= v.P() < |v.h.log| == |v.h.writes| && |v.mem.slots| == v.size
    ensures v.mem.slots[Index(s, v.size)] ==
      v.h.log[if t <= v.Top() && v.h.writes[t] >= 1 then t else t - v.size]
  {
    PrefixBelowTop(v);
    LapBefore(t, v.size);
    SlotInLap(s, t, v.size);
  }

  lemma NextIsOneLapOn(v: State, s: int, t: int)
    requires NextInSlot(v, s, t) && 0 <= s <= v.P()
    ensures s > v.P() - v.size <==> t - v.size == s
  {
    LapBefore(t, v.size);
    if s > v.P() - v.size { WindowInjective(s, t - v.size, v.size); }
  }

  /** What a guard, kept or live, shows for `s`: the item of the last lap written to the slot.  That is the item of `s`
      exactly as long as no later lap is written. */
  lemma GuardShows(d: Overlap, g: Kept, s: int, t: int)
    requires Possible(d) && Covers(d, g, s) && NextInSlot(d.v, s, t)
    ensures 0 <= s <= t - d.v.size < |d.v.h.log| == |d.v.h.writes| && |d.v.mem.slots| == d.v.size
    ensures d.v.mem.slots[Index(s, d.v.size)] ==
      d.v.h.log[if t <= d.v.Top() && d.v.h.writes[t] >= 1 then t else t - d.v.size]
    ensures s > d.v.P() - d.v.size <==> t - d.v.size == s
  {
    CoveredFacts(d, g, s);
    PossibleLoose(d);
    LastWritten(d.v, s, t);
    NextIsOneLapOn(d.v, s, t);
  }

  // ----- what the drop of a guard delivers -----

  /** The move drops guard `g`. */
  ghost predicate Drops(d: Overlap, move: Move, g: Kept) {
    match move
    case DropKept(k) => k < |d.kept| && d.kept[k] == g
    case Take(step) => step.Commit? && step.i == g.i && IsLive(d.v, g)
    case Keep(_) => false
  }

  /** Receiver `i` was given exactly the sequences up to its cursor, each once and in order. */
  ghost predicate InOrder(d: Overlap, i: nat) {
    i < |d.got| && i < |d.v.mem.consumed| && -1 <= d.v.mem.consumed[i] && d.got[i] == Range(0, d.v.mem.consumed[i])
  }

  lemma RangeExtends(got: seq<int>, start: int, end: int)
    requires 0 <= start <= end
    ensures got + Range(start, end) == Range(0, end) <==> got == Range(0, start - 1)
  {
    var r := Range(0, end);
    if got + Range(start, end) == r {
      assert got == r[..|got|];
    }
    if got == Range(0, start - 1) {
      assert got + Range(start, end) == r;
    }
  }

  lemma DropStores(d: Overlap, move: Move, g: Kept)
    requires Possible(d) && CanMove(d, move) && Drops(d, move, g)
    ensures var d' := DoMove(d, move);
      && g.i < |d.got| == |d'.got| == |d'.v.receivers| == |d'.v.mem.consumed| && 0 <= g.start <= g.end
      && d'.v.mem.consumed[g.i] == g.end && d'.got[g.i] == d.got[g.i] + Range(g.start, g.end)
      && d'.high[g.i] == Max(d.high[g.i], g.end)
  {
    assert Covers(d, g, g.start) by { assert g.start <= g.end; }
    CoveredFacts(d, g, g.start);
  }

  /** After the drop of a guard the receiver has been given everything in order if and only if it had been given
      everything before the guard in order; so, if it was in order, exactly if the guard starts at the cursor. */
  lemma DropInOrderIff(d: Overlap, move: Move, g: Kept)
    requires Possible(d) && CanMove(d, move) && Drops(d, move, g)
    ensures g.i < |d.got| && 0 <= g.start
    ensures InOrder(DoMove(d, move), g.i) <==> d.got[g.i] == Range(0, g.start - 1)
    ensures InOrder(d, g.i) ==>
              (InOrder(DoMove(d, move), g.i) <==> g.start == d.v.mem.consumed[g.i] + 1)
  {
    DropStores(d, move, g);
    RangeExtends(d.got[g.i], g.start, g.end);
    if InOrder(d, g.i) {
      assert |d.got[g.i]| == d.v.mem.consumed[g.i] + 1;
      assert g.start == d.v.mem.consumed[g.i] + 1 ==> d.got[g.i] == Range(0, g.start - 1);
      assert d.got[g.i] == Range(0, g.start - 1) ==> |d.got[g.i]| == g.start;
    }
  }

  /** The same for lengths: the stream is as long as the cursor says exactly if it was as long as the guard's start. */
  lemma DropLengthIff(d: Overlap, move: Move, g: Kept)
    requires Possible(d) && CanMove(d, move) && Drops(d, move, g)
    ensures var d' := DoMove(d, move);
      && g.i < |d.v.receivers| && g.i < |d'.v.receivers| && g.i < |d'.v.mem.consumed|
      && (|d'.v.receivers[g.i].stream| == d'.v.mem.consumed[g.i] + 1 <==> |d.v.receivers[g.i].stream| == g.start)
  {
    DropStores(d, move, g);
    PossibleOn(d, move);
    PossibleLoose(d);
    PossibleLoose(DoMove(d, move));
  }

  lemma {:induction false} RangeOnce(lo: int, hi: int, s: int)
    requires lo <= hi + 1
    ensures multiset(Range(lo, hi))[s] == if lo <= s <= hi then 1 else 0
    decreases hi - lo + 1
  {
    if lo <= hi {
      RangeOnce(lo, hi - 1, s);
      assert Range(lo, hi) == Range(lo, hi - 1) + [hi];
    }
  }

  /** Each drop gives the receiver every sequence of the guard once more. */
  lemma DropDelivers(d: Overlap, move: Move, g: Kept, s: int)
    requires Possible(d) && CanMove(d, move) && Drops(d, move, g)
    ensures g.i < |d.got| && g.i < |DoMove(d, move).got|
    ensures multiset(DoMove(d, move).got[g.i])[s] ==
              multiset(d.got[g.i])[s] + if g.start <= s <= g.end then 1 else 0
  {
    DropStores(d, move, g);
    RangeOnce(g.start, g.end, s);
  }

  lemma GotStep(d: Overlap, move: Move, i: nat)
    requires CanMove(d, move) && i < |d.got|
    ensures i < |DoMove(d, move).got| && d.got[i] <= DoMove(d, move).got[i]
  {}

  /** What was delivered stays delivered. */
  lemma GotGrows(d: Overlap, e: Overlap, i: nat)
    requires MovesLead(d, e) && i < |d.got|
    ensures i < |e.got| && d.got[i] <= e.got[i]
  {
    var S := iset o: Overlap | i < |o.got| && d.got[i] <= o.got[i];
    forall o: Overlap, move: Move | o in S && CanMove(o, move)
      ensures DoMove(o, move) in S
    {
      GotStep(o, move, i);
    }
    assert ClosedUnderMoves(S);
  }

  lemma PrefixCounts(a: seq<int>, b: seq<int>, s: int)
    requires a <= b
    ensures multiset(a)[s] <= multiset(b)[s]
  {
    assert b == a + b[|a|..];
  }

  /** Two overlapping guards deliver what they share twice, whichever is dropped first and whatever happens in between:
      `g` is dropped in `d` and `h` in the later `e`. */
  lemma OverlapDeliversTwice(d: Overlap, drop: Move, g: Kept, e: Overlap, drop': Move, h: Kept, s: int)
    requires Possible(d) && CanMove(d, drop) && Drops(d, drop, g) && MovesLead(DoMove(d, drop), e)
    requires CanMove(e, drop') && Drops(e, drop', h) && g.i == h.i
    requires g.start <= s <= g.end && h.start <= s <= h.end
    ensures g.i < |DoMove(e, drop').got| && multiset(DoMove(e, drop').got[g.i])[s] >= 2
  {
    var d' := DoMove(d, drop);
    PossibleOn(d, drop);
    DropDelivers(d, drop, g, s);
    PossibleLeads(d', e);
    GotGrows(d', e, g.i);
    PrefixCounts(d'.got[g.i], e.got[g.i], s);
    DropDelivers(e, drop', h, s);
  }

  // ----- what the receiver gets next -----

  lemma FlagsAgree(s: int, u: int, size: int)
    requires size > 0
    ensures Flag(s, size) == Flag(u, size) <==> (u / size - s / size) % LAP_SPAN == 0
  {
    var a, b := s / size + 1, u / size + 1;
    assert a == LAP_SPAN * (a / LAP_SPAN) + a % LAP_SPAN && b == LAP_SPAN * (b / LAP_SPAN) + b % LAP_SPAN;
  }

  /** The last published sequence of the slot whose next one is `t`. */
  ghost function LastPublished(v: State, t: int): int {
    if t in v.h.published then t else t - v.size
  }

  /** The word of a published sequence `s` carries its flag exactly if the last publication in its slot, if it is not
      `s` itself, is a multiple of 2^31 laps later. */
  lemma FlagAfter(v: State, s: int, t: int)
    requires Shared(v) && NextInSlot(v, s, t) && 0 <= s <= v.P()
    ensures LastPublished(v, t) <= v.Top() && (LastPublished(v, t) == s || s + v.size <= LastPublished(v, t))
    ensures Lap(v.mem.words[Index(s, v.size)]) == Flag(s, v.size) <==>
              (LastPublished(v, t) / v.size - s / v.size) % LAP_SPAN == 0
  {
    PrefixBelowTop(v);
    LapBefore(t, v.size);
    SlotInLap(s, t, v.size);
    FlagsAgree(s, LastPublished(v, t), v.size);
    if s < t - v.size { SlotInLap(s, t - v.size, v.size); }
  }

  /** Wherever drops have left its cursor, the receiver's next published sequence `s` looks published exactly if the
      last publication in its slot is a multiple of 2^31 laps later, for instance none; and the item it then gets is
      that of the last lap written there, be it published or not. */
  lemma NextGets(d: Overlap, i: nat, s: int, t: int)
    requires Possible(d) && i < |d.v.receivers| && d.v.Live(i)
    requires s == d.v.mem.consumed[i] + 1 <= d.v.P() && NextInSlot(d.v, s, t)
    ensures Lap(d.v.mem.words[Index(s, d.v.size)]) == Flag(s, d.v.size) <==>
              (LastPublished(d.v, t) / d.v.size - s / d.v.size) % LAP_SPAN == 0
    ensures 0 <= s <= t - d.v.size < |d.v.h.log| == |d.v.h.writes| && |d.v.mem.slots| == d.v.size
    ensures d.v.mem.slots[Index(s, d.v.size)] ==
      d.v.h.log[if t <= d.v.Top() && d.v.h.writes[t] >= 1 then t else t - d.v.size]
  {
    HighWater(d, i);
    PossibleLoose(d);
    LastWritten(d.v, s, t);
    FlagAfter(d.v, s, t);
  }

  // ----- a receiver whose next sequence is overwritten -----

  lemma Overwritten(v: State, s: int, t: int)
    requires Shared(v) && NextInSlot(v, s, t) && 0 <= s && s + v.size in v.h.published
    ensures s + v.size <= LastPublished(v, t) <= v.Top()
  {
    PrefixBelowTop(v);
    LapBefore(s + v.size, v.size);
    LapBefore(t, v.size);
    if s + v.size <= v.P() { SlotInLap(s + v.size, t, v.size); } else { WindowInjective(s + v.size, t, v.size); }
  }

  /** The sequence of the slot of `s` in the lap after `p`. */
  function NextAfter(p: int, s: int, size: int): (t: int)
    requires size > 0
    ensures p < t <= p + size
  {
    p + 1 + Index(s - (p + 1), size)
  }

  lemma NextAfterSlot(p: int, s: int, size: int)
    requires size > 0
    ensures Index(NextAfter(p, s, size), size) == Index(s, size)
  {
    var q := (s - (p + 1)) / size;
    assert NextAfter(p, s, size) == s - size * q by { assert s - (p + 1) == size * q + (s - (p + 1)) % size; }
    DivModUnique(s - size * q, size, s / size - q, s % size);
  }

  /** A sequence that was overwritten by a later publication never matches, within 2^31 laps. */
  lemma OverwrittenMismatch(v: State, s: int)
    requires Shared(v) && 0 <= s && s + v.size in v.h.published && v.Top() < s + v.size * LAP_SPAN
    ensures Lap(v.mem.words[Index(s, v.size)]) != Flag(s, v.size)
  {
    PrefixBelowTop(v);
    var t := NextAfter(v.P(), s, v.size);
    NextAfterSlot(v.P(), s, v.size);
    Overwritten(v, s, t);
    LapBefore(t, v.size);
    var u := LastPublished(v, t);
    if Flag(u, v.size) == Flag(s, v.size) { SlotAndFlagDetermine(s, u, v.size); }
  }
}
