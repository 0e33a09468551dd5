/** Closing: what the last sender's drop marks, and what every receiver then observes. */
module Shutdown {
  import opened RingMath
  import opened Machine
  import opened Invariant
  import opened Preservation
  import opened Wakeups

  function WindowStart(size: int, last: int): int { Max(last - (size - 1), 0) }

  /** The slot word of `s` carries the lap flag of `s`. */
  ghost predicate Matches(size: int, words: seq<int>, s: int)
    requires size > 0 && |words| == size
  {
    Lap(words[Index(s, size)]) == Flag(s, size)
  }

  /** The scan of a close that found `last` as the last claim has matched every sequence before `at`. */
  ghost predicate Passed(size: int, words: seq<int>, last: int, at: int)
    requires size > 0 && |words| == size
  {
    && WindowStart(size, last) <= at <= last + 1
    && forall s :: WindowStart(size, last) <= s < at ==> Matches(size, words, s)
  }

  /** `at` is where that scan ends: at the first mismatch, or after the last claim. */
  ghost predicate Boundary(size: int, words: seq<int>, last: int, at: int)
    requires size > 0 && |words| == size
  {
    if last < 0 then at == last + 1 == 0
    else Passed(size, words, last, at) && (at <= last ==> !Matches(size, words, at))
  }

  /** Where a scan of `words` for `last` as the last claim stops: computed from the words alone. */
  ghost function ScanStop(size: int, words: seq<int>, last: int): int
    requires size > 0 && |words| == size
  {
    if last < 0 then last + 1 else FirstMismatch(size, words, WindowStart(size, last), last)
  }

  ghost function FirstMismatch(size: int, words: seq<int>, at: int, last: int): (r: int)
    requires size > 0 && |words| == size && at <= last + 1
    ensures at <= r <= last + 1 && (r <= last ==> !Matches(size, words, r))
    ensures forall s :: at <= s < r ==> Matches(size, words, s)
    decreases last + 1 - at
  {
    if at > last || !Matches(size, words, at) then at else FirstMismatch(size, words, at + 1, last)
  }

  /** A scan that finds the words unchanged stops there and nowhere else. */
  lemma BoundaryIsScanStop(size: int, words: seq<int>, last: int, at: int)
    requires size > 0 && |words| == size && Boundary(size, words, last, at)
    ensures at == ScanStop(size, words, last)
  {
    if last >= 0 { FirstMismatchIs(size, words, WindowStart(size, last), last, at); }
  }

  lemma {:induction false} FirstMismatchIs(size: int, words: seq<int>, at: int, last: int, stop: int)
    requires size > 0 && |words| == size && at <= stop <= last + 1
    requires forall s :: at <= s < stop ==> Matches(size, words, s)
    requires stop <= last ==> !Matches(size, words, stop)
    ensures stop == FirstMismatch(size, words, at, last)
    decreases last + 1 - at
  {
    if at < stop { FirstMismatchIs(size, words, at + 1, last, stop); }
  }

  /** While the last sender handle is dropped its close is the only activity of any agent. */
  ghost predicate DroppingAgentOk(size: int, words: seq<int>, claimed: int, mark: int, g: Agent)
    requires size > 0 && |words| == size
  {
    && g.claim.NoClaim?
    && match g.pc
       case Idle(_) => true
       case CloseScanning(raw, at, after) =>
         after.ToGone? && mark == -1 && claimed == raw && 0 <= LastClaimed(raw) &&
         Passed(size, words, LastClaimed(raw), at)
       case CloseMarking(raw, at, after) =>
         after.ToGone? && mark == -1 && claimed == raw && Boundary(size, words, LastClaimed(raw), at)
       case CloseStoring(raw, after) => after.ToGone? && mark >= 0 && claimed == raw
       case Notifying(_, after) => after.ToGone? && mark >= 0
       case Gone => mark >= 0
       case _ => false
  }

  ghost predicate MarkOk(v: State)
    requires WellFormed(v)
  {
    if v.h.mark < 0 then v.h.mark == -1
    else v.dropping && HasBit(v.mem.words[Index(v.h.mark, v.size)]) &&
         Boundary(v.size, v.mem.words, LastClaimed(v.mem.claimed), v.h.mark)
  }

  ghost predicate DropOk(v: State)
    requires WellFormed(v)
  {
    && (!v.h.torn ==> LastClaimed(v.mem.claimed) == v.Top())
    && MarkOk(v)
    && (v.dropping ==>
          && (forall b: nat :: b < |v.agents| ==>
                DroppingAgentOk(v.size, v.mem.words, v.mem.claimed, v.h.mark, v.agents[b]))
          && (forall b: nat, c: nat ::
                (b < |v.agents| && c < |v.agents| && !v.agents[b].pc.Idle? && !v.agents[c].pc.Idle?) ==> b == c))
  }

  // ----- preservation -----

  /** A receiver's step touches nothing a close looks at. */
  lemma ReceiverKeepsDrop(v: State, step: Step)
    requires WellFormed(v) && Enabled(v, step) && ByReceiver(step) && DropOk(v) && WellFormed(Apply(v, step))
    ensures DropOk(Apply(v, step))
  {
    ReceiverFrame(v, step);
    SameWordsDrop(v, Apply(v, step));
  }

  lemma SameWordsDrop(v: State, v': State)
    requires WellFormed(v) && WellFormed(v') && DropOk(v)
    requires v'.size == v.size && v'.agents == v.agents && v'.dropping == v.dropping
    requires v'.mem == v.mem.(consumed := v'.mem.consumed) && v'.h == v.h.(moves := v'.h.moves)
    ensures DropOk(v')
  {}

  /** Before the drop begins only the claim bookkeeping matters. */
  lemma BeforeDrop(v: State, step: Step)
    requires WellFormed(v) && ClaimedOk(v) && Enabled(v, step) && !ByReceiver(step) && !v.dropping
    requires WellFormed(Apply(v, step)) && !Apply(v, step).dropping
    requires DropOk(v) && (!step.Clone? ==> AgentOk(v, step.a, v.agents[step.a]))
    ensures DropOk(Apply(v, step))
  {}

  lemma BeginDrop(v: State, a: nat)
    requires Core(v) && DropOk(v) && Enabled(v, CloseLoad(a, ToGone)) && WellFormed(DoCloseLoad(v, a, ToGone))
    ensures DropOk(DoCloseLoad(v, a, ToGone))
  {
    var v' := DoCloseLoad(v, a, ToGone);
    forall b: nat | b < |v'.agents|
      ensures DroppingAgentOk(v'.size, v'.mem.words, v'.mem.claimed, v'.h.mark, v'.agents[b])
    {
      assert AgentOk(v, b, v.agents[b]);
    }
  }

  /** During the drop the one closing agent advances and the others stay idle. */
  lemma InspectDrop(v: State, a: nat)
    requires WellFormed(v) && DropOk(v) && v.dropping && Enabled(v, CloseInspect(a)) && WellFormed(DoCloseInspect(v, a))
    requires AgentOk(v, a, v.agents[a])
    ensures DropOk(DoCloseInspect(v, a))
  {
    var v' := DoCloseInspect(v, a);
    assert DroppingAgentOk(v.size, v.mem.words, v.mem.claimed, v.h.mark, v.agents[a]);
    assert DroppingAgentOk(v.size, v.mem.words, v.mem.claimed, v.h.mark, v'.agents[a]);
    OnlyCloserMoved(v, v', a);
  }

  lemma OnlyCloserMoved(v: State, v': State, a: nat)
    requires WellFormed(v) && WellFormed(v') && DropOk(v) && v.dropping && a < |v.agents| && !v.agents[a].pc.Idle?
    requires |v'.agents| == |v.agents| && v' == v.(agents := v.agents[a := v'.agents[a]])
    requires DroppingAgentOk(v.size, v.mem.words, v.mem.claimed, v.h.mark, v'.agents[a])
    ensures DropOk(v')
  {}

  lemma DuringDrop(v: State, step: Step)
    requires WellFormed(v) && ClaimedOk(v) && DropOk(v) && v.dropping && Enabled(v, step) && !ByReceiver(step)
    requires WellFormed(Apply(v, step)) && AgentOk(v, step.a, v.agents[step.a])
    requires !step.CloseMark? && !step.CloseInspect?
    ensures DropOk(Apply(v, step))
  {
    var v' := Apply(v, step);
    assert DroppingAgentOk(v.size, v.mem.words, v.mem.claimed, v.h.mark, v.agents[step.a]);
    forall b: nat | b < |v'.agents|
      ensures DroppingAgentOk(v'.size, v'.mem.words, v'.mem.claimed, v'.h.mark, v'.agents[b])
    {
      assert b != step.a ==> v.agents[b].pc.Idle?;
    }
  }

  lemma SameLapsSameBoundary(size: int, words: seq<int>, words': seq<int>, last: int, at: int)
    requires size > 0 && |words| == |words'| == size
    requires forall j :: 0 <= j < size ==> Lap(words'[j]) == Lap(words[j])
    requires Boundary(size, words, last, at)
    ensures Boundary(size, words', last, at)
  {
    if last >= 0 {
      forall s | WindowStart(size, last) <= s < at
        ensures Matches(size, words', s)
      {
        assert Matches(size, words, s);
      }
    }
  }

  lemma MarkDrop(v: State, a: nat)
    requires WellFormed(v) && DropOk(v) && v.dropping && Enabled(v, CloseMark(a)) && WellFormed(DoCloseMark(v, a))
    ensures DropOk(DoCloseMark(v, a))
  {
    var v' := DoCloseMark(v, a);
    var pc := v.agents[a].pc;
    assert DroppingAgentOk(v.size, v.mem.words, v.mem.claimed, v.h.mark, v.agents[a]);
    SameLapsSameBoundary(v.size, v.mem.words, v'.mem.words, LastClaimed(pc.raw), pc.at);
    forall b: nat | b < |v'.agents|
      ensures DroppingAgentOk(v'.size, v'.mem.words, v'.mem.claimed, v'.h.mark, v'.agents[b])
    {
      assert b != a ==> v.agents[b].pc.Idle?;
    }
  }

  lemma AgentKeepsDrop(v: State, step: Step)
    requires WellFormed(v) && ClaimedOk(v) && DropOk(v) && v.dropping && Enabled(v, step) && !ByReceiver(step)
    requires WellFormed(Apply(v, step)) && !step.Clone? && AgentOk(v, step.a, v.agents[step.a])
    ensures DropOk(Apply(v, step))
  {
    match step
    case CloseMark(a) => MarkDrop(v, a);
    case CloseInspect(a) => InspectDrop(v, a);
    case _ => DuringDrop(v, step);
  }

  lemma StepKeepsDrop(v: State, step: Step)
    requires Core(v) && DropOk(v) && Enabled(v, step) && WellFormed(Apply(v, step))
    ensures DropOk(Apply(v, step))
  {
    if ByReceiver(step) {
      ReceiverKeepsDrop(v, step);
    } else if step.Clone? {
      BeforeDrop(v, step);
    } else {
      assert AgentOk(v, step.a, v.agents[step.a]);
      if v.dropping {
        AgentKeepsDrop(v, step);
      } else if step.CloseLoad? && step.after.ToGone? {
        BeginDrop(v, step.a);
      } else {
        BeforeDrop(v, step);
      }
    }
  }

  // ----- the boundary -----

  /** A scan that started from `last` sees the whole prefix, and no slot word of its window shows a later lap:
      always so when `last` is the highest claim. */
  ghost predicate WindowIntact(v: State, last: int) {
    v.P() <= last && forall t :: t in v.h.published ==> t <= Max(last, v.size - 1)
  }

  /** In the window of a scan, `s <= P` matches unless the next lap of its slot is published. */
  lemma WindowMatch(v: State, last: int, s: int)
    requires Core(v) && v.P() <= last && WindowStart(v.size, last) <= s <= v.P()
    ensures Matches(v.size, v.mem.words, s) <==> s + v.size !in v.h.published
  {
    PrefixBelowTop(v);
    LapBefore(s + v.size, v.size);
  }

  /** The sequence after the prefix never matches. */
  lemma NextMismatches(v: State)
    requires Core(v)
    ensures !Matches(v.size, v.mem.words, v.P() + 1)
  {
    LapBefore(v.P() + 1, v.size);
  }

  lemma IntactWindowExact(v: State, last: int, at: int)
    requires Core(v) && Boundary(v.size, v.mem.words, last, at) && 0 <= last <= v.Top() && WindowIntact(v, last)
    ensures at == v.P() + 1
  {
    NextMismatches(v);
    if at <= v.P() {
      WindowMatch(v, last, at);
    } else {
      assert WindowStart(v.size, last) <= v.P() + 1;
    }
  }

  lemma ExactWindowIntact(v: State, last: int, at: int)
    requires Core(v) && Boundary(v.size, v.mem.words, last, at) && 0 <= last <= v.Top() && at == v.P() + 1
    ensures WindowIntact(v, last)
  {
    PrefixBelowTop(v);
    forall t | t in v.h.published
      ensures t <= Max(last, v.size - 1)
    {
      if t > Max(last, v.size - 1) {
        assert Matches(v.size, v.mem.words, t - v.size);
        WindowMatch(v, last, t - v.size);
      }
    }
  }

  /** A close's scan ends exactly after the published prefix if and only if its window is intact. */
  lemma BoundaryExact(v: State, last: int, at: int)
    requires Core(v) && Boundary(v.size, v.mem.words, last, at)
    requires -1 <= last <= v.Top() && (last == -1 ==> v.Top() == -1)
    ensures at == v.P() + 1 <==> WindowIntact(v, last)
  {
    PrefixBelowTop(v);
    if last >= 0 {
      if at == v.P() + 1 { ExactWindowIntact(v, last, at); }
      if WindowIntact(v, last) { IntactWindowExact(v, last, at); }
    }
  }

  /** The last sender's drop marks exactly the end of the published prefix whenever no close was torn. */
  lemma MarkIsExact(v: State)
    requires Core(v) && DropOk(v) && v.h.mark >= 0
    ensures v.h.mark == v.P() + 1 <==> WindowIntact(v, LastClaimed(v.mem.claimed))
    ensures !v.h.torn ==> v.h.mark == v.P() + 1
  {
    PrefixBelowTop(v);
    var last := LastClaimed(v.mem.claimed);
    BoundaryExact(v, last, v.h.mark);
  }

  lemma NoneHeld(v: State)
    requires WellFormed(v) && DropOk(v) && v.dropping
    ensures forall b: nat, s: int :: !Holds(v, b, s)
  {
    forall b: nat | b < |v.agents|
      ensures v.agents[b].claim.NoClaim?
    {
      assert DroppingAgentOk(v.size, v.mem.words, v.mem.claimed, v.h.mark, v.agents[b]);
    }
  }

  /** Once the mark is planted no step changes a slot, a slot word or what is published. */
  lemma SealedFrozen(v: State, step: Step)
    requires Core(v) && DropOk(v) && v.h.mark >= 0 && Enabled(v, step)
    ensures var v' := Apply(v, step);
      v'.mem.words == v.mem.words && v'.mem.slots == v.mem.slots &&
      v'.h.published == v.h.published && v'.h.log == v.h.log && v'.h.mark == v.h.mark
  {
    if !ByReceiver(step) && !step.Clone? {
      assert DroppingAgentOk(v.size, v.mem.words, v.mem.claimed, v.h.mark, v.agents[step.a]);
      assert AgentOk(v, step.a, v.agents[step.a]);
    }
  }

  /** What the first inspection of a receiver's claim decides after the drop: an item as long as the prefix is
      not consumed, and then Closed if and only if the slot after the prefix carries the bit. */
  lemma DrainThenClosed(v: State, i: nat)
    requires Core(v) && Enabled(v, Inspect(i)) && v.receivers[i].pc.next == v.receivers[i].pc.start
    ensures var pc' := DoInspect(v, i).receivers[i].pc;
      if v.mem.consumed[i] < v.P() then
        pc'.Reading? || (pc'.Scanning? && pc'.next > pc'.start)
      else if v.P() + 1 in v.h.published then false
      else pc' == Resting(Closed) <==> HasBit(v.mem.words[Index(v.P() + 1, v.size)])
    ensures v.mem.consumed[i] <= v.P()
  {
    assert ReceiverOk(v, v.mem.consumed[i], v.receivers[i]);
    assert v.Live(i);
    FlagMeansPublished(v, i, v.receivers[i].pc.next);
  }
}
