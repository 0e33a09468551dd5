/** Dropping the last sender, over whole runs: drain, then disconnect. */
module Closing {
  import opened RingMath
  import opened Machine
  import opened Invariant
  import opened Shutdown
  import opened Runs
  import opened Interference

  /** The last sender's drop marks the sequence after the published prefix if and only if the window of its
      scan is intact; and it always is unless a close had stored an outdated `claimed`. */
  lemma DropMarksBoundary(v: State)
    requires Reachable(v) && v.h.mark >= 0
    ensures v.h.mark == v.P() + 1 <==> WindowIntact(v, LastClaimed(v.mem.claimed))
    ensures !v.h.torn ==> v.h.mark == v.P() + 1
  {
    ReachableInv(v);
    MarkIsExact(v);
  }

  /** Once the last sender drops, the published prefix ends at the first given-up sequence: it is all that was ever
      claimed if and only if no claim was given up. */
  lemma DropLosesNothing(v: State)
    requires Reachable(v) && v.dropping
    ensures v.P() == v.Top() || v.P() + 1 in v.h.abandoned
    ensures v.P() == v.Top() <==> v.h.abandoned == {}
    ensures forall s :: s in v.h.abandoned ==> v.P() < s <= v.Top()
  {
    ReachableInv(v);
    NoneHeld(v);
    UnheldHole(v);
  }

  lemma UnheldHole(v: State)
    requires |v.h.owner| == |v.h.log| && PublishedOk(v) && OwnersOk(v) && forall b: nat, s: int :: !Holds(v, b, s)
    ensures v.P() == v.Top() || v.P() + 1 in v.h.abandoned
    ensures v.P() == v.Top() <==> v.h.abandoned == {}
    ensures forall s :: s in v.h.abandoned ==> v.P() < s <= v.Top()
  {
    PrefixBelowTop(v);
    forall s | s in v.h.abandoned
      ensures v.P() < s
    {
      assert 0 <= s <= v.P() ==> s in v.h.published;
    }
    assert v.P() == v.Top() ==> forall s :: s !in v.h.abandoned;
  }

  /** All that a receiver can observe is the same. */
  ghost predicate Frozen(v: State, v': State) {
    && v'.size == v.size && v'.mem.words == v.mem.words && v'.mem.slots == v.mem.slots
    && v'.h.log == v.h.log && v'.h.published == v.h.published && v'.h.mark == v.h.mark
  }

  lemma FrozenStep(v: State, step: Step)
    requires Reachable(v) && v.h.mark >= 0 && Enabled(v, step)
    ensures Reachable(Apply(v, step)) && Frozen(v, Apply(v, step))
  {
    ReachableStep(v, step);
    ReachableInv(v);
    SealedFrozen(v, step);
  }

  /** Nothing a receiver can observe changes once the mark is planted. */
  lemma {:induction false} SealedRun(v: State, steps: seq<Step>, v': State)
    requires Reachable(v) && v.h.mark >= 0 && Run(v, steps, v')
    ensures Frozen(v, v')
    decreases |steps|
  {
    if steps != [] {
      FrozenStep(v, steps[0]);
      SealedRun(Apply(v, steps[0]), steps[1..], v');
    }
  }

  lemma FrozenLeads(v: State, v': State)
    requires Reachable(v) && v.h.mark >= 0 && Leads(Nobody, v, v')
    ensures Frozen(v, v')
  {
    LeadsRun(v, v');
    var steps :| Run(v, steps, v');
    SealedRun(v, steps, v');
  }

  /** After the drop a receiver's first inspection finds an item until it consumed the whole prefix; then it
      reports Closed, now and for ever, if and only if the slot after the prefix carries the bit. */
  lemma DrainThenDisconnect(v: State, steps: seq<Step>, v': State, i: nat)
    requires Reachable(v) && v.h.mark >= 0 && Run(v, steps, v')
    requires Enabled(v', Inspect(i)) && v'.receivers[i].pc.next == v'.receivers[i].pc.start
    ensures WellFormed(v') && v'.P() == v.P()
    ensures var pc' := DoInspect(v', i).receivers[i].pc;
      if v'.mem.consumed[i] < v.P() then pc'.Reading? || (pc'.Scanning? && pc'.next > pc'.start)
      else pc' == Resting(Closed) <==> HasBit(v.mem.words[Index(v.P() + 1, v.size)])
  {
    StaysFrozen(v, steps, v');
    DrainThenClosed(v', i);
  }

  lemma StaysFrozen(v: State, steps: seq<Step>, v': State)
    requires Reachable(v) && v.h.mark >= 0 && Run(v, steps, v')
    ensures Frozen(v, v') && Core(v')
  {
    ReachableInv(v);
    RunKeepsInv(v, steps, v');
    SealedRun(v, steps, v');
  }

  /** Without a torn close the receivers always get to see the disconnect. */
  lemma DisconnectIsSeen(v: State)
    requires Reachable(v) && v.h.mark >= 0 && !v.h.torn
    ensures HasBit(v.mem.words[Index(v.P() + 1, v.size)])
  {
    ReachableInv(v);
    MarkIsExact(v);
  }

  /** Draining makes progress: after the drop each commit brings the receiver closer to the end. */
  lemma DrainTerminates(v: State, i: nat)
    requires Reachable(v) && v.h.mark >= 0 && Enabled(v, Commit(i))
    ensures 0 <= DoCommit(v, i).P() - DoCommit(v, i).mem.consumed[i] < v.P() - v.mem.consumed[i]
  {
    ReachableInv(v);
    assert ReceiverOk(v, v.mem.consumed[i], v.receivers[i]);
  }

  /** Whether drained receivers will get to see the disconnect is settled when the drop begins: if and only if the
      scan of the words stops at the slot after the prefix, or that slot carries a bit already. */
  lemma DropShowsDisconnect(v: State, a: nat, v': State)
    requires Reachable(v) && Enabled(v, CloseLoad(a, ToGone))
    requires Leads(Nobody, DoCloseLoad(v, a, ToGone), v') && v'.h.mark >= 0
    ensures WellFormed(v') && v'.size == v.size && v'.P() == v.P()
    ensures v'.h.mark == ScanStop(v.size, v.mem.words, LastClaimed(v.mem.claimed))
    ensures HasBit(v'.mem.words[Index(v.P() + 1, v.size)]) <==>
              HasBit(v.mem.words[Index(v.P() + 1, v.size)]) ||
              Index(ScanStop(v.size, v.mem.words, LastClaimed(v.mem.claimed)), v.size) == Index(v.P() + 1, v.size)
  {
    DropBegins(v, a);
    var w := DoCloseLoad(v, a, ToGone);
    LeadsHistory(w, v');
    DropEnds(w, v');
    SameLapsSameBoundary(v.size, v'.mem.words, v.mem.words, LastClaimed(v.mem.claimed), v'.h.mark);
    BoundaryIsScanStop(v.size, v.mem.words, LastClaimed(v.mem.claimed), v'.h.mark);
  }

  lemma DropBegins(v: State, a: nat)
    requires Reachable(v) && Enabled(v, CloseLoad(a, ToGone))
    ensures var w := DoCloseLoad(v, a, ToGone);
      Reachable(w) && w.dropping && w.h.mark == -1 && w.size == v.size && w.mem == v.mem && w.h == v.h
  {
    ReachableStep(v, CloseLoad(a, ToGone));
    ReachableInv(v);
  }

  lemma DropEnds(v: State, v': State)
    requires Reachable(v) && Leads(Nobody, v, v') && v'.h.mark >= 0
    ensures WellFormed(v') && Boundary(v'.size, v'.mem.words, LastClaimed(v'.mem.claimed), v'.h.mark)
  {
    ReachableInv(v);
    LeadsKeepsInv(Nobody, v, v');
  }

  /** A close that finds the last claim scans from no later than the first unread sequence of any live receiver, even
      of one that lags by the full capacity. */
  lemma ScanCoversUnread(v: State, i: nat)
    requires Reachable(v) && i < |v.receivers| && v.Live(i)
    ensures WindowStart(v.size, v.Top()) <= v.mem.consumed[i] + 1
  {
    ReachableInv(v);
    assert ReceiverOk(v, v.mem.consumed[i], v.receivers[i]);
  }
}
