/** What holds in every reachable state: backpressure, exclusive slots, exact flags, truthful outcomes. */
module Safety {
  import opened Bits
  import opened RingMath
  import opened Machine
  import opened Invariant
  import opened Preservation
  import opened Claims
  import opened Wakeups
  import opened Runs

  /** A live receiver never passes the published prefix and is never lapped by a claim; claims stay within a
      lap of the prefix even after receivers dropped. */
  lemma Backpressure(v: State, i: nat)
    requires Reachable(v) && i < |v.receivers|
    ensures v.P() <= v.Top() <= v.P() + v.size
    ensures v.Live(i) ==> -1 <= v.mem.consumed[i] <= v.P() && v.Top() <= v.mem.consumed[i] + v.size
    ensures !v.Live(i) ==> v.mem.consumed[i] == SHUTDOWN_OPEN
  {
    ReachableInv(v);
    PrefixBelowTop(v);
    assert ReceiverOk(v, v.mem.consumed[i], v.receivers[i]);
  }

  /** Two write claims never cover the same slot. */
  lemma WritersExclusive(v: State, a: nat, b: nat, s: int, t: int)
    requires Reachable(v) && Holds(v, a, s) && Holds(v, b, t) && (a != b || s != t)
    ensures s != t && Index(s, v.size) != Index(t, v.size)
  {
    ReachableInv(v);
    assert AgentOk(v, a, v.agents[a]) && AgentOk(v, b, v.agents[b]);
    HeldBeyondPrefix(v, a);
    HeldBeyondPrefix(v, b);
    if Index(s, v.size) == Index(t, v.size) { WindowInjective(s, t, v.size); }
  }

  /** No write claim covers a slot that a live read guard gives access to. */
  lemma ReadersExclusive(v: State, a: nat, i: nat, s: int, r: int)
    requires Reachable(v) && Holds(v, a, s)
    requires i < |v.receivers| && v.receivers[i].pc.Reading? && v.receivers[i].pc.start <= r <= v.receivers[i].pc.end
    ensures s != r && Index(s, v.size) != Index(r, v.size)
  {
    ReachableInv(v);
    assert AgentOk(v, a, v.agents[a]);
    assert ReceiverOk(v, v.mem.consumed[i], v.receivers[i]);
    HeldBeyondPrefix(v, a);
    if Index(s, v.size) == Index(r, v.size) { WindowInjective(s, r, v.size); }
  }

  /** Through any number of lap wraps, and whether or not the shutdown bit is set, a word of the lap after a
      live cursor carries the flag of `s` exactly when `s` is published. */
  lemma LapFlagExact(v: State, i: nat, s: int)
    requires Reachable(v) && i < |v.receivers| && v.Live(i)
    requires v.mem.consumed[i] < s <= v.mem.consumed[i] + v.size
    ensures Lap(v.mem.words[Index(s, v.size)]) == Flag(s, v.size) <==> s in v.h.published
  {
    ReachableInv(v);
    FlagMeansPublished(v, i, s);
  }

  /** A scan racing with publishers: a guard covers only published sequences, from the receiver's next one on,
      and an end before the requested stop was unpublished at the instant it was inspected. */
  lemma ScanSound(v: State, i: nat)
    requires Reachable(v) && Enabled(v, Inspect(i)) && DoInspect(v, i).receivers[i].pc.Reading?
    ensures var pc, pc' := v.receivers[i].pc, DoInspect(v, i).receivers[i].pc;
      && pc'.start == v.mem.consumed[i] + 1 <= pc'.end <= pc.stop
      && (forall s :: pc'.start <= s <= pc'.end ==> s in v.h.published)
      && (pc'.end < pc.stop ==> pc'.end + 1 !in v.h.published)
  {
    ReachableInv(v);
    assert ReceiverOk(v, v.mem.consumed[i], v.receivers[i]);
    InspectOk(v, i);
    FlagMeansPublished(v, i, v.receivers[i].pc.next);
  }

  /** A claim attempt of a receiver reports Closed only if its next sequence is unpublished and marked at that
      instant, and Empty (or goes on to register, or to wait) only if it is neither. */
  lemma RecvOutcomeTruthful(v: State, i: nat)
    requires Reachable(v) && Enabled(v, Inspect(i))
    ensures var s, pc' := v.mem.consumed[i] + 1, DoInspect(v, i).receivers[i].pc;
      && (pc'.Resting? || pc'.Registering? || pc'.Pending? ==> s !in v.h.published && v.mem.consumed[i] == v.P())
      && (pc'.Resting? ==> pc'.last == if HasBit(v.mem.words[Index(s, v.size)]) then Closed else Empty)
      && (pc'.Registering? || pc'.Pending? ==> !HasBit(v.mem.words[Index(s, v.size)]))
  {
    ReachableInv(v);
    assert ReceiverOk(v, v.mem.consumed[i], v.receivers[i]);
    assert v.Live(i);
    FlagMeansPublished(v, i, v.receivers[i].pc.next);
  }

  /** `Apply`, or the unchanged state where the step is not enabled. */
  ghost function TakeStep(v: State, step: Step): State {
    if WellFormed(v) && Enabled(v, step) then Apply(v, step) else v
  }

  /** Only a write through a permit changes a ring slot or a log entry that exists. */
  lemma SlotsUnlessWrite(v: State, step: Step)
    requires WellFormed(v) && Enabled(v, step) && !step.Write?
    ensures TakeStep(v, step).mem.slots == v.mem.slots && v.h.log <= TakeStep(v, step).h.log
  {}

  /** What a live read guard gives access to is the log, whatever the others do until it is dropped. */
  lemma GuardStable(v: State, step: Step, i: nat, s: int)
    requires Reachable(v) && Enabled(v, step) && i < |v.receivers|
    requires v.receivers[i].pc.Reading? && v.receivers[i].pc.start <= s <= v.receivers[i].pc.end
    ensures 0 <= s < |v.h.log| && v.mem.slots[Index(s, v.size)] == v.h.log[s]
    ensures |TakeStep(v, step).mem.slots| == v.size
    ensures TakeStep(v, step).mem.slots[Index(s, v.size)] == v.mem.slots[Index(s, v.size)]
  {
    ReachableInv(v);
    assert ReceiverOk(v, v.mem.consumed[i], v.receivers[i]);
    PrefixBelowTop(v);
    if step.Write? {
      assert AgentOk(v, step.a, v.agents[step.a]);
      HeldBeyondPrefix(v, step.a);
      var w := v.agents[step.a].claim.written;
      if Index(s, v.size) == Index(w, v.size) { WindowInjective(s, w, v.size); }
    } else {
      SlotsUnlessWrite(v, step);
    }
  }

  lemma WriteByOwner(v: State, a: nat, x: Item, s: int)
    requires WellFormed(v) && Enabled(v, Write(a, x)) && AgentOk(v, a, v.agents[a])
    requires WrittenOnce(v, v.agents[a].claim) && 0 <= s <= v.Top() && s < |DoWrite(v, a, x).h.log|
    requires DoWrite(v, a, x).h.log[s] != v.h.log[s]
    ensures DoWrite(v, a, x).h.log[s] == x && v.h.owner[s] == a && s !in v.h.published && v.h.writes[s] == 0
  {}

  /** Only the owner of an unpublished sequence changes its log entry, by writing it. */
  lemma LogWrittenByOwner(v: State, step: Step, s: int)
    requires Reachable(v) && Enabled(v, step) && 0 <= s <= v.Top()
    ensures s < |TakeStep(v, step).h.log|
    ensures TakeStep(v, step).h.log[s] != v.h.log[s] ==>
        step.Write? && TakeStep(v, step).h.log[s] == step.x && v.h.owner[s] == step.a &&
        s !in v.h.published && v.h.writes[s] == 0
  {
    ReachableInv(v);
    if step.Write? {
      assert AgentOk(v, step.a, v.agents[step.a]);
      assert WrittenOnce(v, v.agents[step.a].claim);
      if DoWrite(v, step.a, step.x).h.log[s] != v.h.log[s] { WriteByOwner(v, step.a, step.x, s); }
    } else {
      SlotsUnlessWrite(v, step);
    }
  }

  /** A sequence is published by its claimer alone, and only after the whole claim was written. */
  lemma PublishedByClaimer(v: State, step: Step, s: int)
    requires Reachable(v) && Enabled(v, step) && s in TakeStep(v, step).h.published && s !in v.h.published
    ensures step.StoreFlag? && Holds(v, step.a, s) && 0 <= s < |v.h.owner| && v.h.owner[s] == step.a
    ensures var c := v.agents[step.a].claim;
      0 <= c.start && c.end < |v.h.writes| && forall t :: c.stored <= t <= c.end ==> v.h.writes[t] == 1
  {
    ReachableInv(v);
    PublishedUnlessStore(v, step);
    assert AgentOk(v, step.a, v.agents[step.a]);
    assert WrittenOnce(v, v.agents[step.a].claim);
  }

  lemma PublishedUnlessStore(v: State, step: Step)
    requires WellFormed(v) && Enabled(v, step)
    ensures if step.StoreFlag? then TakeStep(v, step).h.published == v.h.published + {v.agents[step.a].claim.stored}
            else TakeStep(v, step).h.published == v.h.published
  {}

  /** A published sequence was written exactly once before its flag was stored. */
  lemma PublishedWrittenOnce(v: State, s: int)
    requires Reachable(v) && s in v.h.published
    ensures 0 <= s < |v.h.writes| && v.h.writes[s] == 1
  {
    ReachableInv(v);
  }

  /** Until its claimer writes it, a claimed slot holds the item of the lap before: that is what an in-place
      update and the recycler get to see. */
  lemma StaleIsPreviousLap(v: State, a: nat, s: int)
    requires Reachable(v) && Holds(v, a, s) && s >= v.agents[a].claim.written && s >= v.size
    ensures s < |v.h.log| && |v.mem.slots| == v.size > 0
    ensures v.mem.slots[Index(s, v.size)] == v.h.log[s - v.size] && s - v.size in v.h.published
  {
    ReachableInv(v);
    assert AgentOk(v, a, v.agents[a]);
    assert WrittenOnce(v, v.agents[a].claim);
    HeldBeyondPrefix(v, a);
  }

  /** A given-up sequence stays unpublished, whatever happens afterwards. */
  lemma {:induction false} GivenUpForGood(v: State, steps: seq<Step>, v': State, s: int)
    requires Reachable(v) && Run(v, steps, v') && s in v.h.abandoned
    ensures s in v'.h.abandoned && s !in v'.h.published
    decreases |steps|
  {
    ReachableInv(v);
    if steps != [] {
      ReachableStep(v, steps[0]);
      StepKeepsInv(v, steps[0]);
      GivenUpForGood(Apply(v, steps[0]), steps[1..], v', s);
    }
  }

  // ----- claims -----

  /** The first claim starts at 0, the last ends at top, each starts where the one before ended, and each has a
      length of 1 to min(limit, size). */
  lemma ClaimsTile(v: State, k: int)
    requires Reachable(v) && 0 <= k < |v.h.claims|
    ensures v.h.claims[0].start == 0 && v.h.claims[|v.h.claims| - 1].end == v.Top()
    ensures k > 0 ==> v.h.claims[k].start == v.h.claims[k - 1].end + 1
    ensures 1 <= v.h.claims[k].end - v.h.claims[k].start + 1 <= v.h.claims[k].n <= v.size
  {
    ReachableInv(v);
    assert ClaimRecordOk(v, v.h.claims[k]);
    assert k > 0 ==> v.h.claims[k - 1 + 1].start == v.h.claims[k - 1].end + 1;
  }

  /** Of two claims the one that succeeded first lies wholly before the other in the log. */
  lemma ClaimsOrdered(v: State, j: int, k: int)
    requires Reachable(v) && 0 <= j < k < |v.h.claims|
    ensures v.h.claims[j].end < v.h.claims[k].start
  {
    ReachableInv(v);
    ClaimsInOrder(v, j, k);
  }

  lemma ClaimInLog(v: State, k: int)
    requires Reachable(v) && 0 <= k < |v.h.claims|
    ensures 0 <= v.h.claims[k].start <= v.h.claims[k].end <= v.Top()
  {
    ReachableInv(v);
    assert ClaimRecordOk(v, v.h.claims[k]);
  }

  ghost predicate Covers(v: State, k: int, s: int) {
    0 <= k < |v.h.claims| && v.h.claims[k].start <= s <= v.h.claims[k].end
  }

  /** Exactly the sequences of [0, top] are claimed, each by one claim. */
  lemma ClaimedOnce(v: State, s: int)
    requires Reachable(v)
    ensures 0 <= s <= v.Top() <==> exists k :: Covers(v, k, s)
    ensures forall j, k :: Covers(v, j, s) && Covers(v, k, s) ==> j == k
  {
    ReachableInv(v);
    if 0 <= s <= v.Top() {
      ClaimsCover(v, |v.h.claims| - 1, s);
      var k :| 0 <= k <= |v.h.claims| - 1 && v.h.claims[k].start <= s <= v.h.claims[k].end;
      assert Covers(v, k, s);
    }
    forall j, k | Covers(v, j, s) && Covers(v, k, s)
      ensures j == k
    {
      if j < k { ClaimsInOrder(v, j, k); }
      if k < j { ClaimsInOrder(v, k, j); }
    }
    forall k | Covers(v, k, s)
      ensures 0 <= s <= v.Top()
    {
      assert ClaimRecordOk(v, v.h.claims[k]);
    }
  }

  /** The sequences of a claim, and no others in its range, belong to its agent. */
  lemma ClaimOwnsRange(v: State, k: int, s: int)
    requires Reachable(v) && 0 <= k < |v.h.claims| && v.h.claims[k].start <= s <= v.h.claims[k].end
    ensures 0 <= s < |v.h.owner| && v.h.owner[s] == v.h.claims[k].agent
  {
    ReachableInv(v);
    assert ClaimRecordOk(v, v.h.claims[k]);
  }

  /** Every failed compare-and-swap of a claim call is charged to a distinct claim or close of another agent,
      and while no receiver moves at most `size` of them are followed by another attempt. */
  lemma FailuresCharged(v: State, a: nat)
    requires Reachable(v) && a < |v.agents| && v.agents[a].pc.Gating?
    ensures var t := v.agents[a].pc.gate.trail;
      t.winsAtStart + t.fails <= v.h.wins && (t.movesAtStart == v.h.moves ==> t.fails <= v.size)
  {
    ReachableInv(v);
    assert AgentOk(v, a, v.agents[a]);
    var g := v.agents[a].pc.gate;
    if g.trail.movesAtStart == v.h.moves && g.trail.fails > 0 {
      var j: nat :| j < |v.receivers| && v.Live(j);
      assert ReceiverOk(v, v.mem.consumed[j], v.receivers[j]);
    }
  }

  /** `available_slots` is never negative, and at most `size` whenever the compare-and-swap succeeds. */
  lemma AvailableInRange(v: State, a: nat)
    requires Reachable(v) && Enabled(v, Decide(a)) && v.agents[a].pc.gate.min != SHUTDOWN_OPEN
    ensures var g := v.agents[a].pc.gate;
      0 <= AvailableSlots(v.size, g.seen, g.min) &&
      I64_MIN <= g.seen - v.size && AvailableSlots(v.size, g.seen, g.min) <= I64_MAX &&
      (v.mem.claimed == g.seen ==> AvailableSlots(v.size, g.seen, g.min) <= v.size)
  {
    ReachableInv(v);
    PrefixBelowTop(v);
    assert AgentOk(v, a, v.agents[a]);
  }

  // ----- limits that do not fit -----

  const U64_MAX: int := 2 * I64_MAX + 1

  /** `limit as i64`. */
  function CastLimit(limit: int): int { Signed64(limit) }

  /** What the compare-and-swap would store for a limit given as a 64-bit `usize`. */
  function StoredFor(v: State, g: Gate, limit: int): int {
    g.seen + Min(AvailableSlots(v.size, g.seen, g.min), Min(CastLimit(limit), v.size))
  }

  /** A winning claim moves `claimed` forward if and only if its limit fits in an `i64`.  Otherwise what it stores reads
      as a shutdown nobody asked for, or lets the next claim start at a sequence that is claimed already. */
  lemma LimitFitsIff(v: State, a: nat, limit: int)
    requires Reachable(v) && a < |v.agents| && v.agents[a].pc.Gating? && CasWins(v, v.agents[a].pc.gate)
    requires 1 <= limit <= U64_MAX
    ensures var stored := StoredFor(v, v.agents[a].pc.gate, limit);
      && (stored > v.Top() <==> limit <= I64_MAX)
      && (limit > I64_MAX ==> stored < v.Top() && (HasShutdown(stored) || 0 <= stored + 1 <= v.Top()))
  {
    ReachableInv(v);
    assert AgentOk(v, a, v.agents[a]);
  }

  /** For the largest limit that is one step back: from 0 on the last claimed sequence is handed out again, and a fresh
      channel is shut down. */
  lemma LargestLimit(v: State, a: nat)
    requires Reachable(v) && a < |v.agents| && v.agents[a].pc.Gating? && CasWins(v, v.agents[a].pc.gate)
    ensures StoredFor(v, v.agents[a].pc.gate, U64_MAX) == v.Top() - 1
    ensures v.Top() == -1 ==> HasShutdown(StoredFor(v, v.agents[a].pc.gate, U64_MAX))
  {
    ReachableInv(v);
    assert AgentOk(v, a, v.agents[a]);
  }

  // ----- shutdown of the publisher side -----

  /** No claim can succeed any more. */
  ghost predicate NoMoreClaims(v: State) { HasShutdown(v.mem.claimed) || v.dropping }

  /** Storing the shutdown value, be it computed from an outdated load, shuts the publisher side down. */
  lemma CloseStoreShutsDown(v: State, a: nat)
    requires Reachable(v) && Enabled(v, CloseStore(a))
    ensures NoMoreClaims(TakeStep(v, CloseStore(a)))
    ensures !v.agents[a].pc.after.ToGone? ==> HasShutdown(TakeStep(v, CloseStore(a)).mem.claimed)
  {
    ReachableInv(v);
    assert AgentOk(v, a, v.agents[a]);
  }

  lemma NoMoreClaimsAgent(v: State, step: Step)
    requires WellFormed(v) && ClaimedOk(v) && Enabled(v, step) && NoMoreClaims(v) && !ByReceiver(step) && !step.Clone?
    requires AgentOk(v, step.a, v.agents[step.a])
    ensures NoMoreClaims(Apply(v, step)) && Apply(v, step).h.claims == v.h.claims
  {}

  lemma NoMoreClaimsStep(v: State, step: Step)
    requires Inv(v) && Enabled(v, step) && NoMoreClaims(v)
    ensures NoMoreClaims(Apply(v, step)) && Apply(v, step).h.claims == v.h.claims
  {
    if ByReceiver(step) {
      ReceiverFrame(v, step);
    } else if !step.Clone? {
      assert AgentOk(v, step.a, v.agents[step.a]);
      NoMoreClaimsAgent(v, step);
    }
  }

  /** From then on, whatever the other senders had loaded before, no claim ever succeeds. */
  lemma {:induction false} ShutdownAbsorbs(v: State, steps: seq<Step>, v': State)
    requires Reachable(v) && NoMoreClaims(v) && Run(v, steps, v')
    ensures NoMoreClaims(v') && v'.h.claims == v.h.claims
    decreases |steps|
  {
    if steps != [] {
      ReachableStep(v, steps[0]);
      ReachableInv(v);
      NoMoreClaimsStep(v, steps[0]);
      ShutdownAbsorbs(Apply(v, steps[0]), steps[1..], v');
    }
  }

  // ----- truthful outcomes -----

  /** Some state of the run had a full ring: all slots claimed and unread by the slowest live receiver. */
  ghost predicate FullDuring(v: State, steps: seq<Step>)
    decreases |steps|
  {
    || (WellFormed(v) && RingFull(v))
    || (steps != [] && FullDuring(TakeStep(v, steps[0]), steps[1..]))
  }

  lemma SawFullStep(v: State, step: Step, a: nat)
    requires WellFormed(v) && Enabled(v, step) && a < |v.agents| && !(step.StartClaim? && step.a == a)
    requires a < |Apply(v, step).agents| && Apply(v, step).agents[a].pc.Gating?
    requires Apply(v, step).agents[a].pc.gate.trail.sawFull
    ensures v.agents[a].pc.Gating? && (v.agents[a].pc.gate.trail.sawFull || RingFull(v))
  {}

  /** Agent `a` starts no further call in the run. */
  predicate SameCall(steps: seq<Step>, a: nat) {
    steps == [] || (!(steps[0].StartClaim? && steps[0].a == a) && SameCall(steps[1..], a))
  }

  ghost predicate SawFull(v: State, a: nat) {
    a < |v.agents| && v.agents[a].pc.Gating? && v.agents[a].pc.gate.trail.sawFull
  }

  lemma {:induction false} SawFullRun(v: State, steps: seq<Step>, v': State, a: nat)
    requires Inv(v) && Run(v, steps, v') && a < |v.agents| && SameCall(steps, a) && SawFull(v', a)
    ensures SawFull(v, a) || FullDuring(v, steps)
    decreases |steps|
  {
    if steps != [] {
      StepKeepsInv(v, steps[0]);
      SawFullRun(Apply(v, steps[0]), steps[1..], v', a);
      if SawFull(Apply(v, steps[0]), a) { SawFullStep(v, steps[0], a); }
    }
  }

  lemma FreshCall(v: State, a: nat, limit: int)
    requires WellFormed(v) && Enabled(v, StartClaim(a, limit))
    ensures !SawFull(Apply(v, StartClaim(a, limit)), a) && a < |Apply(v, StartClaim(a, limit)).agents|
  {}

  lemma FullSawFull(v: State, a: nat)
    requires Inv(v) && Enabled(v, Decide(a)) && Apply(v, Decide(a)).agents[a].pc == Idle(Full)
    ensures SawFull(v, a)
  {
    assert AgentOk(v, a, v.agents[a]);
  }

  /** A claim call that reports Full was right at some instant between its start and its decision. */
  lemma FullIsTruthful(v: State, a: nat, limit: int, steps: seq<Step>, v': State)
    requires Reachable(v) && Enabled(v, StartClaim(a, limit)) && SameCall(steps, a)
    requires Run(Apply(v, StartClaim(a, limit)), steps, v') && WellFormed(v') && Enabled(v', Decide(a))
    requires Apply(v', Decide(a)).agents[a].pc == Idle(Full)
    ensures FullDuring(Apply(v, StartClaim(a, limit)), steps)
  {
    ReachableInv(v);
    StepKeepsInv(v, StartClaim(a, limit));
    RunKeepsInv(Apply(v, StartClaim(a, limit)), steps, v');
    FreshCall(v, a, limit);
    FullSawFull(v', a);
    SawFullRun(Apply(v, StartClaim(a, limit)), steps, v', a);
  }

  /** A claim call that its gate turns away as Disconnected found every receiver dropped. */
  lemma DisconnectedIsTruthful(v: State, a: nat, j: nat)
    requires Reachable(v) && Enabled(v, Decide(a)) && v.agents[a].pc.gate.min == SHUTDOWN_OPEN
    requires j < |v.receivers|
    ensures TakeStep(v, Decide(a)).agents[a].pc == Idle(Disconnected) && !v.Live(j)
  {
    ReachableInv(v);
    PrefixBelowTop(v);
    assert AgentOk(v, a, v.agents[a]);
    assert ReceiverOk(v, v.mem.consumed[j], v.receivers[j]);
  }

  // ----- wake-ups -----

  /** A pending receiver whose next poll would succeed has had its waker fired, or some sender is between its
      store and the wake of this receiver. */
  lemma NoLostWakeup(v: State, i: nat)
    requires Reachable(v) && i < |v.receivers| && v.receivers[i].pc.Pending?
    requires v.mem.consumed[i] + 1 in v.h.published ||
             HasBit(v.mem.words[Index(v.mem.consumed[i] + 1, v.size)])
    ensures v.wakers[i].fired || exists a: nat :: a < |v.agents| && WillNotify(v.agents[a], i)
  {
    ReachableInv(v);
    assert WakeOk(v, i);
  }

  /** And while it waits without having been woken, its waker is registered. */
  lemma PendingIsRegistered(v: State, i: nat)
    requires Reachable(v) && i < |v.receivers| && v.receivers[i].pc.Pending? && !v.wakers[i].fired
    ensures v.wakers[i].registered
  {
    ReachableInv(v);
    assert WakeOk(v, i);
  }
}
