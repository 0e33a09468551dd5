/** The senders' code: the gate, the claim loop, publication, notification and closing. */
module PublisherCode {
  import opened Bits
  import opened RingMath
  import opened Machine
  import opened Claims
  import opened Runs
  import opened Shutdown
  import opened Safety
  import opened Closing
  import opened Interference
  import opened ChannelCode

  /** At some instant between `u` and `v` some live receiver had its cursor at `x`. */
  ghost predicate CursorSeen(u: State, v: State, x: int) {
    exists w: State, j: nat :: Leads(Nobody, u, w) && Leads(Nobody, w, v) && j < |w.receivers| == |w.mem.consumed| &&
      w.Live(j) && w.mem.consumed[j] == x
  }

  lemma CursorSeenKept(u: State, v: State, x: State, y: int)
    requires CursorSeen(u, v, y) && Leads(Nobody, v, x)
    ensures CursorSeen(u, x, y)
  {
    var w: State, j: nat :| Leads(Nobody, u, w) && Leads(Nobody, w, v) && j < |w.receivers| == |w.mem.consumed| &&
      w.Live(j) && w.mem.consumed[j] == y;
    LeadsTrans(Nobody, w, v, x);
  }

  /** What the claim loop knows after it has read some cursors, the least of which was `min`, since the call began. */
  ghost predicate Gated(v0: State, v: State, a: nat, n: int, seen: int, next: nat, min: int) {
    && Leads(Nobody, v0, v) && a < |v.agents| && v.agents[a].pc.Gating? && v.agents[a].claim.NoClaim?
    && (var g := v.agents[a].pc.gate;
        && g.n == n && g.seen == seen && g.next == next && g.min == min
        && (g.trail.sawFull ==> FullSince(v0, v)))
    && (min != SHUTDOWN_OPEN ==> CursorSeen(v0, v, min))
    && DoneBy(v, a) == DoneBy(v0, a)
  }

  lemma GatedOn(v0: State, v: State, v': State, a: nat, n: int, seen: int, next: nat, min: int)
    requires Gated(v0, v, a, n, seen, next, min) && Leads(Nobody, v, v') && AgentView(v, v', a)
    ensures Gated(v0, v', a, n, seen, next, min)
  {
    LeadsTrans(Nobody, v0, v, v');
    if min != SHUTDOWN_OPEN { CursorSeenKept(v0, v, v', min); }
    if v.agents[a].pc.gate.trail.sawFull { FullSinceTrans(v0, v0, v, v'); }
  }

  /** The step that reads the next cursor. */
  lemma GatedReads(v0: State, v: State, a: nat, n: int, seen: int, i: nat, min: int)
    requires Reachable(v) && Gated(v0, v, a, n, seen, i, min) && i < |v.mem.consumed| == |v.receivers|
    requires Leads(Nobody, v, DoReadCursor(v, a))
    ensures Gated(v0, DoReadCursor(v, a), a, n, seen, i + 1, Min(min, v.mem.consumed[i]))
  {
    var v' := DoReadCursor(v, a);
    LeadsTrans(Nobody, v0, v, v');
    if min != SHUTDOWN_OPEN { CursorSeenKept(v0, v, v', min); }
    if v.mem.consumed[i] != SHUTDOWN_OPEN {
      OpenIsLive(v, i);
      assert CursorSeen(v0, v', v.mem.consumed[i]);
    }
    if v.agents[a].pc.gate.trail.sawFull { FullSinceTrans(v0, v0, v, v'); }
    if RingFull(v) { assert FullSince(v0, v'); }
  }

  lemma OpenIsLive(v: State, i: nat)
    requires Reachable(v) && i < |v.receivers| && v.mem.consumed[i] != SHUTDOWN_OPEN
    ensures v.Live(i)
  {
    Backpressure(v, i);
  }

  /** The minimum over the consumer cursors, read one at a time while receivers and senders go on. */
  method MaxConsumed(c: Channel, ghost a: nat, ghost n: int, ghost seen: int, ghost horizon: int, ghost v0: State)
    returns (min: int, shutdown: bool)
    requires c.Valid() && c.v.Top() <= horizon && Gated(v0, c.v, a, n, seen, 0, SHUTDOWN_OPEN)
    modifies c`claimed, c`v, c.states, c.slots, c.consumed
    ensures c.Valid() && c.v.Top() <= horizon && shutdown == (min == SHUTDOWN_OPEN)
    ensures Gated(v0, c.v, a, n, seen, |c.v.mem.consumed|, min)
  {
    min := SHUTDOWN_OPEN;
    for i := 0 to c.consumed.Length
      invariant c.Valid() && c.v.Top() <= horizon && Gated(v0, c.v, a, n, seen, i, min)
    {
      ghost var v1 := c.v;
      c.YieldSender(a, horizon);
      ghost var v2 := c.v;
      GatedOn(v0, v1, v2, a, n, seen, i, min);
      var value := c.LoadCursor(a, i);
      GatedReads(v0, v2, a, n, seen, i, min);
      min := Min(min, value);
    }
    shutdown := min == SHUTDOWN_OPEN;
  }

  /** A claim call that began in `v0` was turned away: the agent has done nothing. */
  ghost predicate TurnedAway(v0: State, v: State, a: nat, why: SendOutcome) {
    && Leads(Nobody, v0, v) && a < |v.agents| && v.agents[a] == Agent(Idle(why), NoClaim)
    && DoneBy(v, a) == DoneBy(v0, a)
  }

  /** A claim call that began in `v0` got [start, end]: that, and nothing else, is what the agent has done.  It is as
      much as was asked for, or as much as some live receiver left free at some instant of the call. */
  ghost predicate Got(v0: State, v: State, a: nat, start: int, end: int, n: int) {
    && Leads(Nobody, v0, v) && Held(v, a, start, end, start)
    && |v0.h.log| <= start <= end <= v.Top() && end - start + 1 <= n
    && DoneBy(v, a) == DoneBy(v0, a).(claims := DoneBy(v0, a).claims + [ClaimRecord(a, start, end, n)])
    && (end - start + 1 == n || CursorSeen(v0, v, end - v.size))
  }

  /** The head of the claim loop: `claimed` has just been seen as `seen`. */
  ghost predicate AtLoopHead(c: Channel, v0: State, a: nat, n: int, seen: int, horizon: int)
    reads c, c.states, c.slots, c.consumed
  {
    && c.Valid() && c.v.Top() <= horizon
    && if HasShutdown(seen) then TurnedAway(v0, c.v, a, Disconnected) && seen == c.claimed
       else -1 <= seen <= horizon && Gated(v0, c.v, a, n, seen, 0, SHUTDOWN_OPEN)
  }

  /** The compare-and-swap of the loop, which others may have overtaken. */
  method TrySwap(c: Channel, ghost a: nat, ghost n: int, seen: int, desired: int, ghost min: int, ghost horizon: int,
                 ghost v0: State)
    returns (ok: bool, observed: int)
    requires c.Valid() && c.v.Top() <= horizon && horizon + 2 * c.size < I64_MAX && Reachable(v0)
    requires Gated(v0, c.v, a, n, seen, |c.v.mem.consumed|, min) && min != SHUTDOWN_OPEN
    requires AvailableSlots(c.size, seen, min) > 0 && desired == seen + Min(AvailableSlots(c.size, seen, min), n)
    modifies c`claimed, c`v, c.states, c.slots, c.consumed
    ensures c.Valid() && c.v.Top() <= horizon + c.size
    ensures ok ==> Got(v0, c.v, a, seen + 1, desired, n)
    ensures !ok ==> AtLoopHead(c, v0, a, n, observed, horizon) && (HasShutdown(observed) || observed > seen)
  {
    ghost var v1 := c.v;
    c.YieldSender(a, horizon);
    ghost var v2 := c.v;
    GatedOn(v0, v1, v2, a, n, seen, |v1.mem.consumed|, min);
    GateFacts(v2, a);
    ClaimedFacts(v2);
    ok, observed := c.CompareExchange(a, seen, desired);
    if ok { SwapWon(v0, v2, a, n, seen, desired, min); } else { SwapLost(v0, v2, a, n, seen, min); }
  }

  /** What the compare-and-swap makes of what the claim loop knows: if it wins, */
  lemma SwapWon(v0: State, v: State, a: nat, n: int, seen: int, desired: int, min: int)
    requires Reachable(v0) && Reachable(v) && Gated(v0, v, a, n, seen, |v.mem.consumed|, min) && min != SHUTDOWN_OPEN
    requires Enabled(v, Decide(a)) && AvailableSlots(v.size, seen, min) > 0 && n > 0 && v.mem.claimed == seen
    requires desired == seen + Min(AvailableSlots(v.size, seen, min), n) && Leads(Nobody, v, DoDecide(v, a))
    ensures Got(v0, DoDecide(v, a), a, seen + 1, desired, n)
  {
    LeadsHistory(v0, v);
    LeadsTrans(Nobody, v0, v, DoDecide(v, a));
    CursorSeenKept(v0, v, DoDecide(v, a), min);
    SwapHolds(v, a, n, seen, desired, min);
  }

  lemma SwapHolds(v: State, a: nat, n: int, seen: int, desired: int, min: int)
    requires Reachable(v) && Enabled(v, Decide(a)) && v.agents[a].pc.Gating? && v.mem.claimed == seen
    requires var g := v.agents[a].pc.gate; g.n == n && g.seen == seen && g.min == min && g.next == |v.mem.consumed|
    requires AvailableSlots(v.size, seen, min) > 0 && n > 0 && min != SHUTDOWN_OPEN
    requires desired == seen + Min(AvailableSlots(v.size, seen, min), n)
    ensures v.Top() == seen && DoDecide(v, a).size == v.size
    ensures Held(DoDecide(v, a), a, seen + 1, desired, seen + 1) && DoDecide(v, a).Top() == desired
    ensures DoneBy(DoDecide(v, a), a) ==
            DoneBy(v, a).(claims := DoneBy(v, a).claims + [ClaimRecord(a, seen + 1, desired, n)])
  {
    SwapWins(v, a);
    DecideDone(v, a, a);
  }

  lemma SwapWins(v: State, a: nat)
    requires Reachable(v) && Enabled(v, Decide(a)) && v.agents[a].pc.Gating?
    requires var g := v.agents[a].pc.gate;
      && v.mem.claimed == g.seen && g.next == |v.mem.consumed| && g.min != SHUTDOWN_OPEN
      && AvailableSlots(v.size, g.seen, g.min) > 0
    ensures var g := v.agents[a].pc.gate; CasWins(v, g) && Wanted(v.size, g) > 0 && v.Top() == g.seen
  {
    GateFacts(v, a);
    ClaimedFacts(v);
  }

  /** and if it was overtaken. */
  lemma SwapLost(v0: State, v: State, a: nat, n: int, seen: int, min: int)
    requires Reachable(v) && Gated(v0, v, a, n, seen, |v.mem.consumed|, min) && min != SHUTDOWN_OPEN
    requires Enabled(v, Decide(a)) && AvailableSlots(v.size, seen, min) > 0 && n > 0 && v.mem.claimed != seen
    requires Leads(Nobody, v, DoDecide(v, a))
    ensures if HasShutdown(v.mem.claimed) then TurnedAway(v0, DoDecide(v, a), a, Disconnected)
            else v.mem.claimed > seen && Gated(v0, DoDecide(v, a), a, n, v.mem.claimed, 0, SHUTDOWN_OPEN)
  {
    var v' := DoDecide(v, a);
    GateFacts(v, a);
    ClaimedFacts(v);
    LeadsTrans(Nobody, v0, v, v');
    DecideDone(v, a, a);
    if v.agents[a].pc.gate.trail.sawFull { FullSinceTrans(v0, v0, v, v'); }
  }

  /** The claim loop ends without another access. */
  ghost method Reject(c: Channel, a: nat, n: int, seen: int, min: int, v0: State)
    requires c.Valid() && n > 0 && Gated(v0, c.v, a, n, seen, |c.v.mem.consumed|, min)
    requires min == SHUTDOWN_OPEN || AvailableSlots(c.size, seen, min) <= 0
    modifies c`v
    ensures c.Valid() && c.v.Top() == old(c.v).Top()
    ensures if min == SHUTDOWN_OPEN then TurnedAway(v0, c.v, a, Disconnected) && AllDropped(c.v)
            else TurnedAway(v0, c.v, a, Full) && FullSince(v0, c.v)
  {
    ghost var v := c.v;
    GateFacts(v, a);
    c.GiveUp(a);
    LeadsTrans(Nobody, v0, v, c.v);
    if min != SHUTDOWN_OPEN { FullSinceTrans(v0, v0, v, c.v); }
  }

  /** `try_claim_at_most`: the compare-and-swap loop on `claimed`, gated by the consumers. */
  method TryClaimAtMost(c: Channel, ghost a: nat, limit: int, ghost horizon: int) returns (r: ClaimResult)
    requires c.Valid() && c.v.Top() <= horizon && horizon + 2 * c.size < I64_MAX
    requires a < |c.v.agents| && c.v.agents[a].pc.Idle? && !c.v.dropping && 1 <= limit <= I64_MAX
    modifies c`claimed, c`v, c.states, c.slots, c.consumed
    ensures c.Valid() && Leads(Nobody, old(c.v), c.v) && c.v.Top() <= horizon + c.size && a < |c.v.agents|
    ensures match r
      case Ok(start, end) => Got(old(c.v), c.v, a, start, end, Min(limit, c.size))
      case ErrEmpty => TurnedAway(old(c.v), c.v, a, Full) && FullSince(old(c.v), c.v)
      case ErrShutdown => TurnedAway(old(c.v), c.v, a, Disconnected) && (HasShutdown(c.claimed) || AllDropped(c.v))
  {
    ghost var v0 := c.v;
    ClaimedFacts(v0);
    var n := Min(limit, c.size);
    var lastClaimed := c.LoadClaimed(a, limit);
    while true
      invariant AtLoopHead(c, v0, a, n, lastClaimed, horizon)
      decreases if HasShutdown(lastClaimed) then 0 else 1 + horizon - lastClaimed
    {
      if HasShutdown(lastClaimed) {
        return ErrShutdown;
      }
      var startSeq := lastClaimed + 1;
      var maxConsumed, gone := MaxConsumed(c, a, n, lastClaimed, horizon, v0);
      if gone {
        Reject(c, a, n, lastClaimed, maxConsumed, v0);
        return ErrShutdown;
      }
      var availableCapacity := AvailableSlots(c.size, lastClaimed, maxConsumed);
      var maxAvailable := lastClaimed + availableCapacity;
      if startSeq > maxAvailable {
        Reject(c, a, n, lastClaimed, maxConsumed, v0);
        return ErrEmpty;
      }
      var available := Min(maxAvailable - lastClaimed, n);
      var highest := lastClaimed + available;
      var ok, observed := TrySwap(c, a, n, lastClaimed, highest, maxConsumed, horizon, v0);
      if ok {
        return Ok(startSeq, highest);
      }
      lastClaimed := observed;
    }
  }

  // ----- publication -----

  /** Between `u` and `v` agent `a` took the step that wakes receiver `j`. */
  ghost predicate WokeDuring(u: State, v: State, a: nat, j: nat) {
    exists w: State :: Leads(Nobody, u, w) && WellFormed(w) && Enabled(w, Wake(a)) && w.agents[a].pc.next == j &&
      Leads(Nobody, DoWake(w, a), v)
  }

  /** Between `u` and `v` it woke the first `n` receivers. */
  ghost predicate WokeFirst(u: State, v: State, a: nat, n: nat) {
    forall j: nat :: j < n ==> WokeDuring(u, v, a, j)
  }

  lemma WokeDuringKept(t: State, u: State, v: State, x: State, a: nat, j: nat)
    requires Leads(Nobody, t, u) && WokeDuring(u, v, a, j) && Leads(Nobody, v, x)
    ensures WokeDuring(t, x, a, j)
  {
    var w: State :| Leads(Nobody, u, w) && WellFormed(w) && Enabled(w, Wake(a)) && w.agents[a].pc.next == j &&
      Leads(Nobody, DoWake(w, a), v);
    LeadsTrans(Nobody, t, u, w);
    LeadsTrans(Nobody, DoWake(w, a), v, x);
  }

  lemma WokeFirstKept(u: State, v: State, x: State, a: nat, n: nat)
    requires WokeFirst(u, v, a, n) && Leads(Nobody, u, v) && Leads(Nobody, v, x)
    ensures WokeFirst(u, x, a, n) && Leads(Nobody, u, x)
  {
    LeadsTrans(Nobody, u, v, x);
    forall j: nat | j < n
      ensures WokeDuring(u, x, a, j)
    {
      WokeDuringKept(u, u, v, x, a, j);
    }
  }

  lemma WokeNext(u: State, v: State, x: State, a: nat, n: nat)
    requires WokeFirst(u, v, a, n) && Leads(Nobody, u, v) && Leads(Nobody, v, x) && WokeDuring(v, x, a, n)
    ensures WokeFirst(u, x, a, n + 1) && Leads(Nobody, u, x)
  {
    WokeFirstKept(u, v, x, a, n);
    WokeDuringKept(u, v, x, x, a, n);
  }

  /** One `wake` of `notify`, after the others ran. */
  method WakeNext(c: Channel, ghost a: nat, ghost after: After, j: nat, ghost horizon: int)
    requires c.Valid() && c.v.Top() <= horizon && a < |c.v.agents| && c.v.agents[a].pc == Notifying(j, after)
    requires j < |c.v.wakers|
    modifies c`claimed, c`v, c.states, c.slots, c.consumed
    ensures c.Valid() && Leads(Nobody, old(c.v), c.v) && c.v.Top() <= horizon && a < |c.v.agents|
    ensures c.v.agents[a] == Agent(Notifying(j + 1, after), old(c.v.agents[a].claim))
    ensures |c.v.wakers| == |old(c.v).wakers| && WokeDuring(old(c.v), c.v, a, j)
    ensures DoneBy(c.v, a) == DoneBy(old(c.v), a)
  {
    ghost var v1 := c.v;
    c.YieldSender(a, horizon);
    ghost var v2 := c.v;
    c.WakeOne(a, j);
    LeadsTrans(Nobody, v1, v2, c.v);
  }

  /** `notify`: the wakers one after the other, each of them. */
  method Notify(c: Channel, ghost a: nat, ghost after: After, ghost horizon: int)
    requires c.Valid() && c.v.Top() <= horizon && a < |c.v.agents| && c.v.agents[a].pc == Notifying(0, after)
    modifies c`claimed, c`v, c.states, c.slots, c.consumed
    ensures c.Valid() && Leads(Nobody, old(c.v), c.v) && c.v.Top() <= horizon && a < |c.v.agents|
    ensures c.v.agents[a] == Agent(Resumed(after), old(c.v.agents[a].claim))
    ensures WokeFirst(old(c.v), c.v, a, |c.v.receivers|) && DoneBy(c.v, a) == DoneBy(old(c.v), a)
  {
    ghost var v0 := c.v;
    for j := 0 to c.consumed.Length
      invariant c.Valid() && Leads(Nobody, v0, c.v) && c.v.Top() <= horizon && a < |c.v.agents|
      invariant c.v.agents[a] == Agent(Notifying(j, after), v0.agents[a].claim)
      invariant WokeFirst(v0, c.v, a, j) && DoneBy(c.v, a) == DoneBy(v0, a)
    {
      ghost var v1 := c.v;
      WakeNext(c, a, after, j, horizon);
      WokeNext(v0, v1, c.v, a, j);
    }
    ghost var v3 := c.v;
    c.ReturnFromNotify(a);
    WokeFirstKept(v0, v3, c.v, a, c.consumed.Length);
  }

  /** `publish_range`: the flags of [start, end], one after the other. */
  method PublishRange(c: Channel, ghost a: nat, start: int, end: int, ghost horizon: int)
    requires c.Valid() && c.v.Top() <= horizon && start <= end && Held(c.v, a, start, end, end + 1)
    modifies c`claimed, c`v, c.states, c.slots, c.consumed
    ensures c.Valid() && Leads(Nobody, old(c.v), c.v) && c.v.Top() <= horizon
    ensures a < |c.v.agents| && c.v.agents[a] == Agent(Notifying(0, ToSent), NoClaim)
    ensures DoneBy(c.v, a) == DoneBy(old(c.v), a) && forall s :: start <= s <= end ==> s in c.v.h.published
  {
    ghost var v0 := c.v;
    for seqn := start to end + 1
      invariant c.Valid() && Leads(Nobody, v0, c.v) && c.v.Top() <= horizon && a < |c.v.agents|
      invariant c.v.agents[a] == if seqn <= end then Agent(Holding, Claim(start, end, end + 1, seqn))
                                 else Agent(Notifying(0, ToSent), NoClaim)
      invariant DoneBy(c.v, a) == DoneBy(v0, a) && forall s :: start <= s < seqn ==> s in c.v.h.published
    {
      ghost var v1 := c.v;
      c.YieldSender(a, horizon);
      ghost var v2 := c.v;
      c.StoreFlag(a, seqn);
      LeadsTrans(Nobody, v0, v1, v2);
      LeadsTrans(Nobody, v0, v2, c.v);
    }
  }

  /** The range was published at some instant, and every receiver was woken after it. */
  ghost predicate PublishedThenWoke(u: State, v: State, a: nat, start: int, end: int) {
    exists w: State :: Leads(Nobody, u, w) && (forall s :: start <= s <= end ==> s in w.h.published) &&
      WokeFirst(w, v, a, |v.receivers|)
  }

  /** `commit_range`: publish, then notify.  What is published is what the permits wrote. */
  method CommitRange(c: Channel, ghost a: nat, start: int, end: int, ghost horizon: int)
    requires c.Valid() && c.v.Top() <= horizon && Held(c.v, a, start, end, end + 1)
    modifies c`claimed, c`v, c.states, c.slots, c.consumed
    ensures c.Valid() && Leads(Nobody, old(c.v), c.v) && c.v.Top() <= horizon
    ensures a < |c.v.agents| && c.v.agents[a] == Agent(Idle(Sent), NoClaim)
    ensures 0 <= start <= end < |old(c.v).h.log| <= |c.v.h.log|
    ensures forall s :: start <= s <= end ==> s in c.v.h.published && c.v.h.log[s] == old(c.v).h.log[s]
    ensures PublishedThenWoke(old(c.v), c.v, a, start, end) && DoneBy(c.v, a) == DoneBy(old(c.v), a)
  {
    ghost var v0 := c.v;
    HeldFacts(v0, a, start, end, end + 1);
    PublishRange(c, a, start, end, horizon);
    ghost var v1 := c.v;
    Notify(c, a, ToSent, horizon);
    LeadsTrans(Nobody, v0, v1, c.v);
    LeadsHistory(v1, c.v);
    LeadsHistory(v0, c.v);
  }

  // ----- closing -----

  /** At some instant between `u` and `v` the slot of `s` carried, or did not carry, the flag of `s`. */
  ghost predicate SeenMatch(u: State, v: State, s: int, yes: bool) {
    exists w: State :: Leads(Nobody, u, w) && Leads(Nobody, w, v) && WellFormed(w) &&
      (Matches(w.size, w.mem.words, s) <==> yes)
  }

  lemma SeenMatchKept(t: State, u: State, v: State, x: State, s: int, yes: bool)
    requires Leads(Nobody, t, u) && SeenMatch(u, v, s, yes) && Leads(Nobody, v, x)
    ensures SeenMatch(t, x, s, yes)
  {
    var w: State :| Leads(Nobody, u, w) && Leads(Nobody, w, v) && WellFormed(w) &&
      (Matches(w.size, w.mem.words, s) <==> yes);
    LeadsTrans(Nobody, t, u, w);
    LeadsTrans(Nobody, w, v, x);
  }

  ghost predicate Matched(u: State, v: State, start: int, stop: int) {
    forall s :: start <= s < stop ==> SeenMatch(u, v, s, true)
  }

  lemma MatchedKept(u: State, v: State, x: State, start: int, stop: int)
    requires Matched(u, v, start, stop) && Leads(Nobody, v, x)
    ensures Matched(u, x, start, stop)
  {
    forall s | start <= s < stop
      ensures SeenMatch(u, x, s, true)
    {
      SeenMatchKept(u, u, v, x, s, true);
    }
  }

  lemma MatchedNext(u: State, v: State, x: State, start: int, s: int, yes: bool)
    requires Matched(u, v, start, s) && Leads(Nobody, u, v) && Leads(Nobody, v, x) && SeenMatch(v, x, s, yes)
    ensures Leads(Nobody, u, x) && Matched(u, x, start, s) && SeenMatch(u, x, s, yes)
    ensures yes ==> Matched(u, x, start, s + 1)
  {
    LeadsTrans(Nobody, u, v, x);
    MatchedKept(u, v, x, start, s);
    SeenMatchKept(u, v, x, x, s, yes);
  }

  /** A scan between `u` and `v` matched every sequence of [start, stop - 1], and mismatched at `stop` if that is
      not beyond `end`. */
  ghost predicate Scanned(u: State, v: State, start: int, end: int, stop: int) {
    start <= stop <= end + 1 && Matched(u, v, start, stop) && (stop <= end ==> SeenMatch(u, v, stop, false))
  }

  lemma ScannedSince(t: State, u: State, v: State, start: int, end: int, stop: int)
    requires Leads(Nobody, t, u) && Scanned(u, v, start, end, stop)
    ensures Scanned(t, v, start, end, stop)
  {
    forall s | start <= s < stop
      ensures SeenMatch(t, v, s, true)
    {
      SeenMatchKept(t, u, v, v, s, true);
    }
    if stop <= end { SeenMatchKept(t, u, v, v, stop, false); }
  }

  /** One iteration of the scan: does the slot carry the flag of `seqn`? */
  method SlotMatches(c: Channel, ghost a: nat, seqn: int, ghost horizon: int) returns (matches: bool)
    requires c.Valid() && c.v.Top() <= horizon && Enabled(c.v, CloseInspect(a)) && c.v.agents[a].pc.at == seqn
    modifies c`claimed, c`v, c.states, c.slots, c.consumed
    ensures c.Valid() && Leads(Nobody, old(c.v), c.v) && c.v.Top() <= horizon && a < |c.v.agents|
    ensures c.v.agents[a] == Agent(ScannedForClose(old(c.v.agents[a].pc), matches), old(c.v.agents[a].claim))
    ensures SeenMatch(old(c.v), c.v, seqn, matches) && DoneBy(c.v, a) == DoneBy(old(c.v), a)
  {
    ghost var v1 := c.v;
    c.YieldSender(a, horizon);
    ghost var v2 := c.v;
    var _, flag := c.SlotState(seqn);
    var word := c.LoadForScan(a, seqn);
    LeadsTrans(Nobody, v1, v2, c.v);
    var lap := c.LapOf(word);
    matches := lap == flag;
    assert Matches(v2.size, v2.mem.words, seqn) <==> matches;
  }

  /** Agent `a`, whose scan began in `u`, has matched the sequences of [start, at - 1]. */
  ghost predicate InScan(u: State, v: State, a: nat, raw: int, start: int, at: int, after: After) {
    && Leads(Nobody, u, v) && Matched(u, v, start, at) && a < |u.agents| && a < |v.agents|
    && DoneBy(v, a) == DoneBy(u, a)
    && v.agents[a] == Agent(if at <= LastClaimed(raw) then CloseScanning(raw, at, after)
                            else CloseMarking(raw, at, after), u.agents[a].claim)
  }

  /** The next iteration of the scan. */
  method ScanNext(c: Channel, ghost a: nat, ghost raw: int, ghost start: int, seqn: int, ghost after: After,
                  ghost horizon: int, ghost u: State)
    returns (matches: bool)
    requires c.Valid() && c.v.Top() <= horizon && InScan(u, c.v, a, raw, start, seqn, after)
    requires start <= seqn <= LastClaimed(raw)
    modifies c`claimed, c`v, c.states, c.slots, c.consumed
    ensures c.Valid() && c.v.Top() <= horizon && a < |c.v.agents|
    ensures matches ==> InScan(u, c.v, a, raw, start, seqn + 1, after)
    ensures !matches ==>
      && Leads(Nobody, u, c.v) && c.v.agents[a] == Agent(CloseMarking(raw, seqn, after), u.agents[a].claim)
      && DoneBy(c.v, a) == DoneBy(u, a)
      && Scanned(u, c.v, start, LastClaimed(raw), seqn)
  {
    ghost var v1 := c.v;
    matches := SlotMatches(c, a, seqn, horizon);
    MatchedNext(u, v1, c.v, start, seqn, matches);
  }

  /** `scan_last_available`: the last contiguously published sequence of [start, end]. */
  method ScanLastAvailable(c: Channel, ghost a: nat, start: int, end: int, ghost raw: int, ghost after: After,
                           ghost horizon: int)
    returns (lastAvailable: int)
    requires c.Valid() && c.v.Top() <= horizon && start <= end == LastClaimed(raw)
    requires a < |c.v.agents| && c.v.agents[a].pc == CloseScanning(raw, start, after)
    modifies c`claimed, c`v, c.states, c.slots, c.consumed
    ensures c.Valid() && Leads(Nobody, old(c.v), c.v) && c.v.Top() <= horizon && a < |c.v.agents|
    ensures c.v.agents[a] == Agent(CloseMarking(raw, lastAvailable + 1, after), old(c.v.agents[a].claim))
    ensures Scanned(old(c.v), c.v, start, end, lastAvailable + 1) && DoneBy(c.v, a) == DoneBy(old(c.v), a)
  {
    ghost var v0 := c.v;
    lastAvailable := start - 1;
    for seqn := start to end + 1
      invariant c.Valid() && c.v.Top() <= horizon && lastAvailable == seqn - 1
      invariant InScan(v0, c.v, a, raw, start, seqn, after)
    {
      var matches := ScanNext(c, a, raw, start, seqn, after, horizon, v0);
      if !matches { break; }
      lastAvailable := seqn;
    }
  }

  /** The whole scan of a close, if anything was ever claimed. */
  method ScanWindow(c: Channel, ghost a: nat, lastClaimed: int, ghost raw: int, ghost after: After, ghost horizon: int)
    returns (boundary: int)
    requires c.Valid() && c.v.Top() <= horizon && 0 <= lastClaimed == LastClaimed(raw) && a < |c.v.agents|
    requires c.v.agents[a].pc == CloseScanning(raw, WindowStart(c.size, lastClaimed), after)
    modifies c`claimed, c`v, c.states, c.slots, c.consumed
    ensures c.Valid() && Leads(Nobody, old(c.v), c.v) && c.v.Top() <= horizon && a < |c.v.agents|
    ensures c.v.agents[a] == Agent(CloseMarking(raw, boundary, after), old(c.v.agents[a].claim))
    ensures Scanned(old(c.v), c.v, WindowStart(c.size, lastClaimed), lastClaimed, boundary)
    ensures DoneBy(c.v, a) == DoneBy(old(c.v), a)
  {
    var windowStart := Max(lastClaimed - (c.size - 1), 0);
    var lastPublished := ScanLastAvailable(c, a, windowStart, lastClaimed, raw, after, horizon);
    boundary := lastPublished + 1;
  }

  /** Nothing was claimed, published or given up in between. */
  ghost predicate EndedAt(v: State, v': State) {
    v'.size == v.size && Ended(v.h, v'.h) && LastClaimed(v'.mem.claimed) == LastClaimed(v.mem.claimed)
  }

  /** `v` comes after the load with which the close of agent `a` began in `u`. */
  ghost predicate AfterLoad(u: State, v: State, a: nat, after: After) {
    a < |u.agents| && Leads(Nobody, DoCloseLoad(u, a, after), v)
  }

  /** `gone` was given up between `u` and `v`, with the entries it had. */
  ghost predicate GivenUpAt(u: State, v: State, gone: set<int>) {
    && gone <= v.h.abandoned && |u.h.log| <= |v.h.log|
    && forall s :: s in gone && 0 <= s < |u.h.log| ==> v.h.log[s] == u.h.log[s]
  }

  lemma ClosingHistory(u: State, v: State, a: nat, after: After)
    requires Reachable(u) && Enabled(u, CloseLoad(a, after)) && AfterLoad(u, v, a, after)
    ensures after.ToPoisoned? ==> GivenUpAt(u, v, Unpublished(u.agents[a].claim))
    ensures after.ToGone? ==> EndedAt(u, v)
  {
    ReachableStep(u, CloseLoad(a, after));
    LeadsHistory(DoCloseLoad(u, a, after), v);
  }

  /** The load of `close`, and the sequence the loaded value stands for. */
  method LoadLastClaimed(c: Channel, ghost a: nat, ghost after: After) returns (raw: int, lastClaimed: int)
    requires c.Valid() && Enabled(c.v, CloseLoad(a, after))
    modifies c`v
    ensures c.Valid() && Leads(Nobody, old(c.v), c.v) && c.v.Top() == old(c.v).Top()
    ensures a < |old(c.v).agents| && c.v == DoCloseLoad(old(c.v), a, after)
    ensures raw == c.claimed && lastClaimed == LastClaimed(raw) >= -1
  {
    ghost var v0 := c.v;
    raw := c.LoadForClose(a, after);
    ClaimedFacts(v0);
    ClaimedBits(raw);
    ClosingFacts(c.v, a);
    lastClaimed := if HasShutdown(raw) then AndI64(raw, VALUE_MASK) else raw;
  }

  /** The first part of `close`: what it loads from `claimed`, and where it puts the boundary: a scan of the last
      `size` claimed sequences ended there. */
  method FindBoundary(c: Channel, ghost a: nat, ghost after: After, ghost horizon: int)
    returns (raw: int, boundary: int)
    requires c.Valid() && c.v.Top() <= horizon && Enabled(c.v, CloseLoad(a, after))
    modifies c`claimed, c`v, c.states, c.slots, c.consumed
    ensures c.Valid() && Leads(Nobody, old(c.v), c.v) && c.v.Top() <= horizon && a < |c.v.agents|
    ensures c.v.agents[a] == Agent(CloseMarking(raw, boundary, after),
                                   if after.ToPoisoned? then NoClaim else old(c.v.agents[a].claim))
    ensures raw == old(c.claimed) && AfterLoad(old(c.v), c.v, a, after) && DoneBy(c.v, a) == DoneBy(old(c.v), a)
    ensures if LastClaimed(raw) < 0 then boundary == 0
            else Scanned(old(c.v), c.v, WindowStart(c.size, LastClaimed(raw)), LastClaimed(raw), boundary)
  {
    ghost var v0 := c.v;
    var lastClaimed;
    raw, lastClaimed := LoadLastClaimed(c, a, after);
    ghost var v1 := c.v;
    if lastClaimed < 0 {
      boundary := lastClaimed + 1;
    } else {
      boundary := ScanWindow(c, a, lastClaimed, raw, after, horizon);
      LeadsTrans(Nobody, v0, v1, c.v);
      ScannedSince(v0, v1, c.v, WindowStart(c.size, lastClaimed), lastClaimed, boundary);
    }
  }

  /** What agent `a` did, with one close more. */
  function ClosedOnce(d: Doings): Doings { d.(closes := d.closes + 1) }

  /** At some instant the agent's close had planted its mark and stored `claimed`, and after it every receiver was
      woken. */
  ghost predicate ClosedThenWoke(u: State, v: State, a: nat, after: After) {
    exists w: State :: Leads(Nobody, u, w) && a < |w.agents| && w.agents[a].pc == Notifying(0, after) &&
      NoMoreClaims(w) && (after.ToGone? ==> w.h.mark >= 0) && DoneBy(w, a) == DoneBy(v, a) &&
      WokeFirst(w, v, a, |v.receivers|)
  }

  lemma ClosedThenWokeSince(t: State, u: State, v: State, a: nat, after: After)
    requires Leads(Nobody, t, u) && ClosedThenWoke(u, v, a, after)
    ensures ClosedThenWoke(t, v, a, after)
  {
    var w: State :| Leads(Nobody, u, w) && a < |w.agents| && w.agents[a].pc == Notifying(0, after) &&
      NoMoreClaims(w) && (after.ToGone? ==> w.h.mark >= 0) && DoneBy(w, a) == DoneBy(v, a) &&
      WokeFirst(w, v, a, |v.receivers|);
    LeadsTrans(Nobody, t, u, w);
  }

  /** `close`: mark the first unpublished slot, then block the other senders, then notify. */
  method Close(c: Channel, ghost a: nat, ghost after: After, ghost horizon: int)
    requires c.Valid() && c.v.Top() <= horizon && Enabled(c.v, CloseLoad(a, after))
    modifies c`claimed, c`v, c.states, c.slots, c.consumed
    ensures c.Valid() && Leads(Nobody, old(c.v), c.v) && c.v.Top() <= horizon && NoMoreClaims(c.v)
    ensures a < |c.v.agents| && c.v.agents[a] ==
      Agent(Resumed(after), if after.ToPoisoned? then NoClaim else old(c.v.agents[a].claim))
    ensures after.ToGone? ==> c.v.h.mark >= 0 && EndedAt(old(c.v), c.v)
    ensures after.ToPoisoned? ==> GivenUpAt(old(c.v), c.v, Unpublished(old(c.v.agents[a].claim)))
    ensures AfterLoad(old(c.v), c.v, a, after)
    ensures ClosedThenWoke(old(c.v), c.v, a, after) && DoneBy(c.v, a) == ClosedOnce(DoneBy(old(c.v), a))
  {
    ghost var v0 := c.v;
    var raw, boundary := FindBoundary(c, a, after, horizon);
    ghost var v1 := c.v;
    MarkAndStore(c, a, boundary, raw, after, c.v.agents[a].claim, horizon);
    LeadsTrans(Nobody, v0, v1, c.v);
    LeadsTrans(Nobody, DoCloseLoad(v0, a, after), v1, c.v);
    ClosingHistory(v0, c.v, a, after);
    ClosedThenWokeSince(v0, v1, c.v, a, after);
  }

  /** The mark and the store of `close`. */
  method Seal(c: Channel, ghost a: nat, boundary: int, raw: int, ghost after: After, ghost claim: Claim,
              ghost horizon: int)
    requires c.Valid() && c.v.Top() <= horizon
    requires a < |c.v.agents| && c.v.agents[a] == Agent(CloseMarking(raw, boundary, after), claim)
    modifies c`claimed, c`v, c.states, c.slots, c.consumed
    ensures c.Valid() && Leads(Nobody, old(c.v), c.v) && c.v.Top() <= horizon && NoMoreClaims(c.v)
    ensures a < |c.v.agents| && c.v.agents[a] == Agent(Notifying(0, after), claim)
    ensures after.ToGone? ==> c.v.h.mark >= 0
    ensures DoneBy(c.v, a) == ClosedOnce(DoneBy(old(c.v), a))
  {
    ghost var v0 := c.v;
    c.YieldSender(a, horizon);
    ghost var v1 := c.v;
    c.MarkShutdown(a, boundary);
    ghost var v2 := c.v;
    LeadsTrans(Nobody, v0, v1, v2);
    c.YieldSender(a, horizon);
    ghost var v3 := c.v;
    LeadsTrans(Nobody, v0, v2, v3);
    ClosingFacts(v3, a);
    CloseStoreShutsDown(v3, a);
    CloseStoreDone(v3, a, a);
    c.StoreClosed(a, raw);
    LeadsTrans(Nobody, v0, v3, c.v);
  }

  method MarkAndStore(c: Channel, ghost a: nat, boundary: int, raw: int, ghost after: After, ghost claim: Claim,
                      ghost horizon: int)
    requires c.Valid() && c.v.Top() <= horizon
    requires a < |c.v.agents| && c.v.agents[a] == Agent(CloseMarking(raw, boundary, after), claim)
    modifies c`claimed, c`v, c.states, c.slots, c.consumed
    ensures c.Valid() && Leads(Nobody, old(c.v), c.v) && c.v.Top() <= horizon && NoMoreClaims(c.v)
    ensures a < |c.v.agents| && c.v.agents[a] == Agent(Resumed(after), claim)
    ensures after.ToGone? ==> c.v.h.mark >= 0
    ensures ClosedThenWoke(old(c.v), c.v, a, after) && DoneBy(c.v, a) == ClosedOnce(DoneBy(old(c.v), a))
  {
    ghost var v0 := c.v;
    Seal(c, a, boundary, raw, after, claim, horizon);
    ghost var v1 := c.v;
    Notify(c, a, after, horizon);
    LeadsTrans(Nobody, v0, v1, c.v);
    LeadsHistory(v1, c.v);
  }

  /** The drop of the last sender handle.  Its mark is where the published prefix ends, if and only if the scan's
      window was intact: always, unless an earlier close was torn; and the prefix is all that was ever claimed,
      if and only if no claim was given up.  Drained receivers get to see the disconnect if and only if the scan
      stops at the slot after the prefix, or that slot carried a bit before. */
  method DropLastSender(c: Channel, ghost a: nat, ghost horizon: int)
    requires c.Valid() && c.v.Top() <= horizon && Enabled(c.v, CloseLoad(a, ToGone))
    modifies c`claimed, c`v, c.states, c.slots, c.consumed
    ensures c.Valid() && Leads(Nobody, old(c.v), c.v) && NoMoreClaims(c.v)
    ensures EndedAt(old(c.v), c.v) && c.v.P() == old(c.v).P() && old(|c.v.mem.words| == c.size > 0)
    ensures c.v.h.mark == ScanStop(c.size, old(c.v).mem.words, LastClaimed(old(c.claimed))) >= 0
    ensures c.v.h.mark == c.v.P() + 1 <==> WindowIntact(old(c.v), LastClaimed(old(c.claimed)))
    ensures HasBit(c.v.mem.words[Index(c.v.P() + 1, c.size)]) <==>
              HasBit(old(c.v).mem.words[Index(c.v.P() + 1, c.size)]) ||
              Index(c.v.h.mark, c.size) == Index(c.v.P() + 1, c.size)
    ensures !c.v.h.torn ==> c.v.h.mark == c.v.P() + 1
    ensures c.v.P() == c.v.Top() <==> c.v.h.abandoned == {}
    ensures a < |c.v.agents| && c.v.agents[a] == Agent(Gone, old(c.v.agents[a].claim))
    ensures ClosedThenWoke(old(c.v), c.v, a, ToGone) && DoneBy(c.v, a) == ClosedOnce(DoneBy(old(c.v), a))
  {
    ghost var v0 := c.v;
    Close(c, a, ToGone, horizon);
    DropMarksBoundary(c.v);
    DropShowsDisconnect(v0, a, c.v);
    MarkedIsDropping(c.v);
    DropLosesNothing(c.v);
  }
}
