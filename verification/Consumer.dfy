/** A receiver's code: the scan, the claim, the poll, the read guard and draining. */
module ConsumerCode {
  import opened Bits
  import opened RingMath
  import opened Machine
  import opened Invariant
  import opened Preservation
  import opened Runs
  import opened Safety
  import opened Closing
  import opened Interference
  import opened ChannelCode

  // ----- what a receiver knows -----

  /** At this instant receiver `i` has consumed the whole published prefix, and the slot word of its next
      sequence carries the shutdown bit or not. */
  ghost predicate NothingNext(v: State, i: nat, bit: bool) {
    WellFormed(v) && i < |v.receivers| && v.mem.consumed[i] == v.P() &&
    (HasBit(v.mem.words[Index(v.P() + 1, v.size)]) <==> bit)
  }

  /** There was such an instant between `u` and `v`, with the cursor of `i` where it is in `v`. */
  ghost predicate NothingSince(u: State, v: State, i: nat, bit: bool) {
    i < |v.mem.consumed| && exists w: State ::
      Leads(Nobody, u, w) && Leads(Nobody, w, v) && NothingNext(w, i, bit) && w.mem.consumed[i] == v.mem.consumed[i]
  }

  lemma NothingSinceEarlier(t: State, u: State, v: State, i: nat, bit: bool)
    requires Leads(Nobody, t, u) && NothingSince(u, v, i, bit)
    ensures NothingSince(t, v, i, bit)
  {
    var w: State :| Leads(Nobody, u, w) && Leads(Nobody, w, v) && NothingNext(w, i, bit) &&
      w.mem.consumed[i] == v.mem.consumed[i];
    LeadsTrans(Nobody, t, u, w);
  }

  /** At some instant between `u` and `v` sequence `s` was not published. */
  ghost predicate UnpublishedSeen(u: State, v: State, s: int) {
    exists w: State :: Leads(Nobody, u, w) && Leads(Nobody, w, v) && s !in w.h.published
  }

  lemma UnpublishedKept(t: State, u: State, v: State, x: State, s: int)
    requires Leads(Nobody, t, u) && UnpublishedSeen(u, v, s) && Leads(Nobody, v, x)
    ensures UnpublishedSeen(t, x, s)
  {
    var w: State :| Leads(Nobody, u, w) && Leads(Nobody, w, v) && s !in w.h.published;
    LeadsTrans(Nobody, t, u, w);
    LeadsTrans(Nobody, w, v, x);
  }

  /** What receiver `i` was given and how far it has consumed did not change. */
  ghost predicate Unmoved(v: State, v': State, i: nat) {
    && i < |v.receivers| == |v'.receivers| && |v.mem.consumed| == |v'.mem.consumed| == |v.receivers|
    && v'.receivers[i].stream == v.receivers[i].stream && v'.mem.consumed[i] == v.mem.consumed[i]
  }

  /** A first inspection that does not match shows that there is nothing to receive. */
  lemma MismatchMeansNothing(v: State, i: nat)
    requires Reachable(v) && Enabled(v, Inspect(i)) && v.receivers[i].pc.next == v.receivers[i].pc.start
    requires var s := v.receivers[i].pc.next; Lap(v.mem.words[Index(s, v.size)]) != Flag(s, v.size)
    ensures NothingNext(v, i, HasBit(v.mem.words[Index(v.receivers[i].pc.next, v.size)]))
  {
    ReachableInv(v);
    assert ReceiverOk(v, v.mem.consumed[i], v.receivers[i]);
    assert v.Live(i);
    FlagMeansPublished(v, i, v.receivers[i].pc.next);
  }

  /** A sequence whose slot does not match when a scan inspects it is not published. */
  lemma MismatchMeansUnpublished(v: State, i: nat)
    requires Reachable(v) && Enabled(v, Inspect(i))
    requires var s := v.receivers[i].pc.next; Lap(v.mem.words[Index(s, v.size)]) != Flag(s, v.size)
    ensures v.receivers[i].pc.next !in v.h.published
  {
    ReachableInv(v);
    assert ReceiverOk(v, v.mem.consumed[i], v.receivers[i]);
    assert v.Live(i);
    FlagMeansPublished(v, i, v.receivers[i].pc.next);
  }

  /** What a live read guard covers is published log, and what was read through it is that log. */
  lemma ReadingFacts(v: State, i: nat)
    requires Reachable(v) && i < |v.receivers| && v.receivers[i].pc.Reading?
    ensures var pc := v.receivers[i].pc;
      && 0 <= pc.start == v.mem.consumed[i] + 1 <= pc.end < |v.h.log| && |pc.got| <= pc.end - pc.start + 1
      && pc.got == v.h.log[pc.start..pc.start + |pc.got|]
      && (forall s :: pc.start <= s <= pc.end ==> s in v.h.published)
  {
    ReachableInv(v);
    assert ReceiverOk(v, v.mem.consumed[i], v.receivers[i]);
  }

  // ----- claiming -----

  /** One iteration of the scan: does the slot carry the flag of `seqn`, and the shutdown bit? */
  method InspectSlot(c: Channel, i: nat, seqn: int, ghost horizon: int) returns (matches: bool, bit: bool)
    requires c.Valid() && c.v.Top() <= horizon && Enabled(c.v, Inspect(i)) && c.v.receivers[i].pc.next == seqn
    modifies c`claimed, c`v, c.states, c.slots, c.consumed
    ensures c.Valid() && Leads(Nobody, old(c.v), c.v) && c.v.Top() <= horizon && Unmoved(old(c.v), c.v, i)
    ensures c.v.receivers[i].pc == Inspected(old(c.v.receivers[i].pc), matches, bit)
    ensures !matches && old(c.v.receivers[i].pc.start) == seqn ==> NothingSince(old(c.v), c.v, i, bit)
    ensures !matches ==> UnpublishedSeen(old(c.v), c.v, seqn)
  {
    ghost var v1 := c.v;
    c.YieldReceiver(i, horizon);
    ghost var v2 := c.v;
    var _, flag := c.SlotState(seqn);
    var raw := c.LoadForRecv(i, seqn);
    LeadsTrans(Nobody, v1, v2, c.v);
    bit := c.BitOf(raw);
    var lap := c.LapOf(raw);
    matches := lap == flag;
    if !matches { MismatchMeansUnpublished(v2, i); }
    if !matches && v2.receivers[i].pc.start == seqn { MismatchMeansNothing(v2, i); }
  }

  /** The scan of receiver `i`, which began in `u`, has matched the sequences of [start, at - 1]. */
  ghost predicate InScan(u: State, v: State, i: nat, start: int, end: int, at: int, shut: bool, mode: Mode) {
    && Leads(Nobody, u, v) && Unmoved(u, v, i) && (at == start ==> !shut)
    && v.receivers[i].pc == if at <= end then Scanning(start, end, at, shut, mode)
                            else ScanResult(start, end, end + 1, shut, mode)
  }

  /** It stopped right after `last`, because it was at its end, or as the next sequence was not there. */
  ghost predicate ScanEnded(u: State, v: State, i: nat, start: int, end: int, last: int, shut: bool, mode: Mode) {
    && Leads(Nobody, u, v) && Unmoved(u, v, i) && start - 1 <= last <= end
    && v.receivers[i].pc == ScanResult(start, end, last + 1, shut, mode)
    && (last < start ==> NothingSince(u, v, i, shut))
    && (last < end ==> UnpublishedSeen(u, v, last + 1))
  }

  /** The next iteration of the scan. */
  method ScanNext(c: Channel, i: nat, ghost start: int, ghost end: int, seqn: int, shut: bool, ghost mode: Mode,
                  ghost horizon: int, ghost u: State)
    returns (matches: bool, shutdown: bool)
    requires c.Valid() && c.v.Top() <= horizon && InScan(u, c.v, i, start, end, seqn, shut, mode)
    requires start <= seqn <= end
    modifies c`claimed, c`v, c.states, c.slots, c.consumed
    ensures c.Valid() && c.v.Top() <= horizon
    ensures if matches then InScan(u, c.v, i, start, end, seqn + 1, shutdown, mode)
            else ScanEnded(u, c.v, i, start, end, seqn - 1, shutdown, mode)
  {
    ghost var v1 := c.v;
    var bit;
    matches, bit := InspectSlot(c, i, seqn, horizon);
    shutdown := shut || bit;
    LeadsTrans(Nobody, u, v1, c.v);
    if !matches {
      if seqn == start { NothingSinceEarlier(u, v1, c.v, i, bit); }
      UnpublishedKept(u, v1, c.v, c.v, seqn);
    }
  }

  /** `scan_available_until`, racing with publishers: the last contiguously published sequence of
      [start, end], and whether a shutdown bit was seen on the way. */
  method ScanAvailableUntil(c: Channel, i: nat, start: int, end: int, ghost mode: Mode, ghost horizon: int)
    returns (lastAvailable: int, shutdown: bool)
    requires c.Valid() && c.v.Top() <= horizon && start <= end
    requires i < |c.v.receivers| && c.v.receivers[i].pc == Scanning(start, end, start, false, mode)
    modifies c`claimed, c`v, c.states, c.slots, c.consumed
    ensures c.Valid() && c.v.Top() <= horizon
    ensures ScanEnded(old(c.v), c.v, i, start, end, lastAvailable, shutdown, mode)
  {
    ghost var v0 := c.v;
    lastAvailable, shutdown := start - 1, false;
    for seqn := start to end + 1
      invariant c.Valid() && c.v.Top() <= horizon && lastAvailable == seqn - 1
      invariant InScan(v0, c.v, i, start, end, seqn, shutdown, mode)
    {
      var matches;
      matches, shutdown := ScanNext(c, i, start, end, seqn, shutdown, mode, horizon, v0);
      if !matches { break; }
      lastAvailable := seqn;
    }
  }

  /** What a claim that started in `u` and returned `r` in `v` says is so: a guard on `n` published sequences from the
      cursor on, or on as many as there were at some instant; or, at some instant in between, nothing was left to
      receive, and the shutdown bit was set or not.  `empty` is where the receiver goes on in the latter case. */
  ghost predicate Outcome(u: State, v: State, i: nat, n: int, empty: RecvPc, r: ClaimResult) {
    Unmoved(u, v, i) &&
    match r
    case Ok(start, end) =>
      start == v.mem.consumed[i] + 1 && 1 <= end - start + 1 <= n && v.receivers[i].pc == Reading(start, end, []) &&
      (end - start + 1 == n || UnpublishedSeen(u, v, end + 1))
    case ErrEmpty => v.receivers[i].pc == empty && NothingSince(u, v, i, false)
    case ErrShutdown => v.receivers[i].pc == Resting(Closed) && NothingSince(u, v, i, true)
  }

  lemma OutcomeSince(t: State, u: State, v: State, i: nat, n: int, empty: RecvPc, r: ClaimResult)
    requires Leads(Nobody, t, u) && Unmoved(t, u, i) && Outcome(u, v, i, n, empty, r)
    ensures Outcome(t, v, i, n, empty, r)
  {
    if r.Ok? && r.end - r.start + 1 != n { UnpublishedKept(t, u, v, v, r.end + 1); }
    if r.ErrEmpty? { NothingSinceEarlier(t, u, v, i, false); }
    if r.ErrShutdown? { NothingSinceEarlier(t, u, v, i, true); }
  }

  /** `try_claim_at_most` after the load of `consumed`. */
  method ClaimFrom(c: Channel, i: nat, lastClaimed: int, n: int, ghost mode: Mode, ghost horizon: int)
    returns (r: ClaimResult)
    requires c.Valid() && c.v.Top() <= horizon && n >= 1
    requires i < |c.v.receivers| == |c.v.mem.consumed| && c.v.mem.consumed[i] == lastClaimed
    requires c.v.receivers[i].pc == Scanning(lastClaimed + 1, lastClaimed + n, lastClaimed + 1, false, mode)
    modifies c`claimed, c`v, c.states, c.slots, c.consumed
    ensures c.Valid() && Leads(Nobody, old(c.v), c.v) && c.v.Top() <= horizon
    ensures Outcome(old(c.v), c.v, i, n, AfterEmpty(mode, n), r)
  {
    var startSeq := lastClaimed + 1;
    var highestToConsume := lastClaimed + n;
    var maxAvailable, shutdown := ScanAvailableUntil(c, i, startSeq, highestToConsume, mode, horizon);
    if maxAvailable <= lastClaimed {
      if shutdown {
        return ErrShutdown;
      } else {
        return ErrEmpty;
      }
    }
    return Ok(startSeq, maxAvailable);
  }

  function AfterEmpty(mode: Mode, n: int): RecvPc {
    match mode
    case Sync => Resting(Empty)
    case FirstPoll => Registering(n)
    case SecondPoll => Pending
  }

  /** `try_claim_at_most` of a receiver. */
  method TryClaimAtMost(c: Channel, i: nat, limit: int, ghost mode: Mode, ghost horizon: int) returns (r: ClaimResult)
    requires c.Valid() && c.v.Top() <= horizon && BetweenCalls(c.v, i) && 1 <= limit <= I64_MAX && !mode.SecondPoll?
    modifies c`claimed, c`v, c.states, c.slots, c.consumed
    ensures c.Valid() && Leads(Nobody, old(c.v), c.v) && c.v.Top() <= horizon
    ensures Outcome(old(c.v), c.v, i, Min(limit, c.size), AfterEmpty(mode, Min(limit, c.size)), r)
  {
    ghost var v0 := c.v;
    c.YieldReceiver(i, horizon);
    ghost var v1 := c.v;
    var lastClaimed := c.LoadConsumed(i, limit, mode);
    ghost var v2 := c.v;
    LeadsTrans(Nobody, v0, v1, v2);
    var n := Min(limit, c.size);
    r := ClaimFrom(c, i, lastClaimed, n, mode, horizon);
    LeadsTrans(Nobody, v0, v2, c.v);
    OutcomeSince(v0, v2, c.v, i, n, AfterEmpty(mode, n), r);
  }

  /** Receiver `i` has just registered its waker and looks for its next sequence again. */
  ghost predicate JustRegistered(v: State, i: nat) {
    && i < |v.wakers| && v.wakers[i] == Waker(true, false) && i < |v.receivers|
    && v.receivers[i].pc.Scanning? && v.receivers[i].pc.mode.SecondPoll?
    && v.receivers[i].pc.next == v.receivers[i].pc.start
  }

  /** Between `u` and `v` the waker was registered, and at some instant after that there was nothing to receive. */
  ghost predicate NothingSinceRegistered(u: State, v: State, i: nat) {
    exists w: State :: Leads(Nobody, u, w) && JustRegistered(w, i) && NothingSince(w, v, i, false)
  }

  lemma NothingSinceRegisteredEarlier(t: State, u: State, v: State, i: nat)
    requires Leads(Nobody, t, u) && NothingSinceRegistered(u, v, i)
    ensures NothingSinceRegistered(t, v, i)
  {
    var w: State :| Leads(Nobody, u, w) && JustRegistered(w, i) && NothingSince(w, v, i, false);
    LeadsTrans(Nobody, t, u, w);
  }

  /** The second half of a poll: register the waker, then try again. */
  method RegisterAndRetry(c: Channel, i: nat, n: int, ghost horizon: int) returns (r: ClaimResult)
    requires c.Valid() && c.v.Top() <= horizon && n >= 1 && i < |c.v.receivers| && c.v.receivers[i].pc == Registering(n)
    modifies c`claimed, c`v, c.states, c.slots, c.consumed
    ensures c.Valid() && Leads(Nobody, old(c.v), c.v) && c.v.Top() <= horizon
    ensures Outcome(old(c.v), c.v, i, n, Pending, r)
    ensures r.ErrEmpty? ==> NothingSinceRegistered(old(c.v), c.v, i)
  {
    ghost var v0 := c.v;
    c.YieldReceiver(i, horizon);
    ghost var v1 := c.v;
    var lastClaimed := c.RegisterAndLoad(i);
    ghost var v2 := c.v;
    LeadsTrans(Nobody, v0, v1, v2);
    r := ClaimFrom(c, i, lastClaimed, n, SecondPoll, horizon);
    LeadsTrans(Nobody, v0, v2, c.v);
    OutcomeSince(v0, v2, c.v, i, n, Pending, r);
  }

  datatype PollResult = Ready(result: ClaimResult) | NotReady

  /** `claim_at_most_async`: try, register the waker, try again.  A poll that is not ready leaves the receiver
      with a waker that is registered or has fired since. */
  method Poll(c: Channel, i: nat, limit: int, ghost horizon: int) returns (r: PollResult)
    requires c.Valid() && c.v.Top() <= horizon && BetweenCalls(c.v, i) && 1 <= limit <= I64_MAX
    modifies c`claimed, c`v, c.states, c.slots, c.consumed
    ensures c.Valid() && Leads(Nobody, old(c.v), c.v) && c.v.Top() <= horizon
    ensures r.Ready? ==> !r.result.ErrEmpty?
    ensures Outcome(old(c.v), c.v, i, Min(limit, c.size), Pending, if r.Ready? then r.result else ErrEmpty)
    ensures r.NotReady? ==> NothingSinceRegistered(old(c.v), c.v, i)
    ensures r.NotReady? ==> i < |c.v.wakers| && (c.v.wakers[i].fired || c.v.wakers[i].registered)
  {
    ghost var v0 := c.v;
    var n := Min(limit, c.size);
    var first := TryClaimAtMost(c, i, limit, FirstPoll, horizon);
    if !first.ErrEmpty? {
      return Ready(first);
    }
    ghost var v1 := c.v;
    var second := RegisterAndRetry(c, i, n, horizon);
    LeadsTrans(Nobody, v0, v1, c.v);
    OutcomeSince(v0, v1, c.v, i, n, Pending, second);
    if second.ErrEmpty? {
      NothingSinceRegisteredEarlier(v0, v1, c.v, i);
      if !c.v.wakers[i].fired { PendingIsRegistered(c.v, i); }
      return NotReady;
    }
    return Ready(second);
  }

  // ----- read guards -----

  /** A guard through which one more item was read. */
  function WithItem(pc: RecvPc, item: Item): RecvPc
    requires pc.Reading?
  {
    pc.(got := pc.got + [item])
  }

  /** `ReadBatchIter`: hands out the items of a live read guard, from its start to its end. */
  class ReadBatchIter {
    var currentSeq: int
    const endSeq: int

    ghost predicate Valid(v: State, i: nat)
      reads this
    {
      if endSeq == INIT then currentSeq > endSeq
      else
        i < |v.receivers| && v.receivers[i].pc.Reading? &&
        v.receivers[i].pc.end == endSeq && v.receivers[i].pc.start + |v.receivers[i].pc.got| == currentSeq
    }

    constructor (startSeq: int, endSeq: int)
      ensures currentSeq == startSeq && this.endSeq == endSeq
    {
      this.currentSeq, this.endSeq := startSeq, endSeq;
    }

    /** The next item is the log entry of the current sequence, whatever the senders are doing. */
    method Next(c: Channel, i: nat, ghost horizon: int) returns (item: Option<Item>)
      requires c.Valid() && c.v.Top() <= horizon && Valid(c.v, i)
      modifies this, c`claimed, c`v, c.states, c.slots, c.consumed
      ensures c.Valid() && Leads(Nobody, old(c.v), c.v) && c.v.Top() <= horizon && Valid(c.v, i)
      ensures old(currentSeq) > endSeq ==> item == None && currentSeq == old(currentSeq) && c.v == old(c.v)
      ensures old(currentSeq) <= endSeq ==>
        && currentSeq == old(currentSeq) + 1 && Unmoved(old(c.v), c.v, i)
        && 0 <= old(currentSeq) < |c.v.h.log| && item == Some(c.v.h.log[old(currentSeq)])
        && c.v.receivers[i].pc == WithItem(old(c.v).receivers[i].pc, item.value)
    {
      if currentSeq > endSeq {
        return None;
      }
      ghost var v1 := c.v;
      c.YieldReceiver(i, horizon);
      ghost var v2 := c.v;
      var slot := c.GetRefAt(i, currentSeq);
      LeadsTrans(Nobody, v1, v2, c.v);
      ReadingFacts(c.v, i);
      assert c.v.receivers[i].pc.got[|v2.receivers[i].pc.got|] == slot;
      currentSeq := currentSeq + 1;
      return Some(slot);
    }
  }

  /** Committing a guard delivers exactly the log entries it covers. */
  lemma CommitDelivers(v: State, i: nat)
    requires Reachable(v) && Enabled(v, Commit(i))
    ensures var start, end := v.receivers[i].pc.start, v.receivers[i].pc.end;
      0 <= start <= end < |v.h.log| &&
      DoCommit(v, i).receivers[i].stream == v.receivers[i].stream + v.h.log[start..end + 1]
  {
    ReachableInv(v);
    BatchIsLog(v, i);
  }

  /** The read guard of [startSeq, endSeq] is dropped; the empty guard leaves the channel alone. */
  method DropReadRefs(c: Channel, i: nat, startSeq: int, endSeq: int, ghost horizon: int)
    requires c.Valid() && c.v.Top() <= horizon
    requires endSeq != INIT ==>
      i < |c.v.receivers| && c.v.receivers[i].pc.Reading? &&
      c.v.receivers[i].pc.start == startSeq && c.v.receivers[i].pc.end == endSeq
    modifies c`claimed, c`v, c.states, c.slots, c.consumed
    ensures c.Valid() && Leads(Nobody, old(c.v), c.v) && c.v.Top() <= horizon
    ensures endSeq == INIT ==> c.v == old(c.v)
    ensures endSeq != INIT ==>
      && i < |c.v.receivers| == |c.v.mem.consumed| && 0 <= startSeq <= endSeq < |old(c.v).h.log|
      && c.v.receivers[i].pc == Resting(Received) && c.v.mem.consumed[i] == endSeq
      && c.v.receivers[i].stream == old(c.v).receivers[i].stream + old(c.v).h.log[startSeq..endSeq + 1]
  {
    if endSeq == INIT {
      return;
    }
    ghost var v1 := c.v;
    ReadingFacts(v1, i);
    c.YieldReceiver(i, horizon);
    ghost var v2 := c.v;
    CommitDelivers(v2, i);
    assert v2.h.log[startSeq..endSeq + 1] == v1.h.log[startSeq..endSeq + 1];
    c.StoreConsumed(i, endSeq);
    LeadsTrans(Nobody, v1, v2, c.v);
  }

  /** `try_recv_at_most`: a read guard; for limit 0 the empty one, without a look at the channel. */
  method TryRecvAtMost(c: Channel, i: nat, limit: nat, ghost horizon: int) returns (r: ClaimResult)
    requires c.Valid() && c.v.Top() <= horizon && BetweenCalls(c.v, i) && limit <= I64_MAX
    modifies c`claimed, c`v, c.states, c.slots, c.consumed
    ensures c.Valid() && Leads(Nobody, old(c.v), c.v) && c.v.Top() <= horizon
    ensures limit == 0 ==> r == Ok(0, INIT) && c.v == old(c.v)
    ensures limit > 0 ==> Outcome(old(c.v), c.v, i, Min(limit, c.size), Resting(Empty), r)
  {
    if limit == 0 {
      return Ok(0, INIT);
    }
    r := TryClaimAtMost(c, i, limit, Sync, horizon);
  }

  /** `try_recv`: a guard on the next sequence and a reference to its item. */
  method TryRecv(c: Channel, i: nat, ghost horizon: int) returns (r: ClaimResult, item: Option<Item>)
    requires c.Valid() && c.v.Top() <= horizon && BetweenCalls(c.v, i)
    modifies c`claimed, c`v, c.states, c.slots, c.consumed
    ensures c.Valid() && Leads(Nobody, old(c.v), c.v) && c.v.Top() <= horizon && Unmoved(old(c.v), c.v, i)
    ensures match r
      case Ok(start, end) =>
        0 <= start == end == c.v.mem.consumed[i] + 1 < |c.v.h.log| && item == Some(c.v.h.log[start]) &&
        c.v.receivers[i].pc == Reading(start, end, [c.v.h.log[start]])
      case ErrEmpty => item == None && NothingSince(old(c.v), c.v, i, false) && c.v.receivers[i].pc == Resting(Empty)
      case ErrShutdown => item == None && NothingSince(old(c.v), c.v, i, true) && c.v.receivers[i].pc == Resting(Closed)
  {
    ghost var v0 := c.v;
    item := None;
    r := TryClaimAtMost(c, i, 1, Sync, horizon);
    if r.Ok? {
      ghost var v1 := c.v;
      c.YieldReceiver(i, horizon);
      ghost var v2 := c.v;
      LeadsTrans(Nobody, v0, v1, v2);
      var slot := c.GetRefAt(i, r.end);
      LeadsTrans(Nobody, v0, v2, c.v);
      ReadingFacts(c.v, i);
      assert c.v.receivers[i].pc.got[0] == slot;
      item := Some(slot);
    }
  }

  // ----- receiving -----

  datatype RecvResult = Items(items: seq<Item>) | RecvEmpty | RecvDisconnected

  /** Reads all items of a guard of [start, end]. */
  method ReadAll(c: Channel, i: nat, start: int, end: int, ghost horizon: int) returns (items: seq<Item>)
    requires c.Valid() && c.v.Top() <= horizon && end != INIT
    requires i < |c.v.receivers| == |c.v.mem.consumed| && c.v.receivers[i].pc == Reading(start, end, [])
    modifies c`claimed, c`v, c.states, c.slots, c.consumed
    ensures c.Valid() && Leads(Nobody, old(c.v), c.v) && c.v.Top() <= horizon && Unmoved(old(c.v), c.v, i)
    ensures c.v.receivers[i].pc == Reading(start, end, items)
    ensures 0 <= start <= end < |c.v.h.log| && items == c.v.h.log[start..end + 1]
  {
    ghost var v0 := c.v;
    ReadingFacts(v0, i);
    items := [];
    var iter := new ReadBatchIter(start, end);
    while true
      invariant c.Valid() && Leads(Nobody, v0, c.v) && c.v.Top() <= horizon && Unmoved(v0, c.v, i)
      invariant iter.Valid(c.v, i) && fresh(iter) && iter.endSeq == end
      invariant c.v.receivers[i].pc == Reading(start, end, items) && iter.currentSeq <= end + 1
      decreases end + 1 - iter.currentSeq
    {
      ghost var v1 := c.v;
      var item := iter.Next(c, i, horizon);
      LeadsTrans(Nobody, v0, v1, c.v);
      if item.None? { break; }
      items := items + [item.value];
    }
    ReadingFacts(c.v, i);
  }

  /** Claims up to `limit` items, reads them all and drops the guard: the receiver gets the next log entries. */
  method ReceiveBatch(c: Channel, i: nat, limit: nat, ghost horizon: int) returns (r: RecvResult)
    requires c.Valid() && c.v.Top() <= horizon && BetweenCalls(c.v, i) && limit <= I64_MAX
    modifies c`claimed, c`v, c.states, c.slots, c.consumed
    ensures c.Valid() && Leads(Nobody, old(c.v), c.v) && c.v.Top() <= horizon && BetweenCalls(c.v, i)
    ensures |c.v.receivers| == |c.v.mem.consumed| == |old(c.v).receivers| == |old(c.v).mem.consumed|
    ensures limit == 0 ==> r == Items([]) && c.v == old(c.v)
    ensures limit > 0 ==>
      match r
      case Items(items) =>
        && 1 <= |items| <= Min(limit, c.size)
        && (|items| == Min(limit, c.size) || UnpublishedSeen(old(c.v), c.v, c.v.mem.consumed[i] + 1))
        && c.v.mem.consumed[i] == old(c.v).mem.consumed[i] + |items|
        && c.v.receivers[i] == Receiver(Resting(Received), old(c.v).receivers[i].stream + items)
      case RecvEmpty =>
        Unmoved(old(c.v), c.v, i) && NothingSince(old(c.v), c.v, i, false) && c.v.receivers[i].pc == Resting(Empty)
      case RecvDisconnected =>
        Unmoved(old(c.v), c.v, i) && NothingSince(old(c.v), c.v, i, true) && c.v.receivers[i].pc == Resting(Closed)
  {
    ghost var v0 := c.v;
    var claim := TryRecvAtMost(c, i, limit, horizon);
    match claim
    case ErrEmpty => return RecvEmpty;
    case ErrShutdown => return RecvDisconnected;
    case Ok(start, end) =>
      ghost var v1 := c.v;
      if limit > 0 { ReadingFacts(v1, i); }
      if end == INIT {
        DropReadRefs(c, i, start, end, horizon);
        return Items([]);
      }
      var items := ReadAll(c, i, start, end, horizon);
      ghost var v2 := c.v;
      LeadsTrans(Nobody, v0, v1, v2);
      DropReadRefs(c, i, start, end, horizon);
      LeadsTrans(Nobody, v0, v2, c.v);
      LeadsTrans(Nobody, v1, v2, c.v);
      if |items| != Min(limit, c.size) { UnpublishedKept(v0, v0, v1, c.v, end + 1); }
      return Items(items);
  }

  // ----- draining -----

  /** All senders are gone and receiver `i` has not dropped: its distance to the end of the log. */
  lemma DrainFacts(v: State, i: nat)
    requires Reachable(v) && BetweenCalls(v, i)
    ensures |v.receivers| == |v.mem.consumed| && -1 <= v.mem.consumed[i] <= v.P() < |v.h.log|
    ensures v.receivers[i].stream == v.h.log[..v.mem.consumed[i] + 1]
  {
    ReachableInv(v);
    PrefixBelowTop(v);
    assert ReceiverOk(v, v.mem.consumed[i], v.receivers[i]);
  }

  /** After the last sender dropped, with the slot after the prefix marked, no claim of a receiver is Empty, and
      one that is Disconnected found the whole prefix consumed. */
  lemma NothingAfterDrop(u: State, v: State, i: nat, bit: bool)
    requires Reachable(u) && u.h.mark >= 0 && HasBit(u.mem.words[Index(u.P() + 1, u.size)])
    requires NothingSince(u, v, i, bit) && Unmoved(u, v, i)
    ensures bit && i < |u.mem.consumed| && u.mem.consumed[i] == u.P()
  {
    var w: State :| Leads(Nobody, u, w) && Leads(Nobody, w, v) && NothingNext(w, i, bit) &&
      w.mem.consumed[i] == v.mem.consumed[i];
    FrozenLeads(u, w);
  }

  /** The receiver's side of a graceful shutdown: once the last sender has dropped, receiving until
      Disconnected terminates, never finds Empty, and delivers every published item that was left: everything
      ever sent, if no claim was given up. */
  method Drain(c: Channel, i: nat, limit: nat, ghost horizon: int) returns (items: seq<Item>)
    requires c.Valid() && c.v.Top() <= horizon && BetweenCalls(c.v, i) && 1 <= limit <= I64_MAX
    requires c.v.h.mark >= 0 && HasBit(c.v.mem.words[Index(c.v.P() + 1, c.size)])
    modifies c`claimed, c`v, c.states, c.slots, c.consumed
    ensures c.Valid() && Leads(Nobody, old(c.v), c.v)
    ensures c.v.h.log == old(c.v).h.log && c.v.P() == old(c.v).P() < |c.v.h.log|
    ensures |old(c.v).receivers[i].stream| <= c.v.P() + 1
    ensures items == c.v.h.log[|old(c.v).receivers[i].stream|..c.v.P() + 1]
    ensures i < |c.v.receivers| == |c.v.mem.consumed| && c.v.mem.consumed[i] == c.v.P()
    ensures c.v.receivers[i].stream == c.v.h.log[..c.v.P() + 1]
    ensures c.v.h.abandoned == {} ==> c.v.receivers[i].stream == c.v.h.log
  {
    ghost var v0 := c.v;
    ghost var before := c.v.receivers[i].stream;
    items := [];
    DrainFacts(v0, i);
    while true
      invariant c.Valid() && Leads(Nobody, v0, c.v) && c.v.Top() <= horizon && BetweenCalls(c.v, i)
      invariant Frozen(v0, c.v)
      invariant c.v.receivers[i].stream == before + items
      decreases DrainLeft(c.v, i)
    {
      ghost var v1 := c.v;
      DrainFacts(v1, i);
      var r := ReceiveBatch(c, i, limit, horizon);
      LeadsTrans(Nobody, v0, v1, c.v);
      FrozenLeads(v0, c.v);
      DrainFacts(c.v, i);
      match r
      case Items(more) => items := items + more;
      case RecvEmpty => NothingAfterDrop(v1, c.v, i, false);
      case RecvDisconnected =>
        NothingAfterDrop(v1, c.v, i, true);
        break;
    }
    MarkedIsDropping(c.v);
    if c.v.h.abandoned == {} { DropLosesNothing(c.v); }
  }

  /** What receiver `i` has not consumed of the published prefix. */
  ghost function DrainLeft(v: State, i: nat): int {
    if i < |v.mem.consumed| then v.P() - v.mem.consumed[i] else 0
  }
}
