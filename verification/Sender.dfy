/** The senders' interface: send one item, reserve a slot, reserve a batch of slots. */
module SenderCode {
  import opened Bits
  import opened RingMath
  import opened Machine
  import opened Claims
  import opened Runs
  import opened Safety
  import opened Interference
  import opened ChannelCode
  import opened PublisherCode
  import opened GuardCode

  datatype SendResult = SendOk | SendFull(value: Item) | SendDisconnected(value: Item)

  datatype Reserve<T> = Reserved(value: T) | ReserveFull | ReserveDisconnected

  /** Agent `a` is free for a call on a sender handle.  The handle may have permits and batches out: each of them is
      an agent of its own, and `Channel.FurtherCall` gives one for a further call. */
  ghost predicate CanSend(v: State, a: nat) {
    a < |v.agents| && v.agents[a].pc.Idle? && !v.dropping
  }

  /** A sender turned away as Disconnected: the publisher side is shut down, or every receiver dropped. */
  ghost predicate NoOneListens(v: State) {
    HasShutdown(v.mem.claimed) || AllDropped(v)
  }

  /** What an agent did, with one claim more. */
  function AlsoClaimed(d: Doings, r: ClaimRecord): Doings { d.(claims := d.claims + [r]) }

  /** What agent `a` owns of the sequences claimed since `u` is what it claimed since then. */
  lemma OwnedSince(u: State, v: State, a: nat, more: seq<ClaimRecord>)
    requires Reachable(u) && Leads(Nobody, u, v) && DoneBy(v, a).claims == DoneBy(u, a).claims + more
    ensures |v.h.owner| == |v.h.log|
    ensures forall s :: |u.h.log| <= s <= v.Top() && v.h.owner[s] == a ==>
              exists r :: r in more && r.start <= s <= r.end
  {
    ReachableOn(u, v);
    forall s | |u.h.log| <= s <= v.Top() && v.h.owner[s] == a
      ensures exists r :: r in more && r.start <= s <= r.end
    {
      ClaimedOnce(v, s);
      var k :| Covers(v, k, s);
      ClaimOwnsRange(v, k, s);
      var r := v.h.claims[k];
      assert r in DoneBy(v, a).claims;
      if r in DoneBy(u, a).claims { EarlierClaim(u, r); }
    }
  }

  lemma EarlierClaim(u: State, r: ClaimRecord)
    requires Reachable(u) && r in u.h.claims
    ensures r.end <= u.Top()
  {
    var k :| 0 <= k < |u.h.claims| && u.h.claims[k] == r;
    ClaimInLog(u, k);
  }

  /** `try_send`: the item is published as a new log entry, the only one the call claims, or handed back for a reason
      that was true, without a claim. */
  method TrySend(c: Channel, ghost a: nat, value: Item, ghost horizon: int) returns (r: SendResult, ghost seqn: int)
    requires c.Valid() && c.v.Top() <= horizon && horizon + 2 * c.size < I64_MAX && CanSend(c.v, a)
    modifies c`claimed, c`v, c.states, c.slots, c.consumed
    ensures c.Valid() && Leads(Nobody, old(c.v), c.v) && c.v.Top() <= horizon + c.size
    ensures a < |c.v.agents| && c.v.agents[a].pc.Idle?
    ensures match r
      case SendOk => |old(c.v).h.log| <= seqn < |c.v.h.log| && seqn in c.v.h.published && c.v.h.log[seqn] == value
      case SendFull(back) => back == value && FullSince(old(c.v), c.v)
      case SendDisconnected(back) => back == value && NoOneListens(c.v)
    ensures DoneBy(c.v, a) == if r.SendOk? then AlsoClaimed(DoneBy(old(c.v), a), ClaimRecord(a, seqn, seqn, 1))
                              else DoneBy(old(c.v), a)
    ensures |c.v.h.owner| == |c.v.h.log| && forall s :: |old(c.v).h.log| <= s <= c.v.Top() && c.v.h.owner[s] == a ==>
              r.SendOk? && s == seqn
  {
    ghost var v0 := c.v;
    seqn := -1;
    var claim := TryClaimAtMost(c, a, 1, horizon);
    match claim {
    case ErrEmpty => r := SendFull(value);
    case ErrShutdown => r := SendDisconnected(value);
    case Ok(_, end) =>
      ghost var v1 := c.v;
      ModifyHeld(c, a, end, end, end, _ => value, horizon + c.size);
      ghost var v2 := c.v;
      LeadsTrans(Nobody, v0, v1, v2);
      CommitRange(c, a, end, end, horizon + c.size);
      LeadsTrans(Nobody, v0, v2, c.v);
      seqn := end;
      r := SendOk;
    }
    OwnedSince(v0, c.v, a, if r.SendOk? then [ClaimRecord(a, seqn, seqn, 1)] else []);
  }

  /** `try_reserve`: a permit for one new sequence. */
  method TryReserve(c: Channel, ghost a: nat, recycler: Recycler, ghost horizon: int) returns (r: Reserve<WritePermit>)
    requires c.Valid() && c.v.Top() <= horizon && horizon + 2 * c.size < I64_MAX && CanSend(c.v, a)
    modifies c`claimed, c`v, c.states, c.slots, c.consumed
    ensures c.Valid() && Leads(Nobody, old(c.v), c.v) && c.v.Top() <= horizon + c.size
    ensures match r
      case Reserved(permit) =>
        && fresh(permit) && permit.a == a && permit.recycler == recycler
        && permit.Valid(c.v) && Got(old(c.v), c.v, a, permit.sequence, permit.sequence, 1)
      case ReserveFull => TurnedAway(old(c.v), c.v, a, Full) && FullSince(old(c.v), c.v)
      case ReserveDisconnected => TurnedAway(old(c.v), c.v, a, Disconnected) && NoOneListens(c.v)
  {
    var claim := TryClaimAtMost(c, a, 1, horizon);
    match claim
    case ErrEmpty => return ReserveFull;
    case ErrShutdown => return ReserveDisconnected;
    case Ok(_, end) =>
      var permit := new WritePermit(end, recycler, a);
      return Reserved(permit);
  }

  /** `try_send_at_most`: a batch of up to `limit` new sequences; for limit 0 the empty batch, without a look at
      the channel. */
  method TrySendAtMost(c: Channel, ghost a: nat, limit: nat, recycler: Recycler, ghost horizon: int)
    returns (r: Reserve<WritePermits>)
    requires c.Valid() && c.v.Top() <= horizon && horizon + 2 * c.size < I64_MAX && CanSend(c.v, a) && limit <= I64_MAX
    modifies c`claimed, c`v, c.states, c.slots, c.consumed
    ensures c.Valid() && Leads(Nobody, old(c.v), c.v) && c.v.Top() <= horizon + c.size
    ensures limit == 0 ==> r.Reserved? && c.v == old(c.v)
    ensures match r
      case Reserved(batch) =>
        && fresh(batch) && batch.a == a && batch.recycler == recycler && batch.Valid(c.v)
        && batch.nextSeq == batch.startSeq && batch.values == []
        && if limit == 0 then batch.endSeq == INIT
           else Got(old(c.v), c.v, a, batch.startSeq, batch.endSeq, Min(limit, c.size))
      case ReserveFull => TurnedAway(old(c.v), c.v, a, Full) && FullSince(old(c.v), c.v)
      case ReserveDisconnected => TurnedAway(old(c.v), c.v, a, Disconnected) && NoOneListens(c.v)
  {
    if limit == 0 {
      var empty := new WritePermits(0, INIT, recycler, a, c.v);
      return Reserved(empty);
    }
    var claim := TryClaimAtMost(c, a, limit, horizon);
    match claim
    case ErrEmpty => return ReserveFull;
    case ErrShutdown => return ReserveDisconnected;
    case Ok(start, end) =>
      var batch := new WritePermits(start, end, recycler, a, c.v);
      return Reserved(batch);
  }

  /** `items` are published, contiguously and in order, from sequence `start` on. */
  ghost predicate SentBatch(v: State, start: int, items: seq<Item>) {
    0 <= start <= start + |items| <= |v.h.log| && v.h.log[start..start + |items|] == items &&
    forall s :: start <= s < start + |items| ==> s in v.h.published
  }

  /** Takes the permits of a batch one after the other and writes an item through each. */
  method FillBatch(c: Channel, batch: WritePermits, items: seq<Item>, ghost horizon: int)
    requires c.Valid() && c.v.Top() <= horizon && batch.Valid(c.v)
    requires batch.nextSeq == batch.startSeq <= batch.endSeq + 1 && batch.values == []
    requires batch.endSeq - batch.startSeq + 1 == |items|
    modifies batch, c`claimed, c`v, c.states, c.slots, c.consumed
    ensures c.Valid() && Leads(Nobody, old(c.v), c.v) && c.v.Top() <= horizon
    ensures batch.Valid(c.v) && batch.nextSeq > batch.endSeq
    ensures batch.values == items && DoneBy(c.v, batch.a) == DoneBy(old(c.v), batch.a)
  {
    ghost var v0 := c.v;
    var sent := 0;
    var permit := batch.Next(c.v);
    while permit.Some?
      invariant c.Valid() && Leads(Nobody, v0, c.v) && c.v.Top() <= horizon
      invariant 0 <= sent <= |items| && batch.values == items[..sent] && DoneBy(c.v, batch.a) == DoneBy(v0, batch.a)
      invariant if permit.None? then batch.Valid(c.v) && batch.nextSeq > batch.endSeq
                else fresh(permit.value) && permit.value.batch == batch && permit.value.Valid(c.v)
      invariant batch.endSeq == INIT ==> permit.None? && sent == 0
      decreases batch.endSeq + 1 - batch.startSeq - sent
    {
      ghost var v1 := c.v;
      permit.value.Write(c, items[sent], horizon);
      LeadsTrans(Nobody, v0, v1, c.v);
      sent := sent + 1;
      permit := batch.Next(c.v);
    }
  }

  /** Fills a batch and drops it. */
  method SendBatch(c: Channel, batch: WritePermits, items: seq<Item>, ghost horizon: int)
    requires c.Valid() && c.v.Top() <= horizon && batch.Valid(c.v)
    requires batch.nextSeq == batch.startSeq <= batch.endSeq + 1 && batch.values == []
    requires batch.endSeq - batch.startSeq + 1 == |items|
    modifies batch, c`claimed, c`v, c.states, c.slots, c.consumed
    ensures c.Valid() && Leads(Nobody, old(c.v), c.v) && c.v.Top() <= horizon
    ensures SentBatch(c.v, batch.startSeq, items) && DoneBy(c.v, batch.a) == DoneBy(old(c.v), batch.a)
  {
    ghost var v0 := c.v;
    FillBatch(c, batch, items, horizon);
    ghost var v1 := c.v;
    batch.Drop(c, horizon);
    LeadsTrans(Nobody, v0, v1, c.v);
  }

  /** A batch filled in order: a prefix of `items` becomes one contiguous published stretch of the log. */
  method SendAll(c: Channel, ghost a: nat, items: seq<Item>, recycler: Recycler, ghost horizon: int)
    returns (sent: nat, ghost start: int)
    requires c.Valid() && c.v.Top() <= horizon && horizon + 2 * c.size < I64_MAX
    requires CanSend(c.v, a) && |items| <= I64_MAX
    modifies c`claimed, c`v, c.states, c.slots, c.consumed
    ensures c.Valid() && Leads(Nobody, old(c.v), c.v) && c.v.Top() <= horizon + c.size
    ensures sent <= |items| && (sent > 0 ==> |old(c.v).h.log| <= start && SentBatch(c.v, start, items[..sent]))
    ensures sent == 0 && |items| > 0 ==> FullSince(old(c.v), c.v) || NoOneListens(c.v)
    ensures sent > 0 ==> sent == Min(|items|, c.size) || CursorSeen(old(c.v), c.v, start + sent - 1 - c.size)
    ensures DoneBy(c.v, a) ==
      if sent > 0 then AlsoClaimed(DoneBy(old(c.v), a), ClaimRecord(a, start, start + sent - 1, Min(|items|, c.size)))
      else DoneBy(old(c.v), a)
  {
    ghost var v0 := c.v;
    var r := TrySendAtMost(c, a, |items|, recycler, horizon);
    if !r.Reserved? {
      return 0, -1;
    }
    var batch := r.value;
    ghost var v1 := c.v;
    sent := batch.TotalReserved(c.v);
    start := batch.startSeq;
    SendBatch(c, batch, items[..sent], horizon + c.size);
    LeadsTrans(Nobody, v0, v1, c.v);
    if 0 < sent && sent != Min(|items|, c.size) { CursorSeenKept(v0, v1, c.v, start + sent - 1 - c.size); }
  }
}
