/** Write guards: permits, batches of permits, and what their drop does with slots nobody wrote. */
module GuardCode {
  import opened RingMath
  import opened Machine
  import opened Claims
  import opened Runs
  import opened Safety
  import opened Interference
  import opened ChannelCode
  import opened PublisherCode

  /** What the recycler makes of a stale item: it returns, or it panics and leaves some item behind. */
  datatype Recycle = Recycled(value: Item) | Panicked(value: Item)

  type Recycler = Item -> Recycle

  // ----- single accesses through a permit -----

  /** `modify_at` for the next sequence of a claim: it starts from the log entry, and no other entry of the
      claim changes. */
  method ModifyHeld(c: Channel, ghost a: nat, ghost start: int, ghost end: int, seqn: int, modifier: Item -> Item,
                    ghost horizon: int)
    requires c.Valid() && c.v.Top() <= horizon && Held(c.v, a, start, end, seqn) && seqn <= end
    modifies c`claimed, c`v, c.states, c.slots, c.consumed
    ensures c.Valid() && Leads(Nobody, old(c.v), c.v) && c.v.Top() <= horizon && Held(c.v, a, start, end, seqn + 1)
    ensures 0 <= start <= seqn <= end < |old(c.v).h.log| <= |c.v.h.log|
    ensures c.v.h.log[seqn] == modifier(old(c.v).h.log[seqn]) && DoneBy(c.v, a) == DoneBy(old(c.v), a)
    ensures forall s :: start <= s <= end && s != seqn ==> c.v.h.log[s] == old(c.v).h.log[s]
  {
    ghost var v1 := c.v;
    HeldFacts(v1, a, start, end, seqn);
    c.YieldSender(a, horizon);
    ghost var v2 := c.v;
    HeldFacts(v2, a, start, end, seqn);
    c.ModifyAt(a, seqn, modifier);
    LeadsTrans(Nobody, v1, v2, c.v);
  }

  /** `recycle` under `catch_unwind`. */
  method RecycleHeld(c: Channel, ghost a: nat, ghost start: int, ghost end: int, seqn: int, recycler: Recycler,
                     ghost horizon: int)
    returns (panicked: bool)
    requires c.Valid() && c.v.Top() <= horizon && Held(c.v, a, start, end, seqn) && seqn <= end
    modifies c`claimed, c`v, c.states, c.slots, c.consumed
    ensures c.Valid() && Leads(Nobody, old(c.v), c.v) && c.v.Top() <= horizon && Held(c.v, a, start, end, seqn + 1)
    ensures 0 <= start <= seqn <= end < |old(c.v).h.log| <= |c.v.h.log|
    ensures panicked == recycler(old(c.v).h.log[seqn]).Panicked? && DoneBy(c.v, a) == DoneBy(old(c.v), a)
    ensures c.v.h.log[seqn] == recycler(old(c.v).h.log[seqn]).value
    ensures forall s :: start <= s <= end && s != seqn ==> c.v.h.log[s] == old(c.v).h.log[s]
  {
    ghost var v1 := c.v;
    HeldFacts(v1, a, start, end, seqn);
    c.YieldSender(a, horizon);
    ghost var v2 := c.v;
    HeldFacts(v2, a, start, end, seqn);
    var index, _ := c.SlotState(seqn);
    panicked := recycler(c.slots[index]).Panicked?;
    c.ModifyAt(a, seqn, x => recycler(x).value);
    LeadsTrans(Nobody, v1, v2, c.v);
  }

  /** `terminate` after a recycler panic: the claim is given up, or its batch goes on. */
  method Terminate(c: Channel, ghost a: nat, ghost start: int, ghost end: int, ghost written: int, ghost after: After,
                   ghost horizon: int)
    requires c.Valid() && c.v.Top() <= horizon && Held(c.v, a, start, end, written)
    requires after.ToPoisoned? || after.ToHolding?
    modifies c`claimed, c`v, c.states, c.slots, c.consumed
    ensures c.Valid() && Leads(Nobody, old(c.v), c.v) && c.v.Top() <= horizon && NoMoreClaims(c.v)
    ensures ClosedThenWoke(old(c.v), c.v, a, after) && DoneBy(c.v, a) == ClosedOnce(DoneBy(old(c.v), a))
    ensures 0 <= start <= written <= end + 1 <= |old(c.v).h.log| <= |c.v.h.log|
    ensures after.ToHolding? ==>
      && Held(c.v, a, start, end, written)
      && forall s :: start <= s < written ==> c.v.h.log[s] == old(c.v).h.log[s]
    ensures after.ToPoisoned? ==>
      && a < |c.v.agents| && c.v.agents[a] == Agent(Idle(Poisoned), NoClaim)
      && forall s :: start <= s <= end ==> s in c.v.h.abandoned && c.v.h.log[s] == old(c.v).h.log[s]
  {
    ghost var v1 := c.v;
    c.YieldSender(a, horizon);
    ghost var v2 := c.v;
    Close(c, a, after, horizon);
    LeadsTrans(Nobody, v1, v2, c.v);
    ClosedThenWokeSince(v1, v2, c.v, a, after);
    HeldStays(v1, c.v, a, start, end, written);
    if after.ToPoisoned? { HeldGoes(v1, v2, c.v, a, start, end, written); }
  }

  /** What is given up of a claim is all of it, with the entries it had. */
  lemma HeldGoes(u: State, w: State, v: State, a: nat, start: int, end: int, written: int)
    requires Reachable(u) && Held(u, a, start, end, written) && AgentView(u, w, a)
    requires GivenUpAt(w, v, Unpublished(Claim(start, end, written, start)))
    ensures 0 <= start && end < |u.h.log| <= |v.h.log|
    ensures forall s :: start <= s <= end ==> s in v.h.abandoned && v.h.log[s] == u.h.log[s]
  {
    HeldFacts(u, a, start, end, written);
  }

  /** What was written of a claim stays in the log. */
  lemma HeldStays(u: State, v: State, a: nat, start: int, end: int, written: int)
    requires Reachable(u) && Held(u, a, start, end, written) && Leads(Nobody, u, v)
    ensures 0 <= start <= written <= end + 1 <= |u.h.log| <= |v.h.log|
    ensures forall s :: start <= s < written ==> v.h.log[s] == u.h.log[s]
  {
    HeldFacts(u, a, start, end, written);
    LeadsHistory(u, v);
  }

  // ----- the permit of `try_reserve` -----

  class WritePermit {
    const sequence: int
    const recycler: Recycler
    var wrote: bool
    ghost const a: nat

    ghost predicate Valid(v: State)
      reads this
    {
      !wrote && Held(v, a, sequence, sequence, sequence)
    }

    constructor (sequence: int, recycler: Recycler, ghost a: nat)
      ensures this.sequence == sequence && this.recycler == recycler && this.a == a && !wrote
    {
      this.sequence, this.recycler, this.a, this.wrote := sequence, recycler, a, false;
    }

    /** The item is published under the permit's sequence. */
    method Write(c: Channel, item: Item, ghost horizon: int)
      requires c.Valid() && c.v.Top() <= horizon && Valid(c.v)
      modifies this, c`claimed, c`v, c.states, c.slots, c.consumed
      ensures c.Valid() && Leads(Nobody, old(c.v), c.v) && c.v.Top() <= horizon
      ensures a < |c.v.agents| && c.v.agents[a] == Agent(Idle(Sent), NoClaim)
      ensures sequence in c.v.h.published && 0 <= sequence < |c.v.h.log| && c.v.h.log[sequence] == item
      ensures DoneBy(c.v, a) == DoneBy(old(c.v), a)
    {
      ghost var v0 := c.v;
      ModifyHeld(c, a, sequence, sequence, sequence, _ => item, horizon);
      ghost var v1 := c.v;
      wrote := true;
      Drop(c, horizon);
      LeadsTrans(Nobody, v0, v1, c.v);
    }

    /** What `f` makes of the slot's stale item is published. */
    method UpdateInPlace(c: Channel, f: Item -> Item, ghost horizon: int)
      requires c.Valid() && c.v.Top() <= horizon && Valid(c.v)
      modifies this, c`claimed, c`v, c.states, c.slots, c.consumed
      ensures c.Valid() && Leads(Nobody, old(c.v), c.v) && c.v.Top() <= horizon
      ensures a < |c.v.agents| && c.v.agents[a] == Agent(Idle(Sent), NoClaim)
      ensures 0 <= sequence < |old(c.v).h.log| <= |c.v.h.log| && sequence in c.v.h.published
      ensures c.v.h.log[sequence] == f(old(c.v).h.log[sequence]) && DoneBy(c.v, a) == DoneBy(old(c.v), a)
    {
      ghost var v0 := c.v;
      ModifyHeld(c, a, sequence, sequence, sequence, f, horizon);
      ghost var v1 := c.v;
      wrote := true;
      Drop(c, horizon);
      LeadsTrans(Nobody, v0, v1, c.v);
    }

    /** A written permit is published; an unwritten one is recycled and published, or, if the recycler panics,
        given up with the channel shut down. */
    method Drop(c: Channel, ghost horizon: int)
      requires c.Valid() && c.v.Top() <= horizon
      requires Held(c.v, a, sequence, sequence, if wrote then sequence + 1 else sequence)
      modifies c`claimed, c`v, c.states, c.slots, c.consumed
      ensures c.Valid() && Leads(Nobody, old(c.v), c.v) && c.v.Top() <= horizon
      ensures a < |c.v.agents| && c.v.agents[a].claim.NoClaim?
      ensures 0 <= sequence < |old(c.v).h.log| <= |c.v.h.log|
      ensures c.v.h.log[sequence] ==
              if wrote then old(c.v).h.log[sequence] else recycler(old(c.v).h.log[sequence]).value
      ensures var stale := old(c.v).h.log[sequence];
        if wrote || recycler(stale).Recycled? then
          c.v.agents[a].pc == Idle(Sent) && sequence in c.v.h.published && DoneBy(c.v, a) == DoneBy(old(c.v), a)
        else
          && c.v.agents[a].pc == Idle(Poisoned) && sequence in c.v.h.abandoned && NoMoreClaims(c.v)
          && DoneBy(c.v, a) == ClosedOnce(DoneBy(old(c.v), a))
    {
      ghost var v0 := c.v;
      var panicked := false;
      if !wrote {
        panicked := RecycleHeld(c, a, sequence, sequence, sequence, recycler, horizon);
      }
      ghost var v1 := c.v;
      if panicked {
        HeldFacts(v1, a, sequence, sequence, sequence + 1);
        Terminate(c, a, sequence, sequence, sequence + 1, ToPoisoned, horizon);
        LeadsTrans(Nobody, v0, v1, c.v);
        LeadsHistory(v1, c.v);
        return;
      }
      CommitRange(c, a, sequence, sequence, horizon);
      LeadsTrans(Nobody, v0, v1, c.v);
    }
  }

  // ----- the batch of `try_send_at_most` -----

  /** The recycler would return for every stale item of [from, end]. */
  ghost predicate AllRecycle(recycler: Recycler, log: seq<Item>, from: int, end: int)
    requires 0 <= from && end < |log|
  {
    forall s :: from <= s <= end ==> recycler(log[s]).Recycled?
  }

  /** What is in the end in the slot of `s`: the value of its permit, if there was one; else what the recycler makes
      of the stale item, if it gets that far; else the stale item. */
  ghost function LeftBy(recycler: Recycler, stale: seq<Item>, values: seq<Item>, start: int, next: int, s: int): Item
    requires 0 <= start <= s < |stale| && start <= next == start + |values|
  {
    if s < next then values[s - start]
    else if AllRecycle(recycler, stale, next, s - 1) then recycler(stale[s]).value
    else stale[s]
  }

  class WritePermits {
    const startSeq: int
    const endSeq: int
    const recycler: Recycler
    var nextSeq: int
    ghost const a: nat
    ghost var values: seq<Item> // what the permits handed out so far left in their slots

    /** The sequences before `written` hold `values`. */
    ghost predicate WrittenUpTo(v: State, written: int)
      reads this
    {
      && 0 <= startSeq <= written <= endSeq + 1 <= |v.h.log| && Held(v, a, startSeq, endSeq, written)
      && |values| == written - startSeq
      && forall s :: startSeq <= s < written ==> v.h.log[s] == values[s - startSeq]
    }

    /** No permit of the batch is out. */
    ghost predicate Valid(v: State)
      reads this
    {
      if endSeq == INIT then startSeq == nextSeq == 0 && values == [] else WrittenUpTo(v, nextSeq)
    }

    /** The permit for `seqn` is out. */
    ghost predicate Lent(v: State, seqn: int)
      reads this
    {
      endSeq != INIT && nextSeq == seqn + 1 && seqn <= endSeq && WrittenUpTo(v, seqn)
    }

    constructor (startSeq: int, endSeq: int, recycler: Recycler, ghost a: nat, ghost v: State)
      requires if endSeq == INIT then startSeq == 0
               else 0 <= startSeq <= endSeq < |v.h.log| && Held(v, a, startSeq, endSeq, startSeq)
      ensures Valid(v) && this.startSeq == startSeq && this.endSeq == endSeq && nextSeq == startSeq && values == []
      ensures this.recycler == recycler && this.a == a
    {
      this.startSeq, this.endSeq, this.recycler, this.a := startSeq, endSeq, recycler, a;
      nextSeq, values := startSeq, [];
    }

    /** How many sequences were reserved: those whose permit was handed out and those that are left. */
    method TotalReserved(ghost v: State) returns (n: int)
      requires Valid(v)
      ensures n >= 0 && n == |values| + (endSeq + 1 - nextSeq)
    {
      n := endSeq - startSeq + 1;
    }

    /** The permit for the next sequence, until the range is used up. */
    method Next(ghost v: State) returns (permit: Option<BatchWritePermit>)
      requires Valid(v)
      modifies this
      ensures values == old(values) && (permit.None? <==> old(nextSeq) > endSeq)
      ensures permit.None? ==> nextSeq == old(nextSeq) && Valid(v)
      ensures permit.Some? ==>
        && fresh(permit.value) && permit.value.batch == this
        && permit.value.sequence == old(nextSeq) && permit.value.Valid(v)
    {
      if nextSeq > endSeq {
        return None;
      }
      var seqn := nextSeq;
      nextSeq := nextSeq + 1;
      var p := new BatchWritePermit(seqn, this);
      return Some(p);
    }

    method UpdateInPlace(c: Channel, seqn: int, f: Item -> Item, ghost horizon: int)
      requires c.Valid() && c.v.Top() <= horizon && Lent(c.v, seqn)
      modifies this`values, c`claimed, c`v, c.states, c.slots, c.consumed
      ensures c.Valid() && Leads(Nobody, old(c.v), c.v) && c.v.Top() <= horizon && Valid(c.v)
      ensures seqn < |old(c.v).h.log| && values == old(values) + [f(old(c.v).h.log[seqn])]
      ensures DoneBy(c.v, a) == DoneBy(old(c.v), a)
    {
      ModifyHeld(c, a, startSeq, endSeq, seqn, f, horizon);
      values := values + [c.v.h.log[seqn]];
    }

    method Recycle(c: Channel, seqn: int, ghost horizon: int) returns (panicked: bool)
      requires c.Valid() && c.v.Top() <= horizon && Lent(c.v, seqn)
      modifies this`values, c`claimed, c`v, c.states, c.slots, c.consumed
      ensures c.Valid() && Leads(Nobody, old(c.v), c.v) && c.v.Top() <= horizon && Valid(c.v)
      ensures seqn < |old(c.v).h.log| && values == old(values) + [recycler(old(c.v).h.log[seqn]).value]
      ensures panicked == recycler(old(c.v).h.log[seqn]).Panicked? && DoneBy(c.v, a) == DoneBy(old(c.v), a)
    {
      panicked := RecycleHeld(c, a, startSeq, endSeq, seqn, recycler, horizon);
      values := values + [c.v.h.log[seqn]];
    }

    /** The tail loop of the drop: what no permit took is recycled, up to the first panic. */
    method RecycleRest(c: Channel, ghost horizon: int) returns (panicked: bool)
      requires c.Valid() && c.v.Top() <= horizon && endSeq != INIT && Valid(c.v)
      modifies this, c`claimed, c`v, c.states, c.slots, c.consumed
      ensures c.Valid() && Leads(Nobody, old(c.v), c.v) && c.v.Top() <= horizon
      ensures 0 <= startSeq <= old(nextSeq) <= endSeq + 1 <= |old(c.v).h.log| <= |c.v.h.log|
      ensures |old(values)| == old(nextSeq) - startSeq && DoneBy(c.v, a) == DoneBy(old(c.v), a)
      ensures panicked == !AllRecycle(recycler, old(c.v).h.log, old(nextSeq), endSeq)
      ensures if panicked then exists written :: Held(c.v, a, startSeq, endSeq, written)
              else Held(c.v, a, startSeq, endSeq, endSeq + 1)
      ensures forall s :: startSeq <= s <= endSeq ==>
                c.v.h.log[s] == LeftBy(recycler, old(c.v).h.log, old(values), startSeq, old(nextSeq), s)
    {
      ghost var v0, first := c.v, nextSeq;
      while nextSeq <= endSeq
        invariant c.Valid() && Leads(Nobody, v0, c.v) && c.v.Top() <= horizon
        invariant first <= nextSeq && |v0.h.log| <= |c.v.h.log| && Valid(c.v)
        invariant old(values) <= values && DoneBy(c.v, a) == DoneBy(v0, a)
        invariant forall s :: nextSeq <= s <= endSeq ==> c.v.h.log[s] == v0.h.log[s]
        invariant forall s :: first <= s < nextSeq ==>
                    recycler(v0.h.log[s]).Recycled? && c.v.h.log[s] == recycler(v0.h.log[s]).value
      {
        ghost var v1 := c.v;
        panicked := RecycleHeld(c, a, startSeq, endSeq, nextSeq, recycler, horizon);
        LeadsTrans(Nobody, v0, v1, c.v);
        if panicked {
          return;
        }
        values := values + [c.v.h.log[nextSeq]];
        nextSeq := nextSeq + 1;
      }
      panicked := false;
    }

    /** The batch is dropped: what no permit took is recycled, then exactly the range is published, each sequence
        with what its permit or the recycler left; if the recycler panics, the whole range is given up. */
    method Drop(c: Channel, ghost horizon: int)
      requires c.Valid() && c.v.Top() <= horizon && Valid(c.v)
      modifies this, c`claimed, c`v, c.states, c.slots, c.consumed
      ensures c.Valid() && Leads(Nobody, old(c.v), c.v) && c.v.Top() <= horizon
      ensures endSeq == INIT ==> c.v == old(c.v)
      ensures endSeq != INIT ==>
        && a < |c.v.agents| && c.v.agents[a].claim.NoClaim?
        && 0 <= startSeq <= old(nextSeq) <= endSeq + 1 <= |old(c.v).h.log| <= |c.v.h.log|
        && |old(values)| == old(nextSeq) - startSeq
        && (forall s :: startSeq <= s <= endSeq ==>
              c.v.h.log[s] == LeftBy(recycler, old(c.v).h.log, old(values), startSeq, old(nextSeq), s))
        && if AllRecycle(recycler, old(c.v).h.log, old(nextSeq), endSeq) then
             c.v.agents[a].pc == Idle(Sent) && DoneBy(c.v, a) == DoneBy(old(c.v), a) &&
             forall s :: startSeq <= s <= endSeq ==> s in c.v.h.published
           else
             c.v.agents[a].pc == Idle(Poisoned) && NoMoreClaims(c.v) &&
             DoneBy(c.v, a) == ClosedOnce(DoneBy(old(c.v), a)) &&
             forall s :: startSeq <= s <= endSeq ==> s in c.v.h.abandoned
    {
      if endSeq == INIT {
        return;
      }
      ghost var v0 := c.v;
      var panicked := RecycleRest(c, horizon);
      ghost var v1 := c.v;
      if panicked {
        ghost var written :| Held(v1, a, startSeq, endSeq, written);
        Terminate(c, a, startSeq, endSeq, written, ToPoisoned, horizon);
        LeadsTrans(Nobody, v0, v1, c.v);
        LeadsHistory(v1, c.v);
        return;
      }
      CommitRange(c, a, startSeq, endSeq, horizon);
      LeadsTrans(Nobody, v0, v1, c.v);
    }
  }

  /** One permit of a batch; the batch publishes it. */
  class BatchWritePermit {
    const sequence: int
    const batch: WritePermits
    var wrote: bool

    ghost predicate Valid(v: State)
      reads this, batch
    {
      !wrote && batch.Lent(v, sequence)
    }

    constructor (sequence: int, batch: WritePermits)
      ensures this.sequence == sequence && this.batch == batch && !wrote
    {
      this.sequence, this.batch, this.wrote := sequence, batch, false;
    }

    method Write(c: Channel, item: Item, ghost horizon: int)
      requires c.Valid() && c.v.Top() <= horizon && Valid(c.v)
      modifies this, batch`values, c`claimed, c`v, c.states, c.slots, c.consumed
      ensures c.Valid() && Leads(Nobody, old(c.v), c.v) && c.v.Top() <= horizon && batch.Valid(c.v)
      ensures batch.values == old(batch.values) + [item] && DoneBy(c.v, batch.a) == DoneBy(old(c.v), batch.a)
    {
      batch.UpdateInPlace(c, sequence, _ => item, horizon);
      wrote := true;
      Drop(c, horizon);
    }

    method UpdateInPlace(c: Channel, f: Item -> Item, ghost horizon: int)
      requires c.Valid() && c.v.Top() <= horizon && Valid(c.v)
      modifies this, batch`values, c`claimed, c`v, c.states, c.slots, c.consumed
      ensures c.Valid() && Leads(Nobody, old(c.v), c.v) && c.v.Top() <= horizon && batch.Valid(c.v)
      ensures 0 <= sequence < |old(c.v).h.log| && batch.values == old(batch.values) + [f(old(c.v).h.log[sequence])]
      ensures DoneBy(c.v, batch.a) == DoneBy(old(c.v), batch.a)
    {
      batch.UpdateInPlace(c, sequence, f, horizon);
      wrote := true;
      Drop(c, horizon);
    }

    /** An unwritten permit recycles its slot; if the recycler panics the channel shuts down, and the batch keeps
        what the recycler left. */
    method Drop(c: Channel, ghost horizon: int)
      requires c.Valid() && c.v.Top() <= horizon && if wrote then batch.Valid(c.v) else batch.Lent(c.v, sequence)
      modifies batch`values, c`claimed, c`v, c.states, c.slots, c.consumed
      ensures c.Valid() && Leads(Nobody, old(c.v), c.v) && c.v.Top() <= horizon && batch.Valid(c.v)
      ensures wrote ==> c.v == old(c.v) && batch.values == old(batch.values)
      ensures !wrote ==>
        && 0 <= sequence < |old(c.v).h.log|
        && batch.values == old(batch.values) + [batch.recycler(old(c.v).h.log[sequence]).value]
        && if batch.recycler(old(c.v).h.log[sequence]).Panicked? then
             NoMoreClaims(c.v) && DoneBy(c.v, batch.a) == ClosedOnce(DoneBy(old(c.v), batch.a))
           else DoneBy(c.v, batch.a) == DoneBy(old(c.v), batch.a)
    {
      if !wrote {
        ghost var v0 := c.v;
        var panicked := batch.Recycle(c, sequence, horizon);
        if panicked {
          ghost var v1 := c.v;
          Terminate(c, batch.a, batch.startSeq, batch.endSeq, sequence + 1, ToHolding, horizon);
          LeadsTrans(Nobody, v0, v1, c.v);
          LeadsHistory(v0, c.v);
        }
      }
    }
  }
}
