/** The channel's code, one atomic access at a time, on shared memory that other threads change in between.

    `v` is the protocol state that the memory and all threads are in.  Every atomic access is one step of the
    protocol; between two of them `Interfere` lets the others take any number of steps. */
module ChannelCode {
  import opened Bits
  import opened RingMath
  import opened Machine
  import opened Runs
  import opened Interference

  const LAP_MASK: int := LAP_SPAN - 1      // `MASK`
  const SHUTDOWN_BIT: int := LAP_SPAN
  const SHUTDOWN_MASK: int := I64_MIN
  const VALUE_MASK: int := I64_MAX

  datatype Option<T> = None | Some(value: T)

  /** What a claim of either side returns: the range [start, end] or a `TryClaimError`. */
  datatype ClaimResult = Ok(start: int, end: int) | ErrEmpty | ErrShutdown

  class Channel {
    const size: int
    const shift: nat
    var claimed: int
    const states: array<int>
    const slots: array<Item>
    const consumed: array<int>
    ghost var v: State
    ghost var further: nat // how many further calls were begun; other threads' do not count

    ghost predicate Valid()
      reads this, states, slots, consumed
    {
      && PowerOfTwoSize(size, shift)
      && states != consumed && states as object != slots && consumed as object != slots
      && v.size == size && v.mem.claimed == claimed && v.mem.words == states[..]
      && v.mem.slots == slots[..] && v.mem.consumed == consumed[..]
      && Reachable(v)
    }

    constructor (size: int, ghost shift: nat, initializer: () -> Item, receivers: nat, ghost senders: nat)
      requires PowerOfTwoSize(size, shift)
      ensures Valid() && fresh(states) && fresh(slots) && fresh(consumed)
      ensures ValidSize(size) && v == Initial(size, seq(size, _ => initializer()), senders, receivers)
    {
      SizeBounds(size, shift);
      this.size, this.shift := size, TrailingZeros(size);
      claimed, further := INIT, 0;
      states := new int[size](_ => 0);
      slots := new Item[size](_ => initializer());
      consumed := new int[receivers](_ => INIT);
      v := Initial(size, seq(size, _ => initializer()), senders, receivers);
      new;
      assert Run(v, [], v);
      RunReaches(size, seq(size, _ => initializer()), senders, receivers, [], v);
      assert states[..] == v.mem.words && slots[..] == v.mem.slots && consumed[..] == v.mem.consumed;
    }

    /** Other threads run.  A caller may rely only on the contract: they took some steps of the protocol, none
        of them `me`'s, and claimed no sequence beyond `horizon`. */
    method Interfere(ghost me: Party, ghost horizon: int)
      requires Valid() && v.Top() <= horizon
      modifies this`claimed, this`v, states, slots, consumed
      ensures Valid() && Leads(Someone(me), old(v), v) && v.Top() <= horizon
    {
    }

    /** Other threads run while sender `a` is between two accesses. */
    method YieldSender(ghost a: nat, ghost horizon: int)
      requires Valid() && v.Top() <= horizon && a < |v.agents|
      modifies this`claimed, this`v, states, slots, consumed
      ensures Valid() && Leads(Nobody, old(v), v) && v.Top() <= horizon && AgentView(old(v), v, a)
    {
      ghost var before := v;
      Interfere(Sender(a), horizon);
      SenderResumes(before, v, a);
    }

    /** Other threads run while receiver `i` is between two accesses. */
    method YieldReceiver(ghost i: nat, ghost horizon: int)
      requires Valid() && v.Top() <= horizon && i < |v.receivers|
      modifies this`claimed, this`v, states, slots, consumed
      ensures Valid() && Leads(Nobody, old(v), v) && v.Top() <= horizon && ReceiverView(old(v), v, i)
    {
      ghost var before := v;
      Interfere(Receiving(i), horizon);
      ReceiverResumes(before, v, i);
    }

    // ----- bit expressions -----

    /** `slot_state`: where a sequence lives, and its lap flag. */
    method SlotState(seqn: int) returns (index: int, flag: int)
      requires PowerOfTwoSize(size, shift)
      ensures size > 0 && index == Index(seqn, size) && flag == Flag(seqn, size)
    {
      SizeBounds(size, shift);
      MaskIsIndex(seqn, size, shift);
      ShiftIsFlag(seqn, size, shift);
      index, flag := IndexOfSeq(seqn, size), AvailableFlag(seqn, shift);
    }

    /** `raw & MASK`. */
    method LapOf(raw: int) returns (lap: int)
      requires 0 <= raw < U32_SPAN
      ensures lap == Lap(raw)
    {
      WordBits(raw);
      lap := AndU32(raw, LAP_MASK);
    }

    /** `(raw & SHUTDOWN_BIT) != 0`. */
    method BitOf(raw: int) returns (bit: bool)
      requires 0 <= raw < U32_SPAN
      ensures bit == HasBit(raw)
    {
      WordBits(raw);
      bit := AndU32(raw, SHUTDOWN_BIT) != 0;
    }

    method FetchOr(index: int, bits: int)
      requires 0 <= index < states.Length && 0 <= states[index] < U32_SPAN && bits == SHUTDOWN_BIT
      modifies states
      ensures states[..] == old(states[..])[index := WithBit(old(states[index]))]
    {
      WordBits(states[index]);
      states[index] := OrU32(states[index], bits);
    }

    // ----- atomic accesses of senders -----

    /** An agent for a further call on a sender handle, whatever calls and permits are outstanding. */
    ghost method FurtherCall() returns (a: nat)
      requires Valid() && !v.dropping
      modifies this`v, this`further
      ensures Valid() && Leads(Nobody, old(v), v) && v.Top() == old(v).Top() && !v.dropping
      ensures further == old(further) + 1
      ensures v.agents == old(v).agents + [Agent(Idle(NotCalled), NoClaim)] && a == |old(v).agents|
    {
      a := |v.agents|;
      Advance(v, Clone);
      v := Apply(v, Clone);
      further := further + 1;
    }

    method LoadClaimed(ghost a: nat, limit: int) returns (raw: int)
      requires Valid() && Enabled(v, StartClaim(a, limit))
      modifies this`v
      ensures Valid() && Leads(Nobody, old(v), v) && v == DoStartClaim(old(v), a, limit) && raw == claimed
    {
      Advance(v, StartClaim(a, limit));
      raw := claimed;
      v := Apply(v, StartClaim(a, limit));
    }

    method LoadCursor(ghost a: nat, i: nat) returns (value: int)
      requires Valid() && Enabled(v, ReadCursor(a)) && v.agents[a].pc.gate.next == i
      modifies this`v
      ensures Valid() && Leads(Nobody, old(v), v)
      ensures old(i < |v.mem.consumed| == |v.receivers|) && v == DoReadCursor(old(v), a)
      ensures value == old(v).mem.consumed[i]
    {
      Advance(v, ReadCursor(a));
      value := consumed[i];
      v := Apply(v, ReadCursor(a));
    }

    /** The strong compare-and-swap on `claimed` that ends one pass of the claim loop. */
    method CompareExchange(ghost a: nat, expected: int, desired: int) returns (ok: bool, observed: int)
      requires Valid() && Enabled(v, Decide(a)) && v.agents[a].pc.gate.n > 0
      requires var g := v.agents[a].pc.gate;
        g.min != SHUTDOWN_OPEN && AvailableSlots(size, g.seen, g.min) > 0 &&
        expected == g.seen && desired == g.seen + Wanted(size, g)
      modifies this`claimed, this`v
      ensures Valid() && Leads(Nobody, old(v), v) && v == DoDecide(old(v), a)
      ensures observed == old(claimed) && ok == (observed == expected)
    {
      Advance(v, Decide(a));
      observed := claimed;
      ok := observed == expected;
      if ok { claimed := desired; }
      v := Apply(v, Decide(a));
    }

    /** The claim loop returns an error without another access. */
    ghost method GiveUp(a: nat)
      requires Valid() && Enabled(v, Decide(a)) && v.agents[a].pc.gate.n > 0
      requires var g := v.agents[a].pc.gate;
        g.min == SHUTDOWN_OPEN || AvailableSlots(size, g.seen, g.min) <= 0
      modifies this`v
      ensures Valid() && Leads(Nobody, old(v), v) && v == DoDecide(old(v), a)
    {
      Advance(v, Decide(a));
      v := Apply(v, Decide(a));
    }

    /** `modify_at` through the permit for `seqn`: a write, an in-place update or the recycler. */
    method ModifyAt(ghost a: nat, seqn: int, modifier: Item -> Item)
      requires Valid() && a < |v.agents| && v.agents[a].pc.Holding? && v.agents[a].claim.Claim?
      requires seqn == v.agents[a].claim.written <= v.agents[a].claim.end
      modifies this`v, slots
      ensures Valid() && Leads(Nobody, old(v), v)
      ensures old(0 <= seqn < |v.h.log| == |v.h.writes| && |v.mem.slots| == v.size > 0)
      ensures v == DoWrite(old(v), a, modifier(old(v).mem.slots[Index(seqn, size)]))
    {
      var index, _ := SlotState(seqn);
      ghost var step := Write(a, modifier(slots[index]));
      Advance(v, step);
      slots[index] := modifier(slots[index]);
      v := Apply(v, step);
    }

    /** One flag store of `publish` or `publish_range`. */
    method StoreFlag(ghost a: nat, seqn: int)
      requires Valid() && Enabled(v, Step.StoreFlag(a)) && seqn == v.agents[a].claim.stored
      modifies this`v, states
      ensures Valid() && Leads(Nobody, old(v), v) && old(|v.mem.words| == v.size > 0) && v == DoStoreFlag(old(v), a)
    {
      Advance(v, Step.StoreFlag(a));
      var index, flag := SlotState(seqn);
      states[index] := flag;
      v := Apply(v, Step.StoreFlag(a));
    }

    method LoadForClose(ghost a: nat, ghost after: After) returns (raw: int)
      requires Valid() && Enabled(v, CloseLoad(a, after))
      modifies this`v
      ensures Valid() && Leads(Nobody, old(v), v) && v == DoCloseLoad(old(v), a, after) && raw == claimed
    {
      Advance(v, CloseLoad(a, after));
      raw := claimed;
      v := Apply(v, CloseLoad(a, after));
    }

    /** One word load of `scan_last_available`. */
    method LoadForScan(ghost a: nat, seqn: int) returns (raw: int)
      requires Valid() && Enabled(v, CloseInspect(a)) && v.agents[a].pc.at == seqn
      modifies this`v
      ensures Valid() && Leads(Nobody, old(v), v) && old(|v.mem.words| == v.size > 0) && v == DoCloseInspect(old(v), a)
      ensures raw == old(v).mem.words[Index(seqn, size)] && 0 <= raw < U32_SPAN
    {
      Advance(v, CloseInspect(a));
      var index, _ := SlotState(seqn);
      raw := states[index];
      v := Apply(v, CloseInspect(a));
    }

    /** The fetch-or that plants the shutdown bit. */
    method MarkShutdown(ghost a: nat, seqn: int)
      requires Valid() && Enabled(v, CloseMark(a)) && v.agents[a].pc.at == seqn
      modifies this`v, states
      ensures Valid() && Leads(Nobody, old(v), v) && old(WellFormed(v)) && v == DoCloseMark(old(v), a)
    {
      Advance(v, CloseMark(a));
      var index, _ := SlotState(seqn);
      FetchOr(index, SHUTDOWN_BIT);
      v := Apply(v, CloseMark(a));
    }

    method StoreClosed(ghost a: nat, raw: int)
      requires Valid() && Enabled(v, CloseStore(a)) && v.agents[a].pc.raw == raw
      modifies this`claimed, this`v
      ensures Valid() && Leads(Nobody, old(v), v) && old(WellFormed(v)) && v == DoCloseStore(old(v), a)
    {
      Advance(v, CloseStore(a));
      ClaimedBits(raw);
      claimed := OrI64(raw, SHUTDOWN_MASK);
      v := Apply(v, CloseStore(a));
    }

    /** `wake` on the waker cell of receiver `j`. */
    ghost method WakeOne(a: nat, j: nat)
      requires Valid() && Enabled(v, Wake(a)) && v.agents[a].pc.next == j
      modifies this`v
      ensures Valid() && Leads(Nobody, old(v), v) && v == DoWake(old(v), a)
    {
      Advance(v, Wake(a));
      v := Apply(v, Wake(a));
    }

    ghost method ReturnFromNotify(a: nat)
      requires Valid() && Enabled(v, Return(a))
      modifies this`v
      ensures Valid() && Leads(Nobody, old(v), v) && v == DoReturn(old(v), a)
    {
      Advance(v, Return(a));
      v := Apply(v, Return(a));
    }

    // ----- atomic accesses of receivers -----

    method LoadConsumed(i: nat, ghost limit: int, ghost mode: Mode) returns (value: int)
      requires Valid() && Enabled(v, StartRecv(i, limit, mode))
      modifies this`v
      ensures Valid() && Leads(Nobody, old(v), v)
      ensures old(|v.mem.consumed| == |v.receivers|) && v == DoStartRecv(old(v), i, limit, mode)
      ensures value == v.mem.consumed[i]
    {
      Advance(v, StartRecv(i, limit, mode));
      value := consumed[i];
      v := Apply(v, StartRecv(i, limit, mode));
    }

    /** One word load of `scan_available_until`. */
    method LoadForRecv(i: nat, seqn: int) returns (raw: int)
      requires Valid() && Enabled(v, Inspect(i)) && v.receivers[i].pc.next == seqn
      modifies this`v
      ensures Valid() && Leads(Nobody, old(v), v) && old(|v.mem.words| == v.size > 0) && v == DoInspect(old(v), i)
      ensures raw == old(v).mem.words[Index(seqn, size)] && 0 <= raw < U32_SPAN
    {
      Advance(v, Inspect(i));
      var index, _ := SlotState(seqn);
      raw := states[index];
      v := Apply(v, Inspect(i));
    }

    /** The waker is registered and the second attempt of the poll loads the cursor. */
    method RegisterAndLoad(i: nat) returns (value: int)
      requires Valid() && Enabled(v, Register(i))
      modifies this`v
      ensures Valid() && Leads(Nobody, old(v), v)
      ensures old(WellFormed(v)) && v == DoRegister(old(v), i) && value == v.mem.consumed[i]
    {
      Advance(v, Register(i));
      value := consumed[i];
      v := Apply(v, Register(i));
    }

    /** `get_ref_at` by the iterator of the live read guard. */
    method GetRefAt(i: nat, seqn: int) returns (item: Item)
      requires Valid() && Enabled(v, ReadNext(i))
      requires seqn == v.receivers[i].pc.start + |v.receivers[i].pc.got|
      modifies this`v
      ensures Valid() && Leads(Nobody, old(v), v) && old(|v.mem.slots| == v.size > 0) && v == DoReadNext(old(v), i)
      ensures item == old(v).mem.slots[Index(seqn, size)]
    {
      Advance(v, ReadNext(i));
      var index, _ := SlotState(seqn);
      item := slots[index];
      v := Apply(v, ReadNext(i));
    }

    /** The read guard is dropped: `commit` or `commit_range`. */
    method StoreConsumed(i: nat, seqn: int)
      requires Valid() && Enabled(v, Commit(i)) && seqn == v.receivers[i].pc.end
      modifies this`v, consumed
      ensures Valid() && Leads(Nobody, old(v), v) && old(WellFormed(v)) && v == DoCommit(old(v), i)
    {
      Advance(v, Commit(i));
      consumed[i] := seqn;
      v := Apply(v, Commit(i));
    }

    /** The receiver is dropped: its cursor no longer gates the senders. */
    method DropConsumer(i: nat)
      requires Valid() && Enabled(v, DropReceiver(i))
      modifies this`v, consumed
      ensures Valid() && Leads(Nobody, old(v), v) && old(WellFormed(v)) && v == DoDropReceiver(old(v), i)
    {
      Advance(v, DropReceiver(i));
      consumed[i] := SHUTDOWN_OPEN;
      v := Apply(v, DropReceiver(i));
    }
  }
}
