/** Every atomic step keeps the invariant and only extends the history. */
module Preservation {
  import opened Bits
  import opened RingMath
  import opened Machine
  import opened Invariant

  /** Nothing was ever claimed: the all-zero words are the flags of the lap before the first. */
  lemma InitialCore(size: int, slots: seq<Item>, m: nat, n: nat)
    requires ValidSize(size) && |slots| == size
    ensures Core(Initial(size, slots, m, n))
  {
    var v := Initial(size, slots, m, n);
    assert PublishedEnd({}) == -1;
    forall s | v.P() < s <= v.P() + v.size
      ensures Lap(v.mem.words[Index(s, v.size)]) == Flag(s - v.size, v.size)
    {
      BeforeFirstLap(s - v.size, v.size);
    }
  }

  // ----- local steps of senders -----

  lemma StepStartClaim(v: State, a: nat, limit: int)
    requires Core(v) && Enabled(v, StartClaim(a, limit))
    ensures Core(DoStartClaim(v, a, limit)) && Evolves(v, DoStartClaim(v, a, limit))
  {
    PrefixBelowTop(v);
    var v' := DoStartClaim(v, a, limit);
    assert AgentOk(v, a, v.agents[a]);
    assert v.agents[a].claim.NoClaim?;
    if !HasShutdown(v.mem.claimed) {
      assert GateOk(v, v'.agents[a].pc.gate) by {
        forall j: nat | j < |v.receivers| && v.Live(j)
          ensures v.mem.consumed[j] <= v.Top()
        {
          assert ReceiverOk(v, v.mem.consumed[j], v.receivers[j]);
        }
      }
    }
    AgentLocal(v, v', a, v'.agents[a]);
  }

  /** A live cursor a full lap behind `seen` shows a full ring at the instant it is read. */
  lemma LapBehindIsFull(v: State, i: nat, seen: int)
    requires WellFormed(v) && i < |v.receivers| && v.Live(i) && seen <= v.Top()
    requires forall k: nat :: k < |v.receivers| ==> ReceiverOk(v, v.mem.consumed[k], v.receivers[k])
    requires v.mem.consumed[i] == seen - v.size
    ensures RingFull(v)
  {
    assert ReceiverOk(v, v.mem.consumed[i], v.receivers[i]);
    forall k: nat | k < |v.receivers| && v.Live(k)
      ensures v.mem.consumed[i] <= v.mem.consumed[k]
    {
      assert ReceiverOk(v, v.mem.consumed[k], v.receivers[k]);
    }
  }

  lemma ReadCursorGate(v: State, a: nat)
    requires WellFormed(v) && ClaimedOk(v) && Enabled(v, ReadCursor(a)) && GateOk(v, v.agents[a].pc.gate)
    requires forall k: nat :: k < |v.receivers| ==> ReceiverOk(v, v.mem.consumed[k], v.receivers[k])
    ensures GateOk(v, DoReadCursor(v, a).agents[a].pc.gate)
  {
    var g := v.agents[a].pc.gate;
    assert ReceiverOk(v, v.mem.consumed[g.next], v.receivers[g.next]);
    if v.Live(g.next) && v.mem.consumed[g.next] == g.seen - v.size { LapBehindIsFull(v, g.next, g.seen); }
  }

  lemma StepReadCursor(v: State, a: nat)
    requires Core(v) && Enabled(v, ReadCursor(a))
    ensures Core(DoReadCursor(v, a)) && Evolves(v, DoReadCursor(v, a))
  {
    assert AgentOk(v, a, v.agents[a]);
    ReadCursorGate(v, a);
    AgentLocal(v, DoReadCursor(v, a), a, DoReadCursor(v, a).agents[a]);
  }

  lemma StepDecideLocal(v: State, a: nat)
    requires Core(v) && Enabled(v, Decide(a)) && !CasWins(v, v.agents[a].pc.gate)
    ensures Core(DoDecide(v, a)) && Evolves(v, DoDecide(v, a))
  {
    var v' := DoDecide(v, a);
    var g := v.agents[a].pc.gate;
    assert AgentOk(v, a, v.agents[a]);
    if v'.agents[a].pc.Gating? {
      assert GateOk(v, v'.agents[a].pc.gate);
    }
    AgentLocal(v, v', a, v'.agents[a]);
  }

  lemma CloseInspectAgent(v: State, a: nat)
    requires WellFormed(v) && Enabled(v, CloseInspect(a)) && AgentOk(v, a, v.agents[a])
    ensures AgentOk(v, a, DoCloseInspect(v, a).agents[a])
  {}

  lemma StepCloseInspect(v: State, a: nat)
    requires Core(v) && Enabled(v, CloseInspect(a))
    ensures Core(DoCloseInspect(v, a)) && Evolves(v, DoCloseInspect(v, a))
  {
    assert AgentOk(v, a, v.agents[a]);
    CloseInspectAgent(v, a);
    AgentLocal(v, DoCloseInspect(v, a), a, DoCloseInspect(v, a).agents[a]);
  }

  lemma StepWake(v: State, a: nat)
    requires Core(v) && Enabled(v, Wake(a))
    ensures Core(DoWake(v, a)) && Evolves(v, DoWake(v, a))
  {
    var v' := DoWake(v, a);
    assert AgentOk(v, a, v.agents[a]);
    AgentLocal(v, v', a, v'.agents[a]);
  }

  lemma StepReturn(v: State, a: nat)
    requires Core(v) && Enabled(v, Return(a))
    ensures Core(DoReturn(v, a)) && Evolves(v, DoReturn(v, a))
  {
    var v' := DoReturn(v, a);
    assert AgentOk(v, a, v.agents[a]);
    AgentLocal(v, v', a, v'.agents[a]);
  }

  // ----- receivers -----

  lemma StepStartRecv(v: State, i: nat, limit: int, mode: Mode)
    requires Core(v) && Enabled(v, StartRecv(i, limit, mode))
    ensures Core(DoStartRecv(v, i, limit, mode)) && Evolves(v, DoStartRecv(v, i, limit, mode))
  {
    var v' := DoStartRecv(v, i, limit, mode);
    assert ReceiverOk(v, v.mem.consumed[i], v.receivers[i]);
    ReceiverLocal(v, v', i, v'.receivers[i].pc);
  }

  lemma StepRegister(v: State, i: nat)
    requires Core(v) && Enabled(v, Register(i))
    ensures Core(DoRegister(v, i)) && Evolves(v, DoRegister(v, i))
  {
    var v' := DoRegister(v, i);
    assert ReceiverOk(v, v.mem.consumed[i], v.receivers[i]);
    ReceiverLocal(v, v', i, v'.receivers[i].pc);
  }

  /** In the lap after a live cursor, a slot word carries the lap flag of `s` exactly when `s` is published. */
  lemma FlagMeansPublished(v: State, i: nat, s: int)
    requires Core(v) && i < |v.receivers| && v.Live(i)
    requires v.mem.consumed[i] < s <= v.mem.consumed[i] + v.size
    ensures Lap(v.mem.words[Index(s, v.size)]) == Flag(s, v.size) <==> s in v.h.published
  {
    PrefixBelowTop(v);
    assert ReceiverOk(v, v.mem.consumed[i], v.receivers[i]);
    FlagInWindow(v, s);
  }

  /** The same for the last lap of claims. */
  lemma FlagInWindow(v: State, s: int)
    requires Core(v) && v.Top() - v.size < s <= v.P() + v.size
    ensures Lap(v.mem.words[Index(s, v.size)]) == Flag(s, v.size) <==>
            s in v.h.published || s < 0
  {
    PrefixBelowTop(v);
    LapBefore(s, v.size);
    if s <= v.P() {
      LapBefore(s + v.size, v.size);
      assert s + v.size !in v.h.published;
    }
  }

  /** A scan only ever passes published sequences. */
  lemma InspectOk(v: State, i: nat)
    requires Core(v) && Enabled(v, Inspect(i))
    ensures v.Live(i) && ReceiverOk(v, v.mem.consumed[i], DoInspect(v, i).receivers[i])
    ensures ReceiverBounds(DoInspect(v, i).receivers[i].pc)
  {
    assert ReceiverOk(v, v.mem.consumed[i], v.receivers[i]);
    assert v.Live(i);
    PrefixBelowTop(v);
    FlagMeansPublished(v, i, v.receivers[i].pc.next);
    ScannedIsPublished(v, i);
  }

  lemma ScannedIsPublished(v: State, i: nat)
    requires WellFormed(v) && Enabled(v, Inspect(i)) && v.P() <= v.Top()
    requires ReceiverOk(v, v.mem.consumed[i], v.receivers[i])
    requires var next := v.receivers[i].pc.next;
      Lap(v.mem.words[Index(next, v.size)]) == Flag(next, v.size) <==> next in v.h.published
    ensures ReceiverOk(v, v.mem.consumed[i], DoInspect(v, i).receivers[i])
    ensures ReceiverBounds(DoInspect(v, i).receivers[i].pc)
  {
    var pc' := DoInspect(v, i).receivers[i].pc;
    assert pc'.Reading? && pc'.end > v.P() ==> v.P() + 1 in v.h.published;
  }

  lemma StepInspect(v: State, i: nat)
    requires Core(v) && Enabled(v, Inspect(i))
    ensures Core(DoInspect(v, i)) && Evolves(v, DoInspect(v, i))
  {
    InspectOk(v, i);
    ReceiverLocal(v, DoInspect(v, i), i, DoInspect(v, i).receivers[i].pc);
  }

  lemma StepReadNext(v: State, i: nat)
    requires Core(v) && Enabled(v, ReadNext(i))
    ensures Core(DoReadNext(v, i)) && Evolves(v, DoReadNext(v, i))
  {
    var v' := DoReadNext(v, i);
    PrefixBelowTop(v);
    assert ReceiverOk(v, v.mem.consumed[i], v.receivers[i]);
    ReceiverLocal(v, v', i, v'.receivers[i].pc);
  }

  /** The batch a read guard gives access to is the log from its start to its end. */
  lemma BatchIsLog(v: State, i: nat)
    requires Core(v) && Enabled(v, Commit(i))
    ensures v.receivers[i].pc.end < |v.h.log|
    ensures 0 <= v.receivers[i].pc.start <= v.receivers[i].pc.end + 1
    ensures Contents(v.mem.slots, v.size, v.receivers[i].pc.start, v.receivers[i].pc.end - v.receivers[i].pc.start + 1)
         == v.h.log[v.receivers[i].pc.start..v.receivers[i].pc.end + 1]
  {
    assert ReceiverOk(v, v.mem.consumed[i], v.receivers[i]);
    PrefixBelowTop(v);
  }

  lemma CommitEvolves(v: State, i: nat)
    requires WellFormed(v) && Enabled(v, Commit(i)) && v.mem.consumed[i] <= v.receivers[i].pc.end
    ensures WellFormed(DoCommit(v, i)) && Evolves(v, DoCommit(v, i))
  {
    assert WellFormed(DoCommit(v, i));
  }

  /** The stream grows by the log entries of the batch, and the cursor moves to its end. */
  lemma CommitOwn(v: State, v': State, c: int, r: Receiver)
    requires r.pc.Reading? && v.P() <= v.Top() && ReceiverOk(v, c, r)
    requires v'.size == v.size && v'.P() == v.P() && v'.Top() == v.Top() && v'.h.log == v.h.log
    ensures ReceiverOk(v', r.pc.end, Receiver(Resting(Received), r.stream + v.h.log[r.pc.start..r.pc.end + 1]))
  {
    assert v.h.log[..c + 1] + v.h.log[c + 1..r.pc.end + 1] == v.h.log[..r.pc.end + 1];
  }

  lemma StepCommit(v: State, i: nat)
    requires Core(v) && Enabled(v, Commit(i))
    ensures Core(DoCommit(v, i)) && Evolves(v, DoCommit(v, i))
  {
    assert ReceiverOk(v, v.mem.consumed[i], v.receivers[i]);
    PrefixBelowTop(v);
    CommitReceiverOk(v, i);
    CommitEvolves(v, i);
    ReceiverStepKeeps(v, DoCommit(v, i), i);
  }

  lemma CommitReceiverOk(v: State, i: nat)
    requires Core(v) && Enabled(v, Commit(i))
    ensures ReceiverOk(DoCommit(v, i), v.receivers[i].pc.end, DoCommit(v, i).receivers[i])
  {
    assert ReceiverOk(v, v.mem.consumed[i], v.receivers[i]);
    PrefixBelowTop(v);
    BatchIsLog(v, i);
    CommitOwn(v, DoCommit(v, i), v.mem.consumed[i], v.receivers[i]);
  }

  lemma StepDropReceiver(v: State, i: nat)
    requires Core(v) && Enabled(v, DropReceiver(i))
    ensures Core(DoDropReceiver(v, i)) && Evolves(v, DoDropReceiver(v, i))
  {
    var v' := DoDropReceiver(v, i);
    assert ReceiverOk(v, v.mem.consumed[i], v.receivers[i]);
    PrefixBelowTop(v);
    assert WellFormed(v');
    assert Evolves(v, v');
    ReceiverStepKeeps(v, v', i);
  }

  // ----- steps of senders that write shared memory -----

  lemma StepClone(v: State)
    requires Core(v) && Enabled(v, Clone)
    ensures Core(Apply(v, Clone)) && Evolves(v, Apply(v, Clone))
  {
    var v' := Apply(v, Clone);
    assert WellFormed(v');
    assert OwnersOk(v') by {
      forall s | 0 <= s <= v'.Top() && s !in v'.h.published && s !in v'.h.abandoned
        ensures Holds(v', v'.h.owner[s], s)
      {
        assert Holds(v, v.h.owner[s], s);
      }
    }
    MemorySame(v, v');
    AgentStepKeeps(v, v', |v.agents|);
  }

  /** A claim beyond the gate would outrun neither the published prefix nor a live receiver. */
  lemma ClaimWithinLap(v: State, a: nat)
    requires Core(v) && Enabled(v, Decide(a)) && CasWins(v, v.agents[a].pc.gate)
    ensures v.Top() == v.mem.claimed == v.agents[a].pc.gate.seen
    ensures 1 <= Wanted(v.size, v.agents[a].pc.gate) <= v.size
    ensures v.Top() + Wanted(v.size, v.agents[a].pc.gate) <= v.P() + v.size
    ensures forall j: nat :: j < |v.receivers| && v.Live(j) ==>
              v.Top() + Wanted(v.size, v.agents[a].pc.gate) <= v.mem.consumed[j] + v.size
  {
    assert AgentOk(v, a, v.agents[a]);
  }

  lemma ClaimEvolves(v: State, a: nat)
    requires WellFormed(v) && ClaimedOk(v) && PublishedOk(v)
    requires Enabled(v, Decide(a)) && CasWins(v, v.agents[a].pc.gate)
    requires v.agents[a].claim.NoClaim? && !v.dropping && v.agents[a].pc.gate.seen == v.Top()
    ensures WellFormed(DoDecide(v, a)) && Evolves(v, DoDecide(v, a))
    ensures OnlyAgentMoved(v, DoDecide(v, a), a)
  {
    var v' := DoDecide(v, a);
    assert WellFormed(v');
    assert v'.h.owner[..|v.h.owner|] == v.h.owner;
  }

  /** New log entries start as the stale contents of their slots. */
  lemma ClaimKeepsSlots(size: int, slots: seq<Item>, log: seq<Item>, k: nat)
    requires size > 0 && |slots| == size && SlotsMatch(size, slots, log) && k <= size
    ensures SlotsMatch(size, slots, log + Contents(slots, size, |log|, k))
  {
    var log' := log + Contents(slots, size, |log|, k);
    forall s | 0 <= s && |log'| - 1 - size < s < |log'|
      ensures slots[Index(s, size)] == log'[s]
    {
      if s >= |log| { assert log'[s] == Contents(slots, size, |log|, k)[s - |log|]; }
    }
  }

  lemma ClaimMemory(v: State, a: nat)
    requires WellFormed(v) && ClaimedOk(v) && PublishedOk(v) && FlagsOk(v) && DataOk(v)
    requires Enabled(v, Decide(a)) && CasWins(v, v.agents[a].pc.gate)
    requires v.agents[a].pc.gate.seen == v.Top() && 1 <= Wanted(v.size, v.agents[a].pc.gate) <= v.size
    requires v.Top() + Wanted(v.size, v.agents[a].pc.gate) <= v.P() + v.size
    ensures ClaimedOk(DoDecide(v, a)) && PublishedOk(DoDecide(v, a))
    ensures FlagsOk(DoDecide(v, a)) && DataOk(DoDecide(v, a))
  {
    ClaimKeepsSlots(v.size, v.mem.slots, v.h.log, Wanted(v.size, v.agents[a].pc.gate));
  }

  lemma ClaimAgentOk(v: State, a: nat)
    requires WellFormed(v) && PublishedOk(v) && Enabled(v, Decide(a)) && CasWins(v, v.agents[a].pc.gate)
    requires !v.dropping && v.agents[a].pc.gate.seen == v.Top() && WellFormed(DoDecide(v, a))
    ensures AgentOk(DoDecide(v, a), a, DoDecide(v, a).agents[a])
  {}

  lemma ClaimOwned(v: State, a: nat)
    requires WellFormed(v) && ClaimedOk(v) && PublishedOk(v) && OwnersOk(v)
    requires Enabled(v, Decide(a)) && CasWins(v, v.agents[a].pc.gate)
    requires v.agents[a].claim.NoClaim? && !v.dropping && v.agents[a].pc.gate.seen == v.Top()
    requires WellFormed(DoDecide(v, a))
    requires Evolves(v, DoDecide(v, a)) && OnlyAgentMoved(v, DoDecide(v, a), a)
    ensures OwnersOk(DoDecide(v, a))
  {
    var v' := DoDecide(v, a);
    forall s | 0 <= s <= v.Top() && s !in v.h.published && s !in v.h.abandoned
      ensures v.h.owner[s] != a
    {
      assert Holds(v, v.h.owner[s], s);
    }
    OwnersStable(v, v', a);
  }

  lemma StepClaim(v: State, a: nat)
    requires Core(v) && Enabled(v, Decide(a)) && CasWins(v, v.agents[a].pc.gate)
    ensures Core(DoDecide(v, a)) && Evolves(v, DoDecide(v, a))
  {
    assert AgentOk(v, a, v.agents[a]);
    ClaimWithinLap(v, a);
    ClaimEvolves(v, a);
    ClaimMemory(v, a);
    ClaimAgentOk(v, a);
    ClaimOwned(v, a);
    AgentStepKeeps(v, DoDecide(v, a), a);
  }

  /** An agent that holds unpublished sequences holds them beyond the published prefix. */
  lemma HeldBeyondPrefix(v: State, a: nat)
    requires WellFormed(v) && PublishedOk(v) && a < |v.agents|
    requires ClaimOk(v, a, v.agents[a].claim) && v.agents[a].claim.Claim?
    ensures v.P() < v.agents[a].claim.stored <= v.agents[a].claim.end <= v.Top()
  {
    assert v.agents[a].claim.stored !in v.h.published;
  }

  lemma WriteEvolves(v: State, a: nat, x: Item)
    requires WellFormed(v) && PublishedOk(v) && Enabled(v, Write(a, x)) && AgentOk(v, a, v.agents[a])
    ensures WellFormed(DoWrite(v, a, x)) && Evolves(v, DoWrite(v, a, x))
    ensures OnlyAgentMoved(v, DoWrite(v, a, x), a) && AgentOk(DoWrite(v, a, x), a, DoWrite(v, a, x).agents[a])
  {
    HeldBeyondPrefix(v, a);
    var s := v.agents[a].claim.written;
    assert s !in v.h.published;
    assert WellFormed(DoWrite(v, a, x));
  }

  /** A write to a claimed sequence of the last lap changes no other entry's slot. */
  lemma WriteKeepsSlots(size: int, slots: seq<Item>, log: seq<Item>, s: int, x: Item)
    requires size > 0 && |slots| == size && SlotsMatch(size, slots, log)
    requires 0 <= s && |log| - 1 - size < s < |log|
    ensures SlotsMatch(size, slots[Index(s, size) := x], log[s := x])
  {
    var slots', log' := slots[Index(s, size) := x], log[s := x];
    forall t | 0 <= t && |log'| - 1 - size < t < |log'|
      ensures slots'[Index(t, size)] == log'[t]
    {
      if t != s && Index(t, size) == Index(s, size) { WindowInjective(t, s, size); }
    }
  }

  lemma WriteMemory(v: State, a: nat, x: Item)
    requires WellFormed(v) && ClaimedOk(v) && PublishedOk(v) && FlagsOk(v) && DataOk(v)
    requires Enabled(v, Write(a, x)) && AgentOk(v, a, v.agents[a])
    requires WellFormed(DoWrite(v, a, x))
    ensures ClaimedOk(DoWrite(v, a, x)) && PublishedOk(DoWrite(v, a, x))
    ensures FlagsOk(DoWrite(v, a, x)) && DataOk(DoWrite(v, a, x))
  {
    HeldBeyondPrefix(v, a);
    WriteKeepsSlots(v.size, v.mem.slots, v.h.log, v.agents[a].claim.written, x);
  }

  lemma StepWrite(v: State, a: nat, x: Item)
    requires Core(v) && Enabled(v, Write(a, x))
    ensures Core(DoWrite(v, a, x)) && Evolves(v, DoWrite(v, a, x))
  {
    assert AgentOk(v, a, v.agents[a]);
    WriteEvolves(v, a, x);
    WriteMemory(v, a, x);
    WriteOwned(v, a, x);
    AgentStepKeeps(v, DoWrite(v, a, x), a);
  }

  lemma WriteOwned(v: State, a: nat, x: Item)
    requires WellFormed(v) && OwnersOk(v) && Enabled(v, Write(a, x)) && WellFormed(DoWrite(v, a, x))
    requires Evolves(v, DoWrite(v, a, x)) && OnlyAgentMoved(v, DoWrite(v, a, x), a)
    ensures OwnersOk(DoWrite(v, a, x))
  {
    OwnersStable(v, DoWrite(v, a, x), a);
  }

  lemma StoreFlagEvolves(v: State, a: nat)
    requires WellFormed(v) && PublishedOk(v) && Enabled(v, StoreFlag(a)) && AgentOk(v, a, v.agents[a])
    ensures WellFormed(DoStoreFlag(v, a)) && Evolves(v, DoStoreFlag(v, a))
    ensures PublishedOk(DoStoreFlag(v, a))
  {
    HeldBeyondPrefix(v, a);
    EndMonotone(v.h.published, DoStoreFlag(v, a).h.published);
    assert WellFormed(DoStoreFlag(v, a));
  }

  lemma StoreFlagAgent(v: State, a: nat)
    requires WellFormed(v) && Enabled(v, StoreFlag(a)) && AgentOk(v, a, v.agents[a])
    requires WellFormed(DoStoreFlag(v, a))
    ensures OnlyAgentMoved(v, DoStoreFlag(v, a), a)
    ensures AgentOk(DoStoreFlag(v, a), a, DoStoreFlag(v, a).agents[a])
  {}

  /** The word of `u` after the flag of `s` was stored, for two sequences of one lap. */
  lemma StoredWord(size: int, words: seq<int>, s: int, u: int)
    requires size > 0 && |words| == size && -size < u - s < size
    ensures words[Index(s, size) := Flag(s, size)][Index(u, size)] ==
            if u == s then Flag(s, size) else words[Index(u, size)]
  {
    if Index(u, size) == Index(s, size) { WindowInjective(u, s, size); }
  }

  lemma FlagRange(s: int, size: int)
    requires size > 0
    ensures Lap(Flag(s, size)) == Flag(s, size)
  {}

  /** Publishing `s` makes its slot word, and only its own, the flag of `s`; the lap that follows the
      published prefix may move with it. */
  lemma StoreKeepsFlags(size: int, words: seq<int>, published: set<int>, s: int)
    requires size > 0 && |words| == size && FlagsMatch(size, words, published)
    requires PublishedEnd(published) < s <= PublishedEnd(published) + size
    requires forall t :: t in published ==> t <= PublishedEnd(published) + size
    ensures FlagsMatch(size, words[Index(s, size) := Flag(s, size)], published + {s})
  {
    var p, q := PublishedEnd(published), PublishedEnd(published + {s});
    EndMonotone(published, published + {s});
    assert q <= p + size by { if q > p { assert q in published + {s}; } }
    FlagRange(s, size);
    forall t | q < t <= q + size
      ensures Lap(words[Index(s, size) := Flag(s, size)][Index(t, size)]) ==
              Flag(if t in published + {s} then t else t - size, size)
    {
      // the sequence whose flag the word showed before: t itself, or one lap earlier
      var u := if t <= p + size then t else t - size;
      LapBefore(t, size);
      assert u != t ==> u in published + {s};
      assert p < u <= p + size;
      StoredWord(size, words, s, u);
    }
  }

  lemma StoreFlagMemory(v: State, a: nat)
    requires WellFormed(v) && ClaimedOk(v) && PublishedOk(v) && FlagsOk(v) && DataOk(v)
    requires Enabled(v, StoreFlag(a)) && AgentOk(v, a, v.agents[a])
    requires WellFormed(DoStoreFlag(v, a))
    ensures ClaimedOk(DoStoreFlag(v, a)) && FlagsOk(DoStoreFlag(v, a)) && DataOk(DoStoreFlag(v, a))
  {
    HeldBeyondPrefix(v, a);
    StoreKeepsFlags(v.size, v.mem.words, v.h.published, v.agents[a].claim.stored);
  }

  lemma StepStoreFlag(v: State, a: nat)
    requires Core(v) && Enabled(v, StoreFlag(a))
    ensures Core(DoStoreFlag(v, a)) && Evolves(v, DoStoreFlag(v, a))
  {
    assert AgentOk(v, a, v.agents[a]);
    StoreFlagEvolves(v, a);
    StoreFlagAgent(v, a);
    StoreFlagMemory(v, a);
    StoreFlagOwned(v, a);
    AgentStepKeeps(v, DoStoreFlag(v, a), a);
  }

  lemma StoreFlagOwned(v: State, a: nat)
    requires WellFormed(v) && OwnersOk(v) && Enabled(v, StoreFlag(a)) && AgentOk(v, a, v.agents[a])
    requires WellFormed(DoStoreFlag(v, a))
    requires Evolves(v, DoStoreFlag(v, a)) && OnlyAgentMoved(v, DoStoreFlag(v, a), a)
    ensures OwnersOk(DoStoreFlag(v, a))
  {
    forall s | 0 <= s <= v.Top() && s !in v.h.published && s !in v.h.abandoned && v.h.owner[s] == a
      ensures Holds(v, a, s)
    {
      assert Holds(v, v.h.owner[s], s);
    }
    OwnersStable(v, DoStoreFlag(v, a), a);
  }

  lemma CloseLoadEvolves(v: State, a: nat, after: After)
    requires WellFormed(v) && ClaimedOk(v) && PublishedOk(v)
    requires Enabled(v, CloseLoad(a, after)) && AgentOk(v, a, v.agents[a])
    ensures WellFormed(DoCloseLoad(v, a, after)) && Evolves(v, DoCloseLoad(v, a, after))
    ensures OnlyAgentMoved(v, DoCloseLoad(v, a, after), a)
    ensures AgentOk(DoCloseLoad(v, a, after), a, DoCloseLoad(v, a, after).agents[a])
  {
    assert WellFormed(DoCloseLoad(v, a, after));
  }

  lemma CloseLoadOwned(v: State, a: nat, after: After)
    requires WellFormed(v) && ClaimedOk(v) && PublishedOk(v) && FlagsOk(v) && DataOk(v) && OwnersOk(v)
    requires Enabled(v, CloseLoad(a, after)) && AgentOk(v, a, v.agents[a])
    requires WellFormed(DoCloseLoad(v, a, after))
    requires Evolves(v, DoCloseLoad(v, a, after)) && OnlyAgentMoved(v, DoCloseLoad(v, a, after), a)
    ensures ClaimedOk(DoCloseLoad(v, a, after)) && PublishedOk(DoCloseLoad(v, a, after))
    ensures FlagsOk(DoCloseLoad(v, a, after)) && DataOk(DoCloseLoad(v, a, after)) && OwnersOk(DoCloseLoad(v, a, after))
  {
    forall s | 0 <= s <= v.Top() && s !in v.h.published && s !in v.h.abandoned && v.h.owner[s] == a
      ensures Holds(v, a, s)
    {
      assert Holds(v, v.h.owner[s], s);
    }
    OwnersStable(v, DoCloseLoad(v, a, after), a);
  }

  lemma StepCloseLoad(v: State, a: nat, after: After)
    requires Core(v) && Enabled(v, CloseLoad(a, after))
    ensures Core(DoCloseLoad(v, a, after)) && Evolves(v, DoCloseLoad(v, a, after))
  {
    assert AgentOk(v, a, v.agents[a]);
    CloseLoadEvolves(v, a, after);
    CloseLoadOwned(v, a, after);
    AgentStepKeeps(v, DoCloseLoad(v, a, after), a);
  }

  /** Setting the shutdown bit of a slot leaves every lap flag as it was. */
  lemma MarkKeepsFlags(size: int, words: seq<int>, published: set<int>, j: int)
    requires size > 0 && |words| == size && FlagsMatch(size, words, published)
    requires 0 <= j < size && 0 <= words[j] < U32_SPAN
    ensures FlagsMatch(size, words[j := WithBit(words[j])], published)
  {}

  lemma CloseMarkMemory(v: State, a: nat)
    requires WellFormed(v) && ClaimedOk(v) && PublishedOk(v) && FlagsOk(v) && DataOk(v)
    requires Enabled(v, CloseMark(a)) && AgentOk(v, a, v.agents[a])
    ensures WellFormed(DoCloseMark(v, a))
    ensures ClaimedOk(DoCloseMark(v, a)) && PublishedOk(DoCloseMark(v, a))
    ensures FlagsOk(DoCloseMark(v, a)) && DataOk(DoCloseMark(v, a))
  {
    MarkKeepsFlags(v.size, v.mem.words, v.h.published, Index(v.agents[a].pc.at, v.size));
  }

  lemma CloseMarkEvolves(v: State, a: nat)
    requires WellFormed(v) && Enabled(v, CloseMark(a)) && AgentOk(v, a, v.agents[a])
    requires OwnersOk(v) && WellFormed(DoCloseMark(v, a))
    ensures Evolves(v, DoCloseMark(v, a)) && OnlyAgentMoved(v, DoCloseMark(v, a), a)
    ensures AgentOk(DoCloseMark(v, a), a, DoCloseMark(v, a).agents[a]) && OwnersOk(DoCloseMark(v, a))
  {
    var v' := DoCloseMark(v, a);
    forall s | 0 <= s <= v'.Top() && s !in v'.h.published && s !in v'.h.abandoned
      ensures Holds(v', v'.h.owner[s], s)
    {
      assert Holds(v, v.h.owner[s], s);
    }
  }

  lemma StepCloseMark(v: State, a: nat)
    requires Core(v) && Enabled(v, CloseMark(a))
    ensures Core(DoCloseMark(v, a)) && Evolves(v, DoCloseMark(v, a))
  {
    assert AgentOk(v, a, v.agents[a]);
    CloseMarkMemory(v, a);
    CloseMarkEvolves(v, a);
    AgentStepKeeps(v, DoCloseMark(v, a), a);
  }

  lemma CloseStoreMemory(v: State, a: nat)
    requires WellFormed(v) && ClaimedOk(v) && PublishedOk(v) && FlagsOk(v) && DataOk(v)
    requires Enabled(v, CloseStore(a)) && AgentOk(v, a, v.agents[a])
    ensures WellFormed(DoCloseStore(v, a))
    ensures ClaimedOk(DoCloseStore(v, a)) && PublishedOk(DoCloseStore(v, a))
    ensures FlagsOk(DoCloseStore(v, a)) && DataOk(DoCloseStore(v, a))
  {}

  lemma CloseStoreEvolves(v: State, a: nat)
    requires WellFormed(v) && Enabled(v, CloseStore(a)) && AgentOk(v, a, v.agents[a])
    requires OwnersOk(v) && WellFormed(DoCloseStore(v, a))
    ensures Evolves(v, DoCloseStore(v, a)) && OnlyAgentMoved(v, DoCloseStore(v, a), a)
    ensures AgentOk(DoCloseStore(v, a), a, DoCloseStore(v, a).agents[a]) && OwnersOk(DoCloseStore(v, a))
  {
    var v' := DoCloseStore(v, a);
    forall s | 0 <= s <= v'.Top() && s !in v'.h.published && s !in v'.h.abandoned
      ensures Holds(v', v'.h.owner[s], s)
    {
      assert Holds(v, v.h.owner[s], s);
    }
  }

  lemma StepCloseStore(v: State, a: nat)
    requires Core(v) && Enabled(v, CloseStore(a))
    ensures Core(DoCloseStore(v, a)) && Evolves(v, DoCloseStore(v, a))
  {
    assert AgentOk(v, a, v.agents[a]);
    CloseStoreMemory(v, a);
    CloseStoreEvolves(v, a);
    AgentStepKeeps(v, DoCloseStore(v, a), a);
  }

  /** The invariant is inductive: any enabled step keeps it, and takes nothing of the history back. */
  lemma StepKeepsCore(v: State, step: Step)
    requires Core(v) && Enabled(v, step)
    ensures Core(Apply(v, step)) && Evolves(v, Apply(v, step))
  {
    match step
    case Clone => StepClone(v);
    case StartClaim(a, limit) => StepStartClaim(v, a, limit);
    case ReadCursor(a) => StepReadCursor(v, a);
    case Decide(a) => if CasWins(v, v.agents[a].pc.gate) { StepClaim(v, a); } else { StepDecideLocal(v, a); }
    case Write(a, x) => StepWrite(v, a, x);
    case StoreFlag(a) => StepStoreFlag(v, a);
    case CloseLoad(a, after) => StepCloseLoad(v, a, after);
    case CloseInspect(a) => StepCloseInspect(v, a);
    case CloseMark(a) => StepCloseMark(v, a);
    case CloseStore(a) => StepCloseStore(v, a);
    case Wake(a) => StepWake(v, a);
    case Return(a) => StepReturn(v, a);
    case StartRecv(i, limit, mode) => StepStartRecv(v, i, limit, mode);
    case Inspect(i) => StepInspect(v, i);
    case Register(i) => StepRegister(v, i);
    case ReadNext(i) => StepReadNext(v, i);
    case Commit(i) => StepCommit(v, i);
    case DropReceiver(i) => StepDropReceiver(v, i);
  }
}
