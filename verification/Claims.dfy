/** Claims tile the sequence space in program order, and every published sequence was written once. */
module Claims {
  import opened RingMath
  import opened Machine
  import opened Invariant
  import opened Preservation

  /** The successful claims, in the order they succeeded, cover [0, top] without gap or overlap. */
  ghost predicate Tiled(v: State)
    requires WellFormed(v)
  {
    var c := v.h.claims;
    && (|c| == 0 <==> v.Top() == -1)
    && (|c| > 0 ==> c[0].start == 0 && c[|c| - 1].end == v.Top())
    && (forall k :: 0 <= k < |c| - 1 ==> c[k + 1].start == c[k].end + 1)
    && (forall k :: 0 <= k < |c| ==> ClaimRecordOk(v, c[k]))
  }

  ghost predicate ClaimRecordOk(v: State, r: ClaimRecord)
    requires WellFormed(v)
  {
    && 1 <= r.end - r.start + 1 <= r.n <= v.size
    && 0 <= r.start && r.end <= v.Top()
    && (forall s :: r.start <= s <= r.end ==> v.h.owner[s] == r.agent)
  }

  /** A live claim is the last one its agent made. */
  ghost predicate Recorded(v: State, a: nat, c: Claim)
    requires c.Claim?
  {
    exists k :: 0 <= k < |v.h.claims| && IsLastOf(v.h.claims, k, a) &&
      v.h.claims[k].start == c.start && v.h.claims[k].end == c.end
  }

  ghost predicate IsLastOf(claims: seq<ClaimRecord>, k: int, a: nat)
    requires 0 <= k < |claims|
  {
    claims[k].agent == a && forall j :: k < j < |claims| ==> claims[j].agent != a
  }

  /** Sequences of a live claim were written once if the claim has passed them, and not at all otherwise. */
  ghost predicate WrittenOnce(v: State, c: Claim)
    requires WellFormed(v) && c.Claim? && 0 <= c.stored && c.end <= v.Top()
  {
    forall s :: c.stored <= s <= c.end ==> v.h.writes[s] == if s < c.written then 1 else 0
  }

  ghost predicate ClaimsOk(v: State)
    requires WellFormed(v)
  {
    && Tiled(v)
    && (forall s :: s in v.h.published && 0 <= s <= v.Top() ==> v.h.writes[s] == 1)
    && (forall a: nat :: a < |v.agents| && v.agents[a].claim.Claim? ==>
          AgentBounds(v.agents[a], v.Top()) && Recorded(v, a, v.agents[a].claim) && WrittenOnce(v, v.agents[a].claim))
  }

  /** Steps that only advance or end claims keep the bookkeeping. */
  lemma SameClaims(v: State, v': State)
    requires WellFormed(v) && WellFormed(v') && ClaimsOk(v) && v'.size == v.size
    requires v'.h.claims == v.h.claims && v'.h.owner == v.h.owner && v'.h.writes == v.h.writes
    requires forall s :: s in v'.h.published && s !in v.h.published ==> 0 <= s <= v.Top() && v.h.writes[s] == 1
    requires forall b: nat :: b < |v'.agents| && v'.agents[b].claim.Claim? ==>
               b < |v.agents| && v.agents[b].claim.Claim? && Advanced(v.agents[b].claim, v'.agents[b].claim)
    ensures ClaimsOk(v')
  {
    assert |v'.h.log| == |v.h.log|;
    forall k | 0 <= k < |v'.h.claims|
      ensures ClaimRecordOk(v', v'.h.claims[k])
    {
      assert ClaimRecordOk(v, v.h.claims[k]);
    }
    forall b: nat | b < |v'.agents| && v'.agents[b].claim.Claim?
      ensures AgentBounds(v'.agents[b], v'.Top())
      ensures Recorded(v', b, v'.agents[b].claim) && WrittenOnce(v', v'.agents[b].claim)
    {
      assert Recorded(v, b, v.agents[b].claim) && WrittenOnce(v, v.agents[b].claim);
    }
  }

  ghost predicate Advanced(c: Claim, c': Claim)
    requires c.Claim? && c'.Claim?
  {
    c'.start == c.start && c'.end == c.end && c'.written == c.written && c'.stored >= c.stored
  }

  lemma ClaimExtends(v: State, a: nat)
    requires WellFormed(v) && Tiled(v) && Enabled(v, Decide(a)) && CasWins(v, v.agents[a].pc.gate)
    requires v.agents[a].pc.gate.seen == v.Top() && v.agents[a].pc.gate.n <= v.size && WellFormed(DoDecide(v, a))
    ensures Tiled(DoDecide(v, a))
  {
    var v' := DoDecide(v, a);
    var c, c' := v.h.claims, v'.h.claims;
    forall k | 0 <= k < |c'|
      ensures ClaimRecordOk(v', c'[k])
    {
      if k < |c| { assert ClaimRecordOk(v, c[k]); }
    }
  }

  lemma ClaimRecorded(v: State, a: nat)
    requires WellFormed(v) && ClaimedOk(v) && PublishedOk(v) && ClaimsOk(v)
    requires Enabled(v, Decide(a)) && CasWins(v, v.agents[a].pc.gate)
    requires AgentOk(v, a, v.agents[a]) && WellFormed(DoDecide(v, a))
    ensures ClaimsOk(DoDecide(v, a))
  {
    var v' := DoDecide(v, a);
    ClaimExtends(v, a);
    forall b: nat | b < |v'.agents| && v'.agents[b].claim.Claim?
      ensures AgentBounds(v'.agents[b], v'.Top())
      ensures Recorded(v', b, v'.agents[b].claim) && WrittenOnce(v', v'.agents[b].claim)
    {
      if b == a {
        assert IsLastOf(v'.h.claims, |v.h.claims|, a);
      } else {
        assert Recorded(v, b, v.agents[b].claim) && WrittenOnce(v, v.agents[b].claim);
        var k :| 0 <= k < |v.h.claims| && IsLastOf(v.h.claims, k, b) &&
          v.h.claims[k].start == v.agents[b].claim.start && v.h.claims[k].end == v.agents[b].claim.end;
        assert IsLastOf(v'.h.claims, k, b);
      }
    }
  }

  lemma WriteCounted(v: State, a: nat, x: Item)
    requires WellFormed(v) && ClaimsOk(v) && Enabled(v, Write(a, x)) && WellFormed(DoWrite(v, a, x))
    requires forall b: nat :: b < |v.agents| ==> ClaimOk(v, b, v.agents[b].claim)
    ensures ClaimsOk(DoWrite(v, a, x))
  {
    var v' := DoWrite(v, a, x);
    var s := v.agents[a].claim.written;
    assert ClaimOk(v, a, v.agents[a].claim);
    forall k | 0 <= k < |v'.h.claims|
      ensures ClaimRecordOk(v', v'.h.claims[k])
    {
      assert ClaimRecordOk(v, v.h.claims[k]);
    }
    forall b: nat | b < |v'.agents| && v'.agents[b].claim.Claim?
      ensures AgentBounds(v'.agents[b], v'.Top())
      ensures Recorded(v', b, v'.agents[b].claim) && WrittenOnce(v', v'.agents[b].claim)
    {
      assert Recorded(v, b, v.agents[b].claim) && WrittenOnce(v, v.agents[b].claim);
      assert ClaimOk(v, b, v.agents[b].claim);
    }
  }

  /** Steps other than a claim, a write and a publication. */
  predicate Quiet(step: Step) { !step.Decide? && !step.Write? && !step.StoreFlag? }

  lemma QuietFrame(v: State, step: Step)
    requires WellFormed(v) && Enabled(v, step) && Quiet(step)
    ensures var v' := Apply(v, step);
      && v'.size == v.size && v'.h.log == v.h.log && v'.h.owner == v.h.owner && v'.h.writes == v.h.writes
      && v'.h.published == v.h.published && v'.h.claims == v.h.claims
      && forall b: nat :: b < |v'.agents| && v'.agents[b].claim.Claim? ==>
           b < |v.agents| && v'.agents[b].claim == v.agents[b].claim
  {}

  lemma DecideKeepsClaims(v: State, a: nat)
    requires WellFormed(v) && ClaimedOk(v) && PublishedOk(v) && ClaimsOk(v)
    requires Enabled(v, Decide(a)) && AgentOk(v, a, v.agents[a]) && WellFormed(DoDecide(v, a))
    ensures ClaimsOk(DoDecide(v, a))
  {
    if CasWins(v, v.agents[a].pc.gate) { ClaimRecorded(v, a); } else { SameClaims(v, DoDecide(v, a)); }
  }

  lemma StoreKeepsClaims(v: State, a: nat)
    requires WellFormed(v) && ClaimsOk(v)
    requires Enabled(v, StoreFlag(a)) && AgentOk(v, a, v.agents[a]) && WellFormed(DoStoreFlag(v, a))
    ensures ClaimsOk(DoStoreFlag(v, a))
  {
    SameClaims(v, DoStoreFlag(v, a));
  }

  lemma StepKeepsClaims(v: State, step: Step)
    requires Core(v) && Enabled(v, step) && ClaimsOk(v) && WellFormed(Apply(v, step))
    ensures ClaimsOk(Apply(v, step))
  {
    if Quiet(step) {
      QuietFrame(v, step);
      SameClaims(v, Apply(v, step));
    } else {
      assert AgentOk(v, step.a, v.agents[step.a]);
      match step
      case Decide(a) => DecideKeepsClaims(v, a);
      case Write(a, x) => WriteCountedCore(v, a, x);
      case StoreFlag(a) => StoreKeepsClaims(v, a);
    }
  }

  lemma WriteCountedCore(v: State, a: nat, x: Item)
    requires Core(v) && ClaimsOk(v) && Enabled(v, Write(a, x)) && WellFormed(DoWrite(v, a, x))
    ensures ClaimsOk(DoWrite(v, a, x))
  {
    forall b: nat | b < |v.agents|
      ensures ClaimOk(v, b, v.agents[b].claim)
    {
      assert AgentOk(v, b, v.agents[b]);
    }
    WriteCounted(v, a, x);
  }

  /** Of two claims the earlier one lies wholly before the later one. */
  lemma {:induction false} ClaimsInOrder(v: State, j: int, k: int)
    requires WellFormed(v) && ClaimsOk(v) && 0 <= j < k < |v.h.claims|
    ensures v.h.claims[j].end < v.h.claims[k].start
    decreases k - j
  {
    assert ClaimRecordOk(v, v.h.claims[k - 1]);
    if j < k - 1 { ClaimsInOrder(v, j, k - 1); }
  }

  /** Every claimed sequence belongs to exactly one claim. */
  lemma {:induction false} ClaimsCover(v: State, k: int, s: int)
    requires WellFormed(v) && ClaimsOk(v) && 0 <= k < |v.h.claims| && 0 <= s <= v.h.claims[k].end
    ensures exists j :: 0 <= j <= k && v.h.claims[j].start <= s <= v.h.claims[j].end
    decreases k
  {
    if s < v.h.claims[k].start { ClaimsCover(v, k - 1, s); }
  }

  // ----- what a claimer finds in its slots -----

  /** An entry that its claimer has not written yet is the one a lap earlier. */
  ghost predicate StaleOk(size: int, log: seq<Item>, writes: seq<nat>)
    requires |log| == |writes|
  {
    forall s :: 0 < size <= s < |log| && writes[s] == 0 ==> log[s] == log[s - size]
  }

  lemma ClaimKeepsStale(size: int, slots: seq<Item>, log: seq<Item>, writes: seq<nat>, k: nat)
    requires size > 0 && |slots| == size && SlotsMatch(size, slots, log) && k <= size
    requires |log| == |writes| && StaleOk(size, log, writes)
    ensures StaleOk(size, log + Contents(slots, size, |log|, k), writes + seq(k, _ => 0))
  {
    var log' := log + Contents(slots, size, |log|, k);
    forall s | size <= s < |log'| && (writes + seq(k, _ => 0))[s] == 0
      ensures log'[s] == log'[s - size]
    {
      if s >= |log| {
        LapBefore(s, size);
        assert log'[s] == Contents(slots, size, |log|, k)[s - |log|];
      }
    }
  }

  lemma WriteKeepsStale(size: int, log: seq<Item>, writes: seq<nat>, s: int, x: Item)
    requires |log| == |writes| && StaleOk(size, log, writes) && 0 <= s < |log| && |log| - 1 - size < s
    ensures StaleOk(size, log[s := x], writes[s := writes[s] + 1])
  {}

  lemma OtherwiseSameLog(v: State, step: Step)
    requires WellFormed(v) && Enabled(v, step) && !step.Write? && !step.Decide?
    ensures Apply(v, step).h.log == v.h.log && Apply(v, step).h.writes == v.h.writes && Apply(v, step).size == v.size
  {}

  lemma DecideKeepsStale(v: State, a: nat)
    requires WellFormed(v) && DataOk(v) && Enabled(v, Decide(a)) && StaleOk(v.size, v.h.log, v.h.writes)
    requires CasWins(v, v.agents[a].pc.gate) ==>
               v.Top() == v.agents[a].pc.gate.seen && 0 <= Wanted(v.size, v.agents[a].pc.gate) <= v.size
    ensures var v' := DoDecide(v, a);
      v'.size == v.size && |v'.h.log| == |v'.h.writes| && StaleOk(v.size, v'.h.log, v'.h.writes)
  {
    if CasWins(v, v.agents[a].pc.gate) {
      ClaimKeepsStale(v.size, v.mem.slots, v.h.log, v.h.writes, Wanted(v.size, v.agents[a].pc.gate));
    }
  }

  lemma WriteStepKeepsStale(v: State, a: nat, x: Item)
    requires WellFormed(v) && PublishedOk(v) && Enabled(v, Write(a, x)) && ClaimOk(v, a, v.agents[a].claim)
    requires StaleOk(v.size, v.h.log, v.h.writes)
    ensures var v' := DoWrite(v, a, x);
      v'.size == v.size && |v'.h.log| == |v'.h.writes| && StaleOk(v.size, v'.h.log, v'.h.writes)
  {
    HeldBeyondPrefix(v, a);
    WriteKeepsStale(v.size, v.h.log, v.h.writes, v.agents[a].claim.written, x);
  }

  lemma StepKeepsStale(v: State, step: Step)
    requires Core(v) && Enabled(v, step) && StaleOk(v.size, v.h.log, v.h.writes)
    ensures |Apply(v, step).h.log| == |Apply(v, step).h.writes|
    ensures StaleOk(Apply(v, step).size, Apply(v, step).h.log, Apply(v, step).h.writes)
  {
    match step
    case Decide(a) =>
      if CasWins(v, v.agents[a].pc.gate) { ClaimWithinLap(v, a); }
      DecideKeepsStale(v, a);
    case Write(a, x) =>
      assert AgentOk(v, a, v.agents[a]);
      WriteStepKeepsStale(v, a, x);
    case _ => OtherwiseSameLog(v, step);
  }

  // ----- what one agent did -----

  /** The claims of agent `a`, in the order they succeeded. */
  function ClaimsBy(claims: seq<ClaimRecord>, a: nat): (r: seq<ClaimRecord>)
    ensures forall c :: c in r <==> c in claims && c.agent == a
    decreases |claims|
  {
    if claims == [] then []
    else
      var c := claims[|claims| - 1];
      assert claims == claims[..|claims| - 1] + [c];
      ClaimsBy(claims[..|claims| - 1], a) + if c.agent == a then [c] else []
  }

  /** How often it closed the channel. */
  function ClosesBy(closers: seq<nat>, a: nat): nat
    decreases |closers|
  {
    if closers == [] then 0
    else ClosesBy(closers[..|closers| - 1], a) + if closers[|closers| - 1] == a then 1 else 0
  }

  /** All that agent `a` ever claimed, and how often it closed. */
  datatype Doings = Doings(claims: seq<ClaimRecord>, closes: nat)

  function DoneBy(v: State, a: nat): Doings { Doings(ClaimsBy(v.h.claims, a), ClosesBy(v.h.closers, a)) }

  lemma OneMoreClaim(claims: seq<ClaimRecord>, c: ClaimRecord, a: nat)
    ensures ClaimsBy(claims + [c], a) == ClaimsBy(claims, a) + if c.agent == a then [c] else []
  {
    assert (claims + [c])[..|claims|] == claims;
  }

  lemma OneMoreClose(closers: seq<nat>, b: nat, a: nat)
    ensures ClosesBy(closers + [b], a) == ClosesBy(closers, a) + if b == a then 1 else 0
  {
    assert (closers + [b])[..|closers|] == closers;
  }

  /** Only a compare-and-swap that wins and the store of a close add to what an agent did. */
  lemma DoingsUnless(v: State, step: Step)
    requires WellFormed(v) && Enabled(v, step) && !step.Decide? && !step.CloseStore?
    ensures Apply(v, step).h.claims == v.h.claims && Apply(v, step).h.closers == v.h.closers
  {}

  lemma DecidedClaims(v: State, b: nat)
    requires WellFormed(v) && Enabled(v, Decide(b))
    ensures var g, h := v.agents[b].pc.gate, DoDecide(v, b).h;
      && h.closers == v.h.closers
      && h.claims == v.h.claims + if CasWins(v, g) then [ClaimRecord(b, g.seen + 1, g.seen + Wanted(v.size, g), g.n)]
                                  else []
  {}

  lemma DecideDone(v: State, b: nat, a: nat)
    requires WellFormed(v) && Enabled(v, Decide(b))
    ensures var g := v.agents[b].pc.gate;
      DoneBy(DoDecide(v, b), a) ==
      if CasWins(v, g) && b == a then
        DoneBy(v, a).(claims := DoneBy(v, a).claims + [ClaimRecord(a, g.seen + 1, g.seen + Wanted(v.size, g), g.n)])
      else DoneBy(v, a)
  {
    DecidedClaims(v, b);
    var g := v.agents[b].pc.gate;
    OneMoreClaim(v.h.claims, ClaimRecord(b, g.seen + 1, g.seen + Wanted(v.size, g), g.n), a);
  }

  lemma CloseStoreDone(v: State, b: nat, a: nat)
    requires WellFormed(v) && Enabled(v, CloseStore(b))
    ensures DoneBy(DoCloseStore(v, b), a) ==
            if b == a then DoneBy(v, a).(closes := DoneBy(v, a).closes + 1) else DoneBy(v, a)
  {
    OneMoreClose(v.h.closers, b, a);
  }
}
