/** The claim, write, publish, scan, commit protocol as a state machine over atomic steps.

    Any number of senders and of receivers run interleaved.  An agent is one outstanding sender call, permit or batch:
    a handle with several live permits is several agents, and an idle agent is one that is free for a call.  Each step
    is one atomic access to shared memory: one load, store, compare-and-swap or fetch-or of a cursor or a slot word,
    one access to a ring slot that the acting guard owns, or one waker access. */
module Machine {
  import opened Bits
  import opened RingMath

  type Item(!new)

  // ----- shared memory -----

  /** `claimed` cursor, per-slot words, ring slots, and one `consumed` cursor per receiver. */
  datatype Memory = Memory(claimed: int, words: seq<int>, slots: seq<Item>, consumed: seq<int>)

  /** A receiver's `AtomicWaker` cell: a waker is registered, or the last one registered has fired. */
  datatype Waker = Waker(registered: bool, fired: bool)

  // ----- senders -----

  /** A claimed range [start, end]: [written, end] is still to be written, [stored, end] to be published. */
  datatype Claim = NoClaim | Claim(start: int, end: int, written: int, stored: int)

  /** What an agent goes on with once it has notified the receivers. */
  datatype After = ToSent | ToPoisoned | ToHolding | ToGone

  datatype SendOutcome = NotCalled | Sent | Full | Disconnected | Poisoned

  /** What the current claim call has been through; no step depends on it. */
  datatype Trail = Trail(sawFull: bool, fails: nat, winsAtStart: nat, winsAtLoad: nat,
                         firstSeen: int, movesAtStart: nat)

  /** The claim loop: it loaded `seen` from `claimed` and has read the first `next` consumer cursors. */
  datatype Gate = Gate(n: int, seen: int, next: nat, min: int, trail: Trail)

  datatype Pc =
    | Idle(last: SendOutcome)
    | Gating(gate: Gate)
    | Holding                                        // writes its claim, then publishes it
    | CloseScanning(raw: int, at: int, after: After)
    | CloseMarking(raw: int, at: int, after: After)
    | CloseStoring(raw: int, after: After)
    | Notifying(next: nat, after: After)
    | Gone

  datatype Agent = Agent(pc: Pc, claim: Claim)

  // ----- receivers -----

  datatype Mode = Sync | FirstPoll | SecondPoll

  datatype RecvOutcome = NothingYet | Received | Empty | Closed

  datatype RecvPc =
    | Resting(last: RecvOutcome)
    | Scanning(start: int, stop: int, next: int, shut: bool, mode: Mode)
    | Registering(n: int)
    | Pending
    | Reading(start: int, end: int, got: seq<Item>)  // a live read guard
    | Dropped

  /** `stream` is everything the receiver's committed read guards gave access to, in order. */
  datatype Receiver = Receiver(pc: RecvPc, stream: seq<Item>)

  // ----- history: no step depends on it -----

  datatype ClaimRecord = ClaimRecord(agent: nat, start: int, end: int, n: int)

  /** `log[s]` is the value last written for sequence `s`, `writes[s]` how often its claimer wrote it, and
      `owner[s]` the agent that claimed it. */
  datatype History = History(
    log: seq<Item>,
    owner: seq<nat>,
    writes: seq<nat>,
    published: set<int>,
    abandoned: set<int>,
    claims: seq<ClaimRecord>,
    closers: seq<nat>, // the agent of each close, in the order they stored `claimed`
    wins: nat,      // successful claims and closes
    moves: nat,     // receiver commits and drops
    torn: bool,     // a close stored a `claimed` value that a claim had meanwhile outdated
    mark: int)      // where the last sender's close planted its mark; -1 before

  datatype State = State(
    size: int,
    mem: Memory,
    agents: seq<Agent>,
    receivers: seq<Receiver>,
    wakers: seq<Waker>,
    dropping: bool, // the last sender handle is being, or has been, dropped
    h: History)
  {
    /** The highest sequence ever claimed. */
    function Top(): int { |h.log| - 1 }

    /** The end of the contiguous published prefix. */
    function P(): int { PublishedEnd(h.published) }

    predicate Live(i: nat)
      requires i < |receivers|
    {
      !receivers[i].pc.Dropped?
    }
  }

  /** The largest p such that 0, 1, ..., p are all published. */
  function PublishedEnd(published: set<int>): (p: int)
    ensures p >= -1 && p + 1 !in published
    ensures forall s :: 0 <= s <= p ==> s in published
  {
    EndFrom(published, published, -1)
  }

  /** `rest` is the part of `published` that has not been passed yet. */
  function EndFrom(published: set<int>, rest: set<int>, p: int): (r: int)
    requires forall s :: s in published && s > p ==> s in rest
    ensures r >= p && r + 1 !in published
    ensures forall s :: p < s <= r ==> s in published
    decreases |rest|
  {
    if p + 1 in published then EndFrom(published, rest - {p + 1}, p + 1) else p
  }

  predicate ValidSize(size: int) { 1 <= size <= MAX_CHANNEL_SIZE }

  /** A new channel with `m` agents to begin with, `n` receivers and the given ring contents. */
  function Initial(size: int, slots: seq<Item>, m: nat, n: nat): State
    requires ValidSize(size) && |slots| == size
  {
    State(size,
          Memory(INIT, seq(size, _ => 0), slots, seq(n, _ => INIT)),
          seq(m, _ => Agent(Idle(NotCalled), NoClaim)),
          seq(n, _ => Receiver(Resting(NothingYet), [])),
          seq(n, _ => Waker(false, false)),
          false,
          History([], [], [], {}, {}, [], [], 0, 0, false, -1))
  }

  // ----- steps -----

  datatype Step =
    | Clone
    | StartClaim(a: nat, limit: int)
    | ReadCursor(a: nat)
    | Decide(a: nat)
    | Write(a: nat, x: Item)
    | StoreFlag(a: nat)
    | CloseLoad(a: nat, after: After)
    | CloseInspect(a: nat)
    | CloseMark(a: nat)
    | CloseStore(a: nat)
    | Wake(a: nat)
    | Return(a: nat)
    | StartRecv(i: nat, limit: int, mode: Mode)
    | Inspect(i: nat)
    | Register(i: nat)
    | ReadNext(i: nat)
    | Commit(i: nat)
    | DropReceiver(i: nat)

  function WithAgent(v: State, a: nat, pc: Pc, claim: Claim): State
    requires a < |v.agents|
  {
    v.(agents := v.agents[a := Agent(pc, claim)])
  }

  function WithReceiver(v: State, i: nat, pc: RecvPc): State
    requires i < |v.receivers|
  {
    v.(receivers := v.receivers[i := v.receivers[i].(pc := pc)])
  }

  /** The head of the claim loop, after `raw` was loaded from `claimed`. */
  function LoopHead(n: int, raw: int, trail: Trail): Pc {
    if HasShutdown(raw) then Idle(Disconnected) else Gating(Gate(n, raw, 0, SHUTDOWN_OPEN, trail))
  }

  function DoStartClaim(v: State, a: nat, limit: int): State
    requires a < |v.agents|
  {
    var raw := v.mem.claimed;
    var trail := Trail(false, 0, v.h.wins, v.h.wins, raw, v.h.moves);
    WithAgent(v, a, LoopHead(Min(limit, v.size), raw, trail), NoClaim)
  }

  /** All slots are claimed and unread by the slowest live receiver. */
  ghost predicate RingFull(v: State)
    requires |v.mem.consumed| == |v.receivers|
  {
    exists i: nat :: i < |v.receivers| && v.Live(i) && v.Top() - v.mem.consumed[i] == v.size &&
      forall k: nat :: k < |v.receivers| && v.Live(k) ==> v.mem.consumed[i] <= v.mem.consumed[k]
  }

  ghost function DoReadCursor(v: State, a: nat): State
    requires a < |v.agents| && v.agents[a].pc.Gating? && v.agents[a].pc.gate.next < |v.mem.consumed|
    requires |v.mem.consumed| == |v.receivers|
  {
    var g := v.agents[a].pc.gate;
    var trail := g.trail.(sawFull := g.trail.sawFull || RingFull(v));
    var g' := g.(next := g.next + 1, min := Min(g.min, v.mem.consumed[g.next]), trail := trail);
    WithAgent(v, a, Gating(g'), v.agents[a].claim)
  }

  /** `available_slots`: how many sequences may be claimed beyond `seen`. */
  function AvailableSlots(size: int, seen: int, consumed: int): int {
    consumed - (seen - size)
  }

  /** How many sequences the claim loop asks for once all cursors are read. */
  function Wanted(size: int, g: Gate): int {
    Min(AvailableSlots(size, g.seen, g.min), g.n)
  }

  /** The compare-and-swap of the claim loop would succeed and take [seen + 1, seen + Wanted]. */
  predicate CasWins(v: State, g: Gate) {
    g.min != SHUTDOWN_OPEN && AvailableSlots(v.size, g.seen, g.min) > 0 && v.mem.claimed == g.seen
  }

  function Contents(slots: seq<Item>, size: int, start: int, count: nat): (r: seq<Item>)
    requires size > 0 && |slots| == size
    ensures |r| == count
    ensures forall j :: 0 <= j < count ==> r[j] == slots[Index(start + j, size)]
  {
    seq(count, j requires 0 <= j < count => slots[Index(start + j, size)])
  }

  function DoDecide(v: State, a: nat): State
    requires a < |v.agents| && v.agents[a].pc.Gating?
    requires v.size > 0 && |v.mem.slots| == v.size && v.agents[a].pc.gate.n > 0
  {
    var g := v.agents[a].pc.gate;
    if g.min == SHUTDOWN_OPEN then WithAgent(v, a, Idle(Disconnected), NoClaim)
    else if AvailableSlots(v.size, g.seen, g.min) <= 0 then WithAgent(v, a, Idle(Full), NoClaim)
    else if v.mem.claimed == g.seen then
      var k := Wanted(v.size, g);
      var h := v.h.(log := v.h.log + Contents(v.mem.slots, v.size, g.seen + 1, k),
                    owner := v.h.owner + seq(k, _ => a),
                    writes := v.h.writes + seq(k, _ => 0),
                    claims := v.h.claims + [ClaimRecord(a, g.seen + 1, g.seen + k, g.n)],
                    wins := v.h.wins + 1);
      WithAgent(v.(mem := v.mem.(claimed := g.seen + k), h := h), a,
                Holding, Claim(g.seen + 1, g.seen + k, g.seen + 1, g.seen + 1))
    else
      var trail := g.trail.(fails := g.trail.fails + 1, winsAtLoad := v.h.wins);
      WithAgent(v, a, LoopHead(g.n, v.mem.claimed, trail), NoClaim)
  }

  /** One write through a permit: a user write, an in-place update or the recycler. */
  function DoWrite(v: State, a: nat, x: Item): State
    requires a < |v.agents| && v.agents[a].claim.Claim? && v.size > 0 && |v.mem.slots| == v.size
    requires 0 <= v.agents[a].claim.written < |v.h.log| == |v.h.writes|
  {
    var c := v.agents[a].claim;
    WithAgent(v.(mem := v.mem.(slots := v.mem.slots[Index(c.written, v.size) := x]),
                 h := v.h.(log := v.h.log[c.written := x],
                           writes := v.h.writes[c.written := v.h.writes[c.written] + 1])),
              a, Holding, c.(written := c.written + 1))
  }

  /** One flag store of `publish` or `publish_range`. */
  function DoStoreFlag(v: State, a: nat): State
    requires a < |v.agents| && v.agents[a].claim.Claim? && v.size > 0 && |v.mem.words| == v.size
  {
    var c := v.agents[a].claim;
    var v' := v.(mem := v.mem.(words := v.mem.words[Index(c.stored, v.size) := Flag(c.stored, v.size)]),
                 h := v.h.(published := v.h.published + {c.stored}));
    if c.stored == c.end then WithAgent(v', a, Notifying(0, ToSent), NoClaim)
    else WithAgent(v', a, Holding, c.(stored := c.stored + 1))
  }

  function Span(lo: int, hi: int): (r: set<int>)
    ensures forall s :: s in r <==> lo <= s <= hi
    decreases hi - lo + 1
  {
    if lo > hi then {} else Span(lo, hi - 1) + {hi}
  }

  /** Sequences of a claim that are not published yet. */
  function Unpublished(c: Claim): set<int> {
    if c.Claim? then Span(c.stored, c.end) else {}
  }

  /** `close` loads `claimed` and decides where its scan starts.  After a recycler panic the claim is given
      up (ToPoisoned) or the batch goes on (ToHolding); ToGone is the drop of the last sender handle. */
  function DoCloseLoad(v: State, a: nat, after: After): State
    requires a < |v.agents|
  {
    var raw := v.mem.claimed;
    var last := LastClaimed(raw);
    var claim := v.agents[a].claim;
    var pc := if last < 0 then CloseMarking(raw, last + 1, after)
              else CloseScanning(raw, Max(last - (v.size - 1), 0), after);
    var v' := v.(dropping := v.dropping || after.ToGone?);
    if after.ToPoisoned? then
      WithAgent(v'.(h := v.h.(abandoned := v.h.abandoned + Unpublished(claim))), a, pc, NoClaim)
    else WithAgent(v', a, pc, claim)
  }

  /** Where the scan of a close stands after it inspected the slot of its next sequence. */
  function ScannedForClose(pc: Pc, matches: bool): Pc
    requires pc.CloseScanning?
  {
    if !matches then CloseMarking(pc.raw, pc.at, pc.after)
    else if pc.at >= LastClaimed(pc.raw) then CloseMarking(pc.raw, pc.at + 1, pc.after)
    else CloseScanning(pc.raw, pc.at + 1, pc.after)
  }

  /** One iteration of `scan_last_available`. */
  function DoCloseInspect(v: State, a: nat): State
    requires a < |v.agents| && v.agents[a].pc.CloseScanning? && v.size > 0 && |v.mem.words| == v.size
  {
    var pc := v.agents[a].pc;
    var matches := Lap(v.mem.words[Index(pc.at, v.size)]) == Flag(pc.at, v.size);
    WithAgent(v, a, ScannedForClose(pc, matches), v.agents[a].claim)
  }

  function DoCloseMark(v: State, a: nat): State
    requires a < |v.agents| && v.agents[a].pc.CloseMarking? && v.size > 0 && |v.mem.words| == v.size
    requires forall j :: 0 <= j < |v.mem.words| ==> 0 <= v.mem.words[j] < U32_SPAN
  {
    var pc := v.agents[a].pc;
    var j := Index(pc.at, v.size);
    WithAgent(v.(mem := v.mem.(words := v.mem.words[j := WithBit(v.mem.words[j])]),
                 h := v.h.(mark := if pc.after.ToGone? then pc.at else v.h.mark)),
              a, CloseStoring(pc.raw, pc.after), v.agents[a].claim)
  }

  function DoCloseStore(v: State, a: nat): State
    requires a < |v.agents| && v.agents[a].pc.CloseStoring?
    requires I64_MIN <= v.agents[a].pc.raw <= I64_MAX
  {
    var pc := v.agents[a].pc;
    WithAgent(v.(mem := v.mem.(claimed := ShutdownOf(pc.raw)),
                 h := v.h.(wins := v.h.wins + 1, closers := v.h.closers + [a],
                           torn := v.h.torn || LastClaimed(pc.raw) != v.Top())),
              a, Notifying(0, pc.after), v.agents[a].claim)
  }

  function Woken(w: Waker): Waker {
    if w.registered then Waker(false, true) else w
  }

  function DoWake(v: State, a: nat): State
    requires a < |v.agents| && v.agents[a].pc.Notifying? && v.agents[a].pc.next < |v.wakers|
  {
    var pc := v.agents[a].pc;
    WithAgent(v.(wakers := v.wakers[pc.next := Woken(v.wakers[pc.next])]),
              a, pc.(next := pc.next + 1), v.agents[a].claim)
  }

  function DoReturn(v: State, a: nat): State
    requires a < |v.agents| && v.agents[a].pc.Notifying?
  {
    WithAgent(v, a, Resumed(v.agents[a].pc.after), v.agents[a].claim)
  }

  function Resumed(after: After): Pc {
    match after
    case ToSent => Idle(Sent)
    case ToPoisoned => Idle(Poisoned)
    case ToHolding => Holding
    case ToGone => Gone
  }

  function DoStartRecv(v: State, i: nat, limit: int, mode: Mode): State
    requires i < |v.receivers| == |v.mem.consumed|
  {
    var c := v.mem.consumed[i];
    WithReceiver(v, i, Scanning(c + 1, c + Min(limit, v.size), c + 1, false, mode))
  }

  /** How a scan ends that matched every sequence below `next`. */
  function ScanResult(start: int, stop: int, next: int, shut: bool, mode: Mode): RecvPc {
    if next > start then Reading(start, next - 1, [])
    else if shut then Resting(Closed)
    else match mode
      case Sync => Resting(Empty)
      case FirstPoll => Registering(stop - start + 1)
      case SecondPoll => Pending
  }

  /** Where a scan stands after it inspected the slot of its next sequence. */
  function Inspected(pc: RecvPc, matches: bool, bit: bool): RecvPc
    requires pc.Scanning?
  {
    var shut := pc.shut || bit;
    if !matches then ScanResult(pc.start, pc.stop, pc.next, shut, pc.mode)
    else if pc.next >= pc.stop then ScanResult(pc.start, pc.stop, pc.next + 1, shut, pc.mode)
    else pc.(next := pc.next + 1, shut := shut)
  }

  /** One iteration of `scan_available_until`. */
  function DoInspect(v: State, i: nat): State
    requires i < |v.receivers| && v.receivers[i].pc.Scanning? && v.size > 0 && |v.mem.words| == v.size
  {
    var pc := v.receivers[i].pc;
    var word := v.mem.words[Index(pc.next, v.size)];
    WithReceiver(v, i, Inspected(pc, Lap(word) == Flag(pc.next, v.size), HasBit(word)))
  }

  /** The waker is registered, then the second claim attempt of the poll loads the cursor. */
  function DoRegister(v: State, i: nat): State
    requires i < |v.receivers| == |v.mem.consumed| && i < |v.wakers| && v.receivers[i].pc.Registering?
  {
    var c := v.mem.consumed[i];
    WithReceiver(v.(wakers := v.wakers[i := Waker(true, false)]), i,
                 Scanning(c + 1, c + v.receivers[i].pc.n, c + 1, false, SecondPoll))
  }

  /** One item handed out by the iterator of the read guard. */
  function DoReadNext(v: State, i: nat): State
    requires i < |v.receivers| && v.receivers[i].pc.Reading? && v.size > 0 && |v.mem.slots| == v.size
  {
    var pc := v.receivers[i].pc;
    WithReceiver(v, i, pc.(got := pc.got + [v.mem.slots[Index(pc.start + |pc.got|, v.size)]]))
  }

  /** The read guard is dropped. */
  function DoCommit(v: State, i: nat): State
    requires i < |v.receivers| == |v.mem.consumed| && v.receivers[i].pc.Reading?
    requires v.size > 0 && |v.mem.slots| == v.size && v.receivers[i].pc.start <= v.receivers[i].pc.end
  {
    var pc := v.receivers[i].pc;
    var batch := Contents(v.mem.slots, v.size, pc.start, pc.end - pc.start + 1);
    v.(mem := v.mem.(consumed := v.mem.consumed[i := pc.end]),
       receivers := v.receivers[i := Receiver(Resting(Received), v.receivers[i].stream + batch)],
       h := v.h.(moves := v.h.moves + 1))
  }

  function DoDropReceiver(v: State, i: nat): State
    requires i < |v.receivers| == |v.mem.consumed|
  {
    WithReceiver(v.(mem := v.mem.(consumed := v.mem.consumed[i := SHUTDOWN_OPEN]),
                    h := v.h.(moves := v.h.moves + 1)),
                 i, Dropped)
  }

  /** Receiver `i` has no call and no read guard out. */
  predicate BetweenCalls(v: State, i: nat) {
    i < |v.receivers| && (v.receivers[i].pc.Resting? || v.receivers[i].pc.Pending?)
  }

  /** When a step may be taken.  Borrow rules of the source appear here: one live read guard per receiver,
      a dropped endpoint is not used again, a permit writes once, the last sender drops with no guard left. */
  predicate Enabled(v: State, step: Step) {
    match step
    case Clone => !v.dropping
    case StartClaim(a, limit) =>
      a < |v.agents| && v.agents[a].pc.Idle? && !v.dropping && 1 <= limit <= I64_MAX
    case ReadCursor(a) =>
      a < |v.agents| && v.agents[a].pc.Gating? && v.agents[a].pc.gate.next < |v.mem.consumed|
    case Decide(a) =>
      a < |v.agents| && v.agents[a].pc.Gating? &&
      var g := v.agents[a].pc.gate;
      g.next >= |v.mem.consumed| &&
      (CasWins(v, g) ==> g.seen + Wanted(v.size, g) + v.size < I64_MAX)
    case Write(a, x) =>
      a < |v.agents| && v.agents[a].pc.Holding? && v.agents[a].claim.Claim? &&
      v.agents[a].claim.written <= v.agents[a].claim.end
    case StoreFlag(a) =>
      a < |v.agents| && v.agents[a].pc.Holding? && v.agents[a].claim.Claim? &&
      v.agents[a].claim.written == v.agents[a].claim.end + 1
    case CloseLoad(a, after) =>
      a < |v.agents| &&
      if after.ToGone? then !v.dropping && forall b: nat :: b < |v.agents| ==> v.agents[b].pc.Idle?
      else v.agents[a].pc.Holding? && v.agents[a].claim.Claim? &&
           v.agents[a].claim.stored == v.agents[a].claim.start && !after.ToSent?
    case CloseInspect(a) => a < |v.agents| && v.agents[a].pc.CloseScanning?
    case CloseMark(a) => a < |v.agents| && v.agents[a].pc.CloseMarking?
    case CloseStore(a) => a < |v.agents| && v.agents[a].pc.CloseStoring?
    case Wake(a) => a < |v.agents| && v.agents[a].pc.Notifying? && v.agents[a].pc.next < |v.wakers|
    case Return(a) => a < |v.agents| && v.agents[a].pc.Notifying? && v.agents[a].pc.next >= |v.wakers|
    case StartRecv(i, limit, mode) =>
      BetweenCalls(v, i) && 1 <= limit <= I64_MAX && !mode.SecondPoll?
    case Inspect(i) => i < |v.receivers| && v.receivers[i].pc.Scanning?
    case Register(i) => i < |v.receivers| && v.receivers[i].pc.Registering?
    case ReadNext(i) =>
      i < |v.receivers| && v.receivers[i].pc.Reading? &&
      |v.receivers[i].pc.got| <= v.receivers[i].pc.end - v.receivers[i].pc.start
    case Commit(i) => i < |v.receivers| && v.receivers[i].pc.Reading?
    case DropReceiver(i) => BetweenCalls(v, i)
  }

  /** Sizes, word ranges and local bounds that make every step well defined. */
  ghost predicate WellFormed(v: State) {
    && ValidSize(v.size)
    && |v.mem.words| == v.size && |v.mem.slots| == v.size
    && |v.mem.consumed| == |v.receivers| == |v.wakers|
    && |v.h.owner| == |v.h.log| == |v.h.writes|
    && (forall j :: 0 <= j < |v.mem.words| ==> 0 <= v.mem.words[j] < U32_SPAN)
    && (forall a :: 0 <= a < |v.agents| ==> AgentBounds(v.agents[a], v.Top()))
    && (forall i :: 0 <= i < |v.receivers| ==> ReceiverBounds(v.receivers[i].pc))
  }

  predicate AgentBounds(agent: Agent, top: int) {
    && (agent.pc.Gating? ==> agent.pc.gate.n > 0)
    && (agent.pc.CloseStoring? ==> I64_MIN <= agent.pc.raw <= I64_MAX)
    && (agent.claim.Claim? ==>
          0 <= agent.claim.start <= agent.claim.stored <= agent.claim.end <= top &&
          agent.claim.start <= agent.claim.written <= agent.claim.end + 1)
  }

  predicate ReceiverBounds(pc: RecvPc) {
    pc.Reading? ==> pc.start <= pc.end
  }

  /** One atomic step.  `Clone` makes an agent for a new handle, or for a further call on one. */
  ghost function Apply(v: State, step: Step): State
    requires WellFormed(v) && Enabled(v, step)
  {
    match step
    case Clone => v.(agents := v.agents + [Agent(Idle(NotCalled), NoClaim)])
    case StartClaim(a, limit) => DoStartClaim(v, a, limit)
    case ReadCursor(a) => DoReadCursor(v, a)
    case Decide(a) => DoDecide(v, a)
    case Write(a, x) => DoWrite(v, a, x)
    case StoreFlag(a) => DoStoreFlag(v, a)
    case CloseLoad(a, after) => DoCloseLoad(v, a, after)
    case CloseInspect(a) => DoCloseInspect(v, a)
    case CloseMark(a) => DoCloseMark(v, a)
    case CloseStore(a) => DoCloseStore(v, a)
    case Wake(a) => DoWake(v, a)
    case Return(a) => DoReturn(v, a)
    case StartRecv(i, limit, mode) => DoStartRecv(v, i, limit, mode)
    case Inspect(i) => DoInspect(v, i)
    case Register(i) => DoRegister(v, i)
    case ReadNext(i) => DoReadNext(v, i)
    case Commit(i) => DoCommit(v, i)
    case DropReceiver(i) => DoDropReceiver(v, i)
  }
}
