/** The protocol with overlapping read guards.

    A claim of a receiver does not move its cursor, so a second claim while a guard is live gets a guard that starts
    at the same sequence; a commit stores the cursor unconditionally, so the guard dropped last decides where the
    cursor is left.  Here a live guard can be kept aside while its receiver goes on, and be dropped at any time. */
module OverlapMachine {
  import opened RingMath
  import opened Machine

  /** A read guard of receiver `i`. */
  datatype Kept = Kept(i: nat, start: int, end: int)

  /** `high[i]` is the highest value the cursor of receiver `i` ever had, and `got[i]` the sequences whose slots its
      dropped guards gave access to, in order; no move depends on these two. */
  datatype Overlap = Overlap(v: State, kept: seq<Kept>, high: seq<int>, got: seq<seq<int>>)

  datatype Move = Take(step: Step) | Keep(i: nat) | DropKept(k: nat)

  /** The sequences lo, lo + 1, ..., hi. */
  function Range(lo: int, hi: int): (r: seq<int>)
    requires lo <= hi + 1
    ensures |r| == hi - lo + 1 && forall j :: 0 <= j < |r| ==> r[j] == lo + j
  {
    seq(hi - lo + 1, j => lo + j)
  }

  predicate KeptBy(kept: seq<Kept>, i: nat) { exists g :: g in kept && g.i == i }

  /** The guard receiver `i` would drop next. */
  function LiveGuard(v: State, i: nat): Kept
    requires i < |v.receivers| && v.receivers[i].pc.Reading?
  {
    Kept(i, v.receivers[i].pc.start, v.receivers[i].pc.end)
  }

  predicate IsLive(v: State, g: Kept) {
    g.i < |v.receivers| && v.receivers[g.i].pc.Reading? && g == LiveGuard(v, g.i)
  }

  /** Guard `g` is out: kept aside or live. */
  ghost predicate Out(d: Overlap, g: Kept) { g in d.kept || IsLive(d.v, g) }

  /** A kept guard borrows its receiver, which therefore is not dropped. */
  ghost predicate CanMove(d: Overlap, move: Move) {
    && WellFormed(d.v) && |d.high| == |d.got| == |d.v.receivers|
    && match move
       case Take(step) => Enabled(d.v, step) && (step.DropReceiver? ==> !KeptBy(d.kept, step.i))
       case Keep(i) => i < |d.v.receivers| && d.v.receivers[i].pc.Reading?
       case DropKept(k) => k < |d.kept| && d.kept[k].i < |d.v.receivers| && d.kept[k].start <= d.kept[k].end
  }

  /** The cursor of `g`'s receiver is stored by the drop of `g`, which led to `v'`. */
  function Passed(d: Overlap, g: Kept, v': State, kept': seq<Kept>): Overlap
    requires g.i < |d.high| == |d.got| && g.start <= g.end
  {
    Overlap(v', kept', d.high[g.i := Max(d.high[g.i], g.end)], d.got[g.i := d.got[g.i] + Range(g.start, g.end)])
  }

  /** The receiver may claim again while the guard is out. */
  function DoKeep(d: Overlap, i: nat): Overlap
    requires i < |d.v.receivers| && d.v.receivers[i].pc.Reading?
  {
    d.(v := WithReceiver(d.v, i, Resting(NothingYet)), kept := d.kept + [LiveGuard(d.v, i)])
  }

  /** The state after the drop of a kept guard: what its slots hold now is what it gave access to. */
  function StoreKept(v: State, g: Kept): State
    requires g.i < |v.receivers| == |v.mem.consumed| && v.size > 0 && |v.mem.slots| == v.size && g.start <= g.end
  {
    var r := v.receivers[g.i];
    var batch := Contents(v.mem.slots, v.size, g.start, g.end - g.start + 1);
    v.(mem := v.mem.(consumed := v.mem.consumed[g.i := g.end]),
       receivers := v.receivers[g.i := r.(stream := r.stream + batch)],
       h := v.h.(moves := v.h.moves + 1))
  }

  ghost function DoDropKept(d: Overlap, k: nat): Overlap
    requires CanMove(d, DropKept(k))
  {
    Passed(d, d.kept[k], StoreKept(d.v, d.kept[k]), d.kept[..k] + d.kept[k + 1..])
  }

  ghost function DoTake(d: Overlap, step: Step): Overlap
    requires CanMove(d, Take(step))
  {
    if step.Commit? then Passed(d, LiveGuard(d.v, step.i), Apply(d.v, step), d.kept)
    else d.(v := Apply(d.v, step))
  }

  ghost function DoMove(d: Overlap, move: Move): Overlap
    requires CanMove(d, move)
  {
    match move
    case Take(step) => DoTake(d, step)
    case Keep(i) => DoKeep(d, i)
    case DropKept(k) => DoDropKept(d, k)
  }

  ghost predicate ClosedUnderMoves(S: iset<Overlap>) {
    forall d: Overlap, move: Move :: d in S && CanMove(d, move) ==> DoMove(d, move) in S
  }

  /** Moves can lead from `d` to `e`. */
  ghost predicate MovesLead(d: Overlap, e: Overlap) {
    forall S: iset<Overlap> :: d in S && ClosedUnderMoves(S) ==> e in S
  }

  function Start(size: int, slots: seq<Item>, m: nat, n: nat): Overlap
    requires ValidSize(size) && |slots| == size
  {
    Overlap(Initial(size, slots, m, n), [], seq(n, _ => INIT), seq(n, _ => []))
  }

  /** Some run with overlapping guards leads here. */
  ghost predicate Possible(d: Overlap) {
    WellFormed(d.v) && |d.high| == |d.got| == |d.v.receivers| &&
    exists size: int, slots: seq<Item>, m: nat, n: nat ::
      ValidSize(size) && |slots| == size && MovesLead(Start(size, slots, m, n), d)
  }

  lemma MoveLeads(d: Overlap, e: Overlap, move: Move)
    requires MovesLead(d, e) && CanMove(e, move)
    ensures MovesLead(d, DoMove(e, move))
  {}

  lemma MovesTrans(c: Overlap, d: Overlap, e: Overlap)
    requires MovesLead(c, d) && MovesLead(d, e)
    ensures MovesLead(c, e)
  {}
}
