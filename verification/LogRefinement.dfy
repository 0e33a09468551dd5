/** The ring refines an unbounded append-only log that every receiver reads as a prefix. */
module LogRefinement {
  import opened Machine
  import opened Invariant
  import opened Wakeups
  import opened Runs

  /** The specification: entries are appended for ever, and an open receiver is delivered the next ones. */
  datatype Log = Log(entries: seq<Item>, streams: seq<seq<Item>>, open: seq<bool>)

  ghost predicate ValidLog(x: Log) {
    && |x.streams| == |x.open|
    && forall i :: 0 <= i < |x.streams| ==> x.streams[i] <= x.entries
  }

  ghost predicate Append(x: Log, x': Log) {
    x.entries <= x'.entries && x'.streams == x.streams && x'.open == x.open
  }

  /** Receiver `i` gets the next entries, at least one, in order and without a gap. */
  ghost predicate Deliver(x: Log, x': Log, i: nat) {
    && i < |x.streams| && i < |x.open| && x.open[i]
    && x'.entries == x.entries && x'.open == x.open
    && |x'.streams| == |x.streams| && x'.streams == x.streams[i := x'.streams[i]]
    && |x.streams[i]| < |x'.streams[i]| <= |x.entries|
    && x'.streams[i] == x.entries[..|x'.streams[i]|]
  }

  ghost predicate CloseReceiver(x: Log, x': Log, i: nat) {
    i < |x.open| && x' == x.(open := x.open[i := false])
  }

  ghost predicate LogStep(x: Log, x': Log) {
    Append(x, x') || exists i: nat :: Deliver(x, x', i) || CloseReceiver(x, x', i)
  }

  ghost predicate LogRun(x: Log, trace: seq<Log>, x': Log)
    decreases |trace|
  {
    if trace == [] then x' == x else LogStep(x, trace[0]) && LogRun(trace[0], trace[1..], x')
  }

  /** The log a channel state stands for: what is published without a hole, and what was delivered. */
  ghost function Abs(v: State): Log
    requires -1 <= v.P() <= v.Top()
  {
    Log(v.h.log[..v.P() + 1],
        seq(|v.receivers|, i requires 0 <= i < |v.receivers| => v.receivers[i].stream),
        seq(|v.receivers|, i requires 0 <= i < |v.receivers| => !v.receivers[i].pc.Dropped?))
  }

  lemma AbsValid(v: State)
    requires Core(v)
    ensures v.P() <= v.Top() && ValidLog(Abs(v))
  {
    PrefixBelowTop(v);
    forall i: nat | i < |v.receivers|
      ensures v.receivers[i].stream <= Abs(v).entries
    {
      assert ReceiverOk(v, v.mem.consumed[i], v.receivers[i]);
    }
  }

  /** The published prefix of the log only grows. */
  lemma EntriesGrow(v: State, v': State)
    requires WellFormed(v) && WellFormed(v') && Evolves(v, v') && v.P() <= v.Top() && v'.P() <= v'.Top()
    ensures Abs(v).entries <= Abs(v').entries
  {
    assert forall s :: 0 <= s <= v.P() ==> v'.h.log[s] == v.h.log[s];
  }

  /** Every atomic step of the channel is one step of the log. */
  lemma StepRefines(v: State, step: Step)
    requires Core(v) && Enabled(v, step) && Core(Apply(v, step)) && Evolves(v, Apply(v, step))
    requires v.P() <= v.Top() && Apply(v, step).P() <= Apply(v, step).Top()
    ensures LogStep(Abs(v), Abs(Apply(v, step)))
  {
    if step.Commit? {
      CommitRefines(v, step.i);
    } else if step.DropReceiver? {
      DropRefines(v, step.i);
    } else {
      EntriesGrow(v, Apply(v, step));
      SameStreams(v, step);
    }
  }

  lemma DropRefines(v: State, i: nat)
    requires WellFormed(v) && Enabled(v, DropReceiver(i)) && v.P() <= v.Top()
    ensures CloseReceiver(Abs(v), Abs(DoDropReceiver(v, i)), i)
  {
    assert Abs(DoDropReceiver(v, i)).open == Abs(v).open[i := false];
  }

  /** Only a commit and a receiver's drop concern what was delivered to whom. */
  lemma SameStreams(v: State, step: Step)
    requires WellFormed(v) && Enabled(v, step) && !step.Commit? && !step.DropReceiver?
    requires v.P() <= v.Top() && Apply(v, step).P() <= Apply(v, step).Top()
    ensures Abs(Apply(v, step)).streams == Abs(v).streams
    ensures Abs(Apply(v, step)).open == Abs(v).open
  {
    var v' := Apply(v, step);
    if ByReceiver(step) {
      ReceiverFrame(v, step);
      assert v'.receivers[step.i].stream == v.receivers[step.i].stream;
    } else {
      AgentFrame(v, step);
    }
  }

  lemma CommitRefines(v: State, i: nat)
    requires Core(v) && Enabled(v, Commit(i)) && Core(DoCommit(v, i)) && v.P() <= v.Top()
    ensures Deliver(Abs(v), Abs(DoCommit(v, i)), i)
  {
    var v' := DoCommit(v, i);
    assert ReceiverOk(v, v.mem.consumed[i], v.receivers[i]);
    assert ReceiverOk(v', v'.mem.consumed[i], v'.receivers[i]);
    CommitIsDelivery(v, i);
  }

  lemma CommitIsDelivery(v: State, i: nat)
    requires WellFormed(v) && Enabled(v, Commit(i)) && v.P() <= v.Top()
    requires ReceiverOk(v, v.mem.consumed[i], v.receivers[i])
    requires ReceiverOk(DoCommit(v, i), v.receivers[i].pc.end, DoCommit(v, i).receivers[i])
    ensures Deliver(Abs(v), Abs(DoCommit(v, i)), i)
  {
    var v' := DoCommit(v, i);
    assert Abs(v').streams == Abs(v).streams[i := v'.receivers[i].stream];
    assert v.h.log[..v'.mem.consumed[i] + 1] == v.h.log[..v.P() + 1][..v'.mem.consumed[i] + 1];
  }

  ghost predicate LogRuns(x: Log, n: nat, x': Log) {
    exists trace :: |trace| == n && LogRun(x, trace, x')
  }

  lemma LogRunCons(x: Log, y: Log, n: nat, x': Log)
    requires LogStep(x, y) && LogRuns(y, n, x')
    ensures LogRuns(x, n + 1, x')
  {
    var rest :| |rest| == n && LogRun(y, rest, x');
    assert ([y] + rest)[1..] == rest;
    assert LogRun(x, [y] + rest, x');
  }

  lemma StepRefinesInv(v: State, step: Step)
    requires Inv(v) && Enabled(v, step)
    ensures Inv(Apply(v, step)) && v.P() <= v.Top() && Apply(v, step).P() <= Apply(v, step).Top()
    ensures LogStep(Abs(v), Abs(Apply(v, step)))
  {
    AbsValid(v);
    StepKeepsInv(v, step);
    AbsValid(Apply(v, step));
    StepRefines(v, step);
  }

  /** Every run of the channel is, step by step, a run of the log. */
  lemma {:induction false} RunRefines(v: State, steps: seq<Step>, v': State)
    requires Reachable(v) && Run(v, steps, v')
    ensures v.P() <= v.Top() && v'.P() <= v'.Top()
    ensures LogRuns(Abs(v), |steps|, Abs(v'))
    decreases |steps|
  {
    ReachableInv(v);
    if steps == [] {
      AbsValid(v);
      assert LogRun(Abs(v), [], Abs(v'));
    } else {
      StepRefinesInv(v, steps[0]);
      ReachableStep(v, steps[0]);
      RunRefines(Apply(v, steps[0]), steps[1..], v');
      LogRunCons(Abs(v), Abs(Apply(v, steps[0])), |steps| - 1, Abs(v'));
    }
  }

  /** A receiver's batches, concatenated, are the log up to its cursor: no gap, duplicate or reordering. */
  lemma StreamIsLogPrefix(v: State, i: nat)
    requires Reachable(v) && i < |v.receivers|
    ensures v.receivers[i].stream <= v.h.log
    ensures forall s :: 0 <= s < |v.receivers[i].stream| ==> s in v.h.published
    ensures v.Live(i) ==> |v.receivers[i].stream| == v.mem.consumed[i] + 1
  {
    ReachableInv(v);
    assert ReceiverOk(v, v.mem.consumed[i], v.receivers[i]);
  }

  /** Of any two receivers one has received a prefix of what the other has. */
  lemma StreamsComparable(v: State, i: nat, j: nat)
    requires Reachable(v) && i < |v.receivers| && j < |v.receivers|
    ensures v.receivers[i].stream <= v.receivers[j].stream || v.receivers[j].stream <= v.receivers[i].stream
  {
    StreamIsLogPrefix(v, i);
    StreamIsLogPrefix(v, j);
  }

  /** Published log entries are final along every run, so what a receiver was given never changes. */
  lemma {:induction false} PublishedIsFinal(v: State, steps: seq<Step>, v': State, s: int)
    requires Reachable(v) && Run(v, steps, v') && s in v.h.published && 0 <= s <= v.Top()
    ensures s in v'.h.published && s <= v'.Top() && v'.h.log[s] == v.h.log[s]
    decreases |steps|
  {
    if steps != [] {
      ReachableStep(v, steps[0]);
      ReachableInv(v);
      StepKeepsInv(v, steps[0]);
      PublishedIsFinal(Apply(v, steps[0]), steps[1..], v', s);
    }
  }
}
