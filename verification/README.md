# Verification of the enso-channel protocol

enso-channel is a bounded multi-producer ring buffer: senders race on one `claimed` cursor, gated by the minimum
of N separately read consumer cursors; a claimed slot is published by storing a 31-bit lap flag in its `u32` word,
whose top bit signals shutdown; each receiver scans lap flags for the longest contiguous run and moves its cursor
when its read guard is dropped; the drop of the last sender scans one ring window of flags and marks the end of the
published prefix. N = 1 is the MPSC channel, N > 1 the fan-out channel.

The project has three layers.

1. **The protocol as a state machine** (`Machine.dfy`): any number of senders and receivers, one atomic access to
   shared memory per step, all interleavings. The history part of the state (the unbounded log, who owns, wrote and
   published what, the claims and closes in order, and by whom) is read by no branch of any step. `Invariant.dfy`, `Preservation.dfy`,
   `Claims.dfy`, `Wakeups.dfy` and `Shutdown.dfy` hold the inductive invariant, proved step by step; `Runs.dfy`
   carries it to every reachable state.
2. **What it means** (`Safety.dfy`, `LogRefinement.dfy`, `Closing.dfy`, `Delivery.dfy`): theorems about every reachable
   state and every run. `OverlapMachine.dfy` extends the protocol with overlapping read guards, dropped in any
   order; `OverlapInvariant.dfy` holds what survives that, `OverlappingGuards.dfy` and `OverlapStall.dfy` what exactly is
   lost. `TornClose.dfy` and `OverlapRun.dfy` are concrete runs that show where the code does less than one might expect.
3. **The code** (`Channel.dfy`, `Publisher.dfy`, `Consumer.dfy`, `Guards.dfy`, `Sender.dfy`): the imperative
   operations on a class with the real cursors and arrays. Each atomic access is one method, proved to be exactly one
   step of layer 1; the loops, guards and drops are built from these accesses, and between two accesses other threads
   may take any number of steps (`Channel.Interfere`, of which callers know only the contract). A claim call begins
   with its first load, in any reachable state, and so does the drop of the last sender, which has no other sender to
   wait for. `Channel.Valid` ties memory to a reachable state of the machine, so the theorems of layer 2 hold whenever a
   method runs. `Interference.dfy` says what others leave alone. The ghost parameter `a` names an agent, `i` the
   receiver, and `horizon` bounds the sequences claimed so far. An agent is one outstanding call, permit or batch of a
   sender handle: a handle with several live permits is several agents, and `Channel.FurtherCall` provides one for a
   further call. The contracts of senders and guards say with `DoneBy` all that the agent claimed and closed during the
   call, and their frames leave out `Channel.further`, so that no call begins others on the side.

`Bits.dfy` and `RingMath.dfy` relate the masks, shifts and casts of the source to division and remainder.

## Assumptions

- Memory is sequentially consistent: each atomic load, store, compare-and-swap and fetch-or is one step, and the
  fences of `src/slot_states.rs` are taken at face value.
- A receiver has at most one live read guard. `try_recv*` takes `&self`, a claim does not move the cursor and a commit
  stores it unconditionally, so guards can overlap, and the assumption is needed: what two overlapping guards share is
  delivered twice (`OverlappingGuards.OverlapDeliversTwice`), the cursor may move back, and a sender may write a slot
  under a live guard, in whichever order the guards are dropped (`OverlapRun.ExclusivityLost`,
  `OverlapRun.ExclusivityLostInOrder`). For every run with overlapping guards `OverlappingGuards.dfy` says exactly when
  a slot is shared with a sender, what it then shows, and when a drop keeps the deliveries in order.
- Limits are at most `i64::MAX`: the source casts `usize` to `i64` (`src/sender.rs:85`, `src/receiver.rs:51`), and a larger
  limit becomes negative. A claim with such a limit would move `claimed` back (`Safety.LimitFitsIff`,
  `Safety.LargestLimit`); a receiver's claim would have an empty range to scan and report Empty.
- Sequences stay below `i64::MAX - size`.
- Guards are not leaked; a permit writes once; the last sender handle drops with no write guard left. The borrow
  checker and `Arc` guarantee the latter two; they are preconditions of the steps (`Machine.Enabled`).

## Where code and comments differ

- `src/slot_states.rs:45-54` speaks of 2^32 laps; the flags have 31 bits, so slot and flag determine a sequence within
  2^31 laps (`RingMath.SlotAndFlagDetermine`) and no further (`RingMath.FlagWraps`). The proofs need only that claims
  stay within one lap.
- `src/sequencers/pub_mul.rs:63-65` says a consumer lags by at most capacity - 1; it can lag by the full capacity
  (`TornClose.LagsByCapacity`). The scan of `close` is right all the same: its window starts no later than the first
  unread sequence (`Closing.ScanCoversUnread`).
- `src/lib.rs:309-312` says that what is committed after another sender panicked is discarded. That need
  not be so: `TornClose.PublishedAfterPanic` is a run in which it can still be delivered. After the last drop an item is
  lost if and only if a given-up sequence lies before it (`Delivery.DeliverableIff`), whenever it was committed.
- `close` is not one atomic action. If a claim succeeds between its load and its store, the stored cursor is outdated
  and the later drop of the last sender can mark the wrong slot: `TornClose.TornCloseMissesBoundary` is such a run, and
  `Closing.DropMarksBoundary` says exactly when the mark is right.

## Model

| member | source | states |
|---|---|---|
| RingMath.MaskIsIndex | src/ringbuffer.rs:94-97 | for every power-of-two size up to 2^30 masking any sequence gives its remainder |
| RingMath.ShiftIsFlag | src/slot_states.rs:89-92 | shifting, casting to u32, wrapping add and masking give (s / size + 1) mod 2^31, for negative sequences and across casts too |
| RingMath.SlotAndFlagDetermine | src/slot_states.rs:94-98 | slot and 31-bit flag determine the sequence within 2^31 laps |
| RingMath.FlagWraps | src/slot_states.rs:89-92 | 2^31 laps later slot and flag are the same again |
| RingMath.WindowInjective | src/ringbuffer.rs:10-30 | sequences less than one lap apart never share a slot |
| RingMath.LapBefore | src/slot_states.rs:30-54 | one lap earlier is the same slot with another flag |
| RingMath.WordBits | src/slot_states.rs:62-69 | the mask isolates the lap, the bit test and the fetch-or act on bit 31 alone |
| RingMath.ClaimedBits | src/sequencers/pub_mul.rs:19-31 | or-ing the sign bit into `claimed` and masking it off again recovers the sequence, -1 included |
| RingMath.ShutdownNeedsClaim | src/sequencers/pub_mul.rs:13-31 | setting the sign bit is visible as shutdown if and only if some sequence was claimed: -1 stays -1 |
| Preservation.StepKeepsCore | src/ringbuffer.rs:10-30 | every atomic step of every party keeps the safety invariant and takes nothing of the history back |
| Claims.StepKeepsClaims | src/sequencers/pub_mul.rs:142-158 | every step keeps the claims tiling the sequences, and what is published written exactly once |
| Wakeups.StepKeepsWakers | src/sequencers/consumer.rs:92-114 | every step keeps: a pending receiver with something to see was woken or will be |
| Shutdown.StepKeepsDrop | src/sequencers/pub_mul.rs:98-102 | every step keeps: during the last drop its close is the only sender activity and its scan has matched what it passed |
| Runs.ReachableInv | src/ringbuffer.rs:10-30 | the invariant holds after any interleaving, from any ring contents, size, number of senders and of receivers |
| Runs.LeadsRun | src/ringbuffer.rs:10-30 | reachability as used in the contracts of the code is reachability by a finite run |
| Safety.Backpressure | src/sequencers/pub_mul.rs:130-166 | a live receiver is never past the published prefix nor lapped; claims stay within a lap of the prefix even after receivers dropped |
| Safety.WritersExclusive | src/ringbuffer.rs:17-22 | two uncommitted write claims never map to one slot |
| Safety.ReadersExclusive | src/ringbuffer.rs:17-22 | no uncommitted write claim maps to a slot under a live read guard |
| Safety.LapFlagExact | src/slot_states.rs:144-164 | in the lap after a live cursor the masked word equals the flag of s if and only if s is published |
| Safety.ScanSound | src/slot_states.rs:144-164 | a scan that ends with a guard covers only published sequences, and the first excluded one was unpublished when inspected |
| Safety.RecvOutcomeTruthful | src/sequencers/consumer.rs:53-68 | Empty and Shutdown: the next sequence was unpublished, without resp. with the bit, when inspected |
| Safety.GuardStable | src/ringbuffer.rs:59-65 | what a read guard gives access to is the log, and no step of anyone changes it while the guard lives |
| Safety.LogWrittenByOwner | src/ringbuffer.rs:48-57 | a log entry changes only by the first write of its claimer, before it is published |
| Safety.PublishedByClaimer | src/slot_states.rs:133-141 | a flag is stored by the claimer alone, after the whole claim was written |
| Safety.PublishedWrittenOnce | src/guards.rs:164-192 | a published sequence was written exactly once |
| Safety.StaleIsPreviousLap | src/guards.rs:161-164 | an in-place update or the recycler sees the published item of the lap before |
| Safety.GivenUpForGood | src/guards.rs:183-187 | a sequence given up by a recycler panic is never published afterwards |
| Safety.ClaimsTile | src/sequencers/pub_mul.rs:125-168 | the claims start at 0, end at top and adjoin; each has a length of 1 to min(limit, size) |
| Safety.ClaimedOnce | src/sequencers/pub_mul.rs:125-168 | a sequence lies in [0, top] if and only if some claim covers it, and then only one does |
| Safety.ClaimsOrdered | src/sequencers/pub_mul.rs:142-158 | the claim that succeeded first lies wholly before the other in the log |
| Safety.ClaimOwnsRange | src/sequencers/pub_mul.rs:142-158 | the range of a claim belongs to its sender, so its batch is contiguous in the log |
| Safety.FailuresCharged | src/sequencers/pub_mul.rs:130-167 | each failed compare-and-swap is charged to another success or close; at most `size` failures precede an attempt while no receiver moves |
| Safety.AvailableInRange | src/ringbuffer.rs:104-108 | `available_slots` does not overflow, is never negative, and at most `size` when the claim succeeds |
| Safety.LimitFitsIff | src/sender.rs:85 | a winning claim moves `claimed` forward if and only if its limit fits in an i64; otherwise it reads as shutdown or hands out a claimed sequence again |
| Safety.LargestLimit | src/sender.rs:85 | for `usize::MAX` the stored value is one below the last claim, and a shutdown on a fresh channel |
| Safety.CloseStoreShutsDown | src/sequencers/pub_mul.rs:85-90 | storing the shutdown value, even one computed from an outdated load, ends all claiming |
| Safety.ShutdownAbsorbs | src/sequencers/pub_mul.rs:130-166 | from then on no claim ever succeeds, in any run, whatever other senders had loaded or store |
| Safety.FullIsTruthful | src/sequencers/pub_mul.rs:136-148 | a claim rejected as full had an instant during the call at which the ring was full |
| Safety.DisconnectedIsTruthful | src/sequencers/con_fanout.rs:35-43 | a claim its gate rejects as disconnected found all receivers dropped, though it read the cursors one by one |
| Safety.NoLostWakeup | src/sequencers/consumer.rs:92-114 | a pending receiver whose next sequence is published or marked was woken, or a sender is between its store and that wake |
| Safety.PendingIsRegistered | src/sequencers/consumer.rs:107-113 | a pending receiver not yet woken has its waker registered |
| LogRefinement.RunRefines | src/sequencers/consumer.rs:48-79 | every run of the channel is, step by step, a run of an append-only log delivered in order to each open receiver |
| LogRefinement.StreamIsLogPrefix | src/receiver.rs:155-186 | the batches of a receiver, concatenated, are the log up to its cursor: no gap, duplicate or reordering |
| LogRefinement.StreamsComparable | src/sequencers/con_fanout.rs:35-43 | of two receivers one has received a prefix of what the other has |
| LogRefinement.PublishedIsFinal | src/ringbuffer.rs:48-57 | a published entry keeps its value in every run |
| Shutdown.BoundaryExact | src/slot_states.rs:113-128 | the scan of a close ends after the published prefix if and only if its window is intact |
| Closing.DropMarksBoundary | src/sequencers/pub_mul.rs:59-87 | the last drop marks the end of the published prefix if and only if its window is intact, and always unless an earlier close was torn |
| Closing.DropLosesNothing | src/lib.rs:303-320 | after the last drop the prefix ends at the first given-up sequence: it is all that was claimed if and only if none was given up |
| Delivery.PrefixCanBeGot | src/sequencers/consumer.rs:48-79 | a live receiver, whatever it is doing, can get the whole published prefix |
| Delivery.GivenUpEndsStreams | src/lib.rs:309-312 | no run takes a receiver beyond a given-up sequence |
| Delivery.DeliverableIff | src/lib.rs:309-312 | after the last drop a published item can be delivered to a live receiver if and only if no given-up sequence lies before it |
| Delivery.WakeCanFire | src/sequencers/con_fanout.rs:46-50 | where a sender still has to notify a registered receiver, a run without any step of that receiver fires its waker |
| Delivery.WakeupIsNear | src/sequencers/consumer.rs:92-114 | a pending receiver with something to see has been woken, or some run without any step of its own fires its waker |
| TornClose.PublishedAfterPanic | src/guards.rs:111-118 | a run in which what is committed after another sender's panic and close can still be delivered |
| TornClose.LagsByCapacity | src/sequencers/pub_mul.rs:63-65 | a reachable state in which a receiver lags by the full capacity |
| Closing.ScanCoversUnread | src/sequencers/pub_mul.rs:79-82 | the window of a close starts no later than the first unread sequence of any live receiver |
| Closing.DropShowsDisconnect | src/sequencers/pub_mul.rs:66-87 | decided by the state before the drop: drained receivers see a bit if and only if the scan stops at the slot after the prefix or that slot had a bit already |
| Closing.SealedRun | src/sequencers/pub_mul.rs:98-102 | after the mark no slot, word, log entry or publication ever changes |
| Closing.DrainThenDisconnect | src/sequencers/consumer.rs:53-68 | after the drop a claim succeeds until the prefix is consumed, then reports Shutdown for ever if and only if the slot after the prefix is marked |
| Closing.DisconnectIsSeen | src/slot_states.rs:102-105 | without a torn close that slot is marked, also when it is the still unread first slot of a full ring |
| Closing.DrainTerminates | src/sequencers/consumer.rs:72-79 | each commit brings a draining receiver closer to the end |
| TornClose.TornCloseMissesBoundary | src/sequencers/pub_mul.rs:66-90 | a concrete run with an interleaved claim after which the mark misses the boundary |
| TornClose.TornCloseHidesDisconnect | src/sequencers/pub_mul.rs:66-90 | in that run the drained receiver never gets to see the disconnect |
| TornClose.TornCloseStarves | src/sequencers/pub_mul.rs:66-90 | a run that drains the receiver there and then finds the channel Empty |
| OverlappingGuards.SlotWriterIff | src/ringbuffer.rs:17-22 | the slot of a sequence of the last published lap is a sender's if and only if the sequence a lap later is claimed and neither published nor given up |
| OverlapInvariant.MoveLoose | src/sequencers/consumer.rs:48-79 | with guards overlapping and dropped in any order, every move keeps memory, log and ownership consistent, and claims within a lap of the prefix and of the highest value of each live cursor |
| OverlapInvariant.ReachableIsPossible | src/sequencers/consumer.rs:48-79 | every reachable state of the protocol is one of the protocol with overlapping guards |
| OverlappingGuards.WritersStayExclusive | src/ringbuffer.rs:17-22 | two write claims never map to one slot, however guards overlap |
| OverlappingGuards.HighWater | src/sequencers/pub_mul.rs:130-166 | a live cursor is at most its own maximum, that is within the prefix, and claims are within a lap of it |
| OverlappingGuards.SlotSharedIff | src/sequencers/consumer.rs:48-79 | any slot, also under a kept or live guard and after any drops, is a sender's if and only if its next lap is claimed and neither published nor given up |
| OverlappingGuards.GuardSafeAboveHighWater | src/sequencers/consumer.rs:48-79 | a slot under a guard is no sender's as long as the cursor never had a value that reached it |
| OverlappingGuards.GuardShows | src/receiver.rs:174-186 | a guard, kept or live, shows the item of the last lap written to the slot, published or not |
| OverlappingGuards.DropInOrderIff | src/receiver.rs:155-166 | after a drop the receiver was given everything up to its cursor once and in order if and only if it had been given everything before the guard so; if it was in order, exactly if the guard starts at cursor + 1 |
| OverlappingGuards.DropLengthIff | src/receiver.rs:155-166 | after a drop the stream is as long as the cursor says if and only if it was as long as the guard's start |
| OverlappingGuards.OverlapDeliversTwice | src/receiver.rs:155-166 | what two guards of a receiver share is delivered twice once both are dropped, in either order, whatever happens in between |
| OverlappingGuards.NextGets | src/slot_states.rs:144-164 | wherever drops left the cursor, the next published sequence matches exactly if the last publication in its slot is a multiple of 2^31 laps (or none) later, and the slot holds the last lap written |
| OverlapStall.LeftBehindForGood | src/sequencers/pub_mul.rs:136-148 | a receiver whose next sequence is overwritten by a published later lap never gets an item again while it is not dropped, and at most one more claim of any sender succeeds; none if no sender is past this cursor |
| OverlapStall.DropLeavesBehind | src/receiver.rs:155-166 | the drop of an older guard leads there if the lap after its end is published |
| OverlapRun.ExclusivityLost | src/receiver.rs:47-58 | a run in which a sender holds and has overwritten a slot under an older guard that is still out |
| OverlapRun.CursorMovesBack | src/receiver.rs:155-166 | in that state the drop of the guard moves the cursor from 1 back to 0 and delivers sequence 0 again, with an unpublished item |
| OverlapRun.ReadsUnpublished | src/receiver.rs:174-186 | the next claim succeeds and reads, in place of a published item, an unpublished one that a sender may still write |
| OverlapRun.ReachStuck | src/receiver.rs:155-166 | with the sender publishing first, the drop moves the cursor from 1 back to 0, behind an overwritten sequence |
| OverlapRun.StuckForGood | src/sequencers/pub_mul.rs:136-148 | from there, in every run of the protocol, no sender ever claims and the receiver never gets an item again |
| OverlapRun.ExclusivityLostInOrder | src/receiver.rs:47-58 | a run in which the older guard is dropped first, the cursor only moves forward, and a sender overwrites a slot under the live guard |
| OverlapRun.DeliversTwiceInOrder | src/receiver.rs:155-166 | the drop of that guard leaves the cursor as if all were well, with sequence 0 delivered twice, the second time with an unpublished item |
| Interference.SenderResumes | src/ringbuffer.rs:17-22 | whatever the others do, a sender keeps its claim and the contents of what it holds |
| Interference.ReceiverResumes | src/ringbuffer.rs:17-22 | whatever the others do, a receiver keeps its guard, its cursor and the published items |
| Interference.LeadsHistory | src/slot_states.rs:133-141 | over any run what was written stays, shutdown stays, and after the last drop began the history is over |
| ChannelCode.Channel.constructor | src/sequencers/pub_mul.rs:48-55 | words 0, cursors -1, slots initialized: the initial state of the machine |
| ChannelCode.Channel.SlotState | src/slot_states.rs:94-98 | the code's bit expressions compute slot and lap flag |
| ChannelCode.Channel.FetchOr | src/slot_states.rs:102-105 | sets bit 31 of one word and changes no other |
| ChannelCode.Channel.CompareExchange | src/sequencers/pub_mul.rs:154-165 | the whole effect of the compare-and-swap, won or lost |
| ChannelCode.Channel.ModifyAt | src/ringbuffer.rs:48-57 | modifies the slot of the permit's sequence and no other |
| ChannelCode.Channel.StoreFlag | src/slot_states.rs:167-171 | stores the flag, erasing the shutdown bit |
| ChannelCode.Channel.StoreClosed | src/sequencers/pub_mul.rs:90 | stores the loaded cursor with the sign bit set |
| ChannelCode.Channel.StoreConsumed | src/sequencers/consumer.rs:72-79 | moves the cursor and delivers the guard's items |
| ChannelCode.Channel.DropConsumer | src/sequencers/consumer.rs:82-88 | the cursor becomes `i64::MAX` and gates nobody |
| ChannelCode.Channel.FurtherCall | src/sender.rs:10-14 | as long as a handle is left there is an agent for a further call, with all outstanding ones untouched |
| PublisherCode.MaxConsumed | src/sequencers/con_fanout.rs:35-43 | the minimum of N cursors read one at a time: unless all have dropped, some live receiver was at that value at an instant of the call, and what the gate then knows survives their moving |
| PublisherCode.TrySwap | src/sequencers/pub_mul.rs:153-165 | a won swap claims new sequences above everything claimed at the call, as many as wanted or as a live receiver had left free, and is the only claim; a lost one claims nothing and shows a higher cursor or shutdown |
| PublisherCode.TryClaimAtMost | src/sequencers/pub_mul.rs:125-168 | a fresh range of exactly min(limit, size), or one that ends a full lap after where a live receiver was at some instant of the call; or Empty with a full ring at some instant of the call; or Shutdown with the publisher side shut down or all receivers dropped; it claims that range once and nothing else; terminates |
| PublisherCode.Notify | src/sequencers/con_fanout.rs:46-50 | takes, for every receiver, the step that wakes it |
| PublisherCode.PublishRange | src/slot_states.rs:133-141 | every sequence of the range is published |
| PublisherCode.CommitRange | src/sequencers/pub_mul.rs:180-188 | the range is published with exactly what its permits wrote, and every receiver is woken after that |
| PublisherCode.ScanLastAvailable | src/slot_states.rs:113-128 | each sequence up to the result matched at some instant, and the next one, if in range, did not |
| PublisherCode.FindBoundary | src/sequencers/pub_mul.rs:66-82 | the boundary is where such a scan of the last `size` claimed sequences stopped, or 0 if none was claimed |
| PublisherCode.Seal | src/sequencers/pub_mul.rs:84-90 | the mark and the store come before the notify and end all claiming, with one close and no claim of the agent |
| PublisherCode.Close | src/sequencers/pub_mul.rs:59-95 | no claim succeeds any more, and every receiver was woken after the mark and the store; it closes exactly once; a batch keeps its claim, the last drop leaves a mark, what is given up keeps its entries |
| PublisherCode.DropLastSender | src/sequencers/pub_mul.rs:98-102 | from the state before the call: where the mark goes, when that is where the prefix ends, when drained receivers see it, that nothing is lost if and only if nothing was given up, and that every receiver was woken after the mark and the store of `claimed` |
| ConsumerCode.ScanAvailableUntil | src/slot_states.rs:144-164 | the contiguous run and the bit seen; it stopped at its end, or the next sequence was unpublished at some instant; nothing matched means nothing was there at some instant |
| ConsumerCode.ClaimFrom | src/sequencers/consumer.rs:51-68 | a guard from the cursor on, over all that was wanted or up to a sequence that was unpublished at some instant; or a true Empty or Shutdown |
| ConsumerCode.TryClaimAtMost | src/sequencers/consumer.rs:48-69 | the same for the whole call and min(limit, size) wanted sequences, leaving cursor and stream alone |
| ConsumerCode.Poll | src/sequencers/consumer.rs:92-114 | ready with such a guard or Shutdown; otherwise nothing was there at some instant after the waker was registered, and it still is registered or has fired |
| ConsumerCode.ReadBatchIter.Next | src/receiver.rs:174-186 | hands out the log entry of the next sequence of the guard, then None |
| ConsumerCode.CommitDelivers | src/receiver.rs:155-166 | dropping a guard delivers exactly the log entries it covers |
| ConsumerCode.DropReadRefs | src/receiver.rs:155-166 | the cursor moves to the guard's end and the stream grows by its items; an empty guard changes nothing |
| ConsumerCode.TryRecv | src/receiver.rs:37-45 | a guard on one item, which is the log entry after the cursor |
| ConsumerCode.TryRecvAtMost | src/receiver.rs:47-58 | a batch guard on min(limit, size) items, or on those up to a sequence that was unpublished at some instant of the call; limit 0 gives the empty guard without a look at the channel |
| ConsumerCode.ReceiveBatch | src/receiver.rs:155-186 | claim, read all and finish: the stream grows by the items returned, as many as asked for or up to a sequence unpublished at some instant |
| ConsumerCode.Drain | src/lib.rs:314-320 | after the last drop, if the slot after the prefix carries the bit, receiving until Disconnected terminates, never finds Empty and returns every published item left: all that was ever sent if no claim was given up |
| GuardCode.ModifyHeld | src/ringbuffer.rs:48-57 | one write through a permit starts from the stale item and leaves the rest of the claim alone |
| GuardCode.RecycleHeld | src/guards.rs:161-164 | the recycler's result or remains are in the slot |
| GuardCode.Terminate | src/sequencers/pub_mul.rs:193-195 | shuts the publisher side down with one close, after which every receiver is woken; the claim is given up with the entries it had or, in a batch, kept with what was written |
| GuardCode.WritePermit.Write | src/guards.rs:26-31 | the item is published under the permit's sequence; nothing is claimed or closed |
| GuardCode.WritePermit.UpdateInPlace | src/guards.rs:33-38 | what the callback makes of the stale item is published; nothing is claimed or closed |
| GuardCode.WritePermit.Drop | src/guards.rs:46-60 | unwritten: what the recycler makes of the slot is published, or given up with the channel shut down exactly if the recycler panics |
| GuardCode.WritePermits.Next | src/guards.rs:139-151 | permits for the sequences of the range in order, each once, then None |
| GuardCode.WritePermits.TotalReserved | src/guards.rs:214-216 | the sequences whose permit was handed out and those that are left, together |
| GuardCode.WritePermits.RecycleRest | src/guards.rs:172-189 | the tail of the batch is recycled in order until the recycler panics; what comes after a panic is untouched |
| GuardCode.WritePermits.Drop | src/guards.rs:172-192 | every sequence holds what its permit left or what the recycler makes of its stale item, up to the first panic; without one the range is published and nothing closed, with one the whole range is given up and the channel shut down; an empty batch changes nothing |
| GuardCode.BatchWritePermit.Write | src/guards.rs:95-98 | the batch now also holds the item for this sequence; nothing is claimed or closed |
| GuardCode.BatchWritePermit.UpdateInPlace | src/guards.rs:100-103 | the batch now also holds what the callback made of the stale item; nothing is claimed or closed |
| GuardCode.BatchWritePermit.Drop | src/guards.rs:111-118 | an unwritten permit recycles; the channel is shut down, once, exactly if that panics, and the batch goes on with what was left |
| SenderCode.OwnedSince | src/sequencers/pub_mul.rs:142-158 | what an agent owns of the sequences claimed since some state lies in the claims it has made since |
| SenderCode.TrySend | src/sender.rs:44-54 | the value is published as a new log entry, the only sequence the call claims, or handed back, without a claim, for a reason that was true |
| SenderCode.TryReserve | src/sender.rs:56-68 | a permit for one new sequence and no more, or a true error and none; the call is an agent of its own, whatever else its handle has out |
| SenderCode.TrySendAtMost | src/sender.rs:70-94 | a batch of min(limit, size) new sequences, or of as many as a live receiver left free at some instant, or a true error; limit 0 gives the empty batch without a look at the channel; the call is an agent of its own |
| SenderCode.SendAll | src/sender.rs:70-94 | a batch filled in order is one contiguous published stretch of the log, of all items or of as many as a live receiver left free, and the only claim of the call |

## Left out

- Weak memory: the model is sequentially consistent; fences, orderings and cache padding have no counterpart.
- `src/mpsc.rs`, `src/fanout.rs`: type-level wrappers around what is modelled.
- `src/sequencers/con_ex.rs`: the N = 1 instance of the fan-out gate; N is arbitrary here.
- Wakers and executors: a waker is one cell that is registered or has fired, with atomic register and wake; register and
  the following load of the receiver's own cursor are one step, as no one else stores that cursor.
- Size validation: a channel's size is a power of two up to 2^30 by precondition, as the source asserts it.
- The `SlotRecycler` variants: one uninterpreted recycle function, which may panic and leave anything in the slot.
- Panicking user callbacks and destructors: `write` and `update_in_place` callbacks return.
- Leaked guards: excluded by assumption; overlapping read guards are, too, outside the `Overlap*.dfy` files.
- A second pass of an iterator over one read guard: `ReadBatchIter` is consumed once per guard; by `Safety.GuardStable`
  a further pass would read the same items.
- `Machine.Enabled` lets a sender give its claim up at any time before it publishes, not only when a recycler panicked;
  the theorems hold for the larger set of runs.
- SenderCode.TryReserve: the contract follows the new agent; that another permit of the same thread stays as it was
  meanwhile is `Interference.SenderResumes` for that permit's agent, not a clause here. The same holds for the other
  calls of senders and receivers.
- Async sends, formatting, error conversions, benches and examples.
- Progress under a scheduler: no fairness is modelled; what is proved is that failed attempts are bounded or charged.
