# Persistent queue: a verified model

A durable, at-least-once queue with many producers and one consumer. Producers claim a
sequence number (a seq) and a capacity slot under one mutex, commit the entry to an ordered
key/value store outside it, and may join a group commit whose leader makes a whole batch
durable with one sync. The consumer scans from a `head` cursor, hands out guards, and acks
them in any order. Neither cursor is stored: `open` derives both from the keys.

The guarantees live in interleavings, so the core of the model is a step relation. Each
action is what one thread does between two points where it holds no lock, and a list of
actions is an interleaving of any number of threads. The loops of `src/queue.rs`,
`src/store.rs` and `tests/fault.rs` are also written out as classes whose methods are
verified against the functions that the step relation uses or, for the group-commit leader,
against a function proved to end where its steps do (`GroupScript.CodeIsSteps`).

| file | content |
|---|---|
| `Base.dfy` | options, bytes, minimum and maximum, byte totals, sizes of sets |
| `Protocol.dfy` | the step relation with one commit per push |
| `Invariants.dfy` | the invariant, kept by every action |
| `Theorems.dfy` | conservation, the head cursor, the life of a seq, bounds, recovery, reserve, drain |
| `Calls.dfy` | what a push, a guard and a reserve do from one point to the next, and that none is blocked |
| `HeadGap.dfy` | exactly when `head` is the oldest entry, and that a gap holds it for good |
| `Overwrite.dfy`, `Reopens.dfy` | exactly when a put can land on a key in use |
| `Wakeups.dfy` | no producer is left asleep on `room` |
| `Alone.dfy` | whole calls with nothing in between |
| `Limits.dfy` | where the guarantees stop: byte bound, second consumer, failures that took effect |
| `Group.dfy`, `GroupRefines.dfy` | group commit, and that it refines one durable put per push |
| `GroupLifts.dfy`, `GroupOnce.dfy` | the other direction of that, and at most one put of each seq |
| `Sessions.dfy` | any sequence of sessions, crashes and reopens |
| `Promises.dfy` | the promises over every reachable state of every history, group commit and power losses included |
| `Keys.dfy`, `Stores.dfy` | byte keys, seeks, `MemStore`, `SharedMem` |
| `GroupLoop.dfy`, `GroupScript.dfy` | the leader's loop as code, and that it does what the steps do |
| `Queue.dfy` | the queue's methods as code |
| `Notify.dfy`, `AsyncFacade.dfy`, `AsyncTheorems.dfy`, `AsyncAnswers.dfy` | the async facade: wakeups, and what its futures return |

## How to read the model

`Protocol.State` holds the fields of `Inner`, the store, a program counter for each thread
inside `push`, `try_push` or `close`, the guards with their progress through `ack`, and the
calls of `reserve` in progress. `live` is the store the process sees. `lag[k]` lists what
key `k` may hold after a power loss where that can differ. After a crash each key
independently holds one of its candidates, or the effect of a commit that was under way.

Values in the model's store carry the id of the push that wrote them, because seqs are
unique only within a session. The ids, and everything under `State.h`, record what happened;
no action reads them. `h.book` is the ledger: what has become of each seq of the session.
`h.promised` holds the pushes that returned Ok under `Sync` or `Group`, `h.deleted` those
whose delete committed or was under way when power was lost (a delete that fails leaves the
promise standing), `h.gone` those whose delete was durably committed.

Assumptions, and what happens without them:

- A failed commit changes nothing, as in the fault store (`tests/fault.rs:188-191`). Without
  this the counters are off: `Limits.MiscountingExactly`, `Limits.FailedPushCounts` and
  `Limits.FailedAckCounts`.
- One consumer thread: `reserve`, `ack` and `nack` do not overlap. Producers may run between
  any two of its steps. Without this the counters are off: `Limits.MiscountingExactly`.
  Guard exclusivity does not need it.
- Seqs stay below 2^64-1. With `max_bytes == usize::MAX` the byte counter is unbounded here;
  with any smaller bound `Promises.AdmissionIsExact` proves that it fits.
- No panics, so no poisoned mutex.

Two statements are weaker in the code. `DESIGN.md:142` says that `head` is always the oldest
unacked seq; that holds exactly when no push fails and the recovered seqs have no gap
(`HeadGap.HeadOldestExactly`), and otherwise `head` can be held for the rest of the session
(`HeadGap.GapForGood`). And `tail` need not lie above everything on disk: when a store is
reopened without a power loss over unsynced deletes, a put can write over what is there. That
is ruled out exactly by syncing acks (`Reopens.OverwritesExactly`), and whatever is written
over had been deleted (`Reopens.OverwritesOnlyDeleted`).

## Model

| member | source | states |
|---|---|---|
| Promises.NothingIsLost | src/queue.rs:352-361 | in every reachable state a push that returned Ok under `Sync` or `Group` was in a successful durable commit and is stored, byte for byte, until a delete of it commits or power is lost during one; a failed delete changes nothing |
| Promises.CountersAreExact | src/queue.rs:304-307 | in every reachable state `len` counts the live entries, the claimed pushes, the failed ones not given back and the deleted ones not settled, no seq being two of these; `bytes` totals exactly the bytes they hold, and is zero when `len` is |
| Promises.HeadIsExact | src/queue.rs:45-61 | in every reachable state `head` is the first seq from `head0` on that is not acked, `acked_above` is exactly the acked seqs beyond it, and nothing unacked is below it |
| Promises.HeadIsBehind | src/queue.rs:444-455 | `head` never passes a live entry, a seq still being committed, or a guard's seq |
| Promises.ReleaseRestores | src/queue.rs:463-488 | a nack, a drop or a failed ack leaves the entry live and reservable, with its bytes, and every counter unchanged |
| Promises.HandsOutOldest | src/queue.rs:383-403 | what `reserve` hands out is live, carries the bytes pushed for its seq, and is no larger than any entry that was live and unreserved when the call began, whatever producers do meanwhile |
| Promises.NoneMeansEmpty | src/queue.rs:384-404 | `reserve` finds nothing only if nothing was live and unreserved when it began; what it could have handed out stays reservable; counting the seek that ends it, it makes at most one more than there are reserved seqs |
| Promises.RecoveryIsExact | src/queue.rs:223-262 | with nothing in flight the scan's `len` and `bytes` equal the running queue's, and its cursors lie within the running ones |
| Promises.DrainedIsEmpty | src/queue.rs:411-414 | a drained queue has no entry, no push that can still land, and every seek ends its `reserve` with nothing |
| Promises.CallersAreOwned | src/queue.rs:76-133 | in every reachable state the seqs without a collected outcome are the disjoint union of `pending`, the batch in flight and `done`; `flushing` holds exactly when there is one leader; nothing is pending without one; nothing is left once all callers have their outcome |
| Promises.CallersGetOutcomes | src/queue.rs:98-132 | a caller has an outcome by the second batch recorded after it joined; a sleeping follower's entry is pending or in flight behind a leader; a leader that records finds its own outcome |
| Promises.CallerReturns | src/queue.rs:94-140 | in every reachable state a push past its claim keeps its seq and bytes; it is stored only once its entry has landed, and under group commit it fails only in its own lone commit, after a batch has failed it |
| Promises.CallerGoesOn | src/queue.rs:94-132 | a caller of group commit has a step to make unless it sleeps, and then a leader that holds or will take its entry has |
| Promises.CallersMayFail | src/queue.rs:98-138 | a batch and a lone retry may fail as well as succeed, and a follower may wake unasked |
| Promises.GroupSession | src/queue.rs:94-140 | a whole session with group commit moves step by step as one with one durable put per push, loses no wakeup, stays within its bounds, and claims, puts and acks each seq at most once, counting flushed batches, lone retries and plain commits |
| Promises.AdmissionIsExact | src/queue.rs:87-89 | under a byte bound below `usize::MAX` the counter fits in every state of a session and the saturating test equals the exact one |
| Promises.BoundsHold | src/queue.rs:87-89 | in every reachable state `len` is at most capacity or what was recovered, whatever the byte bound; under a byte bound `bytes` is within it or what was recovered, or one item is outstanding |
| Promises.NoWakeIsLost | src/queue.rs:292-372 | in every reachable state in which a producer sleeps: a closed queue still owes `notify_all`, an empty one has a wake delivered or owed, and without a byte bound free slots never outnumber wakes delivered or owed |
| Calls.PushDecides | src/queue.rs:292-330 | under the lock a push claims, at the old tail, with its own bytes, exactly when the queue is open and has a slot and the bytes (or no byte bound, or is empty); it returns only from a closed queue or, not waiting, from one without room; otherwise it sleeps, and nothing else changes |
| Calls.PushLife | src/queue.rs:292-372 | how a push may go from one point to the next, with what each move does to queue and store, its bytes never changing: woken it claims, sleeps again or finds the queue closed; it returns Ok after its entry was written, synced if the policy says so, and an error after its slot was given back |
| Calls.GuardLife | src/queue.rs:383-488 | how a guard may go from one point to the next: taken unreserved, acked by a delete under the policy for acks and then settled, or released with the entry untouched after a nack or a failed delete; it never changes seq or bytes |
| Calls.ScanLife | src/queue.rs:383-407 | how a reserve goes on: from `head`, to the least stored seq from the cursor on, past it if reserved, to a guard if not, and to None only with nothing stored from the cursor on |
| Calls.ThreadGoesOn | src/queue.rs:292-372 | every thread inside push or close has a step to make unless it sleeps on `room`, whatever the consumer is doing |
| Calls.AckGoesOn | src/queue.rs:434-488 | a guard part-way through its ack has a step to make |
| Calls.ReserveGoesOn | src/queue.rs:383-407 | a reserve in progress has a step to make |
| Calls.CallsMayBegin | src/queue.rs:292-488 | nothing is left out of the interleavings: producers may arrive and close at any point, any store operation may fail, any sleeper may be the one woken or wake unasked, and an idle consumer may begin any operation |
| Calls.PushRecords | src/queue.rs:352-372 | a push counts as promised exactly when it returns Ok under a durable policy |
| Calls.DeleteRecords | src/queue.rs:434-438 | a push counts as deleted exactly when the delete on its guard commits, and as gone when that was durable |
| Invariants.StepKeeps | src/queue.rs:290-488 | every step of every thread keeps the whole invariant: each seq in flight has one owner, reserved is the guards' seqs, the counters are exact, `head` and `acked_above` represent the acked seqs, a scan never misses what it could return |
| Invariants.GuardStep | src/queue.rs:389-402 | any step, with any number of consumer threads, keeps `reserved` equal to the outstanding guards' seqs, one guard each |
| Invariants.HeadSettle | src/queue.rs:447-455 | the head jump and the out-of-order case of an ack both keep `[head0, head)` plus `acked_above` equal to the acked seqs |
| Protocol.JumpMeans | src/queue.rs:448-452 | the jump loop stops at the first seq not acked and drops from the set exactly the contiguous run it passed |
| Theorems.OpenKeeps | src/queue.rs:223-262 | a session opened on any store starts within the invariant |
| Theorems.OpenMeans | src/queue.rs:223-262 | a session begins with the store untouched, nobody in it, `len` and byte sum of the entries, `head` the least and `tail` one past the greatest seq, both 0 when there is none |
| Theorems.Conservation | src/queue.rs:304-307 | `len` is the size of the disjoint union of live entries, claimed pushes, failed pushes not yet given back and deleted acks not yet settled; `bytes` is its byte total |
| Theorems.NoUnderflow | src/queue.rs:440-443 | no decrement takes a counter below zero, and `len == 0` implies `bytes == 0` |
| HeadGap.HeadIsOldestExactly | DESIGN.md:139-145 | with nothing in flight `head` is the oldest stored entry if and only if it is not on a failed or never recovered seq |
| HeadGap.HeadOldestExactly | DESIGN.md:139-145 | in a session on any store, with or without group commit, `head` is the oldest entry whenever nothing is in flight if and only if no push fails and the recovered seqs have no gap |
| HeadGap.GapForGood | src/queue.rs:447-452 | once `head` is on such a seq no run moves it |
| HeadGap.FailedPushLeavesGap | src/queue.rs:362-369 | a concrete run after which `head` is 0 and the only entry is 1 |
| Theorems.ReservedExactly | src/queue.rs:389-402 | `reserved` is the set of the outstanding guards' seqs and no two guards share one, without assuming a single consumer |
| Theorems.GuardRun | src/queue.rs:426-488 | guard exclusivity over any run with any number of consumer threads |
| Theorems.OneWay | src/queue.rs:304-310 | a step moves a seq at most one stage forward in its life and never changes what was pushed under it |
| Theorems.AtMostOnce | src/queue.rs:94-140 | in any run each seq is claimed, successfully put and acked at most once |
| Overwrite.OverwritingExactly | src/queue.rs:223-230 | no put of a session ever lands on a key that holds anything, in memory or on disk, if and only if the disk holds nothing from the recovered `tail` on |
| Reopens.OverwritesExactly | src/queue.rs:191-230 | in no history of sessions, power losses and reopens from an empty store does a put write over anything, on disk or in memory, if and only if acks are synced |
| Reopens.OverwritesOnlyDeleted | src/queue.rs:223-230 | in every reachable state, whatever a push on its way could write over on disk has been deleted |
| Overwrite.FreshRun | src/queue.rs:304-310 | every seq claimed or still to be claimed stays unused, in memory and on disk, over any run |
| Overwrite.CrashIsFresh | tests/fault.rs:153-157 | after a power loss the condition always holds |
| Overwrite.ReopenedOverwrites | src/queue.rs:223-230 | a concrete run, with unsynced acks, after which a reopened queue would put over what is on disk |
| Theorems.LenRun | src/queue.rs:87-89 | over any run `len` never exceeds capacity or what was recovered, for any byte bound and any number of consumer threads |
| Theorems.BytesRun | src/queue.rs:87-89 | over any run under a byte bound `bytes` never exceeds it or what was recovered, unless exactly one item is outstanding |
| Alone.ReserveAlone | src/queue.rs:383-407 | run alone, `reserve` equals a scan from seq 0: the least unreserved entry, or nothing when there is none |
| Alone.ScanAlone | src/queue.rs:385-406 | the scan loop from any cursor ends at the least unreserved entry from there on |
| Alone.AckAlone | src/queue.rs:434-457 | a whole successful ack: the entry gone, the accounting settled, one notification owed |
| Theorems.DrainedStep | src/queue.rs:411-414 | closed with `len == 0` stays so after every step |
| Theorems.DrainedForGood | src/queue.rs:333-339 | drained and empty for the rest of any run |
| Wakeups.WakeStep | src/queue.rs:292-303 | every step keeps the wakeup accounting: free slots against wakes delivered or owed, an empty queue's sleeper, close's debt (what a woken push then does is `Calls.PushLife`) |
| Wakeups.WakeRun | src/queue.rs:292-372 | over any run with any number of producers: under the item bound free slots never outnumber wakes delivered or owed while anybody sleeps; under any bound an empty queue with a sleeper has a wake on the way; a closed one with a sleeper still owes `notify_all` |
| Limits.StrandingExactly | src/queue.rs:87-89 | no push is ever left asleep with room for it and no wake on the way if and only if there is no byte bound, or room for one item only |
| Limits.ByteBoundStrands | src/queue.rs:457 | a concrete run under a byte bound in which `notify_one` wakes a push that does not fit and one that fits sleeps on |
| Limits.MiscountingExactly | src/queue.rs:362-395 | `len` and `bytes` are exact in every run if and only if the consumer is a single thread and a failed commit changes nothing |
| Limits.OverlapMiscounts | src/queue.rs:384-402 | a concrete run with a second consumer thread that hands an entry out twice and takes `len` below zero |
| Limits.FailedPushCounts | src/queue.rs:362-367 | after a failed push `len` is right if and only if the failed commit changed nothing |
| Limits.FailedAckCounts | src/queue.rs:434-443 | after a failed ack `len` is right if and only if the failed delete changed nothing |
| GroupRefines.Refines | src/queue.rs:94-140 | every run of leaders, followers, failed batches and retries is, step by step, a run with one durable put per push and the same cursors, counters, store and results |
| GroupRefines.GStep | src/queue.rs:94-140 | each group-commit step keeps the ownership invariant and is zero, one or a batch of the one-put steps |
| GroupRefines.BatchIsCommits | src/queue.rs:112-118 | one batch commit does what its entries committed one by one by their own callers would do |
| GroupRefines.GroupRecords | src/queue.rs:104-129 | batches are counted when their outcomes are recorded, and a caller joins at the count so far |
| GroupLifts.Lifts | src/queue.rs:352-361 | conversely every run with one durable put per push is a run with group commit, failing no push that it does not |
| GroupOnce.GroupAtMostOnce | src/queue.rs:94-140 | over any run with group commit each seq is claimed, put and acked at most once, and never again if it already was |
| GroupOnce.RunCounts | src/queue.rs:94-140 | a group-commit run puts, claims and acks each seq exactly as often as the run it stands for |
| GroupScript.Conducts | src/queue.rs:103-132 | for any script of arrivals the leader's steps end where the leader's code does, in memory and on disk: the same entries and recorded outcomes, its own outcome collected |
| GroupScript.CodeIsSteps | src/queue.rs:94-140 | the whole call by a leading caller, retry included, ends with the same entries, the same outcomes left for others and the same result in code and in steps, and the code's disk holds only what the steps allow |
| GroupLoop.LeadTells | src/queue.rs:104-129 | the leader's loop gives every caller it serves an outcome that says whether its own bytes are stored, and touches no other key |
| GroupLoop.LeadSyncs | src/queue.rs:104-129 | the leader makes one commit a batch; once one succeeds everything stored is synced; and when none does nothing changes and every outcome is a failure |
| GroupLoop.LeadPromises | src/queue.rs:104-129 | every caller served has an outcome, and those told Ok have their own bytes on disk |
| GroupLoop.CallPromises | src/queue.rs:94-140 | the whole call: Ok exactly when the caller's batch succeeds or, that having failed, its lone retry does, and then the caller's bytes are on disk, as are those of every other caller told Ok; no other key and not the meta record is touched |
| GroupLoop.BatchEntries | src/queue.rs:112-118 | a batch commit stores every entry of the batch under its own seq and changes no other |
| GroupLoop.Committer.FlushAll | src/queue.rs:103-129 | the loop as code, with the callers that join during each commit as a script: one commit a batch, an outcome for every caller served, and on disk the bytes of each told Ok |
| GroupLoop.Committer.Record | src/queue.rs:121-123 | the insert loop gives every caller of the batch its outcome and leaves the others' |
| GroupLoop.Committer.GroupCommit | src/queue.rs:94-140 | the leader's whole call: Ok means its own bytes are on disk, its outcome is collected, the retry is made exactly when its batch failed, every other caller served finds an outcome that means the same for it, and nothing is pending |
| Sessions.AtLeastOnce | tests/fault.rs:153-209 | over any sessions, crashes and reopens, each at any step, every push that returned Ok under `Sync` or `Group` is in the store with its own bytes until a delete of it commits or power is lost during one, and only pushes in a successful durable commit returned Ok |
| Sessions.EventKeeps | src/queue.rs:204-274 | every step, power loss and reopen keeps every promise |
| Sessions.DurStep | src/queue.rs:352-372 | every step keeps each promised entry stored and synced until a delete of it commits |
| Sessions.KeptSurvives | tests/fault.rs:153-157 | a synced entry with no delete under way, one that failed included, survives any power loss unchanged, even with each unsynced write surviving or not independently |
| Sessions.DeletedByAck | src/queue.rs:434-438 | over steps, power losses and reopens a push comes to count as deleted only while `ack` is at work on its guard |
| Sessions.ReopenMeans | tests/fault.rs:153-157 | a power loss leaves the survivors on disk and everyone gone, a reopen leaves the store as it was, and promises carry over |
| Reopens.AllMaySurvive | tests/fault.rs:153-157 | in every reachable state a power loss is possible that loses nothing |
| Reopens.TornCommits | DESIGN.md:107-113 | a power loss during a commit may leave the entry written or not, and during a delete gone or not |
| Reopens.UnsyncedPutMayVanish | tests/fault.rs:131-157 | without a durable policy a push that returned may be lost to a power loss |
| Sessions.DurableAckIsFinal | tests/fault.rs:109-129 | an item whose delete was durably committed is never in the store again, in any later session |
| Sessions.UnsyncedAckMayReturn | src/queue.rs:191-198 | with `durable_acks` off, an acked item may be back after a power loss |
| Sessions.Beginning | src/queue.rs:204-274 | an empty store is where every such history may start |
| Keys.KeyRoundTrip | src/queue.rs:490-501 | `seq_of` undoes `entry_key`, whose results are entry keys |
| Keys.SeqRoundTrip | src/queue.rs:497-505 | every entry key is the key of its own seq, so the correspondence is one to one |
| Keys.KeyOrder | src/queue.rs:490-495 | the byte order of entry keys is the numeric order of seqs |
| Keys.KeyBounds | src/queue.rs:13-16 | meta and `ENTRY_LOW` sort below every entry and `ENTRY_HIGH` bounds them |
| Keys.Layout | src/queue.rs:10-16 | meta is the key 0x00 and every entry key 0x01 followed by eight bytes |
| Stores.Seek | src/store.rs:68-76 | the smallest entry at or above the key, or none |
| Stores.SeekBack | src/store.rs:78-86 | the greatest entry at or below the key, or none |
| Stores.SeekFindsLeast | src/queue.rs:386-388 | on a store of meta and entries a forward seek from an entry key finds the least seq from there on, with its bytes |
| Stores.SeekFromLow | src/queue.rs:235-236 | a seek from `ENTRY_LOW` starts where a seek from entry 0 does |
| Stores.SeekBackFindsMost | src/queue.rs:223-230 | a backward seek from `ENTRY_HIGH` finds the greatest entry, or no entry |
| Stores.PutEntry | src/queue.rs:356-358 | committing a put of an entry key changes that seq only, not the meta record, and keeps the store to meta and entries |
| Stores.DeleteEntry | src/queue.rs:435-438 | likewise for a delete |
| Stores.PutMeta | src/queue.rs:217-220 | writing the meta record changes it alone, no entry |
| Stores.LastWins | src/store.rs:88-101 | under each key a batch leaves what its last operation on that key says, or what was there |
| Stores.MemStore.Get | src/store.rs:64-76 | an exact lookup returns what a forward seek from the same key lands on, and nothing when the seek passes it by |
| Stores.MemStore.Commit | src/store.rs:88-101 | the loop applies the operations in order |
| Stores.SharedMem.Commit | tests/fault.rs:187-209 | fails and changes nothing on the commits it is told to fail, in any pattern; otherwise applies every operation, and a durable commit syncs the whole live state |
| Stores.CrashModels | tests/fault.rs:131-158 | the fault store's crash is one of the outcomes the model's crash allows, key by key |
| Stores.PutModels | tests/fault.rs:192-207 | a put in the fault store is the model's put, synced or not |
| Stores.EraseModels | tests/fault.rs:192-207 | a delete in the fault store is the model's delete, synced or not |
| Queue.Queue.Open | src/queue.rs:204-274 | a store without meta gets version 1 written, synced under a durable policy, or the commit fails and nothing changes; one whose meta begins with another byte (or is empty: 0) is rejected with it and untouched; otherwise settings as given, and cursors and counters equal to count, byte sum, least and greatest-plus-one of the entries |
| Queue.Queue.OpenTwice | src/queue.rs:204-274 | a store that opened once opens again under any settings, with the same cursors and counters |
| Queue.Queue.Scan | src/queue.rs:223-246 | the recovery loop derives exactly those from the byte keys, across gaps |
| Queue.Queue.TryPush | src/queue.rs:314-330 | Closed, Full (no slot, or a byte bound exceeded on a queue not empty), stored or failed: which, and the whole new state in each case; a failed push costs only its seq; the meta record stays |
| Queue.Queue.Write | src/queue.rs:352-372 | commits the entry alone or through group commit, and gives the slot back on failure |
| Queue.Queue.CommitEntry | src/queue.rs:353-359 | alone, the group path and the plain path have the same effect on entries and sync state |
| Queue.Queue.Close | src/queue.rs:333-339 | only `closed` changes |
| Queue.Queue.Reserve | src/queue.rs:383-407 | the byte-key scan loop hands out the least unreserved entry of the store, found from `head`, or nothing when there is none |
| Queue.Queue.Ack | src/queue.rs:434-460 | the entry deleted, the counters settled and exactly this seq added to the acked ones, or everything but the released guard unchanged; succeeds exactly when the commit does; synced under the policy for acks |
| Queue.Queue.Settle | src/queue.rs:439-456 | the locked part with the head-jump loop computes the same result as the step relation's ack |
| Queue.Queue.Release | src/queue.rs:463-488 | only the reservation goes |
| Queue.Queue.Drain | tests/fault.rs:98-106 | reserve-then-ack until None delivers each stored entry exactly once with its bytes in strictly ascending order, and ends empty with both counters zero |
| Queue.Queue.DeliverOne | src/queue.rs:383-460 | one round delivers the oldest entry and removes it alone |
| Queue.OneMore | src/queue.rs:236-246 | one turn of the recovery loop counts the next entry |
| Queue.AckFits | src/queue.rs:440-455 | settling an ack keeps the counters exact and `head` at or below every remaining entry |
| Notify.DropForwards | src/async_queue.rs:82-99 | dropping a waiter that was told loses no wake while anybody waits |
| Notify.WakeReaches | src/async_queue.rs:84-99 | a wake sent while nobody waits reaches the next to register, one sent to waiters the longest registered |
| Notify.NotifyOneTells | src/async_queue.rs:182-183 | a `notify_one` becomes one more wake under way unless nobody waits |
| AsyncFacade.RoomStep | src/async_queue.rs:80-118 | every step keeps: with a suspended push, free slots are at most the wakes of `room` delivered, passed on or owed; once closed, close still owes `notify_waiters` (what a resumed push does is `AsyncAnswers.FutureLife`) |
| AsyncFacade.ItemsStep | src/async_queue.rs:140-158 | every step keeps: whatever a waiting or about to wait `reserve` would miss, an item or a closed and empty queue, somebody still owes `items` a notification for (what it returns is `AsyncAnswers.ReserverLife`) |
| AsyncAnswers.Replies | src/async_queue.rs:80-158 | in every state of every run, store failures included: a push about to return Ok has had its own bytes stored, a store error means its commit failed and its slot is back, Closed means the queue is closed, Full only for one that does not wait; a reserve about to return None faces a closed queue with `len` 0 and no entry |
| AsyncAnswers.FutureLife | src/async_queue.rs:80-118 | how a push future may go from one point to the next: registered before each attempt, claiming only with room, waiting only on a full open queue, going on from its await only to try again, and telling `items` before it returns Ok |
| AsyncAnswers.ReserverLife | src/async_queue.rs:140-158 | how a reserve goes on: registered before each attempt, returning an item only with its guard, returning None exactly when it finds the queue closed and empty, and otherwise awaiting and trying again |
| AsyncAnswers.FutureGoesOn | src/async_queue.rs:80-118 | every push future has a step to make but one whose await is not over |
| AsyncAnswers.ReserverGoesOn | src/async_queue.rs:140-158 | so has the reserve, when no ack is under way in the queue |
| AsyncAnswers.DebtsGoOn | src/async_queue.rs:88-118 | every notification owed by a push, an ack, a nack or a close can be sent |
| AsyncAnswers.StoreMayFail | src/async_queue.rs:89-97 | with store failures, any store operation of the facade may fail |
| AsyncTheorems.FacadeRunsQueue | src/async_queue.rs:78-195 | every run of the facade, with or without store failures, is a run of the queue, so all of the above applies to it |
| AsyncTheorems.AsyncRun | src/async_queue.rs:78-213 | the async invariant holds after every run without store failures |
| AsyncTheorems.StuckExactly | src/async_queue.rs:178-213 | under the item-count bound no run leaves a future stuck if and only if the store does not fail |
| AsyncTheorems.FailedAckStrands | src/async_queue.rs:178-186 | a concrete run in which a failed ack puts its item back and the suspended reserve is never told |

## Left out

- `SledStore`, `RedbStore`, `RocksStore`: foreign databases; the store contract, `MemStore` and `SharedMem` stand for them.
- `src/codec.rs`, `src/archived.rs`, `src/typed.rs`: wrappers over encoding libraries that are not part of this model.
- `src/error.rs`, `src/lib.rs`, `src/sync.rs`, benches: display text, re-exports, timing.
- Blocking `push` has no method of its own: its condvar loop exists only as steps (`Arrive`, `Recheck`); `Queue.TryPush` is the sequential code.
- Followers of group commit exist only as steps; `Committer` is the leader's code, and arrivals during a commit are given to it as a script. The branch for an empty first batch cannot be taken by a leader that has just joined and is not written.
- Store errors of `get` and of the seeks in `open`: the fault store's reads do not fail. An erring seek in `reserve` is a step of the protocol.
- Fairness, leader starvation, real-time order between pushes, and the time a wait takes.
- Survival of items under `Durability::None`: nothing is promised there.
- A reopen without a power loss happens between commits.
- The async facade drives the queue through one commit per push; the group-commit path enters through `GroupRefines.Refines`. Cancelled futures are not modelled, and the async wakeup results are for the item-count bound.
- `Notify` stands for the tokio primitive as a queue of registered waiters, one stored permit, and forwarding on drop; a wake sent by `notify_waiters` to a waiter created but not registered is not modelled, which only makes fewer wakes arrive.
- Queue.Queue.TryPush: states sequential calls; the interleavings are `Invariants.StepKeeps` and `Wakeups.WakeRun`.
