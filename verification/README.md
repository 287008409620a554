# A crash-tolerant Redis job queue

This project models the queue of the `redisq` package: one queue's Redis keys,
the Lua scripts that many processes run over them in any order, and the small
state machines each process keeps beside them (ack ID reservations, batch
sizing, the pause cache). It proves what a user of the queue relies on.

- **No job is lost or doubled.** In every run, what was submitted is waiting,
  pending, acknowledged or rejected, as items, and each counter counts its own. When Redis refuses pushes, one
  item is lost for each RequeueNackedItems that fails, and no other.
- **A call may be sent again at any time.** A pop whose reply was lost gives its
  items back to the same caller, and takes no others, when that caller keeps no
  other failed call already.
- **An item popped is held.** While its process sweeps in time, an item stays
  pending under its ID until its deadline, unless it is finished, its process
  closes, or everything is purged or requeued.
- **The sweep is a sound and timely failure detector.** An owner that sweeps in
  time is never taken for dead, stalls not counted. One that stopped is, within
  stated bounds that assume sweeps at gaps below 2 s, so no stall. Whom a sweep
  reaps after a stall does not depend on how long the stall was.
- **A sorted set is a stable priority queue**, with the items of a closed or
  dead owner returned in a stated order.
- **A pause holds.** The flag is there exactly from the first Pause to the next
  Resume, whatever else runs; meanwhile no pop takes anything, and afterwards
  pops take items and queue objects size their calls as if it had not been there.
- **No wake and no pause change is lost.**
- **An id stores once per window.** EnqueueOnce stores its item exactly when no
  stored push of its id has its window reach to now.

## How it is built

| file | what it holds |
|---|---|
| `ByteStrings`, `SortedSets`, `AckIds`, `WaitingQueue` | byte order, Redis sorted sets, ack IDs, the two queue storages |
| `Store`, `Runs`, `Effects` | every script as a function on the queue's keys; runs of calls; what each call changes |
| `ScriptSteps`, `Refusals`, `Redis` | class `Redis`: the scripts step by step over the keys, each proved to do what its function says, also when a push fails in the middle, and `Serve` and `ServeTries`, which run any number of calls |
| `Batches`, `PausedDrains` | class `QueueObject` and `dequeueBatch`: sizing, drains, lost replies, refusals, and the order of the ack IDs |
| `PendingKeys`, `Conservation`, `Resend`, `PoppedItems`, `Agreement`, `HandBackOrder`, `Aborts`, `FailingRuns`, `StableQueue`, `Attempts` | the items through pops, requeues, finishes, re-sends and failing pushes |
| `FailureDetector`, `Heartbeats`, `Deadlines`, `Possession`, `StallGuard`, `DeadOwner`, `Orphans` | heartbeats, presence, deadlines and the sweep, and what they mean for who holds an item |
| `JobRecords`, `RecordlessRun`, `Wakes`, `Dedup`, `PauseFlag` | Job Records and trims; the idle set; EnqueueOnce ids; the pause flag |
| `Reservations`, `PauseHooks`, `CachedPause` | what one process does between its goroutines, one atomic step at a time |

A run is a sequence of events: a call, Redis's clock when it runs, and which
owners' wake channels have a subscriber then. Events are in no way tied to one
process, so a run is any interleaving, and a re-sent call is the same call later
in the run. A theorem about runs assumes of them only what `ProperRun` says:
what SPOP and HKEYS return is there, pops ask for 1 to 1000 items, and the
sequence counter is below 2^53.

## Assumptions

- Times are whole microseconds of Redis's clock, read once per script. A
  theorem that needs the clock not to run back says so (`Timely`).
- The order in which SPOP and HKEYS return members is a parameter of the call.
- The envelope id of an item is an unknown function of the item, empty for none.
- Ack ID prefixes are not empty, hold no colon and differ between queue objects
  (`IsOwner`, and an owner's calls being its own).
- A reservation number is below 2^64 and is always used for the same count,
  which `Reservations.SentSizeFixed` proves of the client.
- Priorities are integers.
- A push that fails does so at its RPUSH, LPUSH or ZADD, which ends the script
  and keeps what it wrote before (`Refusals`). `FailingRuns` is about runs with
  such failures; the other theorems about runs are about calls that do not fail.
- Batch sizing (`Batches.DrainBound`) is about one caller, with no failed calls
  and no pushes meanwhile; attempts are counted by envelope id, so
  `Attempts.AttemptsAreHandouts` is about items held under distinct ids.
- A remembered EnqueueOnce id is taken up to and including the microsecond it
  expires in.

## Where comments say more than the code does

- A batch is said to share one deadline (`queue.go:562-563`). It stops doing so
  when a middle item was acknowledged and the pop is sent again, whether the
  batch had a deadline or, popped with no timeout, none.
  `Resend.ResendKeepsOneDeadline` gives the exact condition, and
  `Resend.AckedMiddleSplits` a run of six calls from an empty queue for both.
- With retention 0 "the next trim drops the ones there" (`queue.go:422-424`).
  With more than 1000 of them the rest wait for later trims, and one job can lose
  its record and keep its place in the index. `JobRecords.RecordlessJob` gives
  the exact condition and `RecordlessRun.RecordlessRun` a run.
- A push that fails is said to lose nothing (`queue.go:966-967`). That holds of
  the sweep and of Close (`Aborts.AbortLosesNone`). RequeueNackedItems drops an
  item before it pushes it, and loses exactly that one
  (`Aborts.RequeueAbortLosesOne`).
- Ack IDs "sort in pop order" (`queue.go:553-554`). They sort in the order their
  reservation numbers were drawn. Of two pops of one queue object, in the order
  Redis ran them, the earlier one's IDs sort first exactly when the later one's
  number was not drawn yet when the earlier one's was
  (`Reservations.RanInDrawOrder`); unless copies arrive after their call has
  returned, that is when the later one's reservation was then neither kept nor
  with another goroutine (`Reservations.RanInOrder`). For one goroutine that
  leaves the kept reservations (`Batches.PopsInOrder`). It fails with a kept
  reservation (`Batches.KeptPopsLater`), and with two calls in flight and nothing
  ever kept (`Reservations.InFlightOutOfOrder`, `Batches.SecondRunsFirst`).

## Model

| member | source | states |
|---|---|---|
| RedisServer.Redis.constructor | queue.go:84-103 | a queue with no keys yet: the empty store, as a list or as a sorted set |
| RedisServer.Redis.Push | queue.go:275-278 | one item goes to a list's tail, or into a sorted set under the next sequence number, and counts as submitted; a push that fails leaves at most the new number |
| RedisServer.Redis.PushOnce | queue.go:262-269 | a remembered id stores nothing; else the push and then the id, for its window; a push that fails leaves the id free |
| RedisServer.Redis.PushWake | distributed.go:9-12 | the push, then, unless it failed, a wake for as many consumers as items wait |
| RedisServer.Redis.PushWakeOnce | distributed.go:14-17 | the same under an id; a repeat or a push that fails stores nothing and wakes no one |
| RedisServer.Redis.WakeUpTo | notification.go:55-65 | the SPOP loop leaves the idle set and reaches the consumers that `Wake` says, for any draw order |
| RedisServer.Redis.Beat | queue.go:853-857 | a positive heartbeat timeout sets the owner's heartbeat to now plus it; 0 leaves it |
| RedisServer.Redis.ReplyWith | queue.go:571-575 | the reply has the length, and a consumer with room that left the queue empty is idle in the same step |
| RedisServer.Redis.BuildIds | queue.go:576-577 | the loop builds exactly the IDs of the call, index 1 to want |
| RedisServer.Redis.RaiseDeadline | queue.go:585-588 | one deadline raised to the run's, never lowered, and set where there was none |
| RedisServer.Redis.HandBackRun | queue.go:580-589 | the loop returns the leading run of pending items, up to the first gap, and raises just their deadlines |
| RedisServer.Redis.HandBack | queue.go:578-593 | the guard changes only those deadlines and the owner's heartbeat |
| RedisServer.PopMin | queue.go:629-636 | ZPOPMIN takes the first entries of the order, as bare items with their scores |
| RedisServer.Redis.TakeFront | queue.go:624-636 | LRANGE and LTRIM, or ZPOPMIN: the first items leave the queue, and a sorted set's scores are kept under the IDs |
| RedisServer.Redis.TakeIn | queue.go:597-612 | the items are pending under their IDs with one deadline and start time, and the owner beats |
| RedisServer.Redis.TakeOut | queue.go:594-612 | pop and bookkeeping together move min(want, length) items and nothing else |
| RedisServer.Redis.BatchPop | queue.go:569-618 | guard, pause check, pop and reply of the batch script: whole new state and reply |
| RedisServer.Redis.LeanPop | queue.go:694-711 | the one-item script of a batch call: whole new state and reply |
| RedisServer.Redis.SinglePop | queue.go:647-685 | the one-item script of DequeueWithAckId: whole new state and reply |
| RedisServer.Redis.Repush | priority.go:150-155 | a list gets the item at its head; a sorted set under a new number at its popped score, 1 without one, and the score entry goes; a push that fails leaves only the new number |
| RedisServer.Redis.RequeuePush | priority.go:143-146 | the push of zsetRequeue, which drops the score entry before it: a push that fails leaves the new number and no score |
| RedisServer.Redis.CountRequeue | queue.go:953-958 | the start time goes and the envelope id, if any, counts one attempt |
| RedisServer.Redis.MoveBack | queue.go:972-981 | move(id): a pending item goes back with its bookkeeping, the deadline goes either way; at a push that fails it stops with the item still pending; returns how many left pending |
| RedisServer.Redis.RequeueOne | queue.go:935-944 | a turn of requeueLoop: the same at the end, but at a push that fails it stops with the item and its deadline already dropped |
| RedisServer.Redis.RequeueInTurn | queue.go:934-946 | the loop makes those turns up to the first push that fails |
| RedisServer.Redis.RequeueNacked | queue.go:926-947 | RequeueNackedItems: the overdue, or with no timeout all, go back in turn, up to the first push that fails; returns how many |
| RedisServer.Redis.MoveInTurn | queue.go:1075 | a loop of move(id) makes the moves in turn, up to the first push that fails |
| RedisServer.Redis.MoveEach | queue.go:1036 | and changes nothing else; returns how many left pending |
| RedisServer.Redis.GuardStall | queue.go:1019-1022 | past the normal gap every heartbeat and every mark above 0 moves on by the gap |
| RedisServer.Redis.RenewOwn | queue.go:1025-1034 | the sweeper's heartbeat is renewed and its mark cleared, or both go with no timeout; tells whether it had lapsed |
| RedisServer.Redis.Prepare | queue.go:1014-1034 | stall guard, clock and renewal in this order |
| RedisServer.Redis.ExpiredOwners | queue.go:1039 | the first 100 owners whose heartbeat ran out |
| RedisServer.Redis.CountSubscribers | queue.go:1041-1050 | the subscriber loop marks the live owners and finds the gone: seen before, and without a subscriber for 2.5 s |
| RedisServer.Redis.FindDead | queue.go:1038-1051 | dead are the expired, and when the clock moved also the gone |
| RedisServer.Redis.CollectOwned | queue.go:1053-1056 | the dead owners' pending IDs in byte order, in whatever order HKEYS lists |
| RedisServer.Redis.CollectPrefixed | queue.go:1069-1073 | the IDs under one prefix in byte order, in whatever order HKEYS lists |
| RedisServer.Redis.DropOwners | queue.go:1058-1061 | the dead lose heartbeat and mark, and nobody else does |
| RedisServer.Redis.ReapDead | queue.go:1052-1062 | the dead owners' items go back in ID order, and only after the last one do their entries go |
| RedisServer.Redis.Reap | queue.go:1037-1063 | the dead are found and reaped so |
| RedisServer.Redis.Sweep | queue.go:1014-1065 | tickBody: whole new state, also when a push fails on the way, how many items moved, whether the sweeper's heartbeat had lapsed, whether the queue is paused |
| RedisServer.Redis.Release | queue.go:1069-1078 | Close: the owner's items go back in ID order, and then its heartbeat and mark go, or, when a push fails, stay; returns how many moved |
| Refusals.ScriptsUnrefused | queue.go:926-947 | with no push failing, Close and RequeueNackedItems are the whole requeues that runs are made of |
| Refusals.SweepUnrefused | queue.go:1014-1065 | and so is the sweep |
| RedisServer.Redis.CollectGone | queue.go:455-465 | a trim collects the aged and those over keep, up to 1000 each, or the oldest 1000 with no retention |
| RedisServer.Redis.TrimIndex | queue.go:455-471 | they leave the index and their records go |
| RedisServer.Redis.TrimRecords | queue.go:522-525 | both states are trimmed, each with its own retention |
| RedisServer.Redis.LeaveProcessing | queue.go:484-497 | a finished item leaves the four pending keys and :attempts; its Job ID is the envelope id, else the ack ID |
| RedisServer.Redis.FileRecord | queue.go:501-515 | the job leaves the other state; its record is kept under its own, or dropped with no retention |
| RedisServer.Redis.Finish | queue.go:484-517 | Acknowledge and Reject: whole new state; an ID that is not pending does nothing |
| RedisServer.Redis.Purge | queue.go:342-344 | the job keys are as new; consumer state, pause and remembered ids stay |
| RedisServer.Redis.LenIdle | notification.go:46-48 | the length, and on 0 the consumer is idle in the same step |
| RedisServer.Redis.Nudge | notification.go:75-78 | with items the consumer leaves the idle set; without, an idle one is put back |
| RedisServer.Redis.Pause | pause.go:28-31 | sets the flag to the time unless set; tells whether it did |
| RedisServer.Redis.Resume | pause.go:37-40 | drops the flag and wakes up to one idle consumer per item; tells whether it did |
| RedisServer.Redis.Handle | queue.go:554-555 | each call, run to its end, is one step of the run semantics |
| RedisServer.Redis.Serve | queue.go:554-555 | any sequence of calls ends in the state `Run` says, so the theorems about runs are about these scripts |
| RedisServer.Redis.Attempt | queue.go:965-968 | each call, with any of its pushes refused, is one step of the runs with failing pushes |
| RedisServer.Redis.ServeTries | queue.go:965-968 | and any sequence of such calls ends in the state `TriedAll` says |
| Batches.QueueObject.constructor | queue.go:84-103 | a new queue object has no kept reservation and expects a full batch |
| Batches.QueueObject.Reserve | queue.go:797-807 | a kept reservation that fits is used again; one that does not stays kept, and a new number is taken |
| Batches.QueueObject.RunScript | queue.go:883-887 | a reservation of one runs the lean script, any other the batch script |
| Batches.QueueObject.Learn | queue.go:907-913 | the next call expects what remains, or once empty what was taken since it was last seen empty |
| Batches.QueueObject.DequeueBatch | queue.go:866-916 | the whole call: queue object, Redis and result, for a reply, a call that never ran, a lost reply and a refusal |
| Batches.QueueObject.DequeueOne | queue.go:752-780 | the whole single call: a reservation of one, and queue object, Redis and result for each fate |
| Batches.OneCall | queue.go:877-915 | a call with no failed one behind it takes exactly min(size, length) first items under fresh IDs |
| Batches.DrainBound | queue.go:859-865 | calling while items remain hands out all L in queue order in at most 1 + ceil((L-1)/k) calls, after which the object expects the items taken since the queue was last seen empty |
| Batches.DrainRest | queue.go:859-865 | from a known length L the drain takes exactly ceil(L/k) calls |
| Batches.BurstInOneCall | queue.go:737-742 | a burst no longer than the last one is taken in one call, and an empty call keeps the size |
| Batches.LostReplyComesBack | queue.go:789-796 | after a lost reply, whatever ran in between, the next call with room gets exactly those items under the same IDs, uses up the kept reservation and takes no others |
| Batches.LostReplyAtOnce | queue.go:789-796 | the same with nothing assumed of a run: when it is the very next call |
| Batches.LostSingleComesBack | queue.go:789-796 | the same of single pops: after any run that leaves the item pending, the next single call gets it under the same ID and takes no other |
| Batches.AlwaysNumbered | queue.go:797-807 | through any calls a kept reservation has a number handed out before and is for 1 to 1000 items |
| Batches.PopsInOrder | queue.go:552-555 | for one caller: of two pops of one object under different reservations, any calls between them, the earlier one's IDs sort first if and only if the later one's was not kept from before it |
| Batches.KeptPopsLater | queue.go:789-796 | a call for two that never ran, a call with one slot, a call for two: the last one's IDs sort before the second's |
| Batches.SecondRunsFirst | queue.go:797-807 | two calls in flight under numbers 1 and 2, the second one's script first: it takes the first item, and its ID sorts last |
| PausedDrains.RefusedCall | queue.go:893-896 | a call on a paused queue, none of whose IDs is pending, returns an empty batch and no error, leaves Redis, popLen and popRun as they were, and keeps no reservation |
| PausedDrains.RefusedSingle | queue.go:752-780 | the same of a single pop |
| PausedDrains.FailedCallKeeps | queue.go:888-891 | a call that fails, run or not, keeps its own reservation if none is kept, and learns nothing |
| PausedDrains.InterruptedDrain | queue.go:907-913 | calls of which any number are refused take the first items in order, and leave popLen and popRun in numbers: what remains, or the items taken since the queue was last seen empty |
| PausedDrains.InterruptedDrainEnds | queue.go:859-865 | 1 + ceil((L-1)/k) calls that are not refused empty a queue of L, however many are in between |
| AckIds.SegmentIsPrefix | queue.go:1052-1057 | first-segment matching and prefix matching pick the same IDs of an owner, both ways |
| AckIds.AckIdReads | queue.go:809-812 | an ID is its owner, a colon, 20 digits that read back as the reservation, a colon and 4 that read back as the index |
| AckIds.AckIdOrder | queue.go:809-812 | byte order of one owner's IDs is exactly (reservation, index) order |
| AckIds.AckIdInjective | queue.go:809-812 | two IDs are equal exactly when owner, reservation and index are |
| AckIds.AckIdsOfCall | queue.go:552-555 | the IDs of one call are distinct, its owner's, and in pop order |
| AckIds.AckIdsDisjoint | queue.go:718-723 | calls of other owners or reservations share no ID |
| WaitingQueue.ItemOfEncode | priority.go:42-48 | itemOf undoes the encoding for any item bytes |
| WaitingQueue.EncodeReads | priority.go:13-18 | a member is byte 255, 16 hex digits that read back as its number, and its item |
| WaitingQueue.StampOrder | priority.go:13-18 | 16 hex digits order as the numbers do, and never collide |
| WaitingQueue.FreshStamp | priority.go:13-17 | the next number's member is new and sorts behind every waiting one of its score |
| WaitingQueue.PushRefines | priority.go:23-27 | ZADD under the next number is an insert behind all of the same or a lower score |
| WaitingQueue.StableInsertSorted | priority.go:133-135 | such an insert keeps score order |
| WaitingQueue.StableInsertFifo | priority.go:133-135 | and is first in, first out within each score |
| WaitingQueue.EntriesSorted | priority.go:114-127 | the queue lists by score |
| WaitingQueue.RestDrops | queue.go:621-636 | a pop of n takes the first n entries, leaves the others in order, and keeps the stamps distinct |
| PendingKeys.MoveAllNacked | queue.go:972-983 | moving IDs takes exactly them out of :nacked and :timeouts |
| PendingKeys.SoundStep | queue.go:597-612 | every call keeps :started at exactly the pending IDs, deadlines and scores within them, and stamps distinct and below the counter |
| PendingKeys.SoundRun | queue.go:597-612 | so it is in every run |
| Conservation.TotalStep | queue.go:554-555 | a call changes the items held by exactly what it stores and finishes, whatever it is a re-send of |
| Conservation.BalanceRun | queue.go:484-517 | submitted = held + acknowledged + rejected, and each of the three counters the number of its items, is kept by every run; a purge restarts it at zero |
| Conservation.Conserved | queue.go:275-278 | from an empty queue: submitted items = queue + pending + acknowledged + rejected, completed counts those acknowledged and failed those rejected |
| Resend.KeptStep | queue.go:557-563 | no call overwrites a pending entry or lowers its deadline |
| Resend.ResendSafe | queue.go:557-563 | a pop run again later, none of its IDs gone, returns exactly its items, leaves queue and pending as they were and only raises deadlines, even once paused |
| Deadlines.DueStep | queue.go:585-588 | a pop that hands an item out, the first time or again, makes its deadline the later of the one it has and the pop's time plus its timeout, with no timeout it changes none, and no other call changes one |
| Deadlines.DueAtPopPlusTimeout | queue.go:834-838 | over any run in which an item stays pending, its deadline is the time it was popped plus that pop's timeout, or, handed out again since, the latest such time; none with no timeout |
| Deadlines.TakenOutExactly | queue.go:1036-1057 | a pending item leaves exactly by its finish, a purge, its owner's Close, RequeueNackedItems with no timeout or past its deadline, or a sweep past its deadline or that takes its owner for dead |
| Deadlines.SweptAtPopPlusTimeout | queue.go:1036 | a sweep takes an item popped at t with timeout vt exactly when t + vt has come or its owner is taken for dead |
| Resend.FreshPopUnderPause | pause.go:18-24 | while paused a pop that is no re-send changes nothing and gets nothing |
| Resend.DeadlineContract | queue.go:819-826 | an item stays off the deadline rule until pop time plus timeout, and its untouched batch is overdue all at once or not at all, through re-sends |
| Resend.SweepTakesOverdue | queue.go:1036 | a sweep takes a pending item exactly when its deadline has come or its owner is dead |
| Resend.ResendKeepsOneDeadline | queue.go:560-563 | when what is pending of a batch has one deadline or none, a re-send keeps it so if and only if the first ID is gone, its deadline is not raised, or nothing is pending past the first gap |
| Resend.AckedMiddleSplits | queue.go:582-589 | from an empty queue: three items pushed and popped, the second acknowledged, the pop sent again with a later deadline: the first item gets it and the third keeps its own, or none |
| Agreement.LeanIsBatchOfOne | queue.go:687-711 | the lean script equals the batch script at want 1, state and reply |
| Agreement.SingleIsLeanWithOneSlot | queue.go:639-643 | the single script equals the lean one for a caller with one slot |
| Agreement.BatchIsSingles | queue.go:639-643 | for any number of free slots of at least want, a batch of want returns what want single pops under its IDs return at one clock reading, and leaves the same state but for the idle set: the consumer joins exactly when the queue is not paused, the batch filled want and emptied it, and slots are left |
| HandBackOrder.SameSelection | queue.go:1067-1073 | sweep and release select the same items of an owner |
| HandBackOrder.ListHandBack | queue.go:970 | LPUSH in ID order leaves the last of them first, ahead of all waiting items |
| HandBackOrder.RankedHandBack | priority.go:140-142 | each comes back at its popped score, behind those waiting at it, in ID order |
| HandBackOrder.ReleaseToList | queue.go:1069-1078 | Close on a list: reverse of the owner's items, then the queue, place by place the item of the last ID first; it moves exactly those |
| HandBackOrder.ReleaseToRanked | queue.go:1069-1078 | Close on a sorted set, score by score; it moves exactly the owner's items |
| Aborts.StopsAtFirst | queue.go:926-947 | both loops make exactly the moves before the first push that fails and stop inside it, each with what it has written by then |
| Aborts.AbortLosesNone | queue.go:965-968 | a failing push in a loop of move(id) loses no item: those before it are back, it and the others are pending with all that was noted of them; the loop ends exactly when no push fails |
| Aborts.SweepAbortLosesNone | queue.go:1036-1063 | a sweep that fails loses none and keeps the heartbeats of those it took for dead |
| Aborts.ReleaseAbortLosesNone | queue.go:1069-1078 | a Close that fails loses none and keeps the owner's heartbeat |
| Aborts.RequeueAbortLosesOne | queue.go:935-947 | in requeueLoop a failing push loses exactly its item, leaving its start time behind; nothing is lost exactly when no push fails |
| FailingRuns.TriesUnrefused | queue.go:554-555 | runs in which no push is refused are the runs of the other theorems |
| FailingRuns.ConservedButForAborts | queue.go:965-968 | in every run from an empty queue, whatever pushes are refused: submitted = waiting + pending + acknowledged + rejected + lost, as items and as counters, with exactly one item lost per RequeueNackedItems that failed |
| FailingRuns.RetryStoresOnce | queue.go:257-261 | after any number of failed pushes under an id, the call that goes through leaves the queue, the counters and the id as a first call would |
| StableQueue.LineStep | priority.go:13-17 | each call does to the queue and what is out exactly what its operation does to a plain queue of entries |
| StableQueue.RunIsStableQueue | priority.go:133-135 | in every run from an empty queue, what waits and what is out is what those operations leave of a plain queue: stable by priority for a sorted set, requeues to the head for a list |
| StableQueue.StepsKeepKind | priority.go:114-127 | that queue is always in score order |
| PoppedItems.EntryStep | queue.go:557-563 | every call keeps the item, start time and score of an item it leaves pending |
| PoppedItems.ReturnsAsPopped | priority.go:140-155 | after any run a move gives a sorted set the very entry that was popped, at its priority behind those waiting at it, and a list its item at the head |
| PoppedItems.RecordTellsTheJob | queue.go:484-517 | after any run a finish leaves nothing of the item pending; it keeps a record if and only if there is retention and the job is among the newest keep of its state or past the oldest 1000; the record tells of that item, that pop's time and this finish; the other state has no such job, and finishing again does nothing |
| FailureDetector.FreshIsSpared | queue.go:1037-1051 | a sweep less than 2.5 s after the owner's own last one does not take it for dead |
| FailureDetector.LiveOwnerNeverReaped | queue.go:1014-1065 | in every run an owner that sweeps in time, stalls not counted, with a timeout of at least 5 s, is never taken for dead, whatever its subscription and the others do |
| Possession.PoppedIsHeld | queue.go:819-826 | in every run an item popped with a timeout stays pending under its ID, with its item, in every state before its deadline, while its process sweeps in time and no call finishes it, closes the process, purges or requeues everything |
| Heartbeats.ReapedExactly | queue.go:1037-1051 | a sweep takes an owner for dead if and only if there was a clock and its heartbeat ran out, among the first 100, or, the clock moving and the owner among the first 1000 live, it was seen subscribed once and not for 2.5 s |
| Heartbeats.SweepLeaves | queue.go:1014-1061 | the heartbeats, marks and clock a sweep leaves, in numbers: the sweeper's own renewed by its timeout from now, the others' moved by a stall above 2 s, marks set at 0 or now |
| Heartbeats.LapsedExactly | queue.go:1064-1065 | a sweep reports its heartbeat lapsed if and only if it was missing or ran out before now, a stall not counted |
| Heartbeats.ScoreStep | queue.go:853-857 | only a pop that hands out items adds a heartbeat, and only Close, a sweep with no timeout and being taken for dead drop one |
| Heartbeats.ScoreIsLastBeat | queue.go:1025-1034 | after an owner's last sweep or pop at u with timeout hb, its heartbeat runs out at u + hb, moved only by stalls |
| Heartbeats.DeadByLastBeat | queue.go:1037-1062 | in every run, an owner whose last call beats at u with timeout hb has no heartbeat and nothing pending by u + hb + gap, when sweeps come at gaps of at most gap |
| StallGuard.StallJudgesByTheClock | queue.go:994-997 | after a stall, whoever sweeps, only owners are reaped that had expired, or were 2.5 s gone, when the clock last moved |
| StallGuard.StallLengthIsIrrelevant | queue.go:994-997 | stalls of any two lengths reap the same owners |
| DeadOwner.ExpiryBound | queue.go:1039 | a silent owner is dropped by its heartbeat score plus one sweep gap |
| DeadOwner.PresenceBound | queue.go:1093-1100 | one seen subscribed, silent and unsubscribed from u, is dropped before u + 2.5 s + 2 (gap + 0.5 s) |
| DeadOwner.RankBound | queue.go:1039 | a silent owner still there after n late sweeps had at least 100 n owners in front of it, whatever heartbeat timeouts the others have |
| DeadOwner.SweepsNeeded | queue.go:1039 | with k in front, floor(k/100) + 1 sweeps after it expired drop it |
| DeadOwner.DeadOwnersItemsReturn | queue.go:985-1010 | by those bounds none of the owner's items is pending any more; only the owner's own calls need a heartbeat timeout |
| Orphans.SweptNacked | queue.go:1036-1057 | a sweep takes exactly the overdue items and the dead owners' |
| Orphans.ReleasedNacked | queue.go:1069-1075 | a release takes exactly the owner's items |
| Orphans.WatchedForRun | queue.go:846-852 | whatever the others' timeouts, an owner whose own calls carry a positive one has a heartbeat while an item is pending for it |
| Orphans.NoOrphans | queue.go:846-852 | with positive timeouts, in every reachable state: each pending owner has a heartbeat, each mark a heartbeat and a time up to the clock, and the pending keys agree |
| JobRecords.TrimDropsPrefix | queue.go:450-454 | a trim drops exactly the oldest min(excess, 1000) |
| JobRecords.NotInExcess | queue.go:422-431 | what is not in excess is exactly the newest keep that are young enough |
| JobRecords.TrimsReach | queue.go:450-454 | k trims drop the oldest min(excess, 1000 k), so ceil(excess/1000) leave none in excess |
| JobRecords.RecordsInStep | queue.go:501-516 | in every run no job is in both states and every record is indexed; with positive retention every indexed job has its record |
| JobRecords.RecordKept | queue.go:498-516 | a finish keeps its job's record if and only if there is retention and, with the job filed at this time, it is among the newest keep or past the oldest 1000 |
| JobRecords.NewestIsKept | queue.go:422-431 | so the last job to finish keeps its record |
| RecordlessRun.RecordlessRun | queue.go:513-516 | a run from an empty queue after which more than 1000 jobs are indexed with their records, and after the last one's envelope id is finished again with no retention it is indexed without one |
| JobRecords.RecordlessJob | queue.go:513-516 | with no retention a finish leaves a job indexed without a record exactly when it stands past the oldest 1000 |
| JobRecords.TrimsByOwnRetention | queue.go:522-525 | a trim of both states leaves of each exactly the newest of its own keep that its own age allows, and what is past the oldest 1000; the records of what it drops go |
| JobRecords.BoundedRun | queue.go:422-431 | under one retention a state never holds more than keep |
| Attempts.AttemptsAreHandouts | queue.go:491-497 | for unique envelope ids the attempts recorded at finish are the fresh hand-outs, through every requeue path and re-send |
| Dedup.StoresUnlessTaken | queue.go:285-290 | after any run, purges included, an EnqueueOnce adds its item and counts it if and only if no stored push of its id has its window reach to now; otherwise it changes nothing |
| Dedup.StoredPushesApart | queue.go:285-290 | so two stored pushes of one id are more than the first one's window apart, re-sends included |
| PauseFlag.FlagIsLastWord | pause.go:28-40 | over any run the flag is set if and only if a Pause came after the last Resume, to the millisecond of the first such Pause |
| PauseFlag.PausedPopsNothing | pause.go:18-24 | so between Pause and Resume a pop under new IDs changes nothing and gets nothing |
| PauseFlag.ResumedPopTakes | pause.go:33-40 | and with no Pause since the last Resume it takes min(want, length) first items |
| Wakes.WakeReaches | notification.go:50-65 | a wake reaches exactly min(count, subscribed idle members), whatever SPOP draws, and empties the set if it falls short |
| Wakes.LeavesIdleOnlyWoken | notification.go:14-21 | a consumer leaves the idle set only drawn, and then reached if subscribed, by its own nudge that saw items, or by leave |
| Wakes.EmptyLookJoins | notification.go:43-48 | a Len or ack pop that finds the queue empty leaves the consumer idle from that step |
| Wakes.ShortLookJoins | queue.go:565-568 | a Len or ack pop makes its consumer idle if and only if it is not refused, leaves the queue empty and gets fewer items than it has room for |
| Wakes.IdleExactly | notification.go:67-78 | who is idle after any call; a nudge puts its consumer back only with the queue empty and the consumer idle, and takes it out with items waiting |
| Wakes.NoLostWake | distributed.go:5-12 | after an enqueue, a wake or a resume, a subscribed consumer left idle means as many were reached as asked for |
| Wakes.StaysReachable | notification.go:14-21 | over any run without such a step an idle consumer stays idle |
| Reservations.HeldOnce | queue.go:789-807 | under any interleaving a reservation is in the slot or with one call, and is sent only with room for it |
| Reservations.NoIdTwice | queue.go:718-723 | no ack ID is ever returned to two callers |
| Reservations.SentSizeFixed | queue.go:789-796 | two sends under one number are for the same IDs, however far apart |
| Reservations.NoNumberForgotten | queue.go:797-807 | under any interleaving every number drawn is kept, with a call or returned, or was dropped because another was kept |
| Reservations.RanInDrawOrder | queue.go:552-555 | under any interleaving, of two pops in the order Redis ran them, late copies included, the earlier one's IDs sort first if and only if the later one's number was not drawn yet when its own was |
| Reservations.RanInOrder | queue.go:797-807 | and without late copies, if and only if the later one's reservation was then neither in the slot nor with another call |
| Reservations.InFlightOutOfOrder | queue.go:797-807 | two calls with no failure run the other way round: with nothing ever kept, the later pop's IDs sort first |
| PauseHooks.AtRestAllTold | pause.go:136-188 | at rest the hooks were told the cached flag and no hint waits: the one-slot kick loses no change |
| PauseHooks.CallsAlternate | pause.go:105-108 | hook calls strictly alternate from true, and the last is the cached state at rest |
| CachedPause.FlagIsLastWritten | pause.go:136-175 | under any interleaving the cached flag is the state given to the thread that last swapped it, or the key as the loop last read it, whichever was written last |
| CachedPause.StaleReplySetsNothing | pause.go:125-134 | a pop's or sweep's reply goes on to set the flag if and only if no Pause, Resume or control message came between its call and its check; otherwise it sets nothing |
| CachedPause.OwnCallStands | pause.go:63-82 | after a process's own Pause or Resume, with none that says otherwise, the cached flag stays that call's state whatever replies come late, and at rest the hooks were last told it |
| CachedPause.HintIsHeeded | pause.go:164-169 | after a "paused:" message, with no failed read and nothing that says otherwise, the flag ends as the key is and the hooks were told it |

## Left out

- Raw Dequeue and Remove, which drop items by design, and the queue key's expiry.
- PrepareForFutureAck, which overwrites an ID that is already pending.
- Queue listing, paging, events, instances and namespaces (`inspect.go`, `event.go`, `instances.go`, `queues.go`).
- JSON text: a Job Record is its fields, and how an item that is not JSON is written is not part of this model.
- Lua doubles: numbers are exact, sequence numbers stay below 2^53 and reservation numbers below 2^64. Sorted set members without a sequence prefix, as older versions stored them, appear only in `ItemOf`.
- The Redis client: connections, re-send timing, pub/sub delivery, logging, tickers and goroutine start. When a call runs, and which channels have a subscriber, is free in every run.
- Close as three steps (leave, release, stop): each is a call of its own in a run.
- The Notification object's own idle and consumer flags, which decide only when it calls nudge and markIdle.
- Shared objects for what goroutines interleave: `Reservations` and `PauseHooks` take one atomic operation at a time on values. `Batches.QueueObject` is the reservation and sizing code as methods, for one caller.
- The start of pauseLoop on the first kick (it runs from the start), and the set of hooks (a call of them is one entry in a list).
- PauseRefusals, a count of the pops that a pause refused.
- The setters of timeouts and retention: each call carries the values it read.
- The race that `pause.go:128-129` admits: a stale reply can still set the cached pause flag, until the next pop or sweep.
