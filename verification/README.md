# Timer service, sensor HAL and deferred camera work: a verified model

This project models the parts of the repository whose correctness depends on ordering, sharing and
interleaving, and proves what they promise. `dafny verify dfyconfig.toml` checks all of it.

## What is modelled

**The GPS timer service** (`gps/utils`), bottom up.

- `TimeSpec.dfy`: absolute times, the 32-bit comparison of two timers, the computation of an expiry.
- `HeapModel.dfy`, `HeapRuns.dfy`: the heap as a value, its operations and whole sequences of them;
  `LocHeap.dfy`: the same heap in memory, nodes that swap their data in place, proved to compute
  those values.
- `TimerContainer.dfy`: a heap with the kernel timer and the poll registration that follow its head.
- `TimerProtocol.dfy`: the service as a state machine. Clients start and stop timers under their
  lock, the message task processes one message at a time, and the poll thread disarms, removes its
  poll and sends, each step interleaved with all others. Objects are named by numbers; using or
  freeing a dead one sets a `fault` flag that nothing else relies on.
- `TimerSafety.dfy`, `TimerArming.dfy`, `TimerHistory.dfy`: three parts of one inductive invariant;
  `TimerTheorems.dfy`: what it promises of every reachable state; `TimerLog.dfy`: what it promises
  of whole runs, against a log of the starts, stops and callbacks that clients see;
  `TimerMessages.dfy`: a message processed without interruption is one operation on the container,
  and so is an expiry raised by the poll thread; `TimerExamples.dfy`: two runs in which a callback
  comes before its time.
- `LinkedList.dfy`, `MsgQueue.dfy`: the list and the blocking queue that the messages go through.
- `ThreadDelegate.dfy`: the object a thread shares with its parent, one step per access.

**The sensor HAL** (`sensors`).

- `SensorEventQueue.dfy`: the ring whose region is written outside the lock while a reader dequeues.
- `HandleMap.dfy`, `RoundRobin.dfy`, `Multihal.dfy`: handle remapping and the scan of `poll`, proved
  against a plan stated on the queues as they were before; `HalWakeups.dfy`: its two condition
  variables, with any number of sub-modules and polling threads.
- `SensorSubscriptions.dfy`, `NativeSensorManager.dfy`: who listens to whom, and what the drivers of
  the base sensors are told.
- `InputEventReader.dfy`: the ring that over-reads into a second half and copies back.

**The camera's deferred work** (`camera/QCamera2/HAL/QCamera2HWI.cpp`): `DeferredWork.dfy`, 25 job
slots, a worker and waiters.

## Where the code does not do what is written about it

The model follows the code in each case.

- `LocHeap.h:84` says that `remove` looks for a node that ranks the same; the code looks for the
  same object. `RemoveIsComplete` is about the object.
- `LocTimer.cpp:337-338` says that the kernel timer is updated if the removed timer is not the
  prior top; the code updates it if it is. An emptied heap is not disarmed (`UpdatesNeverDisarm`),
  so a stale wake-up can expire a new timer, and call back for it, early (`TimerPoppedEarly`,
  `CallbackTooEarly`).
- `LocTimer.cpp:521-531` keeps a copy of the client pointer "to be safe" and then stops whatever
  timer that client has: not always the one that was popped (`CallbackForAnotherTimer`,
  `CallbackIsForPoppedTimer`).
- `LocThread.h` promises that the runnable is deleted if `start()` returns true and not otherwise;
  neither direction holds in every interleaving (`StartMayFailAndDelete`, `StartMayLeak`,
  `RunnableDeletedIffEntered`). `HeaderPromiseIff` says exactly when it does; a caller who does not
  stop a started thread is safe from the leak (`NoLeakWithoutStop`).
- The comment in `syncDelay` treats a zero delay as "not set", but the first listener's zero is
  used as the starting minimum (`SyncedDelayIsMinimumIff`).
- The comment in `activate` says that one-shot sensors do not act as base sensors; a virtual sensor
  may still depend on one, and then turns its driver on and off whatever its own `enable` says
  (`OneShotIsSwitchedForListener`; `OnIffEnabledIff` says exactly when power and `enable` agree).
- `copy_event_remap_handle` marks a meta-data event of an unknown sensor in its payload, where
  `poll`'s drop test does not look (`DroppedExactly`).
- The worker signals a single waiter after an allocation although several threads may wait for
  different jobs (`StepKeepsWakeupsIff`, `TwoWaitersMayLoseOne`).

## Model

| member | source | states |
|---|---|---|
| TimeSpecs.RanksIsTimeOrder | gps/utils/LocTimer.cpp:503-517 | comparing two timers agrees with the order of their total nanoseconds if and only if their seconds differ by a 32-bit signed number |
| TimeSpecs.RanksWrapsAround | gps/utils/LocTimer.cpp:503-517 | two concrete times 2^31 seconds apart that are ranked the wrong way round |
| TimeSpecs.FutureTimeAddsTimeout | gps/utils/LocTimer.cpp:551-558 | a start yields exactly now plus the timeout, normalised below 10^9 ns; the nanosecond sum never overflows 32 bits |
| TimeSpecs.FutureTimeInWindow | gps/utils/LocTimer.cpp:551-558 | an expiry is a time that timers can be compared by if and only if it lies less than 2^31 seconds after boot |
| HeapModel.TopIsHighest | gps/utils/LocHeap.h:54-58 | nothing in an ordered tree outranks its top |
| HeapModel.InsertOrdered | gps/utils/LocHeap.cpp:107-124 | insertion keeps vertical order, and the top becomes the new element exactly when that outranks it |
| HeapModel.InsertSizes | gps/utils/LocHeap.cpp:107-124 | insertion keeps the recorded size exact at every node |
| HeapModel.PushIsHeap | gps/utils/LocHeap.cpp:107-124 | a push keeps order and sizes, adds exactly the one element, and says which element is on top afterwards |
| HeapModel.PopIsHeap | gps/utils/LocHeap.cpp:134-164 | a pop keeps order and sizes, takes away exactly the top, and what comes up does not outrank it |
| HeapModel.RemoveFinds | gps/utils/LocHeap.cpp:170-193 | skipping every subtree whose top the object outranks never misses it: found if and only if present |
| HeapModel.RemoveIsComplete | gps/utils/LocHeap.cpp:170-193 | found if and only if present; a found object loses one occurrence and nothing else, an absent one leaves the identical tree; the top changes only if it is the object |
| HeapModel.CheckNodesIsExact | gps/utils/LocHeap.cpp:197-220 | the consistency check succeeds if and only if order and every recorded size are right |
| HeapRuns.ApplyIsQueueStep | gps/utils/LocHeap.cpp:228-267 | one public operation answers as a priority queue over the bag of contents would |
| HeapRuns.HeapRefinesPriorityQueue | gps/utils/LocHeap.cpp:228-267 | any sequence of push, pop and remove keeps the heap and gives the answers of some priority queue |
| HeapRuns.DrainDueIsExact | gps/utils/LocTimer.cpp:383-390 | popping while the top is not outranked by the limit takes out exactly the due elements, in order |
| HeapRuns.DrainIsExact | gps/utils/LocTimer.cpp:360-375 | with the unconditional first pop: elements leave in order, all but the first are due, nothing due is left, and the first is due if and only if the head was |
| HeapRuns.PushAllBalanced | gps/utils/LocHeap.cpp:113-123 | pushes alone keep every left subtree equal to or one larger than the right one |
| HeapRuns.BalancedHeight | gps/utils/LocHeap.h:54-58 | such a balance fixes the height to the number of binary digits of the node count |
| HeapRuns.PushesKeepBalance | gps/utils/LocHeap.h:54-58 | after n pushes the tree holds n nodes, is balanced at every node and its height h satisfies 2^(h-1) <= n < 2^h |
| LocHeaps.LocHeapNode.SwapIfHigher | gps/utils/LocHeap.cpp:87-92 | the higher of two data stays here, the lower one goes to the new node |
| LocHeaps.LocHeapNode.Push | gps/utils/LocHeap.cpp:107-124 | in place, the subtree becomes the model's insertion of the new node's data, with no node but the new one added |
| LocHeaps.LocHeapNode.CheckNodes | gps/utils/LocHeap.cpp:197-220 | true if and only if the subtree in memory is ordered and its sizes are right |
| LocHeaps.LocHeapNode.PushBelow | gps/utils/LocHeap.cpp:113-123 | in place, the lower datum goes to the missing or smaller subtree, which becomes the model's insertion |
| LocHeaps.PopNode | gps/utils/LocHeap.cpp:134-164 | the popped node holds the old top's data, has no children, and is the one node that leaves the tree; the rest is the model's pop |
| LocHeaps.SwapAndPop | gps/utils/LocHeap.cpp:148-154 | after the swap the child's data is on top and the child's subtree is popped; one node, a leaf, leaves |
| LocHeaps.RemoveNode | gps/utils/LocHeap.cpp:170-193 | the removed node holds the very object, has no children, and is the one node that leaves the tree; the rest is the model's removal |
| LocHeaps.RemoveLeft | gps/utils/LocHeap.cpp:176-180 | the left subtree is searched and its link updated; the other side is untouched |
| LocHeaps.RemoveRight | gps/utils/LocHeap.cpp:182-186 | so is the right one |
| LocHeaps.RemoveBelow | gps/utils/LocHeap.cpp:176-190 | the right subtree is searched only when the left one does not have the object; the size drops only on success |
| LocHeaps.LocHeap.Push | gps/utils/LocHeap.cpp:228-235 | the heap becomes the model's push |
| LocHeaps.LocHeap.Peek | gps/utils/LocHeap.cpp:237-243 | the top, if there is one |
| LocHeaps.LocHeap.Pop | gps/utils/LocHeap.cpp:245-254 | answer and heap are those of the model's pop |
| LocHeaps.LocHeap.Remove | gps/utils/LocHeap.cpp:256-267 | answer and heap are those of the model's removal |
| LocHeaps.LocHeap.CheckTree | gps/utils/LocHeap.cpp:270-272 | true if and only if the whole heap is ordered with exact sizes |
| TimerContainers.OutRanksIsStrictWeak | gps/utils/LocTimer.cpp:503-517 | ranking timers is the strict weak order the heap's proofs need, and is earlier-first |
| TimerContainers.UpdatesNeverDisarm | gps/utils/LocTimer.cpp:285-305 | none of the three messages disarms the kernel timer, even when the heap runs empty; a push arms exactly for a new head |
| TimerContainers.UpdatedInStepIff | gps/utils/LocTimer.cpp:281-306 | from a kernel timer armed for the old head, an update brings it into step with the new head if and only if that is not due later; an emptied heap is disarmed and its poll removed |
| TimerContainers.PushKeepsInStep | gps/utils/LocTimer.cpp:317-321 | a push keeps a non-empty heap polled and armed for exactly its head |
| TimerContainers.RemoveKeepsInStep | gps/utils/LocTimer.cpp:334-346 | so does a removal, whether or not the head was removed |
| TimerContainers.MessagesKeepInStep | gps/utils/LocTimer.cpp:310-375 | an expire message restores it whatever it was before |
| TimerContainers.LocTimerContainer.UpdateSoonestTime | gps/utils/LocTimer.cpp:281-306 | the container's new state, with poll registration and kernel timer, is that of the model's update |
| TimerContainers.LocTimerContainer.ProcPush | gps/utils/LocTimer.cpp:317-321 | processing a push message is the model's push |
| TimerContainers.LocTimerContainer.ProcRemove | gps/utils/LocTimer.cpp:334-346 | processing a remove message looks at the kernel timer only when the old head was returned |
| TimerContainers.LocTimerContainer.PopIfOutRanks | gps/utils/LocTimer.cpp:383-390 | pops exactly when the head is not outranked by the limit, and touches nothing else otherwise |
| TimerContainers.LocTimerContainer.ProcExpire | gps/utils/LocTimer.cpp:360-374 | the loop pops exactly the drain of the heap and then updates the kernel timer |
| TimerSafety.StepSound | gps/utils/LocTimer.cpp:281-580 | every action of client, message task and poll thread keeps the object, lock, mailbox and heap invariants, faults included |
| TimerSafety.StartSound | gps/utils/LocTimer.cpp:475-482 | a start keeps the state sound: client and new delegate point at each other, share the lock, and the push comes before anything else about the delegate |
| TimerSafety.StopTimerSound | gps/utils/LocTimer.cpp:485-501 | a stop keeps the state sound: a delegate that is detached has exactly one removal under way |
| TimerSafety.ReceiveRemoveSound | gps/utils/LocTimer.cpp:334-346 | processing a removal keeps the state sound: the delegate waiting to be freed is in no heap and no message |
| TimerSafety.DeleteSound | gps/utils/LocTimer.cpp:344-345 | freeing a delegate keeps the state sound: the lock it drops is there, and its count stays exact |
| TimerSafety.ReleaseSound | gps/utils/LocTimer.cpp:539-545 | the end of a client keeps the state sound: the lock goes with its last sharer, not before |
| TimerArming.StepArmed | gps/utils/LocTimer.cpp:281-381 | every action keeps each container watched: in step, or its expiry raised, or being worked on |
| TimerArming.PollStepRaised | gps/utils/LocTimer.cpp:377-381 | the poll thread's three separate actions never lose an expiry it has taken on |
| TimerArming.SetTimeArmed | gps/utils/LocTimer.cpp:296-304 | arming the kernel timer keeps every container watched, also when another expiry came between registration and arming |
| TimerHistory.StepTracked | gps/utils/LocTimer.cpp:281-580 | every action keeps each pending timer on its way to the heap, in it, or just popped |
| TimerHistory.StepFates | gps/utils/LocTimer.cpp:520-580 | every action keeps each started timer pending, stopped or called back, exactly one of them |
| TimerHistory.StepDraining | gps/utils/LocTimer.cpp:360-374 | every action keeps an expiry in progress a prefix of the drain of the heap it began with |
| TimerTheorems.StepInv | gps/utils/LocTimer.cpp:281-580 | all of these invariants together are inductive over every action |
| TimerTheorems.NoUseAfterFree | gps/utils/LocTimer.cpp:327-350 | in every reachable state no client, lock or delegate has been used after it was freed or freed twice |
| TimerTheorems.ReleaseFaultsIff | gps/utils/LocTimer.cpp:520-532 | the assumption that makes is exact: after a client is destroyed, the message task's next step uses freed memory if and only if the task is calling that client, or has read the pointer to do so |
| TimerTheorems.NothingLeaks | gps/utils/LocTimer.cpp:327-350 | with no message under way, every delegate left is its live client's pending timer and is in its container's heap |
| TimerTheorems.DelegateLifetime | gps/utils/LocTimer.cpp:327-350 | a delegate is detached exactly while its removal is under way, its push precedes its removal in the queue, and when it is freed no heap and no message names it |
| TimerTheorems.LockCountsSharers | gps/utils/LocSharedLock.h:48-52 | the shared lock's count is its live client (0 or 1) plus that client's live delegates, and it is gone exactly when that is 0 |
| TimerTheorems.HeadIsWatched | gps/utils/LocTimer.cpp:281-381 | a non-empty heap is polled and armed for exactly its head's time, or an expiry is raised or in progress |
| TimerTheorems.NoTimerForgotten | gps/utils/LocTimer.cpp:281-381 | every pending timer is about to enter its heap, has just been popped, or is in a heap whose watched head is due no later |
| TimerTheorems.DueTimerCanExpire | gps/utils/LocTimer.cpp:440-460 | once a timer in a heap is due, an expiry of its container is raised or in progress, or the kernel timer makes the poll thread raise one as soon as it waits |
| TimerTheorems.HeadIsEarliest | gps/utils/LocHeap.h:54-58 | no timer in a container is due before its head |
| TimerTheorems.StartsAreConserved | gps/utils/LocTimer.cpp:547-580 | a client's successful starts equal its stops plus its callbacks plus one if a timer is pending; no start is both stopped and called back |
| TimerTheorems.CallbackIsForPoppedTimer | gps/utils/LocTimer.cpp:520-532 | the callback is for the popped timer if and only if its client has not stopped it since the client pointer was read |
| TimerTheorems.ExpiryTakesDueTimers | gps/utils/LocTimer.cpp:360-374 | an expiry pops in non-decreasing time, all but the first are due, nothing due is left, and only due timers are popped if and only if the head it found was due |
| TimerLog.StartDoesAsAsked | gps/utils/LocTimer.cpp:547-566 | a start of a client with no timer makes one of the kind asked for, due exactly the timeout after the clock, attached to client and container, and queues its push last; a start of a client with one changes nothing |
| TimerLog.StopsClientIffPending | gps/utils/LocTimer.cpp:520-526 | the message task goes on to stop the client of a popped timer if and only if that timer is the one its client still waits for |
| TimerLog.CalledBackIffPending | gps/utils/LocTimer.cpp:520-532 | after its stop() the message task calls the client back if and only if the client had a timer; that one, and no other, is then the timer it was called for, and the client has none |
| TimerLog.StartsStopsAndCallbacks | gps/utils/LocTimer.cpp:520-580 | over every run: the starts of a client that succeeded are its stops that won, plus the callbacks it was given, plus one if it has a timer, plus one if a callback is about to be made; counted from a log of what clients see |
| TimerLog.TimersAreAsAsked | gps/utils/LocTimer.cpp:547-566 | over every run: each delegate left, and each timer in a heap, has the kind its start asked for and is due exactly that start's clock plus its timeout |
| TimerLog.StepWorld | gps/utils/LocTimer.cpp:281-580 | nothing but its own action moves the clock, makes a client or destroys one |
| TimerLog.ClockIs | gps/utils/LocTimer.cpp:364-364 | the clock an expiry reads is the last time the clock was moved to |
| TimerLog.ClientsAre | gps/utils/LocTimer.cpp:536-545 | over every run, the clients there are, are those created and not destroyed |
| TimerExamples.CallbackForAnotherTimer | gps/utils/LocTimer.cpp:520-532 | a run in which a client stops a timer and starts a later one while the message task holds the client pointer: the later timer is the one called back |
| TimerExamples.TimerPoppedEarly | gps/utils/LocTimer.cpp:339-343 | a run in which the kernel timer left armed for a removed timer makes a new timer leave the heap a minute early |
| TimerExamples.CallbackTooEarly | gps/utils/LocTimer.cpp:520-532 | the same run, up to the callback a minute before its time |
| TimerMessages.PushIsWhole | gps/utils/LocTimer.cpp:317-321 | receiving a push, polling and arming, uninterrupted, make of the container what its own push does |
| TimerMessages.RemoveIsWhole | gps/utils/LocTimer.cpp:334-346 | receiving a removal up to the delete of the timer, uninterrupted, make of it what its own removal does, and the timer is gone |
| TimerMessages.ExpireIsWhole | gps/utils/LocTimer.cpp:360-374 | the loop of an expiry, with every call of expire() in it, ends and makes of it what its own expiry does |
| TimerMessages.MessageIsWhole | gps/utils/LocTimer.cpp:317-375 | from any sound state the message task finishes its oldest message in finitely many steps, and without interruption they are the one operation of the container; the other container is untouched |
| TimerMessages.PollStepDoes | gps/utils/LocTimer.cpp:377-381 | one action of the poll thread disarms the kernel timer, or removes the poll, or sends the expiry, of the container it is at, whichever of the two; the other container is untouched |
| TimerMessages.RaiseIsWhole | gps/utils/LocTimer.cpp:440-456 | woken for one container or both, the poll thread, uninterrupted, leaves each disarmed and without a poll and its expiry sent, in the order of the wake-up; nothing else changes |
| LinkedLists.LinkedList.constructor | gps/utils/linked_list.c:58-79 | a new list is well formed and empty |
| LinkedLists.LinkedList.Add | gps/utils/linked_list.c:110-155 | links stay those of an acyclic list without duplicates and the item is the new head; no data changes nothing |
| LinkedLists.LinkedList.Remove | gps/utils/linked_list.c:162-204 | takes and returns the oldest item, or reports an empty list |
| LinkedLists.LinkedList.IsEmpty | gps/utils/linked_list.c:211-223 | true if and only if nothing is held |
| LinkedLists.LinkedList.Flush | gps/utils/linked_list.c:230-260 | leaves the empty list, having called each item's deallocator once, newest first |
| LinkedLists.LinkedList.Search | gps/utils/linked_list.c:267-326 | finds the newest match; with removal takes out exactly that item, and deallocates it only if it was not copied out |
| LinkedLists.LinkedList.Unlink | gps/utils/linked_list.c:293-305 | taking an element out of any position keeps the list well formed and the others in order |
| LinkedLists.BypassedIsLinked | gps/utils/linked_list.c:293-305 | neighbours that skip an element are linked as the list without it |
| LinkedLists.FirstMatchIs | gps/utils/linked_list.c:288-322 | an item that matches and has no match before it is the one the search stops at |
| MsgQueues.MsgQueue.Snd | gps/utils/msg_q.c:185-221 | appends, unless the message is missing or the queue has been unblocked; wakes one receiver |
| MsgQueues.MsgQueue.TryRcv | gps/utils/msg_q.c:250-256 | waits while empty and not unblocked; else removes the oldest message or fails |
| MsgQueues.MsgQueue.RcvEnter | gps/utils/msg_q.c:228-269 | a receive on an unblocked queue fails even if messages are queued |
| MsgQueues.MsgQueue.RcvResume | gps/utils/msg_q.c:250-256 | a receiver woken by the unblock may still take a queued message |
| MsgQueues.MsgQueue.Flush | gps/utils/msg_q.c:276-299 | empties the queue and deallocates what was queued |
| MsgQueues.MsgQueue.Unblock | gps/utils/msg_q.c:306-336 | unblocks the queue and wakes every receiver; a second call fails and changes nothing |
| MsgQueues.ExplainsNext | gps/utils/msg_q.c:185-336 | each step by any thread lets messages leave only in the order they came, delivered once or flushed and deallocated once |
| MsgQueues.NextKeepsWakeups | gps/utils/msg_q.c:206-256 | each step keeps a woken receiver coming for every queued message while another sleeps |
| MsgQueues.EveryRunIsFifo | gps/utils/msg_q.c:185-336 | over every run by any number of threads: first in, first out; each message delivered or freed at most once; no lost wake-up |
| MsgQueues.FifoWithoutFlush | gps/utils/msg_q.c:185-269 | without a flush, accepted messages are the received ones followed by the queued ones |
| MsgQueues.NothingAcceptedAfterUnblock | gps/utils/msg_q.c:306-336 | over every run in which somebody unblocks: from then on no send is accepted and no receiver sleeps, whatever happens next |
| MsgQueues.UnblockWakesAll | gps/utils/msg_q.c:306-336 | an unblock leaves the queue unblocked with nobody asleep, every sleeper on its way to look again, and no message gone |
| MsgQueues.UnblockedIff | gps/utils/msg_q.c:306-336 | after any run a queue is unblocked if and only if somebody has unblocked it |
| MsgQueues.SendAcceptedIff | gps/utils/msg_q.c:185-221 | after any run a send is accepted, and wakes a sleeper if there is one, if and only if nobody has unblocked the queue; otherwise it changes nothing |
| MsgQueues.ReceiveTakesOldest | gps/utils/msg_q.c:228-269 | after any run a receive takes the oldest message, unless it enters after an unblock, and sleeps if and only if there is none and nobody has unblocked the queue |
| MsgQueues.FlushFreesQueued | gps/utils/msg_q.c:276-299 | a flush deallocates exactly the queued messages, once each, and wakes and stops nobody |
| MsgQueues.DeallocatedReversed | gps/utils/msg_q.c:276-299 | flushing newest first deallocates the same items as oldest first |
| SensorEventQueues.SensorEventQueue.constructor | sensors/SensorEventQueue.cpp:24-31 | a new queue of the given capacity is empty |
| SensorEventQueues.SensorEventQueue.GetWritableRegion | sensors/SensorEventQueue.cpp:39-59 | the region starts at the tail and is the largest that the request, the end of the array and the readable events allow: a length is admissible if and only if it is no more than the one returned |
| SensorEventQueues.SensorEventQueue.Write | sensors/multihal.cpp:157-159 | writing into that region without the lock leaves the readable events as they are |
| SensorEventQueues.SensorEventQueue.MarkAsWritten | sensors/SensorEventQueue.cpp:61-63 | appends exactly the first `count` slots of the region |
| SensorEventQueues.SensorEventQueue.GetSize | sensors/SensorEventQueue.cpp:65-67 | the number of readable events |
| SensorEventQueues.SensorEventQueue.Peek | sensors/SensorEventQueue.cpp:69-72 | the oldest event, if any |
| SensorEventQueues.SensorEventQueue.Dequeue | sensors/SensorEventQueue.cpp:74-81 | drops the oldest event, and wakes the writer exactly when the queue was full |
| SensorEventQueues.WrapIsModulo | sensors/SensorEventQueue.cpp:80-80 | stepping round the ring by remainder is stepping back by one capacity |
| SensorEventQueues.RegionIsDisjoint | sensors/SensorEventQueue.cpp:39-59 | no reserved slot is a readable one |
| SensorEventQueues.RegionIsLargest | sensors/SensorEventQueue.cpp:39-59 | a length can be had if and only if no slot of it is past the array or readable and it is no more than was asked for: the region is the largest such |
| SensorEventQueues.NextIsReadable | sensors/SensorEventQueue.cpp:39-59 | where a request is cut short, the next slot is past the array or holds the oldest readable event |
| SensorEventQueues.ReserveRefines | sensors/SensorEventQueue.cpp:39-59 | a reservation changes no event and is non-empty exactly when something was asked for and there is room |
| SensorEventQueues.WriteRefines | sensors/multihal.cpp:157-159 | a device write into the region changes no readable event |
| SensorEventQueues.CommitRefines | sensors/multihal.cpp:160-169 | a commit appends exactly the first `count` written events; a failed poll appends none |
| SensorEventQueues.DequeueRefines | sensors/SensorEventQueue.cpp:74-81 | a dequeue takes the oldest event and leaves the writer's region alone |
| SensorEventQueues.StepRefines | sensors/SensorEventQueue.cpp:39-81 | every interleaved step is one of a bounded first-in-first-out queue |
| SensorEventQueues.EveryRunIsBoundedFifo | sensors/multihal.cpp:142-179 | over every run, committed events are the dequeued ones followed by the readable ones, never more than the capacity, and the region stays at the tail across any number of dequeues |
| HandleMaps.GlobalOfIsLast | sensors/multihal.cpp:123-133 | a full handle maps to the last global handle it was given, or to -1 if it has none |
| HandleMaps.RoundTrip | sensors/multihal.cpp:91-133 | global to full to global is the identity if and only if that full handle was not registered again |
| HandleMaps.DroppedExactly | sensors/multihal.cpp:315-335 | an ordinary event is dropped if and only if its sensor is unregistered; a meta-data event that names an unregistered sensor is passed on, naming -1 |
| HandleMaps.RemapRenames | sensors/multihal.cpp:315-335 | an event passed on names its sensor by the last global handle registered for it, in its own field or, for meta-data, in the payload only; every other field is as sent |
| HandleMaps.HandleMap.constructor | sensors/multihal.cpp:87-89 | no handle is known at first |
| HandleMaps.HandleMap.AssignGlobalHandle | sensors/multihal.cpp:91-99 | hands out consecutive handles from 1 and keeps both maps in agreement |
| HandleMaps.HandleMap.GetLocalHandle | sensors/multihal.cpp:102-108 | the local handle, or -1 for an unknown one |
| HandleMaps.HandleMap.GetModuleIndex | sensors/multihal.cpp:112-121 | the module, or -1 for an unknown handle |
| HandleMaps.HandleMap.GetGlobalHandle | sensors/multihal.cpp:124-133 | the last global handle given to a full handle |
| HandleMaps.HandleMap.CopyEventRemapHandle | sensors/multihal.cpp:315-335 | copies the event with the handle it names made global, in the payload for meta-data: the last one registered for that module's sensor, everything else unchanged |
| RoundRobin.TurnIsModulo | sensors/multihal.cpp:362-362 | the turns of the scan are consecutive remainders |
| RoundRobin.VisitsWindow | sensors/multihal.cpp:345-362 | in any window of as many visits as queues each queue comes up exactly once |
| RoundRobin.VisitsAreFair | sensors/multihal.cpp:345-362 | no queue is ever visited more than once more often than another |
| RoundRobin.TurnComes | sensors/multihal.cpp:345-362 | every queue's turn comes within as many visits as there are queues |
| RoundRobin.OutputPerModule | sensors/multihal.cpp:349-361 | each module's part of the output is what was dequeued of it, in order, remapped and filtered |
| RoundRobin.ModuleConserved | sensors/multihal.cpp:349-361 | each module's queue is what was dequeued followed by what is left |
| RoundRobin.OutputIsRenamed | sensors/multihal.cpp:337-363 | of each module the output has exactly the meta-data events and the events of registered sensors among those it lost, in order, each named by its sensor's last global handle and otherwise as sent |
| RoundRobin.OutputNamesModules | sensors/multihal.cpp:337-363 | the output has nothing else |
| RoundRobin.ServiceIsFair | sensors/multihal.cpp:345-362 | unless a queue ran dry, no other is served more than once more often; after a full round no non-empty queue is untouched |
| Multihal.PollContext.AddSubHwDevice | sensors/multihal.cpp:220-227 | adds the device, one empty queue and one writer thread for the two, and leaves the others |
| Multihal.PollContext.Visit | sensors/multihal.cpp:346-362 | one visit takes the oldest event of the queue whose turn it is, passes it on remapped or drops it, and advances |
| Multihal.PollContext.ScanLoop | sensors/multihal.cpp:345-363 | the loop terminates, follows the round-robin plan, and stops short of `maxReads` events only with all queues empty |
| Multihal.PollContext.Scan | sensors/multihal.cpp:343-363 | so does the scan, with any number of queues, none included |
| Multihal.PollContext.PollRound | sensors/multihal.cpp:344-373 | a round sleeps exactly when it has no event, and then all queues are empty and the waiting flag is up |
| Multihal.ScanStep | sensors/multihal.cpp:345-363 | each visit keeps the plan and either shortens the backlog or counts one more empty queue |
| Multihal.FollowsStep | sensors/multihal.cpp:346-362 | one visit takes the round-robin plan one visit further, whatever it finds |
| Multihal.AllEmpty | sensors/multihal.cpp:345-350 | as many empty visits in a row as there are queues mean that all are empty |
| HalWakeups.StepKeepsWakeups | sensors/multihal.cpp:150-175 | each step of any writer or poller keeps sleepers' reasons true |
| HalWakeups.NobodySleepsInVain | sensors/multihal.cpp:337-377 | in every reachable state a sleeping writer's queue is full, a sleeping poller has nothing to read and the flag that wakes it is up, and the two are never asleep together; for any number of pollers |
| HalWakeups.WhoGoesToSleep | sensors/multihal.cpp:150-175 | a writer goes to sleep only on a full queue and a poller only with nothing to return; otherwise the writer fills the room it was given and the poller returns |
| HalWakeups.WhoWakesUp | sensors/multihal.cpp:160-175 | spurious wake-ups apart, a sleeping writer is woken if and only if something is taken of its queue, and sleeping pollers if and only if something is committed to any |
| HalWakeups.FlagMeansWaiting | sensors/multihal.cpp:364-373 | over every run, the waiting flag is up only while some poller is in its wait; with one poller, if and only if it is |
| HalWakeups.EventsAreConserved | sensors/multihal.cpp:142-179 | over every run, what each sub-module's writer committed is what pollers took of its queue plus what is left |
| HalWakeups.SomebodyCanMove | sensors/multihal.cpp:142-179 | in every reachable state with a writer and a poller, one of the threads can go on: no deadlock |
| HalWakeups.ScanIsRound | sensors/multihal.cpp:344-373 | every scan that meets its contract is a round of this wake-up protocol |
| InputEventReaders.SlotAfterFill | sensors/InputEventReader.cpp:50-73 | after the read and the copy-back each ring slot holds the event that belongs there |
| InputEventReaders.OverlayKeepsUnread | sensors/InputEventReader.cpp:54-58 | a read, even a partial one, that runs past the ring's end overwrites no unread event |
| InputEventReaders.FillAppends | sensors/InputEventReader.cpp:60-70 | what was read follows the unread events, and the head is in place again, also from the end of the ring |
| InputEventReaders.InputEventCircularReader.constructor | sensors/InputEventReader.cpp:36-43 | a new reader is empty with room for n events |
| InputEventReaders.InputEventCircularReader.Fill | sensors/InputEventReader.cpp:50-73 | appends exactly the whole events read and returns their number; an error or a partial event appends none; never more than n are held and no access leaves the 2n slots |
| InputEventReaders.InputEventCircularReader.CopyBack | sensors/InputEventReader.cpp:65-69 | copies the overrun to the beginning and nothing else |
| InputEventReaders.InputEventCircularReader.ReadEvent | sensors/InputEventReader.cpp:75-80 | points at the oldest event and says whether there is one |
| InputEventReaders.InputEventCircularReader.Next | sensors/InputEventReader.cpp:82-89 | drops the oldest event; the reader stays well formed exactly when there was one |
| ThreadDelegates.StepKeepsSound | gps/utils/LocThread.cpp:65-200 | each access to the shared delegate by either thread keeps count, runnable and start result tracked, without a use after free |
| ThreadDelegates.ParentKeepsCount | gps/utils/LocThread.cpp:128-171 | the parent's steps keep the count equal to the holders |
| ThreadDelegates.ChildKeepsCount | gps/utils/LocThread.cpp:173-200 | the spawned thread's steps do too |
| ThreadDelegates.DeletedExactlyOnce | gps/utils/LocThread.cpp:151-171 | in every interleaving, joinable or detached, creation failure included: deleted at most once, after every holder's release, never used again, and deleted once both are finished |
| ThreadDelegates.NeverStuck | gps/utils/LocThread.cpp:128-147 | until both are finished one of the two threads can move |
| ThreadDelegates.JoinableHasEnded | gps/utils/LocThread.cpp:128-147 | in every interleaving a joinable thread that started has been stopped and has ended before the parent gives back its reference, by stop() or by the destructor |
| ThreadDelegates.CallsInOrder | gps/utils/LocThread.cpp:178-190 | as long as nobody stops the thread, in every interleaving it calls prerun() once, then run() again and again while that returns true, then postrun() once |
| ThreadDelegates.NoCallAfterStop | gps/utils/LocThread.cpp:128-200 | a stopped thread begins no call of the runnable: at most the one it is in returns |
| ThreadDelegates.RunIsRepeated | gps/utils/LocThread.cpp:184-184 | the loop calls run() unless the thread was stopped, and comes back to it if and only if run() returned true |
| ThreadDelegates.RunnableDeletedIffEntered | gps/utils/LocThread.cpp:173-200 | the runnable is deleted exactly when the spawned thread found it |
| ThreadDelegates.HeaderPromiseIff | gps/utils/LocThread.cpp:98-200 | the runnable is deleted exactly when start() succeeds, as the header promises, if and only if the thread of a successful start found it, or a failed start had no thread |
| ThreadDelegates.NoLeakWithoutStop | gps/utils/LocThread.cpp:128-200 | a started thread that is let go without a stop() always deletes its runnable |
| ThreadDelegates.StartMayFailAndDelete | gps/utils/LocThread.cpp:109-121 | a run in which the thread ends before create() looks: start() fails although the runnable was deleted |
| ThreadDelegates.StartMayLeak | gps/utils/LocThread.cpp:128-147 | a run in which the thread is stopped before it begins: start() succeeded but the runnable is never deleted |
| DeferredWork.FirstFreeIsLeast | camera/QCamera2/HAL/QCamera2HWI.cpp:7192-7202 | the slot given out is the lowest free one, and there is none exactly when all are busy |
| DeferredWork.Scheduler.constructor | camera/QCamera2/HAL/QCamera2HWI.cpp:1076-1076 | all slots are free at first |
| DeferredWork.Scheduler.QueueDefferedWork | camera/QCamera2/HAL/QCamera2HWI.cpp:7188-7204 | marks the lowest free slot busy and queues one job for it, or changes nothing and returns -1 |
| DeferredWork.Scheduler.MustWait | camera/QCamera2/HAL/QCamera2HWI.cpp:7217-7227 | waits exactly for a valid id whose slot is busy; an invalid id returns at once |
| DeferredWork.Scheduler.Dequeue | camera/QCamera2/HAL/QCamera2HWI.cpp:7070-7078 | jobs are taken in order |
| DeferredWork.Scheduler.DoJob | camera/QCamera2/HAL/QCamera2HWI.cpp:7080-7140 | frees the slot unless the channel is missing or the command unknown; an allocation signals, a postprocessor start broadcasts |
| DeferredWork.StepKeepsSlots | camera/QCamera2/HAL/QCamera2HWI.cpp:7188-7204 | each step keeps busy slots and outstanding jobs one to one |
| DeferredWork.StepKeepsTickets | camera/QCamera2/HAL/QCamera2HWI.cpp:7188-7227 | each step keeps every issued ticket finished or still owning its slot |
| DeferredWork.BusySlotsAreOutstandingJobs | camera/QCamera2/HAL/QCamera2HWI.cpp:7188-7204 | in every reachable state busy slots correspond one to one to outstanding jobs |
| DeferredWork.WaitReturnsOnlyWhenDone | camera/QCamera2/HAL/QCamera2HWI.cpp:7217-7230 | a wait for the id a job was given returns only after that very job is done, even if the slot has been reused |
| DeferredWork.AcceptedIffFree | camera/QCamera2/HAL/QCamera2HWI.cpp:7188-7204 | a request is accepted if and only if a slot is free; it gets the lowest one, makes that busy and no other, and its job goes to the end of the queue |
| DeferredWork.FinishFreesIff | camera/QCamera2/HAL/QCamera2HWI.cpp:7080-7140 | when a job ends its slot is freed if and only if it is a postprocessor start or an allocation with a channel; the one wakes every waiter, the other at most the one signalled; no other slot changes |
| DeferredWork.WaitReturnsIff | camera/QCamera2/HAL/QCamera2HWI.cpp:7217-7230 | a thread that looks at its slot leaves, returning for its ticket, if and only if that slot is not busy, and otherwise sleeps for it |
| DeferredWork.JobsAreDoneInOrder | camera/QCamera2/HAL/QCamera2HWI.cpp:7070-7140 | over every run, the accepted jobs are those done, then the one in hand, then the queued ones, in order |
| DeferredWork.AbandonedSlotsStayBusy | camera/QCamera2/HAL/QCamera2HWI.cpp:7082-7088 | a job with a missing channel or unknown command keeps its slot busy for ever, and no wait for it returns |
| DeferredWork.StepKeepsWakeupsIff | camera/QCamera2/HAL/QCamera2HWI.cpp:7110-7133 | a step leaves no sleeper behind if and only if it is not an allocation's single signal with another thread asleep on the freed slot |
| DeferredWork.OneWaiterAlwaysWakes | camera/QCamera2/HAL/QCamera2HWI.cpp:7217-7227 | a single waiting thread is never left asleep |
| DeferredWork.TwoWaitersMayLoseOne | camera/QCamera2/HAL/QCamera2HWI.cpp:7110-7114 | a run in which one of two waiters sleeps on although both jobs are done |
| SensorSubscriptions.SyncedDelayIs | sensors/NativeSensorManager.cpp:1004-1022 | the programmed delay is one of the listeners', no larger than the first or any non-zero one |
| SensorSubscriptions.SyncedDelayIsMinimumIff | sensors/NativeSensorManager.cpp:1004-1022 | it is the least delay anybody set if and only if the first listener set one or somebody set a negative one |
| SensorSubscriptions.ZeroSeedHidesOthers | sensors/NativeSensorManager.cpp:1004-1022 | a first listener without a delay makes the driver's delay zero whatever the others asked for |
| SensorSubscriptions.SyncedLatencyIsMinimum | sensors/NativeSensorManager.cpp:1045-1055 | the programmed latency is the least of the listeners' |
| SensorSubscriptions.ListsAfter | sensors/NativeSensorManager.cpp:616-657 | registering and unregistering leave each base sensor's list without duplicates and equal to the enabled sensors that depend on it |
| SensorSubscriptions.ProgrammedAfter | sensors/NativeSensorManager.cpp:987-1063 | every base sensor's driver was last told what its listeners now come to |
| SensorSubscriptions.PoweredAfter | sensors/NativeSensorManager.cpp:936-976 | a driver reached by an activation is on exactly while somebody listens |
| SensorSubscriptions.OperatedAgrees | sensors/NativeSensorManager.cpp:911-1174 | activate, setDelay and batch keep lists, power, delays and latencies of all base sensors agreed |
| SensorSubscriptions.OnIffNeeded | sensors/NativeSensorManager.cpp:936-976 | a reached driver is on if and only if an enabled sensor needs it |
| SensorSubscriptions.OperatedSwitchedRight | sensors/NativeSensorManager.cpp:936-981 | every operation keeps the drivers that their own sensor's activation switched last following its enable, and those switched for listeners on exactly while there are any |
| SensorSubscriptions.StaysDirect | sensors/NativeSensorManager.cpp:931-981 | a sensor activated itself keeps its driver to itself while no other sensor depends on it: always, if virtual |
| SensorSubscriptions.OnIffEnabledIff | sensors/NativeSensorManager.cpp:931-981 | a switched driver is on if and only if its sensor is enabled, exactly when the sensor's own activation came last or says the same as its listeners |
| SensorSubscriptions.OneShotIsSwitchedForListener | sensors/NativeSensorManager.cpp:936-952 | a one-shot base sensor whose driver a listener turns on although the sensor is not enabled |
| SensorSubscriptions.LeftAlone | sensors/NativeSensorManager.cpp:911-1174 | an operation tells nothing to drivers of sensors it does not depend on, no latency to one without a FIFO, and only its power to one without listeners |
| SensorSubscriptions.ProgrammedForTheFastest | sensors/NativeSensorManager.cpp:987-1063 | its delay and latency are the least any such sensor asked for, when all asked for a positive delay |
| NativeSensorManagers.ClampedIsMaximum | sensors/NativeSensorManager.cpp:1090-1095 | setDelay stores the larger of the delay and the minimum if and only if the minimum's nanoseconds fit 32 bits or the delay is no less than them and than what they wrap to |
| NativeSensorManagers.TellOneMore | sensors/NativeSensorManager.cpp:936-976 | telling the dependencies one after another is telling them all |
| NativeSensorManagers.OneShotKeepsAgreed | sensors/NativeSensorManager.cpp:931-933 | a one-shot sensor's own state matters to no base sensor |
| NativeSensorManagers.SwitchIsDirect | sensors/NativeSensorManager.cpp:931-933 | after a one-shot or virtual sensor's own activation its driver is on if and only if it is enabled |
| NativeSensorManagers.ActivatedLists | sensors/NativeSensorManager.cpp:616-657 | an activation puts the sensor at the end of its base sensors' lists or takes it out of them, and leaves every other list |
| NativeSensorManagers.NativeSensorManager.constructor | sensors/NativeSensorManager.cpp:408-434 | the sensors found at start-up, whatever their drivers' power, are agreed |
| NativeSensorManagers.NativeSensorManager.RegisterListener | sensors/NativeSensorManager.cpp:616-635 | appends the listener unless it is there already |
| NativeSensorManagers.NativeSensorManager.UnregisterListener | sensors/NativeSensorManager.cpp:639-657 | takes the listener out, or reports that it is not there |
| NativeSensorManagers.NativeSensorManager.SyncDelay | sensors/NativeSensorManager.cpp:987-1026 | the loop programs the delay the listeners come to and returns the driver's answer; no listener, no change |
| NativeSensorManagers.NativeSensorManager.SyncLatency | sensors/NativeSensorManager.cpp:1028-1063 | the loop programs the least latency, only for a sensor with a FIFO |
| NativeSensorManagers.NativeSensorManager.Join | sensors/NativeSensorManager.cpp:939-952 | one base sensor's part of an activation |
| NativeSensorManagers.NativeSensorManager.Part | sensors/NativeSensorManager.cpp:954-974 | one base sensor's part of a deactivation |
| NativeSensorManagers.NativeSensorManager.ActivateBases | sensors/NativeSensorManager.cpp:936-976 | the loop over the dependencies tells each of them once, in order |
| NativeSensorManagers.NativeSensorManager.DelayBases | sensors/NativeSensorManager.cpp:1097-1100 | so does that of a new delay |
| NativeSensorManagers.NativeSensorManager.BatchBases | sensors/NativeSensorManager.cpp:1166-1171 | and that of a new batch setting |
| NativeSensorManagers.NativeSensorManager.Activate | sensors/NativeSensorManager.cpp:911-985 | keeps everything agreed and every driver switched right, and gives the whole new state and the value returned; a one-shot or virtual sensor's driver is on exactly as asked with all else of it unchanged, a one-shot activation changes no other sensor, and lists gain the sensor at the end or lose it |
| NativeSensorManagers.NativeSensorManager.SetDelay | sensors/NativeSensorManager.cpp:1065-1103 | rejects a zero delay and unknown handles, ignores one-shot sensors, else clamps, and keeps everything agreed |
| NativeSensorManagers.NativeSensorManager.Batch | sensors/NativeSensorManager.cpp:1139-1174 | rejects a latency below the delay, does not clamp, and keeps everything agreed |
| NativeSensorManagers.DependencyAgreesIff | sensors/NativeSensorManager.cpp:196-234 | a new dependency keeps everything agreed if and only if it is a hardware sensor and the virtual one is not enabled yet (or is one-shot) |
| NativeSensorManagers.NativeSensorManager.AddDependency | sensors/NativeSensorManager.cpp:196-234 | adds a known dependency of a virtual sensor once, else reports why not, and keeps everything agreed exactly then |

## Left out

- LocSharedLock and MsgTask: modelled on values, as a map of reference counts and a message sequence in `TimerProtocol.State`; the atomic increment and the mutex inside are one step each.
- LocThreadDelegate: modelled on values, as a state machine with one step per access; releasing the mutex after the last decrement is part of that step.
- The timer state machine keeps each heap as a value; that the nodes in memory compute those values is `LocHeaps`, and `TimerContainers.LocTimerContainer` the processing of whole messages.
- TimerContainers.LocTimerContainer.ProcRemove: the delete of the timer at the end of the message is a step of `TimerProtocol`; `RemoveIsWhole` takes it in.
- TimerContainers.LocTimerContainer.ProcExpire: returns the popped timers instead of calling `expire` on each inside the loop; the calls, and what they send, are steps of `TimerProtocol`, and `ExpireIsWhole` takes them in.
- TimerTheorems.NoTimerForgotten: the clock stays below 2^31 seconds minus the largest timeout (about 68 years of uptime), where `ranks` is still an order (`RanksIsTimeOrder` says exactly when).
- TimerTheorems.NoUseAfterFree: a client is not destroyed between the read of its pointer, which takes no lock, and the end of its callback; `ReleaseFaultsIff` proves that this is exactly what is needed.
- TimerSafety.ReleaseSound: for a client that the message task is not calling, for the same reason.
- LocTimerWrapper and the C timer API: its `destroy` looks at an object that may be gone.
- Failing timerfd, epoll, allocation and thread-name calls of the timer service, and the logging.
- NULL handles passed to linked_list and msg_q functions, and failing allocation: the checks return before anything happens.
- Multihal.PollContext.Scan: the caller's buffer is the sequence returned; a dropped event's scribble behind the last returned one is not modelled.
- HalWakeups.NobodySleepsInVain: `maxReads` is at least 1, a device's `poll` returns at most the length of its region, and queue contents are their sizes, which `ScanIsRound` relates to a scan.
- multihal activate, setDelay, batch, flush and module loading: forwarding to sub-modules, or I/O; next_global_handle does not overflow.
- NativeSensorManagers.NativeSensorManager.Activate: what a driver answers is a parameter, and what a driver does with a command is its own.
- NativeSensorManagers.NativeSensorManager.AddDependency: `maxDelay`, which it also lowers, is only reported to clients; doing so for an unknown dependency dereferences a null pointer in builds with sensor API 1.3.
- SensorSubscriptions.OnIffNeeded: not for one-shot base sensors, which their own activation also switches (`OnIffEnabledIff` covers them), nor for drivers that no activation has reached, which may have been turned on at construction.
- InputEventReaders.InputEventCircularReader.Fill: the kernel's `read` is a parameter that says what it wrote, within the length it was given.
- Events read from a driver and injected into virtual sensors, sysfs, calibration, XML: I/O and floating point.
- DeferredWork.StepKeepsWakeupsIff: QCameraQueue is a first-in-first-out sequence with one wake-up per job; a postprocessor start has a channel, as the code asserts; the work itself (buffer allocation, postprocessor start) is not modelled.
- The rest of QCamera2HWI.cpp and of the repository: wrappers over devices, tables and string handling that would only add easy members.
