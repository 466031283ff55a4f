# Models of the Zephyr kernel's queues, timers and schedulers

This project models, in Dafny, the parts of the Zephyr kernel whose correctness is
spread over many calls: byte pipes, the timeout queue and the timers on it, the
scheduler's bookkeeping and its three interchangeable run queues, work queues, the
mutex with priority inheritance and the message queue. It also models two build-time
generators: the one that induces the dependency graph between devices, and the one
that emits both sides of every system call.

Most parts come in two layers. A module of values (`Pipes`, `Timeouts`, `Scheduler`,
`Work`, `Mutex`, `MessageQueue`) gives each kernel call as a function of the state, and
proves what the calls keep over every run: conservation of a byte stream, absolute
deadlines behind a delta-encoded list, which thread is in which queue. A module of
objects (`PipeObject`, `TimeoutObject`, `SchedulerObject`, `WorkObject`,
`Mutex.MutexObject`, `MessageQueueObject`) gives the same call as the kernel does it,
with loops over lists, ring buffers in arrays and fields updated in place, and proves
that it does what the function says. `PipeTurns`, `SchedulerOrder`, `SchedulerEffects`
and `WorkEffects` say further what each call does and leaves alone, and in which order.
A region that the source runs under one spinlock is one step; steps of different threads
interleave freely.

## What is proved

- **Pipes.** Over every run of puts, gets and waits that expire, the bytes handed to
  readers followed by the bytes in the ring are the bytes taken from writers, and each
  put contributes a prefix of its data (`PipeRuns.Run`). Every call made waits or has
  returned, exactly once (`PipeRuns.EveryCallOnce`), and waits in order of priority and
  arrival (`PipeTurns.WaitInTurn`). A call that may wait does so exactly when bytes are
  left over and it is short of its minimum or has none (`Pipes.PutWaits`, `GetWaits`).
  Readers wait only at an empty pipe and writers only at a full one. A call that may not
  wait never finds its estimate wrong. The array ring and the wait-list loops refine
  this (`PipeObject.PipeObject.PutCall`, `GetCall`).
- **Timeouts and timers.** The delta list is a map from timeout to absolute deadline, in
  order of deadline and then of insertion. An announcement ends whatever handlers add or
  abort, fires exactly what is due at exactly its deadline, and does not depend on how a
  stretch of time is cut into announcements. A periodic timer keeps to its grid over
  every run, and one without a period expires once (`Timeouts.OneShotRun`).
  `Timeouts.Interval` shows that a period of one tick is served as two,
  `Timeouts.ExpiresIsDeadline` when the reported expiry time is the deadline, and
  `Timeouts.RearmDrift` when a re-armed timer drifts.
- **Scheduler.** In every reachable state the state bits say exactly which queue holds a
  thread, the cached choice is the best ready thread or a running one that may not be
  preempted, and a thread that has ended never comes back. `SchedulerEffects.StepBits`
  says for every operation exactly what it changes, and in runs that wake threads and do
  not just unpend them no thread that could run is ever missing from the run queue
  (`SchedulerEffects.RunForgetsNobody`). Sorted list and multi-queue serve the same
  thread at every moment of every history, and the keyed tree with them over exactly
  those histories in which each thread gets the latest order key of its priority
  (`PriorityQueues.TreeAgreesExactly`). All histories do in which the 32-bit counter
  does not come round (`PriorityQueues.KeysFitLatest`); when it does, whoever brings
  that about is overtaken (`PriorityQueues.RenumberingIsUnfair`). A wait queue stays in
  order under a priority change exactly when the new priority fits between the
  neighbours (`Scheduler.SetPrioWaiting`), and over every run of changes that fit all
  wait queues are in order (`SchedulerOrder.RunOrdered`).
- **Work queues.** In every run without a cancel between pulling an item and marking it
  running, QUEUED and RUNNING mean what they say, no handler runs twice at once, every
  accepted submission is queued, running or finished and only one of these, a canceller
  is released once and only when the item is idle, and a flush is signalled only after
  everything it waits for. Nobody who waits for a cancellation or a flush is forgotten
  (`WorkEffects.CancellersAccounted`, `FlushNotLost`). `Work.CancelWindow` shows that
  this condition is exact and `Work.WindowRunsTwice` gives a run that breaks it.
- **Mutex.** A thread owns the mutex exactly while it was granted more locks than it has
  unlocked (`Mutex.OwnsWhatItHolds`). Over every run in which resuming threads find an
  owner, the mutex is unlocked exactly when nobody owns it and every thread but the
  owner runs at its own priority. The owner runs at least as high as its waiters can
  make it, up to the ceiling, and exactly at the better of its own and the best lent
  priority once timed-out waiters have run; the one step that can break this is named
  exactly (`Mutex.ResumeIsFair`). A timed-out waiter can run again and find no owner;
  `Mutex.HazardArises`, `Mutex.OwnerIsThere` and `Mutex.OwnerMissing` say exactly which
  unlock leads there, over all runs.
- **Message queue.** Over every run the messages callers were given, followed by the
  queued ones, are those taken from callers (`MessageQueue.FirstInFirstOut`), and
  readers and writers never wait together, which holds exactly when the queue has room
  for a message (`MessageQueue.CapacityMatters`).
- **Generators.** The worklist ends for any pop order with exactly the used nodes
  reachable through unused ones, and the marshaller passes on the values the wrapper was
  called with, for every argument list and whichever types are split. Its check of the
  array stops one word short (`SyscallMarshalling.CheckIsComplete`).

## Model

| member | source | states |
|---|---|---|
| `Pipes.ServeStream` | kernel/pipes.c:446-486 | what waiting readers are handed and what is left over make up the data, in order |
| `Pipes.ServeLaws` | kernel/pipes.c:284-347 | readers taken off the queue are full, the others still want bytes, and a remainder is left only when all are full |
| `Pipes.DrainLaws` | kernel/pipes.c:575-638 | writers taken off the queue are spent, the others still hold bytes, and exactly the lesser of room and offer is taken |
| `Pipes.PutKeepsWaitRules` | kernel/pipes.c:397-527 | a put keeps: readers wait only at an empty pipe, writers only at a full one, never both, all with bytes to go; every reader it wakes is fully served |
| `Pipes.SendLaws` | kernel/pipes.c:446-499 | after sending, readers remain only at an empty pipe with everything sent, and something is unsent only when the buffer is full |
| `Pipes.GetKeepsWaitRules` | kernel/pipes.c:529-680 | a get keeps the same rules, and every writer it wakes is fully drained |
| `Pipes.SendConserves` | kernel/pipes.c:446-499 | bytes handed to readers, then the new buffer, are the old buffer and the bytes taken |
| `Pipes.PutConserves` | kernel/pipes.c:397-527 | the same for a whole put, whose bytes taken are a prefix of its data |
| `Pipes.GetConserves` | kernel/pipes.c:529-680 | bytes the caller got, then the new buffer, are the old buffer and the bytes taken from writers |
| `Pipes.PutNoWait` | kernel/pipes.c:296-310 | without waiting a put either changes nothing and returns -EIO with 0, or moves at least the minimum and returns 0; which one is decided by free room plus what readers want |
| `Pipes.GetNoWait` | kernel/pipes.c:548-679 | the same for a get, decided by the buffer plus what writers offer |
| `Pipes.PutTakes` | kernel/pipes.c:397-499 | a put whose minimum is above its size is refused with -EINVAL and changes nothing; any other that is not refused moves the lesser of its size and what readers want and the buffer has room for |
| `Pipes.GetTakes` | kernel/pipes.c:529-638 | the same for a get, with what the buffer and the writers hold |
| `Pipes.PutWaits` | kernel/pipes.c:488-527 | a put that may wait does so exactly when bytes are left over and it has not reached its minimum or has none; otherwise it returns 0 at once with what it moved |
| `Pipes.GetWaits` | kernel/pipes.c:640-680 | the same for a get |
| `PipeRuns.GetKeepsInv` | kernel/pipes.c:529-680 | a get keeps the stream equation, the wait rules and every call's account of what it moved and will return |
| `PipeRuns.PutKeepsInv` | kernel/pipes.c:397-527 | a put keeps the same |
| `PipeRuns.ExpireKeepsInv` | kernel/pipes.c:516-526 | a wait that times out keeps the same, and its call returns the count it moved and the code its minimum demands |
| `PipeRuns.StepKeepsInv` | kernel/pipes.c:397-680 | every step of a run keeps the invariant |
| `PipeRuns.Run` | kernel/pipes.c:397-680 | after every run of puts, gets and expiries: delivered bytes and buffer equal taken bytes, each put contributes a prefix, the wait rules hold and all returned counts and codes are right |
| `PipeRuns.EveryCallOnce` | kernel/pipes.c:397-680 | after every run each call made is on one side of the pipe and there either waits or has returned, exactly once |
| `PipeRuns.PutJoins` | kernel/pipes.c:488-527 | in any run a put joins the waiting writers exactly when it may wait, is not refused, has bytes left over, and is below its minimum or has none |
| `PipeRuns.GetJoins` | kernel/pipes.c:640-680 | the same for a get and the waiting readers |
| `PipeRuns.ReaderWaitEnds` | kernel/pipes.c:670-679 | a reader whose wait expires leaves the queue and returns the bytes it has, with 0 exactly when they reach its minimum; nobody else is touched |
| `PipeRuns.WriterWaitEnds` | kernel/pipes.c:517-526 | the same for a writer |
| `PipeTurns.ServedInTurn` | kernel/pipes.c:446-486 | readers leave the queue from its head, and those that stay keep their turns |
| `PipeTurns.DrainedInTurn` | kernel/pipes.c:575-638 | the same for writers |
| `PipeTurns.WaitInTurn` | kernel/pipes.c:397-680 | over every run readers and writers wait in order of priority and then of their calls |
| `PipeObject.Prepare` | kernel/pipes.c:284-347 | the wait-list loop takes off exactly the longest prefix of waiters whose requests fit, and estimates the total of all of them |
| `PipeObject.TakeDirect` | kernel/pipes.c:575-606 | taking from writers in order into the caller's buffer moves the lesser of room and offer and keeps the byte order |
| `PipeObject.WindowPut` | kernel/pipes.c:189-216 | writing one run at the write index appends it to the ring's contents |
| `PipeObject.WindowGet` | kernel/pipes.c:226-252 | reading one run at the read index takes it off the front of the ring's contents |
| `PipeObject.PipeObject.constructor` | kernel/pipes.c:99-112 | a new pipe is empty with nobody waiting |
| `PipeObject.PipeObject.CopyIn` | kernel/pipes.c:166-179 | the copy loop moves the lesser of the two sizes, byte for byte, and touches nothing else |
| `PipeObject.PipeObject.CopyOut` | kernel/pipes.c:166-179 | the same in the other direction |
| `PipeObject.PipeObject.BufferPut` | kernel/pipes.c:189-216 | the ring grows by the longest prefix of the data that has room, whatever the indices |
| `PipeObject.PipeObject.BufferGet` | kernel/pipes.c:226-252 | the front of the ring is read off, up to the size asked for, whatever the indices |
| `PipeObject.PipeObject.ReadAvail` | kernel/pipes.c:722-747 | the available count is the number of bytes in the ring |
| `PipeObject.PipeObject.WriteAvail` | kernel/pipes.c:759-784 | the available room is the size less the number of bytes in the ring |
| `PipeObject.PipeObject.ServeReaders` | kernel/pipes.c:446-486 | the two loops over readers do what serving them in order does |
| `PipeObject.PipeObject.PutCall` | kernel/pipes.c:397-527 | the call with its loops and ring indices does what `Pipes.Put` says, result and new state, and keeps the wait rules |
| `PipeObject.PipeObject.Receive` | kernel/pipes.c:575-638 | the loops over writers give the caller and refill the ring as draining writers in order does |
| `PipeObject.PipeObject.GetCall` | kernel/pipes.c:529-680 | the call does what `Pipes.Get` says, result and new state, and keeps the wait rules |
| `Timeouts.TicksLand` | kernel/timeout.c:93-101 | a relative request for d ticks lands at now+d+1, an absolute one at its time or the next tick if that is past |
| `Timeouts.PlacedOrder` | kernel/timeout.c:108-118 | the place of a new deadline is behind all that are not later and before all that are |
| `Timeouts.InsertMeaning` | kernel/timeout.c:103-122 | inserting a delta puts the absolute deadline in that place and moves no other |
| `Timeouts.InsertDeadline` | kernel/timeout.c:103-122 | as a map, inserting adds one key and changes no other |
| `Timeouts.RemoveMeaning` | kernel/timeout.c:53-60 | removing takes one deadline out of the ordered list and moves no other |
| `Timeouts.RemoveDeadline` | kernel/timeout.c:53-60 | as a map, removing takes one key out and changes no other |
| `Timeouts.DoDeadline` | kernel/timeout.c:82-155 | adding and aborting change only the named timeout's deadline, and adding sets it as requested from now |
| `Timeouts.DoAllZeros` | kernel/timeout.c:101-118 | no call adds to the entries due at once, which is why the announcement loop ends |
| `Timeouts.PopDeadline` | kernel/timeout.c:242-249 | the loop takes the earliest deadline, moves the time to exactly it, and moves no other |
| `Timeouts.FireEnds` | kernel/timeout.c:232-266 | for any handlers an announcement ends with time moved by exactly the ticks announced, all remaining deadlines ahead, and firing times ascending in between |
| `Timeouts.FiresWhenDue` | kernel/timeout.c:242-261 | a timeout that handlers leave alone fires once at its deadline if due and otherwise keeps it |
| `Timeouts.FiresInOrder` | kernel/timeout.c:242-261 | of any set of timeouts that handlers leave alone, exactly the due ones fire, each at its deadline, in order of deadline and then insertion |
| `Timeouts.Batching` | kernel/timeout.c:232-266 | announcing a+b ticks does what announcing a and then b does: same log, same queue |
| `Timeouts.AnyBatching` | kernel/timeout.c:232-266 | any division of a stretch of time into announcements has the outcome of one |
| `Timeouts.SleepIsSafe` | kernel/timeout.c:67-80 | sleeping until the next timeout passes no deadline still ahead |
| `Timeouts.SleepIsExact` | kernel/timeout.c:62-80 | the sleep is exactly the time to the earliest deadline, 0 if that is past and the largest integer if it is further or there is none |
| `Timeouts.ExpiresIsDeadline` | kernel/timeout.c:187-196 | the reported expiry time is the deadline exactly when nothing has elapsed since the last announcement |
| `Timeouts.ExpiresTooEarly` | kernel/timeout.c:187-196 | a deadline at tick 10 that is reported as 8 |
| `Timeouts.Interval` | kernel/timer.c:129-135 | a period of p ticks is served as the greater of p and 2, so exactly from p = 2 up, and the first expiry is the greater of d and 1 ticks away |
| `Timeouts.RearmDrift` | kernel/timer.c:55-59 | a re-armed timer lands on its grid exactly when ticks remain to be announced or none have passed since |
| `Timeouts.RearmTooLate` | kernel/timer.c:55-59 | a timer due every 4 ticks that is next due after 7 |
| `Timeouts.TimerRearms` | kernel/timer.c:46-88 | the expiry handler re-arms its own timer before all else and names no other |
| `Timeouts.TimerFires` | kernel/timeout.c:232-266 | during an announcement a timer fires at each grid point passed and waits for the next |
| `Timeouts.PeriodicRun` | kernel/timer.c:109-143 | over every run of announcements and other calls a timer has expired at first, first+step, first+2*step, ..., once for each point passed |
| `Timeouts.StoredPeriods` | kernel/timer.c:129-132 | what is kept of each period, and that none is re-armed for 0 and -1 and every other is |
| `Timeouts.OneShotIgnored` | kernel/timer.c:46-66 | the handlers leave a timer without a period alone |
| `Timeouts.OneShotRun` | kernel/timer.c:46-66 | over every run of announcements and calls about others such a timer expires once, at its deadline, and never again, and one that is not started never |
| `TimeoutObject.TimeoutQueue.Link` | kernel/timeout.c:103-122 | the loop over the list inserts the delta where the specification does |
| `TimeoutObject.TimeoutQueue.AddTimeout` | kernel/timeout.c:82-141 | the call does what adding means, with K_FOREVER, absolute and relative requests |
| `TimeoutObject.TimeoutQueue.RemoveEntry` | kernel/timeout.c:53-60 | unlinking an entry adds its ticks to the next one, as removal says |
| `TimeoutObject.TimeoutQueue.AbortTimeout` | kernel/timeout.c:143-155 | the call removes the timeout and succeeds exactly when it was active |
| `TimeoutObject.TimeoutQueue.RemainingTicks` | kernel/timeout.c:158-185 | the prefix-sum loop returns deadline minus now, or 0 when inactive |
| `TimeoutObject.TimeoutQueue.FireFirst` | kernel/timeout.c:242-254 | one turn of the loop, and the measure that decreases: ticks left, then entries due at once |
| `TimeoutObject.TimeoutQueue.AnnounceTicks` | kernel/timeout.c:232-266 | the announcement loop with its handler calls does what the specification says |
| `TimeoutObject.Timer.Start` | kernel/timer.c:109-143 | starting replaces the timer's timeout at the time asked for, relative or absolute, moves no other, sets the status to 0 and keeps the period as it is to be used, 0 and -1 unchanged |
| `TimeoutObject.Timer.Stop` | kernel/timer.c:156-174 | stopping removes the timer's timeout, moves no other, and tells whether it was running |
| `TimeoutObject.Timer.Expire` | kernel/timer.c:46-66 | a periodic timer is due again its stored period and a tick on, one without a period leaves the queue as it is, and the status counts |
| `PriorityQueues.ArrivalOrder` | kernel/sched.c:933-948 | a newcomer goes behind everyone it does not beat and before everyone it beats |
| `PriorityOrder.FindSlot` | kernel/sched.c:933-948 | the walk over a list comes to rest behind everyone not beaten |
| `PriorityOrder.Unlinked` | kernel/sched.c:950-955 | the search and unlinking leave the list without the thread, the others in order |
| `PriorityQueues.SortedList.Add` | kernel/sched.c:933-948 | the list walk is the ordered insertion |
| `PriorityQueues.SortedList.Remove` | kernel/sched.c:950-955 | the thread is searched for and unlinked, and the order of the rest stays |
| `PriorityQueues.SortedList.Best` | kernel/sched.c:957-966 | the result is in the list and nobody in an ordered list beats it; none exactly when it is empty |
| `PriorityQueues.AppendToLevel` | kernel/sched.c:1039-1045 | appending to the newcomer's level is the ordered insertion in the concatenation |
| `PriorityQueues.RemoveFromLevel` | kernel/sched.c:1047-1055 | removing from a level is removing from the concatenation |
| `PriorityQueues.FirstNonEmpty` | kernel/sched.c:1057-1071 | the head of the lowest level that is not empty is the head of the concatenation |
| `PriorityQueues.MultiQueue.Add` | kernel/sched.c:1039-1045 | contents as by ordered insertion, and bit i is set exactly when level i is not empty |
| `PriorityQueues.MultiQueue.Remove` | kernel/sched.c:1047-1055 | contents without the thread, and the bits again exact |
| `PriorityQueues.MultiQueue.Best` | kernel/sched.c:1057-1071 | the lowest set bit leads to the best thread |
| `PriorityQueues.TreeServesArrivalOrder` | kernel/sched.c:968-1009 | into a walk in order an insertion by unsigned order key, renumbering included, keeps arrival order exactly when the newcomer gets the last key of all or no thread of its priority holds a later one |
| `PriorityQueues.RenumberingIsUnfair` | kernel/sched.c:994-1006 | for every tree of fewer threads than keys, whoever brings the renumbering about keeps arrival order, and the next thread of its priority then overtakes it |
| `PriorityQueues.RenumberingLosesArrivalOrder` | kernel/sched.c:994-1006 | three threads of one priority of which the last is served before the second |
| `PriorityQueues.TreeAddedSorted` | kernel/sched.c:988-1009 | an insertion, renumbering included, leaves the walk in the order that the next descent expects |
| `PriorityQueues.TreeAddedValid` | kernel/sched.c:988-1009 | from a state with keys in order insertion keeps arrival order, and below the last key also keeps keys distinct, the walk in order of priority and then key, and all keys below the next |
| `PriorityQueues.TreeQueue.Add` | kernel/sched.c:988-1009 | key, renumbering and insertion as specified; the contents are as by ordered insertion when the newcomer's key is the latest |
| `PriorityQueues.TreeQueue.Renumber` | kernel/sched.c:1002-1006 | the loop gives the threads the keys 0, 1, 2 and so on along the walk, and leaves the counter behind the last |
| `PriorityQueues.TreeQueue.Remove` | kernel/sched.c:1011-1020 | contents without the thread from any state; the key counter goes back to zero exactly when the tree is empty; keys stay in order |
| `PriorityQueues.TreeQueue.Best` | kernel/sched.c:1022-1031 | the first in order, or none |
| `PriorityQueues.Duo.Lockstep` | kernel/sched.c:933-1071 | over every history the sorted list and the multi-queue hold the same list and name the same best thread |
| `PriorityQueues.TreeAgreesExactly` | kernel/sched.c:988-1020 | over every history with no more threads than keys the tree holds the reference list throughout exactly when every queued thread gets the latest key of its priority |
| `PriorityQueues.KeysFitLatest` | kernel/sched.c:988-1020 | which is so for every history in which the counter does not come round between two moments at which the tree is empty |
| `PriorityQueues.Trio.Lockstep` | kernel/sched.c:933-1071 | every history takes the three through the states specified; if every queued thread gets the latest key of its priority, all three hold the same list and name the same best thread throughout |
| `Scheduler.SwapIsSafe` | kernel/sched.c:854-861 | the cached thread may run, and is the run queue's best, idle, or a running thread that may not be preempted |
| `Scheduler.EnqueueBooks` | kernel/sched.c:197-210 | queueing a ready thread keeps all bits and queues in agreement |
| `Scheduler.DequeueBooks` | kernel/sched.c:212-219 | dequeueing keeps them in agreement |
| `Scheduler.BlockBooks` | kernel/sched.c:599-609 | joining a wait queue keeps them in agreement |
| `Scheduler.UnblockBooks` | kernel/sched.c:639-644 | leaving a wait queue keeps them in agreement |
| `Scheduler.UpdateCacheInv` | kernel/sched.c:436-462 | refreshing the cache establishes what is claimed of it |
| `Scheduler.MakeReadyCore` | kernel/sched.c:483-500 | making a thread ready keeps everything, also when the running thread is the one missing from the run queue |
| `Scheduler.StartInv` | kernel/sched.c:518-530 | starting a thread keeps the invariant |
| `Scheduler.SuspendInv` | kernel/sched.c:532-547 | suspending keeps the invariant |
| `Scheduler.ResumeInv` | kernel/sched.c:558-572 | resuming keeps the invariant |
| `Scheduler.PendInv` | kernel/sched.c:599-630 | waiting with or without a queue, a timeout or a scheduler lock to undo, and the switch that follows, keep the invariant |
| `Scheduler.UnpendInv` | kernel/sched.c:720-740 | unpending keeps the invariant |
| `Scheduler.WakeInv` | kernel/sched.c:1614-1634 | waking a queue keeps the invariant |
| `Scheduler.ExpireInv` | kernel/sched.c:655-673 | a thread timeout keeps the invariant |
| `Scheduler.SetPrioInv` | kernel/sched.c:745-769 | changing a priority keeps the invariant |
| `SchedulerEffects.SetPrioPlaces` | kernel/sched.c:745-769 | the thread gets the new priority and nothing else changes of any thread; a ready one moves behind everyone of the same or a higher priority and before the others, who keep their order, and the best thread is chosen |
| `Scheduler.ChangePrioExact` | kernel/sched.c:745-769 | a priority can be changed and the invariant is kept exactly when the thread is queued if it is ready |
| `Scheduler.UnpendedHasNoPlace` | kernel/sched.c:720-759 | of the threads just unpended it cannot be changed exactly for those that are then ready, until they are queued |
| `Scheduler.YieldInv` | kernel/sched.c:1186-1204 | yielding keeps the invariant |
| `Scheduler.SleepInv` | kernel/sched.c:1214-1258 | sleeping keeps the invariant |
| `Scheduler.WakeupInv` | kernel/sched.c:1305-1328 | waking a sleeper keeps the invariant |
| `Scheduler.LockInv` | kernel/sched.c:829-852 | locking and unlocking the scheduler keep the invariant |
| `Scheduler.SwapAnyInv` | kernel/sched.c:854-868 | a switch to the cached thread keeps the invariant |
| `Scheduler.ReleaseAll` | kernel/sched.c:1438-1448 | releasing every waiter of a queue ends, empties it and keeps the books |
| `Scheduler.End` | kernel/sched.c:1450-1478 | ending a thread keeps the invariant and leaves it dead |
| `Scheduler.DeadIsGone` | kernel/sched.c:1450-1478 | a dead thread is in no queue, has no timeout and is not the cached choice |
| `Scheduler.Step` | kernel/sched.c:483-1634 | every operation keeps the invariant |
| `Scheduler.InitialInv` | kernel/sched.c:1087-1111 | it holds at boot |
| `Scheduler.Run` | kernel/sched.c:483-1634 | it holds after every run of operations |
| `Scheduler.NeverBack` | kernel/sched.c:1450-1526 | after a thread has ended no run of starts, resumes, wakeups, timeouts or priority changes queues or selects it again |
| `Scheduler.WaitersInOrder` | kernel/sched.c:933-948 | joining and leaving keep a wait queue in priority order |
| `Scheduler.SetPrioWaiting` | kernel/sched.c:762-764 | changing a waiting thread's priority leaves its place, so the queue stays in order exactly when the new priority fits between its neighbours |
| `Scheduler.SetPrioLosesOrder` | kernel/sched.c:762-764 | a wait queue that a priority change leaves out of order |
| `SchedulerOrder.StepOrdered` | kernel/sched.c:483-1634 | every operation keeps all wait queues in priority order, a priority change of a waiting thread if it fits between its neighbours |
| `SchedulerOrder.RunOrdered` | kernel/sched.c:483-1634 | over every run of such operations all wait queues are in priority order |
| `SchedulerEffects.StepBits` | kernel/sched.c:483-1634 | for every operation and every thread: exactly which state bits, priority, lock count, timeout and wait queue it has afterwards |
| `SchedulerEffects.StepStrands` | kernel/sched.c:483-1634 | no operation leaves a thread that could run out of the run queue, but taking it off a wait queue without making it ready, and making it ready puts that right |
| `SchedulerEffects.RunForgetsNobody` | kernel/sched.c:483-1634 | over every run in which threads are woken and not just unpended, the run queue holds exactly the threads that could run |
| `SchedulerEffects.NamedPlace` | kernel/sched.c:483-572 | whoever is started, resumed, woken or made ready goes behind everyone it does not beat, and a running thread that must not be preempted stays chosen |
| `SchedulerEffects.WokenPlace` | kernel/sched.c:1614-1634 | so does the head of a wait queue that is woken |
| `SchedulerEffects.ExpirePlace` | kernel/sched.c:655-673 | and a thread whose timeout fires |
| `SchedulerEffects.SuspendEffect` | kernel/sched.c:532-547 | suspending takes the thread out of the run queue and stops its timeout, and the choice is made anew |
| `SchedulerEffects.PendEffect` | kernel/sched.c:599-703 | the running thread is marked as waiting, with the timeout it asked for and its lock undone if wanted, leaves the run queue, and the best thread runs |
| `SchedulerEffects.PendPlace` | kernel/sched.c:599-609 | in the wait queue it stands behind everyone it does not beat |
| `SchedulerEffects.SleepEffect` | kernel/sched.c:1243-1247 | a sleeper is suspended with a timeout and out of the run queue, and the best thread runs |
| `SchedulerEffects.YieldEffect` | kernel/sched.c:1186-1204 | a yield changes no thread, and the best thread runs |
| `SchedulerEffects.LockEffect` | kernel/sched.c:829-852 | the lock count goes up and down by one, and at the unlock the choice is made anew |
| `SchedulerEffects.EndEffect` | kernel/sched.c:1438-1478 | the thread is dead, without timeout and in no queue, everyone who joined it is released and queued if it could run, nobody else changes, and the best thread is chosen |
| `SchedulerEffects.ReleasedInOrder` | kernel/sched.c:1438-1448 | waiters released together enter the run queue in the order in which they waited, unless a later one has the higher priority |
| `SchedulerEffects.ReleasedBehind` | kernel/sched.c:1438-1448 | and behind everyone already there whom they do not beat |
| `SchedulerEffects.JoinAnswers` | kernel/sched.c:1535-1556 | 0 exactly for a thread that has ended, -EBUSY exactly without waiting, -EDEADLK exactly for itself or one that waits for the caller; every other join waits |
| `Scheduler.SuspendResume` | kernel/sched.c:532-572 | resuming undoes suspending: every bit as before, the same threads in the run queue |
| `Scheduler.WakeTakesBest` | kernel/sched.c:1614-1634 | waking takes the best waiter, leaves the rest in place, and queues it unless it is suspended or not started |
| `Scheduler.ExpireFrees` | kernel/sched.c:655-673 | a timeout takes a thread off its wait queue and puts it in the run queue |
| `Scheduler.YieldPasses` | kernel/sched.c:1186-1204 | after a yield the best thread runs and the yielder comes after every thread of its priority |
| `SchedulerObject.Kernel.constructor` | kernel/sched.c:1087-1111 | the initial state, with the invariant |
| `SchedulerObject.Kernel.PriqAdd` | kernel/sched.c:933-948 | a queue with the thread behind everyone it does not beat |
| `SchedulerObject.Kernel.RefreshCache` | kernel/sched.c:436-462 | afterwards the cached choice is the best thread, or a running one that may go on and may not be preempted |
| `SchedulerObject.Kernel.ReadyThread` | kernel/sched.c:483-500 | does what making ready says |
| `SchedulerObject.Kernel.SchedStart` | kernel/sched.c:518-530 | does what starting says, and keeps the invariant |
| `SchedulerObject.Kernel.ThreadSuspend` | kernel/sched.c:532-547 | does what suspending says, and keeps the invariant |
| `SchedulerObject.Kernel.ThreadResume` | kernel/sched.c:558-572 | does what resuming says, and keeps the invariant |
| `SchedulerObject.Kernel.PendCurrent` | kernel/sched.c:599-703 | does what waiting says, and keeps the invariant |
| `SchedulerObject.Kernel.UnpendNoTimeout` | kernel/sched.c:639-644 | does what leaving a wait queue says |
| `SchedulerObject.Kernel.ThreadTimeout` | kernel/sched.c:655-673 | does what a thread timeout says, and keeps the invariant |
| `SchedulerObject.Kernel.SetPriority` | kernel/sched.c:745-769 | gives the thread the new priority and changes no other, does what a priority change says, tells whether the thread was ready, and keeps the invariant; a ready thread in no queue is told apart |
| `SchedulerObject.Kernel.YieldCurrent` | kernel/sched.c:1186-1204 | does what yielding says, and keeps the invariant |
| `SchedulerObject.Kernel.TickSleep` | kernel/sched.c:1214-1258 | does what sleeping says, and yields for zero ticks |
| `SchedulerObject.Kernel.WakeupThread` | kernel/sched.c:1305-1328 | does what waking a sleeper says, and keeps the invariant |
| `SchedulerObject.Kernel.UnpendAll` | kernel/sched.c:1438-1448 | the loop releases everyone, as the specification says |
| `SchedulerObject.Kernel.EndThread` | kernel/sched.c:1450-1478 | does what ending says, and keeps the invariant |
| `SchedulerObject.Kernel.JoinThread` | kernel/sched.c:1535-1556 | waits for the thread to end, or answers 0 if it has, -EBUSY if waiting is not wanted and -EDEADLK for itself or a thread that waits for the caller; keeps the invariant |
| `SchedulerObject.Kernel.SchedWake` | kernel/sched.c:1614-1634 | wakes the best waiter, tells whether there was one, and keeps the invariant |
| `SchedulerObject.Kernel.SchedLock` | kernel/sched.c:829-834 | does what locking the scheduler says |
| `SchedulerObject.Kernel.SchedUnlock` | kernel/sched.c:836-852 | does what unlocking the scheduler says, cache refreshed |
| `Work.FlusherInOrder` | kernel/work.c:169-191 | a flusher placed behind the item has everything it waits for ahead of it |
| `Work.DroppedInOrder` | kernel/work.c:200-206 | taking a cancelled item off a list keeps every flusher behind what it waits for |
| `Work.SubmitInv` | kernel/work.c:309-354 | submission keeps the invariant, whatever it answers |
| `Work.CancelInv` | kernel/work.c:449-468 | a cancel outside the window keeps the invariant |
| `Work.CancelSyncInv` | kernel/work.c:485-539 | a synchronous cancel outside the window keeps it |
| `Work.FlushInvariant` | kernel/work.c:394-410 | a flush keeps it |
| `Work.PullInv` | kernel/work.c:630-650 | pulling the next node keeps it |
| `Work.SetRunningInv` | kernel/work.c:557-587 | marking the node running keeps it |
| `Work.ClearRunningInv` | kernel/work.c:600-612 | the return of the handler keeps it |
| `Work.PulledIsQueued` | kernel/work.c:557-587 | a pulled item is still queued, not running and not being cancelled, so the branch that completes a cancellation there is not taken |
| `Work.CancelWindow` | kernel/work.c:630-671 | a cancel keeps the books exactly when the item is not between being pulled and being marked |
| `Work.WindowRunsTwice` | kernel/work.c:630-671 | a run with such a cancel after which two queues run one handler |
| `Work.FinalizeSplits` | kernel/work.c:109-132 | every canceller on the list is either released or still listed, and only one of these |
| `Work.FinalizeKeeps` | kernel/work.c:109-132 | finalizing keeps only cancellers of other items and leaves none of the item's |
| `Work.StepKeepsInv` | kernel/work.c:249-693 | every step keeps the invariant: flags and lists agree, turns are accounted for, flushes are in order, waiting cancellers have a cancelling item |
| `Work.InitialInv` | kernel/work.c:134-141 | it holds for idle items and empty queues |
| `Work.RunKeepsInv` | kernel/work.c:249-693 | it holds after every run |
| `Work.HandlerRunsOnce` | kernel/work.c:309-354 | no two queues run one item's handler at once |
| `Work.WaitersHaveARunner` | kernel/work.c:485-499 | whoever waits for a cancellation waits for a handler that is running, so nobody is left when the item is idle |
| `Work.ReleasedWhenIdle` | kernel/work.c:600-612 | cancellers are released only when the handler returns, all together, and the item is then neither queued nor running |
| `Work.FlushWaits` | kernel/work.c:66-410 | over every run, from the moment the flusher's handler runs, which gives the semaphore, every turn of the item that was queued or running when the flush was asked for is finished |
| `Work.CancelStops` | kernel/work.c:449-468 | after a cancel nothing of the item is queued, and while its handler still runs submissions are refused |
| `Work.SubmitAnswers` | kernel/work.c:249-354 | exactly when a submission answers 0, 1, 2, -EBUSY, -EINVAL and -ENODEV, and that a refusal changes nothing |
| `Work.SubmitQueues` | kernel/work.c:249-354 | of an accepted one exactly one new turn goes to the back of the queue that runs the item, else of the one given, else of the last one |
| `WorkEffects.FlagsChange` | kernel/work.c:623-773 | exactly which operations make a queue drain, end its draining, plug and unplug it |
| `WorkEffects.ThreadMoves` | kernel/work.c:557-693 | a queue's thread takes the first node, marks it running and is done with it, and nothing else moves it |
| `WorkEffects.ItemChanges` | kernel/work.c:249-612 | exactly which operations set and clear an item's flags |
| `WorkEffects.CancelTakesOut` | kernel/work.c:200-206 | a cancelled item leaves its place and the others keep theirs |
| `WorkEffects.FlushPlace` | kernel/work.c:169-191 | a flusher goes right behind the item, or first if the item has been taken |
| `WorkEffects.CancellersAccounted` | kernel/work.c:449-612 | over every run whoever was told to wait for a cancellation still waits or was released, once |
| `WorkEffects.FlushNotLost` | kernel/work.c:66-612 | over every run after a flush of an active item the flusher is in one queue, once, or was signalled, once |
| `WorkEffects.FlushOfIdle` | kernel/work.c:356-410 | a flush of an idle item changes nothing |
| `WorkObject.WorkSystem.constructor` | kernel/work.c:134-141 | the initial state, with the invariant |
| `WorkObject.WorkSystem.SubmitTo` | kernel/work.c:249-354 | does what submission says, answer and new state, and keeps the invariant |
| `WorkObject.WorkSystem.QueueRemove` | kernel/work.c:200-206 | the search and unlinking take the item off its list if it is queued |
| `WorkObject.WorkSystem.CancelAsync` | kernel/work.c:449-468 | does what cancelling says, in the window too, tells whether the item is still busy, and keeps the invariant outside the window |
| `WorkObject.WorkSystem.CancelAndWait` | kernel/work.c:485-539 | does what a synchronous cancel says, tells whether to wait, and keeps the invariant outside the window |
| `WorkObject.WorkSystem.FlushItem` | kernel/work.c:169-410 | does what flushing says, tells whether to wait, and keeps the invariant |
| `WorkObject.WorkSystem.FinalizeCancel` | kernel/work.c:109-132 | the loop that unlinks while it walks releases exactly the item's cancellers |
| `WorkObject.WorkSystem.PullNext` | kernel/work.c:623-650 | what the queue has to run stays the same as its first node changes hands, or a drain ends; the invariant is kept |
| `WorkObject.WorkSystem.StartRunning` | kernel/work.c:557-587 | does what marking running says, and keeps the invariant |
| `WorkObject.WorkSystem.StopRunning` | kernel/work.c:600-612 | does what the return of a handler says, and keeps the invariant |
| `WorkObject.WorkSystem.DrainQueue` | kernel/work.c:731-757 | a queue with anything to do, or to be plugged, starts draining, and only then is there something to wait for; the invariant is kept |
| `WorkObject.WorkSystem.UnplugQueue` | kernel/work.c:759-773 | a started queue that is not draining accepts work from anyone again, whether it was plugged is told, and the invariant is kept |
| `Mutex.LockKeepsInv` | kernel/mutex.c:119-166 | locking, refused, granted or waiting with a boost for the owner, keeps the invariant for any ceiling |
| `Mutex.TimeOutKeepsInv` | kernel/mutex.c:164-176 | a wait that times out keeps it |
| `Mutex.ResumeKeepsShape` | kernel/mutex.c:176-199 | a timed-out thread that runs again and finds an owner keeps everything but the fairness of the owner's priority |
| `Mutex.ResumeIsFair` | kernel/mutex.c:96-103 | it leaves the owner at the fair priority exactly when nobody else waits or the owner's own priority is not above the ceiling, and otherwise below its own |
| `Mutex.UnlockKeepsInv` | kernel/mutex.c:212-283 | unlocking keeps it |
| `Mutex.RunKeepsShape` | kernel/mutex.c:119-283 | over every run in which resuming threads find an owner, whatever the ceiling: unlocked exactly when no owner, all but the owner at their own priority, waiters distinct and in priority order |
| `Mutex.RunKeepsInv` | kernel/mutex.c:119-283 | over every such run in which each resuming thread leaves nobody waiting or finds an owner not above the ceiling: the owner no lower than what its waiters can lend, exactly at the better of its own and the best lent priority when no timed-out thread is still to run |
| `Mutex.OwnerKeepsUp` | kernel/mutex.c:119-200 | then the owner runs at least as high as each waiter, up to the ceiling |
| `Mutex.HandOver` | kernel/mutex.c:245-275 | the last unlock restores the owner's own priority and hands over to a waiter nobody beats |
| `Mutex.HazardArises` | kernel/mutex.c:180-190 | a step leads to a timed-out thread without an owner exactly when it is the last unlock, nobody waits, and such a thread has not run |
| `Mutex.OwnerIsThere` | kernel/mutex.c:180-190 | in every run without such an unlock every thread that resumes finds an owner, so the run goes through |
| `Mutex.FreeRuns` | kernel/mutex.c:71-283 | the run results for a mutex that starts free |
| `Mutex.OwnerMissing` | kernel/mutex.c:180-190 | after such an unlock, and after no other step that starts where none is missing, a thread can resume at once and find no owner |
| `Mutex.OwnerGone` | kernel/mutex.c:180-190 | one such run |
| `Mutex.LockAnswers` | kernel/mutex.c:119-166 | 0 exactly for a free mutex and for its owner, who then has one lock more; -EBUSY exactly when another owns it and waiting is not wanted, with nothing changed; otherwise the caller waits behind everyone it does not beat |
| `Mutex.UnlockAnswers` | kernel/mutex.c:212-283 | 0 exactly for the owner, who then has one lock fewer, -EINVAL exactly when there is no owner, -EPERM exactly for anyone else, with nothing changed |
| `Mutex.LateAnswers` | kernel/mutex.c:164-199 | a wait that times out takes the thread off the queue, and running again it changes nobody's priority but the owner's |
| `Mutex.OwnsWhatItHolds` | kernel/mutex.c:119-283 | over every run a thread owns the mutex exactly while it was granted more locks, the one that ended its wait included, than it has unlocked |
| `Mutex.MutexObject.constructor` | kernel/mutex.c:71-85 | a free mutex |
| `Mutex.MutexObject.LockBy` | kernel/mutex.c:119-166 | does what locking says, answer and new state, and keeps the invariant |
| `Mutex.MutexObject.WaitTimesOut` | kernel/mutex.c:164-176 | does what a timed-out wait says |
| `Mutex.MutexObject.ResumeLate` | kernel/mutex.c:176-199 | tells whether there was an owner, and if so does what resuming says, with the owner left at the fair priority exactly when that is possible |
| `Mutex.MutexObject.UnlockBy` | kernel/mutex.c:212-283 | does what unlocking says, answer and new state, keeps the invariant, and leaves a late thread without an owner exactly in the one case |
| `MessageQueue.PutKeepsInv` | kernel/msg_q.c:116-160 | a put keeps: received then queued messages are the accepted ones, and waiting is only for cause; a direct hand-off overtakes nothing |
| `MessageQueue.GetKeepsInv` | kernel/msg_q.c:192-242 | a get keeps the same, also when it lets a waiting writer in |
| `MessageQueue.TimeOutKeepsInv` | kernel/msg_q.c:151-155 | a wait that times out keeps the same |
| `MessageQueue.PutAnswers` | kernel/msg_q.c:116-160 | 0 exactly when there is room, -ENOMSG exactly at a full queue without waiting; the message goes to the best waiting reader, whose wait ends with it, or to the back of the queue, and otherwise the caller waits behind everyone it does not beat |
| `MessageQueue.GetAnswers` | kernel/msg_q.c:192-242 | 0 with the oldest message exactly when there is one, -ENOMSG exactly at an empty queue without waiting; the best waiting writer's message then goes to the back |
| `MessageQueue.EndsOfWaits` | kernel/msg_q.c:151-305 | a purge ends every wait with -ENOMSG and a timeout one with -EAGAIN, and neither hands over a message |
| `MessageQueue.RunKeepsInv` | kernel/msg_q.c:116-305 | it holds after every run of puts, gets, timeouts and purges |
| `MessageQueue.FirstInFirstOut` | kernel/msg_q.c:116-305 | over every run the messages that callers were given since the last purge, by their own calls or at the end of a wait, followed by the queued ones are those taken from callers, in order |
| `MessageQueue.CapacityMatters` | kernel/msg_q.c:125-155 | readers and writers never wait together in any run exactly when the queue holds at least one message |
| `MessageQueueObject.SlotsPut` | kernel/msg_q.c:138-145 | writing the slot behind the last message adds it at the end, going round the buffer |
| `MessageQueueObject.MsgQueue.constructor` | kernel/msg_q.c:49-66 | an empty queue over its buffer |
| `MessageQueueObject.MsgQueue.Store` | kernel/msg_q.c:138-145 | the copy at the write pointer and its advance append the message |
| `MessageQueueObject.MsgQueue.Fetch` | kernel/msg_q.c:203-209 | the copy at the read pointer and its advance take the first message off |
| `MessageQueueObject.MsgQueue.PutCall` | kernel/msg_q.c:116-160 | does what a put says, answer and new state, and keeps the invariant |
| `MessageQueueObject.MsgQueue.GetCall` | kernel/msg_q.c:192-242 | does what a get says, answer, message and new state |
| `MessageQueueObject.MsgQueue.Peek` | kernel/msg_q.c:256-275 | the first message or none, and nothing changes |
| `MessageQueueObject.MsgQueue.PurgeAll` | kernel/msg_q.c:288-305 | everyone waiting is sent away and the queue is empty |
| `DeviceHandles.Lighter` | scripts/gen_handles.py:265-274 | replacing a node by lower ones makes the worklist smaller, read as a binary number |
| `DeviceHandles.Equivalent` | scripts/gen_handles.py:254-275 | what the worklist gathers is what paths through unused nodes other than the root reach |
| `DeviceHandles.Induce` | scripts/gen_handles.py:260-275 | for any pop order the worklist ends with exactly the used nodes reached from the start through unused nodes |
| `DeviceHandles.InduceAll` | scripts/gen_handles.py:260-275 | the same for every used node |
| `SyscallMarshalling.WrapperDefs` | scripts/gen_syscalls.py:154-194 | for any list of split types the wrapper's loop lays out the words as specified, and never invokes with more than six |
| `SyscallMarshalling.MarshallDefs` | scripts/gen_syscalls.py:230-296 | for any list of split types the marshaller's loops read the words as specified |
| `SyscallMarshalling.PlacedAll` | scripts/gen_syscalls.py:158-247 | the word or pair the marshaller notes for an argument is the one the wrapper wrote for it |
| `SyscallMarshalling.WordsCounted` | scripts/gen_syscalls.py:145-194 | every argument takes one word, and one more exactly if its type is a wide one and registers are not; so does a wide result |
| `SyscallMarshalling.SpillRead` | scripts/gen_syscalls.py:185-228 | a word beyond the fifth is found in the array exactly when there are more than six |
| `SyscallMarshalling.CheckIsComplete` | scripts/gen_syscalls.py:224-296 | the emitted access check covers every word of the array that the marshaller reads exactly when there is no array; it stops one word short |
| `SyscallMarshalling.RoundTrip` | scripts/gen_syscalls.py:145-296 | for every argument list and every list of split types the values passed on are the values given, and the address of a 64-bit result is found where it was put |

## Left out

- LoRaVisualGraphs: plotting, a database connection and a window; no law to prove.
- Doubly linked lists and red-black trees are sequences; list pointers and tree shape are not modelled.
- PriorityQueues.TreeAgreesExactly: histories with more than 2^32 threads queued at once.
- PriorityQueues.MultiQueue.Best: the 32-bit mask is held as the set of its one-bits, so the count-trailing-zeros instruction is "least element".
- Symmetric multiprocessing, inter-processor interrupts, the ABORTING and DUMMY thread states, meta-IRQ priorities, CPU masks, deadlines, time slicing and non-atomic swap in the scheduler.
- Scheduler.SetPrioInv: asks that a ready thread is queued, which `Scheduler.ChangePrioExact` shows to be exact; runs make no other change.
- SchedulerObject.Kernel.TickSleep: the ticks that were left when the thread is woken early are not returned.
- Scheduler.PendInv: undoing the scheduler lock, waiting and switching are one step, as they are with interrupts off.
- Asynchronous pipe messages, and the pipe calls' check for a missing out-pointer.
- PipeRuns.ExpireKeepsInv: a wait that expires while another call copies with the scheduler locked is taken to expire right after that call; the copy goes on to or from its request all the same, and it runs only afterwards.
- PipeRuns.Run: the same.
- Timeouts.DoDeadline: a timeout that is already linked is not added, as the source asserts; ticks are unbounded integers.
- Timeouts.Batching: handlers do not look at how much of the announcement is left, and no ticks elapse while it runs.
- TimeoutObject.Timer.Stop: the stop function and the release of a thread that waits on the timer are not modelled.
- Threads that wait on a timer, and the clock driver that the timeout queue programs.
- Work.RunKeepsInv: delayable items, the wait queues of draining callers and the yield between items are not modelled; a queue's flags are.
- WorkObject.WorkSystem.DrainQueue: a queue counts as busy until its handler has returned, not until the later locked region that clears the flag.
- Mutex.RunKeepsInv: one mutex; priorities change only through it.
- MessageQueueObject.MsgQueue.constructor: allocation, its overflow check and clean-up are not modelled.
- Memory access checks on both sides of a system call, apart from how many words of the array are covered, and the emitted text around the words.
- DeviceHandles.Induce: nodes carry the devicetree's dependency ordinals, so every acyclic graph is covered through its numbering; the padding of the emitted arrays is not modelled.
- Heaps, memory domains, page tables, semaphores, stacks, condition variables, futexes, polling and mailboxes: easier members of the same family, or code that rests on parts not modelled here.
