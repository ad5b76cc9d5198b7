# Verified model of the native concurrency primitives

The repository builds a thread pool, two bounded channels, threads, a mutex with a condition
variable, a once cell and a wait group on OS mutexes and condition variables. What they promise
holds only over all interleavings of many threads. This project models each one twice:

- as a **class** that works in place on the native fields (`PoolCore`, `BytesCore`, `BoxCore`,
  `ThreadCore`, `MutexCore`, `OnceCore`, `WaitGroupCore`, and the `Ring` they share), one method per
  critical section, proved against a function of the abstract core;
- as a **protocol** over that same function: a state machine with any number of threads and handles,
  an invariant that every step keeps, and theorems about every reachable state of every run.

What each call answers is stated apart from the tests that the code makes: against a sequential model
(a bounded queue for the pool and both channels), against the lifecycle phase, or against the history
of the run (how the initializer ended, which deltas were stored, who has closed). A blocking call is
the non-blocking one, except that it sleeps exactly where the model finds no room, or nothing to receive.

## How the protocols are modelled

- A critical section (lock to unlock, or lock to wait) is one step. What happens outside the lock is
  a step of its own: calling a task, copying a payload, dropping a reference, entering and leaving
  the OS join. A finalizer is therefore two steps, its locked part and its release.
- A condition wait is a step that falls asleep and a later step that tests again. Spurious wake-ups
  are always possible. A signal wakes one sleeper chosen by the environment, a broadcast wakes all.
- OS failures that the code reports are steps or parameters like any other. A failed signal,
  broadcast or wait, or a failed lock in the middle of an operation, sets `faulted`. Ownership,
  ordering and free-once theorems hold with faults; the wake-up and progress theorems are about runs
  without them. Failures on which the code aborts end the run.
- Threads, calls and handles are entries of finite maps, so their number is unbounded. Interleaving
  is sequentially consistent. A call holds its handle open, and a handle is finalized when no call
  uses it. A worker makes calls only from the task it runs.
- Each state carries its history (`book`, `log`, `applied`): which tasks, messages and boxes were
  accepted, taken, called and released, and what each submit and send returned. The code does not keep
  it; the theorems are about it.

| module | content |
|---|---|
| `Threads`, `Rings`, `Endpoints` | counting threads by program counter, the ring buffer, channel handles |
| `PoolCores`, `Pools`, `PoolInvariants`, `PoolTasks`, `PoolProofs`, `PoolTheorems`, `PoolAnswers` | thread pool |
| `BytesCores`, `BytesChannels`, `BytesInvariants`, `BytesBooks`, `BytesProofs`, `BytesTheorems`, `BytesAnswers`, `BytesConservation` | owned-bytes channel |
| `ThreadCores`, `Lifecycles`, `LifecycleProofs`, `LifecycleAnswers` | thread lifecycle |
| `BoxCores`, `BoxChannels`, `BoxProofs`, `BoxAnswers` | generic channel |
| `Condvars`, `Onces`, `WaitGroups` | condition-variable ownership test, once, wait group |

## Where the code gives less than one might expect

- **Owned-bytes channel, writable side.** A receive signals one sleeping sender. That sender's message
  may still not fit while another, which would fit, sleeps on, and then nobody is awake.
  `BytesConservation.ConservingIffAmple` proves that this can happen exactly when
  `capacity * max_message_bytes > max_queued_bytes`. What the code always gives, under the limits that
  the wrapper admits, is that a sleeping sender is never left alone with an empty queue
  (`BytesTheorems.SendersProgress`), and `BytesTheorems.ProgressIffLimitsValidated` proves that the
  wrapper's check is exactly what this needs.
- **Wait group.** `add` returns 0 with a nonzero status when the broadcast or the unlock fails, after
  the count has been stored. `WaitGroups.RejectedAddUnchanged` gives the exact condition.
- **Condition variable.** A thread that passes the ownership test always holds the mutex. A holder can
  fail it in two ways, both its own: its last unlock reported an error, after the record had been
  cleared (`Condvars.UnlockErrorBreaksGuard`), or a wait of its own reported an error after it had
  released the mutex, which POSIX does not allow (`Condvars.LateErrorBreaksGuard`).
  `Condvars.GuardIsExact` proves that there is no third way.

- **Once.** A begin whose unlock fails on a fresh once, and a complete or poison whose lock fails, leave
  the once in progress with nobody at work (`Onces.ErrorStrands`). No initializer runs and no call
  returns normally after that, in any continuation (`Onces.StrandedForever`).
- **Thread.** Joining or detaching a thread that was never started, or could not be, is reported as
  already joined (`LifecycleAnswers.JoinAnswers`, `LifecycleAnswers.DetachAnswers`).

## Model

| member | source | states |
|---|---|---|
| `Rings.Ring.constructor` | src/unsafe/thread_pool/native.c:211-222 | a new ring is empty and all its slots are NULL |
| `Rings.Ring.Put` | src/unsafe/thread_pool/native.c:359-361 | appends at the end of the abstract sequence; the non-NULL slots stay exactly the live window |
| `Rings.Ring.Take` | src/unsafe/thread_pool/native.c:173-176 | removes the oldest element and clears its slot |
| `Rings.Ring.Leftovers` | src/unsafe/thread_pool/native.c:91-94 | the release loop visits every live element once, oldest first |
| `Rings.Ring.Sweep` | src/channel/native.c:97-99 | the release loop over all slots, NULL ones skipped, visits exactly the live elements, each once |
| `Rings.Ring.SweepIsContents` | src/channel/native.c:93-105 | the non-NULL slots in slot order are a permutation of the queue, also when the window wraps |
| `PoolCores.PoolCore.constructor` | src/unsafe/thread_pool/native.c:211-222 | the fields of a new core: open, no worker yet, one handle |
| `PoolCores.PoolCore.Submit` | src/unsafe/thread_pool/native.c:336-363 | a pass on the ring waits if and only if it is blocking, not on a worker, and the model's queue is open and full; otherwise it returns the native code of the model's answer and leaves the model's queue |
| `PoolCores.SubmitMatchesModel` | src/unsafe/thread_pool/native.c:336-363 | the tests of submit come out as a bounded queue demands, blocking or not, on a worker or not |
| `PoolCores.SubmitDecodingExact` | src/unsafe/thread_pool/thread_pool.mbt:63-90 | a submit that returns is decoded to what the model says, although each decoder folds the codes it does not name into closed; would-deadlock is told only to a worker |
| `PoolCores.PoolCore.Fetch` | src/unsafe/thread_pool/native.c:164-176 | a worker pass sleeps on an open empty queue, leaves a closed empty one counting itself off, and otherwise takes the oldest task |
| `PoolCores.PoolCore.Close` | src/unsafe/thread_pool/native.c:103-113 | stops accepting and changes nothing else |
| `PoolCores.PoolCore.DropHandle` | src/unsafe/thread_pool/native.c:130-141 | counts a handle off, closes with the last one, aborts only on an exhausted count |
| `PoolCores.PoolCore.ShareHandle` | src/unsafe/thread_pool/native.c:299-314 | refuses at INT32_MAX and otherwise counts one more handle |
| `PoolProofs.CreateHolds` | src/unsafe/thread_pool/native.c:198-222 | the invariant holds of a new pool for all admitted arguments |
| `PoolProofs.StepKeeps` | src/unsafe/thread_pool/native.c:87-425 | every step of constructor, workers, calls and handles keeps the whole invariant: counters, closing, task ownership, wake-ups |
| `PoolProofs.RunKeeps` | src/unsafe/thread_pool/native.c:87-425 | so does every run |
| `PoolTheorems.WorkConservation` | src/unsafe/thread_pool/native.c:162-182 | a sleeping worker means that the workers about to fetch are at least as many as the queued tasks; a sleeping submitter means that the woken submitters are at least as many as the free slots; after a close neither sleeps |
| `PoolTheorems.StopIsNoticed` | src/unsafe/thread_pool/native.c:167-171 | nobody sleeps on `stopped` once no worker is live, faults or not |
| `PoolTheorems.ShutdownDrains` | src/unsafe/thread_pool/native.c:394-425 | in whatever step a call of shutdown goes away without an OS error, no worker is live, the queue is empty, the pool is closed, every accepted task was called once and released once in FIFO order, every refused one was never called and released once |
| `PoolTheorems.ReturnsWhenStopped` | src/unsafe/thread_pool/native.c:416-424 | a shutdown can return without an OS error only in its own test of the workers, when none is live |
| `PoolTheorems.TaskPlaced` | src/unsafe/thread_pool/native.c:317-369 | every task ever submitted is in exactly one place: with one waiting submit, queued once, with one worker, or released once |
| `PoolTheorems.TaskOnce` | src/unsafe/thread_pool/native.c:173-181 | no task is accepted or called twice, none is released while it runs, an accepted one only after its call, and accepted tasks are the taken ones followed by the queue |
| `PoolTheorems.ZeroMeansAccepted` | src/unsafe/thread_pool/native.c:353-369 | a submit returns once, and returns 0 if and only if its task was accepted; any other result means never called and released once |
| `PoolTheorems.FreedDrained` | src/unsafe/thread_pool/native.c:127-144 | however the pool was closed, the last handle's drop included, once the core is freed every accepted task has been called once and every task released once |
| `PoolTheorems.ClosedIsFinal` | src/unsafe/thread_pool/native.c:353-363 | no step reopens a closed pool or lets it accept a task |
| `PoolTheorems.ClosedForever` | src/unsafe/thread_pool/native.c:353-363 | nor does any run |
| `PoolTheorems.FreedOnce` | src/unsafe/thread_pool/native.c:87-101 | `refs` is the unreleased workers, handles and constructor references; the core is freed at most once, exactly when they are gone, with an empty queue, and no step is possible afterwards |
| `PoolTheorems.NoAccessAfterFree` | src/unsafe/thread_pool/native.c:254-293 | any step that can happen finds the core not freed, rollback after a failed worker creation included |
| `PoolInvariants.EmptyWhenUnreferenced` | src/unsafe/thread_pool/native.c:91-94 | without references the queue is empty, so the leftover-task loop never iterates |
| `PoolTheorems.FinalizerCountsDown` | src/unsafe/thread_pool/native.c:131-135 | the finalizer never meets an exhausted handle count |
| `PoolTheorems.NoSelfDeadlock` | src/unsafe/thread_pool/native.c:336-352 | no worker ever sleeps on `not_full` or `stopped` of its own pool |
| `PoolTheorems.WorkFalls` | src/unsafe/thread_pool/native.c:162-184 | after a close every worker step lowers a measure of queue and workers, and no other step raises it |
| `PoolTheorems.BoundedWork` | src/unsafe/thread_pool/native.c:162-184 | a closed pool takes at most that many more worker steps in any run |
| `PoolTheorems.NextWorkerStep` | src/unsafe/thread_pool/native.c:162-184 | while a worker of a closed pool is live, one can step without being woken and without fault |
| `PoolTheorems.ShutdownCanFinish` | src/unsafe/thread_pool/native.c:405-424 | from every closed state there is a run of worker steps alone, no longer than the measure, that stops all workers and empties the queue, if tasks return |
| `PoolTheorems.EmptyWhenStopped` | src/unsafe/thread_pool/native.c:416-424 | a closed pool without live workers has an empty queue |
| `PoolTheorems.NoWorkLeft` | src/unsafe/thread_pool/native.c:416-424 | when the measure is used up no worker is live and the queue is empty |
| `PoolAnswers.CreateAnswers` | src/unsafe/thread_pool/native.c:198-222 | a pool is created for exactly 1 to 64 workers and 1 to 16384 slots, open and empty |
| `PoolAnswers.SubmitAnswers` | src/unsafe/thread_pool/native.c:317-369 | in every reachable state a submit sleeps if and only if it is blocking, not on a worker and the queue is open and full; otherwise it returns at once, logged with the code of the model's answer, and the queue is the model's |
| `PoolAnswers.RetryAnswers` | src/unsafe/thread_pool/native.c:344-369 | the same for a submit that had slept |
| `PoolAnswers.SubmitErrorAnswers` | src/unsafe/thread_pool/native.c:327-352 | with an OS error a submit returns 2 and queues nothing |
| `PoolAnswers.OnlyBlockingWait` | src/unsafe/thread_pool/native.c:344-352 | only blocking calls of threads outside the pool ever sleep |
| `PoolAnswers.WorkerAnswers` | src/unsafe/thread_pool/native.c:162-178 | a worker takes the oldest task, sleeps on an open empty queue, leaves a closed empty one |
| `PoolAnswers.TaskAnswers` | src/unsafe/thread_pool/native.c:180-181 | what was taken can be called, and is released when its call returns |
| `PoolAnswers.OpenUntilClosed` | src/unsafe/thread_pool/native.c:127-144 | a pool is open if and only if nobody has closed it and a handle is open |
| `PoolAnswers.CloseAnswers` | src/unsafe/thread_pool/native.c:387-408 | close and an outside shutdown close the pool and keep the queue; a worker's shutdown changes nothing |
| `PoolAnswers.CheckAnswers` | src/unsafe/thread_pool/native.c:416-424 | the test of shutdown ends the call if and only if no worker is live, and otherwise sends it to sleep |
| `PoolAnswers.ConstructorAnswers` | src/unsafe/thread_pool/native.c:254-293 | a returned pool has all its workers; one that was given up has stopped them all, and the rollback waits exactly while one is live |
| `PoolAnswers.ShareAnswers` | src/unsafe/thread_pool/native.c:295-315 | share adds an open handle unless INT32_MAX are open |
| `PoolAnswers.FaultsComeFromOs` | src/unsafe/thread_pool/native.c:103-113 | a run is faulty only after an OS call that failed |
| `PoolAnswers.CallsMayStart` | src/unsafe/thread_pool/native.c:371-425 | whoever has an open handle can submit and shut down |
| `PoolAnswers.CallGoesOn` | src/unsafe/thread_pool/native.c:344-363 | a call that is awake has a next step without an OS error |
| `BytesCores.BytesCore.constructor` | src/channel/native.c:143-185 | the fields of a new channel: empty, one sender, no receiver yet |
| `BytesCores.BytesCore.Test` | src/channel/native.c:237-268 | one pass of submit on the ring sleeps if and only if it is blocking and the sequential model finds no room, in slots or in bytes; otherwise its code decodes to the model's answer |
| `BytesCores.SendMatchesModel` | src/channel/native.c:237-268 | the same of the tests, with the exact native code |
| `BytesCores.RecvMatchesModel` | src/channel/native.c:330-343 | a receive sleeps if and only if it is blocking and the model finds an open empty queue; otherwise it answers as the model |
| `BytesCores.BytesCore.Push` | src/channel/native.c:277-283 | the ring and the byte counter refine appending to the queue; the counter stays the sum of the lengths and within its budget |
| `BytesCores.BytesCore.TrySend` | src/channel/owned_bytes_property_test.mbt:50-106 | the non-blocking submit with its retry loop gives the result and the queue of the property test's sequential model, in two passes and one copy at most, none for an oversized message |
| `BytesCores.BytesCore.Pop` | src/channel/native.c:330-352 | a blocking or non-blocking pass of receive on the ring gives the model's answer and queue, except that the blocking one sleeps where the model says empty; the byte subtraction never goes negative |
| `BytesCores.BytesCore.CloseSender` | src/channel/native.c:303-316 | closes and changes nothing else |
| `BytesCores.BytesCore.CloseReceiver` | src/channel/native.c:371-385 | closes and marks the receiver gone |
| `BytesCores.BytesCore.DropSender` | src/channel/native.c:107-129 | counts a sender off and closes with the last one |
| `BytesCores.BytesCore.DropReceiver` | src/channel/native.c:107-129 | closes when the receiver was still alive |
| `BytesCores.TotalPush` | src/channel/native.c:280-280 | the byte total after an enqueue |
| `BytesCores.QueuedIsTotal` | src/channel/owned_bytes_property_test.mbt:50-106 | the byte sum of the sequential model is the counter of the core |
| `BytesProofs.CreateHolds` | src/channel/native.c:143-185 | the invariant holds of a new channel |
| `BytesProofs.FullMeansQueued` | src/channel/owned_bytes_channel.mbt:54-56 | with `max_message_bytes <= max_queued_bytes`, a message that finds no room finds something queued |
| `BytesProofs.StepKeeps` | src/channel/native.c:93-385 | every step of senders, receivers and handles keeps the whole invariant: budgets, counters, copies, order, results, wake-ups |
| `BytesProofs.RunKeeps` | src/channel/native.c:93-385 | so does every run |
| `BytesTheorems.RunGoesOnward` | src/channel/native.c:303-316 | in every run the limits stay fixed and `closed` never reverts |
| `BytesTheorems.Fifo` | src/channel/native.c:277-352 | accepted messages are the received ones followed by the queued ones, byte for byte; both budgets are respected and the byte counter is the sum of the queued lengths |
| `BytesTheorems.ProgramOrder` | src/channel/native.c:277-283 | accepted messages of one thread keep the order of its sends |
| `BytesTheorems.SentIffAccepted` | src/channel/native.c:277-284 | a send returned 0 if and only if its message was accepted, once, with the bytes it was given |
| `BytesTheorems.EndMeansDrained` | src/channel/native.c:330-343 | receive reports closed only when the channel is closed and every accepted message has been received |
| `BytesTheorems.SendOutcome` | src/channel/native.c:217-285 | a send makes two passes and one copy at most, no copy of an oversized message, reports too large only for one, and if blocking never reports full or byte limit |
| `BytesTheorems.SendDecodingExact` | src/channel/owned_bytes_channel.mbt:139-143 | hence the decoding of `send_checked` loses nothing against that of `try_send` |
| `BytesTheorems.CopiesFreedOnce` | src/channel/native.c:54-105 | every native copy ever made is in exactly one slot, held by exactly one call, or freed exactly once, in every state of every run, faults included; on a freed core all are freed |
| `BytesTheorems.OnlyCopiesFreed` | src/channel/native.c:54-75 | nothing that was not copied is queued, held or freed |
| `BytesTheorems.EndpointLifetime` | src/channel/native.c:93-129 | `senders` counts the sender handles not yet finalized; no sender or a gone receiver implies closed; the core is freed once, exactly with the last handle; no step follows; nobody sleeps on a closed channel |
| `BytesTheorems.NoAccessAfterFree` | src/channel/native.c:93-105 | any step that can happen finds the core not freed |
| `BytesTheorems.SendersProgress` | src/channel/native.c:231-284 | a sleeping sender implies a nonempty queue or a sender on its way to test again |
| `BytesTheorems.ReadersProgress` | src/channel/native.c:318-353 | a sleeping receiver implies that the woken receivers are at least as many as the queued messages |
| `BytesTheorems.NeverAllAsleep` | src/channel/native.c:231-353 | a sleeping sender and a sleeping receiver never coexist with everybody asleep |
| `BytesTheorems.ProgressIffLimitsValidated` | src/channel/owned_bytes_channel.mbt:54-56 | no sender can ever be stuck if and only if `max_message_bytes <= max_queued_bytes` |
| `BytesTheorems.WrapperRejectsStuckLimits` | src/channel/owned_bytes_channel.mbt:45-56 | among positive limits the wrapper rejects exactly those under which a sender can be stuck |
| `BytesTheorems.StuckState` | src/channel/native.c:237-253 | for all other limits, a run that leaves a sender asleep on an empty queue |
| `BytesAnswers.SendStartAnswers` | src/channel/native.c:231-275 | in every reachable state a new send sleeps, goes off to copy, or returns and is logged, as the model says of the channel at that moment |
| `BytesAnswers.SendRecheckAnswers` | src/channel/native.c:242-284 | so does a woken send, with or without its copy; with room its message is accepted with these bytes, a refusal frees the copy |
| `BytesAnswers.SendLockAnswers` | src/channel/native.c:231-284 | so does a send that comes back with its copy |
| `BytesAnswers.SendOtherAnswers` | src/channel/native.c:246-253 | errors are reported as closed and queue nothing |
| `BytesAnswers.RecvAnswers` | src/channel/native.c:318-353 | in every reachable state a receive hands out the oldest message, or reports empty or the end, as the model says; a blocking one never reports empty and sleeps exactly there |
| `BytesAnswers.RecvOtherAnswers` | src/channel/native.c:330-352 | the message taken is handed over and its copy freed; an error takes nothing |
| `BytesAnswers.OpenUntilClosed` | src/channel/native.c:107-129 | a channel is closed if and only if somebody has closed it, no sender is left, or the receiver is gone |
| `BytesAnswers.CloseAnswers` | src/channel/native.c:303-316 | close closes and keeps the queue |
| `BytesAnswers.HandleAnswers` | src/channel/native.c:187-215 | share and receiver add one open handle and keep the queue |
| `BytesAnswers.ClosedForever` | src/channel/native.c:254-258 | in every run, nothing is accepted after a close, and what was received stays received |
| `BytesAnswers.EndIsFinal` | src/channel/native.c:339-343 | once any receive has reported the end, everything accepted has been received, and nothing more is accepted or received in any continuation |
| `BytesAnswers.LimitsAnswers` | src/channel/owned_bytes_channel.mbt:45-56 | which limits are rejected, and with which error |
| `BytesAnswers.FaultsComeFromOs` | src/channel/native.c:277-284 | a run is faulty only after an OS call that failed |
| `BytesAnswers.CallsMayStart` | src/channel/native.c:287-369 | whoever has an open handle can send, or receive |
| `BytesAnswers.CallGoesOn` | src/channel/native.c:231-353 | a call that is awake has a next step without an OS error |
| `BytesConservation.ConservingIffAmple` | src/channel/native.c:231-353 | whenever a sleeping sender's message fits somebody awake is going to test again, in every run, if and only if `capacity * max_message_bytes <= max_queued_bytes` |
| `BytesConservation.WritersConserved` | src/channel/native.c:231-353 | under such limits, sleeping senders mean that the senders on their way are at least as many as the free slots |
| `BytesConservation.SlotSuffices` | src/channel/native.c:77-82 | under such limits a free slot always comes with the bytes for any admitted message |
| `BytesConservation.WastedSlot` | src/channel/native.c:344-352 | for all other limits, a run that leaves everybody asleep although one of the sleeping messages fits |
| `ThreadCores.ThreadCore.constructor` | src/unsafe/thread/native.c:107-118 | the fields of a new thread |
| `ThreadCores.ThreadCore.BeginJoin` | src/unsafe/thread/native.c:218-256 | the status of each refusal in the order of the tests; JOINING exactly when the join goes on to the OS |
| `ThreadCores.ThreadCore.CommitJoin` | src/unsafe/thread/native.c:283-293 | takes result and task out of the core and marks it joined |
| `ThreadCores.ThreadCore.BeginDetach` | src/unsafe/thread/native.c:296-317 | the status of each refusal; DETACHING exactly when the detach goes on to the OS |
| `ThreadCores.ThreadCore.CommitDetach` | src/unsafe/thread/native.c:343-353 | marks the thread detached and takes the task only from a finished one |
| `ThreadCores.ThreadCore.Restore` | src/unsafe/thread/native.c:274-281 | a failed attempt goes back to JOINABLE and changes nothing else |
| `ThreadCores.ThreadCore.Finish` | src/unsafe/thread/native.c:132-141 | marks the thread finished and takes the task only from a detached one |
| `ThreadCores.ThreadCore.Complete` | src/unsafe/thread/native.c:208-216 | keeps the first result box and releases any later one |
| `LifecycleProofs.StepKeeps` | src/unsafe/thread/native.c:64-354 | every step of creator, worker, joins, detaches and finalizer keeps the invariant |
| `LifecycleProofs.RunKeeps` | src/unsafe/thread/native.c:64-354 | so does every run |
| `LifecycleProofs.TaskReleasedOnce` | src/unsafe/thread/native.c:125-206 | the task is released at most once, never while it runs, and exactly once by the time the core is freed |
| `LifecycleProofs.FreedWithoutTask` | src/unsafe/thread/native.c:64-78 | the core is freed at most once, no step follows, and whoever drops the last reference finds the task already released |
| `LifecycleProofs.NoAccessAfterFree` | src/unsafe/thread/native.c:64-78 | any step that can happen finds the core not freed |
| `LifecycleProofs.DropFindsNoTask` | src/unsafe/thread/native.c:64-78 | the step that drops the last reference finds a NULL task |
| `LifecycleProofs.OneJoinOrDetach` | src/unsafe/thread/native.c:218-354 | one join or detach at most ever succeeds, one at most is with the OS, a successful join implies a finished worker, a joinable thread still owns its task |
| `LifecycleProofs.FailedAttemptRestores` | src/unsafe/thread/native.c:274-281 | after a failed OS join or detach the thread is joinable with task and result intact and no attempt in flight |
| `LifecycleProofs.BoxReleasedOnce` | src/unsafe/thread/native.c:208-216 | a result box is stored, handed out, or released once; after a successful join the one handed out is the first completed; a core freed without a join has released every box |
| `LifecycleProofs.JoinReturnsFirst` | src/unsafe/thread/native.c:283-293 | what a successful join returns is the box of the first completion |
| `LifecycleAnswers.StartedIff` | src/unsafe/thread/native.c:201-205 | a thread counts as started if and only if it is neither new nor failed; a finished start has failed if and only if there is no worker |
| `LifecycleAnswers.JoinAnswers` | src/unsafe/thread/native.c:218-256 | a join goes on to the OS if and only if the thread is joinable, the caller is not its worker and no error is injected, else it changes nothing; the wrapper's exception names the phase |
| `LifecycleAnswers.DetachAnswers` | src/unsafe/thread/native.c:296-317 | a detach goes on to the OS if and only if the thread is joinable; the wrapper's exception names the phase |
| `LifecycleAnswers.FinalizeAnswers` | src/unsafe/thread/native.c:80-96 | dropping the handle aborts if and only if no join or detach has succeeded and the start did not fail |
| `LifecycleAnswers.JoinCanFinish` | src/unsafe/thread/native.c:218-294 | from every reachable joinable state with nobody else at it there is a run in which the join succeeds and returns the first completed box |
| `LifecycleAnswers.DetachCanFinish` | src/unsafe/thread/native.c:296-354 | and one in which a detach succeeds |
| `BoxCores.BoxCore.constructor` | src/unsafe/channel/native.c:92-126 | the fields of a new channel |
| `BoxCores.BoxCore.TrySend` | src/unsafe/channel/native.c:158-192 | result 2, 1 or 0 as a bounded queue is closed, full or has room; the queue afterwards is the model's; NULL is returned exactly with 0, otherwise the box |
| `BoxCores.SendMatchesModel` | src/unsafe/channel/native.c:175-227 | a send sleeps if and only if it is blocking and the model's queue is full; otherwise code and returned pointer are the model's |
| `BoxCores.RecvMatchesModel` | src/unsafe/channel/native.c:253-266 | a receive sleeps if and only if it is blocking and the model's queue is open and empty; otherwise it answers as the model |
| `BoxCores.BoxCore.SendPass` | src/unsafe/channel/native.c:194-227 | a pass of the blocking send waits exactly where the model says full, and otherwise returns the model's result, queue and pointer |
| `BoxCores.BoxCore.Pop` | src/unsafe/channel/native.c:241-275 | a pass of receive gives the model's answer and queue, except that a blocking one sleeps where the model says empty |
| `BoxProofs.StepKeeps` | src/unsafe/channel/native.c:42-304 | every step keeps the invariant |
| `BoxProofs.RunKeeps` | src/unsafe/channel/native.c:42-304 | so does every run |
| `BoxProofs.BoxOwnership` | src/unsafe/channel/native.c:158-275 | every box ever offered is in exactly one place, counted over the calls, the slots, the sends that gave it back, the receives and the releases; on a freed core it is in no call and no slot |
| `BoxProofs.NullMeansEntered` | src/unsafe/channel/native.c:158-227 | a send returns once: NULL with result 0 if and only if its box entered the ring, otherwise that same box with 1 or 2 |
| `BoxProofs.Fifo` | src/unsafe/channel/native.c:241-275 | accepted boxes are the received ones followed by the queued ones, and none is accepted twice |
| `BoxProofs.WorkConservation` | src/unsafe/channel/native.c:194-275 | sleeping senders imply as many woken ones as free slots, sleeping receivers as many woken ones as queued boxes, and an open channel |
| `BoxProofs.FreedOnce` | src/unsafe/channel/native.c:42-80 | the core is freed at most once and no step follows |
| `BoxAnswers.SendAnswers` | src/unsafe/channel/native.c:158-227 | in every reachable state a send, new or woken, sleeps if and only if it is blocking and the open queue is full; otherwise it is logged with the model's code and pointer, and the queue is the model's |
| `BoxAnswers.OtherAnswers` | src/unsafe/channel/native.c:166-174 | errors hand the box back with 2 and queue nothing |
| `BoxAnswers.RecvAnswers` | src/unsafe/channel/native.c:241-275 | in every reachable state a receive answers as the model, and a blocking one sleeps exactly where the model says empty |
| `BoxAnswers.OpenUntilClosed` | src/unsafe/channel/native.c:58-80 | a channel is closed if and only if somebody has closed it, no sender is left, or the receiver is gone |
| `BoxAnswers.CloseAnswers` | src/unsafe/channel/native.c:229-239 | close closes and keeps the queue |
| `BoxAnswers.HandleAnswers` | src/unsafe/channel/native.c:128-156 | share and receiver add one open handle and keep the queue |
| `BoxAnswers.ClosedForever` | src/unsafe/channel/native.c:175-179 | in every run, nothing is accepted after a close, which is final |
| `BoxAnswers.EndIsFinal` | src/unsafe/channel/native.c:262-266 | once any receive has reported the end, everything accepted has been received, and nothing more is accepted or received in any continuation |
| `BoxAnswers.FaultsComeFromOs` | src/unsafe/channel/native.c:206-227 | a run is faulty only after an OS call that failed |
| `BoxAnswers.CallsMayStart` | src/unsafe/channel/native.c:158-291 | whoever has an open handle can send, or receive |
| `BoxAnswers.CallGoesOn` | src/unsafe/channel/native.c:194-275 | a call that is awake has a next step without an OS error |
| `Condvars.MutexCore.constructor` | src/unsafe/mutex/native.c:45-62 | a new mutex has no owner |
| `Condvars.MutexCore.Take` | src/unsafe/mutex/native.c:69-81 | after a lock the test passes for the locking thread alone |
| `Condvars.MutexCore.Clear` | src/unsafe/mutex/native.c:83-92 | before an unlock the test passes for nobody |
| `Condvars.MutexCore.MayWait` | src/unsafe/mutex/native.c:143-146 | the guard of wait |
| `Condvars.StepKeeps` | src/unsafe/mutex/native.c:69-153 | every single field write, lock, unlock and wait, failing ones included, keeps the relation between the record, the holder and where each thread stands |
| `Condvars.RunKeeps` | src/unsafe/mutex/native.c:69-153 | so does every run |
| `Condvars.GuardIsExact` | src/unsafe/mutex/native.c:139-153 | a thread not inside a call passes the test only if it holds the mutex, in every run; it passes whenever it holds it unless its own last unlock failed, after which it never passes, or its own last wait failed late |
| `Condvars.GuardIsStable` | src/unsafe/mutex/native.c:144-146 | no step of another thread changes the answer between the two reads |
| `Condvars.WaitReleasesOwnMutex` | src/unsafe/mutex/native.c:139-153 | a wait releases the mutex exactly for a caller that holds it and refuses everybody else, apart from the two kinds of holders of GuardIsExact |
| `Condvars.LockAnswers` | src/unsafe/mutex/native.c:69-81 | a thread outside can lock a free mutex and then holds it |
| `Condvars.LateErrorBreaksGuard` | src/unsafe/mutex/native.c:147-152 | a run in which a wait that failed after releasing the mutex leaves its caller holding it without passing the test |
| `Condvars.UnlockErrorBreaksGuard` | src/unsafe/mutex/native.c:89-91 | a run in which a failed unlock leaves its caller holding the mutex without passing the test |
| `Onces.OnceCore.constructor` | src/unsafe/once/native.c:51-73 | a new once has not begun |
| `Onces.OnceCore.BeginPass` | src/unsafe/once/native.c:94-110 | a pass of begin sleeps during an initializer, starts one exactly on a fresh once, and reports complete or poisoned |
| `Onces.SettleReleases` | src/unsafe/once/native.c:113-147 | a complete or poison finds an initializer that returned or raised, not both; after its broadcast nobody sleeps and no initializer runs, and in every continuation every pass of begin returns if it returned and raises if it raised |
| `Onces.SettleAnswers` | src/unsafe/once/once.mbt:33-46 | an initializer that returned completes the once and its caller returns; one that raised poisons it |
| `Onces.CallOnceAnswers` | src/unsafe/once/once.mbt:25-50 | what a pass does follows from the history: the first starts the initializer, those during it sleep, later ones return if it returned and raise if it raised |
| `Onces.FaultsComeFromOs` | src/unsafe/once/native.c:80-147 | a run is faulty only after an OS call that failed |
| `Onces.CallGoesOn` | src/unsafe/once/native.c:80-125 | a call that is awake has a next step without an OS error |
| `Onces.ErrorStrands` | src/unsafe/once/native.c:103-125 | a failed unlock in the first begin, or a failed lock in complete or poison, leaves the once in progress with nobody at work |
| `Onces.StrandedForever` | src/unsafe/once/native.c:94-111 | from there no initializer starts and no call returns normally in any continuation |
| `Onces.StepKeeps` | src/unsafe/once/native.c:80-147 | every step of every caller keeps the invariant |
| `Onces.RunKeeps` | src/unsafe/once/native.c:80-147 | so does every run |
| `Onces.OnceOnly` | src/unsafe/once/once.mbt:25-50 | the initializer starts at most once and does not both return and raise; a normal return of `call_once` implies that it returned, a poisoned one that it raised; nobody sleeps without an initializer in progress |
| `Onces.Absorbing` | src/unsafe/once/native.c:94-147 | complete and poisoned never change again and no initializer starts afterwards |
| `WaitGroups.WaitGroupCore.constructor` | src/wait_group/native.c:52-78 | a new group has count 0 |
| `WaitGroups.WaitGroupCore.Add` | src/wait_group/native.c:93-114 | result, status cell and count for every delta and every status of lock, broadcast and unlock; the count stays within 0 and INT32_MAX |
| `WaitGroups.InvalidCountUnchanged` | src/wait_group/wait_group.mbt:18-26 | the wrapper reports an invalid count if and only if the delta leaves the range and no OS call failed, and then the count is unchanged; success means the delta was added |
| `WaitGroups.RejectedAddUnchanged` | src/wait_group/native.c:93-114 | an add that reports failure has changed the count if and only if the OS failed after a nonzero delta was stored |
| `WaitGroups.StepKeeps` | src/wait_group/native.c:87-141 | every add and every pass of wait keeps the invariant |
| `WaitGroups.RunKeeps` | src/wait_group/native.c:87-141 | so does every run |
| `WaitGroups.CountIsSum` | src/wait_group/native.c:87-141 | over every run, reuse included, the count is the sum of the stored deltas, and of the deltas reported as added unless the OS failed; it is in range, and nobody sleeps at zero |
| `WaitGroups.AddAnswers` | src/wait_group/native.c:87-115 | an add stores its delta if and only if the lock succeeds and the sum stays in range |
| `WaitGroups.WaitAnswers` | src/wait_group/native.c:133-140 | a pass of wait sleeps if and only if the count is not zero, and can always be made |
| `WaitGroups.WaitSawZero` | src/wait_group/native.c:117-141 | a pass of wait returns 0 if and only if the deltas stored so far cancel out |

## Left out

- `src/unsafe/rwlock` and `src/atomic`: thin wrappers over the OS and over single hardware operations; they would only add easy members.
- `src/internal/native_sync.h` and the Windows branches: mutexes, condition variables and OS threads are the primitives assumed here, with POSIX behaviour.
- The MoonBit runtime: reference counts of closures and boxes appear as ownership and release events.
- Allocation failure, failed initialization of the OS objects, aborts and the fault-injection setters: an abort ends the run, an injected error is one more failing status.
- Wake-ups and progress after an OS failure: an error return can consume a wake-up, so nothing is claimed there. Safety and ownership are claimed.
- Task and callback bodies, waits across pools, recursive locking and re-entrant `call_once`: a task is assumed to return.
- Weak memory: interleaving is sequentially consistent.
- Int32 overflow of `refs` and `senders`: they are integers without bound. The pool's `handles` limit is modelled.
- Getters (`is_closed`, `pending_count`, `worker_count`, `len`, `capacity`, `is_finished`, `thread_id`): they read one field under the lock.
- Handle reference counts of mutex, condition variable, once and wait group: a plain counter with no second protocol.
- The byte numbers inside `MessageTooLarge` and `QueueByteLimitReached`: only which of the results is returned.
- Errors of the final unlock of an operation: where they change nothing but the reported status they are not steps.
- Scripts, facades, benchmarks and tests, apart from the sequential model of `src/channel/owned_bytes_property_test.mbt`.
- PoolTheorems.ShutdownCanFinish: bounds the worker steps and shows that one is always possible; that the OS scheduler takes it is not modelled.
- Onces.OnceOnly: counts an initializer as started when begin decides so, an instant before the callback is entered.
- BytesCores.BytesCore.Pop: matches the sequential model once the receiver handle exists, which is when a receive can happen.
