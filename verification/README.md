# croutine: channels, scheduler and pollers, modelled and proved

croutine runs tasks on a pool of worker threads. One lock, the scheduler mutex, guards the run queue, the
table of descriptor waits, the poller seat and every channel. This project models that core in Dafny and
proves what it is for: values travel through channels in order and exactly once, a select fires once, no
wake-up is lost, a task is in one place at a time, and a stale descriptor event is never taken for a fresh
one.

`dafny verify dfyconfig.toml` checks everything.

## How it is built

Channels come in four layers, each proved against the next.

* `ChannelTypes`, `ChannelSpec`, `ChannelInv`: what send, receive, select, close, destroy and shutdown mean.
  Queues hold live waiters only; a call that is decided leaves every queue at once. `accepted` and
  `delivered` record, per channel, what senders were told was sent and what receivers were given.
* `ChannelCode`: the `_locked` functions on values, as written. A select that fired leaves its other waiters
  linked; they are skipped when popped and removed when the select returns.
* `ChannelRefine`, `ChannelRuns`, `ChannelTheorems`: forgetting dead waiters turns every step of the code
  into the specification's step, for runs of any length with any number of tasks and threads in any order.
  The theorems are about every state such a run can reach. `ChannelOrder` adds that waiting is first come, first
  served; `ChannelLaws` says, for every operation, which channel it may touch and whom it wakes.
* `ChannelHeap`, `ChannelHub`, `ChannelOps`, `ChannelCalls`: the same operations on memory. Waiters are linked
  through their own `prev` and `next`, values lie in a ring, a select shares one state object between its
  waiters, tasks have states. Each operation's contract says that the heap afterwards stands for what
  `ChannelCode` computes. `Hub.s` is the state the heap stands for and `Hub.Valid` says how. `Hub.runnable` lists
  the tasks handed to the run queue: every operation leaves it as it was, followed by the tasks of exactly the
  calls that it woke, each once (`Hub.Handed`), and touches no task that did not sleep on a channel.
* `ChannelProgram`: the public functions of include/croutine/channel.h. Each takes a heap that stands for a
  reachable state (`Running`) to another, one step of a run on (`Leads`), and forgets no object (`Hub.Grown`,
  `Hub.CallAdded`), so calls can follow each other in any order and the theorems about runs hold of the linked
  structures between any two of them. `Hub.locked` is the scheduler mutex: the `_locked` functions need it, and
  every public function starts without it and returns without it, except to a task that sleeps, whose worker gives
  it back (`BackFromTask`). `FromNothing` and `ThroughBuffer` are whole programs that begin at `Start`.

`Scheduler` is the loop of src/worker.c as a step system. A step is one thread's move between two points
where another thread could move. The lock is explicit, because a parking task hands it to the scheduler loop
across a context switch. `SchedulerInv` and `SchedulerSteps` prove one invariant for each of the thirty
steps; `SchedulerTheorems` draws the consequences for every run. `SchedulerLaws` bounds what any step may do to a
task, to a flag and to the queue, and follows a worker's own steps through whatever the others do: to its exit, to
the next task, and back to the queue with a task that yielded.

`Runtime` puts scheduler, channels and wait table together. A thread inside the runtime performs a channel or a
descriptor operation, and the tasks that become runnable are the tasks of the calls that the channels woke, or
those the table gives for the events. `RuntimeInv` proves that the three agree after every step: a task is marked
as waiting on a channel if and only if one call of it sleeps, and as waiting on a descriptor if and only if it is
in the table. From that follows, rather than being assumed, that every wake finds its task asleep, that a
shutdown wakes every channel sleeper and that deinit finds every descriptor sleeper (`RuntimeTheorems`). Each half
of a joint state is reachable in its own step system, so the theorems of both hold of it. `RuntimeQueue` carries
the run queue of a joint state over to the ring in memory: every step pops its front or pushes tasks it does not
hold yet.

`RunQueue`, `IoTable`, `Epoll`, `Kqueue` and `SelectOrder` are the imperative parts around them: the run
queue ring, the table of descriptor waits, the two poller back ends, and the order in which select tries its
cases. `IoSpec` says on values what the table does, for tasks in memory and for tasks in the step system alike;
`PollerAgreement` compares the table with each back end. `Basics` and `Tasks` hold what several of these share.

A few facts that reading the code alone does not give away:

* A channel can be destroyed if and only if it is closed. The header also speaks of refusing a channel with
  waiters; a closed channel never has any, not even dead ones (`ChannelInv.DestroyKeeps`,
  `ChannelTheorems.WaitersAndBuffer`).
* Waking a waiter cannot fail: its task sleeps, and sleeps in that call. The two places that abort the
  process when it does are unreachable (`ChannelHub.Hub.Complete`, `ChannelTheorems.WakeCannotFail`).
* Once exit is requested a worker that is not in task code is gone after at most five steps of its own; while
  there is work it takes a task within ten, and it never takes two in a row without a look at the descriptors
  unless another worker is in the poller (`SchedulerLaws.ExitsWithinFive`, `SchedulerLaws.TakesWorkWithinTen`,
  `SchedulerLaws.LooksBetweenTasks`).
* A blocking send says CLOSED on the spot in exactly three cases: the channel is closed, shutdown was requested,
  or a thread without a task would have to wait. The third happens on open channels
  (`ChannelTheorems.SendSaysClosedIff`, `ChannelTheorems.ClosedYetOpen`). A receive in that position says EMPTY.
* The 32-bit generation that marks stale epoll events is enough for fewer than 2^32 changes of one descriptor
  between collection and delivery, and that bound is exact (`Epoll.OnlyCurrentEventsPass`,
  `Epoll.GenerationWraps`).
* The rollback in the kqueue back end restores the old interest unless undoing the read filter is refused as
  well. After a refused park the kernel may then watch for more than the table asks, never for less
  (`Kqueue.KernelQueue.PollerSet`, `PollerAgreement.MoveKqueue`).
* With epoll, closing a descriptor somebody waits for and forgetting it afterwards aborts the process, unless the
  number was reused in between (`PollerAgreement.CloseThenForget`). docs/API.md asks for the other order.
* Once shutdown was requested nothing is linked to any channel, not even a dead waiter, so deinit may release the
  stacks of queued tasks whose select has not returned (`RuntimeTheorems.EveryTaskReleasedOnce`).

## Model

| member | source | states |
|---|---|---|
| ChannelTheorems.DeliveredInOrder | src/channel.c:193-292 | In every reachable state the values delivered on a channel followed by its buffer are exactly the values accepted, in order; each accepted entry belongs to a sender told SENT, each delivered one to a receiver given that value. |
| ChannelTheorems.MovesAtMostOnce | src/channel.c:163-191 | A call appears at most once in all histories of all channels: one value, one channel, one direction, the ones its answer names. A select never fires twice. |
| ChannelTheorems.AnswerIsTrue | src/channel.c:181-292 | A call moved a value if and only if it was told it sent or received. |
| ChannelTheorems.WaitersAndBuffer | src/channel.c:217-292 | Live receivers wait only on an empty buffer, live senders only on a full one, nobody on a closed channel; both sides wait together only inside one select on an unbuffered channel; the buffer never exceeds its capacity. |
| ChannelTheorems.NoDanglingWaiters | src/channel.c:582-593 | A linked waiter belongs to a call that has not returned, on a channel neither closed nor destroyed; a woken regular call has none linked. |
| ChannelTheorems.WakeCannotFail | src/worker.c:702-719 | The call of a live waiter has a task and no other unfinished call uses that task, so worker_wake_task_locked finds it waiting. |
| ChannelTheorems.AnsweredIffReady | src/channel.c:640-711 | A call is answered on the spot if and only if some case could proceed when it took the lock; it sleeps if and only if none could, it may block, it has a task and it names a channel; otherwise the channels are untouched. |
| ChannelTheorems.SendIsAnswered | src/channel.c:345-399 | What a send or try_send is told on the spot, for every state: CLOSED if closed or shut down, else SENT if a live receiver waits or the buffer has room, else its task sleeps, or without a task or without blocking it is turned away. |
| ChannelTheorems.ReceiveIsAnswered | src/channel.c:401-449 | What a receive or try_recv is told: the oldest buffered value, else the value of the first live sender, else CLOSED if closed or shut down, else sleep or EMPTY. |
| ChannelTheorems.SendSaysClosedIff | src/channel.c:345-367 | A blocking send says CLOSED on the spot if and only if the channel is closed, shutdown was requested, or it has no task, no live receiver waits and the buffer is full. |
| ChannelTheorems.ClosedYetOpen | src/channel.c:361-365 | A blocking send without a task on an open unbuffered channel nobody receives from is told CLOSED. |
| ChannelTheorems.SendWakesFirst | src/channel.c:193-203 | A send that finds receivers waiting wakes the one that has waited longest, with the value, and changes no other call. |
| ChannelTheorems.SendWakesNobody | src/channel.c:256-272 | A send that is refused, or finds nobody waiting, changes no other call. |
| ChannelTheorems.ReceiveWakesFirst | src/channel.c:205-229 | A receive that finds senders waiting wakes the one that has waited longest and tells it SENT; that one's value goes to the end of the buffer from whose front the receiver was served, or straight to the receiver; no other call changes. |
| ChannelTheorems.ReceiveWakesNobody | src/channel.c:274-292 | A receive that finds no sender changes no other call and takes at most the front of the buffer. |
| ChannelOrder.FirstComeFirstServed | src/channel.c:77-106 | In every reachable state the waiters of a queue that can still be chosen are in the order their calls were made, so the one served first is the one with the smallest call number. |
| ChannelLaws.OperateLaw | src/channel.c:519-713 | A send, receive or select of any number of cases touches, of all channels, only that of the case that fires; it wakes the longest waiting partner there, or nobody. |
| ChannelLaws.ChannelLaw | src/channel.c:298-511 | A channel keeps its capacity; it is closed exactly by its close or by shutdown, freed exactly by its destroy once closed; what it holds is changed by calls only. |
| ChannelLaws.OpenLaw | src/channel.c:298-342 | Creating adds one channel, open, empty, of the capacity asked for, and touches nothing else. |
| ChannelTheorems.SendFillsBuffer | src/channel.c:256-272 | A send that finds nobody waiting and room leaves its value at the end of the buffer; without room, and not waiting, it leaves the channel as it was. |
| ChannelTheorems.FirstReadyFires | src/channel.c:640-651 | In the order tried, the first case that can proceed is the one that fires. |
| ChannelTheorems.ShutdownWakesAll | src/channel.c:470-475 | Shutdown tells every sleeping call that its channel closed and changes no other call. |
| ChannelTheorems.NoSleepAfterShutdown | src/worker.c:684-700 | After shutdown no continuation of the run ever has a task asleep on a channel, and in all of them every wait queue of every channel is empty, dead waiters included. |
| ChannelRuns.CodeRefinesSpec | src/channel.c:155-292 | For every sequence of operations, the code allows it if and only if the specification does, and both end in the same state up to dead waiters. |
| ChannelRuns.AnswersAreFinal | src/channel.c:181-191 | Along every run answers never change, returned calls stay as they are, histories only grow, closed stays closed. |
| ChannelRuns.StepWakes | src/channel.c:181-245 | An operation other than a return wakes sleeping calls and changes no other; a call it adds has returned or sleeps, and sleeps only with a task and before shutdown. |
| ChannelRefine.SimTrySend | src/channel.c:256-272 | try_send_locked with dead waiters in the queue does what sending means without them. |
| ChannelRefine.SimTryCase | src/channel.c:519-555 | The same for one case of a select, send or receive, with or without a channel. |
| ChannelRefine.SimTake | src/channel.c:274-282 | Taking from the buffer and refilling it from the first live sender is the specified receive. |
| ChannelRefine.SimDirect | src/channel.c:284-291 | On an empty buffer the first live sender hands over directly; with none, closed or empty is reported as specified. |
| ChannelRefine.SimInvoke | src/channel.c:604-736 | A whole call up to answer or sleep: trying in the given order, the default arm, the task test and parking. |
| ChannelRefine.SimClose | src/channel.c:451-459 | Draining both queues while skipping decided selects tells each sleeping call once. |
| ChannelRefine.SimShutdown | src/channel.c:470-475 | Closing every registered channel, newest first, is the specified shutdown. |
| ChannelRefine.SimFinish | src/channel.c:582-593 | Scrubbing leftover waiters after the wake changes nothing a live call can see. |
| ChannelInv.InvokeKeeps | src/channel.c:604-736 | Every call keeps the channel invariant: links, records, order, capacity, one call per task, nobody asleep after shutdown. |
| ChannelInv.CloseTells | src/channel.c:234-245 | A close tells exactly the parked calls that wait on that channel, through a case that waited there, and no others. |
| ChannelInv.DestroyKeeps | src/channel.c:488-511 | Destroying succeeds if and only if the channel is closed, and keeps the invariant. |
| ChannelCode.DropDead | src/channel.c:163-175 | What remains after dropping decided selects from the front starts with a live waiter, and only dead ones were dropped. |
| ChannelHeap.WaitQueue.PushTail | src/channel.c:77-89 | The doubly linked queue spells the old sequence with the waiter appended. |
| ChannelHeap.WaitQueue.PopHead | src/channel.c:91-106 | The first waiter leaves, unlinked, and the links spell the rest; an empty queue gives nothing. |
| ChannelHeap.WaitQueue.Unlink | src/channel.c:108-123 | A waiter anywhere in the queue leaves and the links spell the sequence without it. |
| ChannelHeap.Channel.BufferPush | src/channel.c:143-147 | The ring holds the old values and then the new one, wrapping by remainder. |
| ChannelHeap.Channel.BufferPop | src/channel.c:149-153 | The ring gives the oldest value and holds the others in order. |
| ChannelHub.Hub.Pop | src/channel.c:91-106 | The heap pop is the pop of the first name; every other queue stays linked. |
| ChannelHub.Hub.PopLive | src/channel.c:163-175 | The loop returns the first waiter whose call sleeps, unlinked, having dropped exactly the dead ones before it. |
| ChannelHub.Hub.Complete | src/channel.c:181-191 | A sleeping call becomes woken with that case, status and value; its task is runnable and is what the run queue is handed; the wake succeeds. |
| ChannelHub.Hub.Push | src/channel.c:77-89 | The heap push appends the waiter's name to its queue and to no other. |
| ChannelHub.Hub.Unlink | src/channel.c:582-593 | A linked waiter's name leaves the one queue that held it, at its position. |
| ChannelHub.Hub.Sleep | src/worker.c:684-700 | The task waits in this call, not yet told anything; a select gets a fresh undecided state. |
| ChannelHub.Hub.NewWaiter | src/channel.c:687-694 | A waiter stands for one case of a sleeping call and is linked nowhere yet. |
| ChannelHub.Hub.Create | src/channel.c:298-342 | A new open, empty channel with queues and ring of its own, first in the registry; every channel, task, call and waiter there was is still the hub's; without memory nothing changes. |
| ChannelHub.Hub.Destroy | src/channel.c:488-511 | Decided by the flag and the two queue heads alone, it is the specified destroy; the registry then lists exactly the channels left. |
| ChannelHub.Hub.SetShutdown | src/worker.c:439-446 | The flag is set and nothing else moves. |
| ChannelOps.WakeReceiver | src/channel.c:193-203 | Succeeds if and only if a live receiver waits; that one gets the value in its memory, is told so, and its task alone goes to the run queue; the sender is told it was sent. |
| ChannelOps.WakeSenderDirect | src/channel.c:205-215 | Succeeds if and only if a live sender waits; its value is returned, both are told, and its task alone goes to the run queue. |
| ChannelOps.BufferSender | src/channel.c:217-229 | Succeeds if and only if a live sender waits and there is room; its value goes to the end of the ring, it is told, and its task alone goes to the run queue. |
| ChannelOps.TrySend | src/channel.c:256-272 | The heap afterwards stands for the value-level try_send_locked, the result says which of its three ends was reached, and the run queue was handed the tasks of exactly the calls that were woken. |
| ChannelOps.TryRecv | src/channel.c:274-292 | The same for try_recv_locked, with the value. |
| ChannelOps.WakeAll | src/channel.c:234-245 | The loop empties the queue, telling each undecided call that the channel closed and handing its task to the run queue, once. |
| ChannelOps.CloseChannel | src/channel.c:451-459 | Closing on the heap is the value-level close, and the tasks of exactly the calls it woke go to the run queue; closing again does nothing. |
| ChannelOps.ShutdownAll | src/channel.c:470-475 | Walking the registry closes every channel, although destroyed ones are no longer in it, and hands over the tasks of exactly the calls it woke. |
| ChannelCalls.TryArm | src/channel.c:519-555 | One case on the heap is the value-level case; the reply says whether and how it fired. |
| ChannelCalls.TryAll | src/channel.c:640-651 | The loop over the order stops at the first case that fires and otherwise changes no call. |
| ChannelCalls.Enlist | src/channel.c:687-704 | One round of registration links the waiter of that case and of no other. |
| ChannelCalls.ParkCall | src/channel.c:667-713 | The task sleeps with one waiter per case, linked on the queue its case names, in case order. |
| ChannelCalls.Proceed | src/channel.c:345-411 | Holding the lock, a call ends as the value-level call does, and gives the lock back on every path to an answer; it is kept exactly when the task sleeps. |
| ChannelCalls.Call | src/channel.c:604-713 | Any call, from taking the free lock up to answer or sleep, is the value-level call; the lock is free again if and only if the caller has its answer; the run queue was handed the tasks of exactly the calls that were woken, and a caller that does not sleep keeps its own task as it was; a sleeping call's waiters and select state are the ones returned, and every older object is still the hub's. |
| ChannelCalls.Scrub | src/channel.c:582-593 | The loop unlinks every leftover waiter of the call from whatever queue it is in, and nothing else. |
| ChannelCalls.FinishSelect | src/channel.c:722-735 | The woken select returns the case, the status and the value the state records, with no waiter left behind. |
| ChannelCalls.FinishRegular | src/channel.c:374-386 | A woken send or receive returns what the state records; its waiter is already unlinked. |
| ChannelProgram.LinkedWaitersAreAlive | src/channel.c:77-123 | On every heap the public operations lead to, a linked waiter's call has not returned, its channel is open and not freed, and if it can still be chosen its task sleeps in that call. |
| ChannelProgram.ChannelFieldIffLinked | src/channel.c:77-123 | A waiter is in a channel's queue for an operation if and only if its channel field names that channel and it waits for that operation; so a null field means linked nowhere. |
| ChannelProgram.CallerMay | src/channel.c:345-415 | A thread without a task, or a task that makes no other call, with channels that exist and were not destroyed, meets what runs ask of callers. |
| ChannelProgram.Create | src/channel.c:298-342 | Refused if and only if element size times capacity exceeds size_t or memory is missing; else the heap is one step of a run on and the new channel is the hub's. The lock is free on every return. |
| ChannelProgram.Destroy | src/channel.c:488-511 | The channel is freed if and only if it is closed; null is accepted; the heap is one step of a run on. The lock is free on every return. |
| ChannelProgram.Close | src/channel.c:461-468 | Afterwards the channel is closed, the heap is one step of a run on, the tasks of exactly the calls it woke were handed to the run queue, and the lock is free; null is ignored. |
| ChannelProgram.RequestShutdown | src/worker.c:439-446 | As channels see it, shutdown is one step of a run, from any reachable heap to a reachable heap; the tasks of exactly the calls it woke were handed to the run queue, and the lock is free. |
| ChannelProgram.Select | src/channel.c:604-713 | In the order that the generator's draws make, a case fires if and only if one could proceed; else the select sleeps if and only if it has no default, a task, memory and a case with a channel; else it takes the default arm. The run queue is handed the task that the case that fired serves, and no other. The heap is one step of a run on; a sleeping select has the state and waiters that its return needs, and only it keeps the lock. |
| ChannelProgram.Send | src/channel.c:345-399 | Sent, refused or asleep, each in exactly one case of the channel's state. The run queue is handed the task of the longest waiting live receiver if the channel is open and has one, else nothing. The heap is one step of a run on; a sleeping send has one regular waiter, and only it keeps the lock; null is refused without taking it. |
| ChannelProgram.Receive | src/channel.c:401-449 | The oldest buffered value, the first live sender's value, closed, nothing or asleep, each in exactly one case. The run queue is handed the task of the longest waiting live sender if there is one, else nothing. The heap is one step of a run on; only a sleeping receive keeps the lock. |
| ChannelProgram.ResumeSelect | src/channel.c:722-735 | A woken select returns the case, status and value recorded; the heap is one step of a run on; the lock it took to scrub is free. |
| ChannelProgram.ResumeRegular | src/channel.c:374-386 | A woken send or receive returns what was recorded; the heap is one step of a run on. |
| ChannelProgram.Handover | src/channel.c:345-438 | Three calls in a row: a task receives on an idle channel and sleeps, another sends, is told SENT and does not sleep, the first, and only it, is handed to the run queue and returns with success and the value sent. The lock is free at the end. |
| ChannelProgram.FromNothing | src/channel.c:298-511 | A program that begins with an empty runtime: create, two tasks, handover, close, destroy, shutdown. The value arrives and the channel is freed. |
| ChannelProgram.ThroughBuffer | src/channel.c:298-449 | A program without tasks: of two values offered to a channel with room for one, the first is sent and received, the second turned away. |
| SelectOrder.NeverZeroAgain | src/channel.c:563-577 | The generator's state never becomes zero again, so a thread is seeded once. |
| SelectOrder.StepUndone | src/channel.c:571-576 | The three xorshift steps can be undone, so no two states lead to the same one. |
| SelectOrder.Generator.Next | src/channel.c:563-577 | The next state is one step from the state or, the first time, from the seed, and is not zero. |
| SelectOrder.Shuffle | src/channel.c:595-602 | The array afterwards is what the numbers drawn from the generator make of it, and a permutation of what it was. |
| SelectOrder.EveryOrderPossible | src/channel.c:595-602 | Every order of the cases is possible: for each there are draws that lead to it. |
| SelectOrder.TryOrder | src/channel.c:617-636 | Every case index occurs exactly once, in the shuffled order, or in source order without memory for more than 32 cases. |
| SchedulerTheorems.NoLostWakeup | src/worker.c:502-549 | In every reachable state with work queued and no exit requested, a worker is up, a sleeper has been signalled, or the blocked poller has a wake pending or owed. |
| SchedulerTheorems.PollerSeat | src/worker.c:508-540 | At most one worker is in the poller, the flag is set if and only if one is, and a worker sleeps unsignalled only while one is. |
| SchedulerTheorems.ExitReachesEveryone | src/worker.c:439-454 | Once exit is requested every sleeper has been signalled and a blocked poller has a wake pending or owed. |
| SchedulerTheorems.NoNewSleep | src/worker.c:502-549 | Once exit is requested it stays so and no thread lies down or enters the poller again. |
| SchedulerTheorems.NeverReturnsHolding | src/worker.c:550-571 | Exactly the thread the lock names is at a point that holds it; running tasks and sleepers hold nothing. |
| SchedulerTheorems.LockHandedOver | src/worker.c:112-135 | Along every run acquisitions and releases alternate, each release by the thread that acquired, also across the switch out of a parking task. |
| SchedulerTheorems.MutualExclusion | src/worker.c:493-600 | While one thread holds the lock, no step of another changes the queue, the flags, the seat, the counts or any task but the one it runs. |
| SchedulerTheorems.NeverOnTwoWorkers | src/worker.c:542-556 | A task held by a thread is held by no other, and is neither queued nor released. |
| SchedulerTheorems.ParkedTaskIsLetGo | src/worker.c:556-590 | After taking over the lock from a task that parked, the worker has nothing left of it. |
| SchedulerTheorems.GuardsHold | src/worker.c:542-554 | The task a worker runs and the one it pops exist, and a sleeper is counted in idle_workers. |
| SchedulerLaws.TaskLife | src/worker.c:542-597 | How a step may change a task, for every task and step: taken from the front of the queue, ended, put to sleep before shutdown, let go, woken from where it slept, put back after a yield, or released, and that only if it finished or shutdown was requested. Tasks appear only by a spawn, which queues them at the end, or releases them after shutdown. |
| SchedulerLaws.ReleasedWhenDone | src/worker.c:396-419 | In every reachable state a released task has finished, unless shutdown was requested; and scheduler_main_finished is set if and only if a main task has finished. |
| SchedulerLaws.YieldedGoesBack | src/worker.c:569-587 | A task that yields is put at the end of the run queue by its worker's next two steps, whatever other threads do in between, unless shutdown is requested before the first of them. |
| SchedulerLaws.FlagLaw | src/worker.c:396-454 | Shutdown is set exactly by its request, scheduler_main_finished exactly by the end of main; the poller's wake is taken away exactly by a poll that drains it, and raised exactly by whoever owes it or by a wake from a channel while no worker is idle and one is in the poller. |
| SchedulerLaws.QueueLaw | src/worker.c:300-307 | The run queue loses only its front, to the worker that runs it, and grows only at its end by tasks not in it; whenever it grows while somebody sleeps who was not told, somebody is told, and everybody if it grows by more than one. |
| SchedulerLaws.OneMoves | src/worker.c:493-600 | A step moves one thread; the others stay where they are, up to a signal. |
| SchedulerLaws.ExitsWithinFive | src/worker.c:502-506 | Once exit is requested a worker in the loop has left it after at most five steps of its own, over every run. |
| SchedulerLaws.TakesWorkWithinTen | src/worker.c:508-544 | While there is work and no exit, each step of a worker in the loop brings it nearer to the task at the front of the queue, which it takes within ten; it neither sleeps nor blocks in the poller first. |
| SchedulerLaws.RestsWhenIdle | src/worker.c:508-548 | With nothing to do a worker enters the poller without a timeout if the seat is free, and else sleeps. |
| SchedulerLaws.LooksBetweenTasks | src/worker.c:498-513 | Over every run, a worker that has run a task takes no other before it was in the poller, unless somebody else is there. |
| SchedulerLaws.NeverStuck | src/worker.c:493-600 | A worker that has not exited can move whenever the lock is free or its own. |
| RuntimeTheorems.ReachableAgrees | src/worker.c:608-719 | In every reachable state of the whole runtime: each half is reachable on its own, shutdown is the same flag, a task waits on a channel if and only if one call of it sleeps, a woken call's task is runnable, a task waits on a descriptor if and only if it is in the table, in the slots it asked for. |
| RuntimeTheorems.GuardsHold | src/worker.c:684-719 | Every task that channels or table say is woken does sleep there and has left its worker, so no wake is refused; a call that must sleep may; a shutdown wakes every task that sleeps on a channel. |
| RuntimeTheorems.ShutdownIsPossible | src/worker.c:439-446 | A thread inside the runtime can request shutdown in every reachable state. |
| RuntimeTheorems.CallTakesPlace | src/channel.c:604-713 | A channel call in a joint step is made by the task of its thread; if it sleeps the thread is left handing that task over with the lock in hand, else it goes on; the tasks it wakes are runnable and at the end of the run queue. |
| RuntimeTheorems.ReturnTells | src/channel.c:722-735 | A woken call returns what it was woken with, and nothing else changes. |
| RuntimeInv.NobodyIsLeftOut | src/channel.c:470-475 | The tasks whose calls are woken by closing every channel are all the tasks that wait on channels. |
| RuntimeInv.AllAreWoken | src/worker.c:702-719 | Waking tasks one after another, each with its signal, refuses none and appends them to the run queue in order. |
| RuntimeTheorems.ExactlyOnePlace | src/worker.c:542-597 | Whenever the lock is free, a task not released is in exactly one of four places: the run queue, once; one thread; the wait table; a channel call. |
| RuntimeTheorems.TableMeansSlots | src/worker.c:608-662 | A task in the table holds exactly the slots it asked for on its descriptor and none elsewhere, and has no unfinished channel call; a task not in the table holds none. |
| RuntimeTheorems.CallMeansLinked | src/channel.c:684-713 | A task asleep on a channel sleeps in one call, which has a waiter linked for each case that names a channel and at least one such case. |
| RuntimeTheorems.AnsweredCallRuns | src/worker.c:702-719 | The task of an answered call is runnable and in the queue or on a thread unless released; while it is queued and no exit was requested, somebody will look at the queue. |
| RuntimeTheorems.NoChannelSleeperAfterShutdown | src/worker.c:439-446 | After shutdown no task waits on a channel, no call sleeps and no waiter is linked to any channel, in every reachable state. |
| RuntimeTheorems.EveryTaskReleasedOnce | src/worker.c:456-491 | Over every run of the whole runtime that ends in shutdown, join and deinit, every task ever spawned has been released exactly once, with the wait table walked entry by entry as it lies; and nothing is linked to any channel by then. |
| RuntimeQueue.NeverQueuedTwice | src/task.c:108-128 | In every reachable state of the whole runtime, the tasks that a step hands to task_queue_push, be it a wake from a channel, from the table, a spawn or a requeue, are all different and none is queued, so the early return for a queued task is never taken; a step changes the queue only by popping its front or appending those. |
| RuntimeQueue.PushAll | src/worker.c:300-305 | Pushing tasks that are not queued onto the ring, one after another, appends them all in order and sets their flags; with memory, and no more than SIZE_MAX / 2 of them in the end, none is refused; without memory, all fit or one is refused. |
| RuntimeQueue.Follow | src/worker.c:542-587 | For every step of the whole runtime, the ring and the queued flags in memory follow the run queue of the step. |
| SchedulerTheorems.TasksOnlyAppear | src/worker.c:721-820 | No run forgets a task. |
| SchedulerTheorems.StepKeeps | src/worker.c:493-820 | Every step of every thread keeps the scheduler invariant. |
| SchedulerSteps.SleepKeeps | src/worker.c:542-548 | Going to wait on the condition loses no wake-up: it happens only with the queue empty and the seat taken. |
| SchedulerSteps.PollReturnKeeps | src/worker.c:515-523 | Coming back from the poller keeps the invariant, whether or not the wake was drained. |
| SchedulerSteps.IoWakeKeeps | src/worker.c:535-539 | Making tasks runnable after a poll keeps every task in one place and the queue looked after. |
| SchedulerSteps.ChannelWakeKeeps | src/worker.c:702-719 | One signal, plus a poller wake when nobody is idle, is enough for one more runnable task. |
| SchedulerSteps.SpawnKeeps | src/worker.c:721-820 | Signalling after a spawn and waking the poller after unlocking is enough for the new task. |
| SchedulerSteps.ForgetKeeps | src/worker.c:356-370 | Waking the waiters of a forgotten descriptor with a broadcast, and the poller when one is there, is enough. |
| SchedulerSteps.ShutdownKeeps | src/worker.c:439-454 | The shutdown broadcast and the poller wake owed after unlocking reach everyone. |
| SchedulerSteps.FinishMainKeeps | src/worker.c:396-419 | The end of the main task, with its broadcast and the poller wake owed, keeps the invariant; that it sets the flag is `SchedulerLaws.ReleasedWhenDone`. |
| SchedulerSteps.PutBackKeeps | src/worker.c:579-587 | Requeueing a task that yielded, with one signal, keeps the invariant. |
| SchedulerSteps.ReleaseKeeps | src/worker.c:569-593 | A released task is released once and is nowhere else; when it may be is `SchedulerLaws.TaskLife`. |
| RunQueue.TaskQueue.Push | src/task.c:108-128 | The task goes to the end unless it is queued already; it is refused if and only if the queue has no slots, or is full and cannot grow. |
| RunQueue.TaskQueue.Pop | src/task.c:130-140 | The first task leaves and its flag is cleared; nothing happens on an empty queue. |
| RunQueue.TaskQueue.Grow | src/task.c:34-56 | Twice the room, the same tasks in the same order from slot zero; refused only when memory or the size type runs out. |
| IoSpec.WakesExactly | src/worker.c:309-336 | A task is woken if and only if it waits for something that is ready, at most once, and then gives up both slots; all others keep theirs. |
| IoSpec.BatchWakesExactly | src/worker.c:535-539 | A batch of events wakes, once each, exactly the tasks whose wish some event meets; the others keep their wishes. |
| IoSpec.WaitersReleasedOnce | src/worker.c:468-481 | Emptying the table releases every waiting task exactly once, also one that holds both slots. |
| IoTable.IoWaitTable.Find | src/worker.c:231-239 | Finds the entry of a descriptor if and only if there is one. |
| IoTable.IoWaitTable.Grow | src/worker.c:204-229 | Compaction keeps exactly the entries in use and leaves room. |
| IoTable.IoWaitTable.GetOrInsert | src/worker.c:242-267 | Gives the entry of the descriptor, new and empty if there was none; fails only without room and memory. Its last return is unreachable. |
| IoTable.IoWaitTable.RemoveEntry | src/worker.c:269-279 | The descriptor leaves the table and the count follows. |
| IoTable.IoWaitTable.Drain | src/worker.c:468-481 | The table is left empty and the tasks of all entries are released. |
| IoTable.IoWaits.WakeWaitingTasks | src/worker.c:309-354 | The table, the poller, the run queue and the tasks all follow: exactly the ready waiters become runnable with the given result; the process aborts if and only if somebody was to be woken and the poller refused. |
| IoTable.IoWaits.ParkOnIo | src/worker.c:608-662 | The task waits if and only if it exists, asks for something, no shutdown was requested, the slots are free, there is room and the poller agrees; otherwise nothing at all has changed. |
| IoTable.IoWaits.ForgetFd | src/worker.c:356-370 | The descriptor leaves the table; exactly its waiters are told it closed and are handed to the run queue, once each, and no other task is touched; the poller is woken if and only if there were some and a worker is in it; the process aborts if and only if there were some and the poller refuses. |
| IoTable.IoWaits.HandleEvents | src/worker.c:535-539 | The loop over the poller's events does to table, queue and wishes what the batch does; every task that stops waiting is told success and no other is touched; the process aborts if and only if the poller refuses to follow an event that finds somebody to wake. |
| Epoll.TokenRoundTrip | src/poller_epoll.c:61-63 | Generation and descriptor are recovered from the token, which fits 64 bits and is never the wake token. |
| Epoll.MaskRoundTrip | src/poller_epoll.c:65-88 | Hearing exactly what was asked for reports the interest asked for; an error or hang-up reports both. |
| Epoll.MaskUnion | src/poller_epoll.c:76-88 | A mask reports what its bits report, and no bits report nothing. |
| Epoll.BitSpeaks | src/poller_epoll.c:65-88 | A bit is asked for an interest if and only if it reports something of that interest, and then it reports nothing else; input, priority and peer hang-up are asked for reads, output for writes; errors and hang-ups report both. |
| Epoll.AskedIsHeard | src/poller_epoll.c:235-260 | An event on a standing registration that shares a bit with the mask the kernel was given, or is an error, is reported, with something that was asked for. |
| Epoll.OnlyCurrentEventsPass | src/poller_epoll.c:244-249 | An event collected for a registration passes the test, after any changes, if and only if that registration still stands, given fewer than 2^32 changes between. |
| Epoll.GenerationWraps | src/poller_epoll.c:244-249 | With exactly 2^32 changes a stale event passes: the bound is exact. |
| Epoll.ReportedAreCurrent | src/poller_epoll.c:235-260 | What a wait reports is exactly the non-empty events of registrations that still stand. |
| Epoll.EpollTable.EnsureFdCapacity | src/poller_epoll.c:22-59 | Succeeds if and only if the descriptor is not negative and there is room or memory; doubling never overflows for a descriptor and loses nothing. |
| Epoll.EpollTable.PollerSetLocked | src/poller_epoll.c:169-206 | Success leaves the kernel with exactly the mask of the new interest, failure leaves it as it was; each registration and removal gets its own generation, a change of interest none; the condition for success is exact: ENOENT passes for a removal and only there, any other error fails. |
| Epoll.EpollTable.PollerWait | src/poller_epoll.c:235-260 | The loop reports, in order, the events that pass, each with what its mask means, and drains if and only if a wake event came. |
| Kqueue.KernelQueue.PollerSet | src/poller_kqueue.c:207-225 | All or nothing: success leaves exactly the new interest, failure the old one if and only if the read filter needed no undoing or undoing it was not refused; a filter the caller does not change is left alone. |
| Kqueue.TranslateSays | src/poller_kqueue.c:144-156 | A filter that fired reports itself, an error or end of file everything, any other filter nothing. |
| Kqueue.MergeReadyEvent | src/poller_kqueue.c:158-170 | The entry of the descriptor takes up the new events, or a new entry is appended. |
| Kqueue.MergeMore | src/poller_kqueue.c:158-170 | Merging one more event keeps the list a merge of all events so far. |
| Kqueue.PollerWait | src/poller_kqueue.c:256-273 | One entry per descriptor of which some event's filter fired or which failed, with exactly the filters that fired, or both if it failed, for every list of kernel events; drained if and only if the wake pipe was among them. |
| Kqueue.FilterIsHeard | src/poller_kqueue.c:158-170 | If a filter fires or its descriptor fails, the merged list has an entry for that descriptor and the entry has that filter. |
| PollerAgreement.MoveEpoll | src/poller_epoll.c:169-206 | If epoll watches every descriptor for exactly what the table's slots ask, it does so after a change of slots: of the new table on success, of the old one on refusal. |
| PollerAgreement.EpollEventWakes | src/poller_epoll.c:235-260 | While table and kernel agree, an event in a bit that was asked for, or an error, on a descriptor somebody waits for is reported and wakes somebody. |
| PollerAgreement.CloseWatched | src/poller_epoll.c:173-177 | The exception: closing a descriptor breaks the agreement if and only if somebody waits for it. |
| PollerAgreement.ForgetThenClose | src/worker.c:356-370 | Forgetting a descriptor and then closing it keeps the agreement; the process aborts if and only if somebody waits and the poller refuses the removal. |
| PollerAgreement.CloseThenForget | src/poller_epoll.c:173-186 | In the other order, with somebody waiting, the process aborts if and only if the number has not been reused meanwhile: the removal then fails with EBADF, and only ENOENT is accepted. Otherwise the agreement is restored. |
| PollerAgreement.MoveKqueue | src/poller_kqueue.c:207-225 | The same for kqueue, except that a refusal breaks the agreement if and only if the read filter was changed and putting it back was refused; a park that is refused never leaves the kernel watching for less than the waiters ask. |
| PollerAgreement.KqueueEventWakes | src/poller_kqueue.c:256-273 | While the kernel watches for what the table asks, the filter of whoever waits is in place, and any batch in which it fires has an entry that wakes somebody. |

## Left out

- Context switching in assembly, stacks, guard pages and sanitizer hooks: a switch is a step between two phases of a worker.
- Progress that depends on the operating system: wake-ups are shown not to be lost and a worker's own steps to lead somewhere; that a thread is eventually run is outside the model.
- How likely each order of a select is, and the quality and seeding of its generator: only that every order is possible and every case is tried once.
- Element sizes and memcpy: values are of any type and copied whole.
- Allocation failures that abort the process; those that return an error are a parameter (`memory`).
- The registry of channels as a linked list: it is a sequence, newest first.
- Aliasing of caller memory: each waiter has a slot of its own, so two calls that share one variable are not modelled.
- The copy of a value or a status into the caller's structure after a call has returned.
- Order of linking and of setting the task's state inside one critical section: the task is marked waiting first; the lock makes the two indistinguishable.
- The unlinking done when parking reports failure: it never finds a linked waiter. A call made after shutdown is answered before it parks, and a close has already unlinked the regular waiter it wakes.
- Null value and output pointers of the public functions, croutine_channel_is_closed, configuration of stack size, exit codes and worker counts (src/runtime.c).
- src/io.c: retry loops around read, write, accept and connect.
- Opening and closing the pollers, EINTR retries, and the descriptors behind the wake-up; a wake is a token that a blocked poll consumes.
- The loop of src/worker.c is a step system on values, because its hard properties are about interleavings. Updates in place of the run queue, the wait table and the channels are in RunQueue, IoTable and the channel modules; Runtime joins the step system to the channels and the table as values, and RuntimeQueue to the ring in memory; `runnable` in ChannelHub and IoTable lists the tasks in the order they are handed to that ring.
- The order in which one close or shutdown puts several tasks into the run queue: Runtime allows any, and the contracts on the heap say which tasks, once each.
- That a task between its wake and the return from its channel call does nothing else, and makes one call at a time: Runtime asks this of tasks, whose code is sequential.
- Who holds the lock, in the heap modules: there it is a flag, and one thread runs at a time; threads that compete for it are in Scheduler.
- The flag and condition of main_mutex: the end of the main task is a flag of the step system.
- Overflow of the wait table's capacity when it doubles, which the code does not test for either.
