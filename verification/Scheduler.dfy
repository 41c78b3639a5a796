/** The scheduler of src/worker.c as a step system: any number of workers, tasks and other threads,
    one lock, one condition variable, one poller seat.  A step is one thread's move between two points
    where another thread could move; the lock is explicit, so that a park can hand it from the task to
    the scheduler loop. */
module Scheduler {

  import opened Basics

  /** Where a task is: in the run queue, with a thread, on a wait list, or released. */
  datatype Place = Queued | On(thread: nat) | Parked | Gone

  datatype Task = Task(state: TaskState, main: bool, at: Place)

  datatype Phase =
      // a worker in the scheduler loop
    | NotStarted
    | WantLock(checked: bool)
    | Deciding(checked: bool)
    | Polling(blocking: bool)
    | Polled
    | Events
    | Sleeping(checked: bool, signalled: bool)
    | Exited
      // a worker running a task
    | Running(task: nat)
    | Inside(task: nat)
    | Owing(task: nat)
    | EndOwing(task: nat)
      // a worker back from a task
    | Switched(task: nat, yielded: TaskState)
    | Handing(task: nat)
    | AfterPark
    | Requeue(task: nat)
      // any other thread
    | Outside
    | ExtInside
    | ExtOwing

  /** `seat` names the worker in the poller; `poller_waiter_active` is `seat.Some?`. */
  datatype State = State(
    lock: Option<nat>,
    runq: seq<nat>,
    threads: map<nat, Phase>,
    tasks: map<nat, Task>,
    shutdown: bool,
    mainFinished: bool,
    seat: Option<nat>,
    idle: nat,
    token: bool,
    freed: seq<nat>,
    down: bool)

  datatype Action =
    | Start(i: nat)
    | Lock(i: nat)
    | WakeUp(i: nat)
    | Spurious(i: nat)
    | Exit(i: nat)
    | BeginPoll(i: nat)
    | Pop(i: nat)
    | Sleep(i: nat)
    | PollReturn(i: nat, drained: bool)
    | TakeBack(i: nat)
    | ExitAfterPoll(i: nat)
    | IoWake(i: nat, ts: seq<nat>)
    | Yield(i: nat)
    | Finish(i: nat)
    | FinishMain(i: nat)
    | EndWake(i: nat)
    | Enter(i: nat)
    | Leave(i: nat)
    | Park(i: nat, why: TaskState)
    | HandOver(i: nat)
    | ChannelWake(i: nat, t: nat, j: Option<nat>)
    | Spawn(i: nat, t: nat, main: bool, j: Option<nat>)
    | SpawnRefused(i: nat, t: nat)
    | Forget(i: nat, ts: seq<nat>)
    | Shutdown(i: nat, ts: seq<nat>)
    | PayWake(i: nat)
    | Keep(i: nat)
    | Release(i: nat)
    | CheckAfterPark(i: nat)
    | PutBack(i: nat, j: Option<nat>)

  // ---------------------------------------------------------------------------------------------
  // Reading a state
  // ---------------------------------------------------------------------------------------------

  predicate Exiting(s: State) { s.shutdown || s.mainFinished }

  predicate IsWorker(p: Phase) { !p.Outside? && !p.ExtInside? && !p.ExtOwing? }

  predicate HoldsLock(p: Phase) { p.Deciding? || p.Events? || p.Inside? || p.Handing? || p.ExtInside? }

  predicate AtPoller(p: Phase) { p.Polling? || p.Polled? }

  predicate Owes(p: Phase) { p.Owing? || p.EndOwing? || p.ExtOwing? }

  predicate HasTask(p: Phase) {
    p.Running? || p.Inside? || p.Owing? || p.EndOwing? || p.Switched? || p.Handing? || p.Requeue?
  }

  predicate Unsignalled(p: Phase) { p.Sleeping? && !p.signalled }

  /** Neither asleep nor gone. */
  predicate Active(p: Phase) {
    IsWorker(p) && !p.Sleeping? && !p.Exited? && p != Polling(true)
  }

  /** A runtime call in progress: a task or another thread holding the lock. */
  predicate InRuntime(p: Phase) { p.Inside? || p.ExtInside? }

  function Resumed(p: Phase): Phase
    requires InRuntime(p) || p.Owing? || p.ExtOwing?
  {
    if p.Inside? || p.Owing? then Running(p.task) else Outside
  }

  function Indebted(p: Phase): Phase
    requires InRuntime(p)
  {
    if p.Inside? then Owing(p.task) else ExtOwing
  }

  // ---------------------------------------------------------------------------------------------
  // Effects
  // ---------------------------------------------------------------------------------------------

  function Set(s: State, i: nat, p: Phase): State { s.(threads := s.threads[i := p]) }

  function Broadcast(threads: map<nat, Phase>): map<nat, Phase> {
    map i | i in threads :: if threads[i].Sleeping? then threads[i].(signalled := true) else threads[i]
  }

  /** pthread_cond_signal: somebody unsignalled is signalled, if there is somebody. */
  predicate MaySignal(threads: map<nat, Phase>, j: Option<nat>) {
    match j
    case Some(x) => x in threads && Unsignalled(threads[x])
    case None => forall i :: i in threads ==> !Unsignalled(threads[i])
  }

  function Signal(threads: map<nat, Phase>, j: Option<nat>): map<nat, Phase>
    requires MaySignal(threads, j)
  {
    match j
    case Some(x) => threads[x := threads[x].(signalled := true)]
    case None => threads
  }

  /** enqueue_runnable_task_locked for each of `ts`. */
  function Push(s: State, ts: seq<nat>): State {
    s.(runq := s.runq + ts,
       tasks := map t | t in s.tasks :: if t in ts then s.tasks[t].(state := Runnable, at := Queued) else s.tasks[t])
  }

  predicate AllParked(s: State, ts: seq<nat>, why: TaskState) {
    && (forall a, b :: 0 <= a < b < |ts| ==> ts[a] != ts[b])
    && (forall t :: t in ts ==> t in s.tasks && s.tasks[t].state == why && s.tasks[t].at == Parked)
  }

  /** The test of worker_loop_impl for trying the poller. */
  predicate WantsPoller(s: State, checked: bool) {
    s.seat.None? && (s.runq == [] || !checked)
  }

  predicate Up(s: State, i: nat) { !s.down && i in s.threads }

  // ---------------------------------------------------------------------------------------------
  // Steps
  // ---------------------------------------------------------------------------------------------

  /** A worker thread begins worker_loop_impl. */
  predicate CanStart(s: State, i: nat) {
    Up(s, i) && var p := s.threads[i];
    p.NotStarted?
  }

  function DoStart(s: State, i: nat): State
    requires CanStart(s, i)
  {
    Set(s, i, WantLock(false))
  }

  predicate CanLock(s: State, i: nat) {
    Up(s, i) && var p := s.threads[i];
    p.WantLock? && s.lock.None?
  }

  function DoLock(s: State, i: nat): State
    requires CanLock(s, i)
  {
    var p := s.threads[i];
    Set(s, i, Deciding(p.checked)).(lock := Some(i))
  }

  /** pthread_cond_wait returns with the lock. */
  predicate CanWakeUp(s: State, i: nat) {
    Up(s, i) && var p := s.threads[i];
    p.Sleeping? && p.signalled && s.lock.None? && s.idle > 0
  }

  function DoWakeUp(s: State, i: nat): State
    requires CanWakeUp(s, i)
  {
    var p := s.threads[i];
    Set(s, i, Deciding(p.checked)).(lock := Some(i), idle := s.idle - 1)
  }

  predicate CanSpurious(s: State, i: nat) {
    Up(s, i) && var p := s.threads[i];
    Unsignalled(p)
  }

  function DoSpurious(s: State, i: nat): State
    requires CanSpurious(s, i)
  {
    var p := s.threads[i];
    Set(s, i, Sleeping(p.checked, true))
  }

  predicate CanExit(s: State, i: nat) {
    Up(s, i) && var p := s.threads[i];
    p.Deciding? && Exiting(s)
  }

  function DoExit(s: State, i: nat): State
    requires CanExit(s, i)
  {
    Set(s, i, Exited).(lock := None)
  }

  predicate CanBeginPoll(s: State, i: nat) {
    Up(s, i) && var p := s.threads[i];
    p.Deciding? && !Exiting(s) && WantsPoller(s, p.checked)
  }

  function DoBeginPoll(s: State, i: nat): State
    requires CanBeginPoll(s, i)
  {
    Set(s, i, Polling(s.runq == [])).(lock := None, seat := Some(i))
  }

  predicate CanPop(s: State, i: nat) {
    Up(s, i) && var p := s.threads[i];
    p.Deciding? && !Exiting(s) && !WantsPoller(s, p.checked) && s.runq != [] && s.runq[0] in s.tasks
  }

  function DoPop(s: State, i: nat): State
    requires CanPop(s, i)
  {
    var t := s.runq[0];
    Set(s, i, Running(t)).(lock := None, runq := s.runq[1..], tasks := s.tasks[t := s.tasks[t].(at := On(i))])
  }

  predicate CanSleep(s: State, i: nat) {
    Up(s, i) && var p := s.threads[i];
    p.Deciding? && !Exiting(s) && !WantsPoller(s, p.checked) && s.runq == []
  }

  function DoSleep(s: State, i: nat): State
    requires CanSleep(s, i)
  {
    var p := s.threads[i];
    Set(s, i, Sleeping(p.checked, false)).(lock := None, idle := s.idle + 1)
  }

  /** croutine_poller_wait returns, for whatever reason, and may have drained the wake token. */
  predicate CanPollReturn(s: State, i: nat, drained: bool) {
    Up(s, i) && var p := s.threads[i];
    p.Polling?
  }

  function DoPollReturn(s: State, i: nat, drained: bool): State
    requires CanPollReturn(s, i, drained)
  {
    Set(s, i, Polled).(token := s.token && !drained)
  }

  /** The seat is given back under the lock and every sleeper is told. */
  predicate CanTakeBack(s: State, i: nat) {
    Up(s, i) && var p := s.threads[i];
    p.Polled? && s.lock.None?
  }

  function DoTakeBack(s: State, i: nat): State
    requires CanTakeBack(s, i)
  {
    s.(threads := Broadcast(s.threads)[i := Events], lock := Some(i), seat := None)
  }

  predicate CanExitAfterPoll(s: State, i: nat) {
    Up(s, i) && var p := s.threads[i];
    p.Events? && Exiting(s)
  }

  function DoExitAfterPoll(s: State, i: nat): State
    requires CanExitAfterPoll(s, i)
  {
    Set(s, i, Exited).(lock := None)
  }

  /** The events of one poll make the tasks `ts` runnable. */
  predicate CanIoWake(s: State, i: nat, ts: seq<nat>) {
    Up(s, i) && var p := s.threads[i];
    p.Events? && !Exiting(s) && AllParked(s, ts, WaitingIo)
  }

  function DoIoWake(s: State, i: nat, ts: seq<nat>): State
    requires CanIoWake(s, i, ts)
  {
    Push(s, ts).(threads := (if ts == [] then s.threads else Broadcast(s.threads))[i := Deciding(true)])
  }

  predicate CanYield(s: State, i: nat) {
    Up(s, i) && var p := s.threads[i];
    p.Running?
  }

  function DoYield(s: State, i: nat): State
    requires CanYield(s, i)
  {
    var p := s.threads[i];
    Set(s, i, Switched(p.task, Runnable))
  }

  predicate CanFinish(s: State, i: nat) {
    Up(s, i) && var p := s.threads[i];
    p.Running? && p.task in s.tasks && !s.tasks[p.task].main
  }

  function DoFinish(s: State, i: nat): State
    requires CanFinish(s, i)
  {
    var p := s.threads[i];
    Set(s, i, Switched(p.task, Finished)).(tasks := s.tasks[p.task := s.tasks[p.task].(state := Finished)])
  }

  /** The main task ends: flag and broadcast under the lock, the poller wake still owed. */
  predicate CanFinishMain(s: State, i: nat) {
    Up(s, i) && var p := s.threads[i];
    p.Running? && p.task in s.tasks && s.tasks[p.task].main && s.lock.None?
  }

  function DoFinishMain(s: State, i: nat): State
    requires CanFinishMain(s, i)
  {
    var p := s.threads[i];
    s.(threads := Broadcast(s.threads)[i := EndOwing(p.task)], mainFinished := true,
       tasks := s.tasks[p.task := s.tasks[p.task].(state := Finished)])
  }

  predicate CanEndWake(s: State, i: nat) {
    Up(s, i) && var p := s.threads[i];
    p.EndOwing?
  }

  function DoEndWake(s: State, i: nat): State
    requires CanEndWake(s, i)
  {
    var p := s.threads[i];
    Set(s, i, Switched(p.task, Finished)).(token := true)
  }

  /** A task or another thread takes the lock for a runtime call. */
  predicate CanEnter(s: State, i: nat) {
    Up(s, i) && var p := s.threads[i];
    (p.Running? || p.Outside?) && s.lock.None?
  }

  function DoEnter(s: State, i: nat): State
    requires CanEnter(s, i)
  {
    var p := s.threads[i];
    Set(s, i, if p.Running? then Inside(p.task) else ExtInside).(lock := Some(i))
  }

  predicate CanLeave(s: State, i: nat) {
    Up(s, i) && var p := s.threads[i];
    InRuntime(p)
  }

  function DoLeave(s: State, i: nat): State
    requires CanLeave(s, i)
  {
    var p := s.threads[i];
    Set(s, i, Resumed(p)).(lock := None)
  }

  /** The task goes to sleep and switches back to the scheduler with the lock in hand. */
  predicate CanPark(s: State, i: nat, why: TaskState) {
    Up(s, i) && var p := s.threads[i];
    p.Inside? && p.task in s.tasks && !s.shutdown && (why == WaitingIo || why == WaitingChannel)
  }

  function DoPark(s: State, i: nat, why: TaskState): State
    requires CanPark(s, i, why)
  {
    var p := s.threads[i];
    Set(s, i, Handing(p.task)).(tasks := s.tasks[p.task := s.tasks[p.task].(state := why)])
  }

  /** The scheduler releases the lock its task took. */
  predicate CanHandOver(s: State, i: nat) {
    Up(s, i) && var p := s.threads[i];
    p.Handing? && p.task in s.tasks
  }

  function DoHandOver(s: State, i: nat): State
    requires CanHandOver(s, i)
  {
    var p := s.threads[i];
    Set(s, i, AfterPark).(lock := None, tasks := s.tasks[p.task := s.tasks[p.task].(at := Parked)])
  }

  /** worker_wake_task_locked. */
  predicate CanChannelWake(s: State, i: nat, t: nat, j: Option<nat>) {
    Up(s, i) && var p := s.threads[i];
    InRuntime(p) && AllParked(s, [t], WaitingChannel) && MaySignal(s.threads, j)
  }

  function DoChannelWake(s: State, i: nat, t: nat, j: Option<nat>): State
    requires CanChannelWake(s, i, t, j)
  {
    Push(s, [t]).(threads := Signal(s.threads, j), token := s.token || (s.idle == 0 && s.seat.Some?))
  }

  predicate CanSpawn(s: State, i: nat, t: nat, main: bool, j: Option<nat>) {
    Up(s, i) && var p := s.threads[i];
    InRuntime(p) && !s.shutdown && t !in s.tasks && MaySignal(s.threads, j)
  }

  function DoSpawn(s: State, i: nat, t: nat, main: bool, j: Option<nat>): State
    requires CanSpawn(s, i, t, main, j)
  {
    var p := s.threads[i];
    s.(runq := s.runq + [t], tasks := s.tasks[t := Task(Runnable, main, Queued)], lock := None,
       threads := Signal(s.threads, j)[i := if s.seat.Some? then Indebted(p) else Resumed(p)])
  }

  /** A task spawned after shutdown was requested is released at once. */
  predicate CanSpawnRefused(s: State, i: nat, t: nat) {
    Up(s, i) && var p := s.threads[i];
    InRuntime(p) && s.shutdown && t !in s.tasks
  }

  function DoSpawnRefused(s: State, i: nat, t: nat): State
    requires CanSpawnRefused(s, i, t)
  {
    var p := s.threads[i];
    Set(s, i, Resumed(p)).(lock := None, tasks := s.tasks[t := Task(Runnable, false, Gone)], freed := s.freed + [t])
  }

  /** worker_forget_fd wakes the tasks `ts` that waited on the descriptor. */
  predicate CanForget(s: State, i: nat, ts: seq<nat>) {
    Up(s, i) && var p := s.threads[i];
    InRuntime(p) && AllParked(s, ts, WaitingIo)
  }

  function DoForget(s: State, i: nat, ts: seq<nat>): State
    requires CanForget(s, i, ts)
  {
    var p := s.threads[i];
    Push(s, ts).(lock := None,
                 threads := if ts == [] then s.threads[i := Resumed(p)]
                            else Broadcast(s.threads)[i := if s.seat.Some? then Indebted(p) else Resumed(p)])
  }

  /** worker_request_shutdown closes every channel, which wakes the tasks `ts`. */
  ghost predicate CanShutdown(s: State, i: nat, ts: seq<nat>) {
    Up(s, i) && var p := s.threads[i];
    InRuntime(p) && AllParked(s, ts, WaitingChannel) &&
    forall t :: t in s.tasks && s.tasks[t].state == WaitingChannel && s.tasks[t].at == Parked ==> t in ts
  }

  ghost function DoShutdown(s: State, i: nat, ts: seq<nat>): State
    requires CanShutdown(s, i, ts)
  {
    var p := s.threads[i];
    Push(s, ts).(lock := None, shutdown := true,
                 threads := Broadcast(s.threads)[i := Indebted(p)],
                 token := s.token || (ts != [] && s.idle == 0 && s.seat.Some?))
  }

  /** The poller wake owed since the lock was released. */
  predicate CanPayWake(s: State, i: nat) {
    Up(s, i) && var p := s.threads[i];
    p.Owing? || p.ExtOwing?
  }

  function DoPayWake(s: State, i: nat): State
    requires CanPayWake(s, i)
  {
    var p := s.threads[i];
    Set(s, i, Resumed(p)).(token := true)
  }

  /** Back from a task that yielded: it is to run again. */
  predicate CanKeep(s: State, i: nat) {
    Up(s, i) && var p := s.threads[i];
    p.Switched? && p.task in s.tasks && s.lock.None? && p.yielded == Runnable && !s.shutdown
  }

  function DoKeep(s: State, i: nat): State
    requires CanKeep(s, i)
  {
    Set(s, i, Requeue(s.threads[i].task))
  }

  /** Back from a task that finished, or that yielded after shutdown was requested: release it. */
  predicate CanRelease(s: State, i: nat) {
    Up(s, i) && var p := s.threads[i];
    p.Switched? && p.task in s.tasks && s.lock.None? && (p.yielded == Finished || s.shutdown)
  }

  function DoRelease(s: State, i: nat): State
    requires CanRelease(s, i)
  {
    var t := s.threads[i].task;
    Set(s, i, WantLock(false)).(tasks := s.tasks[t := s.tasks[t].(at := Gone)], freed := s.freed + [t])
  }

  predicate CanCheckAfterPark(s: State, i: nat) {
    Up(s, i) && var p := s.threads[i];
    p.AfterPark? && s.lock.None?
  }

  function DoCheckAfterPark(s: State, i: nat): State
    requires CanCheckAfterPark(s, i)
  {
    Set(s, i, WantLock(false))
  }

  predicate CanPutBack(s: State, i: nat, j: Option<nat>) {
    Up(s, i) && var p := s.threads[i];
    p.Requeue? && p.task in s.tasks && s.lock.None? && MaySignal(s.threads, j)
  }

  function DoPutBack(s: State, i: nat, j: Option<nat>): State
    requires CanPutBack(s, i, j)
  {
    var p := s.threads[i];
    s.(runq := s.runq + [p.task], tasks := s.tasks[p.task := s.tasks[p.task].(at := Queued)],
       threads := Signal(s.threads, j)[i := WantLock(false)])
  }

  /** A worker's move inside the scheduler loop. */
  ghost predicate LoopEnabled(s: State, a: Action) {
    match a
    case Start(i) => CanStart(s, i)
    case Lock(i) => CanLock(s, i)
    case WakeUp(i) => CanWakeUp(s, i)
    case Spurious(i) => CanSpurious(s, i)
    case Exit(i) => CanExit(s, i)
    case BeginPoll(i) => CanBeginPoll(s, i)
    case Pop(i) => CanPop(s, i)
    case Sleep(i) => CanSleep(s, i)
    case PollReturn(i, drained) => CanPollReturn(s, i, drained)
    case TakeBack(i) => CanTakeBack(s, i)
    case ExitAfterPoll(i) => CanExitAfterPoll(s, i)
    case IoWake(i, ts) => CanIoWake(s, i, ts)
    case _ => false
  }

  ghost function LoopNext(s: State, a: Action): State
    requires LoopEnabled(s, a)
  {
    match a
    case Start(i) => DoStart(s, i)
    case Lock(i) => DoLock(s, i)
    case WakeUp(i) => DoWakeUp(s, i)
    case Spurious(i) => DoSpurious(s, i)
    case Exit(i) => DoExit(s, i)
    case BeginPoll(i) => DoBeginPoll(s, i)
    case Pop(i) => DoPop(s, i)
    case Sleep(i) => DoSleep(s, i)
    case PollReturn(i, drained) => DoPollReturn(s, i, drained)
    case TakeBack(i) => DoTakeBack(s, i)
    case ExitAfterPoll(i) => DoExitAfterPoll(s, i)
    case IoWake(i, ts) => DoIoWake(s, i, ts)
    case _ => s
  }

  /** A task yields, ends or parks, and its worker takes over. */
  ghost predicate SwitchEnabled(s: State, a: Action) {
    match a
    case Yield(i) => CanYield(s, i)
    case Finish(i) => CanFinish(s, i)
    case FinishMain(i) => CanFinishMain(s, i)
    case EndWake(i) => CanEndWake(s, i)
    case Park(i, why) => CanPark(s, i, why)
    case HandOver(i) => CanHandOver(s, i)
    case Keep(i) => CanKeep(s, i)
    case Release(i) => CanRelease(s, i)
    case CheckAfterPark(i) => CanCheckAfterPark(s, i)
    case PutBack(i, j) => CanPutBack(s, i, j)
    case _ => false
  }

  ghost function SwitchNext(s: State, a: Action): State
    requires SwitchEnabled(s, a)
  {
    match a
    case Yield(i) => DoYield(s, i)
    case Finish(i) => DoFinish(s, i)
    case FinishMain(i) => DoFinishMain(s, i)
    case EndWake(i) => DoEndWake(s, i)
    case Park(i, why) => DoPark(s, i, why)
    case HandOver(i) => DoHandOver(s, i)
    case Keep(i) => DoKeep(s, i)
    case Release(i) => DoRelease(s, i)
    case CheckAfterPark(i) => DoCheckAfterPark(s, i)
    case PutBack(i, j) => DoPutBack(s, i, j)
    case _ => s
  }

  /** A task or a thread outside is inside a call of the runtime. */
  ghost predicate CallEnabled(s: State, a: Action) {
    match a
    case Enter(i) => CanEnter(s, i)
    case Leave(i) => CanLeave(s, i)
    case ChannelWake(i, t, j) => CanChannelWake(s, i, t, j)
    case Spawn(i, t, main, j) => CanSpawn(s, i, t, main, j)
    case SpawnRefused(i, t) => CanSpawnRefused(s, i, t)
    case Forget(i, ts) => CanForget(s, i, ts)
    case Shutdown(i, ts) => CanShutdown(s, i, ts)
    case PayWake(i) => CanPayWake(s, i)
    case _ => false
  }

  ghost function CallNext(s: State, a: Action): State
    requires CallEnabled(s, a)
  {
    match a
    case Enter(i) => DoEnter(s, i)
    case Leave(i) => DoLeave(s, i)
    case ChannelWake(i, t, j) => DoChannelWake(s, i, t, j)
    case Spawn(i, t, main, j) => DoSpawn(s, i, t, main, j)
    case SpawnRefused(i, t) => DoSpawnRefused(s, i, t)
    case Forget(i, ts) => DoForget(s, i, ts)
    case Shutdown(i, ts) => DoShutdown(s, i, ts)
    case PayWake(i) => DoPayWake(s, i)
    case _ => s
  }

  ghost predicate Enabled(s: State, a: Action) {
    LoopEnabled(s, a) || SwitchEnabled(s, a) || CallEnabled(s, a)
  }

  ghost function Next(s: State, a: Action): State
    requires Enabled(s, a)
  {
    if LoopEnabled(s, a) then LoopNext(s, a) else if SwitchEnabled(s, a) then SwitchNext(s, a) else CallNext(s, a)
  }
}
