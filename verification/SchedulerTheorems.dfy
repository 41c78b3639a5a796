/** What the scheduler promises, for every run from a fresh runtime. */
module SchedulerTheorems {
  import opened Basics
  import opened Scheduler
  import opened SchedulerInv
  import opened SchedulerSteps

  // ---------------------------------------------------------------------------------------------
  // Runs
  // ---------------------------------------------------------------------------------------------

  /** At least one worker, not yet started, and any number of other threads. */
  ghost predicate Fresh(s: State) {
    && s.lock.None? && s.runq == [] && s.tasks == map[] && !s.shutdown && !s.mainFinished && s.seat.None?
    && s.idle == 0 && !s.token && s.freed == [] && !s.down
    && (forall i :: i in s.threads ==> s.threads[i].NotStarted? || s.threads[i].Outside?)
    && (exists i :: i in s.threads && s.threads[i].NotStarted?)
  }

  ghost predicate Leads(s: State, run: seq<Action>, s': State)
    decreases |run|
  {
    if run == [] then s' == s else Enabled(s, run[0]) && Leads(Next(s, run[0]), run[1..], s')
  }

  ghost predicate Reachable(s: State) {
    exists s0, run :: Fresh(s0) && Leads(s0, run, s)
  }

  lemma {:induction false} LeadsOn(s: State, run: seq<Action>, s': State, a: Action)
    requires Leads(s, run, s') && Enabled(s', a)
    ensures Leads(s, run + [a], Next(s', a))
    decreases |run|
  {
    hide Enabled, Next;
    if run == [] {
      assert (run + [a])[1..] == [];
    } else {
      assert (run + [a])[1..] == run[1..] + [a];
      LeadsOn(Next(s, run[0]), run[1..], s', a);
    }
  }

  lemma {:induction false} StepReaches(s: State, a: Action)
    requires Reachable(s) && Enabled(s, a)
    ensures Reachable(Next(s, a))
  {
    hide Enabled, Next, Fresh, Leads;
    var s0, run :| Fresh(s0) && Leads(s0, run, s);
    LeadsOn(s0, run, s, a);
  }

  lemma {:induction false} FreshInv(s: State)
    requires Fresh(s)
    ensures Inv(s)
  {
    assert Sleepers(s.threads) == {};
    var w :| w in s.threads && s.threads[w].NotStarted?;
    assert IsWorker(s.threads[w]);
  }

  lemma {:induction false} LoopStepKeeps(s: State, a: Action)
    requires Inv(s) && LoopEnabled(s, a)
    ensures Inv(LoopNext(s, a))
  {
    hide Inv;
    match a
    case Start(i) => StartKeeps(s, i);
    case Lock(i) => LockKeeps(s, i);
    case WakeUp(i) => WakeUpKeeps(s, i);
    case Spurious(i) => SpuriousKeeps(s, i);
    case Exit(i) => ExitKeeps(s, i);
    case BeginPoll(i) => BeginPollKeeps(s, i);
    case Pop(i) => PopKeeps(s, i);
    case Sleep(i) => SleepKeeps(s, i);
    case PollReturn(i, drained) => PollReturnKeeps(s, i, drained);
    case TakeBack(i) => TakeBackKeeps(s, i);
    case ExitAfterPoll(i) => ExitAfterPollKeeps(s, i);
    case IoWake(i, ts) => IoWakeKeeps(s, i, ts);
    case _ =>
  }

  lemma {:induction false} SwitchStepKeeps(s: State, a: Action)
    requires Inv(s) && SwitchEnabled(s, a)
    ensures Inv(SwitchNext(s, a))
  {
    hide Inv;
    match a
    case Yield(i) => YieldKeeps(s, i);
    case Finish(i) => FinishKeeps(s, i);
    case FinishMain(i) => FinishMainKeeps(s, i);
    case EndWake(i) => EndWakeKeeps(s, i);
    case Park(i, why) => ParkKeeps(s, i, why);
    case HandOver(i) => HandOverKeeps(s, i);
    case Keep(i) => KeepKeeps(s, i);
    case Release(i) => ReleaseKeeps(s, i);
    case CheckAfterPark(i) => CheckAfterParkKeeps(s, i);
    case PutBack(i, j) => PutBackKeeps(s, i, j);
    case _ =>
  }

  lemma {:induction false} CallStepKeeps(s: State, a: Action)
    requires Inv(s) && CallEnabled(s, a)
    ensures Inv(CallNext(s, a))
  {
    hide Inv;
    match a
    case Enter(i) => EnterKeeps(s, i);
    case Leave(i) => LeaveKeeps(s, i);
    case ChannelWake(i, t, j) => ChannelWakeKeeps(s, i, t, j);
    case Spawn(i, t, main, j) => SpawnKeeps(s, i, t, main, j);
    case SpawnRefused(i, t) => SpawnRefusedKeeps(s, i, t);
    case Forget(i, ts) => ForgetKeeps(s, i, ts);
    case Shutdown(i, ts) => ShutdownKeeps(s, i, ts);
    case PayWake(i) => PayWakeKeeps(s, i);
    case _ =>
  }

  lemma {:induction false} StepKeeps(s: State, a: Action)
    requires Inv(s) && Enabled(s, a)
    ensures Inv(Next(s, a))
  {
    hide Inv, LoopEnabled, SwitchEnabled, CallEnabled, LoopNext, SwitchNext, CallNext;
    if LoopEnabled(s, a) {
      LoopStepKeeps(s, a);
    } else if SwitchEnabled(s, a) {
      SwitchStepKeeps(s, a);
    } else {
      CallStepKeeps(s, a);
    }
  }

  lemma {:induction false} LeadsInv(s: State, run: seq<Action>, s': State)
    requires Inv(s) && Leads(s, run, s')
    ensures Inv(s')
    decreases |run|
  {
    if run == [] {
    } else {
      StepKeeps(s, run[0]);
      LeadsInv(Next(s, run[0]), run[1..], s');
    }
  }

  lemma {:induction false} ReachableInv(s: State)
    requires Reachable(s)
    ensures Inv(s)
  {
    var s0, run :| Fresh(s0) && Leads(s0, run, s);
    FreshInv(s0);
    LeadsInv(s0, run, s);
  }

  // ---------------------------------------------------------------------------------------------
  // Waking
  // ---------------------------------------------------------------------------------------------

  /** With work in the queue and no exit requested, a worker is up, or a sleeper has been signalled, or
      the blocked poller has a wake pending or owed. */
  lemma {:induction false} NoLostWakeup(s: State)
    requires Reachable(s) && s.runq != [] && !Exiting(s)
    ensures OnItsWay(s)
  {
    ReachableInv(s);
  }

  /** At most one worker is in the poller and the flag says whether one is; a worker sleeps unsignalled
      only while the seat is taken, so descriptors are always watched. */
  lemma {:induction false} PollerSeat(s: State, i: nat, j: nat)
    requires Reachable(s) && i in s.threads && j in s.threads
    ensures AtPoller(s.threads[i]) && AtPoller(s.threads[j]) ==> i == j
    ensures s.seat.Some? <==> exists k :: k in s.threads && AtPoller(s.threads[k])
    ensures Unsignalled(s.threads[i]) ==> s.seat.Some?
  {
    ReachableInv(s);
  }

  /** Once shutdown is requested or main has finished, every sleeper has been signalled and a blocked
      poller has a wake pending or owed. */
  lemma {:induction false} ExitReachesEveryone(s: State)
    requires Reachable(s) && Exiting(s)
    ensures AllSignalled(s)
    ensures PollerBlocked(s) ==> s.token || SomeoneOwes(s)
  {
    ReachableInv(s);
  }

  predicate AtRest(p: Phase) { p.Sleeping? || p.Polling? }

  lemma {:induction false} LoopLiesDown(s: State, a: Action, i: nat)
    requires SeatOk(s) && Exiting(s) && LoopEnabled(s, a) && i in s.threads
    ensures Exiting(LoopNext(s, a)) && i in LoopNext(s, a).threads
    ensures AtRest(LoopNext(s, a).threads[i]) ==> AtRest(s.threads[i])
  {
  }

  lemma {:induction false} SwitchLiesDown(s: State, a: Action, i: nat)
    requires SeatOk(s) && Exiting(s) && SwitchEnabled(s, a) && i in s.threads
    ensures Exiting(SwitchNext(s, a)) && i in SwitchNext(s, a).threads
    ensures AtRest(SwitchNext(s, a).threads[i]) ==> AtRest(s.threads[i])
  {
  }

  lemma {:induction false} CallLiesDown(s: State, a: Action, i: nat)
    requires SeatOk(s) && Exiting(s) && CallEnabled(s, a) && i in s.threads
    ensures Exiting(CallNext(s, a)) && i in CallNext(s, a).threads
    ensures AtRest(CallNext(s, a).threads[i]) ==> AtRest(s.threads[i])
  {
  }

  /** And nobody lies down again. */
  lemma {:induction false} NoNewSleep(s: State, a: Action, i: nat)
    requires Reachable(s) && Exiting(s) && Enabled(s, a) && i in s.threads
    ensures Exiting(Next(s, a)) && i in Next(s, a).threads
    ensures AtRest(Next(s, a).threads[i]) ==> AtRest(s.threads[i])
  {
    ReachableInv(s);
    hide LoopEnabled, SwitchEnabled, CallEnabled, LoopNext, SwitchNext, CallNext;
    if LoopEnabled(s, a) {
      LoopLiesDown(s, a, i);
    } else if SwitchEnabled(s, a) {
      SwitchLiesDown(s, a, i);
    } else {
      CallLiesDown(s, a, i);
    }
  }

  // ---------------------------------------------------------------------------------------------
  // The lock
  // ---------------------------------------------------------------------------------------------

  /** A thread that runs task code, sleeps, polls, or is outside the runtime does not hold the lock; in
      particular every runtime call that returns to its task has given it back. */
  lemma {:induction false} NeverReturnsHolding(s: State, i: nat)
    requires Reachable(s) && s.lock == Some(i)
    ensures i in s.threads && HoldsLock(s.threads[i])
    ensures forall j :: j in s.threads && j != i ==> !HoldsLock(s.threads[j])
  {
    ReachableInv(s);
  }

  datatype LockEvent = Acquired(i: nat) | Released(i: nat)

  /** The acquisitions and releases along a run. */
  ghost function LockTrace(s: State, run: seq<Action>, s': State): seq<LockEvent>
    requires Leads(s, run, s')
    decreases |run|
  {
    if run == [] then [] else
    var n := Next(s, run[0]);
    (if n.lock == s.lock then [] else if n.lock.Some? then [Acquired(run[0].i)] else [Released(run[0].i)]) +
    LockTrace(n, run[1..], s')
  }

  /** Acquire, release by the same thread, acquire, ... */
  ghost predicate Alternates(trace: seq<LockEvent>, lock: Option<nat>)
    decreases |trace|
  {
    trace == [] ||
    match trace[0]
    case Acquired(i) => lock.None? && Alternates(trace[1..], Some(i))
    case Released(i) => lock == Some(i) && Alternates(trace[1..], None)
  }

  /** Over every run the lock is released exactly once per acquisition and by the thread that took it,
      also when the taker was a task and the releaser the scheduler after a switch. */
  lemma {:induction false} LockHandedOver(s: State, run: seq<Action>, s': State)
    requires Inv(s) && Leads(s, run, s')
    ensures Alternates(LockTrace(s, run, s'), s.lock)
    decreases |run|
  {
    hide LockOk, SeatOk, RestOk, NoLostWake, HeldOk, QueueOk, FreedOk, Enabled, Next;
    if run == [] {
    } else {
      var n := Next(s, run[0]);
      LockStep(s, run[0]);
      StepKeeps(s, run[0]);
      LockHandedOver(n, run[1..], s');
      var rest := LockTrace(n, run[1..], s');
      if n.lock != s.lock {
        var e := if n.lock.Some? then Acquired(run[0].i) else Released(run[0].i);
        assert LockTrace(s, run, s') == [e] + rest && ([e] + rest)[1..] == rest;
      } else {
        assert LockTrace(s, run, s') == rest;
      }
    }
  }

  /** A step takes the free lock for its thread, releases the lock its thread holds, or leaves it alone. */
  predicate LockMoves(l: Option<nat>, l': Option<nat>, i: nat) {
    l' == l || (l.None? && l' == Some(i)) || (l == Some(i) && l'.None?)
  }

  lemma {:induction false} LoopLockStep(s: State, a: Action)
    requires LockOk(s) && LoopEnabled(s, a)
    ensures LockMoves(s.lock, LoopNext(s, a).lock, a.i)
  {
  }

  lemma {:induction false} SwitchLockStep(s: State, a: Action)
    requires LockOk(s) && SwitchEnabled(s, a)
    ensures LockMoves(s.lock, SwitchNext(s, a).lock, a.i)
  {
  }

  lemma {:induction false} CallLockStep(s: State, a: Action)
    requires LockOk(s) && CallEnabled(s, a)
    ensures LockMoves(s.lock, CallNext(s, a).lock, a.i)
  {
  }

  lemma {:induction false} LockStep(s: State, a: Action)
    requires LockOk(s) && Enabled(s, a)
    ensures LockMoves(s.lock, Next(s, a).lock, a.i)
  {
    hide LockOk, LoopEnabled, SwitchEnabled, CallEnabled, LoopNext, SwitchNext, CallNext;
    if LoopEnabled(s, a) {
      LoopLockStep(s, a);
    } else if SwitchEnabled(s, a) {
      SwitchLockStep(s, a);
    } else {
      CallLockStep(s, a);
    }
  }

  predicate NeedsNoLock(a: Action) {
    a.Start? || a.Spurious? || a.PollReturn? || a.Yield? || a.Finish? || a.EndWake? || a.PayWake?
  }

  lemma {:induction false} LoopNeedsNoLock(s: State, a: Action)
    requires LockOk(s) && LoopEnabled(s, a) && s.lock.Some? && a.i != s.lock.value
    ensures NeedsNoLock(a)
  {
  }

  lemma {:induction false} SwitchNeedsNoLock(s: State, a: Action)
    requires LockOk(s) && SwitchEnabled(s, a) && s.lock.Some? && a.i != s.lock.value
    ensures NeedsNoLock(a)
  {
  }

  lemma {:induction false} CallNeedsNoLock(s: State, a: Action)
    requires LockOk(s) && CallEnabled(s, a) && s.lock.Some? && a.i != s.lock.value
    ensures NeedsNoLock(a)
  {
  }

  lemma {:induction false} OthersNeedNoLock(s: State, a: Action)
    requires LockOk(s) && Enabled(s, a) && s.lock.Some? && a.i != s.lock.value
    ensures NeedsNoLock(a)
  {
    hide LockOk, NeedsNoLock, LoopEnabled, SwitchEnabled, CallEnabled;
    if LoopEnabled(s, a) {
      LoopNeedsNoLock(s, a);
    } else if SwitchEnabled(s, a) {
      SwitchNeedsNoLock(s, a);
    } else {
      CallNeedsNoLock(s, a);
    }
  }

  /** While a thread holds the lock nobody else changes what it guards; another thread can only finish
      the task it is itself running, raise a wake, or move between unguarded points. */
  lemma {:induction false} MutualExclusion(s: State, a: Action)
    requires Reachable(s) && Enabled(s, a) && s.lock.Some? && a.i != s.lock.value
    ensures var s' := Next(s, a);
      && s'.lock == s.lock && s'.runq == s.runq && s'.shutdown == s.shutdown && s'.mainFinished == s.mainFinished
      && s'.seat == s.seat && s'.idle == s.idle && s'.freed == s.freed && s'.tasks.Keys == s.tasks.Keys
      && forall t :: t in s.tasks && s.tasks[t].at != On(a.i) ==> s'.tasks[t] == s.tasks[t]
  {
    hide Reachable, SeatOk, RestOk, NoLostWake, QueueOk, FreedOk;
    ReachableInv(s);
    OthersNeedNoLock(s, a);
  }

  // ---------------------------------------------------------------------------------------------
  // Tasks
  // ---------------------------------------------------------------------------------------------

  ghost predicate IsHeldBy(s: State, t: nat, i: nat) {
    i in s.threads && HasTask(s.threads[i]) && s.threads[i].task == t
  }

  ghost predicate IsHeld(s: State, t: nat) {
    exists i :: IsHeldBy(s, t, i)
  }

  /** Asleep on a descriptor or on a channel. */
  ghost predicate IsWaiting(s: State, t: nat) {
    t in s.tasks && (s.tasks[t].state == WaitingIo || s.tasks[t].state == WaitingChannel)
  }

  /** No task is ever on two workers, and a queued task is queued once and on none. */
  lemma {:induction false} NeverOnTwoWorkers(s: State, t: nat, i: nat, j: nat)
    requires Reachable(s) && IsHeldBy(s, t, i)
    ensures IsHeldBy(s, t, j) ==> i == j
    ensures t !in s.runq && t !in s.freed && t in s.tasks
  {
    ReachableInv(s);
  }

  /** Whenever the lock is free every task that was not released is queued, held or asleep, and only one of these. */
  lemma {:induction false} OnePlace(s: State, t: nat)
    requires Reachable(s) && s.lock.None? && t in s.tasks && t !in s.freed
    ensures t in s.runq || IsHeld(s, t) || IsWaiting(s, t)
    ensures t in s.runq ==> !IsHeld(s, t) && !IsWaiting(s, t)
    ensures IsHeld(s, t) ==> !IsWaiting(s, t)
    ensures Distinct(s.runq)
  {
    ReachableInv(s);
    if s.tasks[t].at.On? { assert IsHeldBy(s, t, s.tasks[t].at.thread); }
  }

  /** After the hand-over the worker has nothing left of the task it parked. */
  lemma {:induction false} ParkedTaskIsLetGo(s: State, i: nat)
    requires Reachable(s) && CanHandOver(s, i)
    ensures var t, s' := s.threads[i].task, DoHandOver(s, i);
      && s'.lock.None? && !HasTask(s'.threads[i]) && !IsHeld(s', t) && IsWaiting(s', t) && t !in s'.runq
  {
    ReachableInv(s);
    HandOverKeeps(s, i);
  }

  /** The guards that the code does not test hold by themselves: a thread's task exists, so does the task
      at the front of the queue, and a sleeper is counted. */
  lemma {:induction false} GuardsHold(s: State, i: nat)
    requires Reachable(s) && i in s.threads
    ensures HasTask(s.threads[i]) ==> s.threads[i].task in s.tasks
    ensures s.runq != [] ==> s.runq[0] in s.tasks
    ensures s.threads[i].Sleeping? ==> s.idle > 0
  {
    ReachableInv(s);
    if s.runq != [] { assert s.runq[0] in s.runq; }
    if s.threads[i].Sleeping? { assert i in Sleepers(s.threads); }
  }

  // ---------------------------------------------------------------------------------------------
  // Shutdown
  // ---------------------------------------------------------------------------------------------

  /** worker_deinit after request-shutdown and join: `ios` lists the tasks left in the wait table. */
  ghost predicate CanDeinit(s: State, ios: seq<nat>) {
    && !s.down && s.lock.None? && s.shutdown
    && (forall i :: i in s.threads ==> s.threads[i].NotStarted? || s.threads[i].Exited? || s.threads[i].Outside?)
    && AllParked(s, ios, WaitingIo)
    && (forall t :: t in s.tasks && s.tasks[t].state == WaitingIo && s.tasks[t].at == Parked ==> t in ios)
  }

  ghost function DoDeinit(s: State, ios: seq<nat>): State
    requires CanDeinit(s, ios)
  {
    s.(runq := [], freed := s.freed + s.runq + ios, down := true,
       tasks := map t | t in s.tasks :: s.tasks[t].(at := Gone))
  }

  /** If `ios` are the tasks asleep on descriptors, each task ever spawned is released exactly once. */
  lemma {:induction false} ReleasedOnce(s: State, ios: seq<nat>)
    requires Reachable(s) && CanDeinit(s, ios)
    ensures var s' := DoDeinit(s, ios);
      && s'.tasks.Keys == s.tasks.Keys && Distinct(s'.freed)
      && forall t :: t in s'.freed <==> t in s.tasks
  {
    ReachableInv(s);
    assert forall t :: t in s.tasks && s.tasks[t].at == Queued <==> t in s.runq;
    DistinctAppend(s.freed, s.runq);
    DistinctAppend(s.freed + s.runq, ios);
    forall t | t in s.tasks ensures t in s.freed + s.runq + ios {
      assert !s.tasks[t].at.On?;
    }
  }

  /** Tasks are never forgotten along the way. */
  lemma {:induction false} TasksOnlyAppear(s: State, run: seq<Action>, s': State)
    requires Leads(s, run, s')
    ensures s.tasks.Keys <= s'.tasks.Keys
    decreases |run|
  {
    if run == [] {
    } else {
      TasksOnlyAppearStep(s, run[0]);
      TasksOnlyAppear(Next(s, run[0]), run[1..], s');
    }
  }

  lemma {:induction false} LoopTasksAppear(s: State, a: Action)
    requires LoopEnabled(s, a)
    ensures s.tasks.Keys <= LoopNext(s, a).tasks.Keys
  {
  }

  lemma {:induction false} SwitchTasksAppear(s: State, a: Action)
    requires SwitchEnabled(s, a)
    ensures s.tasks.Keys <= SwitchNext(s, a).tasks.Keys
  {
  }

  lemma {:induction false} CallTasksAppear(s: State, a: Action)
    requires CallEnabled(s, a)
    ensures s.tasks.Keys <= CallNext(s, a).tasks.Keys
  {
  }

  lemma {:induction false} TasksOnlyAppearStep(s: State, a: Action)
    requires Enabled(s, a)
    ensures s.tasks.Keys <= Next(s, a).tasks.Keys
  {
    hide LoopEnabled, SwitchEnabled, CallEnabled, LoopNext, SwitchNext, CallNext;
    if LoopEnabled(s, a) {
      LoopTasksAppear(s, a);
    } else if SwitchEnabled(s, a) {
      SwitchTasksAppear(s, a);
    } else {
      CallTasksAppear(s, a);
    }
  }
}
