/** Every step keeps the scheduler invariant. */
module SchedulerSteps {
  import opened Basics
  import opened Scheduler
  import opened SchedulerInv

  /** A step that touches no task. */
  lemma {:induction false} QuietStep(s: State, s': State, i: nat)
    requires Inv(s) && Local(s, s', i) && LocalWake(s, s', i)
    requires s'.tasks == s.tasks && s'.runq == s.runq && s'.freed == s.freed && s'.shutdown == s.shutdown
    requires HasTask(s'.threads[i]) == HasTask(s.threads[i])
    requires HasTask(s.threads[i]) ==>
      s'.threads[i].task == s.threads[i].task && StateFits(s'.threads[i], s.tasks[s.threads[i].task].state)
    ensures Inv(s')
  {
    Moved(s, s', i);
    TasksSame(s, s', i);
  }

  /** A step that makes parked tasks runnable. */
  lemma {:induction false} PushStep(s: State, s': State, i: nat, ts: seq<nat>, why: TaskState)
    requires Inv(s) && Local(s, s', i) && LocalWake(s, s', i) && AllParked(s, ts, why)
    requires s'.tasks == Push(s, ts).tasks && s'.runq == s.runq + ts && s'.freed == s.freed
    requires s'.shutdown && !s.shutdown ==>
      forall t :: t in s.tasks && s.tasks[t].at != Gone && s.tasks[t].state == WaitingChannel ==> t in ts
    requires HasTask(s'.threads[i]) == HasTask(s.threads[i])
    requires HasTask(s.threads[i]) ==>
      s'.threads[i].task == s.threads[i].task && StateFits(s'.threads[i], s.tasks[s.threads[i].task].state)
    ensures Inv(s')
  {
    Moved(s, s', i);
    TasksPushed(s, s', i, ts, why);
  }

  lemma {:induction false} StartKeeps(s: State, i: nat)
    requires Inv(s) && CanStart(s, i)
    ensures Inv(DoStart(s, i))
  {
    QuietStep(s, DoStart(s, i), i);
  }

  lemma {:induction false} LockKeeps(s: State, i: nat)
    requires Inv(s) && CanLock(s, i)
    ensures Inv(DoLock(s, i))
  {
    QuietStep(s, DoLock(s, i), i);
  }

  lemma {:induction false} WakeUpKeeps(s: State, i: nat)
    requires Inv(s) && CanWakeUp(s, i)
    ensures Inv(DoWakeUp(s, i))
  {
    QuietStep(s, DoWakeUp(s, i), i);
  }

  lemma {:induction false} SpuriousKeeps(s: State, i: nat)
    requires Inv(s) && CanSpurious(s, i)
    ensures Inv(DoSpurious(s, i))
  {
    QuietStep(s, DoSpurious(s, i), i);
  }

  lemma {:induction false} ExitKeeps(s: State, i: nat)
    requires Inv(s) && CanExit(s, i)
    ensures Inv(DoExit(s, i))
  {
    QuietStep(s, DoExit(s, i), i);
  }

  lemma {:induction false} BeginPollKeeps(s: State, i: nat)
    requires Inv(s) && CanBeginPoll(s, i)
    ensures Inv(DoBeginPoll(s, i))
  {
    QuietStep(s, DoBeginPoll(s, i), i);
  }

  lemma {:induction false} SleepKeeps(s: State, i: nat)
    requires Inv(s) && CanSleep(s, i)
    ensures Inv(DoSleep(s, i))
  {
    QuietStep(s, DoSleep(s, i), i);
  }

  lemma {:induction false} PollReturnKeeps(s: State, i: nat, drained: bool)
    requires Inv(s) && CanPollReturn(s, i, drained)
    ensures Inv(DoPollReturn(s, i, drained))
  {
    QuietStep(s, DoPollReturn(s, i, drained), i);
  }

  lemma {:induction false} TakeBackKeeps(s: State, i: nat)
    requires Inv(s) && CanTakeBack(s, i)
    ensures Inv(DoTakeBack(s, i))
  {
    QuietStep(s, DoTakeBack(s, i), i);
  }

  lemma {:induction false} ExitAfterPollKeeps(s: State, i: nat)
    requires Inv(s) && CanExitAfterPoll(s, i)
    ensures Inv(DoExitAfterPoll(s, i))
  {
    QuietStep(s, DoExitAfterPoll(s, i), i);
  }

  lemma {:induction false} YieldKeeps(s: State, i: nat)
    requires Inv(s) && CanYield(s, i)
    ensures Inv(DoYield(s, i))
  {
    QuietStep(s, DoYield(s, i), i);
  }

  lemma {:induction false} EndWakeKeeps(s: State, i: nat)
    requires Inv(s) && CanEndWake(s, i)
    ensures Inv(DoEndWake(s, i))
  {
    QuietStep(s, DoEndWake(s, i), i);
  }

  lemma {:induction false} EnterKeeps(s: State, i: nat)
    requires Inv(s) && CanEnter(s, i)
    ensures Inv(DoEnter(s, i))
  {
    QuietStep(s, DoEnter(s, i), i);
  }

  lemma {:induction false} LeaveKeeps(s: State, i: nat)
    requires Inv(s) && CanLeave(s, i)
    ensures Inv(DoLeave(s, i))
  {
    QuietStep(s, DoLeave(s, i), i);
  }

  lemma {:induction false} PayWakeKeeps(s: State, i: nat)
    requires Inv(s) && CanPayWake(s, i)
    ensures Inv(DoPayWake(s, i))
  {
    QuietStep(s, DoPayWake(s, i), i);
  }

  lemma {:induction false} KeepKeeps(s: State, i: nat)
    requires Inv(s) && CanKeep(s, i)
    ensures Inv(DoKeep(s, i))
  {
    QuietStep(s, DoKeep(s, i), i);
  }

  lemma {:induction false} CheckAfterParkKeeps(s: State, i: nat)
    requires Inv(s) && CanCheckAfterPark(s, i)
    ensures Inv(DoCheckAfterPark(s, i))
  {
    QuietStep(s, DoCheckAfterPark(s, i), i);
  }

  lemma {:induction false} IoWakeKeeps(s: State, i: nat, ts: seq<nat>)
    requires Inv(s) && CanIoWake(s, i, ts)
    ensures Inv(DoIoWake(s, i, ts))
  {
    PushStep(s, DoIoWake(s, i, ts), i, ts, WaitingIo);
  }

  lemma {:induction false} AlertedByWake(s: State, s': State, j: Option<nat>)
    requires RestOk(s) && MaySignal(s.threads, j) && s'.threads == Signal(s.threads, j) && s'.seat == s.seat
    requires s.idle == 0 && s.seat.Some? ==> s'.token
    ensures Alerted(s')
  {
    match j
    case Some(x) => assert s'.threads[x].Sleeping? && s'.threads[x].signalled;
    case None =>
      if forall i :: i in s'.threads ==> !s'.threads[i].Sleeping? {
        assert Sleepers(s.threads) == {};
      }
  }

  lemma {:induction false} ChannelWakeKeeps(s: State, i: nat, t: nat, j: Option<nat>)
    requires Inv(s) && CanChannelWake(s, i, t, j)
    ensures Inv(DoChannelWake(s, i, t, j))
  {
    var s' := DoChannelWake(s, i, t, j);
    AlertedByWake(s, s', j);
    PushStep(s, s', i, [t], WaitingChannel);
  }

  lemma {:induction false} ForgetLocal(s: State, i: nat, ts: seq<nat>)
    requires LockOk(s) && SeatOk(s) && RestOk(s) && CanForget(s, i, ts)
    ensures Local(s, DoForget(s, i, ts), i)
  {
  }

  lemma {:induction false} ForgetKeeps(s: State, i: nat, ts: seq<nat>)
    requires Inv(s) && CanForget(s, i, ts)
    ensures Inv(DoForget(s, i, ts))
  {
    var s' := DoForget(s, i, ts);
    ForgetLocal(s, i, ts);
    PushStep(s, s', i, ts, WaitingIo);
  }

  lemma {:induction false} ShutdownLocal(s: State, i: nat, ts: seq<nat>)
    requires LockOk(s) && SeatOk(s) && RestOk(s) && CanShutdown(s, i, ts)
    ensures Local(s, DoShutdown(s, i, ts), i)
  {
  }

  lemma {:induction false} ShutdownKeeps(s: State, i: nat, ts: seq<nat>)
    requires Inv(s) && CanShutdown(s, i, ts)
    ensures Inv(DoShutdown(s, i, ts))
  {
    var s' := DoShutdown(s, i, ts);
    ShutdownLocal(s, i, ts);
    PushStep(s, s', i, ts, WaitingChannel);
  }

  lemma {:induction false} PopKeeps(s: State, i: nat)
    requires Inv(s) && CanPop(s, i)
    ensures Inv(DoPop(s, i))
  {
    var s' := DoPop(s, i);
    Moved(s, s', i);
    PoppedTask(s, s', i, s.runq[0]);
  }

  lemma {:induction false} FinishKeeps(s: State, i: nat)
    requires Inv(s) && CanFinish(s, i)
    ensures Inv(DoFinish(s, i))
  {
    var t, s' := s.threads[i].task, DoFinish(s, i);
    Moved(s, s', i);
    OwnTask(s, s', i, t, s'.tasks[t]);
  }

  lemma {:induction false} FinishMainKeeps(s: State, i: nat)
    requires Inv(s) && CanFinishMain(s, i)
    ensures Inv(DoFinishMain(s, i))
  {
    var t, s' := s.threads[i].task, DoFinishMain(s, i);
    Moved(s, s', i);
    OwnTask(s, s', i, t, s'.tasks[t]);
  }

  lemma {:induction false} ParkKeeps(s: State, i: nat, why: TaskState)
    requires Inv(s) && CanPark(s, i, why)
    ensures Inv(DoPark(s, i, why))
  {
    var t, s' := s.threads[i].task, DoPark(s, i, why);
    Moved(s, s', i);
    OwnTask(s, s', i, t, s'.tasks[t]);
  }

  lemma {:induction false} HandOverKeeps(s: State, i: nat)
    requires Inv(s) && CanHandOver(s, i)
    ensures Inv(DoHandOver(s, i))
  {
    hide NoLostWake, QueueOk;
    var t, s' := s.threads[i].task, DoHandOver(s, i);
    Moved(s, s', i);
    OwnTask(s, s', i, t, s'.tasks[t]);
  }

  lemma {:induction false} AlertedBySpawn(s: State, s': State, i: nat, j: Option<nat>)
    requires i in s.threads && !s.threads[i].Sleeping? && MaySignal(s.threads, j) && s'.seat == s.seat
    requires i in s'.threads && s'.threads == Signal(s.threads, j)[i := s'.threads[i]] && !s'.threads[i].Sleeping?
    requires s.seat.Some? ==> Owes(s'.threads[i])
    ensures Alerted(s')
  {
    match j
    case Some(x) => assert s'.threads[x].Sleeping? && s'.threads[x].signalled;
    case None =>
  }

  lemma {:induction false} SpawnLocal(s: State, i: nat, t: nat, main: bool, j: Option<nat>)
    requires LockOk(s) && SeatOk(s) && RestOk(s) && CanSpawn(s, i, t, main, j)
    ensures Local(s, DoSpawn(s, i, t, main, j), i)
  {
  }

  lemma {:induction false} SpawnKeeps(s: State, i: nat, t: nat, main: bool, j: Option<nat>)
    requires Inv(s) && CanSpawn(s, i, t, main, j)
    ensures Inv(DoSpawn(s, i, t, main, j))
  {
    hide LockOk, SeatOk, RestOk, NoLostWake, QueueOk, FreedOk, Local, Alerted;
    var s' := DoSpawn(s, i, t, main, j);
    SpawnLocal(s, i, t, main, j);
    AlertedBySpawn(s, s', i, j);
    Moved(s, s', i);
    NewTask(s, s', i, t, s'.tasks[t]);
  }

  lemma {:induction false} SpawnRefusedKeeps(s: State, i: nat, t: nat)
    requires Inv(s) && CanSpawnRefused(s, i, t)
    ensures Inv(DoSpawnRefused(s, i, t))
  {
    hide NoLostWake, QueueOk, FreedOk;
    var s' := DoSpawnRefused(s, i, t);
    Moved(s, s', i);
    NewTask(s, s', i, t, s'.tasks[t]);
  }

  lemma {:induction false} ReleaseKeeps(s: State, i: nat)
    requires Inv(s) && CanRelease(s, i)
    ensures Inv(DoRelease(s, i))
  {
    hide NoLostWake, QueueOk, FreedOk;
    var t, s' := s.threads[i].task, DoRelease(s, i);
    Moved(s, s', i);
    OwnTask(s, s', i, t, s'.tasks[t]);
  }

  lemma {:induction false} PutBackKeeps(s: State, i: nat, j: Option<nat>)
    requires Inv(s) && CanPutBack(s, i, j)
    ensures Inv(DoPutBack(s, i, j))
  {
    hide NoLostWake, QueueOk, FreedOk;
    var t, s' := s.threads[i].task, DoPutBack(s, i, j);
    Moved(s, s', i);
    OwnTask(s, s', i, t, s'.tasks[t]);
  }

}
