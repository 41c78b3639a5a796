/** What a step of the scheduler may do and when, and where a worker's own steps lead it. */
module SchedulerLaws {
  import opened Basics
  import opened Scheduler
  import opened SchedulerInv
  import opened SchedulerTheorems

  // ---------------------------------------------------------------------------------------------
  // The life of a task
  // ---------------------------------------------------------------------------------------------

  /** How a step of thread `i` may change a task. */
  ghost predicate Lives(s: State, s': State, i: nat, t: nat) {
    i in s.threads && i in s'.threads && t in s.tasks && t in s'.tasks &&
    var x, y, p := s.tasks[t], s'.tasks[t], s.threads[i];
    || y == x
       // it reaches the front of the queue and a worker takes it
    || (s.runq != [] && t == s.runq[0] && x.at == Queued && y == x.(at := On(i)) && s'.threads[i] == Running(t))
       // it is woken
    || (x.at == Place.Parked && y == x.(state := Runnable, at := Queued) && t in s'.runq)
    || (x.at == On(i) && LivesOn(s, s', i, t))
  }

  /** How its own thread may change it. */
  ghost predicate LivesOn(s: State, s': State, i: nat, t: nat) {
    i in s.threads && t in s.tasks && t in s'.tasks &&
    var x, y, p := s.tasks[t], s'.tasks[t], s.threads[i];
       // it ends
    || (p == Running(t) && y == x.(state := Finished) && (x.main ==> s'.mainFinished))
       // it goes to sleep, with the lock in hand, and is let go
    || (p == Inside(t) && !s.shutdown && (y == x.(state := WaitingIo) || y == x.(state := WaitingChannel)))
    || (p == Handing(t) && s.lock == Some(i) && y == x.(at := Place.Parked) && s'.lock.None?)
       // it yielded and is put back
    || (p == Requeue(t) && y == x.(at := Queued) && s'.runq == s.runq + [t])
       // it is released
    || (p.Switched? && p.task == t && (x.state == Finished || s.shutdown) && y == x.(at := Gone) &&
        s'.freed == s.freed + [t])
  }

  /** How a task appears. */
  ghost predicate Appears(s: State, s': State, t: nat, a: Action) {
    t in s'.tasks &&
    match a
    case Spawn(_, u, main, _) =>
      !s.shutdown && t == u && s'.tasks[t] == Task(Runnable, main, Queued) && s'.runq == s.runq + [t]
    case SpawnRefused(_, u) =>
      s.shutdown && t == u && s'.tasks[t] == Task(Runnable, false, Gone) && s'.freed == s.freed + [t]
    case _ => false
  }

  lemma {:induction false} LoopLeaves(s: State, a: Action)
    requires LoopEnabled(s, a) && !a.Pop? && !a.IoWake?
    ensures LoopNext(s, a).tasks == s.tasks
  {
    hide Broadcast, Exiting, WantsPoller;
  }

  lemma {:induction false} PopLife(s: State, i: nat, t: nat)
    requires QueueOk(s) && CanPop(s, i)
    ensures t in s.tasks ==> Lives(s, DoPop(s, i), i, t)
    ensures t !in s.tasks ==> t !in DoPop(s, i).tasks
  {
    hide LivesOn, WantsPoller;
    assert s.runq[0] in s.runq;
  }

  lemma {:induction false} IoWakeLife(s: State, i: nat, ts: seq<nat>, t: nat)
    requires CanIoWake(s, i, ts)
    ensures t in s.tasks ==> Lives(s, DoIoWake(s, i, ts), i, t)
    ensures t !in s.tasks ==> t !in DoIoWake(s, i, ts).tasks
  {
    hide LivesOn;
  }

  lemma {:induction false} LoopLife(s: State, a: Action, t: nat)
    requires QueueOk(s) && LoopEnabled(s, a)
    ensures t in s.tasks ==> Lives(s, LoopNext(s, a), a.i, t)
    ensures t !in s.tasks ==> t !in LoopNext(s, a).tasks
  {
    if a.Pop? {
      hide Lives;
      PopLife(s, a.i, t);
    } else if a.IoWake? {
      hide Lives;
      IoWakeLife(s, a.i, a.ts, t);
    } else {
      hide LoopEnabled, LoopNext, LivesOn;
      LoopLeaves(s, a);
      LoopOthers(s, a);
    }
  }

  lemma {:induction false} SwitchLife(s: State, a: Action, t: nat)
    requires LockOk(s) && HeldOk(s) && SwitchEnabled(s, a)
    ensures t in s.tasks ==> Lives(s, SwitchNext(s, a), a.i, t)
    ensures t !in s.tasks ==> t !in SwitchNext(s, a).tasks
  {
  }

  lemma {:induction false} CallLife(s: State, a: Action, t: nat)
    requires CallEnabled(s, a)
    ensures t in s.tasks ==> Lives(s, CallNext(s, a), a.i, t)
    ensures t !in s.tasks && t in CallNext(s, a).tasks ==> Appears(s, CallNext(s, a), t, a)
  {
  }

  /** A task is queued, taken from the front, ends, sleeps, is woken, is put back and is released in this order only,
      each under its condition; and none appears but by a spawn. */
  lemma {:induction false} TaskLife(s: State, a: Action, t: nat)
    requires Inv(s) && Enabled(s, a)
    ensures t in s.tasks ==> Lives(s, Next(s, a), a.i, t)
    ensures t !in s.tasks && t in Next(s, a).tasks ==> Appears(s, Next(s, a), t, a)
  {
    hide LockOk, SeatOk, RestOk, NoLostWake, HeldOk, QueueOk, FreedOk, LoopEnabled, SwitchEnabled, CallEnabled,
      LoopNext, SwitchNext, CallNext, Lives, Appears;
    if LoopEnabled(s, a) {
      LoopLife(s, a, t);
    } else if SwitchEnabled(s, a) {
      SwitchLife(s, a, t);
    } else {
      CallLife(s, a, t);
    }
  }

  // ---------------------------------------------------------------------------------------------
  // Flags and the queue
  // ---------------------------------------------------------------------------------------------

  /** What a step may do to the flags: each is raised by one operation, and only a poll that drains it takes the
      poller's wake away. */
  ghost predicate Flags(s: State, s': State, a: Action) {
    && (s'.shutdown <==> s.shutdown || a.Shutdown?)
    && (s'.mainFinished <==> s.mainFinished || a.FinishMain?)
    && (s.token && !s'.token <==> s.token && a.PollReturn? && a.drained)
    && (!s.token && s'.token <==> !s.token && Pokes(s, a))
    && s'.down == s.down
  }

  /** The poller is woken by whoever owes it a wake, and when a task is woken from a channel while no worker is idle
      and one is in the poller. */
  predicate Pokes(s: State, a: Action) {
    || a.EndWake? || a.PayWake?
    || ((a.ChannelWake? || (a.Shutdown? && a.ts != [])) && s.idle == 0 && s.seat.Some?)
  }

  /** The run queue loses only its front, to the worker that runs it, and grows only at its end, by tasks that were
      not in it. */
  ghost predicate Fifo(s: State, s': State, a: Action) {
    || (a.Pop? && s.runq != [] && s'.runq == s.runq[1..] && a.i in s'.threads && s'.threads[a.i] == Running(s.runq[0]))
    || (s.runq <= s'.runq &&
        forall t :: t in s'.runq[|s.runq|..] ==>
          t in s'.tasks && s'.tasks[t].at == Queued && (t in s.tasks ==> s.tasks[t].at != Queued))
  }

  /** Whenever the queue grows while somebody sleeps who was not told, somebody is told; and everybody, if it grows
      by more than one task. */
  ghost predicate Tells(s: State, s': State) {
    && (|s'.runq| > |s.runq| && (exists j :: j in s.threads && Unsignalled(s.threads[j])) ==>
          exists j :: j in s.threads && j in s'.threads && Unsignalled(s.threads[j]) && s'.threads[j].Sleeping? &&
            s'.threads[j].signalled)
    && (|s'.runq| > |s.runq| + 1 ==> AllSignalled(s'))
  }

  lemma {:induction false} LoopFlags(s: State, a: Action)
    requires LoopEnabled(s, a)
    ensures Flags(s, LoopNext(s, a), a)
  {
    hide AllParked, Broadcast, Exiting, WantsPoller;
  }

  lemma {:induction false} SwitchFlags(s: State, a: Action)
    requires SwitchEnabled(s, a)
    ensures Flags(s, SwitchNext(s, a), a)
  {
  }

  lemma {:induction false} CallFlags(s: State, a: Action)
    requires CallEnabled(s, a)
    ensures Flags(s, CallNext(s, a), a)
  {
  }

  lemma {:induction false} FlagLaw(s: State, a: Action)
    requires Enabled(s, a)
    ensures Flags(s, Next(s, a), a)
  {
    hide LoopEnabled, SwitchEnabled, CallEnabled, LoopNext, SwitchNext, CallNext, Flags;
    if LoopEnabled(s, a) {
      LoopFlags(s, a);
    } else if SwitchEnabled(s, a) {
      SwitchFlags(s, a);
    } else {
      CallFlags(s, a);
    }
  }

  lemma {:induction false} LoopQueue(s: State, a: Action)
    requires LoopEnabled(s, a)
    ensures Fifo(s, LoopNext(s, a), a) && Tells(s, LoopNext(s, a))
  {
    if a.IoWake? {
      assert LoopNext(s, a).runq[|s.runq|..] == a.ts;
      if a.ts != [] { TellsAll(s, LoopNext(s, a), a.i); }
    }
  }

  lemma {:induction false} TellsAll(s: State, s': State, i: nat)
    requires i in s.threads && !s.threads[i].Sleeping? && s'.threads.Keys == s.threads.Keys
    requires !s'.threads[i].Sleeping?
    requires forall j :: j in s.threads && j != i ==> s'.threads[j] == Broadcast(s.threads)[j]
    ensures Tells(s, s')
  {
    if j :| j in s.threads && Unsignalled(s.threads[j]) {
      assert s'.threads[j].Sleeping? && s'.threads[j].signalled;
    }
  }

  lemma {:induction false} TellsOne(s: State, s': State, i: nat, j: Option<nat>)
    requires i in s.threads && !s.threads[i].Sleeping? && MaySignal(s.threads, j) && |s'.runq| == |s.runq| + 1
    requires forall k :: k in s.threads && k != i ==> k in s'.threads && s'.threads[k] == Signal(s.threads, j)[k]
    ensures Tells(s, s')
  {
    if j.Some? {
      assert s'.threads[j.value].Sleeping? && s'.threads[j.value].signalled;
    }
  }

  lemma {:induction false} SwitchQueue(s: State, a: Action)
    requires HeldOk(s) && SwitchEnabled(s, a)
    ensures Fifo(s, SwitchNext(s, a), a) && Tells(s, SwitchNext(s, a))
  {
    if a.PutBack? {
      assert SwitchNext(s, a).runq[|s.runq|..] == [s.threads[a.i].task];
      TellsOne(s, SwitchNext(s, a), a.i, a.j);
    }
  }

  lemma {:induction false} CallQueue(s: State, a: Action)
    requires CallEnabled(s, a)
    ensures Fifo(s, CallNext(s, a), a) && Tells(s, CallNext(s, a))
  {
    var s' := CallNext(s, a);
    match a
    case ChannelWake(i, t, j) =>
      assert s'.runq[|s.runq|..] == [t];
      TellsOne(s, s', i, j);
    case Spawn(i, t, main, j) =>
      assert s'.runq[|s.runq|..] == [t];
      TellsOne(s, s', i, j);
    case Forget(i, ts) =>
      assert s'.runq[|s.runq|..] == ts;
      if ts != [] { TellsAll(s, s', i); }
    case Shutdown(i, ts) =>
      assert s'.runq[|s.runq|..] == ts;
      TellsAll(s, s', i);
    case _ =>
  }

  lemma {:induction false} QueueLaw(s: State, a: Action)
    requires Inv(s) && Enabled(s, a)
    ensures Fifo(s, Next(s, a), a) && Tells(s, Next(s, a))
  {
    hide LockOk, SeatOk, RestOk, NoLostWake, HeldOk, QueueOk, FreedOk, LoopEnabled, SwitchEnabled, CallEnabled,
      LoopNext, SwitchNext, CallNext, Fifo, Tells;
    if LoopEnabled(s, a) {
      LoopQueue(s, a);
    } else if SwitchEnabled(s, a) {
      SwitchQueue(s, a);
    } else {
      CallQueue(s, a);
    }
  }

  // ---------------------------------------------------------------------------------------------
  // Released, and the end of main
  // ---------------------------------------------------------------------------------------------

  ghost predicate MainDone(s: State) {
    exists t :: t in s.tasks && s.tasks[t].main && s.tasks[t].state == Finished
  }

  /** A task is gone only once it finished or after shutdown was requested; main is marked as finished exactly when
      a main task is. */
  ghost predicate Settled(s: State) {
    && (forall t :: t in s.tasks && s.tasks[t].at == Gone ==> s.shutdown || s.tasks[t].state == Finished)
    && (s.mainFinished <==> MainDone(s))
  }

  lemma {:induction false} SettledTask(s: State, a: Action, t: nat)
    requires Inv(s) && Enabled(s, a) && Settled(s) && t in Next(s, a).tasks
    ensures var s' := Next(s, a);
      && (s'.tasks[t].at == Gone ==> s'.shutdown || s'.tasks[t].state == Finished)
      && (s'.tasks[t].main && s'.tasks[t].state == Finished ==> s'.mainFinished)
  {
    hide Inv, Enabled, Next, Flags;
    FlagsStay(s, a);
    TaskLife(s, a, t);
  }

  lemma {:induction false} FlagsStay(s: State, a: Action)
    requires Enabled(s, a)
    ensures (s.shutdown ==> Next(s, a).shutdown) && (s.mainFinished ==> Next(s, a).mainFinished)
  {
    hide Enabled, Next;
    FlagLaw(s, a);
  }

  lemma {:induction false} SettledStep(s: State, a: Action)
    requires Inv(s) && Enabled(s, a) && Settled(s)
    ensures Settled(Next(s, a))
  {
    hide Inv, Enabled, Next, Lives, Appears;
    forall t | t in Next(s, a).tasks {
      SettledTask(s, a, t);
    }
    FlagLaw(s, a);
    if s.mainFinished {
      var t :| t in s.tasks && s.tasks[t].main && s.tasks[t].state == Finished;
      TaskLife(s, a, t);
      FinishedStays(s, a, t);
    } else if a.FinishMain? {
      MainEnds(s, a);
    }
  }

  lemma {:induction false} FinishedStays(s: State, a: Action, t: nat)
    requires Inv(s) && Enabled(s, a) && t in s.tasks && s.tasks[t].state == Finished && Lives(s, Next(s, a), a.i, t)
    ensures t in Next(s, a).tasks
    ensures Next(s, a).tasks[t].state == Finished && Next(s, a).tasks[t].main == s.tasks[t].main
  {
    hide LockOk, SeatOk, RestOk, NoLostWake, FreedOk, Enabled, Next;
  }

  lemma {:induction false} MainEnds(s: State, a: Action)
    requires Enabled(s, a) && a.FinishMain?
    ensures MainDone(Next(s, a))
  {
    var t := s.threads[a.i].task;
    assert t in Next(s, a).tasks && Next(s, a).tasks[t].main && Next(s, a).tasks[t].state == Finished;
  }

  lemma {:induction false} SettledRun(s: State, run: seq<Action>, s': State)
    requires Inv(s) && Settled(s) && Leads(s, run, s')
    ensures Settled(s')
    decreases |run|
  {
    hide Inv, Settled, Enabled, Next;
    if run == [] {
    } else {
      SettledStep(s, run[0]);
      StepKeeps(s, run[0]);
      SettledRun(Next(s, run[0]), run[1..], s');
    }
  }

  /** No run releases a task that neither finished nor was overtaken by shutdown, and `scheduler_main_finished` tells
      the truth. */
  lemma {:induction false} ReleasedWhenDone(s: State, t: nat)
    requires Reachable(s)
    ensures t in s.freed ==> t in s.tasks && (s.shutdown || s.tasks[t].state == Finished)
    ensures t in s.tasks && s.tasks[t].main && s.tasks[t].state == Finished ==> s.mainFinished
    ensures s.mainFinished ==> MainDone(s)
  {
    hide LockOk, SeatOk, RestOk, NoLostWake, HeldOk, QueueOk;
    ReachableInv(s);
    var s0, run :| Fresh(s0) && Leads(s0, run, s);
    FreshInv(s0);
    SettledRun(s0, run, s);
  }

  // ---------------------------------------------------------------------------------------------
  // Where a worker's own steps lead
  // ---------------------------------------------------------------------------------------------

  lemma {:induction false} OnlyMover(s: State, a: Action)
    requires LoopEnabled(s, a) && !a.TakeBack? && !a.IoWake?
    ensures a.i in s.threads && a.i in LoopNext(s, a).threads
    ensures LoopNext(s, a).threads == s.threads[a.i := LoopNext(s, a).threads[a.i]]
  {
    hide Exiting, WantsPoller;
  }

  lemma {:induction false} SignalsOthers(s: State, s': State, i: nat)
    requires i in s.threads && i in s'.threads
    requires
      || s'.threads == s.threads[i := s'.threads[i]]
      || s'.threads == Broadcast(s.threads)[i := s'.threads[i]]
    ensures OthersStay(s, s', i)
  {
  }

  lemma {:induction false} LoopOthers(s: State, a: Action)
    requires LoopEnabled(s, a)
    ensures a.i in s.threads && a.i in LoopNext(s, a).threads && OthersStay(s, LoopNext(s, a), a.i)
  {
    hide OthersStay, Broadcast, Push, AllParked;
    if !a.TakeBack? && !a.IoWake? {
      hide LoopEnabled, LoopNext;
      OnlyMover(s, a);
    }
    SignalsOthers(s, LoopNext(s, a), a.i);
  }

  lemma {:induction false} SwitchOthers(s: State, a: Action)
    requires SwitchEnabled(s, a)
    ensures a.i in s.threads && a.i in SwitchNext(s, a).threads && OthersStay(s, SwitchNext(s, a), a.i)
  {
  }

  lemma {:induction false} CallOthers(s: State, a: Action)
    requires CallEnabled(s, a)
    ensures a.i in s.threads && a.i in CallNext(s, a).threads && OthersStay(s, CallNext(s, a), a.i)
  {
  }

  /** A step moves one thread; others can at most be signalled. */
  lemma {:induction false} OneMoves(s: State, a: Action)
    requires Enabled(s, a)
    ensures a.i in s.threads && a.i in Next(s, a).threads && OthersStay(s, Next(s, a), a.i)
  {
    hide LoopEnabled, SwitchEnabled, CallEnabled, LoopNext, SwitchNext, CallNext, OthersStay;
    if LoopEnabled(s, a) {
      LoopOthers(s, a);
    } else if SwitchEnabled(s, a) {
      SwitchOthers(s, a);
    } else {
      CallOthers(s, a);
    }
  }

  /** A worker that is not in the middle of a task's code. */
  predicate InLoop(p: Phase) { IsWorker(p) && !p.Running? && !p.Inside? && !p.Owing? }

  function ExitRank(p: Phase): nat {
    match p
    case Exited => 0
    case Deciding(_) => 1
    case Events => 1
    case WantLock(_) => 2
    case Sleeping(_, _) => 2
    case Polled => 2
    case EndOwing(_) => 5
    case Handing(_) => 4
    case Switched(_, _) => 4
    case _ => 3
  }

  lemma {:induction false} LoopExits(s: State, a: Action)
    requires Exiting(s) && LoopEnabled(s, a) && !Unsignalled(s.threads[a.i])
    ensures InLoop(LoopNext(s, a).threads[a.i])
    ensures ExitRank(LoopNext(s, a).threads[a.i]) < ExitRank(s.threads[a.i])
  {
    hide Push, AllParked, WantsPoller, Broadcast;
  }

  lemma {:induction false} SwitchExits(s: State, a: Action)
    requires SwitchEnabled(s, a) && InLoop(s.threads[a.i])
    ensures InLoop(SwitchNext(s, a).threads[a.i])
    ensures ExitRank(SwitchNext(s, a).threads[a.i]) < ExitRank(s.threads[a.i])
  {
  }

  lemma {:induction false} CallsComeFromTasks(s: State, a: Action)
    requires CallEnabled(s, a)
    ensures a.i in s.threads && !InLoop(s.threads[a.i])
  {
  }

  /** Once exit is requested every step of a worker in the loop brings it nearer to its end. */
  lemma {:induction false} ExitStep(s: State, a: Action)
    requires Inv(s) && Exiting(s) && Enabled(s, a) && a.i in s.threads && InLoop(s.threads[a.i])
    ensures a.i in Next(s, a).threads && InLoop(Next(s, a).threads[a.i])
    ensures ExitRank(Next(s, a).threads[a.i]) < ExitRank(s.threads[a.i])
  {
    hide LoopEnabled, SwitchEnabled, CallEnabled, LoopNext, SwitchNext, CallNext, LockOk, SeatOk, NoLostWake, HeldOk,
      QueueOk, FreedOk, InLoop, ExitRank, OthersStay;
    OneMoves(s, a);
    if LoopEnabled(s, a) {
      LoopExits(s, a);
    } else if SwitchEnabled(s, a) {
      SwitchExits(s, a);
    } else {
      CallsComeFromTasks(s, a);
    }
  }

  /** How many steps of a run thread `i` takes. */
  ghost function OwnSteps(run: seq<Action>, i: nat): nat {
    if run == [] then 0 else (if run[0].i == i then 1 else 0) + OwnSteps(run[1..], i)
  }

  lemma {:induction false} StaysExiting(s: State, a: Action)
    requires Enabled(s, a) && Exiting(s)
    ensures Exiting(Next(s, a))
  {
    hide Enabled, Next;
    FlagLaw(s, a);
  }

  /** A worker in the loop leaves it within five steps of its own after exit is requested, whatever the others do. */
  lemma {:induction false} ExitsWithinFive(s: State, run: seq<Action>, s': State, i: nat)
    requires Inv(s) && Exiting(s) && Leads(s, run, s') && i in s.threads && InLoop(s.threads[i])
    ensures i in s'.threads && InLoop(s'.threads[i])
    ensures OwnSteps(run, i) + ExitRank(s'.threads[i]) <= ExitRank(s.threads[i]) <= 5
    decreases |run|
  {
    hide Inv, Enabled, Next, Exiting;
    if run == [] {
    } else {
      var n := Next(s, run[0]);
      OneMoves(s, run[0]);
      StepKeeps(s, run[0]);
      StaysExiting(s, run[0]);
      if run[0].i == i { ExitStep(s, run[0]); }
      ExitsWithinFive(n, run[1..], s', i);
    }
  }

  function WorkRank(p: Phase): nat {
    match p
    case Deciding(checked) => if checked then 1 else 5
    case Events => 2
    case Polled => 3
    case Polling(_) => 4
    case WantLock(checked) => if checked then 2 else 6
    case Sleeping(checked, signalled) => (if checked then 2 else 6) + (if signalled then 0 else 1)
    case EndOwing(_) => 9
    case Handing(_) => 8
    case Switched(_, _) => 8
    case _ => 7
  }

  lemma {:induction false} LoopWorks(s: State, a: Action)
    requires !Exiting(s) && s.runq != [] && LoopEnabled(s, a)
    ensures var q := LoopNext(s, a).threads[a.i];
      if a.Pop? then q == Running(s.runq[0]) else InLoop(q) && WorkRank(q) < WorkRank(s.threads[a.i])
  {
  }

  lemma {:induction false} SwitchWorks(s: State, a: Action)
    requires SwitchEnabled(s, a) && InLoop(s.threads[a.i])
    ensures InLoop(SwitchNext(s, a).threads[a.i]) && !a.Pop?
    ensures WorkRank(SwitchNext(s, a).threads[a.i]) < WorkRank(s.threads[a.i])
  {
  }

  /** While there is work and no exit is requested, every step of a worker in the loop brings it nearer to taking the
      task at the front of the queue: it neither sleeps nor blocks in the poller first. */
  lemma {:induction false} WorkStep(s: State, a: Action)
    requires !Exiting(s) && s.runq != [] && Enabled(s, a) && a.i in s.threads && InLoop(s.threads[a.i])
    ensures a.i in Next(s, a).threads
    ensures var q := Next(s, a).threads[a.i];
      if a.Pop? then q == Running(s.runq[0]) else InLoop(q) && WorkRank(q) < WorkRank(s.threads[a.i])
  {
    hide LoopEnabled, SwitchEnabled, CallEnabled, LoopNext, SwitchNext, CallNext, InLoop, WorkRank, OthersStay;
    OneMoves(s, a);
    if LoopEnabled(s, a) {
      LoopWorks(s, a);
    } else if SwitchEnabled(s, a) {
      SwitchWorks(s, a);
    } else {
      CallsComeFromTasks(s, a);
    }
  }

  /** There is work, and no exit is requested, whenever thread `i` moves. */
  ghost predicate WorkFor(s: State, run: seq<Action>, i: nat)
    decreases |run|
  {
    run != [] ==>
      && Enabled(s, run[0]) && (run[0].i == i ==> s.runq != [] && !Exiting(s) && !run[0].Pop?)
      && WorkFor(Next(s, run[0]), run[1..], i)
  }

  /** A worker in the loop that finds work at each of its steps takes a task within ten of them. */
  lemma {:induction false} TakesWorkWithinTen(s: State, run: seq<Action>, s': State, i: nat)
    requires Leads(s, run, s') && i in s.threads && InLoop(s.threads[i]) && WorkFor(s, run, i)
    ensures i in s'.threads && InLoop(s'.threads[i])
    ensures OwnSteps(run, i) + WorkRank(s'.threads[i]) <= WorkRank(s.threads[i]) < 10
    decreases |run|
  {
    hide Enabled, Next, Exiting;
    if run == [] {
    } else {
      OneMoves(s, run[0]);
      if run[0].i == i { WorkStep(s, run[0]); }
      TakesWorkWithinTen(Next(s, run[0]), run[1..], s', i);
    }
  }

  // ---------------------------------------------------------------------------------------------
  // Resting and yielding
  // ---------------------------------------------------------------------------------------------

  /** Whose steps are in the loop, and whose are a switch. */
  lemma {:induction false} LoopPhase(s: State, a: Action)
    requires LoopEnabled(s, a)
    ensures a.i in s.threads && !s.threads[a.i].Switched? && !s.threads[a.i].Requeue?
  {
    hide Exiting, WantsPoller, AllParked;
  }

  lemma {:induction false} SwitchPhase(s: State, a: Action)
    requires SwitchEnabled(s, a)
    ensures a.i in s.threads && !s.threads[a.i].Deciding?
  {
  }

  lemma {:induction false} LoopRests(s: State, a: Action)
    requires LoopEnabled(s, a) && s.threads[a.i].Deciding? && !Exiting(s) && s.runq == []
    ensures var s' := LoopNext(s, a);
      && a.i in s'.threads && s'.lock.None?
      && if s.seat.None? then s'.threads[a.i] == Polling(true) && s'.seat == Some(a.i)
         else s'.threads[a.i] == Sleeping(s.threads[a.i].checked, false) && s'.seat == s.seat
  {
  }

  /** With nothing to do a worker rests: in the poller, without a timeout, if the seat is free, else asleep. */
  lemma {:induction false} RestsWhenIdle(s: State, a: Action)
    requires Enabled(s, a) && a.i in s.threads && s.threads[a.i].Deciding? && !Exiting(s) && s.runq == []
    ensures var s' := Next(s, a);
      && a.i in s'.threads && s'.lock.None?
      && if s.seat.None? then s'.threads[a.i] == Polling(true) && s'.seat == Some(a.i)
         else s'.threads[a.i] == Sleeping(s.threads[a.i].checked, false) && s'.seat == s.seat
  {
    hide LoopEnabled, SwitchEnabled, CallEnabled, LoopNext, SwitchNext, CallNext;
    if LoopEnabled(s, a) {
      LoopRests(s, a);
    } else if SwitchEnabled(s, a) {
      SwitchPhase(s, a);
    } else {
      CallsComeFromTasks(s, a);
    }
  }

  lemma {:induction false} SwitchOn(s: State, a: Action, t: nat)
    requires SwitchEnabled(s, a)
    ensures s.threads[a.i] == Switched(t, Runnable) && !s.shutdown ==> SwitchNext(s, a).threads[a.i] == Requeue(t)
    ensures s.threads[a.i] == Requeue(t) ==>
      && t in s.tasks && SwitchNext(s, a).runq == s.runq + [t] && SwitchNext(s, a).freed == s.freed
      && SwitchNext(s, a).tasks == s.tasks[t := s.tasks[t].(at := Queued)]
  {
  }

  lemma {:induction false} BackFromTask(s: State, a: Action)
    requires Enabled(s, a) && a.i in s.threads && (s.threads[a.i].Switched? || s.threads[a.i].Requeue?)
    ensures SwitchEnabled(s, a) && Next(s, a) == SwitchNext(s, a)
  {
    hide LoopEnabled, SwitchEnabled, CallEnabled, LoopNext, SwitchNext, CallNext;
    if LoopEnabled(s, a) {
      LoopPhase(s, a);
    } else if !SwitchEnabled(s, a) {
      CallsComeFromTasks(s, a);
    }
  }

  lemma {:induction false} YieldedNext(s: State, a: Action, t: nat)
    requires Enabled(s, a) && a.i in s.threads && s.threads[a.i] == Switched(t, Runnable) && !s.shutdown
    ensures a.i in Next(s, a).threads && Next(s, a).threads[a.i] == Requeue(t)
  {
    hide Enabled, Next, SwitchEnabled, SwitchNext;
    BackFromTask(s, a);
    OneMoves(s, a);
    SwitchOn(s, a, t);
  }

  lemma {:induction false} RequeueNext(s: State, a: Action, t: nat)
    requires Enabled(s, a) && a.i in s.threads && s.threads[a.i] == Requeue(t)
    ensures t in s.tasks && Next(s, a).runq == s.runq + [t] && Next(s, a).freed == s.freed
    ensures Next(s, a).tasks == s.tasks[t := s.tasks[t].(at := Queued)]
  {
    hide Enabled, Next, SwitchEnabled, SwitchNext;
    BackFromTask(s, a);
    SwitchOn(s, a, t);
  }

  /** A thread stays where it is, up to a signal, while others move. */
  lemma {:induction false} Waits(s: State, run: seq<Action>, s': State, i: nat)
    requires Leads(s, run, s') && OwnSteps(run, i) == 0 && i in s.threads && !s.threads[i].Sleeping?
    ensures i in s'.threads && s'.threads[i] == s.threads[i]
    decreases |run|
  {
    hide Enabled, Next;
    if run == [] {
    } else {
      OneMoves(s, run[0]);
      Waits(Next(s, run[0]), run[1..], s', i);
    }
  }

  /** A task that yields is put at the end of the run queue by its worker's next two steps, whatever others do in
      between, unless shutdown is requested before the first of them. */
  lemma {:induction false} YieldedGoesBack(s: State, run: seq<Action>, s1: State, a: Action, run': seq<Action>,
      s2: State, b: Action, i: nat, t: nat)
    requires i in s.threads && s.threads[i] == Switched(t, Runnable)
    requires Leads(s, run, s1) && OwnSteps(run, i) == 0 && Enabled(s1, a) && a.i == i && !s1.shutdown
    requires Leads(Next(s1, a), run', s2) && OwnSteps(run', i) == 0 && Enabled(s2, b) && b.i == i
    ensures t in s2.tasks && Next(s2, b).runq == s2.runq + [t]
    ensures Next(s2, b).tasks == s2.tasks[t := s2.tasks[t].(at := Queued)] && Next(s2, b).freed == s2.freed
  {
    hide Enabled, Next, Leads;
    Waits(s, run, s1, i);
    YieldedNext(s1, a, t);
    Waits(Next(s1, a), run', s2, i);
    RequeueNext(s2, b, t);
  }

  // ---------------------------------------------------------------------------------------------
  // Descriptors are looked at between tasks
  // ---------------------------------------------------------------------------------------------

  predicate Looked(p: Phase) {
    AtPoller(p) || p.Events? || ((p.WantLock? || p.Deciding? || p.Sleeping?) && p.checked)
  }

  lemma {:induction false} LoopLooks(s: State, a: Action)
    requires LoopEnabled(s, a) && !Looked(s.threads[a.i]) && !a.BeginPoll?
    ensures !Looked(LoopNext(s, a).threads[a.i])
  {
  }

  lemma {:induction false} SwitchLooks(s: State, a: Action)
    requires SwitchEnabled(s, a)
    ensures !Looked(SwitchNext(s, a).threads[a.i])
  {
  }

  lemma {:induction false} CallLooks(s: State, a: Action)
    requires CallEnabled(s, a)
    ensures !Looked(CallNext(s, a).threads[a.i])
  {
  }

  lemma {:induction false} LooksStep(s: State, a: Action)
    requires Enabled(s, a) && a.i in s.threads && !Looked(s.threads[a.i]) && !a.BeginPoll?
    ensures a.i in Next(s, a).threads && !Looked(Next(s, a).threads[a.i])
  {
    hide LoopEnabled, SwitchEnabled, CallEnabled, LoopNext, SwitchNext, CallNext, Looked;
    OneMoves(s, a);
    if LoopEnabled(s, a) {
      LoopLooks(s, a);
    } else if SwitchEnabled(s, a) {
      SwitchLooks(s, a);
    } else {
      CallLooks(s, a);
    }
  }

  /** A worker that has run a task takes no other before it was in the poller, unless somebody else is there. */
  lemma {:induction false} LooksBetweenTasks(s: State, run: seq<Action>, s': State, i: nat)
    requires Leads(s, run, s') && i in s.threads && !Looked(s.threads[i]) && BeginPoll(i) !in run
    ensures i in s'.threads && !Looked(s'.threads[i]) && (CanPop(s', i) ==> s'.seat.Some?)
    decreases |run|
  {
    hide Enabled, Next, Looked;
    if run == [] {
      Unlooked(s, i);
    } else {
      assert run[0] in run && forall b :: b in run[1..] ==> b in run;
      OneMoves(s, run[0]);
      if run[0].i == i {
        LooksStep(s, run[0]);
      } else {
        Told(s.threads[i]);
      }
      LooksBetweenTasks(Next(s, run[0]), run[1..], s', i);
    }
  }

  lemma {:induction false} Unlooked(s: State, i: nat)
    requires i in s.threads && !Looked(s.threads[i])
    ensures CanPop(s, i) ==> s.seat.Some?
  {
  }

  lemma {:induction false} Told(p: Phase)
    ensures p.Sleeping? ==> Looked(p.(signalled := true)) == Looked(p)
  {
  }

  // ---------------------------------------------------------------------------------------------
  // Nobody is stuck
  // ---------------------------------------------------------------------------------------------

  /** Somebody to signal, if there is somebody. */
  lemma {:induction false} Signalable(threads: map<nat, Phase>) returns (j: Option<nat>)
    ensures MaySignal(threads, j)
  {
    if x :| x in threads && Unsignalled(threads[x]) {
      return Some(x);
    }
    return None;
  }

  predicate Looping(p: Phase) {
    p.NotStarted? || p.WantLock? || p.Deciding? || p.Polling? || p.Polled? || p.Events? || p.Sleeping?
  }

  lemma {:induction false} LoopMove(s: State, i: nat) returns (a: Action)
    requires LockOk(s) && RestOk(s) && QueueOk(s) && !s.down && i in s.threads && Looping(s.threads[i])
    requires s.lock.None? || s.lock == Some(i)
    ensures LoopEnabled(s, a) && a.i == i
  {
    hide PollerBlocked, SomeoneOwes, Distinct;
    match s.threads[i]
    case NotStarted => a := Start(i);
    case WantLock(_) => a := Lock(i);
    case Deciding(checked) =>
      assert s.runq != [] ==> s.runq[0] in s.runq;
      a := if Exiting(s) then Exit(i) else if WantsPoller(s, checked) then BeginPoll(i)
           else if s.runq != [] then Pop(i) else Sleep(i);
    case Polling(_) => a := PollReturn(i, false);
    case Polled => a := TakeBack(i);
    case Events => a := if Exiting(s) then ExitAfterPoll(i) else IoWake(i, []);
    case Sleeping(_, signalled) =>
      assert i in Sleepers(s.threads);
      a := if signalled then WakeUp(i) else Spurious(i);
  }

  /** A worker can always move while the lock is free or its own. */
  lemma {:induction false} NeverStuck(s: State, i: nat) returns (a: Action)
    requires Inv(s) && !s.down && i in s.threads && IsWorker(s.threads[i]) && !s.threads[i].Exited?
    requires s.lock.None? || s.lock == Some(i)
    ensures Enabled(s, a) && a.i == i
  {
    hide SeatOk, RestOk, NoLostWake, QueueOk, FreedOk, LoopEnabled;
    if Looping(s.threads[i]) {
      a := LoopMove(s, i);
      return;
    }
    match s.threads[i]
    case Running(_) => a := Yield(i);
    case Inside(_) => a := Leave(i);
    case Owing(_) => a := PayWake(i);
    case EndOwing(_) => a := EndWake(i);
    case Switched(_, yielded) => a := if yielded == Runnable && !s.shutdown then Keep(i) else Release(i);
    case Handing(_) => a := HandOver(i);
    case AfterPark => a := CheckAfterPark(i);
    case Requeue(_) =>
      var j := Signalable(s.threads);
      a := PutBack(i, j);
  }
}
