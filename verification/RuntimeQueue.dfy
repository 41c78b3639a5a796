/** The run queue in memory and the run queue of the step system: every step of the runtime that makes tasks runnable
    appends them with task_queue_push, and never finds one of them queued already. */
module RuntimeQueue {
  import opened Basics
  import opened PollerTypes
  import opened IoSpec
  import opened ChannelRuns
  import opened Runtime
  import opened RuntimeInv
  import opened Tasks
  import opened RunQueue
  import S = Scheduler
  import SchedulerInv
  import SchedulerTheorems
  import ChannelTheorems
  import RuntimeTheorems

  // ---------------------------------------------------------------------------------------------
  // Who is handed to the queue
  // ---------------------------------------------------------------------------------------------

  /** The tasks a move of the scheduler alone hands to task_queue_push. */
  ghost function HandedBy(s: S.State, a: S.Action): seq<nat> {
    match a
    case PutBack(i, _) => if i in s.threads && S.HasTask(s.threads[i]) then [s.threads[i].task] else []
    case Spawn(_, t, _, _) => [t]
    case _ => []
  }

  /** The tasks a step of the runtime hands to task_queue_push, in order. */
  ghost function Handed<T>(w: World<T>, a: Act<T>): seq<nat> {
    match a
    case Plain(x) => HandedBy(w.sched, x)
    case Channel(_, _, ts, _) => ts
    case RequestShutdown(_, ts) => ts
    case HandleEvents(_, batch) => WokenBy(w.waits, batch)
    case ForgetFd(_, fd) => IoSpec.Woken(SlotsAt(w.waits, fd), BOTH)
    case _ => []
  }

  predicate Pops<T>(a: Act<T>) {
    a.Plain? && a.a.Pop?
  }

  /** `ts` can be appended to the queue: all different, and none in it. */
  ghost predicate Absent(runq: seq<nat>, ts: seq<nat>) {
    SchedulerInv.Distinct(ts) && forall t :: t in ts ==> t !in runq
  }

  /** The front of the queue leaves, or `ts` is appended. */
  ghost predicate QueueMoves(runq: seq<nat>, pops: bool, ts: seq<nat>, runq': seq<nat>) {
    if pops then runq != [] && runq' == runq[1..] else runq' == runq + ts
  }

  lemma {:induction false} ParkedAreAbsent(s: S.State, ts: seq<nat>, why: TaskState)
    requires SchedulerInv.QueueOk(s) && S.AllParked(s, ts, why)
    ensures Absent(s.runq, ts)
  {
  }

  lemma {:induction false} LoopQueue(s: S.State, a: S.Action)
    requires S.LoopEnabled(s, a) && WakesNobody(a)
    ensures QueueMoves(s.runq, a.Pop?, HandedBy(s, a), S.LoopNext(s, a).runq)
  {
  }

  lemma {:induction false} SwitchQueue(s: S.State, a: S.Action)
    requires S.SwitchEnabled(s, a) && WakesNobody(a)
    ensures S.SwitchNext(s, a).runq == s.runq + HandedBy(s, a)
  {
  }

  lemma {:induction false} CallQueue(s: S.State, a: S.Action)
    requires S.CallEnabled(s, a) && WakesNobody(a)
    ensures S.CallNext(s, a).runq == s.runq + HandedBy(s, a)
  {
  }

  lemma {:induction false} PlainAbsent(s: S.State, a: S.Action)
    requires SchedulerInv.Inv(s) && S.Enabled(s, a)
    ensures Absent(s.runq, HandedBy(s, a))
  {
  }

  lemma {:induction false} PlainQueue(s: S.State, a: S.Action)
    requires SchedulerInv.Inv(s) && S.Enabled(s, a) && WakesNobody(a)
    ensures Absent(s.runq, HandedBy(s, a))
    ensures QueueMoves(s.runq, a.Pop?, HandedBy(s, a), S.Next(s, a).runq)
  {
    hide SchedulerInv.Inv, S.LoopEnabled, S.SwitchEnabled, S.CallEnabled, S.LoopNext, S.SwitchNext, S.CallNext,
         HandedBy;
    PlainAbsent(s, a);
    if S.LoopEnabled(s, a) {
      LoopQueue(s, a);
    } else if S.SwitchEnabled(s, a) {
      SwitchQueue(s, a);
      NoPop(s, a);
    } else {
      CallQueue(s, a);
      NoPop(s, a);
    }
  }

  lemma {:induction false} NoPop(s: S.State, a: S.Action)
    requires S.SwitchEnabled(s, a) || S.CallEnabled(s, a)
    ensures !a.Pop?
  {
  }

  lemma {:induction false} SleepKeepsQueue(s: S.State, i: nat, why: TaskState)
    ensures PutToSleep(s, i, why).runq == s.runq
  {
  }

  lemma {:induction false} ChannelQueue<T(!new)>(w: World<T>, i: nat, st: Step<T>, ts: seq<nat>, js: seq<Option<nat>>)
    requires Reachable(w) && CodeInv(w.chan) && MayAct(w, Channel(i, st, ts, js))
    ensures S.AllParked(w.sched, ts, WaitingChannel)
    ensures Next(w, Channel(i, st, ts, js)).sched.runq == w.sched.runq + ts
  {
    hide Reachable, CodeInv, Do, May, S.AllParked, Lists, Signals, SchedulerTheorems.Reachable,
         ChannelTheorems.Reachable, Matched, Seated, PutToSleep, WakeEach;
    RuntimeTheorems.GuardsHold(w, Channel(i, st, ts, js));
    RuntimeTheorems.ReachableAgrees(w);
    AllAreWoken(w.sched, i, ts, js);
    SleepKeepsQueue(WakeEach(w.sched, i, ts, js), i, WaitingChannel);
  }

  lemma {:induction false} ShutdownQueue<T(!new)>(w: World<T>, i: nat, ts: seq<nat>)
    requires Reachable(w) && CodeInv(w.chan) && MayAct(w, RequestShutdown(i, ts))
    ensures S.AllParked(w.sched, ts, WaitingChannel)
    ensures Next(w, RequestShutdown(i, ts)).sched.runq == w.sched.runq + ts
  {
    hide Reachable, CodeInv, Do, S.AllParked, Lists;
    RuntimeTheorems.GuardsHold(w, RequestShutdown(i, ts));
  }

  lemma {:induction false} EventsQueue<T(!new)>(w: World<T>, i: nat, batch: seq<PollEvent>)
    requires Reachable(w) && CodeInv(w.chan) && MayAct(w, HandleEvents(i, batch))
    ensures S.AllParked(w.sched, WokenBy(w.waits, batch), WaitingIo)
    ensures Next(w, HandleEvents(i, batch)).sched.runq == w.sched.runq + WokenBy(w.waits, batch)
  {
    hide Reachable, CodeInv, S.AllParked, WokenBy, WaitsAfter, WishesAfter;
    RuntimeTheorems.GuardsHold(w, HandleEvents(i, batch));
  }

  lemma {:induction false} ForgetQueue<T(!new)>(w: World<T>, i: nat, fd: int)
    requires Reachable(w) && CodeInv(w.chan) && MayAct(w, ForgetFd(i, fd))
    ensures S.AllParked(w.sched, IoSpec.Woken(SlotsAt(w.waits, fd), BOTH), WaitingIo)
    ensures Next(w, ForgetFd(i, fd)).sched.runq == w.sched.runq + IoSpec.Woken(SlotsAt(w.waits, fd), BOTH)
  {
    hide Reachable, CodeInv, S.AllParked, IoSpec.Woken, Remaining, Settle, SlotsAt, Without;
    RuntimeTheorems.GuardsHold(w, ForgetFd(i, fd));
  }

  lemma {:induction false} ParkQueue<T(!new)>(w: World<T>, i: nat, fd: int, events: Interest)
    requires CodeInv(w.chan) && MayAct(w, ParkOnIo(i, fd, events))
    ensures Next(w, ParkOnIo(i, fd, events)).sched.runq == w.sched.runq
  {
    hide CodeInv;
  }

  lemma {:induction false} ReturnQueue<T(!new)>(w: World<T>, i: nat, k: nat)
    requires CodeInv(w.chan) && MayAct(w, Return(i, k))
    ensures Next(w, Return(i, k)).sched.runq == w.sched.runq
  {
    hide CodeInv, Do;
  }

  lemma {:induction false} PlainStep<T(!new)>(w: World<T>, a: S.Action)
    requires SchedulerInv.Inv(w.sched) && CodeInv(w.chan) && MayAct(w, Plain(a))
    ensures Absent(w.sched.runq, HandedBy(w.sched, a))
    ensures QueueMoves(w.sched.runq, a.Pop?, HandedBy(w.sched, a), Next(w, Plain(a)).sched.runq)
  {
    hide SchedulerInv.Inv, CodeInv, S.Enabled, S.Next, HandedBy, Absent;
    PlainQueue(w.sched, a);
  }

  lemma {:induction false} QueueIsOk<T(!new)>(w: World<T>)
    requires Reachable(w)
    ensures SchedulerInv.Inv(w.sched) && SchedulerInv.QueueOk(w.sched)
  {
    hide Reachable, SchedulerTheorems.Reachable, ChannelTheorems.Reachable, Matched, Seated;
    RuntimeTheorems.ReachableAgrees(w);
    SchedulerTheorems.ReachableInv(w.sched);
  }

  /** In every reachable state of the runtime, whatever is made runnable is not in the queue already, so the early
      return of task_queue_push is never taken; and a step changes the queue only by popping its front or by
      appending what it makes runnable. */
  lemma {:induction false} NeverQueuedTwice<T(!new)>(w: World<T>, a: Act<T>)
    requires Reachable(w) && CodeInv(w.chan) && MayAct(w, a)
    ensures Absent(w.sched.runq, Handed(w, a))
    ensures QueueMoves(w.sched.runq, Pops(a), Handed(w, a), Next(w, a).sched.runq)
  {
    hide Reachable, CodeInv, MayAct, Next, HandedBy, WokenBy, IoSpec.Woken, SlotsAt, S.AllParked, SchedulerInv.Inv,
         SchedulerInv.QueueOk;
    QueueIsOk(w);
    match a
    case Plain(x) => PlainStep(w, x);
    case Channel(i, st, ts, js) =>
      ChannelQueue(w, i, st, ts, js);
      ParkedAreAbsent(w.sched, ts, WaitingChannel);
    case RequestShutdown(i, ts) =>
      ShutdownQueue(w, i, ts);
      ParkedAreAbsent(w.sched, ts, WaitingChannel);
    case Return(i, k) => ReturnQueue(w, i, k);
    case ParkOnIo(i, fd, events) => ParkQueue(w, i, fd, events);
    case HandleEvents(i, batch) =>
      EventsQueue(w, i, batch);
      ParkedAreAbsent(w.sched, WokenBy(w.waits, batch), WaitingIo);
    case ForgetFd(i, fd) =>
      ForgetQueue(w, i, fd);
      ParkedAreAbsent(w.sched, IoSpec.Woken(SlotsAt(w.waits, fd), BOTH), WaitingIo);
  }

  // ---------------------------------------------------------------------------------------------
  // The queue in memory
  // ---------------------------------------------------------------------------------------------

  ghost function Objects(tasks: map<nat, Task>, ts: seq<nat>): seq<Task>
    requires forall t :: t in ts ==> t in tasks
  {
    seq(|ts|, i requires 0 <= i < |ts| => tasks[ts[i]])
  }

  /** `q` holds the objects of `runq` in order, and the queued flag of a task says whether it is there.  `tasks` gives
      each task its object. */
  ghost predicate Holds(q: TaskQueue, tasks: map<nat, Task>, runq: seq<nat>)
    reads q, q.tasks, q.known, set t | t in tasks :: tasks[t]
  {
    && q.Valid() && q.tasks.Length > 0 && (forall t :: t in runq ==> t in tasks) && q.contents == Objects(tasks, runq)
    && (forall t, u :: t in tasks && u in tasks && tasks[t] == tasks[u] ==> t == u)
    && (forall t :: t in tasks ==> (tasks[t].queued <==> t in runq))
  }

  /** Handing tasks that are not in the queue to task_queue_push, one after another, appends them all; with memory
      for it, and no more tasks than half of what size_t counts, no push is refused. */
  method PushAll(q: TaskQueue, batch: seq<Task>, memory: bool, ghost tasks: map<nat, Task>, ghost runq: seq<nat>,
      ghost ts: seq<nat>)
    returns (ok: bool)
    requires Holds(q, tasks, runq) && Absent(runq, ts) && (forall t :: t in ts ==> t in tasks)
    requires batch == Objects(tasks, ts)
    modifies q, q.tasks, batch`queued
    ensures ok ==> Holds(q, tasks, runq + ts)
    ensures memory && |runq| + |ts| <= SIZE_MAX / 2 ==> ok
    ensures !memory ==> (ok <==> |runq| + |ts| <= old(q.tasks.Length) || ts == [])
    ensures q.tasks == old(q.tasks) || fresh(q.tasks)
  {
    assert ts[..0] == [] && runq + [] == runq;
    var i := 0;
    while i < |batch|
      invariant 0 <= i <= |batch| && Holds(q, tasks, runq + ts[..i])
      invariant q.tasks == old(q.tasks) || fresh(q.tasks)
      invariant !memory ==> q.tasks == old(q.tasks) && (i > 0 ==> |runq| + i <= q.tasks.Length)
    {
      ok := PushOne(q, batch[i], memory, tasks, runq + ts[..i], ts[i]);
      if !ok {
        return;
      }
      assert runq + ts[..i] + [ts[i]] == runq + ts[..i + 1];
      i := i + 1;
    }
    assert ts[..|ts|] == ts;
    return true;
  }

  /** One of them. */
  method PushOne(q: TaskQueue, task: Task, memory: bool, ghost tasks: map<nat, Task>, ghost runq: seq<nat>,
      ghost t: nat)
    returns (ok: bool)
    requires Holds(q, tasks, runq) && t in tasks && t !in runq && task == tasks[t]
    modifies q, q.tasks, task`queued
    ensures ok ==> Holds(q, tasks, runq + [t])
    ensures ok <==> old(q.count < q.tasks.Length) || (memory && old(q.tasks.Length) <= SIZE_MAX / 2)
    ensures (q.tasks == old(q.tasks) || fresh(q.tasks)) && (!memory ==> q.tasks == old(q.tasks))
  {
    ok := q.Push(task, memory);
    assert ok ==> q.contents == Objects(tasks, runq + [t]);
  }

  method PopFront(q: TaskQueue, ghost tasks: map<nat, Task>, ghost runq: seq<nat>) returns (ok: bool, task: Task?)
    requires Holds(q, tasks, runq) && SchedulerInv.Distinct(runq)
    modifies q`head, q`count, q`contents, q.known`queued
    ensures ok <==> runq != []
    ensures ok ==> task == tasks[runq[0]] && Holds(q, tasks, runq[1..])
    ensures !ok ==> Holds(q, tasks, runq)
  {
    ok, task := q.Pop();
  }

  /** Every step of the runtime, on the queue in memory: it pops the front, or hands what it makes runnable to
      task_queue_push.  With memory, and no more tasks than half of what size_t counts, the queue then holds what
      the step says. */
  method Follow<T(!new)>(q: TaskQueue, popping: bool, batch: seq<Task>, memory: bool, ghost tasks: map<nat, Task>,
      ghost w: World<T>, ghost a: Act<T>)
    returns (ok: bool, task: Task?)
    requires Reachable(w) && CodeInv(w.chan) && MayAct(w, a) && Holds(q, tasks, w.sched.runq)
    requires popping == Pops(a) && (forall t :: t in Handed(w, a) ==> t in tasks)
    requires batch == Objects(tasks, Handed(w, a))
    modifies q, q.tasks, q.known`queued, batch`queued
    ensures ok ==> Holds(q, tasks, Next(w, a).sched.runq)
    ensures memory && |w.sched.runq| + |batch| <= SIZE_MAX / 2 ==> ok
    ensures !memory && !popping ==> (ok <==> |w.sched.runq| + |batch| <= old(q.tasks.Length) || batch == [])
    ensures popping ==> ok && w.sched.runq != [] && w.sched.runq[0] in tasks && task == tasks[w.sched.runq[0]]
  {
    hide Reachable, CodeInv, MayAct, Next, Handed;
    NeverQueuedTwice(w, a);
    QueueIsOk(w);
    if popping {
      ok, task := PopFront(q, tasks, w.sched.runq);
    } else {
      ok := PushAll(q, batch, memory, tasks, w.sched.runq, Handed(w, a));
      task := null;
    }
  }
}
