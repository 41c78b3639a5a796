/** What the runtime promises as a whole, for every run from its start. */
module RuntimeTheorems {
  import opened Basics
  import opened PollerTypes
  import opened IoSpec
  import opened ChannelTypes
  import opened ChannelInv
  import opened ChannelRefine
  import opened ChannelRuns
  import opened Runtime
  import opened RuntimeInv
  import S = Scheduler
  import SchedulerInv
  import ChannelSpec
  import ChannelTheorems
  import SchedulerTheorems

  // ---------------------------------------------------------------------------------------------
  // Runs
  // ---------------------------------------------------------------------------------------------

  lemma {:induction false} StepCouples<T(!new)>(w: World<T>, a: Act<T>)
    requires Coupled(w) && CodeInv(w.chan) && MayAct(w, a)
    ensures Coupled(Next(w, a))
  {
    hide Coupled, CodeInv, MayAct, Next;
    match a
    case Plain(x) => PlainCouples(w, x);
    case Channel(i, st, ts, js) => ChannelCouples(w, i, st, ts, js);
    case RequestShutdown(i, ts) => ShutdownCouples(w, i, ts);
    case Return(i, k) => ReturnCouples(w, i, k);
    case ParkOnIo(i, fd, events) => ParkIoCouples(w, i, fd, events);
    case HandleEvents(i, batch) => EventsCouple(w, i, batch);
    case ForgetFd(i, fd) => ForgetCouples(w, i, fd);
  }

  lemma {:induction false} StartCouples<T(!new)>(w: World<T>)
    requires Starting(w)
    ensures Coupled(w)
  {
    hide ChannelTheorems.Reachable;
    ChannelTheorems.InitReachable<T>();
    assert SchedulerTheorems.Leads(w.sched, [], w.sched);
  }

  lemma {:induction false} RunCouples<T(!new)>(w: World<T>, run: seq<Act<T>>, w': World<T>)
    requires Coupled(w) && Leads(w, run, w')
    ensures Coupled(w')
    decreases |run|
  {
    hide Coupled, CodeInv, MayAct, Next;
    if run == [] {
    } else {
      StepCouples(w, run[0]);
      RunCouples(Next(w, run[0]), run[1..], w');
    }
  }

  /** In every reachable state scheduler, channels and table agree; and each half is where a run of its own could
      be, so that whatever holds of those runs holds of it. */
  lemma {:induction false} ReachableAgrees<T(!new)>(w: World<T>)
    requires Reachable(w)
    ensures Coupled(w)
  {
    hide Coupled, Starting, Leads;
    var w0, run :| Starting(w0) && Leads(w0, run, w);
    StartCouples(w0);
    RunCouples(w0, run, w);
  }

  // ---------------------------------------------------------------------------------------------
  // Wakes are exact
  // ---------------------------------------------------------------------------------------------

  /** The scheduler's condition on who is woken or put to sleep, for each kind of step. */
  ghost predicate GuardMet<T>(w: World<T>, a: Act<T>)
    requires CodeInv(w.chan) && MayAct(w, a)
  {
    match a
    case Plain(x) => true
    case Channel(i, st, ts, js) =>
      && S.AllParked(w.sched, ts, WaitingChannel)
      && (FallsAsleep(w.chan.calls, Do(w.chan, st).calls) ==>
            S.CanPark(WakeEach(w.sched, i, ts, js), i, WaitingChannel))
    case RequestShutdown(i, ts) => S.CanShutdown(w.sched, i, ts)
    case Return(_, _) => true
    case ParkOnIo(i, _, _) => S.CanPark(w.sched, i, WaitingIo)
    case HandleEvents(i, batch) => S.CanIoWake(w.sched, i, WokenBy(w.waits, batch))
    case ForgetFd(i, fd) => S.CanForget(w.sched, i, IoSpec.Woken(SlotsAt(w.waits, fd), BOTH))
  }

  /** It always holds: every task that channels or table say is woken does sleep there and can be woken, every
      task told to sleep may, and a shutdown wakes every task that sleeps on a channel. */
  lemma {:induction false} GuardsHold<T(!new)>(w: World<T>, a: Act<T>)
    requires Reachable(w) && CodeInv(w.chan) && MayAct(w, a)
    ensures GuardMet(w, a)
  {
    hide Coupled, CodeInv, MayAct, Next, Reachable, S.AllParked, S.CanPark, S.CanShutdown, S.CanIoWake, S.CanForget;
    ReachableAgrees(w);
    match a
    case Channel(i, st, ts, js) => ChannelCouples(w, i, st, ts, js);
    case RequestShutdown(i, ts) => NobodyIsLeftOut(w, i, ts);
    case ParkOnIo(i, fd, events) => ParkIoCouples(w, i, fd, events);
    case HandleEvents(i, batch) => EventsCouple(w, i, batch);
    case ForgetFd(i, fd) => ForgetCouples(w, i, fd);
    case _ =>
  }

  /** Whatever a channel step does, there is a list of those it wakes, so no step waits for one. */
  lemma {:induction false} SomeList<T>(calls: seq<Call<T>>, calls': seq<Call<T>>, n: nat) returns (ts: seq<nat>)
    requires n <= |calls| <= |calls'| && Single(calls)
    requires forall k :: 0 <= k < |calls| && calls[k].phase.Parked? ==> calls[k].task.Some?
    ensures SchedulerInv.Distinct(ts)
    ensures forall t :: t in ts <==> exists k: nat :: k < n && WokenNow(calls, calls', k) && calls[k].task == Some(t)
  {
    if n == 0 {
      ts := [];
    } else {
      var rest := SomeList(calls, calls', n - 1);
      if WokenNow(calls, calls', n - 1) {
        var t := calls[n - 1].task.value;
        ts := rest + [t];
        forall u ensures u in ts <==> exists k: nat :: k < n && WokenNow(calls, calls', k) && calls[k].task == Some(u) {
          if u in rest {
            var k: nat :| k < n - 1 && WokenNow(calls, calls', k) && calls[k].task == Some(u);
            assert k < n;
          }
        }
      } else {
        ts := rest;
        assert forall k: nat :: k < n && WokenNow(calls, calls', k) ==> k < n - 1;
      }
    }
  }

  /** A thread inside the runtime can request shutdown at any time. */
  lemma {:induction false} ShutdownIsPossible<T(!new)>(w: World<T>, i: nat) returns (ts: seq<nat>)
    requires Reachable(w) && CodeInv(w.chan) && Calling(w, i)
    ensures MayAct(w, RequestShutdown(i, ts))
  {
    hide CodeInv, Do, Calling, Reachable, Coupled;
    var calls, calls' := w.chan.calls, Do(w.chan, ShutDown).calls;
    CallsAreSingle(w.chan);
    CodeWakes(w.chan, ShutDown);
    SleepersHaveTasks(w.chan);
    ts := SomeList(calls, calls', |calls|);
    assert forall k: nat :: WokenNow(calls, calls', k) ==> k < |calls|;
  }

  lemma {:induction false} SleepersHaveTasks<T>(s: State<T>)
    requires CodeInv(s)
    ensures forall k :: 0 <= k < |s.calls| && s.calls[k].phase.Parked? ==> s.calls[k].task.Some?
  {
    hide CodeOk, Base, ChansOk, Drained, Quiet;
    assert Abs(s).calls == s.calls;
  }

  // ---------------------------------------------------------------------------------------------
  // Calls and their threads
  // ---------------------------------------------------------------------------------------------

  /** A channel call is made by the task of the thread that makes it.  If it sleeps, its thread holds a task that is
      being put to sleep; if not, the thread goes on inside the runtime.  The tasks it wakes join the run queue. */
  lemma {:induction false} CallTakesPlace<T(!new)>(w: World<T>, i: nat, st: Step<T>, ts: seq<nat>, js: seq<Option<nat>>)
    requires Reachable(w) && CodeInv(w.chan) && MayAct(w, Channel(i, st, ts, js)) && st.Operate?
    ensures i in w.sched.threads && i in Next(w, Channel(i, st, ts, js)).sched.threads
    ensures |Next(w, Channel(i, st, ts, js)).chan.calls| == |w.chan.calls| + 1
    ensures var w' := Next(w, Channel(i, st, ts, js));
      var p, q, call := w.sched.threads[i], w'.sched.threads[i], w'.chan.calls[|w.chan.calls|];
      && call.task == Caller(p) && w'.sched.runq == w.sched.runq + ts
      && (forall t :: t in ts ==> t in w'.sched.tasks && w'.sched.tasks[t].state == Runnable)
      && if call.phase.Parked? then p.Inside? && q == S.Handing(p.task) && w'.sched.lock == w.sched.lock
         else call.phase.Returned? && q == p
  {
    hide Reachable, CodeInv, Do, May, S.AllParked, Lists, Signals, SchedulerTheorems.Reachable,
         ChannelTheorems.Reachable, Matched, Seated, WakeEach, Wakes;
    var s := WakeEach(w.sched, i, ts, js);
    GuardsHold(w, Channel(i, st, ts, js));
    ReachableAgrees(w);
    AllAreWoken(w.sched, i, ts, js);
    SameLock(w.sched, i, ts, js);
    CodeWakes(w.chan, st);
    WakesSize(w.chan.calls, Do(w.chan, st).calls);
    NotTheirs(w.sched, i, ts);
  }

  lemma {:induction false} SameLock(s: S.State, i: nat, ts: seq<nat>, js: seq<Option<nat>>)
    requires |js| == |ts|
    ensures WakeEach(s, i, ts, js).lock == s.lock
    decreases |ts|
  {
    if ts == [] {
    } else if S.CanChannelWake(s, i, ts[0], js[0]) {
      SameLock(S.DoChannelWake(s, i, ts[0], js[0]), i, ts[1..], js[1..]);
    }
  }

  /** Nobody wakes itself. */
  lemma {:induction false} NotTheirs(s: S.State, i: nat, ts: seq<nat>)
    requires SchedulerTheorems.Reachable(s) && S.AllParked(s, ts, WaitingChannel) && i in s.threads
    ensures S.HasTask(s.threads[i]) ==> s.threads[i].task !in ts
    ensures forall t :: t in ts ==> t in s.tasks
  {
    hide SchedulerTheorems.Reachable;
    SchedulerTheorems.ReachableInv(s);
  }

  /** A woken call returns what it was woken with, and nothing else changes. */
  lemma {:induction false} ReturnTells<T(!new)>(w: World<T>, i: nat, k: nat)
    requires CodeInv(w.chan) && MayAct(w, Return(i, k))
    ensures var w' := Next(w, Return(i, k));
      && k < |w.chan.calls| && w.chan.calls[k].phase.Woken? && w'.sched == w.sched
      && w'.waits == w.waits && w'.wishes == w.wishes
      && w'.chan.calls == w.chan.calls[k := w.chan.calls[k].(phase := Returned(w.chan.calls[k].phase.outcome))]
  {
    hide CodeInv, Do, May;
    ResumeCalls(w.chan, k);
  }

  // ---------------------------------------------------------------------------------------------
  // One place each
  // ---------------------------------------------------------------------------------------------

  /** Task `t` sleeps in a channel call. */
  ghost predicate InChannelCall<T>(w: World<T>, t: nat) {
    exists k: nat :: SleepsIn(w.chan.calls, k, t)
  }

  /** Whenever the lock is free a task that was not released is in exactly one of four places: queued, once; on
      one thread; in the wait table; in one channel call. */
  lemma {:induction false} ExactlyOnePlace<T(!new)>(w: World<T>, t: nat)
    requires Reachable(w) && w.sched.lock.None? && t in w.sched.tasks && t !in w.sched.freed
    ensures t in w.sched.runq || SchedulerTheorems.IsHeld(w.sched, t) || t in w.wishes || InChannelCall(w, t)
    ensures t in w.sched.runq ==> !SchedulerTheorems.IsHeld(w.sched, t) && t !in w.wishes && !InChannelCall(w, t)
    ensures SchedulerTheorems.IsHeld(w.sched, t) ==> t !in w.wishes && !InChannelCall(w, t)
    ensures t in w.wishes ==> !InChannelCall(w, t)
    ensures SchedulerInv.Distinct(w.sched.runq)
  {
    hide SchedulerTheorems.Reachable, ChannelTheorems.Reachable, Reachable, Seated;
    ReachableAgrees(w);
    SchedulerTheorems.OnePlace(w.sched, t);
    if InChannelCall(w, t) {
      var k: nat :| SleepsIn(w.chan.calls, k, t);
      assert InCall(w.sched.tasks, w.chan.calls[k]);
    }
  }

  /** In the table means in the slots of one descriptor, as asked for, and in no other; and in no channel call that
      has not returned. */
  lemma {:induction false} TableMeansSlots<T(!new)>(w: World<T>, t: nat, fd: int)
    requires Reachable(w)
    ensures HeldBy(SlotsAt(w.waits, fd), t) == if t in w.wishes && w.wishes[t].fd == fd then w.wishes[t].events
            else NONE
    ensures t in w.wishes ==> w.wishes[t].events != NONE
    ensures t in w.wishes ==> forall k :: 0 <= k < |w.chan.calls| && Unfinished(w.chan.calls[k]) ==>
      w.chan.calls[k].task != Some(t)
  {
    hide SchedulerTheorems.Reachable, ChannelTheorems.Reachable, Reachable;
    ReachableAgrees(w);
    if t in w.wishes {
      forall k | 0 <= k < |w.chan.calls| && Unfinished(w.chan.calls[k]) ensures w.chan.calls[k].task != Some(t) {
        assert InCall(w.sched.tasks, w.chan.calls[k]);
      }
    }
  }

  /** In a channel call means in one call only, with a waiter linked for each of its cases that names a channel, of
      which there is one at least. */
  lemma {:induction false} CallMeansLinked<T(!new)>(w: World<T>, t: nat, k: nat, c: nat, op: Op)
    requires Reachable(w) && SleepsIn(w.chan.calls, k, t) && c < |w.chan.chans|
    ensures forall j: nat :: SleepsIn(w.chan.calls, j, t) ==> j == k
    ensures forall r :: Names(w.chan, r, c, op) && r.call == k ==> r in Waiters(w.chan.chans[c], op)
    ensures exists i :: 0 <= i < |w.chan.calls[k].cases| && w.chan.calls[k].cases[i].chan.Some?
  {
    hide SchedulerTheorems.Reachable, Reachable, Seated, Matched;
    ReachableAgrees(w);
    ChannelTheorems.ReachableInv(w.chan);
    CallsAreSingle(w.chan);
    LinkedAll(w.chan, k, c, op);
  }

  lemma {:induction false} LinkedAll<T>(s: State<T>, k: nat, c: nat, op: Op)
    requires CodeInv(s) && k < |s.calls| && s.calls[k].phase.Parked? && c < |s.chans|
    ensures forall r :: Names(s, r, c, op) && r.call == k ==> r in Waiters(s.chans[c], op)
    ensures exists i :: 0 <= i < |s.calls[k].cases| && s.calls[k].cases[i].chan.Some?
  {
    hide CodeOk, Drained, ChansOk, Quiet;
    var a := Abs(s);
    assert a.calls == s.calls && a.chans[c] == AbsChan(s.chans[c], s.calls);
    assert !ChannelSpec.NamesNoChannel(a.calls[k].cases);
    forall r | Names(s, r, c, op) && r.call == k ensures r in Waiters(s.chans[c], op) {
      assert Names(a, r, c, op);
      LiveMembers(Waiters(s.chans[c], op), s.calls);
    }
  }

  /** A call somebody answered: its task is runnable and in the queue or on a thread, unless it was released; and
      while it is queued and no exit was requested, somebody will look at the queue. */
  lemma {:induction false} AnsweredCallRuns<T(!new)>(w: World<T>, k: nat)
    requires Reachable(w) && w.sched.lock.None? && k < |w.chan.calls| && w.chan.calls[k].phase.Woken?
    ensures w.chan.calls[k].task.Some? && w.chan.calls[k].task.value in w.sched.tasks
    ensures var t := w.chan.calls[k].task.value;
      && w.sched.tasks[t].state == Runnable
      && (t in w.sched.runq || SchedulerTheorems.IsHeld(w.sched, t) || t in w.sched.freed)
      && (t in w.sched.runq && !S.Exiting(w.sched) ==> SchedulerInv.OnItsWay(w.sched))
  {
    hide SchedulerTheorems.Reachable, ChannelTheorems.Reachable, Reachable, Seated, SchedulerInv.OnItsWay;
    ReachableAgrees(w);
    assert InCall(w.sched.tasks, w.chan.calls[k]);
    var t := w.chan.calls[k].task.value;
    if t !in w.sched.freed {
      SchedulerTheorems.OnePlace(w.sched, t);
    }
    if t in w.sched.runq && !S.Exiting(w.sched) {
      SchedulerTheorems.NoLostWakeup(w.sched);
    }
  }

  // ---------------------------------------------------------------------------------------------
  // Shutdown
  // ---------------------------------------------------------------------------------------------

  /** Once shutdown was requested no task sleeps on a channel, no call does, and no waiter of any kind is linked to
      any channel, for good. */
  lemma {:induction false} NoChannelSleeperAfterShutdown<T(!new)>(w: World<T>)
    requires Reachable(w) && w.sched.shutdown
    ensures forall t :: t in w.sched.tasks ==> w.sched.tasks[t].state != WaitingChannel
    ensures forall k :: 0 <= k < |w.chan.calls| ==> !w.chan.calls[k].phase.Parked?
    ensures forall c, op :: 0 <= c < |w.chan.chans| ==> Waiters(w.chan.chans[c], op) == []
  {
    hide SchedulerTheorems.Reachable, ChannelTheorems.Reachable, Reachable, Seated;
    ReachableAgrees(w);
    ChannelTheorems.ReachableInv(w.chan);
    ShutMeansEmpty(w.chan);
  }

  lemma {:induction false} ShutMeansEmpty<T>(s: State<T>)
    requires CodeInv(s) && s.shutdown
    ensures forall k :: 0 <= k < |s.calls| ==> !s.calls[k].phase.Parked?
    ensures forall c, op :: 0 <= c < |s.chans| ==> Waiters(s.chans[c], op) == []
  {
    hide CodeOk, Base, ChansOk, CallsOk;
    assert Abs(s).shutdown && Abs(s).calls == s.calls;
  }

  /** worker_deinit after request-shutdown and join; `es` are the entries of the wait table as they lie. */
  ghost predicate CanDeinit<T>(w: World<T>, es: seq<Entry<nat>>) {
    && !w.sched.down && w.sched.lock.None? && w.sched.shutdown
    && (forall i :: i in w.sched.threads ==>
          w.sched.threads[i].NotStarted? || w.sched.threads[i].Exited? || w.sched.threads[i].Outside?)
    && exists place :: Indexed(es, place, w.waits)
  }

  /** What the walk over the table releases are the tasks that sleep on descriptors, each once. */
  lemma {:induction false} TableWalk<T(!new)>(w: World<T>, es: seq<Entry<nat>>)
    requires Reachable(w) && CanDeinit(w, es)
    ensures SchedulerTheorems.CanDeinit(w.sched, HeldAll(es))
  {
    hide SchedulerTheorems.Reachable, ChannelTheorems.Reachable, Reachable, Seated, HeldAll, Indexed;
    ReachableAgrees(w);
    SchedulerTheorems.ReachableInv(w.sched);
    var place :| Indexed(es, place, w.waits);
    var ios := HeldAll(es);
    forall t ensures t in ios <==> t in w.wishes {
      WaitersReleasedOnce(es, place, w.waits, w.wishes, t);
    }
    forall a, b | 0 <= a < b < |ios| ensures ios[a] != ios[b] {
      WaitersReleasedOnce(es, place, w.waits, w.wishes, ios[a]);
      OccursOnce(ios, a, b);
    }
    forall t | t in ios ensures w.sched.tasks[t].at == S.Parked {
      NobodyHolds(w.sched, t);
    }
  }

  /** With every worker gone, a task that sleeps is parked. */
  lemma {:induction false} NobodyHolds(s: S.State, t: nat)
    requires SchedulerInv.Inv(s) && t in s.tasks && IsAsleep(s.tasks[t].state)
    requires forall i :: i in s.threads ==> s.threads[i].NotStarted? || s.threads[i].Exited? || s.threads[i].Outside?
    ensures s.tasks[t].at == S.Parked
  {
  }

  /** Over every run of scheduler, channels and table that ends in shutdown, join and deinit, each task ever spawned
      is released exactly once: finished, yielded late, still queued, woken from a channel by the shutdown, or in
      the wait table, whose entries are walked as they lie.  By then nothing is linked to any channel, so no queue
      names a waiter on a stack that was released. */
  lemma {:induction false} EveryTaskReleasedOnce<T(!new)>(w: World<T>, es: seq<Entry<nat>>)
    requires Reachable(w) && CanDeinit(w, es)
    ensures SchedulerTheorems.CanDeinit(w.sched, HeldAll(es))
    ensures var s' := SchedulerTheorems.DoDeinit(w.sched, HeldAll(es));
      && s'.tasks.Keys == w.sched.tasks.Keys && SchedulerInv.Distinct(s'.freed)
      && forall t :: t in s'.freed <==> t in w.sched.tasks
    ensures forall c, op :: 0 <= c < |w.chan.chans| ==> Waiters(w.chan.chans[c], op) == []
  {
    hide SchedulerTheorems.Reachable, ChannelTheorems.Reachable, Reachable, Seated, HeldAll, Matched;
    ReachableAgrees(w);
    TableWalk(w, es);
    SchedulerTheorems.ReleasedOnce(w.sched, HeldAll(es));
    NoChannelSleeperAfterShutdown(w);
  }
}
