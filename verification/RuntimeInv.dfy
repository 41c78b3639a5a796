/** What scheduler, channels and wait table agree on, and that every step keeps it. */
module RuntimeInv {
  import opened Basics
  import opened PollerTypes
  import opened IoSpec
  import opened ChannelTypes
  import opened ChannelInv
  import opened ChannelRefine
  import opened ChannelRuns
  import opened Runtime
  import S = Scheduler
  import SchedulerInv
  import ChannelTheorems
  import SchedulerTheorems

  // ---------------------------------------------------------------------------------------------
  // The agreement
  // ---------------------------------------------------------------------------------------------

  predicate IsAsleep(st: TaskState) {
    st == WaitingIo || st == WaitingChannel
  }

  /** A call that sleeps has a task asleep on a channel; one that was woken, a runnable task. */
  ghost predicate InCall<T>(tasks: map<nat, S.Task>, call: Call<T>) {
    && call.task.Some? && call.task.value in tasks
    && tasks[call.task.value].state == if call.phase.Parked? then WaitingChannel else Runnable
  }

  /** Who sleeps on a channel sleeps in a call, and who sleeps on a descriptor is in the table. */
  ghost predicate Matched<T>(tasks: map<nat, S.Task>, calls: seq<Call<T>>, wishes: map<nat, Wish>) {
    && (forall k :: 0 <= k < |calls| && Unfinished(calls[k]) ==> InCall(tasks, calls[k]))
    && (forall t :: t in tasks && tasks[t].state == WaitingChannel ==> exists k: nat :: SleepsIn(calls, k, t))
    && (forall t :: t in wishes <==> t in tasks && tasks[t].state == WaitingIo)
  }

  ghost predicate Single<T>(calls: seq<Call<T>>) {
    forall j, k :: 0 <= j < k < |calls| && Unfinished(calls[j]) && Unfinished(calls[k]) ==>
      calls[j].task != calls[k].task
  }

  /** Both halves are where their own runs could have led them, and they agree. */
  ghost predicate Coupled<T(!new)>(w: World<T>) {
    && SchedulerTheorems.Reachable(w.sched) && ChannelTheorems.Reachable(w.chan) && Seated(w.waits, w.wishes)
    && w.chan.shutdown == w.sched.shutdown && Matched(w.sched.tasks, w.chan.calls, w.wishes)
  }

  // ---------------------------------------------------------------------------------------------
  // Sleepers are parked
  // ---------------------------------------------------------------------------------------------

  /** While a thread holds the lock and is not handing a task over, whoever sleeps has left its worker. */
  lemma {:induction false} SleeperIsParked(s: S.State, i: nat, t: nat)
    requires SchedulerInv.Inv(s) && i in s.threads && S.HoldsLock(s.threads[i]) && !s.threads[i].Handing?
    requires t in s.tasks && IsAsleep(s.tasks[t].state)
    ensures s.tasks[t].at == S.Parked
  {
  }

  lemma {:induction false} SleepersAreParked(s: S.State, i: nat, ts: seq<nat>, why: TaskState)
    requires SchedulerInv.Inv(s) && i in s.threads && S.HoldsLock(s.threads[i]) && !s.threads[i].Handing?
    requires IsAsleep(why)
    requires SchedulerInv.Distinct(ts) && forall t :: t in ts ==> t in s.tasks && s.tasks[t].state == why
    ensures S.AllParked(s, ts, why)
  {
    hide SchedulerInv.Inv;
    forall t | t in ts ensures s.tasks[t].at == S.Parked {
      SleeperIsParked(s, i, t);
    }
  }

  // ---------------------------------------------------------------------------------------------
  // Waking one by one
  // ---------------------------------------------------------------------------------------------

  lemma {:induction false} WakeOne(s: S.State, i: nat, t: nat, j: Option<nat>)
    requires SchedulerTheorems.Reachable(s) && S.CanChannelWake(s, i, t, j)
    ensures var s' := S.DoChannelWake(s, i, t, j);
      && SchedulerTheorems.Reachable(s') && s'.threads == S.Signal(s.threads, j) && S.Up(s', i)
      && s'.threads[i] == s.threads[i]
      && s'.runq == s.runq + [t] && s'.tasks == S.Push(s, [t]).tasks && s'.shutdown == s.shutdown
  {
    hide SchedulerTheorems.Reachable;
    assert S.Next(s, S.ChannelWake(i, t, j)) == S.DoChannelWake(s, i, t, j);
    SchedulerTheorems.StepReaches(s, S.ChannelWake(i, t, j));
  }

  lemma {:induction false} PushTwice(s: S.State, s1: S.State, s2: S.State, ts: seq<nat>)
    requires ts != [] && s1.tasks == S.Push(s, [ts[0]]).tasks && s2.tasks == S.Push(s1, ts[1..]).tasks
    ensures s2.tasks == S.Push(s, ts).tasks
  {
    assert ts == [ts[0]] + ts[1..];
  }

  lemma {:induction false} StillParked(s: S.State, s1: S.State, ts: seq<nat>, why: TaskState)
    requires ts != [] && S.AllParked(s, ts, why) && s1.tasks == S.Push(s, [ts[0]]).tasks
    ensures S.AllParked(s1, ts[1..], why)
  {
    forall t | t in ts[1..] ensures t in ts && t != ts[0] {
      var k :| 0 <= k < |ts[1..]| && ts[1..][k] == t;
      assert ts[k + 1] == t;
    }
  }

  /** None of the wakes is refused, and each task becomes runnable. */
  lemma {:induction false} AllAreWoken(s: S.State, i: nat, ts: seq<nat>, js: seq<Option<nat>>)
    requires SchedulerTheorems.Reachable(s) && S.Up(s, i) && S.InRuntime(s.threads[i])
    requires S.AllParked(s, ts, WaitingChannel) && |js| == |ts| && Signals(s.threads, js)
    ensures var s' := WakeEach(s, i, ts, js);
      && SchedulerTheorems.Reachable(s') && S.Up(s', i) && s'.threads[i] == s.threads[i]
      && s'.runq == s.runq + ts && s'.tasks == S.Push(s, ts).tasks && s'.shutdown == s.shutdown
    decreases |ts|
  {
    hide SchedulerTheorems.Reachable;
    if ts == [] {
      assert S.Push(s, []).tasks == s.tasks;
    } else {
      assert S.CanChannelWake(s, i, ts[0], js[0]);
      var s1 := S.DoChannelWake(s, i, ts[0], js[0]);
      WakeOne(s, i, ts[0], js[0]);
      StillParked(s, s1, ts, WaitingChannel);
      AllAreWoken(s1, i, ts[1..], js[1..]);
      PushTwice(s, s1, WakeEach(s1, i, ts[1..], js[1..]), ts);
      assert s.runq + [ts[0]] + ts[1..] == s.runq + ts;
    }
  }

  // ---------------------------------------------------------------------------------------------
  // The agreement is kept
  // ---------------------------------------------------------------------------------------------

  lemma {:induction false} ListedSleep<T>(tasks: map<nat, S.Task>, calls: seq<Call<T>>, wishes: map<nat, Wish>,
      calls': seq<Call<T>>, ts: seq<nat>)
    requires Matched(tasks, calls, wishes) && Lists(calls, calls', ts)
    ensures forall t :: t in ts ==> t in tasks && tasks[t].state == WaitingChannel
  {
    forall t | t in ts ensures t in tasks && tasks[t].state == WaitingChannel {
      var k: nat :| WokenNow(calls, calls', k) && calls[k].task == Some(t);
      assert InCall(tasks, calls[k]);
    }
  }

  /** The listed tasks become runnable as their calls are woken. */
  lemma {:induction false} MatchedWakes<T>(s: S.State, calls: seq<Call<T>>, wishes: map<nat, Wish>,
      calls': seq<Call<T>>, ts: seq<nat>)
    requires Matched(s.tasks, calls, wishes) && Single(calls) && Lists(calls, calls', ts) && |calls'| == |calls|
    requires forall k :: 0 <= k < |calls| ==> calls'[k] == calls[k] || WokenNow(calls, calls', k)
    ensures Matched(S.Push(s, ts).tasks, calls', wishes)
  {
    var tasks := S.Push(s, ts).tasks;
    ListedSleep(s.tasks, calls, wishes, calls', ts);
    forall k | 0 <= k < |calls'| && Unfinished(calls'[k]) ensures InCall(tasks, calls'[k]) {
      assert InCall(s.tasks, calls[k]);
      ListedIff(calls, calls', ts, k);
    }
    forall t | t in tasks && tasks[t].state == WaitingChannel ensures exists k: nat :: SleepsIn(calls', k, t) {
      var k: nat :| SleepsIn(calls, k, t);
      ListedIff(calls, calls', ts, k);
      assert SleepsIn(calls', k, t);
    }
  }

  /** A sleeping call is woken if and only if its task is listed. */
  lemma {:induction false} ListedIff<T>(calls: seq<Call<T>>, calls': seq<Call<T>>, ts: seq<nat>, k: nat)
    requires Single(calls) && Lists(calls, calls', ts) && k < |calls| == |calls'| && Unfinished(calls[k])
    requires calls[k].task.Some?
    ensures calls[k].task.value in ts <==> WokenNow(calls, calls', k)
  {
    var t := calls[k].task.value;
    if t in ts {
      var j: nat :| WokenNow(calls, calls', j) && calls[j].task == Some(t);
      assert j == k;
    }
  }

  /** A call that returned without sleeping is nobody's business. */
  lemma {:induction false} MatchedReturns<T>(tasks: map<nat, S.Task>, calls: seq<Call<T>>, wishes: map<nat, Wish>,
      call: Call<T>)
    requires Matched(tasks, calls, wishes) && call.phase.Returned?
    ensures Matched(tasks, calls + [call], wishes)
  {
    forall t | t in tasks && tasks[t].state == WaitingChannel ensures exists k: nat :: SleepsIn(calls + [call], k, t) {
      var k: nat :| SleepsIn(calls, k, t);
      assert SleepsIn(calls + [call], k, t);
    }
  }

  lemma {:induction false} MatchedSleeps<T>(tasks: map<nat, S.Task>, calls: seq<Call<T>>, wishes: map<nat, Wish>,
      call: Call<T>, t: nat)
    requires Matched(tasks, calls, wishes) && call.phase.Parked? && call.task == Some(t)
    requires t in tasks && tasks[t].state == Runnable
    requires forall k :: 0 <= k < |calls| && Unfinished(calls[k]) ==> calls[k].task != Some(t)
    ensures Matched(tasks[t := tasks[t].(state := WaitingChannel)], calls + [call], wishes)
  {
    var tasks', calls' := tasks[t := tasks[t].(state := WaitingChannel)], calls + [call];
    forall k | 0 <= k < |calls'| && Unfinished(calls'[k]) ensures InCall(tasks', calls'[k]) {
      assert k < |calls| ==> InCall(tasks, calls[k]);
    }
    forall u | u in tasks' && tasks'[u].state == WaitingChannel ensures exists k: nat :: SleepsIn(calls', k, u) {
      if u == t {
        assert SleepsIn(calls', |calls|, t);
      } else {
        var k: nat :| SleepsIn(calls, k, u);
        assert SleepsIn(calls', k, u);
      }
    }
  }

  /** A woken call returns. */
  lemma {:induction false} MatchedFinishes<T>(tasks: map<nat, S.Task>, calls: seq<Call<T>>, wishes: map<nat, Wish>,
      k: nat, call: Call<T>)
    requires Matched(tasks, calls, wishes) && k < |calls| && calls[k].phase.Woken? && call.phase.Returned?
    ensures Matched(tasks, calls[k := call], wishes)
  {
    var calls' := calls[k := call];
    forall t | t in tasks && tasks[t].state == WaitingChannel ensures exists j: nat :: SleepsIn(calls', j, t) {
      var j: nat :| SleepsIn(calls, j, t);
      assert SleepsIn(calls', j, t);
    }
  }

  /** A task goes to sleep on a descriptor. */
  lemma {:induction false} MatchedWaits<T>(tasks: map<nat, S.Task>, calls: seq<Call<T>>, wishes: map<nat, Wish>,
      t: nat, wish: Wish)
    requires Matched(tasks, calls, wishes) && t in tasks && tasks[t].state == Runnable
    requires forall k :: 0 <= k < |calls| && Unfinished(calls[k]) ==> calls[k].task != Some(t)
    ensures t !in wishes && Matched(tasks[t := tasks[t].(state := WaitingIo)], calls, wishes[t := wish])
  {
    var tasks' := tasks[t := tasks[t].(state := WaitingIo)];
    forall k | 0 <= k < |calls| && Unfinished(calls[k]) ensures InCall(tasks', calls[k]) {
      assert InCall(tasks, calls[k]);
    }
  }

  /** Tasks are woken from descriptors. */
  lemma {:induction false} MatchedReady<T>(s: S.State, calls: seq<Call<T>>, wishes: map<nat, Wish>,
      wishes': map<nat, Wish>, ts: seq<nat>)
    requires Matched(s.tasks, calls, wishes) && (forall t :: t in ts ==> t in wishes)
    requires forall t :: t in wishes' <==> t in wishes && t !in ts
    ensures Matched(S.Push(s, ts).tasks, calls, wishes')
  {
    var tasks := S.Push(s, ts).tasks;
    forall k | 0 <= k < |calls| && Unfinished(calls[k]) ensures InCall(tasks, calls[k]) {
      assert InCall(s.tasks, calls[k]);
    }
  }

  // ---------------------------------------------------------------------------------------------
  // Moves of the scheduler alone
  // ---------------------------------------------------------------------------------------------

  /** Tasks keep their state, but for one that finishes; new tasks are runnable. */
  ghost predicate StatesKept(s: S.State, s': S.State, a: S.Action) {
    && s.tasks.Keys <= s'.tasks.Keys && s'.shutdown == s.shutdown
    && (forall t :: t in s'.tasks && t !in s.tasks ==> s'.tasks[t].state == Runnable)
    && (forall t :: t in s.tasks && s'.tasks[t].state != s.tasks[t].state ==>
          && Voluntary(a) && a.i in s.threads && S.HasTask(s.threads[a.i]) && s.threads[a.i].task == t
          && s.tasks[t].state == Runnable && s'.tasks[t].state == Finished)
  }

  lemma {:induction false} LoopKeepsStates(s: S.State, a: S.Action)
    requires S.LoopEnabled(s, a) && WakesNobody(a)
    ensures StatesKept(s, S.LoopNext(s, a), a)
  {
  }

  lemma {:induction false} SwitchKeepsStates(s: S.State, a: S.Action)
    requires SchedulerInv.HeldOk(s) && S.SwitchEnabled(s, a) && WakesNobody(a)
    ensures StatesKept(s, S.SwitchNext(s, a), a)
  {
  }

  lemma {:induction false} CallKeepsStates(s: S.State, a: S.Action)
    requires S.CallEnabled(s, a) && WakesNobody(a)
    ensures StatesKept(s, S.CallNext(s, a), a)
  {
  }

  lemma {:induction false} PlainKeepsStates(s: S.State, a: S.Action)
    requires SchedulerInv.Inv(s) && S.Enabled(s, a) && WakesNobody(a)
    ensures StatesKept(s, S.Next(s, a), a)
  {
    hide S.LoopEnabled, S.SwitchEnabled, S.CallEnabled, S.LoopNext, S.SwitchNext, S.CallNext, StatesKept, WakesNobody;
    if S.LoopEnabled(s, a) {
      LoopKeepsStates(s, a);
    } else if S.SwitchEnabled(s, a) {
      SwitchKeepsStates(s, a);
    } else {
      CallKeepsStates(s, a);
    }
  }

  lemma {:induction false} MatchedPlain<T>(s: S.State, s': S.State, a: S.Action, calls: seq<Call<T>>,
      wishes: map<nat, Wish>)
    requires Matched(s.tasks, calls, wishes) && StatesKept(s, s', a)
    requires Voluntary(a) && a.i in s.threads ==> AtLeisure(calls, s.threads[a.i])
    ensures Matched(s'.tasks, calls, wishes)
  {
    forall k | 0 <= k < |calls| && Unfinished(calls[k]) ensures InCall(s'.tasks, calls[k]) {
      assert InCall(s.tasks, calls[k]);
    }
    forall t | t in s'.tasks && s'.tasks[t].state == WaitingChannel ensures exists k: nat :: SleepsIn(calls, k, t) {
      assert t in s.tasks && s.tasks[t].state == WaitingChannel;
    }
  }

  lemma {:induction false} PlainCouples<T(!new)>(w: World<T>, a: S.Action)
    requires Coupled(w) && CodeInv(w.chan) && MayAct(w, Plain(a))
    ensures Coupled(Next(w, Plain(a)))
  {
    hide SchedulerTheorems.Reachable, ChannelTheorems.Reachable, CodeInv, SchedulerInv.Inv, S.Enabled, S.Next, Matched,
         StatesKept, Seated;
    SchedulerTheorems.ReachableInv(w.sched);
    PlainKeepsStates(w.sched, a);
    SchedulerTheorems.StepReaches(w.sched, a);
    MatchedPlain(w.sched, S.Next(w.sched, a), a, w.chan.calls, w.wishes);
    SameShutdown(w.sched, a);
  }

  lemma {:induction false} SameShutdown(s: S.State, a: S.Action)
    requires S.Enabled(s, a) && StatesKept(s, S.Next(s, a), a)
    ensures S.Next(s, a).shutdown == s.shutdown
  {
    hide S.Enabled, S.Next;
  }

  // ---------------------------------------------------------------------------------------------
  // Channel operations
  // ---------------------------------------------------------------------------------------------

  lemma {:induction false} CallsAreSingle<T>(s: State<T>)
    requires CodeInv(s)
    ensures Single(s.calls)
  {
    hide CodeOk, Base, ChansOk, Drained;
    assert s.calls == Abs(s).calls;
  }

  /** What a step of the channels does to calls, in terms of the code. */
  lemma {:induction false} CodeWakes<T>(s: State<T>, st: Step<T>)
    requires CodeInv(s) && May(Abs(s), st) && !st.Resume?
    ensures Wakes(s.calls, Do(s, st).calls) && Do(s, st).shutdown == (s.shutdown || st.ShutDown?)
    ensures |Do(s, st).calls| == |s.calls| + if st.Operate? then 1 else 0
    ensures st.Operate? ==> var call := Do(s, st).calls[|s.calls|];
      call.task == st.task && (call.phase.Parked? ==> st.task.Some? && !s.shutdown)
  {
    hide CodeOk, Inv, Drained, May, SpecDo, Do;
    StepWakes(Abs(s), st);
    assert Abs(Do(s, st)) == SpecDo(Abs(s), st);
    assert Abs(s).calls == s.calls && Abs(Do(s, st)).calls == Do(s, st).calls;
    assert Abs(s).shutdown == s.shutdown && Abs(Do(s, st)).shutdown == Do(s, st).shutdown;
  }

  lemma {:induction false} Prefix<T>(calls: seq<Call<T>>, calls': seq<Call<T>>, ts: seq<nat>)
    requires Wakes(calls, calls') && Lists(calls, calls', ts)
    ensures Lists(calls, calls'[..|calls|], ts)
    ensures forall k :: 0 <= k < |calls| ==> calls'[..|calls|][k] == calls[k] || WokenNow(calls, calls'[..|calls|], k)
  {
    var front := calls'[..|calls|];
    assert forall k: nat :: WokenNow(calls, front, k) == WokenNow(calls, calls', k);
  }

  /** The wakes of a channel operation all succeed. */
  lemma {:induction false} ListedAreWoken<T(!new)>(w: World<T>, i: nat, calls': seq<Call<T>>, ts: seq<nat>)
    requires Coupled(w) && Calling(w, i) && Lists(w.chan.calls, calls', ts)
    ensures S.AllParked(w.sched, ts, WaitingChannel)
  {
    hide SchedulerTheorems.Reachable, ChannelTheorems.Reachable, SchedulerInv.LockOk, SchedulerInv.HeldOk, Seated;
    SchedulerTheorems.ReachableInv(w.sched);
    ListedSleep(w.sched.tasks, w.chan.calls, w.wishes, calls', ts);
    SleepersAreParked(w.sched, i, ts, WaitingChannel);
  }

  lemma {:induction false} OwnTaskRuns(s: S.State, i: nat)
    requires SchedulerInv.Inv(s) && i in s.threads && s.threads[i].Inside?
    ensures s.threads[i].task in s.tasks && s.tasks[s.threads[i].task].state == Runnable
  {
  }

  lemma {:induction false} ParkReaches(s: S.State, i: nat, why: TaskState)
    requires SchedulerTheorems.Reachable(s) && S.CanPark(s, i, why)
    ensures SchedulerTheorems.Reachable(S.DoPark(s, i, why))
  {
    hide SchedulerTheorems.Reachable;
    assert S.Next(s, S.Park(i, why)) == S.DoPark(s, i, why);
    SchedulerTheorems.StepReaches(s, S.Park(i, why));
  }

  /** The end of a blocking call that sleeps. */
  lemma {:induction false} SleepCouples<T>(s: S.State, i: nat, calls: seq<Call<T>>, wishes: map<nat, Wish>,
      call: Call<T>)
    requires SchedulerTheorems.Reachable(s) && S.Up(s, i) && !s.shutdown && s.threads[i].Inside?
    requires Matched(s.tasks, calls, wishes) && AtLeisure(calls, s.threads[i])
    requires call.phase.Parked? && call.task == Some(s.threads[i].task)
    ensures S.CanPark(s, i, WaitingChannel)
    ensures var s' := S.DoPark(s, i, WaitingChannel);
      SchedulerTheorems.Reachable(s') && s'.shutdown == s.shutdown && Matched(s'.tasks, calls + [call], wishes)
  {
    hide SchedulerTheorems.Reachable, SchedulerInv.Inv, Matched;
    SchedulerTheorems.ReachableInv(s);
    OwnTaskRuns(s, i);
    ParkReaches(s, i, WaitingChannel);
    MatchedSleeps(s.tasks, calls, wishes, call, s.threads[i].task);
  }

  lemma {:induction false} LeisureLasts<T>(calls: seq<Call<T>>, calls': seq<Call<T>>, p: S.Phase)
    requires AtLeisure(calls, p) && |calls'| == |calls|
    requires forall k :: 0 <= k < |calls| ==> calls'[k] == calls[k] || WokenNow(calls, calls', k)
    ensures AtLeisure(calls', p)
  {
  }

  lemma {:induction false} ChannelCouples<T(!new)>(w: World<T>, i: nat, st: Step<T>, ts: seq<nat>, js: seq<Option<nat>>)
    requires Coupled(w) && CodeInv(w.chan) && MayAct(w, Channel(i, st, ts, js))
    ensures S.AllParked(w.sched, ts, WaitingChannel) && Coupled(Next(w, Channel(i, st, ts, js)))
    ensures FallsAsleep(w.chan.calls, Do(w.chan, st).calls) ==>
      S.CanPark(WakeEach(w.sched, i, ts, js), i, WaitingChannel)
  {
    hide SchedulerTheorems.Reachable, ChannelTheorems.Reachable, CodeInv, May, Do, Matched, Seated, Lists, Wakes,
         WokenNow, WakeEach, Signals, S.AllParked, Single;
    var calls, chan := w.chan.calls, Do(w.chan, st);
    var front := chan.calls[..|calls|];
    CodeWakes(w.chan, st);
    WakesSize(calls, chan.calls);
    CallsAreSingle(w.chan);
    Prefix(calls, chan.calls, ts);
    ListedAreWoken(w, i, chan.calls, ts);
    AllAreWoken(w.sched, i, ts, js);
    MatchedWakes(w.sched, calls, w.wishes, front, ts);
    LeisureLasts(calls, front, w.sched.threads[i]);
    ChannelTheorems.OperationsStayReachable(w.chan, st);
    LastCall(w, i, st, WakeEach(w.sched, i, ts, js), front, chan);
  }

  lemma {:induction false} WakesSize<T>(calls: seq<Call<T>>, calls': seq<Call<T>>)
    requires Wakes(calls, calls')
    ensures |calls| <= |calls'| <= |calls| + 1
    ensures |calls'| > |calls| ==> calls'[|calls|].phase.Parked? || calls'[|calls|].phase.Returned?
    ensures |calls'| > |calls| ==> calls' == calls'[..|calls|] + [calls'[|calls|]]
    ensures |calls'| == |calls| ==> calls' == calls'[..|calls|]
  {
  }

  /** After the wakes: the new call, if there is one, has returned or puts its task to sleep. */
  lemma {:induction false} LastCall<T>(w: World<T>, i: nat, st: Step<T>, woken: S.State, front: seq<Call<T>>,
      chan: State<T>)
    requires SchedulerTheorems.Reachable(woken) && S.Up(woken, i) && i in w.sched.threads
    requires woken.threads[i] == w.sched.threads[i]
    requires Matched(woken.tasks, front, w.wishes) && AtLeisure(front, woken.threads[i])
    requires S.InRuntime(woken.threads[i])
    requires |front| == |w.chan.calls| && chan.shutdown == woken.shutdown
    requires |chan.calls| == |front| + if st.Operate? then 1 else 0
    requires chan.calls == if st.Operate? then front + [chan.calls[|front|]] else front
    requires st.Operate? ==> st.task == Caller(woken.threads[i]) && chan.calls[|front|].task == st.task
    requires st.Operate? && !chan.calls[|front|].phase.Returned? ==>
      chan.calls[|front|].phase.Parked? && st.task.Some? && !woken.shutdown
    ensures var s := if FallsAsleep(w.chan.calls, chan.calls) then PutToSleep(woken, i, WaitingChannel) else woken;
      SchedulerTheorems.Reachable(s) && chan.shutdown == s.shutdown && Matched(s.tasks, chan.calls, w.wishes)
    ensures FallsAsleep(w.chan.calls, chan.calls) ==> S.CanPark(woken, i, WaitingChannel)
  {
    hide SchedulerTheorems.Reachable, Matched, AtLeisure, S.DoPark, S.CanPark;
    if st.Operate? {
      var call := chan.calls[|front|];
      if call.phase.Returned? {
        MatchedReturns(woken.tasks, front, w.wishes, call);
      } else {
        SleepCouples(woken, i, front, w.wishes, call);
      }
    }
  }

  lemma {:induction false} ShutdownReaches(s: S.State, i: nat, ts: seq<nat>)
    requires SchedulerTheorems.Reachable(s) && S.CanShutdown(s, i, ts)
    ensures SchedulerTheorems.Reachable(S.DoShutdown(s, i, ts))
  {
    hide SchedulerTheorems.Reachable;
    assert S.Next(s, S.Shutdown(i, ts)) == S.DoShutdown(s, i, ts);
    SchedulerTheorems.StepReaches(s, S.Shutdown(i, ts));
  }

  /** Closing every channel wakes every task that sleeps on one: the tasks listed are all there are. */
  lemma {:induction false} NobodyIsLeftOut<T(!new)>(w: World<T>, i: nat, ts: seq<nat>)
    requires Coupled(w) && CodeInv(w.chan) && MayAct(w, RequestShutdown(i, ts))
    ensures S.CanShutdown(w.sched, i, ts)
  {
    hide SchedulerTheorems.Reachable, ChannelTheorems.Reachable, CodeInv, Do, Seated, S.AllParked, Calling;
    var calls' := Do(w.chan, ShutDown).calls;
    ListedAreWoken(w, i, calls', ts);
    CodeWakes(w.chan, ShutDown);
    ChannelTheorems.ShutdownWakesAll(w.chan);
    forall t | t in w.sched.tasks && w.sched.tasks[t].state == WaitingChannel ensures t in ts {
      var k: nat :| SleepsIn(w.chan.calls, k, t);
      assert WokenNow(w.chan.calls, calls', k);
    }
    IsCalling(w, i);
  }

  lemma {:induction false} IsCalling<T>(w: World<T>, i: nat)
    requires Calling(w, i)
    ensures S.Up(w.sched, i) && S.InRuntime(w.sched.threads[i])
  {
  }

  lemma {:induction false} ShutdownCouples<T(!new)>(w: World<T>, i: nat, ts: seq<nat>)
    requires Coupled(w) && CodeInv(w.chan) && MayAct(w, RequestShutdown(i, ts))
    ensures Coupled(Next(w, RequestShutdown(i, ts)))
  {
    hide SchedulerTheorems.Reachable, ChannelTheorems.Reachable, CodeInv, Do, Seated, Matched, Lists, Single, Wakes;
    var calls' := Do(w.chan, ShutDown).calls;
    NobodyIsLeftOut(w, i, ts);
    ShutdownReaches(w.sched, i, ts);
    ChannelTheorems.OperationsStayReachable(w.chan, ShutDown);
    CallsAreSingle(w.chan);
    CodeWakes(w.chan, ShutDown);
    Prefix(w.chan.calls, calls', ts);
    WakesSize(w.chan.calls, calls');
    MatchedWakes(w.sched, w.chan.calls, w.wishes, calls', ts);
  }

  lemma {:induction false} ResumeCalls<T>(s: State<T>, k: nat)
    requires CodeInv(s) && May(Abs(s), Resume(k))
    ensures k < |s.calls| && s.calls[k].phase.Woken? && Do(s, Resume(k)).shutdown == s.shutdown
    ensures Do(s, Resume(k)).calls == s.calls[k := s.calls[k].(phase := Returned(s.calls[k].phase.outcome))]
  {
    hide CodeOk, Inv, Drained;
    assert s.calls == Abs(s).calls;
  }

  lemma {:induction false} ReturnCouples<T(!new)>(w: World<T>, i: nat, k: nat)
    requires Coupled(w) && CodeInv(w.chan) && MayAct(w, Return(i, k))
    ensures Coupled(Next(w, Return(i, k)))
  {
    hide SchedulerTheorems.Reachable, ChannelTheorems.Reachable, CodeInv, Do, May, Seated, Matched;
    ResumeCalls(w.chan, k);
    ChannelTheorems.OperationsStayReachable(w.chan, Resume(k));
    MatchedFinishes(w.sched.tasks, w.chan.calls, w.wishes, k, Do(w.chan, Resume(k)).calls[k]);
  }

  // ---------------------------------------------------------------------------------------------
  // Descriptors
  // ---------------------------------------------------------------------------------------------

  lemma {:induction false} ParkIoCouples<T(!new)>(w: World<T>, i: nat, fd: int, events: Interest)
    requires Coupled(w) && CodeInv(w.chan) && MayAct(w, ParkOnIo(i, fd, events))
    ensures S.CanPark(w.sched, i, WaitingIo) && Coupled(Next(w, ParkOnIo(i, fd, events)))
  {
    hide SchedulerTheorems.Reachable, ChannelTheorems.Reachable, CodeInv, SchedulerInv.Inv, Matched, Seated, Fits;
    var t := w.sched.threads[i].task;
    SchedulerTheorems.ReachableInv(w.sched);
    OwnTaskRuns(w.sched, i);
    ParkReaches(w.sched, i, WaitingIo);
    MatchedWaits(w.sched.tasks, w.chan.calls, w.wishes, t, Wish(fd, events));
    ParkingKeepsSeats(w.waits, w.wishes, fd, t, events);
  }

  /** Tasks the table says are woken sleep on descriptors. */
  lemma {:induction false} WishersAreParked<T(!new)>(w: World<T>, i: nat, ts: seq<nat>)
    requires Coupled(w) && i in w.sched.threads && S.HoldsLock(w.sched.threads[i]) && !w.sched.threads[i].Handing?
    requires SchedulerInv.Distinct(ts) && forall t :: t in ts ==> t in w.wishes
    ensures S.AllParked(w.sched, ts, WaitingIo)
  {
    hide SchedulerTheorems.Reachable, ChannelTheorems.Reachable, SchedulerInv.Inv, Seated;
    SchedulerTheorems.ReachableInv(w.sched);
    SleepersAreParked(w.sched, i, ts, WaitingIo);
  }

  lemma {:induction false} IoWakeReaches(s: S.State, i: nat, ts: seq<nat>)
    requires SchedulerTheorems.Reachable(s) && S.CanIoWake(s, i, ts)
    ensures SchedulerTheorems.Reachable(S.DoIoWake(s, i, ts))
  {
    hide SchedulerTheorems.Reachable;
    assert S.Next(s, S.IoWake(i, ts)) == S.DoIoWake(s, i, ts);
    SchedulerTheorems.StepReaches(s, S.IoWake(i, ts));
  }

  lemma {:induction false} EventsCouple<T(!new)>(w: World<T>, i: nat, batch: seq<PollEvent>)
    requires Coupled(w) && CodeInv(w.chan) && MayAct(w, HandleEvents(i, batch))
    ensures S.CanIoWake(w.sched, i, WokenBy(w.waits, batch)) && Coupled(Next(w, HandleEvents(i, batch)))
  {
    hide SchedulerTheorems.Reachable, ChannelTheorems.Reachable, CodeInv, Matched, Seated, WokenBy, WaitsAfter,
         WishesAfter;
    var ts := WokenBy(w.waits, batch);
    BatchWakesOnce(w.waits, w.wishes, batch);
    BatchKeepsSeats(w.waits, w.wishes, batch);
    WishersAreParked(w, i, ts);
    IoWakeReaches(w.sched, i, ts);
    MatchedReady(w.sched, w.chan.calls, w.wishes, WishesAfter(w.wishes, w.waits, batch), ts);
  }

  lemma {:induction false} ForgetReaches(s: S.State, i: nat, ts: seq<nat>)
    requires SchedulerTheorems.Reachable(s) && S.CanForget(s, i, ts)
    ensures SchedulerTheorems.Reachable(S.DoForget(s, i, ts))
  {
    hide SchedulerTheorems.Reachable;
    assert S.Next(s, S.Forget(i, ts)) == S.DoForget(s, i, ts);
    SchedulerTheorems.StepReaches(s, S.Forget(i, ts));
  }

  /** One event on one descriptor is a batch. */
  lemma {:induction false} ForgetIsBatch<X>(waits: Waits<X>, wishes: map<X, Wish>, fd: int)
    ensures var s := SlotsAt(waits, fd); var batch := [PollEvent(fd, BOTH)];
      && WokenBy(waits, batch) == IoSpec.Woken(s, BOTH)
      && WaitsAfter(waits, batch) == Settle(waits, fd, Remaining(s, BOTH))
      && WishesAfter(wishes, waits, batch) == Without(wishes, IoSpec.Woken(s, BOTH))
  {
    hide IoSpec.Woken, Remaining, Settle, SlotsAt, Without;
    var batch := [PollEvent(fd, BOTH)];
    assert batch[1..] == [];
    assert IoSpec.Woken(SlotsAt(waits, fd), BOTH) + [] == IoSpec.Woken(SlotsAt(waits, fd), BOTH);
  }

  lemma {:induction false} ForgetCouples<T(!new)>(w: World<T>, i: nat, fd: int)
    requires Coupled(w) && CodeInv(w.chan) && MayAct(w, ForgetFd(i, fd))
    ensures S.CanForget(w.sched, i, IoSpec.Woken(SlotsAt(w.waits, fd), BOTH)) && Coupled(Next(w, ForgetFd(i, fd)))
  {
    hide SchedulerTheorems.Reachable, ChannelTheorems.Reachable, CodeInv, Matched, Seated, WokenBy, WaitsAfter,
         WishesAfter, IoSpec.Woken, Remaining, Settle, SlotsAt, Without;
    var batch := [PollEvent(fd, BOTH)];
    var ts := WokenBy(w.waits, batch);
    ForgetIsBatch(w.waits, w.wishes, fd);
    BatchWakesOnce(w.waits, w.wishes, batch);
    BatchKeepsSeats(w.waits, w.wishes, batch);
    WishersAreParked(w, i, ts);
    ForgetReaches(w.sched, i, ts);
    MatchedReady(w.sched, w.chan.calls, w.wishes, WishesAfter(w.wishes, w.waits, batch), ts);
  }
}
