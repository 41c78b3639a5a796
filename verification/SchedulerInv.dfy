/** What every step of the scheduler keeps. */
module SchedulerInv {
  import opened Basics
  import opened Scheduler

  // ---------------------------------------------------------------------------------------------
  // Lock, seat, sleepers
  // ---------------------------------------------------------------------------------------------

  ghost predicate LockOk(s: State) {
    && (forall i :: i in s.threads ==> (HoldsLock(s.threads[i]) <==> s.lock == Some(i)))
    && (s.lock.Some? ==> s.lock.value in s.threads)
  }

  ghost predicate SeatOk(s: State) {
    && (forall i :: i in s.threads ==> (AtPoller(s.threads[i]) <==> s.seat == Some(i)))
    && (s.seat.Some? ==> s.seat.value in s.threads)
  }

  ghost function Sleepers(threads: map<nat, Phase>): set<nat> {
    set i | i in threads && threads[i].Sleeping?
  }

  ghost predicate SomeoneOwes(s: State) {
    exists i :: i in s.threads && Owes(s.threads[i])
  }

  /** The poller blocks without a timeout. */
  ghost predicate PollerBlocked(s: State) {
    s.seat.Some? && s.seat.value in s.threads && s.threads[s.seat.value] == Polling(true)
  }

  ghost predicate RestOk(s: State) {
    && s.idle == |Sleepers(s.threads)|
    && (forall i :: i in s.threads && Unsignalled(s.threads[i]) ==> s.seat.Some? && !Exiting(s))
    && (forall i :: i in s.threads && s.threads[i].Exited? ==> Exiting(s))
    && (Exiting(s) && PollerBlocked(s) ==> s.token || SomeoneOwes(s))
    && (exists i :: i in s.threads && IsWorker(s.threads[i]))
  }

  /** Somebody will look at the run queue: a worker is up, or a sleeper has been signalled, or the
      blocked poller is about to be woken. */
  ghost predicate OnItsWay(s: State) {
    || (exists i :: i in s.threads && Active(s.threads[i]))
    || (exists i :: i in s.threads && s.threads[i].Sleeping? && s.threads[i].signalled)
    || (PollerBlocked(s) && (s.token || SomeoneOwes(s)))
  }

  ghost predicate NoLostWake(s: State) {
    s.runq != [] && !Exiting(s) ==> OnItsWay(s)
  }

  // ---------------------------------------------------------------------------------------------
  // Tasks
  // ---------------------------------------------------------------------------------------------

  ghost predicate Distinct(q: seq<nat>) {
    forall a, b :: 0 <= a < b < |q| ==> q[a] != q[b]
  }

  /** The state a task has while a thread in phase `p` holds it. */
  ghost predicate StateFits(p: Phase, st: TaskState) {
    if p.Handing? then st == WaitingIo || st == WaitingChannel
    else if p.EndOwing? then st == Finished
    else if p.Switched? then st == p.yielded && (st == Runnable || st == Finished)
    else st == Runnable
  }

  ghost predicate HeldOk(s: State) {
    && (forall i :: i in s.threads && HasTask(s.threads[i]) ==>
          s.threads[i].task in s.tasks && s.tasks[s.threads[i].task].at == On(i) &&
          StateFits(s.threads[i], s.tasks[s.threads[i].task].state))
    && (forall t :: t in s.tasks && s.tasks[t].at.On? ==>
          s.tasks[t].at.thread in s.threads && HasTask(s.threads[s.tasks[t].at.thread]) &&
          s.threads[s.tasks[t].at.thread].task == t)
  }

  ghost predicate QueueOk(s: State) {
    && Distinct(s.runq)
    && (forall t :: t in s.runq ==> t in s.tasks && s.tasks[t].at == Queued)
    && (forall t :: t in s.tasks && s.tasks[t].at == Queued ==> t in s.runq && s.tasks[t].state == Runnable)
    && (forall t :: t in s.tasks && s.tasks[t].at == Parked ==>
          s.tasks[t].state == WaitingIo || s.tasks[t].state == WaitingChannel)
  }

  ghost predicate FreedOk(s: State) {
    && Distinct(s.freed)
    && (forall t :: t in s.freed <==> t in s.tasks && s.tasks[t].at == Gone)
    && (forall t :: t in s.tasks && s.tasks[t].at == Gone ==>
          s.tasks[t].state == Runnable || s.tasks[t].state == Finished)
    && (s.shutdown ==> forall t :: t in s.tasks && s.tasks[t].at != Gone ==> s.tasks[t].state != WaitingChannel)
  }

  ghost predicate Inv(s: State) {
    LockOk(s) && SeatOk(s) && RestOk(s) && NoLostWake(s) && HeldOk(s) && QueueOk(s) && FreedOk(s)
  }

  // ---------------------------------------------------------------------------------------------
  // One thread moves, the others stay: what that asks of the mover
  // ---------------------------------------------------------------------------------------------

  /** Other threads keep their place; sleepers may have been signalled. */
  ghost predicate OthersStay(s: State, s': State, i: nat) {
    && s'.threads.Keys == s.threads.Keys
    && forall j :: j in s.threads && j != i ==>
         s'.threads[j] == s.threads[j] || (s.threads[j].Sleeping? && s'.threads[j] == s.threads[j].(signalled := true))
  }

  ghost predicate AllSignalled(s: State) {
    forall j :: j in s.threads ==> !Unsignalled(s.threads[j])
  }

  ghost predicate LocalLock(s: State, s': State, i: nat)
    requires i in s.threads && i in s'.threads
  {
    var p, q := s.threads[i], s'.threads[i];
    && s'.lock == (if HoldsLock(q) then Some(i) else if HoldsLock(p) then None else s.lock)
    && (HoldsLock(q) && !HoldsLock(p) ==> s.lock.None?)
    && s'.seat == (if AtPoller(q) then Some(i) else if AtPoller(p) then None else s.seat)
    && (AtPoller(q) && !AtPoller(p) ==> s.seat.None?)
    && s'.idle == s.idle + (if q.Sleeping? then 1 else 0) - (if p.Sleeping? then 1 else 0)
    && IsWorker(p) == IsWorker(q)
  }

  ghost predicate LocalRest(s: State, s': State, i: nat)
    requires i in s.threads && i in s'.threads
  {
    var p, q := s.threads[i], s'.threads[i];
    && (Exiting(s) ==> Exiting(s'))
    && (Unsignalled(q) ==> s'.seat.Some? && !Exiting(s'))
    && ((s.seat.Some? && s'.seat.None?) || (!Exiting(s) && Exiting(s')) ==> AllSignalled(s'))
    && (q.Exited? ==> Exiting(s'))
    && (!Exiting(s) && Exiting(s') ==> Owes(q))
    && (q == Polling(true) && p != q ==> !Exiting(s'))
    && (Owes(p) ==> Owes(q) || s'.token)
    && (s.token && !s'.token ==> q.Polled?)
  }

  ghost predicate Local(s: State, s': State, i: nat) {
    i in s.threads && OthersStay(s, s', i) && i in s'.threads && LocalLock(s, s', i) && LocalRest(s, s', i)
  }

  lemma {:induction false} SleepersMove(s: State, s': State, i: nat)
    requires i in s.threads && OthersStay(s, s', i)
    ensures |Sleepers(s'.threads)| ==
      |Sleepers(s.threads)| + (if s'.threads[i].Sleeping? then 1 else 0) - (if s.threads[i].Sleeping? then 1 else 0)
  {
    var a, b := Sleepers(s.threads), Sleepers(s'.threads);
    assert a - {i} == b - {i};
    OneElement(a, i);
    OneElement(b, i);
  }

  lemma {:induction false} OneElement(a: set<nat>, i: nat)
    ensures |a| == |a - {i}| + if i in a then 1 else 0
  {
    if i in a {
      assert a == (a - {i}) + {i};
    } else {
      assert a == a - {i};
    }
  }

  lemma {:induction false} LocalKeepsLock(s: State, s': State, i: nat)
    requires Local(s, s', i) && LockOk(s) && SeatOk(s)
    ensures LockOk(s') && SeatOk(s')
  {
  }

  lemma {:induction false} LocalKeepsRest(s: State, s': State, i: nat)
    requires Local(s, s', i) && SeatOk(s) && SeatOk(s') && RestOk(s)
    ensures RestOk(s')
  {
    SleepersMove(s, s', i);
    if SomeoneOwes(s) && !s'.token {
      var j :| j in s.threads && Owes(s.threads[j]);
      assert Owes(s'.threads[j]);
    }
    assert Owes(s'.threads[i]) ==> SomeoneOwes(s');
    var w :| w in s.threads && IsWorker(s.threads[w]);
    assert IsWorker(s'.threads[w]);
  }

  // ---------------------------------------------------------------------------------------------
  // No wake-up is lost
  // ---------------------------------------------------------------------------------------------

  /** Whoever sleeps has company that was signalled; a lone poller is being woken. */
  ghost predicate Alerted(s: State) {
    && ((exists i :: i in s.threads && s.threads[i].Sleeping?) ==>
          exists i :: i in s.threads && s.threads[i].Sleeping? && s.threads[i].signalled)
    && ((forall i :: i in s.threads ==> !s.threads[i].Sleeping?) && s.seat.Some? ==> s.token || SomeoneOwes(s))
  }

  lemma {:induction false} AlertedOnItsWay(s: State)
    requires SeatOk(s) && RestOk(s) && !Exiting(s) && Alerted(s)
    ensures OnItsWay(s)
  {
    var w :| w in s.threads && IsWorker(s.threads[w]);
    assert Active(s.threads[w]) || s.threads[w].Sleeping? || s.threads[w] == Polling(true);
  }

  ghost predicate LocalWake(s: State, s': State, i: nat)
    requires i in s.threads && i in s'.threads
  {
    var q := s'.threads[i];
    || s'.runq == [] || Exiting(s')
    || Active(q) || (q.Sleeping? && q.signalled)
    || (!IsWorker(q) && (s'.runq == s.runq || Alerted(s')))
  }

  lemma {:induction false} StaysOnItsWay(s: State, s': State, i: nat)
    requires Local(s, s', i) && SeatOk(s) && SeatOk(s') && !IsWorker(s'.threads[i]) && OnItsWay(s)
    ensures OnItsWay(s')
  {
    if j :| j in s.threads && Active(s.threads[j]) {
      assert Active(s'.threads[j]);
    } else if j :| j in s.threads && s.threads[j].Sleeping? && s.threads[j].signalled {
      assert s'.threads[j].Sleeping? && s'.threads[j].signalled;
    } else {
      if SomeoneOwes(s) && !s'.token {
        var j :| j in s.threads && Owes(s.threads[j]);
        assert Owes(s'.threads[j]);
      }
      assert PollerBlocked(s');
    }
  }

  lemma {:induction false} Moved(s: State, s': State, i: nat)
    requires LockOk(s) && SeatOk(s) && RestOk(s) && NoLostWake(s) && Local(s, s', i) && LocalWake(s, s', i)
    ensures LockOk(s') && SeatOk(s') && RestOk(s') && NoLostWake(s')
  {
    LocalKeepsLock(s, s', i);
    LocalKeepsRest(s, s', i);
    if s'.runq != [] && !Exiting(s') && !IsWorker(s'.threads[i]) {
      if s'.runq == s.runq { StaysOnItsWay(s, s', i); } else { AlertedOnItsWay(s'); }
    }
  }

  // ---------------------------------------------------------------------------------------------
  // Tasks stay in one place
  // ---------------------------------------------------------------------------------------------

  ghost predicate TasksOk(s: State) {
    HeldOk(s) && QueueOk(s) && FreedOk(s)
  }

  /** A step that touches no task: the mover keeps the one it has. */
  lemma {:induction false} TasksSame(s: State, s': State, i: nat)
    requires TasksOk(s) && i in s.threads && OthersStay(s, s', i)
    requires s'.tasks == s.tasks && s'.runq == s.runq && s'.freed == s.freed && s'.shutdown == s.shutdown
    requires HasTask(s'.threads[i]) == HasTask(s.threads[i])
    requires HasTask(s.threads[i]) ==>
      s'.threads[i].task == s.threads[i].task && StateFits(s'.threads[i], s.tasks[s.threads[i].task].state)
    ensures TasksOk(s')
  {
  }

  lemma {:induction false} DistinctAppend(q: seq<nat>, r: seq<nat>)
    requires Distinct(q) && Distinct(r) && forall t :: t in r ==> t !in q
    ensures Distinct(q + r)
  {
    forall a, b | 0 <= a < b < |q + r| ensures (q + r)[a] != (q + r)[b] {
      if a < |q| { assert q[a] in q; }
      if b >= |q| { assert r[b - |q|] in r; }
    }
  }

  lemma {:induction false} TasksPushed(s: State, s': State, i: nat, ts: seq<nat>, why: TaskState)
    requires TasksOk(s) && i in s.threads && OthersStay(s, s', i) && AllParked(s, ts, why)
    requires s'.tasks == Push(s, ts).tasks && s'.runq == s.runq + ts && s'.freed == s.freed
    requires s'.shutdown && !s.shutdown ==>
      forall t :: t in s.tasks && s.tasks[t].at != Gone && s.tasks[t].state == WaitingChannel ==> t in ts
    requires HasTask(s'.threads[i]) == HasTask(s.threads[i])
    requires HasTask(s.threads[i]) ==>
      s'.threads[i].task == s.threads[i].task && StateFits(s'.threads[i], s.tasks[s.threads[i].task].state)
    ensures TasksOk(s')
  {
    hide QueueOk, FreedOk, Distinct;
    PushedQueue(s, s', ts, why);
    PushedFreed(s, s', ts, why);
  }

  lemma {:induction false} PushedQueue(s: State, s': State, ts: seq<nat>, why: TaskState)
    requires QueueOk(s) && AllParked(s, ts, why) && s'.tasks == Push(s, ts).tasks && s'.runq == s.runq + ts
    ensures QueueOk(s')
  {
    DistinctAppend(s.runq, ts);
    assert forall t :: t in s'.runq <==> t in s.runq || t in ts;
  }

  lemma {:induction false} PushedFreed(s: State, s': State, ts: seq<nat>, why: TaskState)
    requires FreedOk(s) && AllParked(s, ts, why) && s'.tasks == Push(s, ts).tasks && s'.freed == s.freed
    requires s'.shutdown && !s.shutdown ==>
      forall t :: t in s.tasks && s.tasks[t].at != Gone && s.tasks[t].state == WaitingChannel ==> t in ts
    ensures FreedOk(s')
  {
  }

  /** A task changes, or appears: what that asks of the queue and of the released tasks. */
  lemma {:induction false} QueueMore(s: State, s': State, t: nat, x: Task)
    requires QueueOk(s) && t !in s.runq && s'.tasks == s.tasks[t := x]
    requires s'.runq == s.runq + (if x.at == Queued then [t] else []) && (x.at == Queued ==> x.state == Runnable)
    requires x.at == Parked ==> x.state == WaitingIo || x.state == WaitingChannel
    ensures QueueOk(s')
  {
    DistinctAppend(s.runq, if x.at == Queued then [t] else []);
    assert forall u :: u in s'.runq <==> u in s.runq || (x.at == Queued && u == t);
  }

  lemma {:induction false} FreedMore(s: State, s': State, t: nat, x: Task)
    requires FreedOk(s) && t !in s.freed && s'.tasks == s.tasks[t := x] && s'.shutdown == s.shutdown
    requires s'.freed == s.freed + (if x.at == Gone then [t] else [])
    requires x.at == Gone ==> x.state == Runnable || x.state == Finished
    requires s.shutdown && x.at != Gone ==> x.state != WaitingChannel
    ensures FreedOk(s')
  {
    DistinctAppend(s.freed, if x.at == Gone then [t] else []);
    assert forall u :: u in s'.freed <==> u in s.freed || (x.at == Gone && u == t);
  }

  lemma {:induction false} NotQueued(s: State, t: nat)
    requires QueueOk(s) && FreedOk(s) && (t in s.tasks ==> s.tasks[t].at.On?)
    ensures t !in s.runq && t !in s.freed
  {
  }

  /** The mover's own task changes: it stays with the mover, or goes to the queue, to a wait list, or
      away. */
  lemma {:induction false} OwnTask(s: State, s': State, i: nat, t: nat, x: Task)
    requires TasksOk(s) && i in s.threads && OthersStay(s, s', i) && HasTask(s.threads[i]) && s.threads[i].task == t
    requires s'.tasks == s.tasks[t := x] && s'.shutdown == s.shutdown
    requires x.at.On? ==> x.at == On(i) && HasTask(s'.threads[i]) && s'.threads[i].task == t
    requires if x.at.On? then StateFits(s'.threads[i], x.state) else !HasTask(s'.threads[i])
    requires s'.runq == s.runq + (if x.at == Queued then [t] else []) && (x.at == Queued ==> x.state == Runnable)
    requires s'.freed == s.freed + (if x.at == Gone then [t] else [])
    requires x.at == Gone ==> x.state == Runnable || x.state == Finished
    requires x.at == Parked ==> x.state == WaitingIo || x.state == WaitingChannel
    requires s.shutdown && x.at != Gone ==> x.state != WaitingChannel
    ensures TasksOk(s')
  {
    hide QueueOk, FreedOk;
    NotQueued(s, t);
    QueueMore(s, s', t, x);
    FreedMore(s, s', t, x);
  }

  /** A task appears, in the queue or released at once. */
  lemma {:induction false} NewTask(s: State, s': State, i: nat, t: nat, x: Task)
    requires TasksOk(s) && i in s.threads && OthersStay(s, s', i) && t !in s.tasks
    requires s'.tasks == s.tasks[t := x] && s'.shutdown == s.shutdown && x.state == Runnable
    requires (x.at == Queued || x.at == Gone)
    requires s'.runq == s.runq + (if x.at == Queued then [t] else [])
    requires s'.freed == s.freed + (if x.at == Gone then [t] else [])
    requires HasTask(s'.threads[i]) == HasTask(s.threads[i])
    requires HasTask(s.threads[i]) ==>
      s'.threads[i].task == s.threads[i].task && StateFits(s'.threads[i], s.tasks[s.threads[i].task].state)
    ensures TasksOk(s')
  {
    hide QueueOk, FreedOk;
    NotQueued(s, t);
    QueueMore(s, s', t, x);
    FreedMore(s, s', t, x);
  }

  /** The front of the queue goes to the mover. */
  lemma {:induction false} PoppedTask(s: State, s': State, i: nat, t: nat)
    requires TasksOk(s) && i in s.threads && OthersStay(s, s', i) && !HasTask(s.threads[i])
    requires s.runq != [] && s.runq[0] == t && t in s.tasks && s'.runq == s.runq[1..]
    requires s'.tasks == s.tasks[t := s.tasks[t].(at := On(i))] && s'.shutdown == s.shutdown && s'.freed == s.freed
    requires s'.threads[i] == Running(t)
    ensures TasksOk(s')
  {
    hide QueueOk, FreedOk;
    PoppedQueue(s, s', i, t);
    PoppedFreed(s, s', i, t);
  }

  lemma {:induction false} PoppedQueue(s: State, s': State, i: nat, t: nat)
    requires QueueOk(s) && s.runq != [] && s.runq[0] == t && t in s.tasks && s'.runq == s.runq[1..]
    requires s'.tasks == s.tasks[t := s.tasks[t].(at := On(i))]
    ensures QueueOk(s') && s.tasks[t].at == Queued && s.tasks[t].state == Runnable
  {
    assert t in s.runq;
    assert forall u :: u in s.runq <==> u == t || u in s'.runq;
    assert t !in s'.runq by { assert forall k :: 0 <= k < |s'.runq| ==> s'.runq[k] == s.runq[k + 1]; }
  }

  lemma {:induction false} PoppedFreed(s: State, s': State, i: nat, t: nat)
    requires FreedOk(s) && t in s.tasks && s.tasks[t].at == Queued && s.tasks[t].state == Runnable
    requires s'.tasks == s.tasks[t := s.tasks[t].(at := On(i))] && s'.shutdown == s.shutdown && s'.freed == s.freed
    ensures FreedOk(s')
  {
  }
}
