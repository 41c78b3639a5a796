/** What channels promise, for every run of the code from the empty state. */
module ChannelTheorems {
  import opened Basics
  import opened ChannelTypes
  import opened ChannelSpec
  import opened ChannelInv
  import opened ChannelCode
  import opened ChannelRefine
  import opened ChannelRuns

  /** One operation leads from state `i` of the trace to the next. */
  ghost predicate StepAt<T(!new)>(trace: seq<State<T>>, i: nat)
    requires i + 1 < |trace|
  {
    CodeInv(trace[i]) && exists st :: May(Abs(trace[i]), st) && trace[i + 1] == Do(trace[i], st)
  }

  /** States the code goes through, starting with no channel and no call. */
  ghost predicate IsRun<T(!new)>(trace: seq<State<T>>) {
    && trace != [] && trace[0] == Init()
    && forall i: nat {:trigger StepAt(trace, i)} :: i + 1 < |trace| ==> StepAt(trace, i)
  }

  ghost predicate Reachable<T(!new)>(s: State<T>) {
    exists trace :: IsRun(trace) && trace[|trace| - 1] == s
  }

  lemma {:induction false} TraceInv<T(!new)>(trace: seq<State<T>>, i: nat)
    requires IsRun(trace) && i < |trace|
    ensures CodeInv(trace[i])
  {
    if i == 0 {
      InitOk<T>();
    } else {
      assert StepAt(trace, i - 1);
    }
  }

  lemma {:induction false} ReachableInv<T(!new)>(s: State<T>)
    requires Reachable(s)
    ensures CodeInv(s) && |Abs(s).chans| == |s.chans| && Abs(s).calls == s.calls
    ensures forall c :: 0 <= c < |s.chans| ==> Abs(s).chans[c] == AbsChan(s.chans[c], s.calls)
  {
    hide CodeInv;
    var trace :| IsRun(trace) && trace[|trace| - 1] == s;
    TraceInv(trace, |trace| - 1);
  }

  lemma {:induction false} StepExtends<T(!new)>(trace: seq<State<T>>, s: State<T>, i: nat)
    requires i + 1 < |trace| && StepAt(trace, i)
    ensures StepAt(trace + [s], i)
  {
    hide CodeInv, May, Do;
    var more := trace + [s];
    assert more[i] == trace[i] && more[i + 1] == trace[i + 1];
  }

  lemma {:induction false} StepLast<T(!new)>(trace: seq<State<T>>, st: Step<T>)
    requires trace != [] && CodeInv(trace[|trace| - 1]) && May(Abs(trace[|trace| - 1]), st)
    ensures StepAt(trace + [Do(trace[|trace| - 1], st)], |trace| - 1)
  {
    hide CodeInv, May, Do;
    var more := trace + [Do(trace[|trace| - 1], st)];
    assert more[|trace| - 1] == trace[|trace| - 1] && more[|trace|] == Do(trace[|trace| - 1], st);
  }

  lemma {:induction false} RunExtends<T(!new)>(trace: seq<State<T>>, st: Step<T>)
    requires IsRun(trace) && CodeInv(trace[|trace| - 1]) && May(Abs(trace[|trace| - 1]), st)
    ensures IsRun(trace + [Do(trace[|trace| - 1], st)])
  {
    hide CodeInv, May, Do, StepAt;
    var last := Do(trace[|trace| - 1], st);
    forall i: nat | i + 1 < |trace| + 1 ensures StepAt(trace + [last], i) {
      if i + 1 < |trace| {
        assert StepAt(trace, i);
        StepExtends(trace, last, i);
      } else {
        StepLast(trace, st);
      }
    }
  }

  lemma {:induction false} RunReaches<T(!new)>(trace: seq<State<T>>)
    requires IsRun(trace)
    ensures Reachable(trace[|trace| - 1])
  {
  }

  /** An operation its caller may make leads from a reachable state to a reachable state. */
  lemma {:induction false} OperationsStayReachable<T(!new)>(s: State<T>, st: Step<T>)
    requires Reachable(s) && CodeInv(s) && May(Abs(s), st)
    ensures Reachable(Do(s, st))
  {
    hide CodeInv, May, Do, StepAt;
    var trace :| IsRun(trace) && trace[|trace| - 1] == s;
    RunExtends(trace, st);
    RunReaches(trace + [Do(s, st)]);
  }

  /** So does every run. */
  lemma {:induction false} RunsStayReachable<T(!new)>(s: State<T>, steps: seq<Step<T>>)
    requires Reachable(s) && CodeInv(s) && Allowed(s, steps)
    ensures Reachable(Run(s, steps))
    decreases |steps|
  {
    hide CodeInv, May, Do, Reachable;
    if steps == [] {
    } else {
      OperationsStayReachable(s, steps[0]);
      RunsStayReachable(Do(s, steps[0]), steps[1..]);
    }
  }

  /** Values reach receivers in the order their senders were told they were sent; what was accepted and
      not yet delivered is in the buffer; nothing else is. */
  lemma {:induction false} DeliveredInOrder<T(!new)>(s: State<T>, c: nat)
    requires Reachable(s) && c < |s.chans|
    ensures Values(s.chans[c].delivered) + s.chans[c].buffer == Values(s.chans[c].accepted)
    ensures forall x :: x in s.chans[c].accepted ==> SentBy(s, c, x)
    ensures forall x :: x in s.chans[c].delivered ==> GotBy(s, c, x)
  {
    ReachableInv(s);
    var a := Abs(s);
    ShapeKeepsCases(s, a);
    assert ChanOk(a.chans[c]);
    forall x | x in s.chans[c].accepted ensures SentBy(s, c, x) {
      assert x in a.chans[c].accepted;
      assert SentBy(a, c, x);
    }
    forall x | x in s.chans[c].delivered ensures GotBy(s, c, x) {
      assert x in a.chans[c].delivered;
      assert GotBy(a, c, x);
    }
  }

  /** A place in the histories: channel, direction, position. */
  datatype Place = Place(chan: nat, op: Op, at: nat)

  function Moved<T>(ch: Chan<T>, op: Op): seq<Item<T>> {
    if op.Send? then ch.accepted else ch.delivered
  }

  /** Call `k` gave or took a value at `p`. */
  predicate MovedAt<T>(s: State<T>, p: Place, k: nat) {
    p.chan < |s.chans| && p.at < |Moved(s.chans[p.chan], p.op)| && Moved(s.chans[p.chan], p.op)[p.at].who.call == k
  }

  /** A call moves at most one value, on one channel, in one direction: the one its answer names.
      Select fires once, whatever other cases it registered. */
  lemma {:induction false} MovesAtMostOnce<T(!new)>(s: State<T>, k: nat, p: Place, q: Place)
    requires Reachable(s) && MovedAt(s, p, k) && MovedAt(s, q, k)
    ensures p == q && k < |s.calls| && Decided(s.calls[k].phase)
    ensures var o := s.calls[k].phase.outcome; var x := Moved(s.chans[p.chan], p.op)[p.at];
      && o.Fired? && o.idx < |s.calls[k].cases| && x.who == Ref(k, o.idx)
      && s.calls[k].cases[o.idx].chan == Some(p.chan) && s.calls[k].cases[o.idx].op == p.op
      && (p.op.Send? ==> o.status == Sent && x.value == s.calls[k].cases[o.idx].value)
      && (p.op.Recv? ==> o.status == Value && o.got == Some(x.value))
  {
    EntryNamesAnswer(s, k, p);
    EntryNamesAnswer(s, k, q);
    ReachableInv(s);
    var ch := Abs(s).chans[p.chan];
    assert DistinctCallers(ch.accepted) && DistinctCallers(ch.delivered);
  }

  lemma {:induction false} EntryNamesAnswer<T(!new)>(s: State<T>, k: nat, p: Place)
    requires Reachable(s) && MovedAt(s, p, k)
    ensures k < |s.calls| && Decided(s.calls[k].phase)
    ensures var o := s.calls[k].phase.outcome; var x := Moved(s.chans[p.chan], p.op)[p.at];
      && o.Fired? && Names(s, x.who, p.chan, p.op) && x.who == Ref(k, o.idx)
      && (p.op.Send? ==> o.status == Sent && x.value == s.calls[k].cases[o.idx].value)
      && (p.op.Recv? ==> o.status == Value && o.got == Some(x.value))
  {
    DeliveredInOrder(s, p.chan);
    var x := Moved(s.chans[p.chan], p.op)[p.at];
    if p.op.Send? { assert x in s.chans[p.chan].accepted; } else { assert x in s.chans[p.chan].delivered; }
  }

  /** Told it sent or received, it did; told anything else, or still waiting, it moved nothing. */
  lemma {:induction false} AnswerIsTrue<T(!new)>(s: State<T>, k: nat)
    requires Reachable(s) && k < |s.calls|
    ensures (exists p :: MovedAt(s, p, k)) <==> (Told(s.calls[k]).Fired? && Told(s.calls[k]).status != Closed)
  {
    if p :| MovedAt(s, p, k) { EntryNamesAnswer(s, k, p); }
    if Told(s.calls[k]).Fired? && Told(s.calls[k]).status != Closed {
      ReachableInv(s);
      assert Honest(Abs(s), k);
      var p := AnswerMoved(s, k);
    }
  }

  lemma {:induction false} AnswerMoved<T>(s: State<T>, k: nat) returns (p: Place)
    requires k < |s.calls| && Decided(s.calls[k].phase) && Honest(Abs(s), k)
    requires Told(s.calls[k]).Fired? && Told(s.calls[k]).status != Closed
    ensures MovedAt(s, p, k)
  {
    var o := Told(s.calls[k]);
    var c := s.calls[k].cases[o.idx].chan.value;
    var op := if o.status == Sent then Op.Send else Recv;
    var x := Item(Ref(k, o.idx), if o.status == Sent then s.calls[k].cases[o.idx].value else o.got.value);
    assert Abs(s).chans[c] == AbsChan(s.chans[c], s.calls);
    assert x in Moved(s.chans[c], op);
    var i :| 0 <= i < |Moved(s.chans[c], op)| && Moved(s.chans[c], op)[i] == x;
    p := Place(c, op, i);
  }

  /** Live waiters and the buffer: a receiver waits only on an empty buffer, a sender only on a full one,
      nobody on a closed channel, and both sides wait together only within one select on an unbuffered
      channel. */
  lemma {:induction false} WaitersAndBuffer<T(!new)>(s: State<T>, c: nat)
    requires Reachable(s) && c < |s.chans|
    ensures var ch := s.chans[c]; var snd := Live(ch.senders, s.calls); var rcv := Live(ch.receivers, s.calls);
      && |ch.buffer| <= ch.capacity
      && (rcv != [] ==> ch.buffer == []) && (snd != [] ==> |ch.buffer| == ch.capacity)
      && (ch.closed ==> ch.senders == [] && ch.receivers == [])
      && (snd != [] && rcv != [] ==> ch.capacity == 0 && forall a, b :: a in snd && b in rcv ==> a.call == b.call)
  {
    ReachableInv(s);
    assert ChanOk(Abs(s).chans[c]);
    assert s.chans[c].closed ==> Waiters(s.chans[c], Send) == [] && Waiters(s.chans[c], Recv) == [];
  }

  /** Nothing that went away is still linked: a returned call has no waiter, a regular call woken by a
      close or a partner has none either, and a destroyed channel is named by no waiter and no sleeper. */
  lemma {:induction false} NoDanglingWaiters<T(!new)>(s: State<T>, c: nat, op: Op, r: Ref)
    requires Reachable(s) && c < |s.chans| && r in Waiters(s.chans[c], op)
    ensures Names(s, r, c, op) && !s.chans[c].destroyed && !s.chans[c].closed
    ensures s.calls[r.call].phase.Parked? || (s.calls[r.call].phase.Woken? && s.calls[r.call].select)
    ensures s.calls[r.call].task.Some?
  {
    ReachableInv(s);
    assert ChanOk(Abs(s).chans[c]);
  }

  /** A live waiter's task sleeps, and no other call is using that task: waking it cannot fail. */
  lemma {:induction false} WakeCannotFail<T(!new)>(s: State<T>, c: nat, op: Op, r: Ref)
    requires Reachable(s) && c < |s.chans| && r in Waiters(s.chans[c], op) && IsLive(r, s.calls)
    ensures s.calls[r.call].task.Some?
    ensures forall k :: 0 <= k < |s.calls| && k != r.call && Unfinished(s.calls[k]) ==>
      s.calls[k].task != s.calls[r.call].task
  {
    ReachableInv(s);
    assert Unfinished(Abs(s).calls[r.call]);
  }

  /** An operation is answered on the spot if and only if one of its cases could proceed when it took
      the lock; the default arm, or sleep, is for when none could. */
  lemma {:induction false} AnsweredIffReady<T>(s: State<T>, task: Option<nat>, select: bool, cases: seq<Case<T>>,
      order: seq<nat>, blocking: bool)
    requires CodeInv(s) && MayInvoke(Abs(s), task, select, cases, order, blocking)
    ensures RefsValid(Begin(s, task, select, cases)) && InRange(Begin(s, task, select, cases))
    ensures var s' := InvokeLocked(s, task, select, cases, order, blocking);
      var ready := exists i :: 0 <= i < |cases| && Ready(Abs(s), cases[i]);
      && |s'.calls| == |s.calls| + 1
      && (ready <==> Told(s'.calls[|s.calls|]).Fired?)
      && (!ready ==>
            Abs(s').chans ==
            if s'.calls[|s.calls|].phase.Parked? then Park(Begin(Abs(s), task, select, cases), |s.calls|).chans
            else Abs(s).chans)
      && (s'.calls[|s.calls|].phase.Parked? <==> !ready && blocking && task.Some? && !NamesNoChannel(cases))
  {
    hide Linked, InRange, Complete, Recorded, ChanOk, CodeOk;
    SimInvoke(s, task, select, cases, order, blocking);
    InvokeKeeps(Abs(s), task, select, cases, order, blocking);
    var k := |s.calls|;
    var t := Begin(Abs(s), task, select, cases);
    assert forall i :: 0 <= i < |cases| ==> Ready(t, cases[i]) == Ready(Abs(s), cases[i]);
    var s1 := Attempt(t, k, order);
    assert Invoke(Abs(s), task, select, cases, order, blocking).calls ==
           InvokeLocked(s, task, select, cases, order, blocking).calls;
  }

  lemma {:induction false} TryOnly<T>(s: State<T>, k: nat)
    requires Trying(s, k) && |s.calls[k].cases| == 1
    ensures Attempt(s, k, [0]) == TryCase(s, Ref(k, 0))
  {
    hide Ready, InRange, Linked;
    assert [0][1..] == [];
  }

  lemma {:induction false} TrySendTells<T>(s: State<T>, c: nat, me: Ref)
    requires c < |s.chans| && Linked(s) && Names(s, me, c, Op.Send) && s.calls[me.call].phase.Active?
    ensures TrySend(s, c, me).calls[me.call].phase ==
      if Shut(s, c) then Returned(Fired(me.idx, Closed, None))
      else if s.chans[c].receivers != [] || |s.chans[c].buffer| < s.chans[c].capacity then
        Returned(Fired(me.idx, Sent, None))
      else Active
  {
    var ch := s.chans[c];
    if ch.receivers != [] {
      assert ch.receivers[0] in Waiters(ch, Recv);
      assert Accept(s, c, me).calls[me.call].phase == Returned(Fired(me.idx, Sent, None));
    }
  }

  lemma {:induction false} TryRecvTells<T>(s: State<T>, c: nat, me: Ref)
    requires c < |s.chans| && Linked(s) && Names(s, me, c, Recv) && s.calls[me.call].phase.Active?
    ensures s.chans[c].senders != [] ==> ValidRef(s, s.chans[c].senders[0])
    ensures TryRecv(s, c, me).calls[me.call].phase ==
      if s.chans[c].buffer != [] then Returned(Fired(me.idx, Value, Some(s.chans[c].buffer[0])))
      else if s.chans[c].senders != [] then Returned(Fired(me.idx, Value, Some(CaseAt(s, s.chans[c].senders[0]).value)))
      else if Shut(s, c) then Returned(Fired(me.idx, Closed, None))
      else Active
  {
    var ch := s.chans[c];
    if ch.senders != [] {
      assert ch.senders[0] in Waiters(ch, Op.Send);
      if ch.buffer == [] {
        assert Accept(s, c, ch.senders[0]).calls[me.call] == s.calls[me.call];
      }
    }
    if ch.buffer != [] {
      assert Take(s, c, me).calls[me.call].phase == Returned(Fired(me.idx, Value, Some(ch.buffer[0])));
    }
  }

  /** What a send is told on the spot: CLOSED on a closed channel or after shutdown, else OK if a receiver waits
      or the buffer has room; else its task sleeps, or it is a try_send or has no task and is turned away. */
  lemma {:induction false} SendIsAnswered<T>(s: State<T>, task: Option<nat>, c: nat, value: T, blocking: bool)
    requires CodeInv(s) && c < |s.chans|
    requires MayInvoke(Abs(s), task, false, [Case(Some(c), Op.Send, value)], [0], blocking)
    ensures var s' := Do(s, Operate(task, false, [Case(Some(c), Op.Send, value)], [0], blocking));
      && |s'.calls| == |s.calls| + 1
      && s'.calls[|s.calls|].phase ==
         if s.chans[c].closed || s.shutdown then Returned(Fired(0, Closed, None))
         else if Live(s.chans[c].receivers, s.calls) != [] || |s.chans[c].buffer| < s.chans[c].capacity then
           Returned(Fired(0, Sent, None))
         else if blocking && task.Some? then Parked
         else Returned(NotFired)
  {
    hide CodeInv, Inv, MayInvoke, TrySend, Linked, InRange;
    var cases := [Case(Some(c), Op.Send, value)];
    OneCase(s, task, cases, blocking);
    var t := Begin(Abs(s), task, false, cases);
    var me := Ref(|s.calls|, 0);
    assert CaseAt(t, me) == cases[0];
    TrySendTells(t, c, me);
  }

  /** And a receive: the oldest buffered value first, then that of the first waiting sender, and only then
      CLOSED; a receive without a task is told EMPTY instead of waiting. */
  lemma {:induction false} ReceiveIsAnswered<T>(s: State<T>, task: Option<nat>, c: nat, memory: T, blocking: bool)
    requires CodeInv(s) && c < |s.chans| && MayInvoke(Abs(s), task, false, [Case(Some(c), Recv, memory)], [0], blocking)
    ensures var snd := Live(s.chans[c].senders, s.calls); snd != [] ==> ValidRef(s, snd[0])
    ensures var s' := Do(s, Operate(task, false, [Case(Some(c), Recv, memory)], [0], blocking));
      var snd := Live(s.chans[c].senders, s.calls);
      && |s'.calls| == |s.calls| + 1
      && s'.calls[|s.calls|].phase ==
         if s.chans[c].buffer != [] then Returned(Fired(0, Value, Some(s.chans[c].buffer[0])))
         else if snd != [] then Returned(Fired(0, Value, Some(CaseAt(s, snd[0]).value)))
         else if s.chans[c].closed || s.shutdown then Returned(Fired(0, Closed, None))
         else if blocking && task.Some? then Parked
         else Returned(NotFired)
  {
    hide CodeInv, Inv, MayInvoke, TryRecv, Linked, InRange;
    var cases := [Case(Some(c), Recv, memory)];
    OneCase(s, task, cases, blocking);
    var t := Begin(Abs(s), task, false, cases);
    var me := Ref(|s.calls|, 0);
    assert CaseAt(t, me) == cases[0];
    TryRecvTells(t, c, me);
    var snd := Abs(s).chans[c].senders;
    if snd != [] {
      SenderIsOlder(Abs(s), c);
      assert CaseAt(t, snd[0]) == CaseAt(s, snd[0]);
    }
  }

  lemma {:induction false} SenderIsOlder<T>(s: State<T>, c: nat)
    requires Inv(s) && c < |s.chans| && s.chans[c].senders != []
    ensures ValidRef(s, s.chans[c].senders[0])
  {
    assert s.chans[c].senders[0] in Waiters(s.chans[c], Op.Send);
  }

  /** A regular call is one attempt at its one case: the state it leaves behind, dead waiters forgotten. */
  lemma {:induction false} OneCaseState<T>(s: State<T>, task: Option<nat>, cases: seq<Case<T>>, blocking: bool)
    requires CodeInv(s) && |cases| == 1 && MayInvoke(Abs(s), task, false, cases, [0], blocking)
    ensures Inv(Abs(s)) && Trying(Begin(Abs(s), task, false, cases), |s.calls|) && cases[0].chan.Some?
    ensures cases[0].chan.value < |s.chans|
    ensures var s1 := TryCase(Begin(Abs(s), task, false, cases), Ref(|s.calls|, 0));
      Abs(Do(s, Operate(task, false, cases, [0], blocking))) ==
      if s1.calls[|s.calls|].phase.Returned? then s1
      else if !blocking || task.None? then Return(s1, |s.calls|)
      else Park(s1, |s.calls|)
  {
    hide CodeOk, Drained, Base, ChansOk, CallsOk, Quiet, TryCase, Attempt;
    SimInvoke(s, task, false, cases, [0], blocking);
    TryOnly(Begin(Abs(s), task, false, cases), |s.calls|);
    assert !NamesNoChannel(cases);
  }

  /** And the calls. */
  lemma {:induction false} OneCase<T>(s: State<T>, task: Option<nat>, cases: seq<Case<T>>, blocking: bool)
    requires CodeInv(s) && |cases| == 1 && MayInvoke(Abs(s), task, false, cases, [0], blocking)
    ensures Inv(Abs(s)) && Trying(Begin(Abs(s), task, false, cases), |s.calls|) && cases[0].chan.Some?
    ensures cases[0].chan.value < |s.chans|
    ensures var s1 := TryCase(Begin(Abs(s), task, false, cases), Ref(|s.calls|, 0));
      Do(s, Operate(task, false, cases, [0], blocking)).calls ==
      if s1.calls[|s.calls|].phase.Returned? then s1.calls
      else if !blocking || task.None? then Return(s1, |s.calls|).calls
      else Park(s1, |s.calls|).calls
  {
    hide CodeInv, Inv, MayInvoke, Do, TryCase;
    OneCaseState(s, task, cases, blocking);
    var s' := Do(s, Operate(task, false, cases, [0], blocking));
    assert s'.calls == Abs(s').calls;
  }

  /** A send that finds receivers waiting wakes the one that has waited longest, with the value. */
  lemma {:induction false} SendWakesFirst<T>(s: State<T>, task: Option<nat>, c: nat, value: T, blocking: bool)
    requires CodeInv(s) && c < |s.chans|
    requires MayInvoke(Abs(s), task, false, [Case(Some(c), Op.Send, value)], [0], blocking)
    requires !s.chans[c].closed && !s.shutdown && Live(s.chans[c].receivers, s.calls) != []
    ensures var s' := Do(s, Operate(task, false, [Case(Some(c), Op.Send, value)], [0], blocking));
      var r := Live(s.chans[c].receivers, s.calls)[0];
      && |s'.calls| == |s.calls| + 1 && r.call < |s.calls|
      && s'.calls[r.call] == s.calls[r.call].(phase := Woken(Fired(r.idx, Value, Some(value))))
      && forall k :: 0 <= k < |s.calls| && k != r.call ==> s'.calls[k] == s.calls[k]
  {
    hide CodeInv, Inv, MayInvoke, Handoff, Linked, InRange;
    var cases := [Case(Some(c), Op.Send, value)];
    OneCase(s, task, cases, blocking);
    var t := Begin(Abs(s), task, false, cases);
    var me := Ref(|s.calls|, 0);
    assert CaseAt(t, me) == cases[0];
    TrySendTells(t, c, me);
    FirstReceiver(t, c);
    HandoffTells(t, c, me, t.chans[c].receivers[0]);
  }

  lemma {:induction false} FirstReceiver<T>(s: State<T>, c: nat)
    requires Linked(s) && c < |s.chans| && s.chans[c].receivers != []
    ensures ValidRef(s, s.chans[c].receivers[0]) && s.calls[s.chans[c].receivers[0].call].phase.Parked?
  {
    assert s.chans[c].receivers[0] in Waiters(s.chans[c], Recv);
  }

  lemma {:induction false} HandoffTells<T>(s: State<T>, c: nat, from: Ref, to: Ref)
    requires c < |s.chans| && ValidRef(s, from) && to.call < |s.calls| && from.call != to.call
    requires s.calls[to.call].phase.Parked?
    ensures var s' := Handoff(s, c, from, to);
      && s'.calls[to.call] ==
         s.calls[to.call].(phase := Woken(Fired(to.idx, Value, Some(CaseAt(s, from).value))))
      && forall k :: 0 <= k < |s.calls| && k != from.call && k != to.call ==> s'.calls[k] == s.calls[k]
  {
    assert Accept(s, c, from).calls[to.call] == s.calls[to.call];
  }

  /** A send that is refused, or finds nobody waiting, changes no other call. */
  lemma {:induction false} SendWakesNobody<T>(s: State<T>, task: Option<nat>, c: nat, value: T, blocking: bool)
    requires CodeInv(s) && c < |s.chans|
    requires MayInvoke(Abs(s), task, false, [Case(Some(c), Op.Send, value)], [0], blocking)
    requires s.chans[c].closed || s.shutdown || Live(s.chans[c].receivers, s.calls) == []
    ensures var s' := Do(s, Operate(task, false, [Case(Some(c), Op.Send, value)], [0], blocking));
      |s'.calls| == |s.calls| + 1 && s'.calls[..|s.calls|] == s.calls
  {
    hide CodeInv, Inv, MayInvoke, Do, Linked, InRange;
    var cases := [Case(Some(c), Op.Send, value)];
    OneCase(s, task, cases, blocking);
    var t := Begin(Abs(s), task, false, cases);
    assert CaseAt(t, Ref(|s.calls|, 0)) == cases[0];
    TrySendTells(t, c, Ref(|s.calls|, 0));
  }

  lemma {:induction false} TakeTells<T>(s: State<T>, c: nat, me: Ref)
    requires Linked(s) && c < |s.chans| && Names(s, me, c, Recv) && s.calls[me.call].phase.Active?
    requires s.chans[c].buffer != [] && !s.chans[c].closed && s.chans[c].senders != []
    ensures var from := s.chans[c].senders[0]; var s' := TryRecv(s, c, me);
      && ValidRef(s, from) && from.call != me.call
      && s'.calls[from.call] == s.calls[from.call].(phase := Woken(Fired(from.idx, Sent, None)))
      && (forall k :: 0 <= k < |s.calls| && k != me.call && k != from.call ==> s'.calls[k] == s.calls[k])
      && s'.chans[c].buffer == s.chans[c].buffer[1..] + [CaseAt(s, from).value]
  {
    var from := s.chans[c].senders[0];
    assert from in Waiters(s.chans[c], Op.Send);
    var s1 := ChannelSpec.Take(s, c, me);
    assert s1.calls[from.call] == s.calls[from.call] && s1.chans[c].buffer == s.chans[c].buffer[1..];
    assert CaseAt(s1, from) == CaseAt(s, from);
  }

  lemma {:induction false} DirectTells<T>(s: State<T>, c: nat, me: Ref)
    requires Linked(s) && c < |s.chans| && Names(s, me, c, Recv) && s.calls[me.call].phase.Active?
    requires s.chans[c].buffer == [] && s.chans[c].senders != []
    ensures var from := s.chans[c].senders[0]; var s' := TryRecv(s, c, me);
      && ValidRef(s, from) && from.call != me.call
      && s'.calls[from.call] == s.calls[from.call].(phase := Woken(Fired(from.idx, Sent, None)))
      && (forall k :: 0 <= k < |s.calls| && k != me.call && k != from.call ==> s'.calls[k] == s.calls[k])
      && s'.chans[c].buffer == []
  {
    var from := s.chans[c].senders[0];
    assert from in Waiters(s.chans[c], Op.Send);
    assert Accept(s, c, from).calls[me.call] == s.calls[me.call];
  }

  /** A receive that finds senders waiting wakes the one that has waited longest; what that one offers goes to the
      end of the buffer, from whose front the receiver was served, or straight to the receiver. */
  lemma {:induction false} ReceiveWakesFirst<T>(s: State<T>, task: Option<nat>, c: nat, memory: T, blocking: bool)
    requires CodeInv(s) && c < |s.chans|
    requires MayInvoke(Abs(s), task, false, [Case(Some(c), Recv, memory)], [0], blocking)
    requires Live(s.chans[c].senders, s.calls) != []
    ensures var s' := Do(s, Operate(task, false, [Case(Some(c), Recv, memory)], [0], blocking));
      var r := Live(s.chans[c].senders, s.calls)[0];
      && |s'.calls| == |s.calls| + 1 && |s'.chans| == |s.chans| && ValidRef(s, r)
      && s'.calls[r.call] == s.calls[r.call].(phase := Woken(Fired(r.idx, Sent, None)))
      && (forall k :: 0 <= k < |s.calls| && k != r.call ==> s'.calls[k] == s.calls[k])
      && s'.chans[c].buffer ==
         if s.chans[c].buffer == [] then [] else s.chans[c].buffer[1..] + [CaseAt(s, r).value]
  {
    hide CodeInv, MayInvoke, Do, TryRecv, Linked, InRange;
    var cases := [Case(Some(c), Recv, memory)];
    var k := |s.calls|;
    OneCaseState(s, task, cases, blocking);
    var t := Begin(Abs(s), task, false, cases);
    assert CaseAt(t, Ref(k, 0)) == cases[0];
    SenderIsOlder(Abs(s), c);
    var r := Abs(s).chans[c].senders[0];
    assert CaseAt(t, r) == CaseAt(s, r);
    TryRecvTells(t, c, Ref(k, 0));
    if s.chans[c].buffer == [] {
      DirectTells(t, c, Ref(k, 0));
    } else {
      OpenWhileWaiting(Abs(s), c);
      TakeTells(t, c, Ref(k, 0));
    }
    SameChannel(Do(s, Operate(task, false, cases, [0], blocking)), c);
  }

  lemma {:induction false} OpenWhileWaiting<T>(s: State<T>, c: nat)
    requires Inv(s) && c < |s.chans| && s.chans[c].senders != []
    ensures !s.chans[c].closed
  {
    assert ChanOk(s.chans[c]);
  }

  /** One that finds none changes no other call, and takes at most the front of the buffer. */
  lemma {:induction false} ReceiveWakesNobody<T>(s: State<T>, task: Option<nat>, c: nat, memory: T, blocking: bool)
    requires CodeInv(s) && c < |s.chans|
    requires MayInvoke(Abs(s), task, false, [Case(Some(c), Recv, memory)], [0], blocking)
    requires Live(s.chans[c].senders, s.calls) == []
    ensures var s' := Do(s, Operate(task, false, [Case(Some(c), Recv, memory)], [0], blocking));
      && |s'.calls| == |s.calls| + 1 && |s'.chans| == |s.chans| && s'.calls[..|s.calls|] == s.calls
      && s'.chans[c].buffer == if s.chans[c].buffer == [] then [] else s.chans[c].buffer[1..]
  {
    hide CodeInv, Inv, MayInvoke, Do, Linked, InRange;
    var cases := [Case(Some(c), Recv, memory)];
    OneCaseState(s, task, cases, blocking);
    var t := Begin(Abs(s), task, false, cases);
    assert CaseAt(t, Ref(|s.calls|, 0)) == cases[0];
    TryRecvTells(t, c, Ref(|s.calls|, 0));
    SameChannel(Do(s, Operate(task, false, cases, [0], blocking)), c);
  }

  /** The call that waits longest to `op` on the channel, if any does. */
  ghost function LongestWaiting<T>(s: State<T>, c: nat, op: Op): (ks: seq<nat>)
    ensures |ks| <= 1
  {
    if c >= |s.chans| || Live(Waiters(s.chans[c], op), s.calls) == [] then []
    else [Live(Waiters(s.chans[c], op), s.calls)[0].call]
  }

  /** Whom a send serves: on an open channel, the longest waiting receiver. */
  ghost function ServedBySend<T>(s: State<T>, c: nat): (ks: seq<nat>)
    ensures |ks| <= 1
  {
    if c < |s.chans| && !s.chans[c].closed && !s.shutdown then LongestWaiting(s, c, Recv) else []
  }

  lemma {:induction false} FirstSleeps<T>(s: State<T>, c: nat, op: Op)
    requires c < |s.chans| && Live(Waiters(s.chans[c], op), s.calls) != []
    ensures var k := Live(Waiters(s.chans[c], op), s.calls)[0].call; k < |s.calls| && s.calls[k].phase.Parked?
  {
    var q := Live(Waiters(s.chans[c], op), s.calls);
    LiveMembers(Waiters(s.chans[c], op), s.calls);
    assert q[0] in q;
  }

  lemma {:induction false} WokenOnly<T>(calls: seq<Call<T>>, calls': seq<Call<T>>, k: nat)
    requires WokenNow(calls, calls', k)
    requires forall j :: 0 <= j < |calls| && j != k ==> calls'[j] == calls[j]
    ensures forall j: nat :: j in [k] <==> WokenNow(calls, calls', j)
  {
  }

  lemma {:induction false} WokenNone<T>(calls: seq<Call<T>>, calls': seq<Call<T>>)
    requires |calls| <= |calls'| && calls'[..|calls|] == calls
    ensures forall j: nat :: !WokenNow(calls, calls', j)
  {
    assert forall j :: 0 <= j < |calls| ==> calls'[..|calls|][j] == calls'[j];
  }

  /** A send wakes nobody but the longest waiting receiver. */
  lemma {:induction false} SendServes<T>(s: State<T>, task: Option<nat>, c: nat, value: T, blocking: bool)
    requires CodeInv(s) && c < |s.chans|
    requires MayInvoke(Abs(s), task, false, [Case(Some(c), Op.Send, value)], [0], blocking)
    ensures var s' := Do(s, Operate(task, false, [Case(Some(c), Op.Send, value)], [0], blocking));
      forall k: nat :: k in ServedBySend(s, c) <==> WokenNow(s.calls, s'.calls, k)
  {
    hide CodeInv, MayInvoke, Do, Live, WokenNow;
    var s' := Do(s, Operate(task, false, [Case(Some(c), Op.Send, value)], [0], blocking));
    if ServedBySend(s, c) == [] {
      SendWakesNobody(s, task, c, value, blocking);
      WokenNone(s.calls, s'.calls);
    } else {
      SendWakesFirst(s, task, c, value, blocking);
      FirstSleeps(s, c, Recv);
      WokenOnly(s.calls, s'.calls, ServedBySend(s, c)[0]);
    }
  }

  /** A receive wakes nobody but the longest waiting sender. */
  lemma {:induction false} ReceiveServes<T>(s: State<T>, task: Option<nat>, c: nat, memory: T, blocking: bool)
    requires CodeInv(s) && c < |s.chans|
    requires MayInvoke(Abs(s), task, false, [Case(Some(c), Recv, memory)], [0], blocking)
    ensures var s' := Do(s, Operate(task, false, [Case(Some(c), Recv, memory)], [0], blocking));
      forall k: nat :: k in LongestWaiting(s, c, Op.Send) <==> WokenNow(s.calls, s'.calls, k)
  {
    hide CodeInv, MayInvoke, Do, Live, WokenNow;
    var s' := Do(s, Operate(task, false, [Case(Some(c), Recv, memory)], [0], blocking));
    if LongestWaiting(s, c, Op.Send) == [] {
      ReceiveWakesNobody(s, task, c, memory, blocking);
      WokenNone(s.calls, s'.calls);
    } else {
      ReceiveWakesFirst(s, task, c, memory, blocking);
      FirstSleeps(s, c, Op.Send);
      WokenOnly(s.calls, s'.calls, LongestWaiting(s, c, Op.Send)[0]);
    }
  }

  /** An open channel on which nothing is buffered and nobody waits. */
  ghost predicate Idle<T>(s: State<T>, c: nat) {
    && c < |s.chans| && !s.chans[c].closed && !s.shutdown && s.chans[c].buffer == []
    && Live(s.chans[c].senders, s.calls) == [] && Live(s.chans[c].receivers, s.calls) == []
  }

  ghost function Receiving<T>(task: nat, c: nat, memory: T): Step<T> {
    Operate(Some(task), false, [Case(Some(c), Recv, memory)], [0], true)
  }

  lemma {:induction false} IdleStays<T>(s: State<T>, task: nat, cases: seq<Case<T>>, c: nat)
    requires Idle(s, c) && |cases| == 1 && cases[0].chan == Some(c) && cases[0].op == Recv
    requires Trying(Begin(Abs(s), Some(task), false, cases), |s.calls|)
    ensures var t := Begin(Abs(s), Some(task), false, cases); TryCase(t, Ref(|s.calls|, 0)) == t
  {
    var t := Begin(Abs(s), Some(task), false, cases);
    assert CaseAt(t, Ref(|s.calls|, 0)) == cases[0];
  }

  /** Receiving on an idle channel leaves the receiver as its one waiter. */
  lemma {:induction false} ReceiverSleeps<T>(s: State<T>, task: nat, c: nat, memory: T)
    requires CodeInv(s) && May(Abs(s), Receiving(task, c, memory)) && Idle(s, c)
    ensures var s' := Do(s, Receiving(task, c, memory));
      && |s'.chans| == |s.chans| && |s'.calls| == |s.calls| + 1 && s'.calls[|s.calls|].phase.Parked?
      && s'.calls[|s.calls|].task == Some(task)
      && !s'.chans[c].closed && !s'.shutdown && s'.chans[c].destroyed == s.chans[c].destroyed
      && Live(s'.chans[c].receivers, s'.calls) == [Ref(|s.calls|, 0)]
  {
    hide CodeInv, MayInvoke, Do;
    var cases := [Case(Some(c), Recv, memory)];
    var s', k := Do(s, Receiving(task, c, memory)), |s.calls|;
    OneCaseState(s, Some(task), cases, true);
    IdleStays(s, task, cases, c);
    var t := Park(Begin(Abs(s), Some(task), false, cases), k);
    assert Abs(s') == t && Abs(s').calls == s'.calls && Abs(s').chans[c] == AbsChan(s'.chans[c], s'.calls);
    assert Regs(k, cases, 1, c, Recv) == Regs(k, cases, 0, c, Recv) + [Ref(k, 0)];
    assert t.chans[c].receivers == [] + Regs(k, cases, 1, c, Recv);
  }

  /** A send that finds room and nobody waiting leaves the value at the end of the buffer; one that finds neither and
      may not wait leaves the channel as it was. */
  lemma {:induction false} SendFillsBuffer<T>(s: State<T>, task: Option<nat>, c: nat, value: T, blocking: bool)
    requires CodeInv(s) && c < |s.chans|
    requires MayInvoke(Abs(s), task, false, [Case(Some(c), Op.Send, value)], [0], blocking)
    requires !s.chans[c].closed && !s.shutdown && Live(s.chans[c].receivers, s.calls) == []
    ensures var s' := Do(s, Operate(task, false, [Case(Some(c), Op.Send, value)], [0], blocking));
      var room := |s.chans[c].buffer| < s.chans[c].capacity;
      && |s'.chans| == |s.chans| && s'.shutdown == s.shutdown
      && s'.chans[c].closed == s.chans[c].closed && s'.chans[c].capacity == s.chans[c].capacity
      && s'.chans[c].buffer == s.chans[c].buffer + (if room then [value] else [])
      && Live(s'.chans[c].receivers, s'.calls) == []
  {
    hide CodeInv, Inv, MayInvoke, Do, Linked, InRange;
    var cases := [Case(Some(c), Op.Send, value)];
    var k := |s.calls|;
    OneCaseState(s, task, cases, blocking);
    var t := Begin(Abs(s), task, false, cases);
    assert CaseAt(t, Ref(k, 0)) == cases[0];
    TrySendTells(t, c, Ref(k, 0));
    var s' := Do(s, Operate(task, false, cases, [0], blocking));
    SameChannel(s, c);
    SameChannel(s', c);
    assert Regs(k, cases, 1, c, Recv) == [];
  }

  lemma {:induction false} SameChannel<T>(s: State<T>, c: nat)
    requires c < |s.chans|
    ensures |Abs(s).chans| == |s.chans| && Abs(s).chans[c] == AbsChan(s.chans[c], s.calls)
    ensures Abs(s).shutdown == s.shutdown
  {
  }

  /** croutine_channel_send tells its caller CLOSED for every answer that is not OK. */
  predicate SaysClosed<T>(p: Phase<T>) {
    p.Returned? && !(p.outcome.Fired? && p.outcome.status == Sent)
  }

  /** So a blocking send says CLOSED on the spot exactly when the channel is closed, or shutdown was requested,
      or a thread without a task would have to wait. */
  lemma {:induction false} SendSaysClosedIff<T>(s: State<T>, task: Option<nat>, c: nat, value: T)
    requires CodeInv(s) && c < |s.chans| && MayInvoke(Abs(s), task, false, [Case(Some(c), Op.Send, value)], [0], true)
    ensures var s' := Do(s, Operate(task, false, [Case(Some(c), Op.Send, value)], [0], true));
      && |s'.calls| == |s.calls| + 1
      && (SaysClosed(s'.calls[|s.calls|].phase) <==>
            || s.chans[c].closed || s.shutdown
            || (task.None? && Live(s.chans[c].receivers, s.calls) == [] && |s.chans[c].buffer| >= s.chans[c].capacity))
  {
    SendIsAnswered(s, task, c, value, true);
  }

  /** The last of the three does happen: on an open unbuffered channel nobody receives from. */
  lemma {:induction false} ClosedYetOpen<T(!new)>(value: T)
    ensures var s := Create(Init<T>(), 0); var cases := [Case(Some(0), Op.Send, value)];
      && Reachable(s) && !s.chans[0].closed && !s.shutdown
      && CodeInv(s) && MayInvoke(Abs(s), None, false, cases, [0], true)
      && var s' := Do(s, Operate(None, false, cases, [0], true)); |s'.calls| == 1 && SaysClosed(s'.calls[0].phase)
  {
    hide CodeInv, Inv, MayInvoke;
    FirstChannel<T>();
    InitReachable<T>();
    OperationsStayReachable(Init<T>(), Open(0));
    FirstSend(value);
    SendSaysClosedIff(Create(Init<T>(), 0), None, 0, value);
  }

  lemma {:induction false} InitReachable<T(!new)>()
    ensures Reachable<T>(Init())
  {
    var trace := [Init<T>()];
    assert IsRun(trace);
  }

  lemma {:induction false} FirstChannel<T>()
    ensures CodeInv<T>(Init()) && May(Abs(Init<T>()), Open(0)) && Do(Init<T>(), Open(0)) == Create(Init<T>(), 0)
  {
    hide CodeInv;
    InitOk<T>();
  }

  lemma {:induction false} FirstSend<T>(value: T)
    ensures MayInvoke(Abs(Create(Init<T>(), 0)), None, false, [Case(Some(0), Op.Send, value)], [0], true)
  {
    var s := Create(Init<T>(), 0);
    assert Abs(s).calls == [] && |Abs(s).chans| == 1 && !Abs(s).chans[0].destroyed;
  }

  /** Trying cases in order, the first one that could proceed is the one that fires. */
  lemma {:induction false} FirstReadyFires<T>(s: State<T>, k: nat, order: seq<nat>, j: nat)
    requires Trying(s, k) && (forall i :: 0 <= i < |order| ==> order[i] < |s.calls[k].cases|) && j < |order|
    requires Ready(s, s.calls[k].cases[order[j]]) && forall i :: 0 <= i < j ==> !Ready(s, s.calls[k].cases[order[i]])
    ensures FiredBy(Attempt(s, k, order).calls[k], order[j])
  {
    assert order[0] in order && ValidRef(s, Ref(k, order[0]));
    if j == 0 {
    } else {
      assert !Ready(s, s.calls[k].cases[order[0]]);
      assert forall i :: i in order[1..] ==> i in order;
      FirstReadyFires(s, k, order[1..], j - 1);
    }
  }

  predicate SawClose<T>(p: Phase<T>) {
    p.Woken? && p.outcome.Fired? && p.outcome.status == Closed
  }

  lemma {:induction false} CloseBelowTells<T>(s: State<T>, n: nat)
    requires Base(s) && ChansOk(s) && n <= |s.chans|
    ensures forall k :: 0 <= k < |s.calls| ==>
      CloseBelow(s, n).calls[k] == s.calls[k] || (s.calls[k].phase.Parked? && SawClose(CloseBelow(s, n).calls[k].phase))
    decreases n
  {
    hide Recorded, Complete, InRange, ChanOk;
    if n == 0 {
    } else {
      CloseKeeps(s, n - 1);
      CloseTells(s, n - 1);
      CloseBelowTells(Close(s, n - 1), n - 1);
    }
  }

  /** Requesting shutdown wakes every task that sleeps on a channel, tells it the channel closed, and
      leaves every other call alone. */
  lemma {:induction false} ShutdownWakesAll<T>(s: State<T>)
    requires CodeInv(s)
    ensures forall k :: 0 <= k < |s.calls| ==>
      if s.calls[k].phase.Parked? then SawClose(Do(s, ShutDown).calls[k].phase)
      else Do(s, ShutDown).calls[k] == s.calls[k]
  {
    var a := Abs(s);
    var t := a.(shutdown := true);
    ShutdownKeeps(a);
    assert Base(t) by { ShutdownBase(a); }
    CloseBelowTells(t, |t.chans|);
    assert Abs(Do(s, ShutDown)).calls == Do(s, ShutDown).calls;
    assert Quiet(Shutdown(a));
  }

  /** From then on no operation puts a task to sleep on a channel, and every wait queue is empty, dead
      waiters included, however the run goes on. */
  lemma {:induction false} NoSleepAfterShutdown<T>(s: State<T>, steps: seq<Step<T>>)
    requires CodeInv(s) && s.shutdown && Allowed(s, steps)
    ensures Run(s, steps).shutdown
    ensures forall k :: 0 <= k < |Run(s, steps).calls| ==> !Run(s, steps).calls[k].phase.Parked?
    ensures forall c, op :: 0 <= c < |Run(s, steps).chans| ==> Waiters(Run(s, steps).chans[c], op) == []
    decreases |steps|
  {
    assert Quiet(Abs(s));
    if steps == [] {
    } else {
      StaysShut(Abs(s), steps[0]);
      NoSleepAfterShutdown(Do(s, steps[0]), steps[1..]);
    }
  }

  lemma {:induction false} StaysShut<T>(s: State<T>, st: Step<T>)
    requires Inv(s) && May(s, st) && s.shutdown
    ensures SpecDo(s, st).shutdown
  {
    match st
    case Operate(task, select, cases, order, blocking) => InvokeKeeps(s, task, select, cases, order, blocking);
    case ShutDown => ShutdownKeeps(s);
    case _ =>
  }
}
