/** Whole runs: any number of tasks and threads, each public operation one step up to its park and
    one more when it wakes, interleaved in any order. */
module ChannelRuns {
  import opened Basics
  import opened ChannelTypes
  import opened ChannelSpec
  import opened ChannelInv
  import opened ChannelCode
  import opened ChannelRefine

  datatype Step<T> =
    | Open(capacity: nat)
    | Operate(task: Option<nat>, select: bool, cases: seq<Case<T>>, order: seq<nat>, blocking: bool)
    | CloseOne(c: nat)
    | DestroyOne(c: nat)
    | ShutDown
    | Resume(k: nat)

  /** What callers must respect. */
  ghost predicate May<T>(s: State<T>, st: Step<T>) {
    match st
    case Open(_) => true
    case Operate(task, select, cases, order, blocking) => MayInvoke(s, task, select, cases, order, blocking)
    case CloseOne(c) => c < |s.chans| && !s.chans[c].destroyed
    case DestroyOne(c) => c < |s.chans| && !s.chans[c].destroyed
    case ShutDown => true
    case Resume(k) => k < |s.calls| && s.calls[k].phase.Woken?
  }

  function Init<T>(): State<T> {
    State([], [], false)
  }

  // ---------------------------------------------------------------------------------------------
  // The specification runs
  // ---------------------------------------------------------------------------------------------

  ghost function SpecDo<T>(s: State<T>, st: Step<T>): (s': State<T>)
    requires Inv(s) && May(s, st)
    ensures Inv(s')
  {
    match st
    case Open(capacity) => CreateKeeps(s, capacity); Create(s, capacity)
    case Operate(task, select, cases, order, blocking) =>
      InvokeKeeps(s, task, select, cases, order, blocking);
      Invoke(s, task, select, cases, order, blocking)
    case CloseOne(c) => CloseInv(s, c); Close(s, c)
    case DestroyOne(c) => DestroyKeeps(s, c); Destroy(s, c)
    case ShutDown => ShutdownKeeps(s); Shutdown(s)
    case Resume(k) => FinishKeeps(s, k); Finish(s, k)
  }

  lemma {:induction false} CloseInv<T>(s: State<T>, c: nat)
    requires Inv(s) && c < |s.chans|
    ensures Inv(Close(s, c))
  {
    CloseKeeps(s, c);
    WakesKeepCalls(s, Close(s, c), |s.calls|);
  }

  // ---------------------------------------------------------------------------------------------
  // The code runs
  // ---------------------------------------------------------------------------------------------

  /** Once shutdown was requested nothing is linked to any channel, dead waiters included. */
  ghost predicate Drained<T>(s: State<T>) {
    s.shutdown ==> forall c, op :: 0 <= c < |s.chans| ==> Waiters(s.chans[c], op) == []
  }

  ghost predicate CodeInv<T>(s: State<T>) {
    CodeOk(s) && Inv(Abs(s)) && Drained(s)
  }

  lemma {:induction false} FewerDrained<T>(s: State<T>, s': State<T>)
    requires Drained(s) && FewerWaiters(s, s') && s'.shutdown == s.shutdown
    ensures Drained(s')
  {
    if s.shutdown {
      forall c, op | 0 <= c < |s'.chans| ensures Waiters(s'.chans[c], op) == [] {
        if Waiters(s'.chans[c], op) != [] {
          HasMember(Waiters(s'.chans[c], op));
        }
      }
    }
  }

  lemma {:induction false} InvokeDrains<T>(
    s: State<T>, task: Option<nat>, select: bool, cases: seq<Case<T>>, order: seq<nat>, blocking: bool)
    requires CodeOk(s) && Inv(Abs(s)) && Drained(s) && MayInvoke(Abs(s), task, select, cases, order, blocking)
    ensures RefsValid(Begin(s, task, select, cases)) && InRange(Begin(s, task, select, cases))
    ensures Drained(InvokeLocked(s, task, select, cases, order, blocking))
  {
    hide CodeOk, Base, ChansOk, CallsOk;
    SimInvoke(s, task, select, cases, order, blocking);
    InvokeKeeps(Abs(s), task, select, cases, order, blocking);
    var t := Begin(s, task, select, cases);
    var s1 := AttemptLocked(t, |s.calls|, order);
    FewerDrained(t, s1);
    var s' := InvokeLocked(s, task, select, cases, order, blocking);
    assert Quiet(Abs(s')) && Abs(s').calls == s'.calls;
  }

  lemma {:induction false} ShutdownDrains<T>(s: State<T>)
    requires CodeOk(s) && Inv(Abs(s))
    ensures RefsValid(s.(shutdown := true))
    ensures Drained(CloseBelowLocked(s.(shutdown := true), |s.chans|))
  {
    SimShutdown(s);
    ShutdownKeeps(Abs(s));
    var s' := CloseBelowLocked(s.(shutdown := true), |s.chans|);
    forall c, op | 0 <= c < |s'.chans| ensures Waiters(s'.chans[c], op) == [] {
      assert Abs(s').chans[c].closed == s'.chans[c].closed;
    }
  }

  /** One step of the code; it is the specification's step once dead waiters are forgotten. */
  ghost function Do<T>(s: State<T>, st: Step<T>): (s': State<T>)
    requires CodeInv(s) && May(Abs(s), st)
    ensures Abs(s') == SpecDo(Abs(s), st)
    ensures CodeInv(s')
  {
    match st
    case Open(capacity) => SimCreate(s, capacity); Create(s, capacity)
    case Operate(task, select, cases, order, blocking) =>
      SimInvoke(s, task, select, cases, order, blocking);
      InvokeDrains(s, task, select, cases, order, blocking);
      InvokeLocked(s, task, select, cases, order, blocking)
    case CloseOne(c) =>
      SimClose(s, c);
      FewerDrained(s, CloseLocked(s, c));
      CloseLocked(s, c)
    case DestroyOne(c) =>
      SimDestroy(s, c);
      FewerDrained(s, Destroy(s, c));
      Destroy(s, c)
    case ShutDown =>
      SimShutdown(s);
      ShutdownDrains(s);
      CloseBelowLocked(s.(shutdown := true), |s.chans|)
    case Resume(k) =>
      SimFinish(s, k);
      FewerDrained(s, FinishLocked(s, k));
      FinishLocked(s, k)
  }

  ghost predicate Allowed<T>(s: State<T>, steps: seq<Step<T>>)
    requires CodeInv(s)
    decreases |steps|
  {
    steps == [] || (May(Abs(s), steps[0]) && Allowed(Do(s, steps[0]), steps[1..]))
  }

  ghost function Run<T>(s: State<T>, steps: seq<Step<T>>): (s': State<T>)
    requires CodeInv(s) && Allowed(s, steps)
    ensures CodeInv(s')
    decreases |steps|
  {
    if steps == [] then s else Run(Do(s, steps[0]), steps[1..])
  }

  lemma {:induction false} InitOk<T>()
    ensures CodeInv<T>(Init())
  {
    assert Abs<T>(Init()).chans == [];
  }

  ghost function SpecRun<T>(s: State<T>, steps: seq<Step<T>>): (s': State<T>)
    requires Inv(s) && SpecAllowed(s, steps)
    ensures Inv(s')
    decreases |steps|
  {
    if steps == [] then s else SpecRun(SpecDo(s, steps[0]), steps[1..])
  }

  ghost predicate SpecAllowed<T>(s: State<T>, steps: seq<Step<T>>)
    requires Inv(s)
    decreases |steps|
  {
    steps == [] || (May(s, steps[0]) && SpecAllowed(SpecDo(s, steps[0]), steps[1..]))
  }

  /** The code allows the runs the specification allows and ends them in the same place. */
  lemma {:induction false} CodeRefinesSpec<T>(s: State<T>, steps: seq<Step<T>>)
    requires CodeInv(s)
    ensures Allowed(s, steps) <==> SpecAllowed(Abs(s), steps)
    ensures Allowed(s, steps) ==> Abs(Run(s, steps)) == SpecRun(Abs(s), steps)
    decreases |steps|
  {
    if steps == [] {
    } else if May(Abs(s), steps[0]) {
      CodeRefinesSpec(Do(s, steps[0]), steps[1..]);
    }
  }

  // ---------------------------------------------------------------------------------------------
  // Answers are final and histories only grow
  // ---------------------------------------------------------------------------------------------

  ghost predicate ChanGrows<T>(ch: Chan<T>, ch': Chan<T>) {
    && ch.accepted <= ch'.accepted && ch.delivered <= ch'.delivered && ch'.capacity == ch.capacity
    && (ch.closed ==> ch'.closed) && (ch.destroyed ==> ch'.destroyed)
  }

  ghost predicate Grows<T>(s: State<T>, s': State<T>) {
    |s.chans| <= |s'.chans| && forall c :: 0 <= c < |s.chans| ==> ChanGrows(s.chans[c], s'.chans[c])
  }

  ghost predicate CallGrows<T>(a: Call<T>, b: Call<T>) {
    && b.task == a.task && b.select == a.select && b.cases == a.cases
    && (a.phase.Parked? ==> b.phase.Parked? || Decided(b.phase))
    && (Decided(a.phase) ==> Decided(b.phase) && b.phase.outcome == a.phase.outcome)
    && (a.phase.Returned? ==> b == a)
  }

  ghost predicate Answers<T>(s: State<T>, s': State<T>) {
    |s.calls| <= |s'.calls| && forall k :: 0 <= k < |s.calls| ==> CallGrows(s.calls[k], s'.calls[k])
  }

  lemma {:induction false} GrowsOn<T>(a: State<T>, b: State<T>, c: State<T>)
    requires Grows(a, b) && Grows(b, c)
    ensures Grows(a, c)
  {
    forall i | 0 <= i < |a.chans| ensures ChanGrows(a.chans[i], c.chans[i]) {
      assert ChanGrows(a.chans[i], b.chans[i]) && ChanGrows(b.chans[i], c.chans[i]);
    }
  }

  lemma {:induction false} DecideGrows<T>(s: State<T>, r: Ref, status: Status, got: Option<T>)
    requires r.call < |s.calls|
    ensures Grows(s, Decide(s, r, status, got))
  {
  }

  lemma {:induction false} AcceptGrows<T>(s: State<T>, c: nat, r: Ref)
    requires c < |s.chans| && ValidRef(s, r)
    ensures Grows(s, Accept(s, c, r))
  {
    var ch := s.chans[c];
    var t := s.(chans := s.chans[c := ch.(accepted := ch.accepted + [Item(r, CaseAt(s, r).value)])]);
    DecideGrows(t, r, Sent, None);
    GrowsOn(s, t, Accept(s, c, r));
  }

  lemma {:induction false} DeliverGrows<T>(s: State<T>, c: nat, r: Ref, v: T)
    requires c < |s.chans| && r.call < |s.calls|
    ensures Grows(s, Deliver(s, c, r, v))
  {
    var ch := s.chans[c];
    var t := s.(chans := s.chans[c := ch.(delivered := ch.delivered + [Item(r, v)])]);
    DecideGrows(t, r, Value, Some(v));
    GrowsOn(s, t, Deliver(s, c, r, v));
  }

  lemma {:induction false} HandoffGrows<T>(s: State<T>, c: nat, from: Ref, to: Ref)
    requires c < |s.chans| && ValidRef(s, from) && to.call < |s.calls|
    ensures Grows(s, Handoff(s, c, from, to))
  {
    var v := CaseAt(s, from).value;
    AcceptGrows(s, c, from);
    DeliverGrows(Accept(s, c, from), c, to, v);
    GrowsOn(s, Accept(s, c, from), Handoff(s, c, from, to));
  }

  lemma {:induction false} StoreGrows<T>(s: State<T>, c: nat, from: Ref)
    requires c < |s.chans| && ValidRef(s, from)
    ensures Grows(s, Store(s, c, from))
  {
    var t := SetBuffer(s, c, s.chans[c].buffer + [CaseAt(s, from).value]);
    AcceptGrows(t, c, from);
    GrowsOn(s, t, Store(s, c, from));
  }

  lemma {:induction false} TakeGrows<T>(s: State<T>, c: nat, to: Ref)
    requires c < |s.chans| && s.chans[c].buffer != [] && to.call < |s.calls|
    ensures Grows(s, Take(s, c, to))
  {
    var t := SetBuffer(s, c, s.chans[c].buffer[1..]);
    DeliverGrows(t, c, to, s.chans[c].buffer[0]);
    GrowsOn(s, t, Take(s, c, to));
  }

  lemma {:induction false} TryCaseGrows<T>(s: State<T>, me: Ref)
    requires Linked(s) && InRange(s) && ValidRef(s, me) && s.calls[me.call].phase.Active?
    ensures Grows(s, TryCase(s, me))
  {
    match CaseAt(s, me).chan
    case None =>
    case Some(c) =>
      var ch := s.chans[c];
      DecideGrows(s, me, Closed, None);
      if CaseAt(s, me).op.Send? {
        if ch.receivers != [] {
          assert ch.receivers[0] in Waiters(ch, Recv);
          HandoffGrows(s, c, me, ch.receivers[0]);
        }
        StoreGrows(s, c, me);
      } else {
        RecvGrows(s, c, me);
      }
  }

  lemma {:induction false} RecvGrows<T>(s: State<T>, c: nat, me: Ref)
    requires Linked(s) && c < |s.chans| && Names(s, me, c, Recv) && s.calls[me.call].phase.Active?
    ensures Grows(s, TryRecv(s, c, me))
  {
    var ch := s.chans[c];
    assert ch.senders != [] ==> ch.senders[0] in Waiters(ch, Send);
    if ch.buffer != [] {
      var s1 := Take(s, c, me);
      TakeGrows(s, c, me);
      if !ch.closed && ch.senders != [] {
        StoreGrows(s1, c, ch.senders[0]);
        GrowsOn(s, s1, TryRecv(s, c, me));
      }
    } else if ch.senders != [] {
      HandoffGrows(s, c, ch.senders[0], me);
    } else {
      DecideGrows(s, me, Closed, None);
    }
  }

  lemma {:induction false} AttemptGrows<T>(s: State<T>, k: nat, order: seq<nat>)
    requires Trying(s, k) && forall i :: i in order ==> i < |s.calls[k].cases|
    ensures Grows(s, Attempt(s, k, order))
  {
    if order == [] {
    } else {
      assert order[0] in order && ValidRef(s, Ref(k, order[0]));
      TryCaseGrows(s, Ref(k, order[0]));
      if TryCase(s, Ref(k, order[0])).calls[k].phase.Active? {
        assert forall i :: i in order[1..] ==> i in order;
        AttemptGrows(s, k, order[1..]);
      }
    }
  }

  lemma {:induction false} DrainGrows<T>(s: State<T>, refs: seq<Ref>)
    requires forall r :: r in refs ==> r.call < |s.calls|
    ensures Grows(s, DrainClosed(s, refs))
    decreases |refs|
  {
    if refs == [] {
    } else {
      assert refs[0] in refs && forall r :: r in refs[1..] ==> r in refs;
      DrainGrows(if s.calls[refs[0].call].phase.Parked? then Decide(s, refs[0], Closed, None) else s, refs[1..]);
    }
  }

  lemma {:induction false} CloseGrows<T>(s: State<T>, c: nat)
    requires Linked(s) && c < |s.chans|
    ensures Grows(s, Close(s, c))
  {
    var ch := s.chans[c];
    if !ch.closed {
      assert forall r :: r in ch.senders + ch.receivers ==> r in Waiters(ch, Send) || r in Waiters(ch, Recv);
      DrainGrows(s.(chans := s.chans[c := ch.(closed := true)]), ch.senders + ch.receivers);
    }
  }

  lemma {:induction false} CloseBelowGrows<T>(s: State<T>, n: nat)
    requires Linked(s) && n <= |s.chans|
    ensures Grows(s, CloseBelow(s, n))
    decreases n
  {
    if n == 0 {
    } else {
      CloseGrows(s, n - 1);
      CloseBelowGrows(Close(s, n - 1), n - 1);
    }
  }

  lemma {:induction false} InvokeGrows<T>(s: State<T>, task: Option<nat>, select: bool, cases: seq<Case<T>>,
      order: seq<nat>, blocking: bool)
    requires Trying(Begin(s, task, select, cases), |s.calls|) && forall i :: i in order ==> i < |cases|
    ensures Grows(s, Invoke(s, task, select, cases, order, blocking))
  {
    AttemptGrows(Begin(s, task, select, cases), |s.calls|, order);
  }

  lemma {:induction false} ShutdownGrows<T>(s: State<T>)
    requires Linked(s)
    ensures Grows(s, Shutdown(s))
  {
    var t := s.(shutdown := true);
    assert Linked(t) by { assert forall x, c: nat, op :: Names(t, x, c, op) == Names(s, x, c, op); }
    CloseBelowGrows(t, |s.chans|);
  }

  lemma {:induction false} StepGrows<T>(s: State<T>, st: Step<T>)
    requires Inv(s) && May(s, st)
    ensures Grows(s, SpecDo(s, st))
  {
    match st
    case Operate(task, select, cases, order, blocking) =>
      InvokeKeeps(s, task, select, cases, order, blocking);
      InvokeGrows(s, task, select, cases, order, blocking);
    case CloseOne(c) => CloseGrows(s, c);
    case ShutDown => ShutdownGrows(s);
    case _ =>
  }

  lemma {:induction false} InvokeAnswers<T>(s: State<T>, task: Option<nat>, select: bool, cases: seq<Case<T>>,
      order: seq<nat>, blocking: bool)
    requires Inv(s) && MayInvoke(s, task, select, cases, order, blocking)
    ensures Trying(Begin(s, task, select, cases), |s.calls|)
    ensures Answers(s, Invoke(s, task, select, cases, order, blocking))
  {
    hide Linked, InRange, Complete, Recorded, ChanOk;
    InvokeKeeps(s, task, select, cases, order, blocking);
    var t := Begin(s, task, select, cases);
    BeginBase(s, task, select, cases);
    assert OnlyWakes(t, Attempt(t, |s.calls|, order), |s.calls|) by { AttemptKeeps(t, |s.calls|, order); }
  }

  lemma {:induction false} WakesAnswer<T>(s: State<T>, s': State<T>)
    requires OnlyWakes(s, s', |s.calls|)
    ensures Answers(s, s')
  {
  }

  lemma {:induction false} StepAnswers<T>(s: State<T>, st: Step<T>)
    requires Inv(s) && May(s, st)
    ensures Answers(s, SpecDo(s, st))
  {
    match st
    case Operate(task, select, cases, order, blocking) => InvokeAnswers(s, task, select, cases, order, blocking);
    case CloseOne(c) =>
      CloseKeeps(s, c);
      WakesAnswer(s, Close(s, c));
    case ShutDown =>
      ShutdownKeeps(s);
      WakesAnswer(s.(shutdown := true), Shutdown(s));
    case _ =>
  }

  /** Whatever a call was told it stays told, a returned call never changes, and values already
      accepted or delivered stay where they are in the order. */
  lemma {:induction false} AnswersAreFinal<T>(s: State<T>, steps: seq<Step<T>>)
    requires Inv(s) && SpecAllowed(s, steps)
    ensures Grows(s, SpecRun(s, steps)) && Answers(s, SpecRun(s, steps))
    decreases |steps|
  {
    if steps == [] {
    } else {
      StepGrows(s, steps[0]);
      StepAnswers(s, steps[0]);
      AnswersAreFinal(SpecDo(s, steps[0]), steps[1..]);
    }
  }

  // ---------------------------------------------------------------------------------------------
  // Who is woken
  // ---------------------------------------------------------------------------------------------

  /** Every call stays as it is or is woken from its sleep; one may be added, which sleeps or has returned. */
  ghost predicate Wakes<T>(calls: seq<Call<T>>, calls': seq<Call<T>>) {
    && |calls| <= |calls'| <= |calls| + 1
    && (forall k :: 0 <= k < |calls| ==> calls'[k] == calls[k] || WokenNow(calls, calls', k))
    && (|calls'| > |calls| ==> calls'[|calls|].phase.Parked? || calls'[|calls|].phase.Returned?)
  }

  lemma {:induction false} InvokeWakes<T>(
    s: State<T>, task: Option<nat>, select: bool, cases: seq<Case<T>>, order: seq<nat>, blocking: bool)
    requires Inv(s) && MayInvoke(s, task, select, cases, order, blocking)
    ensures Trying(Begin(s, task, select, cases), |s.calls|)
    ensures var s' := Invoke(s, task, select, cases, order, blocking);
      && Wakes(s.calls, s'.calls) && |s'.calls| == |s.calls| + 1 && s'.shutdown == s.shutdown
      && s'.calls[|s.calls|].task == task && (s'.calls[|s.calls|].phase.Parked? ==> task.Some? && !s.shutdown)
  {
    hide Linked, InRange, Complete, Recorded, ChanOk;
    InvokeKeeps(s, task, select, cases, order, blocking);
    var t := Begin(s, task, select, cases);
    BeginBase(s, task, select, cases);
    assert OnlyWakes(t, Attempt(t, |s.calls|, order), |s.calls|) by { AttemptKeeps(t, |s.calls|, order); }
  }

  /** A step other than a return wakes sleepers and touches no other call. */
  lemma {:induction false} StepWakes<T>(s: State<T>, st: Step<T>)
    requires Inv(s) && May(s, st) && !st.Resume?
    ensures Wakes(s.calls, SpecDo(s, st).calls)
    ensures SpecDo(s, st).shutdown == (s.shutdown || st.ShutDown?)
    ensures |SpecDo(s, st).calls| == |s.calls| + if st.Operate? then 1 else 0
    ensures st.Operate? ==> var call := SpecDo(s, st).calls[|s.calls|];
      call.task == st.task && (call.phase.Parked? ==> st.task.Some? && !s.shutdown)
  {
    hide Linked, InRange, Complete, Recorded, ChanOk, MayInvoke;
    match st
    case Operate(task, select, cases, order, blocking) => InvokeWakes(s, task, select, cases, order, blocking);
    case CloseOne(c) => CloseKeeps(s, c);
    case ShutDown => ShutdownKeeps(s);
    case _ =>
  }
}
