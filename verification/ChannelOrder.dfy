/** Waiting is first come, first served: calls are numbered as they are made, and every wait queue is in that order. */
module ChannelOrder {
  import opened Basics
  import opened ChannelTypes
  import opened ChannelSpec
  import opened ChannelInv
  import opened ChannelRefine
  import opened ChannelRuns
  import opened ChannelTheorems

  predicate Before(a: Ref, b: Ref) {
    a.call < b.call || (a.call == b.call && a.idx < b.idx)
  }

  ghost predicate InOrder(q: seq<Ref>) {
    forall i, j :: 0 <= i < j < |q| ==> Before(q[i], q[j])
  }

  ghost predicate Arrived<T>(s: State<T>) {
    forall c, op :: 0 <= c < |s.chans| ==> InOrder(Waiters(s.chans[c], op))
  }

  lemma {:induction false} WithoutInOrder(q: seq<Ref>, k: nat)
    requires InOrder(q)
    ensures InOrder(Without(q, k))
  {
    if q == [] {
    } else {
      var rest := Without(q[1..], k);
      WithoutInOrder(q[1..], k);
      forall j | 0 <= j < |rest| ensures Before(q[0], rest[j]) {
        assert rest[j] in q[1..];
      }
    }
  }

  lemma {:induction false} RegsInOrder<T>(k: nat, cases: seq<Case<T>>, n: nat, c: nat, op: Op)
    requires n <= |cases|
    ensures InOrder(Regs(k, cases, n, c, op))
  {
    if n == 0 {
    } else {
      RegsInOrder(k, cases, n - 1, c, op);
      var q := Regs(k, cases, n - 1, c, op);
      assert forall i :: 0 <= i < |q| ==> q[i] in q;
    }
  }

  /** A change that leaves the queues alone. */
  lemma {:induction false} SameOrder<T>(s: State<T>, t: State<T>)
    requires Arrived(s) && |t.chans| == |s.chans|
    requires forall c, op :: 0 <= c < |s.chans| ==> Waiters(t.chans[c], op) == Waiters(s.chans[c], op)
    ensures Arrived(t)
  {
  }

  lemma {:induction false} DecideOrder<T>(s: State<T>, r: Ref, status: Status, got: Option<T>)
    requires r.call < |s.calls| && Arrived(s)
    ensures Arrived(Decide(s, r, status, got))
  {
    var s' := Decide(s, r, status, got);
    forall c, op | 0 <= c < |s'.chans| ensures InOrder(Waiters(s'.chans[c], op)) {
      assert InOrder(Waiters(s.chans[c], op));
      if s.calls[r.call].phase.Parked? {
        WithoutInOrder(Waiters(s.chans[c], op), r.call);
      }
    }
  }

  lemma {:induction false} AcceptOrder<T>(s: State<T>, c: nat, r: Ref)
    requires c < |s.chans| && ValidRef(s, r) && Arrived(s)
    ensures Arrived(Accept(s, c, r))
  {
    var ch := s.chans[c];
    var t := s.(chans := s.chans[c := ch.(accepted := ch.accepted + [Item(r, CaseAt(s, r).value)])]);
    SameOrder(s, t);
    DecideOrder(t, r, Sent, None);
  }

  lemma {:induction false} DeliverOrder<T>(s: State<T>, c: nat, r: Ref, v: T)
    requires c < |s.chans| && r.call < |s.calls| && Arrived(s)
    ensures Arrived(Deliver(s, c, r, v))
  {
    var ch := s.chans[c];
    var t := s.(chans := s.chans[c := ch.(delivered := ch.delivered + [Item(r, v)])]);
    SameOrder(s, t);
    DecideOrder(t, r, Value, Some(v));
  }

  lemma {:induction false} HandoffOrder<T>(s: State<T>, c: nat, from: Ref, to: Ref)
    requires c < |s.chans| && ValidRef(s, from) && to.call < |s.calls| && Arrived(s)
    ensures Arrived(Handoff(s, c, from, to))
  {
    AcceptOrder(s, c, from);
    DeliverOrder(Accept(s, c, from), c, to, CaseAt(s, from).value);
  }

  lemma {:induction false} StoreOrder<T>(s: State<T>, c: nat, from: Ref)
    requires c < |s.chans| && ValidRef(s, from) && Arrived(s)
    ensures Arrived(Store(s, c, from))
  {
    var t := SetBuffer(s, c, s.chans[c].buffer + [CaseAt(s, from).value]);
    SameOrder(s, t);
    AcceptOrder(t, c, from);
  }

  lemma {:induction false} TakeOrder<T>(s: State<T>, c: nat, to: Ref)
    requires c < |s.chans| && s.chans[c].buffer != [] && to.call < |s.calls| && Arrived(s)
    ensures Arrived(Take(s, c, to))
  {
    var t := SetBuffer(s, c, s.chans[c].buffer[1..]);
    SameOrder(s, t);
    DeliverOrder(t, c, to, s.chans[c].buffer[0]);
  }

  lemma {:induction false} TryCaseOrder<T>(s: State<T>, me: Ref)
    requires Linked(s) && InRange(s) && ValidRef(s, me) && s.calls[me.call].phase.Active? && Arrived(s)
    ensures Arrived(TryCase(s, me))
  {
    hide Arrived;
    match CaseAt(s, me).chan
    case None =>
    case Some(c) =>
      var ch := s.chans[c];
      DecideOrder(s, me, Closed, None);
      if CaseAt(s, me).op.Send? {
        if ch.receivers != [] {
          assert ch.receivers[0] in Waiters(ch, Recv);
          HandoffOrder(s, c, me, ch.receivers[0]);
        }
        StoreOrder(s, c, me);
      } else {
        RecvOrder(s, c, me);
      }
  }

  lemma {:induction false} RecvOrder<T>(s: State<T>, c: nat, me: Ref)
    requires Linked(s) && c < |s.chans| && Names(s, me, c, Recv) && s.calls[me.call].phase.Active? && Arrived(s)
    ensures Arrived(TryRecv(s, c, me))
  {
    hide Arrived;
    var ch := s.chans[c];
    assert ch.senders != [] ==> ch.senders[0] in Waiters(ch, Send);
    if ch.buffer != [] {
      TakeOrder(s, c, me);
      if !ch.closed && ch.senders != [] {
        StoreOrder(Take(s, c, me), c, ch.senders[0]);
      }
    } else if ch.senders != [] {
      HandoffOrder(s, c, ch.senders[0], me);
    } else {
      DecideOrder(s, me, Closed, None);
    }
  }

  lemma {:induction false} AttemptOrder<T>(s: State<T>, k: nat, order: seq<nat>)
    requires Trying(s, k) && (forall i :: i in order ==> i < |s.calls[k].cases|) && Arrived(s)
    ensures Arrived(Attempt(s, k, order))
  {
    hide Arrived;
    if order == [] {
    } else {
      assert order[0] in order && ValidRef(s, Ref(k, order[0]));
      TryCaseOrder(s, Ref(k, order[0]));
      if TryCase(s, Ref(k, order[0])).calls[k].phase.Active? {
        assert forall i :: i in order[1..] ==> i in order;
        AttemptOrder(s, k, order[1..]);
      }
    }
  }

  /** The newest call goes to the end of every queue it waits in. */
  lemma {:induction false} ParkOrder<T>(s: State<T>, k: nat)
    requires Linked(s) && Arrived(s) && k + 1 == |s.calls| && !s.calls[k].phase.Parked?
    ensures Arrived(Park(s, k))
  {
    var s', cases := Park(s, k), s.calls[k].cases;
    forall c, op | 0 <= c < |s'.chans| ensures InOrder(Waiters(s'.chans[c], op)) {
      var q, more := Waiters(s.chans[c], op), Regs(k, cases, |cases|, c, op);
      RegsInOrder(k, cases, |cases|, c, op);
      assert Waiters(s'.chans[c], op) == q + more;
      assert forall i :: 0 <= i < |q| ==> q[i] in q;
      assert forall i :: 0 <= i < |more| ==> more[i] in more;
    }
  }

  lemma {:induction false} DrainOrder<T>(s: State<T>, refs: seq<Ref>)
    requires (forall r :: r in refs ==> r.call < |s.calls|) && Arrived(s)
    ensures Arrived(DrainClosed(s, refs))
    decreases |refs|
  {
    hide Arrived;
    if refs == [] {
    } else {
      assert refs[0] in refs && forall r :: r in refs[1..] ==> r in refs;
      DecideOrder(s, refs[0], Closed, None);
      DrainOrder(if s.calls[refs[0].call].phase.Parked? then Decide(s, refs[0], Closed, None) else s, refs[1..]);
    }
  }

  lemma {:induction false} CloseOrder<T>(s: State<T>, c: nat)
    requires Linked(s) && c < |s.chans| && Arrived(s)
    ensures Arrived(Close(s, c))
  {
    var ch := s.chans[c];
    if !ch.closed {
      assert forall r :: r in ch.senders + ch.receivers ==> r in Waiters(ch, Send) || r in Waiters(ch, Recv);
      var t := s.(chans := s.chans[c := ch.(closed := true)]);
      SameOrder(s, t);
      DrainOrder(t, ch.senders + ch.receivers);
    }
  }

  lemma {:induction false} CloseBelowOrder<T>(s: State<T>, n: nat)
    requires Linked(s) && n <= |s.chans| && Arrived(s)
    ensures Arrived(CloseBelow(s, n))
    decreases n
  {
    hide Arrived;
    if n == 0 {
    } else {
      CloseOrder(s, n - 1);
      CloseBelowOrder(Close(s, n - 1), n - 1);
    }
  }

  lemma {:induction false} ShutdownOrder<T>(s: State<T>)
    requires Linked(s) && Arrived(s)
    ensures Arrived(Shutdown(s))
  {
    var t := s.(shutdown := true);
    assert Linked(t) by { assert forall x, c: nat, op :: Names(t, x, c, op) == Names(s, x, c, op); }
    SameOrder(s, t);
    CloseBelowOrder(t, |s.chans|);
  }

  lemma {:induction false} InvokeOrder<T>(
    s: State<T>, task: Option<nat>, select: bool, cases: seq<Case<T>>, order: seq<nat>, blocking: bool)
    requires Trying(Begin(s, task, select, cases), |s.calls|) && (forall i :: i in order ==> i < |cases|) && Arrived(s)
    ensures Arrived(Invoke(s, task, select, cases, order, blocking))
  {
    hide InRange;
    var t := Begin(s, task, select, cases);
    SameOrder(s, t);
    AttemptOrder(t, |s.calls|, order);
    var s1 := Attempt(t, |s.calls|, order);
    if !s1.calls[|s.calls|].phase.Returned? {
      assert s1 == t;
      ParkOrder(t, |s.calls|);
      SameOrder(t, Return(t, |s.calls|));
    }
  }

  lemma {:induction false} StepOrder<T>(s: State<T>, st: Step<T>)
    requires Inv(s) && May(s, st) && Arrived(s)
    ensures Arrived(SpecDo(s, st))
  {
    match st
    case Open(capacity) =>
    case Operate(task, select, cases, order, blocking) =>
      InvokeKeeps(s, task, select, cases, order, blocking);
      InvokeOrder(s, task, select, cases, order, blocking);
    case CloseOne(c) => CloseOrder(s, c);
    case DestroyOne(c) => SameOrder(s, Destroy(s, c));
    case ShutDown => ShutdownOrder(s);
    case Resume(k) => SameOrder(s, Finish(s, k));
  }

  lemma {:induction false} TraceOrder<T(!new)>(trace: seq<State<T>>, i: nat)
    requires IsRun(trace) && i < |trace|
    ensures Arrived(Abs(trace[i]))
  {
    hide CodeInv, May, Do, SpecDo, Arrived, Inv;
    if i == 0 {
      NothingYet<T>();
    } else {
      assert StepAt(trace, i - 1);
      var st :| May(Abs(trace[i - 1]), st) && trace[i] == Do(trace[i - 1], st);
      TraceOrder(trace, i - 1);
      AbsInv(trace[i - 1], st);
      StepOrder(Abs(trace[i - 1]), st);
    }
  }

  lemma {:induction false} NothingYet<T>()
    ensures Arrived(Abs<T>(Init()))
  {
  }

  lemma {:induction false} AbsInv<T>(s: State<T>, st: Step<T>)
    requires CodeInv(s) && May(Abs(s), st)
    ensures Inv(Abs(s)) && Abs(Do(s, st)) == SpecDo(Abs(s), st)
  {
    hide CodeOk, Inv, Drained, May, SpecDo;
  }

  /** In every reachable state the waiters of a queue that can still be chosen are in the order their calls were made;
      the first, which is the one that is served, has waited longest. */
  lemma {:induction false} FirstComeFirstServed<T(!new)>(s: State<T>, c: nat, op: Op)
    requires Reachable(s) && c < |s.chans|
    ensures var q := Live(Waiters(s.chans[c], op), s.calls);
      && (forall i, j :: 0 <= i < j < |q| ==> Before(q[i], q[j]))
      && (forall r :: r in q ==> q[0].call <= r.call)
  {
    hide Inv, CodeInv;
    var trace :| IsRun(trace) && trace[|trace| - 1] == s;
    TraceOrder(trace, |trace| - 1);
    SameChannel(s, c);
    assert InOrder(Waiters(Abs(s).chans[c], op));
  }
}
