/** What an operation may do to channels, and whom it wakes: a call touches the channel of the case that fires and no
    other, and serves at most one sleeper, the one that has waited longest there. */
module ChannelLaws {
  import opened Basics
  import opened ChannelTypes
  import opened ChannelSpec
  import opened ChannelInv
  import opened ChannelCode
  import opened ChannelRefine
  import opened ChannelRuns
  import opened ChannelTheorems

  /** Nothing of a channel changed but who waits there. */
  predicate Still<T(==)>(a: Chan<T>, b: Chan<T>) {
    && b.capacity == a.capacity && b.closed == a.closed && b.destroyed == a.destroyed
    && b.buffer == a.buffer && b.accepted == a.accepted && b.delivered == a.delivered
  }

  /** No channel changed but for the values that went through channel `c`. */
  ghost predicate OnlyAt<T>(s: State<T>, s': State<T>, c: Option<nat>) {
    && |s'.chans| == |s.chans|
    && forall d :: 0 <= d < |s.chans| ==>
         var a, b := s.chans[d], s'.chans[d];
         && b.capacity == a.capacity && b.closed == a.closed && b.destroyed == a.destroyed
         && (c != Some(d) ==> Still(a, b))
  }

  // ---------------------------------------------------------------------------------------------
  // One case
  // ---------------------------------------------------------------------------------------------

  lemma {:induction false} DecideAt<T>(s: State<T>, r: Ref, status: Status, got: Option<T>)
    requires r.call < |s.calls|
    ensures OnlyAt(s, Decide(s, r, status, got), None)
  {
  }

  lemma {:induction false} AcceptAt<T>(s: State<T>, c: nat, r: Ref)
    requires c < |s.chans| && ValidRef(s, r)
    ensures OnlyAt(s, Accept(s, c, r), Some(c))
  {
    var ch := s.chans[c];
    DecideAt(s.(chans := s.chans[c := ch.(accepted := ch.accepted + [Item(r, CaseAt(s, r).value)])]), r, Sent, None);
  }

  lemma {:induction false} DeliverAt<T>(s: State<T>, c: nat, r: Ref, v: T)
    requires c < |s.chans| && r.call < |s.calls|
    ensures OnlyAt(s, Deliver(s, c, r, v), Some(c))
  {
    var ch := s.chans[c];
    DecideAt(s.(chans := s.chans[c := ch.(delivered := ch.delivered + [Item(r, v)])]), r, Value, Some(v));
  }

  lemma {:induction false} HandoffAt<T>(s: State<T>, c: nat, from: Ref, to: Ref)
    requires c < |s.chans| && ValidRef(s, from) && to.call < |s.calls|
    ensures OnlyAt(s, Handoff(s, c, from, to), Some(c))
  {
    AcceptAt(s, c, from);
    DeliverAt(Accept(s, c, from), c, to, CaseAt(s, from).value);
  }

  lemma {:induction false} StoreAt<T>(s: State<T>, c: nat, from: Ref)
    requires c < |s.chans| && ValidRef(s, from)
    ensures OnlyAt(s, Store(s, c, from), Some(c))
  {
    AcceptAt(SetBuffer(s, c, s.chans[c].buffer + [CaseAt(s, from).value]), c, from);
  }

  lemma {:induction false} TakeAt<T>(s: State<T>, c: nat, to: Ref)
    requires c < |s.chans| && s.chans[c].buffer != [] && to.call < |s.calls|
    ensures OnlyAt(s, ChannelSpec.Take(s, c, to), Some(c))
  {
    DeliverAt(SetBuffer(s, c, s.chans[c].buffer[1..]), c, to, s.chans[c].buffer[0]);
  }

  lemma {:induction false} SendAt<T>(s: State<T>, c: nat, me: Ref)
    requires Linked(s) && c < |s.chans| && Names(s, me, c, Op.Send) && s.calls[me.call].phase.Active?
    ensures OnlyAt(s, TrySend(s, c, me), Some(c))
  {
    var ch := s.chans[c];
    DecideAt(s, me, Closed, None);
    if ch.receivers != [] {
      assert ch.receivers[0] in Waiters(ch, Recv);
      HandoffAt(s, c, me, ch.receivers[0]);
    }
    StoreAt(s, c, me);
  }

  lemma {:induction false} RecvAt<T>(s: State<T>, c: nat, me: Ref)
    requires Linked(s) && c < |s.chans| && Names(s, me, c, Recv) && s.calls[me.call].phase.Active?
    ensures OnlyAt(s, TryRecv(s, c, me), Some(c))
  {
    var ch := s.chans[c];
    assert ch.senders != [] ==> ch.senders[0] in Waiters(ch, Op.Send);
    if ch.buffer != [] {
      TakeAt(s, c, me);
      if !ch.closed && ch.senders != [] {
        StoreAt(ChannelSpec.Take(s, c, me), c, ch.senders[0]);
      }
    } else if ch.senders != [] {
      HandoffAt(s, c, ch.senders[0], me);
    } else {
      DecideAt(s, me, Closed, None);
    }
  }

  lemma {:induction false} CaseTouches<T>(s: State<T>, me: Ref)
    requires Linked(s) && InRange(s) && ValidRef(s, me) && s.calls[me.call].phase.Active?
    ensures OnlyAt(s, TryCase(s, me), CaseAt(s, me).chan)
  {
    hide OnlyAt, TrySend, TryRecv;
    match CaseAt(s, me).chan
    case None => SameAt(s);
    case Some(c) =>
      if CaseAt(s, me).op.Send? { SendAt(s, c, me); } else { RecvAt(s, c, me); }
  }

  lemma {:induction false} SameAt<T>(s: State<T>)
    ensures OnlyAt(s, s, None)
  {
  }

  /** Whom a case serves, in a state whose queues hold live waiters only. */
  ghost function Serves<T>(s: State<T>, cs: Case<T>): seq<nat> {
    match cs.chan
    case None => []
    case Some(c) =>
      if c >= |s.chans| then []
      else if cs.op.Send? then
        if Shut(s, c) || s.chans[c].receivers == [] then [] else [s.chans[c].receivers[0].call]
      else if s.chans[c].senders == [] then [] else [s.chans[c].senders[0].call]
  }

  lemma {:induction false} SendServed<T>(s: State<T>, c: nat, me: Ref)
    requires Linked(s) && c < |s.chans| && Names(s, me, c, Op.Send) && s.calls[me.call].phase.Active?
    ensures forall k: nat :: k in Serves(s, CaseAt(s, me)) <==> WokenNow(s.calls, TrySend(s, c, me).calls, k)
  {
    hide WokenNow;
    var s', ch := TrySend(s, c, me), s.chans[c];
    if Shut(s, c) || ch.receivers == [] {
      ActiveOnly(s.calls, s'.calls, me.call);
    } else {
      var to := ch.receivers[0];
      assert to in Waiters(ch, Recv);
      HandoffTells(s, c, me, to);
      WokenBut(s.calls, s'.calls, to.call, me.call);
    }
  }

  /** Only the active call changed. */
  lemma {:induction false} ActiveOnly<T>(calls: seq<Call<T>>, calls': seq<Call<T>>, k: nat)
    requires k < |calls| == |calls'| && calls[k].phase.Active?
    requires forall j :: 0 <= j < |calls| && j != k ==> calls'[j] == calls[j]
    ensures forall j: nat :: !WokenNow(calls, calls', j)
  {
  }

  /** And one that was woken. */
  lemma {:induction false} WokenBut<T>(calls: seq<Call<T>>, calls': seq<Call<T>>, k: nat, me: nat)
    requires k < |calls| == |calls'| && me < |calls| && me != k && calls[me].phase.Active?
    requires calls[k].phase.Parked? && calls'[k].phase.Woken? && calls'[k] == calls[k].(phase := calls'[k].phase)
    requires forall j :: 0 <= j < |calls| && j != k && j != me ==> calls'[j] == calls[j]
    ensures forall j: nat :: j in [k] <==> WokenNow(calls, calls', j)
  {
  }

  lemma {:induction false} RecvServed<T>(s: State<T>, c: nat, me: Ref)
    requires Linked(s) && c < |s.chans| && Names(s, me, c, Recv) && s.calls[me.call].phase.Active?
    requires s.chans[c].closed ==> s.chans[c].senders == []
    ensures forall k: nat :: k in Serves(s, CaseAt(s, me)) <==> WokenNow(s.calls, TryRecv(s, c, me).calls, k)
  {
    hide WokenNow;
    var s', ch := TryRecv(s, c, me), s.chans[c];
    if ch.senders == [] {
      ActiveOnly(s.calls, s'.calls, me.call);
    } else {
      assert ch.senders[0] in Waiters(ch, Op.Send);
      if ch.buffer == [] { DirectTells(s, c, me); } else { TakeTells(s, c, me); }
      WokenBut(s.calls, s'.calls, ch.senders[0].call, me.call);
    }
  }

  ghost predicate ClosedIsEmpty<T>(s: State<T>) {
    forall c :: 0 <= c < |s.chans| && s.chans[c].closed ==> s.chans[c].senders == []
  }

  lemma {:induction false} CaseServes<T>(s: State<T>, me: Ref)
    requires Linked(s) && InRange(s) && ValidRef(s, me) && s.calls[me.call].phase.Active? && ClosedIsEmpty(s)
    ensures forall k: nat :: k in Serves(s, CaseAt(s, me)) <==> WokenNow(s.calls, TryCase(s, me).calls, k)
  {
    hide WokenNow, TrySend, TryRecv;
    match CaseAt(s, me).chan
    case None => ActiveOnly(s.calls, s.calls, me.call);
    case Some(c) =>
      if CaseAt(s, me).op.Send? { SendServed(s, c, me); } else { RecvServed(s, c, me); }
  }

  // ---------------------------------------------------------------------------------------------
  // A whole call
  // ---------------------------------------------------------------------------------------------

  /** Trying cases in order does nothing, or what the case that fires does. */
  lemma {:induction false} AttemptIsOne<T>(s: State<T>, k: nat, order: seq<nat>)
    requires Trying(s, k) && forall i :: i in order ==> i < |s.calls[k].cases|
    ensures var s' := Attempt(s, k, order);
      || s' == s
      || exists i :: i in order && FiredBy(s'.calls[k], i) && s' == TryCase(s, Ref(k, i))
  {
    hide Linked, Ready;
    if order == [] {
    } else {
      assert order[0] in order && ValidRef(s, Ref(k, order[0]));
      assert forall i :: i in order[1..] ==> i in order;
      if TryCase(s, Ref(k, order[0])).calls[k].phase.Active? {
        AttemptIsOne(s, k, order[1..]);
      } else {
        assert FiredBy(Attempt(s, k, order).calls[k], order[0]);
      }
    }
  }

  lemma {:induction false} InvokeIsOne<T>(s: State<T>, task: Option<nat>, select: bool, cases: seq<Case<T>>,
      order: seq<nat>, blocking: bool)
    requires Inv(s) && MayInvoke(s, task, select, cases, order, blocking)
    ensures Trying(Begin(s, task, select, cases), |s.calls|) && ClosedIsEmpty(Begin(s, task, select, cases))
    ensures var t, s' := Begin(s, task, select, cases), Invoke(s, task, select, cases, order, blocking);
      && |s'.calls| == |s.calls| + 1
      && var o := Told(s'.calls[|s.calls|]);
         if o.Fired? then o.idx < |cases| && s' == TryCase(t, Ref(|s.calls|, o.idx))
         else s' == Return(t, |s.calls|) || s' == Park(t, |s.calls|)
  {
    hide Linked, InRange, Complete, Recorded, TryCase, Ready;
    var k, t := |s.calls|, Begin(s, task, select, cases);
    InvokeKeeps(s, task, select, cases, order, blocking);
    forall c | 0 <= c < |t.chans| && t.chans[c].closed ensures t.chans[c].senders == [] {
      assert ChanOk(s.chans[c]);
    }
    AttemptIsOne(t, k, order);
  }

  /** The state a call leaves behind, and whom it woke. */
  lemma {:induction false} InvokeLaw<T>(s: State<T>, task: Option<nat>, select: bool, cases: seq<Case<T>>,
      order: seq<nat>, blocking: bool)
    requires Inv(s) && MayInvoke(s, task, select, cases, order, blocking)
    ensures Trying(Begin(s, task, select, cases), |s.calls|)
    ensures var s' := Invoke(s, task, select, cases, order, blocking);
      && |s'.calls| == |s.calls| + 1
      && var o := Told(s'.calls[|s.calls|]);
         && (o.Fired? ==> o.idx < |cases|)
         && OnlyAt(s, s', if o.Fired? then cases[o.idx].chan else None)
         && forall k: nat :: WokenNow(s.calls, s'.calls, k) <==> o.Fired? && k in Serves(s, cases[o.idx])
  {
    hide Inv, Trying, TryCase, Invoke, Serves, WokenNow;
    var k, t := |s.calls|, Begin(s, task, select, cases);
    InvokeIsOne(s, task, select, cases, order, blocking);
    var s' := Invoke(s, task, select, cases, order, blocking);
    var o := Told(s'.calls[k]);
    if o.Fired? {
      var me := Ref(k, o.idx);
      Began(s, task, select, cases, o.idx);
      CaseTouches(t, me);
      CaseServes(t, me);
      WokenBegun(s.calls, t.calls, s'.calls);
    } else {
      LastOnly(s.calls, s'.calls);
    }
  }

  lemma {:induction false} Began<T>(s: State<T>, task: Option<nat>, select: bool, cases: seq<Case<T>>, i: nat)
    requires Trying(Begin(s, task, select, cases), |s.calls|) && i < |cases|
    ensures var t := Begin(s, task, select, cases);
      && Linked(t) && InRange(t) && ValidRef(t, Ref(|s.calls|, i)) && t.calls[|s.calls|].phase.Active?
      && CaseAt(t, Ref(|s.calls|, i)) == cases[i] && Serves(t, cases[i]) == Serves(s, cases[i])
      && |t.calls| == |s.calls| + 1 && t.calls[..|s.calls|] == s.calls && t.chans == s.chans
  {
  }

  lemma {:induction false} WokenBegun<T>(calls: seq<Call<T>>, begun: seq<Call<T>>, calls': seq<Call<T>>)
    requires |begun| == |calls'| == |calls| + 1 && begun[..|calls|] == calls && begun[|calls|].phase.Active?
    ensures forall k: nat :: WokenNow(calls, calls', k) == WokenNow(begun, calls', k)
  {
    assert forall k :: 0 <= k < |calls| ==> begun[..|calls|][k] == begun[k];
  }

  lemma {:induction false} LastOnly<T>(calls: seq<Call<T>>, calls': seq<Call<T>>)
    requires |calls'| == |calls| + 1 && forall k :: 0 <= k < |calls| ==> calls'[k] == calls[k]
    ensures forall k: nat :: !WokenNow(calls, calls', k)
  {
  }

  // ---------------------------------------------------------------------------------------------
  // In terms of the code
  // ---------------------------------------------------------------------------------------------

  /** Whom a case serves: a send on an open channel the receiver that has waited longest, a receive the sender. */
  ghost function ServedBy<T>(s: State<T>, cs: Case<T>): (ks: seq<nat>)
    ensures |ks| <= 1
  {
    match cs.chan
    case None => []
    case Some(c) => if cs.op.Send? then ServedBySend(s, c) else LongestWaiting(s, c, Op.Send)
  }

  lemma {:induction false} ServesAbs<T>(s: State<T>, cs: Case<T>)
    ensures Serves(Abs(s), cs) == ServedBy(s, cs)
  {
    match cs.chan
    case None =>
    case Some(c) => if c < |s.chans| { SameChannel(s, c); }
  }

  lemma {:induction false} OnlyAtAbs<T>(s: State<T>, s': State<T>, c: Option<nat>)
    requires OnlyAt(Abs(s), Abs(s'), c)
    ensures OnlyAt(s, s', c)
  {
    forall d | 0 <= d < |s.chans|
      ensures d < |s'.chans|
      ensures Abs(s).chans[d] == AbsChan(s.chans[d], s.calls) && Abs(s').chans[d] == AbsChan(s'.chans[d], s'.calls)
    {
      SameChannel(s, d);
    }
  }

  /** A send, receive or select touches, of all channels, that of the case that fires; and it wakes the one call that
      case serves, or none. */
  lemma {:induction false} OperateLaw<T>(s: State<T>, task: Option<nat>, select: bool, cases: seq<Case<T>>,
      order: seq<nat>, blocking: bool)
    requires CodeInv(s) && MayInvoke(Abs(s), task, select, cases, order, blocking)
    ensures var s' := Do(s, Operate(task, select, cases, order, blocking));
      && |s'.calls| == |s.calls| + 1
      && var o := Told(s'.calls[|s.calls|]);
         && (o.Fired? ==> o.idx < |cases|)
         && OnlyAt(s, s', if o.Fired? then cases[o.idx].chan else None)
         && forall k: nat :: WokenNow(s.calls, s'.calls, k) <==> o.Fired? && k in ServedBy(s, cases[o.idx])
  {
    hide CodeInv, Inv, MayInvoke, Do, Invoke, OnlyAt, Serves, ServedBy, WokenNow;
    var st := Operate(task, select, cases, order, blocking);
    var s' := Do(s, st);
    AbsOf(s, st);
    InvokeLaw(Abs(s), task, select, cases, order, blocking);
    var o := Told(s'.calls[|s.calls|]);
    OnlyAtAbs(s, s', if o.Fired? then cases[o.idx].chan else None);
    if o.Fired? { ServesAbs(s, cases[o.idx]); }
  }

  lemma {:induction false} AbsOf<T>(s: State<T>, st: Step<T>)
    requires CodeInv(s) && May(Abs(s), st)
    ensures Inv(Abs(s)) && Abs(Do(s, st)) == SpecDo(Abs(s), st)
    ensures Abs(s).calls == s.calls && Abs(Do(s, st)).calls == Do(s, st).calls
  {
    hide CodeOk, Inv, Drained, May, SpecDo;
  }

  // ---------------------------------------------------------------------------------------------
  // Opening, closing, destroying
  // ---------------------------------------------------------------------------------------------

  lemma {:induction false} DrainAt<T>(s: State<T>, refs: seq<Ref>)
    requires forall r :: r in refs ==> r.call < |s.calls|
    ensures OnlyAt(s, DrainClosed(s, refs), None)
    decreases |refs|
  {
    if refs == [] {
    } else {
      assert refs[0] in refs && forall r :: r in refs[1..] ==> r in refs;
      DecideAt(s, refs[0], Closed, None);
      DrainAt(if s.calls[refs[0].call].phase.Parked? then Decide(s, refs[0], Closed, None) else s, refs[1..]);
    }
  }

  lemma {:induction false} CloseAt<T>(s: State<T>, c: nat)
    requires Linked(s) && c < |s.chans|
    ensures OnlyAt(s.(chans := s.chans[c := s.chans[c].(closed := true)]), Close(s, c), None)
  {
    var ch := s.chans[c];
    var s1 := s.(chans := s.chans[c := ch.(closed := true)]);
    if ch.closed {
      assert s1 == s;
    } else {
      assert forall r :: r in ch.senders + ch.receivers ==> r in Waiters(ch, Op.Send) || r in Waiters(ch, Recv);
      DrainAt(s1, ch.senders + ch.receivers);
    }
  }

  lemma {:induction false} CloseBelowAt<T>(s: State<T>, n: nat, d: nat)
    requires Linked(s) && n <= |s.chans| && d < |s.chans|
    ensures Still(if d < n then s.chans[d].(closed := true) else s.chans[d], CloseBelow(s, n).chans[d])
    decreases n
  {
    if n == 0 {
    } else {
      CloseAt(s, n - 1);
      CloseBelowAt(Close(s, n - 1), n - 1, d);
    }
  }

  /** What a step does to a channel's flags; only calls move values. */
  ghost predicate FlagsFollow<T>(a: Chan<T>, b: Chan<T>, st: Step<T>, c: nat) {
    && b.capacity == a.capacity
    && (b.closed <==> a.closed || st == CloseOne(c) || st.ShutDown?)
    && (b.destroyed <==> a.destroyed || (st == DestroyOne(c) && a.closed))
    && (!st.Operate? ==> b.buffer == a.buffer && b.accepted == a.accepted && b.delivered == a.delivered)
  }

  lemma {:induction false} SpecFlags<T>(s: State<T>, st: Step<T>, c: nat)
    requires Inv(s) && May(s, st) && c < |s.chans|
    ensures c < |SpecDo(s, st).chans| && FlagsFollow(s.chans[c], SpecDo(s, st).chans[c], st, c)
  {
    match st
    case Open(_) =>
    case Operate(task, select, cases, order, blocking) =>
      InvokeLaw(s, task, select, cases, order, blocking);
    case CloseOne(d) => CloseAt(s, d);
    case DestroyOne(d) => assert ChanOk(s.chans[d]);
    case ShutDown =>
      ShutLinked(s);
      CloseBelowAt(s.(shutdown := true), |s.chans|, c);
    case Resume(k) =>
  }

  lemma {:induction false} ShutLinked<T>(s: State<T>)
    requires Linked(s)
    ensures Linked(s.(shutdown := true))
  {
    assert forall x, d: nat, op :: Names(s.(shutdown := true), x, d, op) == Names(s, x, d, op);
  }

  /** A channel keeps its capacity; it is closed exactly by its close or by shutdown, destroyed exactly by its destroy
      once closed; and what it holds is changed by calls only. */
  lemma {:induction false} ChannelLaw<T>(s: State<T>, st: Step<T>, c: nat)
    requires CodeInv(s) && May(Abs(s), st) && c < |s.chans|
    ensures c < |Do(s, st).chans| && FlagsFollow(s.chans[c], Do(s, st).chans[c], st, c)
  {
    hide CodeInv, Inv, May, Do, SpecDo;
    AbsOf(s, st);
    SpecFlags(Abs(s), st, c);
    SameChannel(s, c);
    SameChannel(Do(s, st), c);
  }

  /** Opening adds one channel, open, empty and with nobody waiting, and touches nothing else. */
  lemma {:induction false} OpenLaw<T>(s: State<T>, n: nat)
    requires CodeInv(s)
    ensures var s' := Do(s, Open(n));
      && |s'.chans| == |s.chans| + 1 && s'.chans[..|s.chans|] == s.chans && s'.calls == s.calls
      && s'.shutdown == s.shutdown
      && var ch := s'.chans[|s.chans|];
         && ch.capacity == n && !ch.closed && !ch.destroyed && ch.buffer == []
         && ch.accepted == [] && ch.delivered == [] && ch.senders == [] && ch.receivers == []
  {
    hide CodeInv;
  }
}
