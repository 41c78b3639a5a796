/** The code refines the specification: forgetting dead waiters turns every step of ChannelCode into
    the step of ChannelSpec of the same name. */
module ChannelRefine {
  import opened Basics
  import opened ChannelTypes
  import opened ChannelSpec
  import opened ChannelInv
  import opened ChannelCode

  // ---------------------------------------------------------------------------------------------
  // Forgetting dead waiters
  // ---------------------------------------------------------------------------------------------

  function Live<T>(q: seq<Ref>, calls: seq<Call<T>>): seq<Ref> {
    if q == [] then [] else
    if IsLive(q[0], calls) then [q[0]] + Live(q[1..], calls) else Live(q[1..], calls)
  }

  lemma {:induction false} LiveMembers<T>(q: seq<Ref>, calls: seq<Call<T>>)
    ensures forall r :: r in Live(q, calls) <==> r in q && IsLive(r, calls)
  {
    if q == [] {
    } else {
      assert forall r :: r in q <==> r == q[0] || r in q[1..];
      LiveMembers(q[1..], calls);
    }
  }

  function AbsChan<T>(ch: Chan<T>, calls: seq<Call<T>>): Chan<T> {
    ch.(senders := Live(ch.senders, calls), receivers := Live(ch.receivers, calls))
  }

  function Abs<T>(s: State<T>): State<T> {
    s.(chans := seq(|s.chans|, i requires 0 <= i < |s.chans| => AbsChan(s.chans[i], s.calls)))
  }

  lemma {:induction false} LiveDrop<T>(q: seq<Ref>, calls: seq<Call<T>>)
    ensures var d := DropDead(q, calls);
      && Live(q, calls) == Live(d, calls)
      && (d == [] <==> Live(q, calls) == [])
      && (d != [] ==> Live(q, calls) == [d[0]] + Live(d[1..], calls))
  {
    if q == [] {
    } else if !IsLive(q[0], calls) {
      LiveDrop(q[1..], calls);
    }
  }

  lemma {:induction false} WithoutCons(r: Ref, q: seq<Ref>, k: nat)
    ensures Without([r] + q, k) == if r.call == k then Without(q, k) else [r] + Without(q, k)
  {
    assert ([r] + q)[1..] == q;
  }

  /** Deciding call `k` takes exactly its waiters out of a queue. */
  lemma {:induction false} LiveDecided<T>(q: seq<Ref>, calls: seq<Call<T>>, k: nat, call: Call<T>)
    requires k < |calls| && !call.phase.Parked?
    ensures Live(q, calls[k := call]) == Without(Live(q, calls), k)
    ensures !calls[k].phase.Parked? ==> Live(q, calls[k := call]) == Live(q, calls)
  {
    if q == [] {
    } else {
      LiveDecided(q[1..], calls, k, call);
      WithoutCons(q[0], Live(q[1..], calls), k);
    }
  }

  lemma {:induction false} AbsMark<T>(s: State<T>, r: Ref, status: Status, got: Option<T>)
    requires r.call < |s.calls|
    ensures Abs(Mark(s, r, status, got)) == Decide(Abs(s), r, status, got)
  {
    var t := Mark(s, r, status, got);
    forall i | 0 <= i < |s.chans| ensures Abs(t).chans[i] == Decide(Abs(s), r, status, got).chans[i] {
      LiveDecided(s.chans[i].senders, s.calls, r.call, t.calls[r.call]);
      LiveDecided(s.chans[i].receivers, s.calls, r.call, t.calls[r.call]);
    }
  }

  lemma {:induction false} AbsMarkSent<T>(s: State<T>, c: nat, r: Ref)
    requires c < |s.chans| && ValidRef(s, r)
    ensures Abs(MarkSent(s, c, r)) == Accept(Abs(s), c, r)
  {
    var x := Item(r, CaseAt(s, r).value);
    var ch := s.chans[c];
    var t := s.(chans := s.chans[c := ch.(accepted := ch.accepted + [x])]);
    AbsMark(t, r, Sent, None);
    assert Abs(t).chans == Abs(s).chans[c := Abs(s).chans[c].(accepted := ch.accepted + [x])];
  }

  lemma {:induction false} AbsMarkGot<T>(s: State<T>, c: nat, r: Ref, v: T)
    requires c < |s.chans| && r.call < |s.calls|
    ensures Abs(MarkGot(s, c, r, v)) == Deliver(Abs(s), c, r, v)
  {
    var ch := s.chans[c];
    var t := s.(chans := s.chans[c := ch.(delivered := ch.delivered + [Item(r, v)])]);
    AbsMark(t, r, Value, Some(v));
    assert Abs(t).chans == Abs(s).chans[c := Abs(s).chans[c].(delivered := ch.delivered + [Item(r, v)])];
  }

  lemma {:induction false} AbsSetBuffer<T>(s: State<T>, c: nat, buffer: seq<T>)
    requires c < |s.chans|
    ensures Abs(SetBuffer(s, c, buffer)) == SetBuffer(Abs(s), c, buffer)
  {
    assert Abs(SetBuffer(s, c, buffer)).chans == SetBuffer(Abs(s), c, buffer).chans;
  }

  lemma {:induction false} AbsSetQueue<T>(s: State<T>, c: nat, op: Op, q: seq<Ref>)
    requires c < |s.chans|
    ensures Abs(SetQueue(s, c, op, q)) == SetQueue(Abs(s), c, op, Live(q, s.calls))
  {
    assert Abs(SetQueue(s, c, op, q)).chans == SetQueue(Abs(s), c, op, Live(q, s.calls)).chans;
  }

  lemma {:induction false} DetachPopped<T>(s: State<T>, c: nat, op: Op, r: Ref, rest: seq<Ref>, status: Status,
      got: Option<T>)
    requires c < |s.chans| && r.call < |s.calls| && s.calls[r.call].phase.Parked?
    requires Waiters(s.chans[c], op) == [r] + rest
    ensures Decide(SetQueue(s, c, op, rest), r, status, got) == Decide(s, r, status, got)
  {
    assert ([r] + rest)[1..] == rest;
    assert Decide(SetQueue(s, c, op, rest), r, status, got).chans == Decide(s, r, status, got).chans;
  }

  /** Linked waiters belong to calls that still wait, or to selects that were woken and have not yet
      cleaned up; a closed channel has no waiter of any kind. */
  ghost predicate CodeOk<T>(s: State<T>) {
    && CodeLinks(s)
    && (forall c, op :: 0 <= c < |s.chans| && s.chans[c].closed ==> Waiters(s.chans[c], op) == [])
  }

  ghost predicate CodeLinks<T>(s: State<T>) {
    && (forall c, op, r :: 0 <= c < |s.chans| && r in Waiters(s.chans[c], op) ==>
          && Names(s, r, c, op)
          && (s.calls[r.call].phase.Parked? || (s.calls[r.call].phase.Woken? && s.calls[r.call].select)))
    && (forall c, op :: 0 <= c < |s.chans| ==> Distinct(Waiters(s.chans[c], op)))
    && (forall k :: 0 <= k < |s.calls| && !s.calls[k].select ==> |s.calls[k].cases| == 1)
  }

  ghost predicate Distinct(q: seq<Ref>) {
    forall r :: multiset(q)[r] <= 1
  }

  lemma {:induction false} AbsLinked<T>(s: State<T>)
    requires CodeLinks(s)
    ensures Linked(Abs(s)) && RefsValid(s)
    ensures forall x :: ValidRef(Abs(s), x) == ValidRef(s, x) && (ValidRef(s, x) ==> CaseAt(Abs(s), x) == CaseAt(s, x))
    ensures forall x, c: nat, op :: Names(Abs(s), x, c, op) == Names(s, x, c, op)
  {
    var a := Abs(s);
    ShapeKeepsCases(s, a);
    forall c, op, r | 0 <= c < |a.chans| && r in Waiters(a.chans[c], op)
      ensures Names(a, r, c, op) && a.calls[r.call].phase.Parked?
    {
      assert Waiters(a.chans[c], op) == Live(Waiters(s.chans[c], op), s.calls);
      LiveMembers(Waiters(s.chans[c], op), s.calls);
      assert r in Waiters(s.chans[c], op);
    }
  }

  lemma {:induction false} SimTrySend<T>(s: State<T>, c: nat, me: Ref)
    requires CodeOk(s) && c < |s.chans| && Names(s, me, c, Send) && s.calls[me.call].phase.Active?
    ensures RefsValid(s) && Linked(Abs(s)) && Names(Abs(s), me, c, Send)
    ensures Abs(TrySendLocked(s, c, me)) == TrySend(Abs(s), c, me)
  {
    AbsLinked(s);
    var ch := s.chans[c];
    var v := CaseAt(s, me).value;
    var q := DropDead(ch.receivers, s.calls);
    LiveDrop(ch.receivers, s.calls);
    if ch.closed || s.shutdown {
      AbsMark(s, me, Closed, None);
    } else if q != [] {
      var s1 := SetQueue(s, c, Recv, q[1..]);
      var s2 := MarkSent(s1, c, me);
      AbsSetQueue(s, c, Recv, q[1..]);
      AbsMarkSent(s1, c, me);
      AbsMarkGot(s2, c, q[0], v);
      PoppedHandoff(Abs(s), c, me, q[0], Live(q[1..], s.calls));
    } else {
      var s1 := SetQueue(s, c, Recv, []);
      AbsSetQueue(s, c, Recv, []);
      SetQueueSame(Abs(s), c, Recv);
      if ch.capacity > 0 && |ch.buffer| < ch.capacity {
        AbsSetBuffer(s1, c, ch.buffer + [v]);
        AbsMarkSent(SetBuffer(s1, c, ch.buffer + [v]), c, me);
      }
    }
  }

  /** The value passes from a running sender to the first waiting receiver. */
  lemma {:induction false} PoppedHandoff<T>(s: State<T>, c: nat, me: Ref, to: Ref, rest: seq<Ref>)
    requires c < |s.chans| && ValidRef(s, me) && s.calls[me.call].phase.Active?
    requires to.call < |s.calls| && s.calls[to.call].phase.Parked? && s.chans[c].receivers == [to] + rest
    ensures Deliver(Accept(SetQueue(s, c, Recv, rest), c, me), c, to, CaseAt(s, me).value) == Handoff(s, c, me, to)
  {
    var a := Accept(s, c, me);
    var v := CaseAt(s, me).value;
    assert Accept(SetQueue(s, c, Recv, rest), c, me).chans == SetQueue(a, c, Recv, rest).chans;
    var b := a.(chans := a.chans[c := a.chans[c].(delivered := a.chans[c].delivered + [Item(to, v)])]);
    DetachPopped(b, c, Recv, to, rest, Value, Some(v));
    var a' := SetQueue(a, c, Recv, rest);
    assert a'.chans[c := a'.chans[c].(delivered := a'.chans[c].delivered + [Item(to, v)])] ==
           SetQueue(b, c, Recv, rest).chans;
  }

  /** A waiting sender that is popped is accepted. */
  lemma {:induction false} PoppedAccept<T>(s: State<T>, c: nat, from: Ref, rest: seq<Ref>)
    requires c < |s.chans| && ValidRef(s, from) && s.calls[from.call].phase.Parked?
    requires s.chans[c].senders == [from] + rest
    ensures Accept(SetQueue(s, c, Send, rest), c, from) == Accept(s, c, from)
  {
    var x := Item(from, CaseAt(s, from).value);
    var b := s.(chans := s.chans[c := s.chans[c].(accepted := s.chans[c].accepted + [x])]);
    DetachPopped(b, c, Send, from, rest, Sent, None);
    var s' := SetQueue(s, c, Send, rest);
    assert s'.chans[c := s'.chans[c].(accepted := s'.chans[c].accepted + [x])] == SetQueue(b, c, Send, rest).chans;
  }

  lemma {:induction false} SimDirect<T>(s: State<T>, c: nat, me: Ref)
    requires CodeOk(s) && c < |s.chans| && Names(s, me, c, Recv) && s.calls[me.call].phase.Active?
    requires s.chans[c].buffer == []
    ensures RefsValid(s) && Linked(Abs(s)) && Names(Abs(s), me, c, Recv)
    ensures Abs(DirectLocked(s, c, me)) == TryRecv(Abs(s), c, me)
  {
    AbsLinked(s);
    var ch := s.chans[c];
    var q := DropDead(ch.senders, s.calls);
    LiveDrop(ch.senders, s.calls);
    if q != [] {
      assert q[0] in Waiters(ch, Send);
      var s1 := SetQueue(s, c, Send, q[1..]);
      var s2 := MarkSent(s1, c, q[0]);
      AbsSetQueue(s, c, Send, q[1..]);
      AbsMarkSent(s1, c, q[0]);
      AbsMarkGot(s2, c, me, CaseAt(s, q[0]).value);
      PoppedAccept(Abs(s), c, q[0], Live(q[1..], s.calls));
    } else {
      AbsSetQueue(s, c, Send, []);
      SetQueueSame(Abs(s), c, Send);
      AbsMark(SetQueue(s, c, Send, []), me, Closed, None);
    }
  }

  lemma {:induction false} SimBufferOne<T>(s: State<T>, c: nat)
    requires RefsValid(s) && c < |s.chans| && |s.chans[c].buffer| < s.chans[c].capacity
    ensures var senders := Live(s.chans[c].senders, s.calls);
      && (senders != [] ==> ValidRef(Abs(s), senders[0]))
      && Abs(BufferOneSender(s, c)) == if senders == [] then Abs(s) else Store(Abs(s), c, senders[0])
  {
    hide DropDead, Accept;
    var ch := s.chans[c];
    var q := DropDead(ch.senders, s.calls);
    LiveDrop(ch.senders, s.calls);
    if q != [] {
      assert q[0] in Waiters(ch, Send);
      var v := CaseAt(s, q[0]).value;
      var s1 := SetQueue(s, c, Send, q[1..]);
      var s2 := SetBuffer(s1, c, ch.buffer + [v]);
      AbsSetQueue(s, c, Send, q[1..]);
      AbsSetBuffer(s1, c, ch.buffer + [v]);
      AbsMarkSent(s2, c, q[0]);
      var t := SetBuffer(Abs(s), c, ch.buffer + [v]);
      PoppedAccept(t, c, q[0], Live(q[1..], s.calls));
      assert SetQueue(t, c, Send, Live(q[1..], s.calls)).chans == Abs(s2).chans;
    } else {
      AbsSetQueue(s, c, Send, []);
      SetQueueSame(Abs(s), c, Send);
    }
  }

  lemma {:induction false} SimTake<T>(s: State<T>, c: nat, me: Ref)
    requires CodeOk(s) && c < |s.chans| && Names(s, me, c, Recv) && s.calls[me.call].phase.Active?
    requires 0 < |s.chans[c].buffer| <= s.chans[c].capacity
    ensures RefsValid(s) && Linked(Abs(s)) && Names(Abs(s), me, c, Recv)
    ensures Abs(TakeLocked(s, c, me)) == TryRecv(Abs(s), c, me)
  {
    AbsLinked(s);
    var ch := s.chans[c];
    var t := SetBuffer(s, c, ch.buffer[1..]);
    var s1 := MarkGot(t, c, me, ch.buffer[0]);
    AbsSetBuffer(s, c, ch.buffer[1..]);
    AbsMarkGot(t, c, me, ch.buffer[0]);
    LiveDecided(ch.senders, s.calls, me.call, s1.calls[me.call]);
    if !ch.closed {
      assert forall d, op :: 0 <= d < |s.chans| ==> Waiters(s1.chans[d], op) == Waiters(s.chans[d], op);
      assert forall r :: ValidRef(s, r) ==> ValidRef(s1, r);
      SimBufferOne(s1, c);
    }
  }

  lemma {:induction false} SimTryCase<T>(s: State<T>, me: Ref)
    requires CodeOk(s) && InRange(s) && ValidRef(s, me) && s.calls[me.call].phase.Active?
    requires forall c :: 0 <= c < |s.chans| ==> |s.chans[c].buffer| <= s.chans[c].capacity
    ensures RefsValid(s) && Linked(Abs(s)) && ValidRef(Abs(s), me) && CaseAt(Abs(s), me) == CaseAt(s, me)
    ensures Abs(TryCaseLocked(s, me)) == TryCase(Abs(s), me)
  {
    AbsLinked(s);
    match CaseAt(s, me).chan
    case None =>
    case Some(c) =>
      if CaseAt(s, me).op.Send? { SimTrySend(s, c, me); }
      else if s.chans[c].buffer != [] { SimTake(s, c, me); }
      else { SimDirect(s, c, me); }
  }

  // ---------------------------------------------------------------------------------------------
  // The code keeps its own house in order
  // ---------------------------------------------------------------------------------------------

  /** Queues lose waiters at the front; a regular call that is woken has no waiter left. */
  ghost predicate Pops<T>(s: State<T>, s': State<T>) {
    && SameShape(s, s')
    && (forall c :: 0 <= c < |s.chans| ==> s'.chans[c].closed == s.chans[c].closed)
    && (forall c, op :: 0 <= c < |s.chans| ==> multiset(Waiters(s'.chans[c], op)) <= multiset(Waiters(s.chans[c], op)))
    && (forall k :: 0 <= k < |s.calls| ==> s'.calls[k] == s.calls[k] || Decides(s.calls[k].phase, s'.calls[k].phase))
    && (forall c, op, r ::
          0 <= c < |s.chans| && r in Waiters(s'.chans[c], op) && r.call < |s.calls| && !s.calls[r.call].select ==>
          s'.calls[r.call] == s.calls[r.call])
  }

  ghost predicate Decides<T>(p: Phase<T>, p': Phase<T>) {
    (p.Active? && p'.Returned?) || (p.Parked? && p'.Woken?)
  }

  lemma {:induction false} PopsKeeps<T>(s: State<T>, s': State<T>)
    requires CodeLinks(s) && Pops(s, s')
    ensures CodeLinks(s') && FewerWaiters(s, s')
    ensures CodeOk(s) ==> CodeOk(s')
  {
    ShapeKeepsCases(s, s');
    forall c, op | 0 <= c < |s.chans|
      ensures Distinct(Waiters(s'.chans[c], op))
      ensures forall r :: r in Waiters(s'.chans[c], op) ==> r in Waiters(s.chans[c], op)
    {
      FewerDistinct(Waiters(s.chans[c], op), Waiters(s'.chans[c], op));
    }
  }

  lemma {:induction false} FewerDistinct(q: seq<Ref>, q': seq<Ref>)
    requires multiset(q') <= multiset(q)
    ensures Distinct(q) ==> Distinct(q')
    ensures forall r :: r in q' ==> r in q
  {
    forall r | r in q' ensures r in q { assert r in multiset(q'); assert r in multiset(q); }
    if Distinct(q) {
      forall r ensures multiset(q')[r] <= 1 { assert multiset(q')[r] <= multiset(q)[r]; }
    }
  }

  lemma {:induction false} PopFront(q: seq<Ref>)
    requires q != []
    ensures multiset(q[1..]) <= multiset(q)
    ensures Distinct(q) ==> q[0] !in q[1..]
  {
    assert q == [q[0]] + q[1..];
    assert multiset(q)[q[0]] == 1 + multiset(q[1..])[q[0]];
    assert q[0] in q[1..] ==> q[0] in multiset(q[1..]);
  }

  lemma {:induction false} DropDeadFewer<T>(q: seq<Ref>, calls: seq<Call<T>>)
    ensures multiset(DropDead(q, calls)) <= multiset(q)
    ensures DropDead(q, calls) != [] ==> multiset(DropDead(q, calls)[1..]) <= multiset(q)
  {
    if q == [] {
    } else {
      PopFront(q);
      if !IsLive(q[0], calls) { DropDeadFewer(q[1..], calls); }
    }
  }

  /** A regular waiter is linked in one queue only. */
  lemma {:induction false} RegularOnce<T>(s: State<T>, c: nat, op: Op, r: Ref)
    requires CodeLinks(s) && c < |s.chans| && r in Waiters(s.chans[c], op) && !s.calls[r.call].select
    ensures forall d, o, x :: 0 <= d < |s.chans| && x in Waiters(s.chans[d], o) && x.call == r.call ==>
      d == c && o == op && x == r
  {
    assert Names(s, r, c, op);
    forall d, o, x | 0 <= d < |s.chans| && x in Waiters(s.chans[d], o) && x.call == r.call
      ensures d == c && o == op && x == r
    {
      assert Names(s, x, d, o);
    }
  }

  /** Popping the first live waiter of a queue and deciding it, and perhaps the running call. */
  lemma {:induction false} PopAndDecide<T>(s: State<T>, s': State<T>, c: nat, op: Op, q: seq<Ref>, me: nat)
    requires CodeLinks(s) && SameShape(s, s') && c < |s.chans| && (me < |s.calls| ==> s.calls[me].phase.Active?)
    requires multiset(q) <= multiset(Waiters(s.chans[c], op)) && (q != [] ==> IsLive(q[0], s.calls))
    requires forall d :: 0 <= d < |s.chans| ==> s'.chans[d].closed == s.chans[d].closed
    requires forall d, o :: 0 <= d < |s.chans| ==>
      Waiters(s'.chans[d], o) == if d == c && o == op && q != [] then q[1..] else if d == c && o == op then []
      else Waiters(s.chans[d], o)
    requires me < |s.calls| ==> s'.calls[me] == s.calls[me] || s'.calls[me].phase.Returned?
    requires q != [] ==> s'.calls[q[0].call].phase.Woken?
    requires forall k :: 0 <= k < |s.calls| && k != me && (q != [] ==> k != q[0].call) ==> s'.calls[k] == s.calls[k]
    ensures Pops(s, s')
  {
    FewerDistinct(Waiters(s.chans[c], op), q);
    if q != [] {
      PopFront(q);
      assert q[0] in q;
      if !s.calls[q[0].call].select { RegularOnce(s, c, op, q[0]); }
    }
    forall d, o, r | 0 <= d < |s.chans| && r in Waiters(s'.chans[d], o) && r.call < |s.calls| && !s.calls[r.call].select
      ensures s'.calls[r.call] == s.calls[r.call]
    {
      assert d == c && o == op && q != [] ==> r in q;
      assert r in Waiters(s.chans[d], o);
    }
  }

  lemma {:induction false} MarkPops<T>(s: State<T>, me: Ref, status: Status, got: Option<T>)
    requires CodeOk(s) && me.call < |s.calls| && s.calls[me.call].phase.Active?
    ensures Pops(s, Mark(s, me, status, got))
  {
    var t := Mark(s, me, status, got);
    forall c, op, r | 0 <= c < |s.chans| && r in Waiters(t.chans[c], op) ensures r.call != me.call {
      assert r in Waiters(s.chans[c], op);
    }
  }

  lemma {:induction false} TrySendPops<T>(s: State<T>, c: nat, me: Ref)
    requires CodeOk(s) && c < |s.chans| && Names(s, me, c, Send) && s.calls[me.call].phase.Active?
    ensures RefsValid(s) && Pops(s, TrySendLocked(s, c, me))
  {
    AbsLinked(s);
    if s.chans[c].closed || s.shutdown { MarkPops(s, me, Closed, None); } else { OpenSendPops(s, c, me); }
  }

  lemma {:induction false} OpenSendPops<T>(s: State<T>, c: nat, me: Ref)
    requires CodeOk(s) && RefsValid(s) && c < |s.chans| && Names(s, me, c, Send) && s.calls[me.call].phase.Active?
    requires !s.chans[c].closed && !s.shutdown
    ensures Pops(s, TrySendLocked(s, c, me))
  {
    hide Pops;
    var ch := s.chans[c];
    var q := DropDead(ch.receivers, s.calls);
    DropDeadFewer(ch.receivers, s.calls);
    PopAndDecide(s, TrySendLocked(s, c, me), c, Recv, q, me.call);
  }

  lemma {:induction false} DirectPops<T>(s: State<T>, c: nat, me: Ref)
    requires CodeOk(s) && RefsValid(s) && c < |s.chans| && Names(s, me, c, Recv) && s.calls[me.call].phase.Active?
    ensures Pops(s, DirectLocked(s, c, me))
  {
    var ch := s.chans[c];
    var q := DropDead(ch.senders, s.calls);
    DropDeadFewer(ch.senders, s.calls);
    PopAndDecide(s, DirectLocked(s, c, me), c, Send, q, me.call);
  }

  lemma {:induction false} BufferOnePops<T>(s: State<T>, c: nat)
    requires CodeOk(s) && RefsValid(s) && c < |s.chans|
    ensures Pops(s, BufferOneSender(s, c))
  {
    var ch := s.chans[c];
    var q := DropDead(ch.senders, s.calls);
    DropDeadFewer(ch.senders, s.calls);
    if ch.capacity > 0 && |ch.buffer| < ch.capacity {
      PopAndDecide(s, BufferOneSender(s, c), c, Send, q, |s.calls|);
    }
  }

  lemma {:induction false} TakeCodeOk<T>(s: State<T>, c: nat, me: Ref)
    requires CodeOk(s) && RefsValid(s) && c < |s.chans| && Names(s, me, c, Recv) && s.calls[me.call].phase.Active?
    requires s.chans[c].buffer != []
    ensures CodeOk(TakeLocked(s, c, me))
  {
    var ch := s.chans[c];
    var s1 := MarkGot(SetBuffer(s, c, ch.buffer[1..]), c, me, ch.buffer[0]);
    MarkPops(s, me, Value, Some(ch.buffer[0]));
    assert forall d, op :: 0 <= d < |s.chans| ==> Waiters(s1.chans[d], op) == Waiters(s.chans[d], op);
    assert Pops(s, s1);
    PopsKeeps(s, s1);
    AbsLinked(s1);
    if !ch.closed {
      BufferOnePops(s1, c);
      PopsKeeps(s1, BufferOneSender(s1, c));
    }
  }

  lemma {:induction false} TryCaseCodeOk<T>(s: State<T>, me: Ref)
    requires CodeOk(s) && RefsValid(s) && InRange(s) && ValidRef(s, me) && s.calls[me.call].phase.Active?
    ensures CodeOk(TryCaseLocked(s, me))
  {
    match CaseAt(s, me).chan
    case None =>
    case Some(c) =>
      if CaseAt(s, me).op.Send? {
        TrySendPops(s, c, me);
        PopsKeeps(s, TrySendLocked(s, c, me));
      } else if s.chans[c].buffer != [] {
        TakeCodeOk(s, c, me);
      } else {
        DirectPops(s, c, me);
        PopsKeeps(s, DirectLocked(s, c, me));
      }
  }

  ghost predicate BuffersFit<T>(s: State<T>) {
    forall c :: 0 <= c < |s.chans| ==> |s.chans[c].buffer| <= s.chans[c].capacity
  }

  /** Trying the cases in turn does what the specification does; attempts that do not fire only drop
      dead waiters. */
  lemma {:induction false} SimAttempt<T>(s: State<T>, k: nat, order: seq<nat>)
    requires CodeOk(s) && InRange(s) && BuffersFit(s) && k < |s.calls| && s.calls[k].phase.Active?
    requires forall i :: i in order ==> i < |s.calls[k].cases|
    ensures RefsValid(s) && Trying(Abs(s), k)
    ensures Abs(AttemptLocked(s, k, order)) == Attempt(Abs(s), k, order)
    ensures CodeOk(AttemptLocked(s, k, order))
    decreases |order|
  {
    AbsLinked(s);
    if order == [] {
    } else {
      var me := Ref(k, order[0]);
      assert order[0] in order;
      SimTryCase(s, me);
      TryCaseCodeOk(s, me);
      var s1 := TryCaseLocked(s, me);
      if s1.calls[k].phase.Active? {
        assert Abs(s1) == Abs(s);
        assert forall i :: i in order[1..] ==> i in order;
        ShapeKeepsCases(s, s1);
        SameAbsBuffers(s, s1);
        SimAttempt(s1, k, order[1..]);
      }
    }
  }

  lemma {:induction false} SameAbsBuffers<T>(s: State<T>, t: State<T>)
    requires Abs(s) == Abs(t)
    ensures BuffersFit(s) ==> BuffersFit(t)
    ensures |s.chans| == |t.chans| && forall c :: 0 <= c < |s.chans| ==> s.chans[c].closed == t.chans[c].closed
  {
    assert |Abs(s).chans| == |s.chans| && |Abs(t).chans| == |t.chans|;
    forall c | 0 <= c < |s.chans|
      ensures s.chans[c].closed == t.chans[c].closed && s.chans[c].buffer == t.chans[c].buffer
      ensures s.chans[c].capacity == t.chans[c].capacity
    {
      assert Abs(s).chans[c] == Abs(t).chans[c];
    }
  }

  // ---------------------------------------------------------------------------------------------
  // Parking
  // ---------------------------------------------------------------------------------------------

  lemma {:induction false} LiveAppend<T>(a: seq<Ref>, b: seq<Ref>, calls: seq<Call<T>>)
    ensures Live(a + b, calls) == Live(a, calls) + Live(b, calls)
  {
    if a == [] {
      assert a + b == b;
    } else {
      LiveAppend(a[1..], b, calls);
      assert (a + b)[1..] == a[1..] + b;
    }
  }

  lemma {:induction false} LiveAll<T>(q: seq<Ref>, calls: seq<Call<T>>)
    requires forall r :: r in q ==> IsLive(r, calls)
    ensures Live(q, calls) == q
  {
    if q == [] {
    } else {
      assert q[0] in q && forall r :: r in q[1..] ==> r in q;
      LiveAll(q[1..], calls);
    }
  }

  lemma {:induction false} LiveOther<T>(q: seq<Ref>, calls: seq<Call<T>>, k: nat, call: Call<T>)
    requires k < |calls| && forall r :: r in q ==> r.call != k
    ensures Live(q, calls[k := call]) == Live(q, calls)
  {
    if q == [] {
    } else {
      assert q[0] in q && forall r :: r in q[1..] ==> r in q;
      LiveOther(q[1..], calls, k, call);
    }
  }

  lemma {:induction false} RegsDistinct<T>(k: nat, cases: seq<Case<T>>, n: nat, c: nat, op: Op)
    requires n <= |cases|
    ensures Distinct(Regs(k, cases, n, c, op))
  {
    if n == 0 {
    } else {
      RegsDistinct(k, cases, n - 1, c, op);
      var q := Regs(k, cases, n - 1, c, op);
      assert Ref(k, n - 1) !in multiset(q);
    }
  }

  lemma {:induction false} SimPark<T>(s: State<T>, k: nat)
    requires CodeOk(s) && k < |s.calls| && s.calls[k].phase.Active?
    ensures Abs(Park(s, k)) == Park(Abs(s), k)
  {
    var cases := s.calls[k].cases;
    var t := Park(s, k);
    var a := Park(Abs(s), k);
    forall c | 0 <= c < |s.chans| ensures Abs(t).chans[c] == a.chans[c] {
      ParkedQueue(s, k, c, Send);
      ParkedQueue(s, k, c, Recv);
      assert a.chans[c] == ParkChan(AbsChan(s.chans[c], s.calls), k, cases, c);
      assert Abs(t).chans[c] == AbsChan(ParkChan(s.chans[c], k, cases, c), t.calls);
    }
    assert Abs(t).chans == a.chans;
  }

  lemma {:induction false} ParkedQueue<T>(s: State<T>, k: nat, c: nat, op: Op)
    requires CodeOk(s) && k < |s.calls| && s.calls[k].phase.Active? && c < |s.chans|
    ensures var regs := Regs(k, s.calls[k].cases, |s.calls[k].cases|, c, op);
      && Waiters(Park(s, k).chans[c], op) == Waiters(s.chans[c], op) + regs
      && Live(Waiters(s.chans[c], op) + regs, Park(s, k).calls) == Live(Waiters(s.chans[c], op), s.calls) + regs
      && (forall r :: r in Waiters(s.chans[c], op) ==> r.call != k)
  {
    hide Live;
    var q := Waiters(s.chans[c], op);
    var regs := Regs(k, s.calls[k].cases, |s.calls[k].cases|, c, op);
    var t := Park(s, k);
    LiveAppend(q, regs, t.calls);
    LiveAll(regs, t.calls);
    LiveOther(q, s.calls, k, t.calls[k]);
  }

  lemma {:induction false} ParkedQueueOk<T>(s: State<T>, k: nat, c: nat, op: Op)
    requires CodeOk(s) && k < |s.calls| && s.calls[k].phase.Active? && c < |s.chans|
    requires forall r :: Names(s, r, c, op) && r.call == k ==> !s.chans[c].closed
    ensures var q := Waiters(Park(s, k).chans[c], op);
      && Distinct(q) && (s.chans[c].closed ==> q == [])
      && forall r :: r in q ==> Names(s, r, c, op) && (r.call == k || r in Waiters(s.chans[c], op))
  {
    var cases := s.calls[k].cases;
    var q, regs := Waiters(s.chans[c], op), Regs(k, cases, |cases|, c, op);
    ParkedQueue(s, k, c, op);
    RegsDistinct(k, cases, |cases|, c, op);
    assert forall r :: r in regs ==> Names(s, r, c, op);
    DistinctConcat(q, regs);
    if s.chans[c].closed && regs != [] { HasMember(regs); }
  }

  lemma {:induction false} ParkCodeOk<T>(s: State<T>, k: nat)
    requires CodeOk(s) && k < |s.calls| && s.calls[k].phase.Active?
    requires forall r, c: nat, op :: Names(s, r, c, op) && r.call == k && c < |s.chans| ==> !s.chans[c].closed
    ensures CodeOk(Park(s, k))
  {
    var t := Park(s, k);
    ShapeKeepsCases(s, t);
    forall c, op | 0 <= c < |s.chans|
      ensures Distinct(Waiters(t.chans[c], op))
      ensures t.chans[c].closed ==> Waiters(t.chans[c], op) == []
      ensures forall r :: r in Waiters(t.chans[c], op) ==>
        Names(s, r, c, op) && (r.call == k || r in Waiters(s.chans[c], op))
    {
      ParkedQueueOk(s, k, c, op);
    }
  }

  lemma {:induction false} DistinctConcat(a: seq<Ref>, b: seq<Ref>)
    requires Distinct(a) && Distinct(b) && forall r :: r in b ==> r !in a
    ensures Distinct(a + b)
  {
    forall r ensures multiset(a + b)[r] <= 1 {
      assert multiset(a + b)[r] == multiset(a)[r] + multiset(b)[r];
      assert r in multiset(b) <==> r in b;
      assert r in multiset(a) <==> r in a;
    }
  }

  lemma {:induction false} LiveExtend<T>(q: seq<Ref>, calls: seq<Call<T>>, more: seq<Call<T>>)
    requires forall r :: r in q ==> r.call < |calls|
    ensures Live(q, calls + more) == Live(q, calls)
  {
    if q == [] {
    } else {
      assert q[0] in q && forall r :: r in q[1..] ==> r in q;
      LiveExtend(q[1..], calls, more);
    }
  }

  lemma {:induction false} SimBegin<T>(s: State<T>, task: Option<nat>, select: bool, cases: seq<Case<T>>)
    requires CodeOk(s) && (select || |cases| == 1)
    ensures Abs(Begin(s, task, select, cases)) == Begin(Abs(s), task, select, cases)
    ensures CodeOk(Begin(s, task, select, cases))
  {
    var t := Begin(s, task, select, cases);
    forall c | 0 <= c < |s.chans| ensures Abs(t).chans[c] == Abs(s).chans[c] {
      assert forall r :: r in s.chans[c].senders ==> r in Waiters(s.chans[c], Send);
      assert forall r :: r in s.chans[c].receivers ==> r in Waiters(s.chans[c], Recv);
      LiveExtend(s.chans[c].senders, s.calls, [t.calls[|s.calls|]]);
      LiveExtend(s.chans[c].receivers, s.calls, [t.calls[|s.calls|]]);
    }
    assert Abs(t).chans == Abs(s).chans;
    assert forall x, c: nat, op :: Names(s, x, c, op) ==> Names(t, x, c, op);
  }

  lemma {:induction false} SimReturn<T>(s: State<T>, k: nat)
    requires CodeOk(s) && k < |s.calls| && s.calls[k].phase.Active?
    ensures Abs(Return(s, k)) == Return(Abs(s), k) && CodeOk(Return(s, k))
  {
    var t := Return(s, k);
    forall c | 0 <= c < |s.chans| ensures Abs(t).chans[c] == Abs(s).chans[c] {
      LiveDecided(s.chans[c].senders, s.calls, k, t.calls[k]);
      LiveDecided(s.chans[c].receivers, s.calls, k, t.calls[k]);
    }
    assert Abs(t).chans == Abs(s).chans;
    MarkPops(s, Ref(k, 0), Closed, None);
    assert Pops(s, t);
    PopsKeeps(s, t);
  }

  lemma {:induction false} SimInvoke<T>(s: State<T>, task: Option<nat>, select: bool, cases: seq<Case<T>>,
      order: seq<nat>, blocking: bool)
    requires CodeOk(s) && Inv(Abs(s)) && MayInvoke(Abs(s), task, select, cases, order, blocking)
    ensures RefsValid(Begin(s, task, select, cases)) && InRange(Begin(s, task, select, cases))
    ensures Trying(Begin(Abs(s), task, select, cases), |s.calls|)
    ensures Abs(InvokeLocked(s, task, select, cases, order, blocking)) ==
      Invoke(Abs(s), task, select, cases, order, blocking)
    ensures CodeOk(InvokeLocked(s, task, select, cases, order, blocking))
  {
    var k := |s.calls|;
    var t := Begin(s, task, select, cases);
    SimBegin(s, task, select, cases);
    BeginBase(Abs(s), task, select, cases);
    ShapeKeepsCases(t, Abs(t));
    AbsBuffers(t);
    SimAttempt(t, k, order);
    var s1 := AttemptLocked(t, k, order);
    if !s1.calls[k].phase.Returned? {
      assert Abs(s1) == Abs(t);
      if !blocking || task.None? || NamesNoChannel(cases) {
        SimReturn(s1, k);
      } else {
        SimPark(s1, k);
        NoneClosed(t, s1, k, order);
        ParkCodeOk(s1, k);
      }
    }
  }

  lemma {:induction false} AbsBuffers<T>(s: State<T>)
    requires ChansOk(Abs(s))
    ensures BuffersFit(s)
  {
    forall c | 0 <= c < |s.chans| ensures |s.chans[c].buffer| <= s.chans[c].capacity {
      assert ChanOk(Abs(s).chans[c]);
    }
  }

  /** A call that parks found none of its channels closed. */
  lemma {:induction false} NoneClosed<T>(t: State<T>, s: State<T>, k: nat, order: seq<nat>)
    requires Abs(s) == Abs(t) && k < |t.calls| && |s.calls| == |t.calls| && s.calls[k] == t.calls[k]
    requires forall i :: i in order ==> i < |t.calls[k].cases| && !Ready(Abs(t), t.calls[k].cases[i])
    requires forall i :: 0 <= i < |t.calls[k].cases| ==> i in order
    ensures forall r, c: nat, op :: Names(s, r, c, op) && r.call == k && c < |s.chans| ==> !s.chans[c].closed
  {
    SameAbsBuffers(s, t);
    forall r, c: nat, op | Names(s, r, c, op) && r.call == k && c < |s.chans| ensures !s.chans[c].closed {
      assert r.idx in order;
      assert !Ready(Abs(t), t.calls[k].cases[r.idx]);
      assert Abs(t).chans[c].closed == t.chans[c].closed;
    }
  }

  // ---------------------------------------------------------------------------------------------
  // Close, shutdown and the rest
  // ---------------------------------------------------------------------------------------------

  /** Waiters that are dead already do not matter to a close. */
  lemma {:induction false} DrainSkips<T>(s: State<T>, q: seq<Ref>, calls: seq<Call<T>>)
    requires forall r :: r in q ==> r.call < |s.calls| && (IsLive(r, s.calls) ==> IsLive(r, calls))
    ensures forall r :: r in Live(q, calls) ==> r in q
    ensures DrainClosed(s, Live(q, calls)) == DrainClosed(s, q)
    decreases |q|
  {
    LiveMembers(q, calls);
    if q == [] {
    } else {
      assert q[0] in q && forall r :: r in q[1..] ==> r in q;
      if IsLive(q[0], calls) {
        var l := Live(q[1..], calls);
        assert Live(q, calls) == [q[0]] + l && ([q[0]] + l)[1..] == l;
        DrainSkips(if s.calls[q[0].call].phase.Parked? then Decide(s, q[0], Closed, None) else s, q[1..], calls);
      } else {
        DrainSkips(s, q[1..], calls);
      }
    }
  }

  lemma {:induction false} DrainAppend<T>(s: State<T>, a: seq<Ref>, b: seq<Ref>)
    requires forall r :: r in a + b ==> r.call < |s.calls|
    ensures forall r :: r in a ==> r.call < |s.calls|
    ensures forall r :: r in b ==> r.call < |s.calls|
    ensures DrainClosed(s, a + b) == DrainClosed(DrainClosed(s, a), b)
    decreases |a|
  {
    assert forall r :: r in a + b <==> r in a || r in b;
    if a == [] {
      assert a + b == b;
    } else {
      assert (a + b)[1..] == a[1..] + b && a[0] in a;
      assert forall r :: r in a[1..] + b ==> r in a + b;
      DrainAppend(if s.calls[a[0].call].phase.Parked? then Decide(s, a[0], Closed, None) else s, a[1..], b);
    }
  }

  lemma {:induction false} PopClosedPops<T>(s: State<T>, c: nat, op: Op)
    requires CodeLinks(s) && RefsValid(s) && c < |s.chans| && Waiters(s.chans[c], op) != []
    ensures Pops(s, PopClosed(s, c, op))
  {
    var q := Waiters(s.chans[c], op);
    PopFront(q);
    if IsLive(q[0], s.calls) {
      PopAndDecide(s, PopClosed(s, c, op), c, op, q, |s.calls|);
    }
  }

  lemma {:induction false} SimPopClosed<T>(s: State<T>, c: nat, op: Op)
    requires CodeLinks(s) && RefsValid(s) && c < |s.chans| && Waiters(s.chans[c], op) != []
    ensures var r := Waiters(s.chans[c], op)[0];
      r.call < |s.calls| && Abs(PopClosed(s, c, op)) == if IsLive(r, s.calls) then Decide(Abs(s), r, Closed, None)
      else Abs(s)
  {
    var q := Waiters(s.chans[c], op);
    assert q[0] in q;
    AbsSetQueue(s, c, op, q[1..]);
    assert Waiters(Abs(s).chans[c], op) == Live(q, s.calls);
    if IsLive(q[0], s.calls) {
      AbsMark(SetQueue(s, c, op, q[1..]), q[0], Closed, None);
      DetachPopped(Abs(s), c, op, q[0], Live(q[1..], s.calls), Closed, None);
    } else {
      SetQueueSame(Abs(s), c, op);
    }
  }

  lemma {:induction false} WakeAllEmpties<T>(s: State<T>, c: nat, op: Op)
    requires RefsValid(s) && c < |s.chans|
    ensures var s' := WakeAllAsClosed(s, c, op);
      && (forall d :: 0 <= d < |s.chans| ==> s'.chans[d].closed == s.chans[d].closed)
      && (forall d, o :: 0 <= d < |s.chans| ==>
            Waiters(s'.chans[d], o) == if d == c && o == op then [] else Waiters(s.chans[d], o))
    decreases |Waiters(s.chans[c], op)|
  {
    hide PopClosed;
    if Waiters(s.chans[c], op) == [] {
    } else {
      var s1 := PopClosed(s, c, op);
      assert forall x :: ValidRef(s1, x) == ValidRef(s, x);
      PopClosedOne(s, c, op);
      WakeAllEmpties(s1, c, op);
    }
  }

  lemma {:induction false} PopClosedOne<T>(s: State<T>, c: nat, op: Op)
    requires RefsValid(s) && c < |s.chans| && Waiters(s.chans[c], op) != []
    ensures var s' := PopClosed(s, c, op);
      && (forall d :: 0 <= d < |s.chans| ==> s'.chans[d].closed == s.chans[d].closed)
      && (forall d, o :: 0 <= d < |s.chans| && (d != c || o != op) ==>
            Waiters(s'.chans[d], o) == Waiters(s.chans[d], o))
  {
  }

  lemma {:induction false} SimWakeAll<T>(s: State<T>, c: nat, op: Op)
    requires CodeLinks(s) && c < |s.chans|
    ensures RefsValid(s) && forall r :: r in Waiters(s.chans[c], op) ==> r.call < |s.calls|
    ensures Abs(WakeAllAsClosed(s, c, op)) == DrainClosed(Abs(s), Waiters(s.chans[c], op))
    ensures CodeLinks(WakeAllAsClosed(s, c, op))
    decreases |Waiters(s.chans[c], op)|
  {
    AbsLinked(s);
    var q := Waiters(s.chans[c], op);
    if q == [] {
    } else {
      PopClosedPops(s, c, op);
      SimPopClosed(s, c, op);
      var s1 := PopClosed(s, c, op);
      assert CodeLinks(s1) by { PopsKeeps(s, s1); }
      SimWakeAll(s1, c, op);
    }
  }

  lemma {:induction false} AbsMarkClosed<T>(s: State<T>, c: nat)
    requires c < |s.chans|
    ensures Abs(s.(chans := s.chans[c := s.chans[c].(closed := true)])).chans ==
      Abs(s).chans[c := Abs(s).chans[c].(closed := true)]
  {
  }

  lemma {:induction false} SimClose<T>(s: State<T>, c: nat)
    requires CodeOk(s) && c < |s.chans|
    ensures RefsValid(s) && Linked(Abs(s))
    ensures Abs(CloseLocked(s, c)) == Close(Abs(s), c)
    ensures CodeOk(CloseLocked(s, c))
  {
    AbsLinked(s);
    var ch := s.chans[c];
    if !ch.closed {
      var s1 := s.(chans := s.chans[c := ch.(closed := true)]);
      ShapeKeepsCases(s, s1);
      assert forall d, o :: 0 <= d < |s.chans| ==> Waiters(s1.chans[d], o) == Waiters(s.chans[d], o);
      assert CodeLinks(s1);
      AbsMarkClosed(s, c);
      CloseQueues(s1, c);
      SimDrain(s, s1, c);
    }
  }

  lemma {:induction false} CloseQueues<T>(s: State<T>, c: nat)
    requires CodeLinks(s) && c < |s.chans| && s.chans[c].closed
    requires forall d, op :: 0 <= d < |s.chans| && d != c && s.chans[d].closed ==> Waiters(s.chans[d], op) == []
    ensures RefsValid(s) && RefsValid(WakeAllAsClosed(s, c, Send))
    ensures forall r :: r in s.chans[c].senders + s.chans[c].receivers ==> r.call < |s.calls|
    ensures Abs(WakeAllAsClosed(WakeAllAsClosed(s, c, Send), c, Recv)) ==
      DrainClosed(Abs(s), s.chans[c].senders + s.chans[c].receivers)
    ensures CodeOk(WakeAllAsClosed(WakeAllAsClosed(s, c, Send), c, Recv))
  {
    AbsLinked(s);
    var s2 := WakeAllAsClosed(s, c, Send);
    SimWakeAll(s, c, Send);
    WakeAllEmpties(s, c, Send);
    AbsLinked(s2);
    SimWakeAll(s2, c, Recv);
    WakeAllEmpties(s2, c, Recv);
    assert Waiters(s2.chans[c], Recv) == s.chans[c].receivers;
    var all := s.chans[c].senders + s.chans[c].receivers;
    assert forall r :: r in all ==> r in Waiters(s.chans[c], Send) || r in Waiters(s.chans[c], Recv);
    DrainAppend(Abs(s), s.chans[c].senders, s.chans[c].receivers);
  }

  lemma {:induction false} SimDrain<T>(s: State<T>, s1: State<T>, c: nat)
    requires CodeOk(s) && RefsValid(s) && Linked(Abs(s)) && c < |s.chans| && !s.chans[c].closed
    requires s1 == s.(chans := s.chans[c := s.chans[c].(closed := true)])
    requires Abs(s1).chans == Abs(s).chans[c := Abs(s).chans[c].(closed := true)]
    requires forall r :: r in s.chans[c].senders + s.chans[c].receivers ==> r.call < |s.calls|
    ensures DrainClosed(Abs(s1), s.chans[c].senders + s.chans[c].receivers) == Close(Abs(s), c)
  {
    var snd, rcv := s.chans[c].senders, s.chans[c].receivers;
    LiveAppend(snd, rcv, s.calls);
    DrainSkips(Abs(s1), snd + rcv, s.calls);
  }

  lemma {:induction false} SimCloseBelow<T>(s: State<T>, n: nat)
    requires CodeOk(s) && n <= |s.chans|
    ensures RefsValid(s) && Linked(Abs(s))
    ensures Abs(CloseBelowLocked(s, n)) == CloseBelow(Abs(s), n)
    ensures CodeOk(CloseBelowLocked(s, n))
    decreases n
  {
    hide CloseLocked, Close;
    AbsLinked(s);
    if n == 0 {
    } else {
      SimClose(s, n - 1);
      SimCloseBelow(CloseLocked(s, n - 1), n - 1);
    }
  }

  lemma {:induction false} SimShutdown<T>(s: State<T>)
    requires CodeOk(s)
    ensures RefsValid(s.(shutdown := true)) && Linked(Abs(s))
    ensures Abs(CloseBelowLocked(s.(shutdown := true), |s.chans|)) == Shutdown(Abs(s))
    ensures CodeOk(CloseBelowLocked(s.(shutdown := true), |s.chans|))
  {
    var t := s.(shutdown := true);
    assert forall x, c: nat, op :: Names(t, x, c, op) == Names(s, x, c, op);
    AbsLinked(s);
    SimCloseBelow(t, |s.chans|);
    assert Abs(t) == Abs(s).(shutdown := true);
  }

  lemma {:induction false} SimCreate<T>(s: State<T>, capacity: nat)
    requires CodeOk(s)
    ensures Abs(Create(s, capacity)) == Create(Abs(s), capacity) && CodeOk(Create(s, capacity))
  {
    var t := Create(s, capacity);
    assert Abs(t).chans == Create(Abs(s), capacity).chans;
    assert forall x, c: nat, op :: Names(t, x, c, op) == Names(s, x, c, op);
    assert forall d, o :: 0 <= d < |s.chans| ==> Waiters(t.chans[d], o) == Waiters(s.chans[d], o);
    assert forall o :: Waiters(t.chans[|s.chans|], o) == [];
  }

  /** Dead waiters never keep a closed channel from being destroyed. */
  lemma {:induction false} SimDestroy<T>(s: State<T>, c: nat)
    requires CodeOk(s) && c < |s.chans|
    ensures Abs(Destroy(s, c)) == Destroy(Abs(s), c) && CodeOk(Destroy(s, c))
  {
    var t := Destroy(s, c);
    assert s.chans[c].closed ==> Waiters(s.chans[c], Send) == [] && Waiters(s.chans[c], Recv) == [];
    assert Abs(t).chans == Destroy(Abs(s), c).chans;
    assert forall x, d: nat, op :: Names(t, x, d, op) == Names(s, x, d, op);
    assert forall d, o :: 0 <= d < |t.chans| ==> Waiters(t.chans[d], o) == Waiters(s.chans[d], o);
  }

  lemma {:induction false} LiveWithout<T>(q: seq<Ref>, calls: seq<Call<T>>, k: nat)
    requires k < |calls| && !calls[k].phase.Parked?
    ensures Live(Without(q, k), calls) == Live(q, calls)
  {
    if q == [] {
    } else {
      LiveWithout(q[1..], calls, k);
      assert ([q[0]] + Without(q[1..], k))[1..] == Without(q[1..], k);
    }
  }

  lemma {:induction false} WithoutFewer(q: seq<Ref>, k: nat)
    ensures multiset(Without(q, k)) <= multiset(q)
  {
    if q == [] {
    } else {
      WithoutFewer(q[1..], k);
      assert q == [q[0]] + q[1..];
    }
  }

  /** When a parked call returns, no queue holds a waiter of it any more. */
  lemma {:induction false} SimFinish<T>(s: State<T>, k: nat)
    requires CodeOk(s) && k < |s.calls| && s.calls[k].phase.Woken?
    ensures Abs(FinishLocked(s, k)) == Finish(Abs(s), k) && CodeOk(FinishLocked(s, k))
    ensures forall c, op, r :: 0 <= c < |s.chans| && r in Waiters(FinishLocked(s, k).chans[c], op) ==> r.call != k
  {
    var t := FinishLocked(s, k);
    forall c | 0 <= c < |s.chans| ensures Abs(t).chans[c] == Abs(s).chans[c] {
      LiveWithout(s.chans[c].senders, s.calls, k);
      LiveWithout(s.chans[c].receivers, s.calls, k);
      LiveDecided(t.chans[c].senders, s.calls, k, t.calls[k]);
      LiveDecided(t.chans[c].receivers, s.calls, k, t.calls[k]);
    }
    assert Abs(t).chans == Abs(s).chans;
    FinishCodeOk(s, k);
  }

  lemma {:induction false} FinishCodeOk<T>(s: State<T>, k: nat)
    requires CodeOk(s) && k < |s.calls| && s.calls[k].phase.Woken?
    ensures CodeOk(FinishLocked(s, k))
    ensures forall c, op, r :: 0 <= c < |s.chans| && r in Waiters(FinishLocked(s, k).chans[c], op) ==> r.call != k
  {
    hide Without;
    var t := FinishLocked(s, k);
    ShapeKeepsCases(s, t);
    forall c, op | 0 <= c < |s.chans|
      ensures Waiters(t.chans[c], op) == Without(Waiters(s.chans[c], op), k) && Distinct(Waiters(t.chans[c], op))
      ensures s.chans[c].closed ==> Waiters(t.chans[c], op) == []
    {
      assert Waiters(t.chans[c], op) == Without(Waiters(s.chans[c], op), k);
      WithoutFewer(Waiters(s.chans[c], op), k);
      FewerDistinct(Waiters(s.chans[c], op), Waiters(t.chans[c], op));
    }
  }
}
