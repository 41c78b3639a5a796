/** The `_locked` code of src/channel.c on values.  A decided select leaves its other waiters linked;
    they are skipped when popped and removed when the select returns. */
module ChannelCode {
  import opened Basics
  import opened ChannelTypes
  import opened ChannelSpec

  predicate IsLive<T>(r: Ref, calls: seq<Call<T>>) {
    r.call < |calls| && calls[r.call].phase.Parked?
  }

  function SetQueue<T>(s: State<T>, c: nat, op: Op, q: seq<Ref>): State<T>
    requires c < |s.chans|
  {
    var ch := s.chans[c];
    s.(chans := s.chans[c := if op.Send? then ch.(senders := q) else ch.(receivers := q)])
  }

  lemma {:induction false} SetQueueSame<T>(s: State<T>, c: nat, op: Op)
    requires c < |s.chans|
    ensures SetQueue(s, c, op, Waiters(s.chans[c], op)) == s
  {
    assert SetQueue(s, c, op, Waiters(s.chans[c], op)).chans == s.chans;
  }

  // ---------------------------------------------------------------------------------------------
  // Popping a waiter and deciding it is deciding it
  // ---------------------------------------------------------------------------------------------

  /** pop_live_waiter_locked: what is left of the queue once dead waiters in front are dropped. */
  function DropDead<T>(q: seq<Ref>, calls: seq<Call<T>>): (d: seq<Ref>)
    ensures d != [] ==> IsLive(d[0], calls)
    ensures forall r :: r in d ==> r in q
    ensures forall r :: r in q && r !in d ==> !IsLive(r, calls)
  {
    if q == [] || IsLive(q[0], calls) then q else DropDead(q[1..], calls)
  }

  function MarkSent<T>(s: State<T>, c: nat, r: Ref): State<T>
    requires c < |s.chans| && ValidRef(s, r)
  {
    var ch := s.chans[c];
    Mark(s.(chans := s.chans[c := ch.(accepted := ch.accepted + [Item(r, CaseAt(s, r).value)])]), r, Sent, None)
  }

  function MarkGot<T>(s: State<T>, c: nat, r: Ref, v: T): State<T>
    requires c < |s.chans| && r.call < |s.calls|
  {
    var ch := s.chans[c];
    Mark(s.(chans := s.chans[c := ch.(delivered := ch.delivered + [Item(r, v)])]), r, Value, Some(v))
  }

  ghost predicate RefsValid<T>(s: State<T>) {
    forall c, op, r :: 0 <= c < |s.chans| && r in Waiters(s.chans[c], op) ==> ValidRef(s, r)
  }

  /** Waiters only leave. */
  ghost predicate FewerWaiters<T>(s: State<T>, s': State<T>) {
    |s'.chans| == |s.chans| &&
    forall c, op, r :: 0 <= c < |s.chans| && r in Waiters(s'.chans[c], op) ==> r in Waiters(s.chans[c], op)
  }

  /** try_send_locked. */
  function TrySendLocked<T>(s: State<T>, c: nat, me: Ref): (s': State<T>)
    requires c < |s.chans| && RefsValid(s) && ValidRef(s, me)
    ensures SameShape(s, s') && FewerWaiters(s, s')
  {
    var ch := s.chans[c];
    var v := CaseAt(s, me).value;
    if ch.closed || s.shutdown then Mark(s, me, Closed, None) else
    var q := DropDead(ch.receivers, s.calls);
    if q != [] then
      assert q[0] in Waiters(ch, Recv);
      MarkGot(MarkSent(SetQueue(s, c, Recv, q[1..]), c, me), c, q[0], v)
    else
      var s1 := SetQueue(s, c, Recv, []);
      if ch.capacity > 0 && |ch.buffer| < ch.capacity
      then MarkSent(SetBuffer(s1, c, ch.buffer + [v]), c, me)
      else s1
  }

  /** buffer_one_waiting_sender_locked. */
  function BufferOneSender<T>(s: State<T>, c: nat): (s': State<T>)
    requires c < |s.chans| && RefsValid(s)
    ensures SameShape(s, s') && FewerWaiters(s, s')
  {
    var ch := s.chans[c];
    if ch.capacity == 0 || |ch.buffer| >= ch.capacity then s else
    var q := DropDead(ch.senders, s.calls);
    if q == [] then SetQueue(s, c, Send, []) else
    assert q[0] in Waiters(ch, Send);
    MarkSent(SetBuffer(SetQueue(s, c, Send, q[1..]), c, ch.buffer + [CaseAt(s, q[0]).value]), c, q[0])
  }

  /** The first half of try_recv_locked: a buffered value, and room for one waiting sender. */
  function TakeLocked<T>(s: State<T>, c: nat, me: Ref): (s': State<T>)
    requires c < |s.chans| && RefsValid(s) && me.call < |s.calls| && s.chans[c].buffer != []
    ensures SameShape(s, s') && FewerWaiters(s, s')
  {
    var ch := s.chans[c];
    var s1 := MarkGot(SetBuffer(s, c, ch.buffer[1..]), c, me, ch.buffer[0]);
    assert forall d, op :: 0 <= d < |s.chans| ==> Waiters(s1.chans[d], op) == Waiters(s.chans[d], op);
    assert forall r :: ValidRef(s, r) ==> ValidRef(s1, r);
    if !ch.closed then BufferOneSender(s1, c) else s1
  }

  /** The second half: a waiting sender hands over directly, or there is nothing. */
  function DirectLocked<T>(s: State<T>, c: nat, me: Ref): (s': State<T>)
    requires c < |s.chans| && RefsValid(s) && me.call < |s.calls|
    ensures SameShape(s, s') && FewerWaiters(s, s')
  {
    var ch := s.chans[c];
    var q := DropDead(ch.senders, s.calls);
    if q != [] then
      assert q[0] in Waiters(s.chans[c], Send) && ValidRef(s, q[0]);
      MarkGot(MarkSent(SetQueue(s, c, Send, q[1..]), c, q[0]), c, me, CaseAt(s, q[0]).value)
    else
      var s1 := SetQueue(s, c, Send, []);
      if ch.closed || s.shutdown then Mark(s1, me, Closed, None) else s1
  }

  /** try_recv_locked. */
  function TryRecvLocked<T>(s: State<T>, c: nat, me: Ref): (s': State<T>)
    requires c < |s.chans| && RefsValid(s) && me.call < |s.calls|
    ensures SameShape(s, s') && FewerWaiters(s, s')
  {
    if s.chans[c].buffer != [] then TakeLocked(s, c, me) else DirectLocked(s, c, me)
  }

  function TryCaseLocked<T>(s: State<T>, me: Ref): (s': State<T>)
    requires RefsValid(s) && ValidRef(s, me)
    requires CaseAt(s, me).chan.Some? ==> CaseAt(s, me).chan.value < |s.chans|
    ensures SameShape(s, s') && FewerWaiters(s, s')
  {
    match CaseAt(s, me).chan
    case None => s
    case Some(c) => if CaseAt(s, me).op.Send? then TrySendLocked(s, c, me) else TryRecvLocked(s, c, me)
  }

  /** Phase A of croutine_select; a regular operation has one case. */
  function AttemptLocked<T>(s: State<T>, k: nat, order: seq<nat>): (s': State<T>)
    requires RefsValid(s) && InRange(s) && k < |s.calls| && forall i :: i in order ==> i < |s.calls[k].cases|
    ensures SameShape(s, s') && FewerWaiters(s, s')
    decreases |order|
  {
    if order == [] then s else
    assert order[0] in order && ValidRef(s, Ref(k, order[0]));
    var s1 := TryCaseLocked(s, Ref(k, order[0]));
    if !s1.calls[k].phase.Active? then s1 else
    assert forall i :: i in order[1..] ==> i in order;
    assert forall x :: ValidRef(s1, x) == ValidRef(s, x) && (ValidRef(s, x) ==> CaseAt(s1, x) == CaseAt(s, x));
    AttemptLocked(s1, k, order[1..])
  }

  function InvokeLocked<T>(s: State<T>, task: Option<nat>, select: bool, cases: seq<Case<T>>, order: seq<nat>,
      blocking: bool): State<T>
    requires RefsValid(Begin(s, task, select, cases)) && InRange(Begin(s, task, select, cases))
    requires forall i :: i in order ==> i < |cases|
  {
    var k := |s.calls|;
    var s1 := AttemptLocked(Begin(s, task, select, cases), k, order);
    if s1.calls[k].phase.Returned? then s1
    else if !blocking || task.None? || NamesNoChannel(cases) then Return(s1, k)
    else Park(s1, k)
  }

  /** Pop one waiter of a closing channel and, unless its select was decided, tell it. */
  function PopClosed<T>(s: State<T>, c: nat, op: Op): (s': State<T>)
    requires c < |s.chans| && Waiters(s.chans[c], op) != [] && RefsValid(s)
    ensures SameShape(s, s') && FewerWaiters(s, s')
    ensures Waiters(s'.chans[c], op) == Waiters(s.chans[c], op)[1..]
  {
    var q := Waiters(s.chans[c], op);
    assert q[0] in Waiters(s.chans[c], op);
    var s1 := SetQueue(s, c, op, q[1..]);
    if IsLive(q[0], s.calls) then Mark(s1, q[0], Closed, None) else s1
  }

  /** wake_all_as_closed_locked on one queue. */
  function WakeAllAsClosed<T>(s: State<T>, c: nat, op: Op): (s': State<T>)
    requires c < |s.chans| && RefsValid(s)
    ensures SameShape(s, s') && FewerWaiters(s, s')
    decreases |Waiters(s.chans[c], op)|
  {
    if Waiters(s.chans[c], op) == [] then s else
    var s1 := PopClosed(s, c, op);
    assert forall x :: ValidRef(s1, x) == ValidRef(s, x);
    WakeAllAsClosed(s1, c, op)
  }

  /** channel_close_locked. */
  function CloseLocked<T>(s: State<T>, c: nat): (s': State<T>)
    requires c < |s.chans| && RefsValid(s)
    ensures SameShape(s, s') && FewerWaiters(s, s')
  {
    var ch := s.chans[c];
    if ch.closed then s else
    var s1 := s.(chans := s.chans[c := ch.(closed := true)]);
    assert FewerWaiters(s, s1);
    assert forall x :: ValidRef(s1, x) == ValidRef(s, x);
    var s2 := WakeAllAsClosed(s1, c, Send);
    assert forall x :: ValidRef(s2, x) == ValidRef(s1, x);
    WakeAllAsClosed(s2, c, Recv)
  }

  /** croutine_channel_shutdown_all_locked: newest channel first. */
  function CloseBelowLocked<T>(s: State<T>, n: nat): (s': State<T>)
    requires n <= |s.chans| && RefsValid(s)
    ensures SameShape(s, s') && FewerWaiters(s, s')
    decreases n
  {
    if n == 0 then s else
    var s1 := CloseLocked(s, n - 1);
    assert forall x :: ValidRef(s1, x) == ValidRef(s, x);
    CloseBelowLocked(s1, n - 1)
  }

  /** The end of a parked call: scrub_select_waiters, then read the answer. */
  function FinishLocked<T>(s: State<T>, k: nat): State<T>
    requires k < |s.calls| && s.calls[k].phase.Woken?
  {
    Finish(Detach(s, k), k)
  }
}
