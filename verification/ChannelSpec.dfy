/** What channels and select mean: every queue holds live waiters only, and a call that is decided
    leaves every queue at once. */
module ChannelSpec {
  import opened Basics
  import opened ChannelTypes

  // ---------------------------------------------------------------------------------------------
  // Deciding a call
  // ---------------------------------------------------------------------------------------------

  /** Every queued waiter is a case of a parked call that names this queue. */
  ghost predicate Linked<T>(s: State<T>) {
    forall c, op, r :: 0 <= c < |s.chans| && r in Waiters(s.chans[c], op) ==>
      Names(s, r, c, op) && s.calls[r.call].phase.Parked?
  }

  function Without(q: seq<Ref>, k: nat): (r: seq<Ref>)
    ensures forall x :: x in r <==> x in q && x.call != k
  {
    if q == [] then [] else
    var rest := Without(q[1..], k);
    assert forall x :: x in q <==> x == q[0] || x in q[1..];
    if q[0].call == k then rest else [q[0]] + rest
  }

  /** Record that case `r.idx` decided call `r.call`. */
  function Mark<T>(s: State<T>, r: Ref, status: Status, got: Option<T>): State<T>
    requires r.call < |s.calls|
  {
    var call := s.calls[r.call];
    var o := Fired(r.idx, status, got);
    s.(calls := s.calls[r.call := call.(phase := if call.phase.Active? then Returned(o) else Woken(o))])
  }

  function DetachChan<T>(ch: Chan<T>, k: nat): Chan<T> {
    ch.(senders := Without(ch.senders, k), receivers := Without(ch.receivers, k))
  }

  function Detach<T>(s: State<T>, k: nat): State<T> {
    s.(chans := seq(|s.chans|, i requires 0 <= i < |s.chans| => DetachChan(s.chans[i], k)))
  }

  function Decide<T>(s: State<T>, r: Ref, status: Status, got: Option<T>): (s': State<T>)
    requires r.call < |s.calls|
    ensures SameShape(s, s')
    ensures OnlyCall(s, s', r)
  {
    if s.calls[r.call].phase.Parked? then Detach(Mark(s, r, status, got), r.call)
    else Mark(s, r, status, got)
  }

  lemma {:induction false} DecideLinked<T>(s: State<T>, r: Ref, status: Status, got: Option<T>)
    requires r.call < |s.calls| && Linked(s)
    ensures Linked(Decide(s, r, status, got))
  {
    var s' := Decide(s, r, status, got);
    forall c, op, x | 0 <= c < |s'.chans| && x in Waiters(s'.chans[c], op)
      ensures Names(s', x, c, op) && s'.calls[x.call].phase.Parked?
    {
      if s.calls[r.call].phase.Parked? {
        assert Waiters(s'.chans[c], op) == Without(Waiters(s.chans[c], op), r.call);
      }
      assert x in Waiters(s.chans[c], op);
      assert Names(s, x, c, op);
    }
  }

  /** The same channels and the same calls, up to what became of them. */
  ghost predicate SameShape<T>(s: State<T>, s': State<T>) {
    && |s'.chans| == |s.chans| && |s'.calls| == |s.calls| && s'.shutdown == s.shutdown
    && forall k :: 0 <= k < |s.calls| ==>
         && s'.calls[k].task == s.calls[k].task && s'.calls[k].select == s.calls[k].select
         && s'.calls[k].cases == s.calls[k].cases
  }

  /** Call `r.call` is decided through case `r.idx` and no other call changes. */
  ghost predicate OnlyCall<T>(s: State<T>, s': State<T>, r: Ref) {
    && |s'.calls| == |s.calls| && r.call < |s.calls|
    && (if s.calls[r.call].phase.Active? then s'.calls[r.call].phase.Returned? else s'.calls[r.call].phase.Woken?)
    && FiredBy(s'.calls[r.call], r.idx)
    && forall j :: 0 <= j < |s.calls| && j != r.call ==> s'.calls[j] == s.calls[j]
  }

  predicate FiredBy<T>(call: Call<T>, i: nat) {
    Decided(call.phase) && call.phase.outcome.Fired? && call.phase.outcome.idx == i
  }

  /** The sender `r` is told its value was sent on `c`. */
  function Accept<T>(s: State<T>, c: nat, r: Ref): (s': State<T>)
    requires c < |s.chans| && ValidRef(s, r)
    ensures SameShape(s, s') && OnlyCall(s, s', r)
  {
    var ch := s.chans[c];
    Decide(s.(chans := s.chans[c := ch.(accepted := ch.accepted + [Item(r, CaseAt(s, r).value)])]),
           r, Sent, None)
  }

  /** The receiver `r` is given `v` from `c`. */
  function Deliver<T>(s: State<T>, c: nat, r: Ref, v: T): (s': State<T>)
    requires c < |s.chans| && r.call < |s.calls|
    ensures SameShape(s, s') && OnlyCall(s, s', r)
  {
    var ch := s.chans[c];
    Decide(s.(chans := s.chans[c := ch.(delivered := ch.delivered + [Item(r, v)])]), r, Value, Some(v))
  }

  function SetBuffer<T>(s: State<T>, c: nat, buffer: seq<T>): State<T>
    requires c < |s.chans|
  {
    s.(chans := s.chans[c := s.chans[c].(buffer := buffer)])
  }

  function Handoff<T>(s: State<T>, c: nat, from: Ref, to: Ref): State<T>
    requires c < |s.chans| && ValidRef(s, from) && to.call < |s.calls|
  {
    Deliver(Accept(s, c, from), c, to, CaseAt(s, from).value)
  }

  function Store<T>(s: State<T>, c: nat, from: Ref): State<T>
    requires c < |s.chans| && ValidRef(s, from)
  {
    Accept(SetBuffer(s, c, s.chans[c].buffer + [CaseAt(s, from).value]), c, from)
  }

  function Take<T>(s: State<T>, c: nat, to: Ref): State<T>
    requires c < |s.chans| && s.chans[c].buffer != [] && to.call < |s.calls|
  {
    Deliver(SetBuffer(s, c, s.chans[c].buffer[1..]), c, to, s.chans[c].buffer[0])
  }

  // ---------------------------------------------------------------------------------------------
  // One attempt at one case
  // ---------------------------------------------------------------------------------------------

  predicate Shut<T>(s: State<T>, c: nat)
    requires c < |s.chans|
  {
    s.chans[c].closed || s.shutdown
  }

  /** A case can be decided on the spot. */
  predicate Ready<T>(s: State<T>, cs: Case<T>) {
    match cs.chan
    case None => false
    case Some(c) =>
      c < |s.chans| &&
      var ch := s.chans[c];
      if cs.op.Send? then Shut(s, c) || ch.receivers != [] || |ch.buffer| < ch.capacity
      else Shut(s, c) || ch.senders != [] || ch.buffer != []
  }

  function TrySend<T>(s: State<T>, c: nat, me: Ref): (s': State<T>)
    requires c < |s.chans| && Linked(s) && Names(s, me, c, Send) && s.calls[me.call].phase.Active?
    ensures SameShape(s, s')
    ensures if Ready(s, CaseAt(s, me)) then s'.calls[me.call].phase.Returned? && FiredBy(s'.calls[me.call], me.idx)
            else s' == s
  {
    var ch := s.chans[c];
    if Shut(s, c) then Decide(s, me, Closed, None)
    else if ch.receivers != [] then
      assert ch.receivers[0] in Waiters(ch, Recv);
      Handoff(s, c, me, ch.receivers[0])
    else if |ch.buffer| < ch.capacity then Store(s, c, me)
    else s
  }

  function TryRecv<T>(s: State<T>, c: nat, me: Ref): (s': State<T>)
    requires c < |s.chans| && Linked(s) && Names(s, me, c, Recv) && s.calls[me.call].phase.Active?
    ensures SameShape(s, s')
    ensures if Ready(s, CaseAt(s, me)) then s'.calls[me.call].phase.Returned? && FiredBy(s'.calls[me.call], me.idx)
            else s' == s
  {
    var ch := s.chans[c];
    assert ch.senders != [] ==> ch.senders[0] in Waiters(ch, Send);
    if ch.buffer != [] then
      var s1 := Take(s, c, me);
      if !ch.closed && ch.senders != [] then Store(s1, c, ch.senders[0]) else s1
    else if ch.senders != [] then Handoff(s, c, ch.senders[0], me)
    else if Shut(s, c) then Decide(s, me, Closed, None)
    else s
  }

  function TryCase<T>(s: State<T>, me: Ref): (s': State<T>)
    requires Linked(s) && ValidRef(s, me) && s.calls[me.call].phase.Active?
    requires CaseAt(s, me).chan.Some? ==> CaseAt(s, me).chan.value < |s.chans|
    ensures SameShape(s, s')
    ensures if Ready(s, CaseAt(s, me)) then s'.calls[me.call].phase.Returned? && FiredBy(s'.calls[me.call], me.idx)
            else s' == s
  {
    match CaseAt(s, me).chan
    case None => s
    case Some(c) => if CaseAt(s, me).op.Send? then TrySend(s, c, me) else TryRecv(s, c, me)
  }

  // ---------------------------------------------------------------------------------------------
  // The public operations
  // ---------------------------------------------------------------------------------------------

  /** Every channel a case names exists. */
  ghost predicate InRange<T>(s: State<T>) {
    forall r :: ValidRef(s, r) && CaseAt(s, r).chan.Some? ==> CaseAt(s, r).chan.value < |s.chans|
  }

  ghost predicate Trying<T>(s: State<T>, k: nat) {
    Linked(s) && InRange(s) && k < |s.calls| && s.calls[k].phase.Active?
  }

  /** Try the cases of call `k` in the given order until one fires. */
  function Attempt<T>(s: State<T>, k: nat, order: seq<nat>): (s': State<T>)
    requires Trying(s, k) && forall i :: i in order ==> i < |s.calls[k].cases|
    ensures SameShape(s, s')
    ensures if exists i :: i in order && Ready(s, s.calls[k].cases[i])
            then s'.calls[k].phase.Returned? && s'.calls[k].phase.outcome.Fired? else s' == s
  {
    if order == [] then s else
    assert order[0] in order && ValidRef(s, Ref(k, order[0]));
    assert forall i :: i in order[1..] ==> i in order;
    var s1 := TryCase(s, Ref(k, order[0]));
    if !s1.calls[k].phase.Active? then s1 else Attempt(s1, k, order[1..])
  }

  /** The waiters the first `n` cases put on one queue, in case order. */
  function Regs<T>(k: nat, cases: seq<Case<T>>, n: nat, c: nat, op: Op): (q: seq<Ref>)
    requires n <= |cases|
    ensures forall r :: r in q <==> r.call == k && r.idx < n && cases[r.idx].chan == Some(c) && cases[r.idx].op == op
  {
    if n == 0 then [] else
    Regs(k, cases, n - 1, c, op) +
    (if cases[n - 1].chan == Some(c) && cases[n - 1].op == op then [Ref(k, n - 1)] else [])
  }

  function ParkChan<T>(ch: Chan<T>, k: nat, cases: seq<Case<T>>, c: nat): Chan<T> {
    ch.(senders := ch.senders + Regs(k, cases, |cases|, c, Send),
        receivers := ch.receivers + Regs(k, cases, |cases|, c, Recv))
  }

  /** Link one waiter per case and put the task to sleep. */
  function Park<T>(s: State<T>, k: nat): State<T>
    requires k < |s.calls|
  {
    var cases := s.calls[k].cases;
    s.(calls := s.calls[k := s.calls[k].(phase := Parked)],
       chans := seq(|s.chans|, c requires 0 <= c < |s.chans| => ParkChan(s.chans[c], k, cases, c)))
  }

  predicate NamesNoChannel<T>(cases: seq<Case<T>>) {
    forall i :: 0 <= i < |cases| ==> cases[i].chan.None?
  }

  function Return<T>(s: State<T>, k: nat): State<T>
    requires k < |s.calls|
  {
    s.(calls := s.calls[k := s.calls[k].(phase := Returned(NotFired))])
  }

  function Begin<T>(s: State<T>, task: Option<nat>, select: bool, cases: seq<Case<T>>): State<T> {
    s.(calls := s.calls + [Call(task, select, cases, Active)])
  }

  /** send, recv, try_send, try_recv and select up to the point where the caller has its answer or
      sleeps. */
  function Invoke<T>(s: State<T>, task: Option<nat>, select: bool, cases: seq<Case<T>>, order: seq<nat>, blocking: bool)
    : (s': State<T>)
    requires Trying(Begin(s, task, select, cases), |s.calls|) && forall i :: i in order ==> i < |cases|
  {
    var k := |s.calls|;
    var s1 := Attempt(Begin(s, task, select, cases), k, order);
    if s1.calls[k].phase.Returned? then s1
    else if !blocking || task.None? || NamesNoChannel(cases) then Return(s1, k)
    else Park(s1, k)
  }

  /** Tell every parked call among `refs` that its channel closed. */
  function DrainClosed<T>(s: State<T>, refs: seq<Ref>): (s': State<T>)
    requires forall r :: r in refs ==> r.call < |s.calls|
    ensures SameShape(s, s')
    ensures Linked(s) ==> Linked(s')
    decreases |refs|
  {
    if refs == [] then s else
    assert refs[0] in refs;
    if s.calls[refs[0].call].phase.Parked? then
      assert Linked(s) ==> Linked(Decide(s, refs[0], Closed, None)) by {
        if Linked(s) { DecideLinked(s, refs[0], Closed, None); }
      }
      DrainClosed(Decide(s, refs[0], Closed, None), refs[1..])
    else DrainClosed(s, refs[1..])
  }

  function Close<T>(s: State<T>, c: nat): (s': State<T>)
    requires c < |s.chans| && Linked(s)
    ensures SameShape(s, s') && Linked(s')
  {
    var ch := s.chans[c];
    if ch.closed then s else
    var s1 := s.(chans := s.chans[c := ch.(closed := true)]);
    assert Linked(s1) by {
      assert forall d, op :: 0 <= d < |s.chans| ==> Waiters(s1.chans[d], op) == Waiters(s.chans[d], op);
      assert forall r, d, op :: Names(s1, r, d, op) == Names(s, r, d, op);
    }
    assert forall r :: r in ch.senders + ch.receivers ==> r in Waiters(ch, Send) || r in Waiters(ch, Recv);
    DrainClosed(s1, ch.senders + ch.receivers)
  }

  /** Close the channels below `n`, newest first. */
  function CloseBelow<T>(s: State<T>, n: nat): (s': State<T>)
    requires n <= |s.chans| && Linked(s)
    ensures SameShape(s, s') && Linked(s')
    decreases n
  {
    if n == 0 then s else CloseBelow(Close(s, n - 1), n - 1)
  }

  function Shutdown<T>(s: State<T>): State<T>
    requires Linked(s)
  {
    var s1 := s.(shutdown := true);
    assert Linked(s1) by {
      assert forall r, d, op :: Names(s1, r, d, op) == Names(s, r, d, op);
    }
    CloseBelow(s1, |s.chans|)
  }

  function Create<T>(s: State<T>, capacity: nat): State<T> {
    s.(chans := s.chans + [Chan(capacity, false, false, [], [], [], [], [])])
  }

  /** Freeing a channel is refused while it is open or has waiters. */
  function Destroy<T>(s: State<T>, c: nat): State<T>
    requires c < |s.chans|
  {
    var ch := s.chans[c];
    if ch.closed && ch.senders == [] && ch.receivers == []
    then s.(chans := s.chans[c := ch.(destroyed := true)]) else s
  }

  /** A woken task runs again and its call returns. */
  function Finish<T>(s: State<T>, k: nat): State<T>
    requires k < |s.calls| && s.calls[k].phase.Woken?
  {
    s.(calls := s.calls[k := s.calls[k].(phase := Returned(s.calls[k].phase.outcome))])
  }
}
