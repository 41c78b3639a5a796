/** What every reachable state of the channel system satisfies. */
module ChannelInv {
  import opened Basics
  import opened ChannelTypes
  import opened ChannelSpec

  // ---------------------------------------------------------------------------------------------
  // The invariant
  // ---------------------------------------------------------------------------------------------

  /** Every case of a parked call is queued on the channel it names. */
  ghost predicate Complete<T>(s: State<T>) {
    forall r, c: nat, op :: Names(s, r, c, op) && c < |s.chans| && s.calls[r.call].phase.Parked? ==>
      r in Waiters(s.chans[c], op)
  }

  ghost predicate SentBy<T>(s: State<T>, c: nat, x: Item<T>) {
    && Names(s, x.who, c, Send) && CaseAt(s, x.who).value == x.value
    && Decided(s.calls[x.who.call].phase)
    && s.calls[x.who.call].phase.outcome == Fired(x.who.idx, Sent, None)
  }

  ghost predicate GotBy<T>(s: State<T>, c: nat, x: Item<T>) {
    && Names(s, x.who, c, Recv)
    && Decided(s.calls[x.who.call].phase)
    && s.calls[x.who.call].phase.outcome == Fired(x.who.idx, Value, Some(x.value))
  }

  /** What a decided call was told has happened. */
  ghost predicate Honest<T>(s: State<T>, k: nat)
    requires k < |s.calls| && Decided(s.calls[k].phase)
  {
    match s.calls[k].phase.outcome
    case NotFired => true
    case Fired(i, status, got) =>
      var r := Ref(k, i);
      && ValidRef(s, r) && CaseAt(s, r).chan.Some? && CaseAt(s, r).chan.value < |s.chans|
      && var c := CaseAt(s, r).chan.value;
      match status
      case Sent => CaseAt(s, r).op.Send? && got.None? && Item(r, CaseAt(s, r).value) in s.chans[c].accepted
      case Value => CaseAt(s, r).op.Recv? && got.Some? && Item(r, got.value) in s.chans[c].delivered
      case Closed => got.None? && (s.chans[c].closed || s.shutdown)
  }

  ghost predicate DistinctCallers<T>(items: seq<Item<T>>) {
    forall i, j :: 0 <= i < j < |items| ==> items[i].who.call != items[j].who.call
  }

  /** The histories and what the callers were told agree, both ways. */
  ghost predicate Recorded<T>(s: State<T>) {
    && (forall c, x :: 0 <= c < |s.chans| && x in s.chans[c].accepted ==> SentBy(s, c, x))
    && (forall c, x :: 0 <= c < |s.chans| && x in s.chans[c].delivered ==> GotBy(s, c, x))
    && (forall k :: 0 <= k < |s.calls| && Decided(s.calls[k].phase) ==> Honest(s, k))
    && (forall c :: 0 <= c < |s.chans| ==>
          DistinctCallers(s.chans[c].accepted) && DistinctCallers(s.chans[c].delivered))
  }

  /** Nothing lost, nothing invented, order kept. */
  ghost predicate Conserved<T>(ch: Chan<T>) {
    Values(ch.delivered) + ch.buffer == Values(ch.accepted)
  }

  ghost predicate BufferOk<T>(ch: Chan<T>) {
    && |ch.buffer| <= ch.capacity
    && (ch.senders != [] ==> |ch.buffer| == ch.capacity)
    && (ch.receivers != [] ==> ch.buffer == [])
    && (ch.closed ==> ch.senders == [] && ch.receivers == [])
    && (ch.destroyed ==> ch.closed)
  }

  /** Senders and receivers wait on one channel together only inside one call. */
  ghost predicate OneCaller<T>(ch: Chan<T>) {
    forall a, b :: a in ch.senders && b in ch.receivers ==> a.call == b.call
  }

  ghost predicate ChanOk<T>(ch: Chan<T>) {
    Conserved(ch) && BufferOk(ch) && OneCaller(ch)
  }

  ghost predicate Base<T>(s: State<T>) {
    && Linked(s) && InRange(s) && Complete(s) && Recorded(s)
  }

  ghost predicate ChansOk<T>(s: State<T>) {
    forall c :: 0 <= c < |s.chans| ==> ChanOk(s.chans[c])
  }

  predicate Unfinished<T>(call: Call<T>) {
    call.phase.Parked? || call.phase.Woken?
  }

  ghost predicate CallsOk<T>(s: State<T>) {
    && (forall k :: 0 <= k < |s.calls| ==> !s.calls[k].phase.Active?)
    && (forall k :: 0 <= k < |s.calls| && s.calls[k].phase.Parked? ==> !NamesNoChannel(s.calls[k].cases))
    && (forall k :: 0 <= k < |s.calls| && Unfinished(s.calls[k]) ==> s.calls[k].task.Some?)
    && (forall j, k :: 0 <= j < k < |s.calls| && Unfinished(s.calls[j]) && Unfinished(s.calls[k]) ==>
          s.calls[j].task != s.calls[k].task)
  }

  /** Nobody sleeps on a channel once shutdown was requested. */
  ghost predicate Quiet<T>(s: State<T>) {
    s.shutdown ==> forall k :: 0 <= k < |s.calls| ==> !s.calls[k].phase.Parked?
  }

  ghost predicate Inv<T>(s: State<T>) {
    Base(s) && ChansOk(s) && CallsOk(s) && Quiet(s)
  }

  // ---------------------------------------------------------------------------------------------
  // One decision
  // ---------------------------------------------------------------------------------------------

  /** `ch'` is `ch` with some waiters gone. */
  ghost predicate Trimmed<T>(ch: Chan<T>, ch': Chan<T>) {
    && ch'.(senders := ch.senders, receivers := ch.receivers) == ch
    && (forall r :: r in ch'.senders ==> r in ch.senders)
    && (forall r :: r in ch'.receivers ==> r in ch.receivers)
  }

  lemma {:induction false} TrimmedOk<T>(ch: Chan<T>, ch': Chan<T>)
    requires Trimmed(ch, ch')
    ensures OneCaller(ch) ==> OneCaller(ch')
    ensures BufferOk(ch) ==> BufferOk(ch')
    ensures Conserved(ch) ==> Conserved(ch')
  {
    if ch'.senders != [] { assert ch'.senders[0] in ch.senders; }
    if ch'.receivers != [] { assert ch'.receivers[0] in ch.receivers; }
  }

  /** Undecided: a decision about it is still to come. */
  ghost predicate Open<T>(s: State<T>, r: Ref) {
    r.call < |s.calls| && (s.calls[r.call].phase.Parked? || s.calls[r.call].phase.Active?)
  }

  lemma {:induction false} DecideBase<T>(s: State<T>, r: Ref, status: Status, got: Option<T>)
    requires Linked(s) && InRange(s) && Complete(s) && Open(s, r)
    ensures var s' := Decide(s, r, status, got);
      && Linked(s') && InRange(s') && Complete(s')
      && s'.calls[r.call].phase ==
         (if s.calls[r.call].phase.Active? then Returned(Fired(r.idx, status, got))
          else Woken(Fired(r.idx, status, got)))
      && (forall c :: 0 <= c < |s.chans| ==> Trimmed(s.chans[c], s'.chans[c]))
      && (s.calls[r.call].phase.Active? ==> s'.chans == s.chans)
  {
    var s' := Decide(s, r, status, got);
    DecideLinked(s, r, status, got);
    assert forall x :: ValidRef(s', x) == ValidRef(s, x) && (ValidRef(s, x) ==> CaseAt(s', x) == CaseAt(s, x));
    assert forall x, c: nat, op :: Names(s', x, c, op) == Names(s, x, c, op);
    forall c | 0 <= c < |s.chans| ensures Trimmed(s.chans[c], s'.chans[c]) {
    }
    forall x, c: nat, op | Names(s', x, c, op) && c < |s'.chans| && s'.calls[x.call].phase.Parked?
      ensures x in Waiters(s'.chans[c], op)
    {
      assert Names(s, x, c, op) && x in Waiters(s.chans[c], op);
    }
  }

  lemma {:induction false} ShapeKeepsCases<T>(s: State<T>, s': State<T>)
    requires SameShape(s, s')
    ensures forall x :: ValidRef(s', x) == ValidRef(s, x) && (ValidRef(s, x) ==> CaseAt(s', x) == CaseAt(s, x))
    ensures forall x, c: nat, op :: Names(s', x, c, op) == Names(s, x, c, op)
  {
  }

  /** Old entries stay true when the one call that changes was undecided before; `xs` and `ys` are
      the entries it adds on channel `c`. */
  lemma {:induction false} RecordsPersist<T>(s: State<T>, s': State<T>, c: nat, r: Ref, xs: seq<Item<T>>,
      ys: seq<Item<T>>)
    requires Recorded(s) && Open(s, r) && SameShape(s, s')
    requires forall k :: 0 <= k < |s.calls| && k != r.call ==> s'.calls[k] == s.calls[k]
    requires forall d :: 0 <= d < |s.chans| ==>
      && s'.chans[d].closed == s.chans[d].closed
      && s'.chans[d].accepted == s.chans[d].accepted + (if d == c then xs else [])
      && s'.chans[d].delivered == s.chans[d].delivered + (if d == c then ys else [])
    requires |xs| <= 1 && forall x :: x in xs ==> x.who.call == r.call && SentBy(s', c, x)
    requires |ys| <= 1 && forall y :: y in ys ==> y.who.call == r.call && GotBy(s', c, y)
    requires Decided(s'.calls[r.call].phase) && Honest(s', r.call)
    ensures Recorded(s')
  {
    ShapeKeepsCases(s, s');
    forall d, x | 0 <= d < |s.chans| && x in s'.chans[d].accepted ensures SentBy(s', d, x) {
      assert x in s.chans[d].accepted || (d == c && x in xs);
      assert x in s.chans[d].accepted ==> SentBy(s, d, x);
    }
    forall d, x | 0 <= d < |s.chans| && x in s'.chans[d].delivered ensures GotBy(s', d, x) {
      assert x in s.chans[d].delivered || (d == c && x in ys);
      assert x in s.chans[d].delivered ==> GotBy(s, d, x);
    }
    forall k | 0 <= k < |s.calls| && Decided(s'.calls[k].phase) ensures Honest(s', k) {
      assert k != r.call ==> Honest(s, k);
    }
    forall d | 0 <= d < |s.chans|
      ensures DistinctCallers(s'.chans[d].accepted) && DistinctCallers(s'.chans[d].delivered)
    {
      DistinctAppend(s, d, s.chans[d].accepted, if d == c then xs else [], r.call);
      DistinctAppend(s, d, s.chans[d].delivered, if d == c then ys else [], r.call);
    }
  }

  lemma {:induction false} DistinctAppend<T>(s: State<T>, c: nat, items: seq<Item<T>>, more: seq<Item<T>>, k: nat)
    requires DistinctCallers(items) && |more| <= 1 && forall x :: x in more ==> x.who.call == k
    requires k < |s.calls| && !Decided(s.calls[k].phase)
    requires forall x :: x in items ==> SentBy(s, c, x) || GotBy(s, c, x)
    ensures DistinctCallers(items + more)
  {
    var all := items + more;
    forall i, j | 0 <= i < j < |all| ensures all[i].who.call != all[j].who.call {
      assert all[i] == items[i] && items[i] in items;
      assert j >= |items| ==> all[j] in more;
    }
  }

  lemma {:induction false} AcceptBase<T>(s: State<T>, c: nat, r: Ref)
    requires Base(s) && c < |s.chans| && Names(s, r, c, Send) && Open(s, r)
    ensures var s' := Accept(s, c, r);
      && Base(s') && SameShape(s, s')
      && (forall d :: 0 <= d < |s.chans| && d != c ==> Trimmed(s.chans[d], s'.chans[d]))
      && Trimmed(s.chans[c].(accepted := s.chans[c].accepted + [Item(r, CaseAt(s, r).value)]), s'.chans[c])
  {
    var x := Item(r, CaseAt(s, r).value);
    var ch := s.chans[c];
    var t := s.(chans := s.chans[c := ch.(accepted := ch.accepted + [x])]);
    SameQueues(s, t);
    DecideBase(t, r, Sent, None);
    RecordsPersist(s, Accept(s, c, r), c, r, [x], []);
  }

  /** Histories and buffers do not matter to the queues. */
  lemma {:induction false} SameQueues<T>(s: State<T>, t: State<T>)
    requires Linked(s) && InRange(s) && Complete(s)
    requires t.calls == s.calls && |t.chans| == |s.chans|
    requires forall c :: 0 <= c < |s.chans| ==>
      t.chans[c].senders == s.chans[c].senders && t.chans[c].receivers == s.chans[c].receivers
    ensures Linked(t) && InRange(t) && Complete(t)
  {
    assert forall x :: ValidRef(t, x) == ValidRef(s, x) && (ValidRef(s, x) ==> CaseAt(t, x) == CaseAt(s, x));
    assert forall x, c: nat, op :: Names(t, x, c, op) == Names(s, x, c, op);
    assert forall c, op :: 0 <= c < |s.chans| ==> Waiters(t.chans[c], op) == Waiters(s.chans[c], op);
  }

  lemma {:induction false} DeliverBase<T>(s: State<T>, c: nat, r: Ref, v: T)
    requires Base(s) && c < |s.chans| && Names(s, r, c, Recv) && Open(s, r)
    ensures var s' := Deliver(s, c, r, v);
      && Base(s') && SameShape(s, s')
      && (forall d :: 0 <= d < |s.chans| && d != c ==> Trimmed(s.chans[d], s'.chans[d]))
      && Trimmed(s.chans[c].(delivered := s.chans[c].delivered + [Item(r, v)]), s'.chans[c])
  {
    var ch := s.chans[c];
    var t := s.(chans := s.chans[c := ch.(delivered := ch.delivered + [Item(r, v)])]);
    SameQueues(s, t);
    DecideBase(t, r, Value, Some(v));
    RecordsPersist(s, Deliver(s, c, r, v), c, r, [], [Item(r, v)]);
  }

  lemma {:induction false} ShutBase<T>(s: State<T>, c: nat, op: Op, r: Ref)
    requires Base(s) && c < |s.chans| && Names(s, r, c, op) && Open(s, r) && Shut(s, c)
    ensures var s' := Decide(s, r, Closed, None);
      && Base(s') && SameShape(s, s')
      && (forall d :: 0 <= d < |s.chans| ==> Trimmed(s.chans[d], s'.chans[d]))
  {
    DecideBase(s, r, Closed, None);
    RecordsPersist(s, Decide(s, r, Closed, None), c, r, [], []);
  }

  // ---------------------------------------------------------------------------------------------
  // One attempt
  // ---------------------------------------------------------------------------------------------

  /** Calls other than `k` stay as they are or are woken from their sleep. */
  ghost predicate OnlyWakes<T>(s: State<T>, s': State<T>, k: nat) {
    && SameShape(s, s')
    && forall j :: 0 <= j < |s.calls| && j != k ==>
         s'.calls[j] == s.calls[j] || (s.calls[j].phase.Parked? && s'.calls[j].phase.Woken?)
  }

  lemma {:induction false} TrimmedAll<T>(s: State<T>, s': State<T>, c: nat)
    requires |s'.chans| == |s.chans| && forall d :: 0 <= d < |s.chans| && d != c ==> ChanOk(s.chans[d])
    requires forall d :: 0 <= d < |s.chans| && d != c ==> Trimmed(s.chans[d], s'.chans[d])
    ensures forall d :: 0 <= d < |s.chans| && d != c ==> ChanOk(s'.chans[d])
  {
    forall d | 0 <= d < |s.chans| && d != c ensures ChanOk(s'.chans[d]) {
      TrimmedOk(s.chans[d], s'.chans[d]);
    }
  }

  /** One value passes from `from` to `to` without touching the buffer. */
  ghost predicate Passed<T>(ch: Chan<T>, ch': Chan<T>, from: Ref, to: Ref, v: T) {
    Trimmed(ch.(accepted := ch.accepted + [Item(from, v)], delivered := ch.delivered + [Item(to, v)]), ch')
  }

  lemma {:induction false} PassedOk<T>(ch: Chan<T>, ch': Chan<T>, from: Ref, to: Ref, v: T)
    requires ChanOk(ch) && ch.buffer == [] && Passed(ch, ch', from, to, v)
    ensures ChanOk(ch')
  {
    var moved := ch.(accepted := ch.accepted + [Item(from, v)], delivered := ch.delivered + [Item(to, v)]);
    assert Values(moved.accepted) == Values(ch.accepted) + [v];
    assert Values(moved.delivered) == Values(ch.delivered) + [v];
    TrimmedOk(moved, ch');
  }

  lemma {:induction false} HandoffBase<T>(s: State<T>, c: nat, from: Ref, to: Ref)
    requires Base(s) && c < |s.chans|
    requires Names(s, from, c, Send) && Open(s, from)
    requires Names(s, to, c, Recv) && Open(s, to) && from.call != to.call
    ensures var s' := Handoff(s, c, from, to);
      && Base(s')
      && (forall d :: 0 <= d < |s.chans| && d != c ==> Trimmed(s.chans[d], s'.chans[d]))
      && Passed(s.chans[c], s'.chans[c], from, to, CaseAt(s, from).value)
  {
    hide Linked, InRange, Complete, Recorded;
    AcceptBase(s, c, from);
    ShapeKeepsCases(s, Accept(s, c, from));
    DeliverBase(Accept(s, c, from), c, to, CaseAt(s, from).value);
  }

  lemma {:induction false} HandoffKeeps<T>(s: State<T>, c: nat, from: Ref, to: Ref)
    requires Base(s) && ChansOk(s) && c < |s.chans| && s.chans[c].buffer == []
    requires Names(s, from, c, Send) && Open(s, from)
    requires Names(s, to, c, Recv) && Open(s, to) && from.call != to.call
    ensures Base(Handoff(s, c, from, to)) && ChansOk(Handoff(s, c, from, to))
  {
    var s' := Handoff(s, c, from, to);
    HandoffBase(s, c, from, to);
    PassedOk(s.chans[c], s'.chans[c], from, to, CaseAt(s, from).value);
    TrimmedAll(s, s', c);
  }

  /** A sender's value goes to the end of the buffer. */
  ghost predicate Stored<T>(ch: Chan<T>, ch': Chan<T>, from: Ref, v: T) {
    Trimmed(ch.(accepted := ch.accepted + [Item(from, v)], buffer := ch.buffer + [v]), ch')
  }

  /** A receiver gets the oldest value of the buffer. */
  ghost predicate Taken<T>(ch: Chan<T>, ch': Chan<T>, to: Ref) {
    && ch.buffer != []
    && Trimmed(ch.(delivered := ch.delivered + [Item(to, ch.buffer[0])], buffer := ch.buffer[1..]), ch')
  }

  lemma {:induction false} StoredConserved<T>(ch: Chan<T>, ch': Chan<T>, from: Ref, v: T)
    requires Stored(ch, ch', from, v) && Conserved(ch)
    ensures Conserved(ch')
  {
    assert Values(ch'.accepted) == Values(ch.accepted) + [v];
  }

  lemma {:induction false} TakenConserved<T>(ch: Chan<T>, ch': Chan<T>, to: Ref)
    requires Taken(ch, ch', to) && Conserved(ch)
    ensures Conserved(ch')
  {
    assert Values(ch'.delivered) == Values(ch.delivered) + [ch.buffer[0]];
  }

  lemma {:induction false} StoreBase<T>(s: State<T>, c: nat, from: Ref)
    requires Base(s) && c < |s.chans| && Names(s, from, c, Send) && Open(s, from)
    ensures var s' := Store(s, c, from);
      && Base(s')
      && (forall d :: 0 <= d < |s.chans| && d != c ==> Trimmed(s.chans[d], s'.chans[d]))
      && Stored(s.chans[c], s'.chans[c], from, CaseAt(s, from).value)
  {
    var t := SetBuffer(s, c, s.chans[c].buffer + [CaseAt(s, from).value]);
    BufferBase(s, c, t.chans[c].buffer);
    AcceptBase(t, c, from);
  }

  lemma {:induction false} TakeBase<T>(s: State<T>, c: nat, to: Ref)
    requires Base(s) && c < |s.chans| && s.chans[c].buffer != [] && Names(s, to, c, Recv) && Open(s, to)
    ensures var s' := Take(s, c, to);
      && Base(s')
      && (forall d :: 0 <= d < |s.chans| && d != c ==> Trimmed(s.chans[d], s'.chans[d]))
      && Taken(s.chans[c], s'.chans[c], to)
  {
    var t := SetBuffer(s, c, s.chans[c].buffer[1..]);
    BufferBase(s, c, t.chans[c].buffer);
    DeliverBase(t, c, to, s.chans[c].buffer[0]);
  }

  lemma {:induction false} BufferBase<T>(s: State<T>, c: nat, buffer: seq<T>)
    requires Base(s) && c < |s.chans|
    ensures Base(SetBuffer(s, c, buffer))
    ensures forall r: Ref, d: nat, op :: Names(SetBuffer(s, c, buffer), r, d, op) == Names(s, r, d, op)
  {
    var t := SetBuffer(s, c, buffer);
    SameQueues(s, t);
    ShapeKeepsCases(s, t);
    assert forall d, x :: SentBy(t, d, x) == SentBy(s, d, x);
    assert forall d, x :: GotBy(t, d, x) == GotBy(s, d, x);
    forall k | 0 <= k < |t.calls| && Decided(t.calls[k].phase) ensures Honest(t, k) {
      assert Honest(s, k);
    }
  }

  lemma {:induction false} TrySendKeeps<T>(s: State<T>, c: nat, me: Ref)
    requires Base(s) && ChansOk(s) && c < |s.chans| && Names(s, me, c, Send) && s.calls[me.call].phase.Active?
    ensures Base(TrySend(s, c, me)) && ChansOk(TrySend(s, c, me))
  {
    var ch := s.chans[c];
    var s' := TrySend(s, c, me);
    if Shut(s, c) {
      ShutBase(s, c, Send, me);
      TrimmedAll(s, s', |s.chans|);
    } else if ch.receivers != [] {
      assert ch.receivers[0] in Waiters(ch, Recv);
      HandoffKeeps(s, c, me, ch.receivers[0]);
    } else if |ch.buffer| < ch.capacity {
      StoreBase(s, c, me);
      StoredConserved(ch, s'.chans[c], me, CaseAt(s, me).value);
      TrimmedAll(s, s', c);
    }
  }

  lemma {:induction false} TryRecvKeeps<T>(s: State<T>, c: nat, me: Ref)
    requires Base(s) && ChansOk(s) && c < |s.chans| && Names(s, me, c, Recv) && s.calls[me.call].phase.Active?
    ensures Base(TryRecv(s, c, me)) && ChansOk(TryRecv(s, c, me))
  {
    var ch := s.chans[c];
    var s' := TryRecv(s, c, me);
    if ch.buffer != [] {
      TakeKeeps(s, c, me);
    } else if ch.senders != [] {
      assert ch.senders[0] in Waiters(ch, Send);
      HandoffKeeps(s, c, ch.senders[0], me);
    } else if Shut(s, c) {
      ShutBase(s, c, Recv, me);
      TrimmedAll(s, s', |s.chans|);
    }
  }

  lemma {:induction false} TakeKeeps<T>(s: State<T>, c: nat, me: Ref)
    requires Base(s) && ChansOk(s) && c < |s.chans| && Names(s, me, c, Recv) && s.calls[me.call].phase.Active?
    requires s.chans[c].buffer != []
    ensures Base(TryRecv(s, c, me)) && ChansOk(TryRecv(s, c, me))
  {
    hide InRange, Complete, Recorded;
    var ch := s.chans[c];
    var s1 := Take(s, c, me);
    TakeBase(s, c, me);
    TrimmedAll(s, s1, c);
    TakenConserved(ch, s1.chans[c], me);
    if !ch.closed && ch.senders != [] {
      var from := ch.senders[0];
      assert from in Waiters(ch, Send);
      ShapeKeepsCases(s, s1);
      var s2 := Store(s1, c, from);
      StoreBase(s1, c, from);
      StoredConserved(s1.chans[c], s2.chans[c], from, CaseAt(s1, from).value);
      TrimmedAll(s1, s2, c);
      TrimmedOk(ch, ch.(senders := s2.chans[c].senders, receivers := s2.chans[c].receivers));
    }
  }

  lemma {:induction false} TryCaseKeeps<T>(s: State<T>, me: Ref)
    requires Base(s) && ChansOk(s) && ValidRef(s, me) && s.calls[me.call].phase.Active?
    ensures Base(TryCase(s, me)) && ChansOk(TryCase(s, me)) && OnlyWakes(s, TryCase(s, me), me.call)
  {
    match CaseAt(s, me).chan
    case None =>
    case Some(c) =>
      TryCaseWakes(s, me);
      if CaseAt(s, me).op.Send? { TrySendKeeps(s, c, me); } else { TryRecvKeeps(s, c, me); }
  }

  lemma {:induction false} TryCaseWakes<T>(s: State<T>, me: Ref)
    requires Linked(s) && InRange(s) && ValidRef(s, me) && s.calls[me.call].phase.Active?
    ensures OnlyWakes(s, TryCase(s, me), me.call)
  {
    match CaseAt(s, me).chan
    case None =>
    case Some(c) => if CaseAt(s, me).op.Send? { TrySendWakes(s, c, me); } else { TryRecvWakes(s, c, me); }
  }

  lemma {:induction false} TrySendWakes<T>(s: State<T>, c: nat, me: Ref)
    requires Linked(s) && c < |s.chans| && Names(s, me, c, Send) && s.calls[me.call].phase.Active?
    ensures OnlyWakes(s, TrySend(s, c, me), me.call)
  {
    var ch := s.chans[c];
    assert ch.receivers != [] ==> ch.receivers[0] in Waiters(ch, Recv);
  }

  lemma {:induction false} TryRecvWakes<T>(s: State<T>, c: nat, me: Ref)
    requires Linked(s) && c < |s.chans| && Names(s, me, c, Recv) && s.calls[me.call].phase.Active?
    ensures OnlyWakes(s, TryRecv(s, c, me), me.call)
  {
    var ch := s.chans[c];
    assert ch.senders != [] ==> ch.senders[0] in Waiters(ch, Send);
  }

  lemma {:induction false} AttemptKeeps<T>(s: State<T>, k: nat, order: seq<nat>)
    requires Base(s) && ChansOk(s) && k < |s.calls| && s.calls[k].phase.Active?
    requires forall i :: i in order ==> i < |s.calls[k].cases|
    ensures Base(Attempt(s, k, order)) && ChansOk(Attempt(s, k, order)) && OnlyWakes(s, Attempt(s, k, order), k)
  {
    if order == [] {
    } else {
      assert order[0] in order;
      TryCaseKeeps(s, Ref(k, order[0]));
      if TryCase(s, Ref(k, order[0])).calls[k].phase.Active? {
        assert forall i :: i in order[1..] ==> i in order;
        AttemptKeeps(s, k, order[1..]);
      }
    }
  }

  // ---------------------------------------------------------------------------------------------
  // The public operations
  // ---------------------------------------------------------------------------------------------

  lemma {:induction false} BeginBase<T>(s: State<T>, task: Option<nat>, select: bool, cases: seq<Case<T>>)
    requires Base(s) && forall i :: 0 <= i < |cases| && cases[i].chan.Some? ==> cases[i].chan.value < |s.chans|
    ensures Base(Begin(s, task, select, cases))
  {
    hide Recorded;
    var t := Begin(s, task, select, cases);
    BeginRecorded(s, t);
    assert forall x :: ValidRef(s, x) ==> ValidRef(t, x) && CaseAt(t, x) == CaseAt(s, x);
    forall c, op, r | 0 <= c < |t.chans| && r in Waiters(t.chans[c], op)
      ensures Names(t, r, c, op) && t.calls[r.call].phase.Parked?
    {
      assert Names(s, r, c, op);
    }
    forall r, c: nat, op | Names(t, r, c, op) && c < |t.chans| && t.calls[r.call].phase.Parked?
      ensures r in Waiters(t.chans[c], op)
    {
      assert Names(s, r, c, op);
    }
  }

  lemma {:induction false} BeginRecorded<T>(s: State<T>, t: State<T>)
    requires Recorded(s) && t.chans == s.chans && t.shutdown == s.shutdown && |t.calls| == |s.calls| + 1
    requires t.calls[..|s.calls|] == s.calls && t.calls[|s.calls|].phase.Active?
    ensures Recorded(t)
  {
    assert forall k :: 0 <= k < |s.calls| ==> t.calls[k] == s.calls[k];
    forall d, x | 0 <= d < |t.chans| && x in t.chans[d].accepted ensures SentBy(t, d, x) { assert SentBy(s, d, x); }
    forall d, x | 0 <= d < |t.chans| && x in t.chans[d].delivered ensures GotBy(t, d, x) { assert GotBy(s, d, x); }
    forall k | 0 <= k < |t.calls| && Decided(t.calls[k].phase) ensures Honest(t, k) { assert Honest(s, k); }
  }

  /** Changing the phase of an undecided call to something that claims nothing keeps the records. */
  lemma {:induction false} RecordsIgnore<T>(s: State<T>, s': State<T>, k: nat)
    requires Recorded(s) && SameShape(s, s') && k < |s.calls| && !Decided(s.calls[k].phase)
    requires forall j :: 0 <= j < |s.calls| && j != k ==> s'.calls[j] == s.calls[j]
    requires Told(s'.calls[k]).NotFired?
    requires forall d :: 0 <= d < |s.chans| ==>
      && s'.chans[d].closed == s.chans[d].closed
      && s'.chans[d].accepted == s.chans[d].accepted && s'.chans[d].delivered == s.chans[d].delivered
    ensures Recorded(s')
  {
    ShapeKeepsCases(s, s');
    forall d, x | 0 <= d < |s.chans| && x in s'.chans[d].accepted ensures SentBy(s', d, x) { assert SentBy(s, d, x); }
    forall d, x | 0 <= d < |s.chans| && x in s'.chans[d].delivered ensures GotBy(s', d, x) { assert GotBy(s, d, x); }
    forall j | 0 <= j < |s.calls| && Decided(s'.calls[j].phase) ensures Honest(s', j) {
      assert j != k ==> Honest(s, j);
    }
  }

  lemma {:induction false} ReturnBase<T>(s: State<T>, k: nat)
    requires Base(s) && k < |s.calls| && s.calls[k].phase.Active?
    ensures Base(Return(s, k))
  {
    var t := Return(s, k);
    ShapeKeepsCases(s, t);
    RecordsIgnore(s, t, k);
  }

  lemma {:induction false} ParkBase<T>(s: State<T>, k: nat)
    requires Base(s) && k < |s.calls| && s.calls[k].phase.Active?
    ensures Base(Park(s, k))
  {
    var t := Park(s, k);
    var cases := s.calls[k].cases;
    ShapeKeepsCases(s, t);
    RecordsIgnore(s, t, k);
    assert forall c, op :: 0 <= c < |t.chans| ==>
      Waiters(t.chans[c], op) == Waiters(s.chans[c], op) + Regs(k, cases, |cases|, c, op);
    forall x, c: nat, op | Names(t, x, c, op) && c < |t.chans| && t.calls[x.call].phase.Parked?
      ensures x in Waiters(t.chans[c], op)
    {
      assert Names(s, x, c, op);
      if x.call == k { assert x in Regs(k, cases, |cases|, c, op); } else { assert x in Waiters(s.chans[c], op); }
    }
    forall c, op, x | 0 <= c < |t.chans| && x in Waiters(t.chans[c], op)
      ensures Names(t, x, c, op) && t.calls[x.call].phase.Parked?
    {
      assert x in Waiters(s.chans[c], op) || x in Regs(k, cases, |cases|, c, op);
    }
  }

  lemma {:induction false} ParkChanOk<T>(s: State<T>, k: nat, c: nat)
    requires k < |s.calls| && c < |s.chans| && ChanOk(s.chans[c])
    requires forall r :: r in Waiters(s.chans[c], Send) || r in Waiters(s.chans[c], Recv) ==> r.call != k
    requires forall i :: 0 <= i < |s.calls[k].cases| ==> !Ready(s, s.calls[k].cases[i])
    ensures ChanOk(ParkChan(s.chans[c], k, s.calls[k].cases, c))
  {
    var cases := s.calls[k].cases;
    var snd := Regs(k, cases, |cases|, c, Send);
    var rcv := Regs(k, cases, |cases|, c, Recv);
    if snd != [] { assert snd[0] in snd && !Ready(s, cases[snd[0].idx]); }
    if rcv != [] { assert rcv[0] in rcv && !Ready(s, cases[rcv[0].idx]); }
  }

  /** What the caller of a channel operation must respect: channels exist and were not destroyed, the
      calling task is not in the middle of another call, `order` tries every case, and a select
      without cases has a default arm. */
  ghost predicate MayInvoke<T>(s: State<T>, task: Option<nat>, select: bool, cases: seq<Case<T>>, order: seq<nat>,
      blocking: bool) {
    && (forall i :: 0 <= i < |cases| && cases[i].chan.Some? ==>
          cases[i].chan.value < |s.chans| && !s.chans[cases[i].chan.value].destroyed)
    && (forall k :: 0 <= k < |s.calls| && Unfinished(s.calls[k]) ==> s.calls[k].task != task)
    && (forall i :: i in order <==> 0 <= i < |cases|)
    && (select || (|cases| == 1 && cases[0].chan.Some?))
    && (cases == [] ==> !blocking)
  }

  lemma {:induction false} WakesKeepCalls<T>(s: State<T>, s': State<T>, k: nat)
    requires OnlyWakes(s, s', k)
    requires forall j :: 0 <= j < |s.calls| && j != k ==> !s.calls[j].phase.Active?
    requires k < |s.calls| ==> s'.calls[k].phase.Returned?
    requires forall j :: 0 <= j < |s.calls| && j != k && s.calls[j].phase.Parked? ==> !NamesNoChannel(s.calls[j].cases)
    requires forall j :: 0 <= j < |s.calls| && j != k && Unfinished(s.calls[j]) ==> s.calls[j].task.Some?
    requires forall i, j ::
      0 <= i < j < |s.calls| && i != k && j != k && Unfinished(s.calls[i]) && Unfinished(s.calls[j]) ==>
               s.calls[i].task != s.calls[j].task
    requires s.shutdown ==> forall j :: 0 <= j < |s.calls| && j != k ==> !s.calls[j].phase.Parked?
    ensures CallsOk(s') && Quiet(s')
  {
  }

  lemma {:induction false} InvokeKeeps<T>(s: State<T>, task: Option<nat>, select: bool, cases: seq<Case<T>>,
      order: seq<nat>, blocking: bool)
    requires Inv(s) && MayInvoke(s, task, select, cases, order, blocking)
    ensures Trying(Begin(s, task, select, cases), |s.calls|)
    ensures Inv(Invoke(s, task, select, cases, order, blocking))
  {
    hide Linked, InRange, Complete, Recorded, ChanOk;
    var k := |s.calls|;
    var t := Begin(s, task, select, cases);
    BeginBase(s, task, select, cases);
    AttemptKeeps(t, k, order);
    var s1 := Attempt(t, k, order);
    if s1.calls[k].phase.Returned? {
      WakesKeepCalls(t, s1, k);
    } else if !blocking || task.None? || NamesNoChannel(cases) {
      ReturnBase(t, k);
      WakesKeepCalls(t, Return(t, k), k);
    } else {
      ParkKeeps(s, t, k, task, select, cases, order);
    }
  }

  lemma {:induction false} ParkKeeps<T>(s: State<T>, t: State<T>, k: nat, task: Option<nat>, select: bool,
      cases: seq<Case<T>>, order: seq<nat>)
    requires Inv(s) && MayInvoke(s, task, select, cases, order, true) && task.Some? && !NamesNoChannel(cases)
    requires t == Begin(s, task, select, cases) && k == |s.calls| && Base(t)
    requires forall i :: i in order ==> !Ready(t, cases[i])
    ensures Inv(Park(t, k))
  {
    hide InRange, Complete, Recorded;
    ParkBase(t, k);
    forall c | 0 <= c < |t.chans| ensures ChanOk(Park(t, k).chans[c]) {
      ParkChanOk(t, k, c);
    }
    var i :| 0 <= i < |cases| && cases[i].chan.Some?;
    assert !Ready(t, cases[i]);
  }

  // ---------------------------------------------------------------------------------------------
  // Close and shutdown
  // ---------------------------------------------------------------------------------------------

  /** Call `k` was told that channel `c` closed, through a case that waited there. */
  ghost predicate ToldClosed<T>(s: State<T>, k: nat, refs: seq<Ref>)
    requires k < |s.calls|
  {
    s.calls[k].phase.Woken? && exists i :: Ref(k, i) in refs && s.calls[k].phase.outcome == Fired(i, Closed, None)
  }

  lemma {:induction false} DrainBase<T>(s: State<T>, c: nat, refs: seq<Ref>)
    requires Base(s) && c < |s.chans| && s.chans[c].closed
    requires forall r :: r in refs ==> Names(s, r, c, Send) || Names(s, r, c, Recv)
    ensures var s' := DrainClosed(s, refs);
      Base(s') && forall d :: 0 <= d < |s.chans| ==> Trimmed(s.chans[d], s'.chans[d])
    decreases |refs|
  {
    if refs == [] {
    } else {
      var r := refs[0];
      assert r in refs;
      assert forall x :: x in refs[1..] ==> x in refs;
      if s.calls[r.call].phase.Parked? {
        var s1 := Decide(s, r, Closed, None);
        ShutBase(s, c, if Names(s, r, c, Send) then Send else Recv, r);
        ShapeKeepsCases(s, s1);
        DrainBase(s1, c, refs[1..]);
        var s' := DrainClosed(s, refs);
        forall d | 0 <= d < |s.chans| ensures Trimmed(s.chans[d], s'.chans[d]) {
          assert Trimmed(s.chans[d], s1.chans[d]) && Trimmed(s1.chans[d], s'.chans[d]);
        }
      } else {
        DrainBase(s, c, refs[1..]);
      }
    }
  }

  lemma {:induction false} DrainTells<T>(s: State<T>, refs: seq<Ref>)
    requires forall r :: r in refs ==> r.call < |s.calls|
    ensures var s' := DrainClosed(s, refs);
      && (forall r :: r in refs ==> !s'.calls[r.call].phase.Parked?)
      && (forall k :: 0 <= k < |s.calls| ==>
            s'.calls[k] == s.calls[k] || (s.calls[k].phase.Parked? && ToldClosed(s', k, refs)))
    decreases |refs|
  {
    if refs == [] {
    } else {
      var r := refs[0];
      assert r in refs;
      assert forall x :: x in refs <==> x == r || x in refs[1..];
      var s1 := if s.calls[r.call].phase.Parked? then Decide(s, r, Closed, None) else s;
      DrainTells(s1, refs[1..]);
      var s' := DrainClosed(s, refs);
      forall k | 0 <= k < |s.calls|
        ensures s'.calls[k] == s.calls[k] || (s.calls[k].phase.Parked? && ToldClosed(s', k, refs))
      {
        if s'.calls[k] == s1.calls[k] && s1.calls[k] != s.calls[k] { assert Ref(k, r.idx) in refs; }
      }
    }
  }

  /** Closing a channel wakes exactly the calls that waited there, each told so through a case of its
      own on that channel, and leaves every other call alone. */
  lemma {:induction false} CloseTells<T>(s: State<T>, c: nat)
    requires Base(s) && ChansOk(s) && c < |s.chans|
    ensures var s' := Close(s, c);
      forall k :: 0 <= k < |s.calls| ==>
        if s.calls[k].phase.Parked? && WaitsOn(s, k, c)
        then ToldClosed(s', k, s.chans[c].senders + s.chans[c].receivers)
        else s'.calls[k] == s.calls[k]
  {
    var ch := s.chans[c];
    var refs := ch.senders + ch.receivers;
    assert forall r :: r in refs <==> r in Waiters(ch, Send) || r in Waiters(ch, Recv);
    forall k | 0 <= k < |s.calls| && s.calls[k].phase.Parked?
      ensures WaitsOn(s, k, c) <==> exists i :: Ref(k, i) in refs
    {
      if WaitsOn(s, k, c) {
        var i, op :| Names(s, Ref(k, i), c, op);
        assert Ref(k, i) in Waiters(ch, op);
        assert Ref(k, i) in refs;
      }
      if i :| Ref(k, i) in refs {
        assert Names(s, Ref(k, i), c, Send) || Names(s, Ref(k, i), c, Recv);
      }
    }
    if !ch.closed {
      DrainTells(s.(chans := s.chans[c := ch.(closed := true)]), refs);
    }
  }

  ghost predicate WaitsOn<T>(s: State<T>, k: nat, c: nat) {
    exists i, op :: Names(s, Ref(k, i), c, op)
  }

  lemma {:induction false} HasMember(q: seq<Ref>)
    requires q != []
    ensures exists r :: r in q
  {
    assert q[0] in q;
  }

  lemma {:induction false} NoneLeft<T>(s: State<T>, s': State<T>, c: nat, op: Op)
    requires Linked(s') && c < |s.chans| == |s'.chans| && |s'.calls| == |s.calls| && Trimmed(s.chans[c], s'.chans[c])
    requires forall r :: r in Waiters(s.chans[c], op) ==> r.call < |s.calls| && !s'.calls[r.call].phase.Parked?
    ensures Waiters(s'.chans[c], op) == []
  {
    var q := Waiters(s'.chans[c], op);
    assert forall r :: r in q ==> r in Waiters(s.chans[c], op);
    if q != [] { HasMember(q); }
  }

  lemma {:induction false} CloseKeeps<T>(s: State<T>, c: nat)
    requires Base(s) && ChansOk(s) && c < |s.chans|
    ensures var s' := Close(s, c);
      && Base(s') && ChansOk(s') && s'.chans[c].closed && OnlyWakes(s, s', |s.calls|)
      && (forall d :: 0 <= d < |s.chans| && s.chans[d].closed ==> s'.chans[d].closed)
  {
    var ch := s.chans[c];
    if !ch.closed {
      var s1 := s.(chans := s.chans[c := ch.(closed := true)]);
      var refs := ch.senders + ch.receivers;
      var s' := Close(s, c);
      MarkClosedBase(s, c);
      assert forall r :: r in refs <==> r in Waiters(ch, Send) || r in Waiters(ch, Recv);
      DrainBase(s1, c, refs);
      DrainTells(s1, refs);
      NoneLeft(s1, s', c, Send);
      NoneLeft(s1, s', c, Recv);
      TrimmedAll(s1, s', c);
    }
  }

  lemma {:induction false} MarkClosedBase<T>(s: State<T>, c: nat)
    requires Base(s) && c < |s.chans|
    ensures Base(s.(chans := s.chans[c := s.chans[c].(closed := true)]))
    ensures var t := s.(chans := s.chans[c := s.chans[c].(closed := true)]);
      forall r: Ref, d: nat, op :: Names(t, r, d, op) == Names(s, r, d, op)
  {
    var t := s.(chans := s.chans[c := s.chans[c].(closed := true)]);
    SameQueues(s, t);
    ShapeKeepsCases(s, t);
    assert forall d, x :: SentBy(t, d, x) == SentBy(s, d, x);
    assert forall d, x :: GotBy(t, d, x) == GotBy(s, d, x);
    forall k | 0 <= k < |t.calls| && Decided(t.calls[k].phase) ensures Honest(t, k) {
      assert Honest(s, k);
    }
  }

  lemma {:induction false} CloseBelowKeeps<T>(s: State<T>, n: nat)
    requires Base(s) && ChansOk(s) && n <= |s.chans|
    requires forall d :: n <= d < |s.chans| ==> s.chans[d].closed
    ensures var s' := CloseBelow(s, n);
      && Base(s') && ChansOk(s') && OnlyWakes(s, s', |s.calls|)
      && forall d :: 0 <= d < |s.chans| ==> s'.chans[d].closed
    decreases n
  {
    if n == 0 {
    } else {
      CloseKeeps(s, n - 1);
      CloseBelowKeeps(Close(s, n - 1), n - 1);
    }
  }

  /** Every sleeper waits on an open channel, so closing them all leaves none. */
  lemma {:induction false} ClosedMeansAwake<T>(s: State<T>)
    requires Base(s) && ChansOk(s) && forall d :: 0 <= d < |s.chans| ==> s.chans[d].closed
    requires forall k :: 0 <= k < |s.calls| && s.calls[k].phase.Parked? ==> !NamesNoChannel(s.calls[k].cases)
    ensures forall k :: 0 <= k < |s.calls| ==> !s.calls[k].phase.Parked?
  {
    forall k | 0 <= k < |s.calls| ensures !s.calls[k].phase.Parked? {
      if i :| 0 <= i < |s.calls[k].cases| && s.calls[k].cases[i].chan.Some? {
        var r := Ref(k, i);
        assert Names(s, r, CaseAt(s, r).chan.value, CaseAt(s, r).op);
      }
    }
  }

  lemma {:induction false} ShutdownBase<T>(s: State<T>)
    requires Base(s)
    ensures Base(s.(shutdown := true))
  {
    var t := s.(shutdown := true);
    SameQueues(s, t);
    assert forall d, x :: SentBy(t, d, x) == SentBy(s, d, x);
    assert forall d, x :: GotBy(t, d, x) == GotBy(s, d, x);
    forall k | 0 <= k < |t.calls| && Decided(t.calls[k].phase) ensures Honest(t, k) { assert Honest(s, k); }
  }

  lemma {:induction false} ShutdownKeeps<T>(s: State<T>)
    requires Inv(s)
    ensures Inv(Shutdown(s)) && OnlyWakes(s.(shutdown := true), Shutdown(s), |s.calls|)
    ensures forall d :: 0 <= d < |s.chans| ==> Shutdown(s).chans[d].closed
  {
    var t := s.(shutdown := true);
    ShutdownBase(s);
    CloseBelowKeeps(t, |s.chans|);
    ClosedMeansAwake(CloseBelow(t, |s.chans|));
  }

  lemma {:induction false} CreateKeeps<T>(s: State<T>, capacity: nat)
    requires Inv(s)
    ensures Inv(Create(s, capacity))
  {
    var t := Create(s, capacity);
    assert forall x :: ValidRef(t, x) == ValidRef(s, x) && (ValidRef(s, x) ==> CaseAt(t, x) == CaseAt(s, x));
    assert forall x, c: nat, op :: Names(t, x, c, op) == Names(s, x, c, op);
    assert forall c, op :: 0 <= c < |s.chans| ==> Waiters(t.chans[c], op) == Waiters(s.chans[c], op);
    assert forall d, x :: SentBy(t, d, x) == SentBy(s, d, x);
    assert forall d, x :: GotBy(t, d, x) == GotBy(s, d, x);
    forall k | 0 <= k < |t.calls| && Decided(t.calls[k].phase) ensures Honest(t, k) { assert Honest(s, k); }
  }

  lemma {:induction false} DestroyKeeps<T>(s: State<T>, c: nat)
    requires Inv(s) && c < |s.chans|
    ensures Inv(Destroy(s, c)) && Destroy(s, c).calls == s.calls
    ensures s.chans[c].closed <==> Destroy(s, c).chans[c].destroyed
  {
    var t := Destroy(s, c);
    SameQueues(s, t);
    ShapeKeepsCases(s, t);
    assert forall d, x :: SentBy(t, d, x) == SentBy(s, d, x);
    assert forall d, x :: GotBy(t, d, x) == GotBy(s, d, x);
    forall k | 0 <= k < |t.calls| && Decided(t.calls[k].phase) ensures Honest(t, k) { assert Honest(s, k); }
  }

  lemma {:induction false} FinishKeeps<T>(s: State<T>, k: nat)
    requires Inv(s) && k < |s.calls| && s.calls[k].phase.Woken?
    ensures Inv(Finish(s, k))
  {
    hide Linked, InRange, Complete, Recorded, ChanOk;
    FinishBase(s, k);
  }

  lemma {:induction false} FinishBase<T>(s: State<T>, k: nat)
    requires Base(s) && k < |s.calls| && s.calls[k].phase.Woken?
    ensures Base(Finish(s, k))
  {
    var t := Finish(s, k);
    ShapeKeepsCases(s, t);
    forall d, x | 0 <= d < |t.chans| && x in t.chans[d].accepted ensures SentBy(t, d, x) { assert SentBy(s, d, x); }
    forall d, x | 0 <= d < |t.chans| && x in t.chans[d].delivered ensures GotBy(t, d, x) { assert GotBy(s, d, x); }
    forall j | 0 <= j < |t.calls| && Decided(t.calls[j].phase) ensures Honest(t, j) { assert Honest(s, j); }
  }
}
