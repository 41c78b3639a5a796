/** The operations of src/channel.c, on the heap: each leaves the heap standing for what ChannelCode says. */
module ChannelOps {
  import opened Basics
  import opened ChannelTypes
  import opened ChannelSpec
  import opened ChannelCode
  import opened Tasks
  import opened ChannelHeap
  import opened ChannelHub

  datatype SendResult = SendOk | SendClosed | SendWouldBlock
  datatype RecvResult = RecvValue | RecvClosed | RecvEmpty

  /** The call `me` belongs to is in its first critical section, with case `me` at hand. */
  ghost predicate Trying<T>(hub: Hub<T>, ch: Channel<T>, me: Ref)
    reads hub`g, hub`s
  {
    && ch.id < |hub.s.chans| && hub.Mine(ch) && RefsValid(hub.s)
    && ValidRef(hub.s, me) && hub.s.calls[me.call].phase.Active?
  }

  /** wake_waiting_receiver_locked, for the sender `me`. */
  method WakeReceiver<T>(hub: Hub<T>, ch: Channel<T>, value: T, ghost me: Ref) returns (ok: bool)
    requires hub.Valid() && Trying(hub, ch, me) && CaseAt(hub.s, me).value == value
    requires hub.locked
    modifies hub`s, hub`runnable, hub.g.queues, hub.g.waiters, hub.Sleepers()`state, hub.Sleepers()`channelSuccess
    modifies hub.g.states
    ensures hub.Valid()
    ensures var q := DropDead(old(hub.s).chans[ch.id].receivers, old(hub.s).calls);
      && ok == (q != [])
      && hub.s == if q == [] then SetQueue(old(hub.s), ch.id, Recv, [])
                  else MarkGot(MarkSent(SetQueue(old(hub.s), ch.id, Recv, q[1..]), ch.id, me), ch.id, q[0], value)
    ensures hub.Handed()
  {
    hide hub.Valid, Shape, Queues, Steadily;
    var receiver := hub.PopLive(ch, Recv);
    if receiver == null {
      HandsNobody(hub.g.callers, old(hub.s).calls, hub.s.calls, hub.runnable);
      return false;
    }
    hub.AnswerSent(ch.id, me);
    ghost var calls := hub.s.calls;
    HandsNobody(hub.g.callers, old(hub.s).calls, calls, hub.runnable);
    hub.CompleteReceiver(receiver, ch.id, value);
    HandsOn(hub.g.callers, old(hub.s).calls, calls, hub.s.calls, old(hub.runnable), old(hub.runnable), hub.runnable);
    return true;
  }

  /** try_send_locked. */
  method TrySend<T>(hub: Hub<T>, ch: Channel<T>, value: T, ghost me: Ref) returns (result: SendResult)
    requires hub.Valid() && Trying(hub, ch, me) && CaseAt(hub.s, me).value == value
    requires hub.locked
    modifies hub`s, hub`runnable, hub.g.queues, hub.g.waiters, hub.Sleepers()`state, hub.Sleepers()`channelSuccess
    modifies hub.g.states, ch`head, ch`tail, ch`len, ch`contents, ch.buffer
    ensures hub.Valid() && hub.s == TrySendLocked(old(hub.s), ch.id, me) && hub.Handed()
    ensures hub.s.calls[me.call].phase == match result
      case SendOk => Returned(Fired(me.idx, Sent, None))
      case SendClosed => Returned(Fired(me.idx, Closed, None))
      case SendWouldBlock => Active
  {
    hide hub.Valid, Shape, Queues, Steadily;
    ghost var c := ch.id;
    RingAt(hub, ch);
    if ch.closed || hub.shutdown {
      hub.Answer(me, Closed, None);
      HandsNobody(hub.g.callers, old(hub.s).calls, hub.s.calls, hub.runnable);
      return SendClosed;
    }
    var woken := WakeReceiver(hub, ch, value, me);
    if woken {
      return SendOk;
    }
    RingAt(hub, ch);
    if ch.capacity > 0 && ch.len < ch.capacity {
      ghost var calls := hub.s.calls;
      hub.BufferPush(ch, value);
      hub.AnswerSent(c, me);
      HandsNobody(hub.g.callers, calls, hub.s.calls, hub.runnable);
      HandsOn(hub.g.callers, old(hub.s).calls, calls, hub.s.calls, old(hub.runnable), hub.runnable, hub.runnable);
      return SendOk;
    }
    return SendWouldBlock;
  }

  /** What the fields of a channel say. */
  lemma {:induction false} RingAt<T>(hub: Hub<T>, ch: Channel<T>)
    requires hub.Valid() && hub.Mine(ch)
    ensures ch.id < |hub.s.chans| && ch.capacity == hub.s.chans[ch.id].capacity
    ensures ch.closed == hub.s.chans[ch.id].closed
    ensures ch.len == |hub.s.chans[ch.id].buffer| && hub.shutdown == hub.s.shutdown
  {
  }

  /** A sleeping sender's memory still holds the value it offers. */
  lemma {:induction false} SlotAt<T>(hub: Hub<T>, w: Waiter<T>)
    requires hub.Valid() && w in hub.g.waiters && w.op == Send
    ensures ValidRef(hub.s, w.Name()) && w.slot == CaseAt(hub.s, w.Name()).value
  {
    assert Stands(hub.g, hub.s.calls, w);
  }

  /** buffer_one_waiting_sender_locked. */
  method BufferSender<T>(hub: Hub<T>, ch: Channel<T>) returns (ok: bool)
    requires hub.Valid() && hub.Mine(ch) && ch.id < |hub.s.chans| && RefsValid(hub.s)
    requires hub.locked
    modifies hub`s, hub`runnable, hub.g.queues, hub.g.waiters, hub.Sleepers()`state, hub.Sleepers()`channelSuccess
    modifies hub.g.states, ch`head, ch`tail, ch`len, ch`contents, ch.buffer
    ensures hub.Valid() && hub.s == BufferOneSender(old(hub.s), ch.id) && hub.Handed()
    ensures ok <==>
      && |old(hub.s).chans[ch.id].buffer| < ch.capacity
      && DropDead(old(hub.s).chans[ch.id].senders, old(hub.s).calls) != []
  {
    hide hub.Valid, Shape, Queues, Steadily;
    RingAt(hub, ch);
    HandsNobody(hub.g.callers, hub.s.calls, hub.s.calls, hub.runnable);
    if ch.capacity == 0 || ch.len >= ch.capacity {
      return false;
    }
    var sender := hub.PopLive(ch, Send);
    if sender == null {
      return false;
    }
    SlotAt(hub, sender);
    StoreFrom(hub, ch, sender);
    return true;
  }

  method StoreFrom<T>(hub: Hub<T>, ch: Channel<T>, sender: Waiter<T>)
    requires hub.Valid() && hub.Mine(ch) && ch.id < |hub.s.chans|
    requires |hub.s.chans[ch.id].buffer| < hub.s.chans[ch.id].capacity
    requires sender in hub.g.waiters && sender.op == Send && sender.channel == null && ValidRef(hub.s, sender.Name())
    requires hub.s.calls[sender.call].phase.Parked?
    requires hub.locked
    modifies hub`s, hub`runnable, hub.Sleepers()`state, hub.Sleepers()`channelSuccess, hub.g.states
    modifies ch`head, ch`tail, ch`len, ch`contents, ch.buffer
    ensures hub.Valid()
    ensures var buffer := old(hub.s).chans[ch.id].buffer + [CaseAt(old(hub.s), sender.Name()).value];
      hub.s == MarkSent(SetBuffer(old(hub.s), ch.id, buffer), ch.id, sender.Name())
    ensures hub.Handed()
  {
    hide hub.Valid, Shape, Queues, Steadily;
    RingAt(hub, ch);
    SlotAt(hub, sender);
    hub.BufferPush(ch, sender.slot);
    hub.CompleteSender(sender, ch.id);
  }

  /** wake_waiting_sender_direct_locked, for the receiver `me`. */
  method WakeSenderDirect<T>(hub: Hub<T>, ch: Channel<T>, ghost me: Ref) returns (ok: bool, out: Option<T>)
    requires hub.Valid() && Trying(hub, ch, me)
    requires hub.locked
    modifies hub`s, hub`runnable, hub.g.queues, hub.g.waiters, hub.Sleepers()`state, hub.Sleepers()`channelSuccess
    modifies hub.g.states
    ensures hub.Valid()
    ensures ok <==> DropDead(old(hub.s).chans[ch.id].senders, old(hub.s).calls) != []
    ensures ok ==> out.Some? && hub.s == DirectLocked(old(hub.s), ch.id, me)
    ensures ok ==> hub.s.calls[me.call].phase == Returned(Fired(me.idx, Value, out))
    ensures !ok ==> hub.s == SetQueue(old(hub.s), ch.id, Send, []) && out.None?
    ensures hub.Handed()
  {
    hide hub.Valid, Shape, Queues, Steadily;
    var sender := hub.PopLive(ch, Send);
    if sender == null {
      HandsNobody(hub.g.callers, old(hub.s).calls, hub.s.calls, hub.runnable);
      return false, None;
    }
    SlotAt(hub, sender);
    out := Some(sender.slot);
    hub.CompleteSender(sender, ch.id);
    ghost var calls := hub.s.calls;
    hub.AnswerGot(ch.id, me, sender.slot);
    HandsNobody(hub.g.callers, calls, hub.s.calls, hub.runnable);
    HandsOn(hub.g.callers, old(hub.s).calls, calls, hub.s.calls, old(hub.runnable), hub.runnable, hub.runnable);
    return true, out;
  }

  /** try_recv_locked. */
  method TryRecv<T>(hub: Hub<T>, ch: Channel<T>, ghost me: Ref) returns (result: RecvResult, out: Option<T>)
    requires hub.Valid() && Trying(hub, ch, me)
    requires hub.locked
    modifies hub`s, hub`runnable, hub.g.queues, hub.g.waiters, hub.Sleepers()`state, hub.Sleepers()`channelSuccess
    modifies hub.g.states, ch`head, ch`tail, ch`len, ch`contents, ch.buffer
    ensures hub.Valid() && hub.s == TryRecvLocked(old(hub.s), ch.id, me) && hub.Handed()
    ensures result == RecvValue <==> out.Some?
    ensures hub.s.calls[me.call].phase == match result
      case RecvValue => Returned(Fired(me.idx, Value, out))
      case RecvClosed => Returned(Fired(me.idx, Closed, None))
      case RecvEmpty => Active
  {
    hide hub.Valid, Shape, Queues, Steadily;
    RingAt(hub, ch);
    if ch.len > 0 {
      out := Take(hub, ch, me);
      return RecvValue, out;
    }
    var ok;
    ok, out := WakeSenderDirect(hub, ch, me);
    if ok {
      return RecvValue, out;
    }
    RingAt(hub, ch);
    if ch.closed || hub.shutdown {
      ghost var calls := hub.s.calls;
      hub.Answer(me, Closed, None);
      HandsNobody(hub.g.callers, calls, hub.s.calls, hub.runnable);
      HandsOn(hub.g.callers, old(hub.s).calls, calls, hub.s.calls, old(hub.runnable), hub.runnable, hub.runnable);
      return RecvClosed, None;
    }
    return RecvEmpty, None;
  }

  lemma {:induction false} SparesOthers<T>(s: State<T>, c: nat, k: nat)
    requires c < |s.chans| && RefsValid(s) && k < |s.calls| && !s.calls[k].phase.Parked?
    ensures BufferOneSender(s, c).calls[k] == s.calls[k]
  {
  }

  method TakeFirst<T>(hub: Hub<T>, ch: Channel<T>, ghost me: Ref) returns (value: T)
    requires hub.Valid() && Trying(hub, ch, me) && hub.s.chans[ch.id].buffer != []
    requires hub.locked
    modifies hub`s, ch`head, ch`len, ch`contents
    ensures hub.Valid() && value == old(hub.s).chans[ch.id].buffer[0]
    ensures hub.s == MarkGot(SetBuffer(old(hub.s), ch.id, old(hub.s).chans[ch.id].buffer[1..]), ch.id, me, value)
  {
    hide hub.Valid, Shape;
    RingAt(hub, ch);
    value := hub.BufferPop(ch);
    hub.AnswerGot(ch.id, me, value);
  }

  /** The branch of try_recv_locked that takes a buffered value. */
  method Take<T>(hub: Hub<T>, ch: Channel<T>, ghost me: Ref) returns (out: Option<T>)
    requires hub.Valid() && Trying(hub, ch, me) && hub.s.chans[ch.id].buffer != []
    requires hub.locked
    modifies hub`s, hub`runnable, hub.g.queues, hub.g.waiters, hub.Sleepers()`state, hub.Sleepers()`channelSuccess
    modifies hub.g.states, ch`head, ch`tail, ch`len, ch`contents, ch.buffer
    ensures hub.Valid() && hub.s == TakeLocked(old(hub.s), ch.id, me) && hub.Handed()
    ensures out.Some? && hub.s.calls[me.call].phase == Returned(Fired(me.idx, Value, out))
  {
    hide hub.Valid, Shape, BufferOneSender, Queues, Steadily;
    var value := TakeFirst(hub, ch, me);
    RingAt(hub, ch);
    ghost var calls := hub.s.calls;
    HandsNobody(hub.g.callers, old(hub.s).calls, calls, hub.runnable);
    if !ch.closed {
      hub.ValidRefs();
      SparesOthers(hub.s, ch.id, me.call);
      var _ := BufferSender(hub, ch);
      HandsOn(hub.g.callers, old(hub.s).calls, calls, hub.s.calls, old(hub.runnable), old(hub.runnable), hub.runnable);
    }
    return Some(value);
  }

  // ---------------------------------------------------------------------------------------------
  // Closing
  // ---------------------------------------------------------------------------------------------

  /** One round of wake_all_as_closed_locked. */
  method WakeOneAsClosed<T>(hub: Hub<T>, ch: Channel<T>, op: Op) returns (found: bool)
    requires hub.Valid() && hub.Mine(ch) && ch.id < |hub.s.chans| && RefsValid(hub.s)
    requires hub.locked
    modifies hub`s, hub`runnable, hub.g.queues, hub.g.waiters, hub.Sleepers()`state, hub.Sleepers()`channelSuccess
    modifies hub.g.states
    ensures hub.Valid() && found == (Waiters(old(hub.s).chans[ch.id], op) != [])
    ensures hub.s == if found then PopClosed(old(hub.s), ch.id, op) else old(hub.s)
    ensures hub.Handed()
  {
    hide hub.Valid, Shape, Queues, Steadily;
    var w := hub.Pop(ch, op);
    HandsNobody(hub.g.callers, old(hub.s).calls, hub.s.calls, hub.runnable);
    if w == null {
      return false;
    }
    hub.DeadMeans(w);
    if w.state != null {
      if !w.state.done {
        hub.Complete(w, Closed, true, None);
      }
    } else {
      hub.Complete(w, Closed, false, None);
    }
    return true;
  }

  /** wake_all_as_closed_locked. */
  method WakeAll<T>(hub: Hub<T>, ch: Channel<T>, op: Op)
    requires hub.Valid() && hub.Mine(ch) && ch.id < |hub.s.chans| && RefsValid(hub.s)
    requires hub.locked
    modifies hub`s, hub`runnable, hub.g.queues, hub.g.waiters, hub.Sleepers()`state, hub.Sleepers()`channelSuccess
    modifies hub.g.states
    ensures hub.Valid() && RefsValid(hub.s) && hub.s == WakeAllAsClosed(old(hub.s), ch.id, op) && hub.Handed()
  {
    hide hub.Valid, Shape, PopClosed, Queues, Steadily;
    HandsNobody(hub.g.callers, hub.s.calls, hub.s.calls, hub.runnable);
    var more := true;
    while more
      invariant hub.Valid() && ch.id < |hub.s.chans| && RefsValid(hub.s)
      invariant WakeAllAsClosed(hub.s, ch.id, op) == WakeAllAsClosed(old(hub.s), ch.id, op)
      invariant !more ==> Waiters(hub.s.chans[ch.id], op) == []
      invariant hub.Handed()
      decreases more, |Waiters(hub.s.chans[ch.id], op)|
    {
      ghost var calls, log := hub.s.calls, hub.runnable;
      more := WakeOneAsClosed(hub, ch, op);
      HandsOn(hub.g.callers, old(hub.s).calls, calls, hub.s.calls, old(hub.runnable), log, hub.runnable);
      hub.ValidRefs();
    }
  }

  /** channel_close_locked. */
  method CloseChannel<T>(hub: Hub<T>, ch: Channel<T>)
    requires hub.Valid() && hub.Mine(ch) && ch.id < |hub.s.chans| && RefsValid(hub.s)
    requires hub.locked
    modifies hub`s, hub`runnable, hub.g.queues, hub.g.waiters, hub.Sleepers()`state, hub.Sleepers()`channelSuccess
    modifies hub.g.states, ch`closed
    ensures hub.Valid() && RefsValid(hub.s) && hub.s == CloseLocked(old(hub.s), ch.id) && hub.Handed()
  {
    hide hub.Valid, Shape, Queues, Steadily;
    RingAt(hub, ch);
    HandsNobody(hub.g.callers, hub.s.calls, hub.s.calls, hub.runnable);
    if ch.closed {
      return;
    }
    hub.SetClosed(ch);
    hub.ValidRefs();
    WakeAll(hub, ch, Send);
    ghost var calls, log := hub.s.calls, hub.runnable;
    WakeAll(hub, ch, Recv);
    HandsOn(hub.g.callers, old(hub.s).calls, calls, hub.s.calls, old(hub.runnable), log, hub.runnable);
  }

  /** The body of croutine_channel_close. */
  method CloseUnderLock<T>(hub: Hub<T>, ch: Channel<T>)
    requires hub.Valid() && hub.Mine(ch) && ch.id < |hub.s.chans| && RefsValid(hub.s) && !hub.locked
    modifies hub`locked, hub`s, hub`runnable, hub.g.queues, hub.g.waiters, hub.Sleepers()`state
    modifies hub.Sleepers()`channelSuccess, hub.g.states, ch`closed
    ensures hub.Valid() && hub.s == CloseLocked(old(hub.s), ch.id) && hub.Handed() && !hub.locked
  {
    hide hub.Valid, Shape, CloseLocked, RefsValid, Queues, Steadily;
    hub.Lock();
    CloseChannel(hub, ch);
    hub.Unlock();
  }

  /** Closing skips destroyed channels: they are closed already. */
  lemma {:induction false} NextAlive<T>(hub: Hub<T>, n: nat) returns (m: nat)
    requires hub.Valid() && RefsValid(hub.s) && n <= |hub.g.channels| == |hub.s.chans|
    ensures m <= n && Alive(hub.g.channels, m) == Alive(hub.g.channels, n)
    ensures CloseBelowLocked(hub.s, m) == CloseBelowLocked(hub.s, n)
    ensures if m == 0 then Alive(hub.g.channels, n) == []
            else Alive(hub.g.channels, n) == [hub.g.channels[m - 1]] + Alive(hub.g.channels, m - 1)
  {
    hide hub.Valid, RefsValid, Shape;
    m := n;
    if n == 0 {
    } else if hub.g.channels[n - 1].destroyed {
      DestroyedIsClosed(hub, n - 1);
      m := NextAlive(hub, n - 1);
    }
  }

  lemma {:induction false} DestroyedIsClosed<T>(hub: Hub<T>, c: nat)
    requires hub.Valid() && c < |hub.g.channels| && hub.g.channels[c].destroyed
    ensures c < |hub.s.chans| && hub.s.chans[c].closed
  {
  }

  lemma {:induction false} CloseBelowStep<T>(s: State<T>, n: nat)
    requires RefsValid(s) && 0 < n <= |s.chans|
    ensures RefsValid(CloseLocked(s, n - 1)) && CloseBelowLocked(s, n) == CloseBelowLocked(CloseLocked(s, n - 1), n - 1)
  {
    var s1 := CloseLocked(s, n - 1);
    assert forall r :: ValidRef(s1, r) == ValidRef(s, r);
    assert FewerWaiters(s, s1);
  }

  method CloseNext<T>(hub: Hub<T>, ch: Channel<T>, ghost n: nat) returns (ghost m: nat)
    requires hub.Valid() && RefsValid(hub.s) && n <= |hub.g.channels| == |hub.s.chans|
    requires Alive(hub.g.channels, n) != [] && Alive(hub.g.channels, n)[0] == ch
    requires hub.locked
    modifies hub`s, hub`runnable, hub.g.queues, hub.g.waiters, hub.Sleepers()`state, hub.Sleepers()`channelSuccess
    modifies hub.g.states, hub.g.channels`closed
    ensures hub.Valid() && RefsValid(hub.s) && m <= |hub.g.channels| == |hub.s.chans|
    ensures Alive(hub.g.channels, m) == old(Alive(hub.g.channels, n))[1..]
    ensures CloseBelowLocked(hub.s, m) == CloseBelowLocked(old(hub.s), n) && hub.Handed()
  {
    hide hub.Valid, Shape, Alive, CloseLocked, RefsValid, Queues, Steadily;
    Sizes(hub);
    ghost var next := NextAlive(hub, n);
    CloseBelowStep(hub.s, next);
    CloseChannel(hub, ch);
    m := next - 1;
  }

  /** worker_request_shutdown as channels see it: the flag, then croutine_channel_shutdown_all_locked. */
  method ShutdownAll<T>(hub: Hub<T>)
    requires hub.Valid() && RefsValid(hub.s)
    requires hub.locked
    modifies hub`s, hub`shutdown, hub`runnable, hub.g.queues, hub.g.waiters, hub.Sleepers()`state
    modifies hub.Sleepers()`channelSuccess, hub.g.states, hub.g.channels`closed
    ensures hub.Valid() && RefsValid(old(hub.s).(shutdown := true))
    ensures hub.s == CloseBelowLocked(old(hub.s).(shutdown := true), |old(hub.s).chans|) && hub.Handed()
  {
    hide hub.Valid, Shape, CloseBelowLocked, Alive, Queues, Steadily;
    HandsNobody(hub.g.callers, hub.s.calls, hub.s.calls, hub.runnable);
    hub.SetShutdown();
    hub.ValidRefs();
    Sizes(hub);
    ghost var start := hub.s;
    ghost var n: nat := |hub.g.channels|;
    var i := 0;
    while i < |hub.registry|
      invariant hub.Valid() && RefsValid(hub.s) && 0 <= i <= |hub.registry| && n <= |hub.g.channels| == |hub.s.chans|
      invariant hub.registry[i..] == Alive(hub.g.channels, n)
      invariant CloseBelowLocked(hub.s, n) == CloseBelowLocked(start, |start.chans|) && hub.Handed()
    {
      ghost var calls, log := hub.s.calls, hub.runnable;
      assert hub.registry[i] == hub.registry[i..][0] && hub.registry[i..][1..] == hub.registry[i + 1..];
      n := CloseNext(hub, hub.registry[i], n);
      HandsOn(hub.g.callers, old(hub.s).calls, calls, hub.s.calls, old(hub.runnable), log, hub.runnable);
      i := i + 1;
    }
    NothingLeft(hub, n);
  }

  lemma {:induction false} NothingLeft<T>(hub: Hub<T>, n: nat)
    requires hub.Valid() && RefsValid(hub.s) && n <= |hub.g.channels| == |hub.s.chans| && Alive(hub.g.channels, n) == []
    ensures CloseBelowLocked(hub.s, n) == hub.s
  {
    var m := NextAlive(hub, n);
  }

  lemma {:induction false} Sizes<T>(hub: Hub<T>)
    requires hub.Valid()
    ensures |hub.g.channels| == |hub.s.chans| && hub.registry == Alive(hub.g.channels, |hub.g.channels|)
    ensures forall c :: 0 <= c < |hub.g.channels| ==> hub.g.channels[c].id == c
  {
  }
}
