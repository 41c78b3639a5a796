/** The public calls of src/channel.c on the heap: send, receive, their non-blocking forms and select, up to
    the point where the caller has its answer or sleeps, and from the wake to the return. */
module ChannelCalls {
  import opened Basics
  import opened ChannelTypes
  import opened ChannelSpec
  import opened ChannelCode
  import opened Tasks
  import opened ChannelHeap
  import opened ChannelHub
  import opened ChannelOps

  // ---------------------------------------------------------------------------------------------
  // Parking, one case at a time
  // ---------------------------------------------------------------------------------------------

  ghost function ParkingChan<T>(ch: Chan<T>, k: nat, cases: seq<Case<T>>, n: nat, c: nat): Chan<T>
    requires n <= |cases|
  {
    ch.(senders := ch.senders + Regs(k, cases, n, c, Send), receivers := ch.receivers + Regs(k, cases, n, c, Recv))
  }

  /** Call `k` sleeps and its first `n` cases have their waiters linked. */
  ghost function Parking<T>(s: State<T>, k: nat, n: nat): State<T>
    requires k < |s.calls| && n <= |s.calls[k].cases|
  {
    var cases := s.calls[k].cases;
    s.(calls := s.calls[k := s.calls[k].(phase := Parked)],
       chans := seq(|s.chans|, c requires 0 <= c < |s.chans| => ParkingChan(s.chans[c], k, cases, n, c)))
  }

  lemma {:induction false} ParkingEnds<T>(s: State<T>, k: nat)
    requires k < |s.calls|
    ensures Parking(s, k, 0) == Asleeping(s, k) && Parking(s, k, |s.calls[k].cases|) == Park(s, k)
  {
    var none, all := Parking(s, k, 0), Parking(s, k, |s.calls[k].cases|);
    assert none.chans == s.chans by {
      assert forall c :: 0 <= c < |s.chans| ==> none.chans[c] == s.chans[c];
    }
    assert all.chans == Park(s, k).chans;
  }

  lemma {:induction false} ParkingStep<T>(s: State<T>, k: nat, n: nat)
    requires k < |s.calls| && n < |s.calls[k].cases|
    ensures match s.calls[k].cases[n].chan
      case None => Parking(s, k, n + 1) == Parking(s, k, n)
      case Some(c) => c < |s.chans| ==>
        var op := s.calls[k].cases[n].op;
        Parking(s, k, n + 1) == SetQueue(Parking(s, k, n), c, op, Waiters(Parking(s, k, n).chans[c], op) + [Ref(k, n)])
  {
    var cases := s.calls[k].cases;
    var op := cases[n].op;
    if cases[n].chan.None? || cases[n].chan.value < |s.chans| {
      var was := Parking(s, k, n);
      var after := if cases[n].chan.None? then was
        else SetQueue(was, cases[n].chan.value, op, Waiters(was.chans[cases[n].chan.value], op) + [Ref(k, n)]);
      forall d: nat | d < |s.chans| ensures Parking(s, k, n + 1).chans[d] == after.chans[d] {
        OneMore(s.chans[d], k, cases, n, d);
      }
      assert Parking(s, k, n + 1).chans == after.chans;
    }
  }

  lemma {:induction false} OneMore<T>(ch: Chan<T>, k: nat, cases: seq<Case<T>>, n: nat, c: nat)
    requires n < |cases|
    ensures var was := ParkingChan(ch, k, cases, n, c);
      ParkingChan(ch, k, cases, n + 1, c) ==
        if cases[n].chan != Some(c) then was
        else if cases[n].op.Send? then was.(senders := was.senders + [Ref(k, n)])
        else was.(receivers := was.receivers + [Ref(k, n)])
  {
    assert ch.senders + (Regs(k, cases, n, c, Send) + [Ref(k, n)]) ==
           ch.senders + Regs(k, cases, n, c, Send) + [Ref(k, n)];
    assert ch.receivers + (Regs(k, cases, n, c, Recv) + [Ref(k, n)]) ==
           ch.receivers + Regs(k, cases, n, c, Recv) + [Ref(k, n)];
  }

  // ---------------------------------------------------------------------------------------------
  // Going to sleep
  // ---------------------------------------------------------------------------------------------

  /** croutine_select_case, or the channel and value of a regular call. */
  datatype Arm<T> = Arm(channel: Channel?<T>, op: Op, value: T)

  ghost function CaseOf<T>(arm: Arm<T>): Case<T> {
    Case(if arm.channel == null then None else Some(arm.channel.id), arm.op, arm.value)
  }

  ghost function CasesOf<T>(arms: seq<Arm<T>>): (cases: seq<Case<T>>)
    ensures |cases| == |arms|
  {
    seq(|arms|, i requires 0 <= i < |arms| => CaseOf(arms[i]))
  }

  lemma {:induction false} NoLinks<T>(hub: Hub<T>, k: nat)
    requires hub.Valid() && k < |hub.s.calls| && hub.s.calls[k].phase.Active?
    ensures forall r :: r in hub.g.links ==> r.call != k
  {
    forall r | r in hub.g.links ensures r.call != k {
      assert Stands(hub.g, hub.s.calls, hub.g.links[r]);
    }
  }

  /** The waiters of call `k` that exist are those of its first `n` cases. */
  ghost predicate Enlisting<T>(hub: Hub<T>, task: Task, state: SelectState?, arms: seq<Arm<T>>, k: nat, n: nat,
      start: State<T>)
    reads hub`registry, hub`shutdown, hub`g, hub`s, hub.g.channels, hub.g.buffers, hub.g.queues
    reads hub.g.waiters, hub.g.tasks, hub.g.states
  {
    && hub.Valid() && k < |start.calls| && start.calls[k].cases == CasesOf(arms) && n <= |arms|
    && hub.s == Parking(start, k, n)
    && |hub.g.callers| == |hub.g.selects| == |hub.s.calls| && hub.g.callers[k] == task && hub.g.selects[k] == state
    && (forall r :: r in hub.g.links && r.call == k ==> r.idx < n) && (state == null ==> |arms| == 1)
    && (forall i :: 0 <= i < |arms| && arms[i].channel != null ==> hub.Mine(arms[i].channel))
  }

  /** One round of the loop that registers the waiters of a select; a regular call has one. */
  method Enlist<T>(hub: Hub<T>, task: Task, state: SelectState?, arms: seq<Arm<T>>, n: nat, ghost k: nat,
      ghost start: State<T>)
    returns (w: Waiter<T>)
    requires n < |arms| && Enlisting(hub, task, state, arms, k, n, start)
    requires hub.locked
    modifies hub`g, hub`s, hub.g.queues, hub.g.waiters
    ensures Enlisting(hub, task, state, arms, k, n + 1, start) && fresh(w) && hub.g == WithWaiter(old(hub.g), w)
    ensures w.Name() == Ref(k, n)
  {
    hide hub.Valid, Shape, Parking;
    var arm := arms[n];
    Sizes(hub);
    ParkingStep(start, k, n);
    ParkingCalls(start, k, n);
    assert CasesOf(arms)[n] == CaseOf(arm);
    w := hub.NewWaiter(arm.op, task, state, n, arm.value, k);
    if arm.channel != null {
      hub.Push(arm.channel, w);
    }
  }

  lemma {:induction false} ParkingCalls<T>(s: State<T>, k: nat, n: nat)
    requires k < |s.calls| && n <= |s.calls[k].cases|
    ensures Parking(s, k, n).calls == s.calls[k := s.calls[k].(phase := Parked)]
    ensures |Parking(s, k, n).chans| == |s.chans|
  {
  }

  ghost predicate Mustered<T>(hub: Hub<T>, ws: seq<Waiter<T>>, k: nat)
    reads hub`g, hub`s
  {
    forall i :: 0 <= i < |ws| ==> ws[i] in hub.g.waiters && ws[i].Name() == Ref(k, i)
  }

  /** The calling task, if there is one. */
  ghost function Self(task: Task?): set<Task> {
    if task == null then {} else {task}
  }

  /** A call that does not sleep leaves its own task alone. */
  twostate predicate Kept(task: Task?)
    reads Self(task)`state, Self(task)`channelSuccess, Self(task)`call
  {
    task != null ==>
      task.state == old(task.state) && task.channelSuccess == old(task.channelSuccess) && task.call == old(task.call)
  }

  /** The task runs, and makes no other call at the moment. */
  ghost predicate Free<T>(hub: Hub<T>, task: Task)
    reads hub`g, hub`s, task`state
  {
    && task.state == Runnable && task in hub.g.tasks && |hub.g.callers| == |hub.s.calls|
    && forall j :: 0 <= j < |hub.s.calls| && hub.g.callers[j] == task ==>
         !hub.s.calls[j].phase.Parked? && !hub.s.calls[j].phase.Woken?
  }

  lemma {:induction false} CallSizes<T>(hub: Hub<T>)
    requires hub.Valid()
    ensures |hub.g.callers| == |hub.g.selects| == |hub.s.calls|
  {
  }

  /** Call `k` got its select state; waiters and select states may have been added. */
  ghost predicate Settled<T>(g: World<T>, g': World<T>, k: nat, state: SelectState?)
    requires k < |g.selects|
  {
    && g' == g.(selects := g.selects[k := state], states := g'.states, waiters := g'.waiters, links := g'.links)
    && g.states <= g'.states && g.waiters <= g'.waiters
  }

  lemma {:induction false} SettledCallers<T>(g: World<T>, g': World<T>, k: nat)
    requires g' == g || (k < |g.selects| && k < |g'.selects| && Settled(g, g', k, g'.selects[k]))
    ensures g'.callers == g.callers
  {
  }

  method ParkStart<T>(hub: Hub<T>, task: Task, select: bool, arms: seq<Arm<T>>, ghost k: nat)
    returns (state: SelectState?)
    requires hub.Valid() && k < |hub.s.calls| && hub.s.calls[k].phase.Active? && hub.s.calls[k].cases == CasesOf(arms)
    requires Free(hub, task) && hub.g.callers[k] == task && (!select ==> |arms| == 1)
    requires forall i :: 0 <= i < |arms| && arms[i].channel != null ==> hub.Mine(arms[i].channel)
    requires hub.locked
    modifies hub`g, hub`s, task`state, task`channelSuccess, task`call
    ensures Enlisting(hub, task, state, arms, k, 0, old(hub.s)) && (state != null <==> select)
    ensures k < |old(hub.g).selects| && Settled(old(hub.g), hub.g, k, state) && hub.g.waiters == old(hub.g.waiters)
    ensures fresh(hub.g.states - old(hub.g.states))
  {
    hide hub.Valid, Shape, Parking, Park;
    ParkingEnds(hub.s, k);
    NoLinks(hub, k);
    CallSizes(hub);
    state := hub.Sleep(task, select, k);
    CallSizes(hub);
  }

  /** The end of a blocking call that could not be decided: the task sleeps with one waiter per case. */
  method ParkCall<T>(hub: Hub<T>, task: Task, select: bool, arms: seq<Arm<T>>, ghost k: nat)
    returns (state: SelectState?, ws: seq<Waiter<T>>)
    requires hub.Valid() && k < |hub.s.calls| && hub.s.calls[k].phase.Active? && hub.s.calls[k].cases == CasesOf(arms)
    requires Free(hub, task) && hub.g.callers[k] == task && (!select ==> |arms| == 1)
    requires forall i :: 0 <= i < |arms| && arms[i].channel != null ==> hub.Mine(arms[i].channel)
    requires hub.locked
    modifies hub`g, hub`s, hub.g.queues, hub.g.waiters, task`state, task`channelSuccess, task`call
    ensures hub.Valid() && hub.s == Park(old(hub.s), k) && (state != null <==> select)
    ensures |ws| == |arms| && Mustered(hub, ws, k)
    ensures k < |old(hub.g).selects| && Settled(old(hub.g), hub.g, k, state)
    ensures fresh(hub.g.waiters - old(hub.g.waiters)) && fresh(hub.g.states - old(hub.g.states))
  {
    hide hub.Valid, Shape, Parking, Park, hub.Mine, Enlisting;
    state := ParkStart(hub, task, select, arms, k);
    ws := [];
    while |ws| < |arms|
      invariant |ws| <= |arms| && Enlisting(hub, task, state, arms, k, |ws|, old(hub.s)) && Mustered(hub, ws, k)
      invariant Settled(old(hub.g), hub.g, k, state)
      invariant fresh(hub.g.waiters - old(hub.g.waiters)) && fresh(hub.g.states - old(hub.g.states))
    {
      var w := Enlist(hub, task, state, arms, |ws|, k, old(hub.s));
      ws := ws + [w];
    }
    Enlisted(hub, task, state, arms, k, old(hub.s));
  }

  lemma {:induction false} Enlisted<T>(hub: Hub<T>, task: Task, state: SelectState?, arms: seq<Arm<T>>, k: nat,
      start: State<T>)
    requires Enlisting(hub, task, state, arms, k, |arms|, start)
    ensures hub.Valid() && k < |start.calls| && hub.s == Park(start, k)
  {
    ParkingEnds(start, k);
  }

  // ---------------------------------------------------------------------------------------------
  // Trying the cases
  // ---------------------------------------------------------------------------------------------

  /** What a call tells its caller without sleeping. */
  datatype Reply<T> = Nothing | Fires(idx: nat, status: Status, got: Option<T>)

  ghost predicate Replies<T>(phase: Phase<T>, r: Reply<T>) {
    match r
    case Nothing => phase.Active?
    case Fires(idx, status, got) => phase == Returned(Fired(idx, status, got))
  }

  /** Call `k` is in its first critical section with these arms. */
  ghost predicate AtWork<T>(hub: Hub<T>, arms: seq<Arm<T>>, k: nat)
    reads hub`g, hub`s
  {
    && RefsValid(hub.s) && InRange(hub.s) && k < |hub.s.calls| && hub.s.calls[k].phase.Active?
    && hub.s.calls[k].cases == CasesOf(arms)
    && forall i :: 0 <= i < |arms| && arms[i].channel != null ==>
         hub.Mine(arms[i].channel) && arms[i].channel.id < |hub.s.chans|
  }

  /** try_select_case_locked. */
  method TryArm<T>(hub: Hub<T>, arms: seq<Arm<T>>, i: nat, ghost k: nat) returns (r: Reply<T>)
    requires hub.Valid() && AtWork(hub, arms, k) && i < |arms|
    requires hub.locked
    modifies hub`s, hub`runnable, hub.g.queues, hub.g.waiters, hub.Sleepers()`state, hub.Sleepers()`channelSuccess
    modifies hub.g.states
    modifies hub.g.channels`head, hub.g.channels`tail, hub.g.channels`len, hub.g.channels`contents, hub.g.buffers
    ensures hub.Valid() && hub.s == TryCaseLocked(old(hub.s), Ref(k, i)) && hub.Handed()
    ensures Replies(hub.s.calls[k].phase, r) && (r.Fires? ==> r.idx == i)
  {
    hide hub.Valid, Shape, TrySendLocked, TryRecvLocked, InRange, RefsValid, Queues, Steadily;
    var arm := arms[i];
    ghost var me := Ref(k, i);
    assert CasesOf(arms)[i] == CaseOf(arm);
    if arm.channel == null {
      HandsNobody(hub.g.callers, hub.s.calls, hub.s.calls, hub.runnable);
      return Nothing;
    }
    Footprint(hub, arm.channel);
    if arm.op.Send? {
      var sent := ChannelOps.TrySend(hub, arm.channel, arm.value, me);
      match sent
      case SendOk => return Fires(i, Sent, None);
      case SendClosed => return Fires(i, Closed, None);
      case SendWouldBlock => return Nothing;
    }
    var got, out := ChannelOps.TryRecv(hub, arm.channel, me);
    match got
    case RecvValue => return Fires(i, Value, out);
    case RecvClosed => return Fires(i, Closed, None);
    case RecvEmpty => return Nothing;
  }

  lemma {:induction false} Footprint<T>(hub: Hub<T>, ch: Channel<T>)
    requires hub.Valid() && hub.Mine(ch)
    ensures ch in hub.g.channels && ch.buffer in hub.g.buffers
  {
  }

  /** A case that does not fire changes no call. */
  lemma {:induction false} QuietCase<T>(s: State<T>, me: Ref)
    requires RefsValid(s) && ValidRef(s, me) && (CaseAt(s, me).chan.Some? ==> CaseAt(s, me).chan.value < |s.chans|)
    requires s.calls[me.call].phase.Active? && TryCaseLocked(s, me).calls[me.call].phase.Active?
    ensures TryCaseLocked(s, me).calls == s.calls && |TryCaseLocked(s, me).chans| == |s.chans|
  {
  }

  lemma {:induction false} Grounds<T>(hub: Hub<T>)
    requires hub.Valid()
    ensures RefsValid(hub.s) && InRange(hub.s)
  {
    hub.ValidRefs();
  }

  /** Phase A of croutine_select: the cases in the given order until one fires. */
  method TryAll<T>(hub: Hub<T>, arms: seq<Arm<T>>, order: seq<nat>, ghost k: nat) returns (r: Reply<T>)
    requires hub.Valid() && AtWork(hub, arms, k) && forall i :: i in order ==> i < |arms|
    requires hub.locked
    modifies hub`s, hub`runnable, hub.g.queues, hub.g.waiters, hub.Sleepers()`state, hub.Sleepers()`channelSuccess
    modifies hub.g.states
    modifies hub.g.channels`head, hub.g.channels`tail, hub.g.channels`len, hub.g.channels`contents, hub.g.buffers
    ensures hub.Valid() && hub.s == AttemptLocked(old(hub.s), k, order) && Replies(hub.s.calls[k].phase, r)
    ensures r.Nothing? ==> hub.s.calls == old(hub.s).calls && AtWork(hub, arms, k)
    ensures hub.Handed()
  {
    hide hub.Valid, Shape, TryCaseLocked, InRange, RefsValid, hub.Mine, Queues, Steadily;
    HandsNobody(hub.g.callers, hub.s.calls, hub.s.calls, hub.runnable);
    var i := 0;
    while i < |order|
      invariant 0 <= i <= |order| && hub.Valid() && AtWork(hub, arms, k) && hub.s.calls == old(hub.s).calls
      invariant forall j :: j in order[i..] ==> j < |arms|
      invariant AttemptLocked(hub.s, k, order[i..]) == AttemptLocked(old(hub.s), k, order)
      invariant hub.Handed()
    {
      assert order[i..][0] == order[i] && order[i] in order && order[i..][1..] == order[i + 1..];
      assert forall j :: j in order[i..][1..] ==> j in order[i..];
      ghost var s, log := hub.s, hub.runnable;
      assert ValidRef(s, Ref(k, order[i])) && CasesOf(arms)[order[i]] == CaseOf(arms[order[i]]);
      r := TryArm(hub, arms, order[i], k);
      HandsOn(hub.g.callers, old(hub.s).calls, s.calls, hub.s.calls, old(hub.runnable), log, hub.runnable);
      if r.Fires? {
        return;
      }
      QuietCase(s, Ref(k, order[i]));
      Grounds(hub);
      i := i + 1;
    }
    return Nothing;
  }

  // ---------------------------------------------------------------------------------------------
  // The public calls
  // ---------------------------------------------------------------------------------------------

  /** The caller has its answer, or its task sleeps until somebody answers. */
  datatype Progress<T> = Told(reply: Reply<T>) | Sleeps(state: SelectState?, waiters: seq<Waiter<T>>)

  /** What a caller must respect: its channels exist and were not destroyed, and it is a thread without a task
      or a task that makes no other call. */
  ghost predicate MayCall<T>(hub: Hub<T>, task: Task?, arms: seq<Arm<T>>)
    reads hub`g, hub`s, Self(task)`state
  {
    && (task != null ==> Free(hub, task))
    && forall i :: 0 <= i < |arms| && arms[i].channel != null ==>
         hub.Mine(arms[i].channel) && arms[i].channel.id < |hub.s.chans| && !hub.s.chans[arms[i].channel.id].destroyed
  }

  ghost method Open<T>(hub: Hub<T>, task: Task?, select: bool, arms: seq<Arm<T>>)
    requires hub.Valid() && MayCall(hub, task, arms)
    modifies hub`g, hub`s
    ensures hub.Valid() && AtWork(hub, arms, |old(hub.s).calls|)
    ensures hub.s == Begin(old(hub.s), IdOf(task), select, CasesOf(arms))
    ensures task != null ==> Free(hub, task) && hub.g.callers[|old(hub.s).calls|] == task
    ensures hub.g == old(hub.g).(callers := old(hub.g).callers + [task], selects := old(hub.g).selects + [null])
  {
    hide hub.Valid, Shape, RefsValid, InRange;
    CallSizes(hub);
    hub.Begin(task, select, CasesOf(arms));
    Grounds(hub);
  }

  /** The caller learns what became of its call. */
  ghost predicate Tells<T>(phase: Phase<T>, p: Progress<T>) {
    match p
    case Told(Nothing) => phase == Returned(NotFired)
    case Told(Fires(idx, status, got)) => phase == Returned(Fired(idx, status, got))
    case Sleeps(_, _) => phase.Parked?
  }

  ghost predicate Progressed<T>(hub: Hub<T>, k: nat, arms: seq<Arm<T>>, select: bool, p: Progress<T>)
    reads hub`g, hub`s
  {
    && k < |hub.s.calls| && Tells(hub.s.calls[k].phase, p)
    && (p.Sleeps? ==>
          && (p.state != null <==> select) && |p.waiters| == |arms| && Mustered(hub, p.waiters, k)
          && k < |hub.g.selects| && hub.g.selects[k] == p.state)
  }

  lemma {:induction false} NoChannels<T>(arms: seq<Arm<T>>)
    ensures NamesNoChannel(CasesOf(arms)) <==> forall i :: 0 <= i < |arms| ==> arms[i].channel == null
  {
    assert forall i :: 0 <= i < |arms| ==> CasesOf(arms)[i] == CaseOf(arms[i]);
  }

  /** No case could proceed: the default arm, for whoever cannot wait, or sleep. */
  method Wait<T>(hub: Hub<T>, task: Task?, select: bool, arms: seq<Arm<T>>, blocking: bool, ghost k: nat)
    returns (p: Progress<T>)
    requires hub.Valid() && AtWork(hub, arms, k) && hub.locked
    requires (task != null ==> Free(hub, task) && hub.g.callers[k] == task) && (!select ==> |arms| == 1)
    modifies hub`locked, hub`g, hub`s, hub.g.queues, hub.g.waiters
    modifies Self(task)`state, Self(task)`channelSuccess, Self(task)`call
    ensures hub.Valid() && Progressed(hub, k, arms, select, p) && (hub.locked <==> p.Sleeps?)
    ensures hub.g == old(hub.g) || (k < |old(hub.g).selects| && Settled(old(hub.g), hub.g, k, hub.g.selects[k]))
    ensures fresh(hub.g.waiters - old(hub.g.waiters)) && fresh(hub.g.states - old(hub.g.states))
    ensures
      hub.s ==
      if !blocking || task == null || NamesNoChannel(CasesOf(arms)) then Return(old(hub.s), k) else Park(old(hub.s), k)
    ensures !p.Sleeps? ==> Kept(task)
  {
    hide hub.Valid, Shape, RefsValid, InRange, hub.Mine, Mustered, CasesOf;
    NoChannels(arms);
    if !blocking || task == null || forall i :: 0 <= i < |arms| ==> arms[i].channel == null {
      hub.GiveUp(k);
      hub.Unlock();
      return Told(Nothing);
    }
    var state, ws := ParkCall(hub, task, select, arms, k);
    return Sleeps(state, ws);
  }

  /** From the first critical section on: the answer, or sleep.  Every way to an answer gives the lock back; a task
      that sleeps takes it along into the switch. */
  method Proceed<T>(hub: Hub<T>, task: Task?, select: bool, arms: seq<Arm<T>>, order: seq<nat>, blocking: bool,
      ghost k: nat)
    returns (p: Progress<T>)
    requires hub.Valid() && AtWork(hub, arms, k) && hub.locked && forall i :: i in order ==> i < |arms|
    requires (task != null ==> Free(hub, task) && hub.g.callers[k] == task) && (!select ==> |arms| == 1)
    modifies hub`locked, hub`g, hub`s, hub`runnable, hub.g.queues, hub.g.waiters, hub.g.states
    modifies hub.Sleepers()`state, hub.Sleepers()`channelSuccess
    modifies Self(task)`state, Self(task)`channelSuccess, Self(task)`call
    modifies hub.g.channels`head, hub.g.channels`tail, hub.g.channels`len, hub.g.channels`contents, hub.g.buffers
    ensures hub.Valid() && Progressed(hub, k, arms, select, p) && (hub.locked <==> p.Sleeps?)
    ensures hub.g == old(hub.g) || (k < |old(hub.g).selects| && Settled(old(hub.g), hub.g, k, hub.g.selects[k]))
    ensures fresh(hub.g.waiters - old(hub.g.waiters)) && fresh(hub.g.states - old(hub.g.states))
    ensures var s1 := AttemptLocked(old(hub.s), k, order);
      hub.s == if s1.calls[k].phase.Returned? then s1
               else if !blocking || task == null || NamesNoChannel(CasesOf(arms)) then Return(s1, k)
               else Park(s1, k)
    ensures Queues(hub.g.callers, old(hub.s).calls, hub.s.calls, old(hub.runnable), hub.runnable)
    ensures !p.Sleeps? ==> Kept(task)
  {
    hide hub.Valid, Shape, AttemptLocked, RefsValid, InRange, hub.Mine, Mustered, CasesOf, Settled, Queues, Steadily;
    var reply := TryAll(hub, arms, order, k);
    if reply.Fires? {
      hub.Unlock();
      return Told(reply);
    }
    ghost var calls, callers := hub.s.calls, hub.g.callers;
    p := Wait(hub, task, select, arms, blocking, k);
    CallSizes(hub);
    SettledCallers(old(hub.g), hub.g, k);
    HandsActive(callers, old(hub.s).calls, calls, hub.s.calls, old(hub.runnable), hub.runnable, k);
  }

  /** Any public call up to its answer or its sleep. */
  method Call<T>(hub: Hub<T>, task: Task?, select: bool, arms: seq<Arm<T>>, order: seq<nat>, blocking: bool)
    returns (p: Progress<T>)
    requires hub.Valid() && MayCall(hub, task, arms) && (!select ==> |arms| == 1)
    requires forall i :: i in order ==> i < |arms|
    requires !hub.locked
    modifies hub`locked, hub`g, hub`s, hub`runnable, hub.g.queues, hub.g.waiters, hub.g.states
    modifies hub.Sleepers()`state, hub.Sleepers()`channelSuccess
    modifies Self(task)`state, Self(task)`channelSuccess, Self(task)`call
    modifies hub.g.channels`head, hub.g.channels`tail, hub.g.channels`len, hub.g.channels`contents, hub.g.buffers
    ensures hub.Valid() && Progressed(hub, |old(hub.s).calls|, arms, select, p) && hub.CallAdded()
    ensures hub.locked <==> p.Sleeps?
    ensures var begun := Begin(old(hub.s), IdOf(task), select, CasesOf(arms));
      && RefsValid(begun) && InRange(begun)
      && hub.s == InvokeLocked(old(hub.s), IdOf(task), select, CasesOf(arms), order, blocking)
    ensures Queues(hub.g.callers, old(hub.s).calls, hub.s.calls, old(hub.runnable), hub.runnable)
    ensures !p.Sleeps? ==> Kept(task)
  {
    hide hub.Valid, Shape, AttemptLocked, RefsValid, InRange, hub.Mine, Queues, Steadily, Progressed, MayCall, Free,
      CasesOf, NamesNoChannel;
    ghost var k := |hub.s.calls|;
    CallSizes(hub);
    hub.Lock();
    Open(hub, task, select, arms);
    ghost var begun := hub.s.calls;
    p := Proceed(hub, task, select, arms, order, blocking, k);
    HandsBegun(hub.g.callers, old(hub.s).calls, begun, hub.s.calls, old(hub.runnable), hub.runnable);
  }

  // ---------------------------------------------------------------------------------------------
  // From the wake to the return
  // ---------------------------------------------------------------------------------------------

  lemma {:induction false} WithoutAt(q: seq<Ref>, at: nat, k: nat)
    requires at < |q| && q[at].call == k
    ensures Without(q[..at] + q[at + 1..], k) == Without(q, k)
  {
    if at == 0 {
      assert q[..0] + q[1..] == q[1..];
    } else {
      WithoutAt(q[1..], at - 1, k);
      var r := q[..at] + q[at + 1..];
      assert r[0] == q[0] && r[1..] == q[1..][..at - 1] + q[1..][at..];
    }
  }

  lemma {:induction false} WithoutNone(q: seq<Ref>, k: nat)
    requires forall r :: r in q ==> r.call != k
    ensures Without(q, k) == q
  {
    if q == [] {
    } else {
      assert q[0] in q && forall r :: r in q[1..] ==> r in q;
      WithoutNone(q[1..], k);
      assert q == [q[0]] + q[1..];
    }
  }

  /** Only waiters of call `k` have left queues since `start`. */
  ghost predicate Scrubbing<T>(start: State<T>, s: State<T>, k: nat) {
    && s.calls == start.calls && s.shutdown == start.shutdown && |s.chans| == |start.chans|
    && (forall c :: 0 <= c < |s.chans| ==>
          s.chans[c] == start.chans[c].(senders := s.chans[c].senders, receivers := s.chans[c].receivers))
    && (forall c :: 0 <= c < |s.chans| ==> Without(s.chans[c].senders, k) == Without(start.chans[c].senders, k))
    && (forall c :: 0 <= c < |s.chans| ==> Without(s.chans[c].receivers, k) == Without(start.chans[c].receivers, k))
  }

  lemma {:induction false} ScrubStep<T>(start: State<T>, s: State<T>, k: nat, c: nat, op: Op, at: nat)
    requires Scrubbing(start, s, k) && c < |s.chans| && at < |Waiters(s.chans[c], op)|
    requires Waiters(s.chans[c], op)[at].call == k
    ensures var refs := Waiters(s.chans[c], op); Scrubbing(start, SetQueue(s, c, op, refs[..at] + refs[at + 1..]), k)
  {
    WithoutAt(Waiters(s.chans[c], op), at, k);
  }

  lemma {:induction false} ScrubEnd<T>(start: State<T>, s: State<T>, k: nat)
    requires Scrubbing(start, s, k)
    requires forall c, op, r :: 0 <= c < |s.chans| && r in Waiters(s.chans[c], op) ==> r.call != k
    ensures s == Detach(start, k)
  {
    forall c | 0 <= c < |s.chans| ensures s.chans[c] == DetachChan(start.chans[c], k) {
      assert forall r :: r in s.chans[c].senders ==> r in Waiters(s.chans[c], Send);
      assert forall r :: r in s.chans[c].receivers ==> r in Waiters(s.chans[c], Recv);
      WithoutNone(s.chans[c].senders, k);
      WithoutNone(s.chans[c].receivers, k);
    }
    assert s.chans == Detach(start, k).chans;
  }

  /** When every waiter of a call is unlinked, no queue names the call. */
  lemma {:induction false} NoneLinked<T>(hub: Hub<T>, k: nat)
    requires hub.Valid() && forall w :: w in hub.g.waiters && w.call == k ==> w.channel == null
    ensures forall c, op, r :: 0 <= c < |hub.s.chans| && r in Waiters(hub.s.chans[c], op) ==> r.call != k
  {
    forall c, op, r | 0 <= c < |hub.s.chans| && r in Waiters(hub.s.chans[c], op) ensures r.call != k {
      var nodes := Queue(hub.g.channels[c], op).nodes;
      var i :| 0 <= i < |nodes| && NamesOf(nodes)[i] == r;
      assert Chained(hub.g, c, op) && nodes[i] in nodes;
    }
  }

  /** The waiters mustered for a call are all it has. */
  lemma {:induction false} AllMustered<T>(hub: Hub<T>, ws: seq<Waiter<T>>, k: nat, w: Waiter<T>)
    requires hub.Valid() && Mustered(hub, ws, k) && w in hub.g.waiters && w.call == k
    requires k < |hub.s.calls| && |ws| == |hub.s.calls[k].cases|
    ensures w.caseIndex < |ws| && ws[w.caseIndex] == w
  {
    assert Stands(hub.g, hub.s.calls, w);
    assert Stands(hub.g, hub.s.calls, ws[w.caseIndex]);
  }

  /** scrub_select_waiters. */
  method Scrub<T>(hub: Hub<T>, ws: seq<Waiter<T>>, ghost k: nat)
    requires hub.Valid() && Mustered(hub, ws, k) && k < |hub.s.calls| && |ws| == |hub.s.calls[k].cases|
    requires hub.locked
    modifies hub`s, hub.g.queues, hub.g.waiters`prev, hub.g.waiters`next, hub.g.waiters`channel
    ensures hub.Valid() && hub.s == Detach(old(hub.s), k)
  {
    hide hub.Valid, Shape, Detach, Without;
    var i := 0;
    while i < |ws|
      invariant 0 <= i <= |ws| && hub.Valid() && Scrubbing(old(hub.s), hub.s, k) && Mustered(hub, ws, k)
      invariant forall j :: 0 <= j < i ==> ws[j].channel == null
    {
      if ws[i].channel != null {
        ghost var s := hub.s;
        ghost var c, at := hub.Unlink(ws[i]);
        ScrubStep(old(hub.s), s, k, c, ws[i].op, at);
      }
      i := i + 1;
    }
    forall w | w in hub.g.waiters && w.call == k ensures w.channel == null {
      AllMustered(hub, ws, k, w);
    }
    NoneLinked(hub, k);
    ScrubEnd(old(hub.s), hub.s, k);
  }

  lemma {:induction false} WokenReads<T>(hub: Hub<T>, k: nat)
    requires hub.Valid() && k < |hub.s.calls| && hub.s.calls[k].phase.Woken?
    ensures k < |hub.g.callers| == |hub.g.selects| && hub.g.callers[k] in hub.g.tasks
    ensures hub.g.selects[k] != null ==> hub.g.selects[k] in hub.g.states
    ensures hub.s.calls[k].phase.outcome.Fired? && Reads(hub.g, k, hub.s.calls[k].phase.outcome)
  {
    assert CallOk(hub.g, k, hub.s.calls[k].phase);
  }

  /** croutine_select from the wake to the return: leftover waiters go, and the caller learns which case
      fired, how, and in that case's memory the value. */
  method FinishSelect<T>(hub: Hub<T>, state: SelectState, ws: seq<Waiter<T>>, ghost k: nat)
    returns (chosen: int, status: Option<Status>)
    requires hub.Valid() && Mustered(hub, ws, k) && k < |hub.s.calls| && |ws| == |hub.s.calls[k].cases|
    requires hub.s.calls[k].phase.Woken? && k < |hub.g.selects| && hub.g.selects[k] == state
    requires !hub.locked
    modifies hub`locked, hub`s, hub.g.queues, hub.g.waiters`prev, hub.g.waiters`next, hub.g.waiters`channel
    ensures hub.Valid() && hub.s == FinishLocked(old(hub.s), k) && !hub.locked
    ensures var o := old(hub.s).calls[k].phase.outcome;
      && o.Fired? && chosen == o.idx && status == Some(o.status)
      && (o.got.Some? ==> o.idx < |ws| && ws[o.idx].slot == o.got.value)
  {
    hide hub.Valid, Shape, Detach;
    WokenReads(hub, k);
    ghost var o := hub.s.calls[k].phase.outcome;
    if o.got.Some? {
      AllMustered(hub, ws, k, hub.g.links[Ref(k, o.idx)]);
      LinkAt(hub, Ref(k, o.idx));
    }
    hub.Lock();
    Scrub(hub, ws, k);
    hub.Unlock();
    chosen, status := state.chosenIndex, state.chosenStatus;
    DetachCalls(old(hub.s), k);
    hub.Conclude(k);
  }

  lemma {:induction false} LinkAt<T>(hub: Hub<T>, r: Ref)
    requires hub.Valid() && r in hub.g.links
    ensures hub.g.links[r] in hub.g.waiters && hub.g.links[r].Name() == r
  {
  }

  lemma {:induction false} DetachCalls<T>(s: State<T>, k: nat)
    ensures Detach(s, k).calls == s.calls
  {
  }

  /** croutine_channel_send and croutine_channel_recv from the wake to the return; their one waiter is
      unlinked already. */
  method FinishRegular<T>(hub: Hub<T>, w: Waiter<T>) returns (success: bool, value: T)
    requires hub.Valid() && w in hub.g.waiters && w.state == null && w.call < |hub.s.calls|
    requires hub.s.calls[w.call].phase.Woken?
    modifies hub`s
    ensures hub.Valid() && hub.s == FinishLocked(old(hub.s), w.call)
    ensures var o := old(hub.s).calls[w.call].phase.outcome;
      o.Fired? && success == !o.status.Closed? && (o.got.Some? ==> value == o.got.value)
  {
    hide hub.Valid, Shape, Detach;
    ghost var k := w.call;
    WokenReads(hub, k);
    OnlyWaiter(hub, w);
    NoneLinked(hub, k);
    ScrubEnd(hub.s, hub.s, k);
    success, value := w.task.channelSuccess, w.slot;
    hub.Conclude(k);
  }

  lemma {:induction false} OnlyWaiter<T>(hub: Hub<T>, w: Waiter<T>)
    requires hub.Valid() && w in hub.g.waiters && w.state == null && w.call < |hub.s.calls|
    requires !hub.s.calls[w.call].phase.Parked?
    ensures forall v :: v in hub.g.waiters && v.call == w.call ==> v.channel == null
    ensures w.call < |hub.g.callers| == |hub.g.selects| && w.task == hub.g.callers[w.call]
    ensures hub.g.selects[w.call] == null
    ensures forall r :: r in hub.g.links && r.call == w.call ==> hub.g.links[r] == w
  {
    assert Stands(hub.g, hub.s.calls, w);
    forall v | v in hub.g.waiters && v.call == w.call ensures v.channel == null {
      assert Stands(hub.g, hub.s.calls, v);
    }
    forall r | r in hub.g.links && r.call == w.call ensures hub.g.links[r] == w {
      assert Stands(hub.g, hub.s.calls, hub.g.links[r]);
    }
  }
}
