/** The public functions of include/croutine/channel.h on the heap.  Each takes a heap that stands for a reachable
    state to another, one step of a run on, so every theorem about runs holds of the heap between any two calls. */
module ChannelProgram {
  import opened Basics
  import opened Arithmetic
  import opened ChannelTypes
  import opened ChannelSpec
  import opened ChannelCode
  import opened ChannelInv
  import opened ChannelRefine
  import opened ChannelRuns
  import opened ChannelTheorems
  import opened ChannelLaws
  import opened Tasks
  import opened ChannelHeap
  import opened ChannelHub
  import opened ChannelCalls
  import opened SelectOrder
  import ChannelOps

  /** The heap stands for a state some run of public operations leads to. */
  ghost predicate Running<T(!new)>(hub: Hub<T>)
    reads hub`registry, hub`shutdown, hub`g, hub`s, hub.g.channels, hub.g.buffers, hub.g.queues
    reads hub.g.waiters, hub.g.tasks, hub.g.states
  {
    hub.Valid() && Reachable(hub.s)
  }

  /** One step of a run; what was answered stays answered. */
  ghost predicate Leads<T>(s: State<T>, st: Step<T>, s': State<T>) {
    CodeInv(s) && May(Abs(s), st) && s' == Do(s, st) && Answers(s, s')
  }

  lemma {:induction false} StepReaches<T(!new)>(s: State<T>, st: Step<T>)
    requires Reachable(s) && CodeInv(s) && May(Abs(s), st)
    ensures Reachable(Do(s, st)) && Answers(s, Do(s, st))
  {
    hide CodeInv, May, Do, Reachable, Inv;
    OperationsStayReachable(s, st);
    AbsCalls(s, st);
    StepAnswers(Abs(s), st);
  }

  lemma {:induction false} AbsCalls<T>(s: State<T>, st: Step<T>)
    requires CodeInv(s) && May(Abs(s), st)
    ensures Inv(Abs(s)) && Abs(s).calls == s.calls && SpecDo(Abs(s), st).calls == Do(s, st).calls
  {
    hide CodeOk, Inv, Drained, May, SpecDo;
    assert Abs(Do(s, st)) == SpecDo(Abs(s), st);
  }

  /** The tasks handed to the run queue are those of exactly the calls that were woken, each once. */
  twostate predicate Roused<T>(hub: Hub<T>)
    reads hub`g, hub`s, hub`runnable
  {
    Queues(hub.g.callers, old(hub.s).calls, hub.s.calls, old(hub.runnable), hub.runnable)
  }

  lemma {:induction false} HandsThese<T>(callers: seq<Task?>, calls: seq<Call<T>>, calls': seq<Call<T>>,
      log: seq<Task?>, log': seq<Task?>, ks: seq<nat>)
    requires Queues(callers, calls, calls', log, log') && |ks| <= 1
    requires forall k: nat :: k in ks <==> WokenNow(calls, calls', k)
    ensures log' == log + TasksOf(callers, ks)
  {
    var js :| Exactly(calls, calls', js) && log' == log + TasksOf(callers, js);
    SameNames(js, ks);
  }

  lemma {:induction false} SameNames(js: seq<nat>, ks: seq<nat>)
    requires |ks| <= 1 && (forall i, j :: 0 <= i < j < |js| ==> js[i] != js[j]) && forall k :: k in js <==> k in ks
    ensures js == ks
  {
    assert ks != [] ==> ks[0] in js;
    if js != [] {
      assert js[0] in js && js[|js| - 1] in js;
      assert js[0] == ks[0] == js[|js| - 1];
    }
  }

  /** A runtime without channels. */
  method Start<T(!new)>() returns (hub: Hub<T>)
    ensures fresh(hub) && Running(hub) && !hub.locked && hub.s == Init()
    ensures hub.g == World([], [], [], map[], {}, {}, {}, {}, {})
  {
    hub := new Hub();
    InitReachable<T>();
  }

  /** On the heap: whatever is linked is alive.  Its call has not returned, so the waiter on its stack is
      still there; its channel is open and not freed; and if it can still be chosen, its task sleeps in
      that very call, so waking it succeeds. */
  lemma {:induction false} LinkedWaitersAreAlive<T(!new)>(hub: Hub<T>, c: nat, op: Op, i: nat)
    requires Running(hub) && c < |hub.g.channels|
    requires i < |Queue(hub.g.channels[c], op).nodes|
    ensures var w := Queue(hub.g.channels[c], op).nodes[i];
      && w.channel == hub.g.channels[c] && !w.channel.destroyed && !w.channel.closed
      && w.call < |hub.s.calls| && !hub.s.calls[w.call].phase.Returned?
      && (!hub.Dead(w) ==> w.task.state == WaitingChannel && w.task.call == w.call)
  {
    var w := Queue(hub.g.channels[c], op).nodes[i];
    assert Chained(hub.g, c, op) && w in Queue(hub.g.channels[c], op).nodes;
    assert Stands(hub.g, hub.s.calls, w);
    assert NamesOf(Queue(hub.g.channels[c], op).nodes)[i] == w.Name();
    NoDanglingWaiters(hub.s, c, op, w.Name());
    assert CallOk(hub.g, w.call, hub.s.calls[w.call].phase);
  }

  /** A waiter's channel field is set if and only if it is linked, and then in that channel's queue for its
      operation and in no other. */
  lemma {:induction false} ChannelFieldIffLinked<T>(hub: Hub<T>, w: Waiter<T>, c: nat, op: Op)
    requires hub.Valid() && w in hub.g.waiters && c < |hub.g.channels|
    ensures w in Queue(hub.g.channels[c], op).nodes <==> w.channel == hub.g.channels[c] && w.op == op
  {
    assert Chained(hub.g, c, op);
    if w.channel == hub.g.channels[c] && w.op == op {
      var at := hub.NodeAt(hub.g.channels[c], w);
    }
  }

  /** A task is spawned. */
  ghost method Enter<T(!new)>(hub: Hub<T>, task: Task)
    requires (forall t :: t in hub.g.tasks && t.id == task.id ==> t == task) && Running(hub)
    modifies hub`g
    ensures Running(hub) && hub.g == old(hub.g).(tasks := old(hub.g).tasks + {task})
  {
    hide hub.Valid, Reachable;
    hub.Adopt(task);
  }

  // ---------------------------------------------------------------------------------------------
  // Channels come and go
  // ---------------------------------------------------------------------------------------------

  /** croutine_channel_create: refused exactly when the buffer's size does not fit in size_t or there is no
      memory. */
  method Create<T(!new)>(hub: Hub<T>, elemSize: nat, capacity: nat, memory: bool) returns (ch: Channel?<T>)
    requires Running(hub) && !hub.locked
    modifies hub`locked, hub`registry, hub`g, hub`s
    ensures Running(hub) && !hub.locked && (ch != null <==> memory && elemSize * capacity <= SIZE_MAX)
    ensures if ch == null then hub.s == old(hub.s) && hub.g == old(hub.g)
            else Leads(old(hub.s), Open(capacity), hub.s) && hub.Grown()
    ensures ch != null ==> hub.Mine(ch) && ch.id == |old(hub.s).chans| && ch.capacity == capacity
  {
    hide hub.Valid, Reachable, CodeInv, Answers;
    if capacity != 0 {
      FitsQuotient(elemSize, capacity, SIZE_MAX);
    }
    if capacity != 0 && elemSize > SIZE_MAX / capacity {
      return null;
    }
    ReachableInv(hub.s);
    StepReaches(hub.s, Open(capacity));
    ch := hub.Create(capacity, memory);
    if ch != null {
      ChannelOps.RingAt(hub, ch);
    }
  }

  /** croutine_channel_destroy: a channel is freed exactly when it is closed. */
  method Destroy<T(!new)>(hub: Hub<T>, ch: Channel?<T>) returns (safe: bool)
    requires Running(hub) && (ch != null ==> hub.Mine(ch) && !ch.destroyed)
    requires !hub.locked
    modifies hub`locked, hub`registry, hub`s, hub.g.channels`destroyed
    ensures Running(hub) && !hub.locked
    ensures if ch == null then safe && hub.s == old(hub.s)
            else Leads(old(hub.s), DestroyOne(ch.id), hub.s) && safe == old(ch.closed) == ch.destroyed
  {
    hide hub.Valid, Reachable, CodeInv, Answers;
    if ch == null {
      return true;
    }
    Footprint(hub, ch);
    ReachableInv(hub.s);
    ChannelOps.RingAt(hub, ch);
    FreeAt(hub, ch);
    StepReaches(hub.s, DestroyOne(ch.id));
    SpecDestroys(hub.s, ch.id);
    safe := hub.Destroy(ch);
    FreeAt(hub, ch);
  }

  lemma {:induction false} FreeAt<T>(hub: Hub<T>, ch: Channel<T>)
    requires hub.Valid() && hub.Mine(ch)
    ensures ch.id < |hub.s.chans| && ch.destroyed == hub.s.chans[ch.id].destroyed
  {
  }

  lemma {:induction false} SpecDestroys<T>(s: State<T>, c: nat)
    requires CodeInv(s) && c < |s.chans|
    ensures s.chans[c].closed ==> s.chans[c].senders == [] && s.chans[c].receivers == []
  {
    assert s.chans[c].closed ==> Waiters(s.chans[c], Op.Send) == [] && Waiters(s.chans[c], Recv) == [];
  }

  /** croutine_channel_close. */
  method Close<T(!new)>(hub: Hub<T>, ch: Channel?<T>)
    requires Running(hub) && (ch != null ==> hub.Mine(ch) && !ch.destroyed)
    requires !hub.locked
    modifies hub`locked, hub`s, hub`runnable, hub.g.queues, hub.g.waiters, hub.Sleepers()`state
    modifies hub.Sleepers()`channelSuccess, hub.g.states, hub.g.channels`closed
    ensures Running(hub) && !hub.locked
    ensures if ch == null then hub.s == old(hub.s) && hub.runnable == old(hub.runnable)
            else Leads(old(hub.s), CloseOne(ch.id), hub.s) && ch.closed && hub.Handed()
  {
    hide hub.Valid, Reachable, CodeInv, Answers, CloseLocked;
    if ch == null {
      return;
    }
    Footprint(hub, ch);
    ReachableInv(hub.s);
    ChannelOps.RingAt(hub, ch);
    FreeAt(hub, ch);
    StepReaches(hub.s, CloseOne(ch.id));
    Grounds(hub);
    CloseCloses(hub.s, ch.id);
    ChannelOps.CloseUnderLock(hub, ch);
    ChannelOps.RingAt(hub, ch);
  }

  lemma {:induction false} CloseCloses<T>(s: State<T>, c: nat)
    requires c < |s.chans| && RefsValid(s)
    ensures CloseLocked(s, c).chans[c].closed
  {
    var s1 := s.(chans := s.chans[c := s.chans[c].(closed := true)]);
    assert forall x :: ValidRef(s1, x) == ValidRef(s, x);
    assert forall d, op :: 0 <= d < |s.chans| ==> Waiters(s1.chans[d], op) == Waiters(s.chans[d], op);
    if !s.chans[c].closed {
      WakeAllEmpties(s1, c, Op.Send);
      var s2 := WakeAllAsClosed(s1, c, Op.Send);
      assert forall x :: ValidRef(s2, x) == ValidRef(s1, x);
      WakeAllEmpties(s2, c, Recv);
    }
  }

  /** worker_request_shutdown as channels see it. */
  method RequestShutdown<T(!new)>(hub: Hub<T>)
    requires Running(hub) && !hub.locked
    modifies hub`locked, hub`s, hub`shutdown, hub`runnable, hub.g.queues, hub.g.waiters, hub.Sleepers()`state
    modifies hub.Sleepers()`channelSuccess, hub.g.states, hub.g.channels`closed
    ensures Running(hub) && Leads(old(hub.s), ShutDown, hub.s) && hub.shutdown && !hub.locked && hub.Handed()
  {
    hide hub.Valid, Reachable, CodeInv, Answers, CloseBelowLocked;
    ReachableInv(hub.s);
    StepReaches(hub.s, ShutDown);
    Grounds(hub);
    hub.Lock();
    ChannelOps.ShutdownAll(hub);
    hub.Unlock();
    ShutAt(hub);
  }

  lemma {:induction false} ShutAt<T>(hub: Hub<T>)
    requires hub.Valid()
    ensures hub.shutdown == hub.s.shutdown
  {
  }

  // ---------------------------------------------------------------------------------------------
  // Calls
  // ---------------------------------------------------------------------------------------------

  /** Who may call in the heap may call in the run. */
  lemma {:induction false} CallerMay<T(!new)>(hub: Hub<T>, task: Task?, select: bool, arms: seq<Arm<T>>,
      order: seq<nat>, blocking: bool)
    requires hub.Valid() && CodeInv(hub.s) && MayCall(hub, task, arms)
    requires (forall i: nat :: i in order <==> i < |arms|) && (arms == [] ==> !blocking)
    requires select || (|arms| == 1 && arms[0].channel != null)
    ensures MayInvoke(Abs(hub.s), IdOf(task), select, CasesOf(arms), order, blocking)
  {
    hide CodeOk, Base, ChansOk, Drained;
    var cases := CasesOf(arms);
    forall i | 0 <= i < |cases| && cases[i].chan.Some?
      ensures cases[i].chan.value < |Abs(hub.s).chans| && !Abs(hub.s).chans[cases[i].chan.value].destroyed
    {
      assert arms[i].channel != null;
    }
    forall k | 0 <= k < |hub.s.calls| && Unfinished(hub.s.calls[k]) ensures hub.s.calls[k].task != IdOf(task) {
      assert hub.s.calls[k] == Abs(hub.s).calls[k];
      NotMine(hub, task, k);
    }
  }

  lemma {:induction false} NotMine<T>(hub: Hub<T>, task: Task?, k: nat)
    requires hub.Valid() && k < |hub.s.calls| && Unfinished(hub.s.calls[k]) && hub.s.calls[k].task.Some?
    requires task != null ==> Free(hub, task)
    ensures hub.s.calls[k].task != IdOf(task)
  {
    assert hub.s.calls[k].task == IdOf(hub.g.callers[k]);
  }

  /** A thread without a task may use any channel that was not destroyed. */
  lemma {:induction false} MayWithoutTask<T(!new)>(hub: Hub<T>, arm: Arm<T>)
    requires Running(hub) && arm.channel != null && hub.Mine(arm.channel) && !arm.channel.destroyed
    ensures MayCall(hub, null, [arm])
  {
    hide Reachable;
    FreeAt(hub, arm.channel);
  }

  /** Any call up to its answer or its sleep. */
  method Invoke<T(!new)>(hub: Hub<T>, task: Task?, select: bool, arms: seq<Arm<T>>, order: seq<nat>, blocking: bool)
    returns (p: Progress<T>)
    requires (forall i: nat :: i in order <==> i < |arms|) && (arms == [] ==> !blocking)
    requires select || (|arms| == 1 && arms[0].channel != null)
    requires MayCall(hub, task, arms) && Running(hub) && !hub.locked
    modifies hub`locked, hub`g, hub`s, hub`runnable, hub.g.queues, hub.g.waiters, hub.g.states
    modifies hub.Sleepers()`state, hub.Sleepers()`channelSuccess
    modifies Self(task)`state, Self(task)`channelSuccess, Self(task)`call
    modifies hub.g.channels`head, hub.g.channels`tail, hub.g.channels`len, hub.g.channels`contents, hub.g.buffers
    ensures Progressed(hub, |old(hub.s).calls|, arms, select, p) && (hub.locked <==> p.Sleeps?)
    ensures Leads(old(hub.s), Operate(IdOf(task), select, CasesOf(arms), order, blocking), hub.s) && hub.CallAdded()
    ensures Running(hub)
    ensures Roused(hub) && (!p.Sleeps? ==> Kept(task))
  {
    hide hub.Valid, Reachable, CodeInv, Answers, MayInvoke, InvokeLocked, MayCall, Progressed, RefsValid, InRange;
    ReachableInv(hub.s);
    CallerMay(hub, task, select, arms, order, blocking);
    StepReaches(hub.s, Operate(IdOf(task), select, CasesOf(arms), order, blocking));
    p := ChannelCalls.Call(hub, task, select, arms, order, blocking);
  }

  /** How a select ends its first critical section, given whether it may wait: a case fires if and only if one
      could proceed; it sleeps if none could, it may wait and some case names a channel; else it takes the
      default arm. */
  ghost predicate SelectAnswers<T>(s: State<T>, arms: seq<Arm<T>>, mayWait: bool, p: Progress<T>) {
    var ready := exists i :: 0 <= i < |arms| && Ready(Abs(s), CaseOf(arms[i]));
    if ready then p.Told? && p.reply.Fires?
    else if mayWait && exists i :: 0 <= i < |arms| && arms[i].channel != null then p.Sleeps?
    else p == Told(Nothing)
  }

  /** Whom a select serves: the call that the case that fired serves, if one did. */
  ghost function ServedBySelect<T>(s: State<T>, arms: seq<Arm<T>>, p: Progress<T>): (ks: seq<nat>)
    ensures |ks| <= 1
  {
    if p.Told? && p.reply.Fires? && p.reply.idx < |arms| then ServedBy(s, CaseOf(arms[p.reply.idx])) else []
  }

  lemma {:induction false} SelectServes<T>(s: State<T>, task: Option<nat>, arms: seq<Arm<T>>, order: seq<nat>,
      blocking: bool, p: Progress<T>)
    requires CodeInv(s) && MayInvoke(Abs(s), task, true, CasesOf(arms), order, blocking)
    ensures |Do(s, Operate(task, true, CasesOf(arms), order, blocking)).calls| == |s.calls| + 1
    ensures var s' := Do(s, Operate(task, true, CasesOf(arms), order, blocking));
      Tells(s'.calls[|s.calls|].phase, p) ==>
        forall k: nat :: k in ServedBySelect(s, arms, p) <==> WokenNow(s.calls, s'.calls, k)
  {
    hide CodeInv, MayInvoke, Do, OnlyAt, ServedBy, WokenNow;
    OperateLaw(s, task, true, CasesOf(arms), order, blocking);
    assert forall i :: 0 <= i < |arms| ==> CasesOf(arms)[i] == CaseOf(arms[i]);
  }

  lemma {:induction false} SelectVerdict<T>(s: State<T>, task: Option<nat>, arms: seq<Arm<T>>, order: seq<nat>,
      blocking: bool, p: Progress<T>)
    requires CodeInv(s) && MayInvoke(Abs(s), task, true, CasesOf(arms), order, blocking)
    ensures |Do(s, Operate(task, true, CasesOf(arms), order, blocking)).calls| == |s.calls| + 1
    ensures Tells(Do(s, Operate(task, true, CasesOf(arms), order, blocking)).calls[|s.calls|].phase, p) ==>
      SelectAnswers(s, arms, blocking && task.Some?, p)
  {
    hide CodeInv, MayInvoke, Ready, InvokeLocked, RefsValid, InRange;
    AnsweredIffReady(s, task, true, CasesOf(arms), order, blocking);
    NoChannels(arms);
    assert forall i :: 0 <= i < |arms| ==> CasesOf(arms)[i] == CaseOf(arms[i]);
  }

  /** The order of select: every case, no other. */
  method Order(n: nat, scratch: bool, generator: Generator, entropy: bv64) returns (order: seq<nat>)
    modifies generator
    ensures |order| == n && forall i: nat :: i in order <==> i < n
    ensures order == OrderOf(n, scratch, old(generator.state), entropy)
  {
    hide OrderOf;
    order := TryOrder(n, scratch, generator, entropy);
    NamesEveryCase(order, n);
  }

  method Choose<T(!new)>(hub: Hub<T>, task: Task?, arms: seq<Arm<T>>, order: seq<nat>, blocking: bool)
    returns (p: Progress<T>)
    requires (forall i: nat :: i in order <==> i < |arms|) && (arms == [] ==> !blocking)
    requires MayCall(hub, task, arms) && Running(hub) && !hub.locked
    modifies hub`locked, hub`g, hub`s, hub`runnable, hub.g.queues, hub.g.waiters, hub.g.states
    modifies hub.Sleepers()`state, hub.Sleepers()`channelSuccess
    modifies Self(task)`state, Self(task)`channelSuccess, Self(task)`call
    modifies hub.g.channels`head, hub.g.channels`tail, hub.g.channels`len, hub.g.channels`contents, hub.g.buffers
    ensures Progressed(hub, |old(hub.s).calls|, arms, true, p) && (hub.locked <==> p.Sleeps?)
    ensures SelectAnswers(old(hub.s), arms, task != null && blocking, p) && Running(hub)
    ensures Leads(old(hub.s), Operate(IdOf(task), true, CasesOf(arms), order, blocking), hub.s) && hub.CallAdded()
    ensures !p.Sleeps? ==> Kept(task)
    ensures hub.runnable == old(hub.runnable) + TasksOf(hub.g.callers, ServedBySelect(old(hub.s), arms, p))
  {
    hide hub.Valid, Reachable, CodeInv, Answers, MayInvoke, MayCall, SelectAnswers, Do, Tells, Mustered, hub.CallAdded,
      ServedBySelect, WokenNow;
    p := Invoke(hub, task, true, arms, order, blocking);
    SelectVerdict(old(hub.s), IdOf(task), arms, order, blocking, p);
    SelectServes(old(hub.s), IdOf(task), arms, order, blocking, p);
    HandsThese(hub.g.callers, old(hub.s).calls, hub.s.calls, old(hub.runnable), hub.runnable,
      ServedBySelect(old(hub.s), arms, p));
  }

  /** croutine_select up to its answer or its sleep; without cases and without a default the process aborts
      instead.  Beyond 32 cases the order and the waiters need memory of their own. */
  method Select<T(!new)>(hub: Hub<T>, task: Task?, arms: seq<Arm<T>>, hasDefault: bool, scratch: bool, memory: bool,
      generator: Generator, entropy: bv64)
    returns (p: Progress<T>, ghost order: seq<nat>)
    requires MayCall(hub, task, arms) && (arms != [] || hasDefault) && Running(hub) && !hub.locked
    modifies generator, hub`locked, hub`g, hub`s, hub`runnable, hub.g.queues, hub.g.waiters, hub.g.states
    modifies hub.Sleepers()`state, hub.Sleepers()`channelSuccess
    modifies Self(task)`state, Self(task)`channelSuccess, Self(task)`call
    modifies hub.g.channels`head, hub.g.channels`tail, hub.g.channels`len, hub.g.channels`contents, hub.g.buffers
    ensures order == OrderOf(|arms|, scratch, old(generator.state), entropy)
    ensures |order| == |arms| && forall i: nat :: i in order <==> i < |arms|
    ensures Progressed(hub, |old(hub.s).calls|, arms, true, p) && (hub.locked <==> p.Sleeps?)
    ensures SelectAnswers(old(hub.s), arms, task != null && !hasDefault && (|arms| <= 32 || memory), p) && Running(hub)
    ensures var blocking := !hasDefault && (|arms| <= 32 || memory);
      Leads(old(hub.s), Operate(IdOf(task), true, CasesOf(arms), order, blocking), hub.s)
    ensures hub.CallAdded() && (!p.Sleeps? ==> Kept(task))
    ensures hub.runnable == old(hub.runnable) + TasksOf(hub.g.callers, ServedBySelect(old(hub.s), arms, p))
  {
    hide hub.Valid, Reachable, MayCall, SelectAnswers, Progressed, Leads, OrderOf, ServedBySelect;
    var tries := Order(|arms|, scratch, generator, entropy);
    order := tries;
    p := Choose(hub, task, arms, tries, !hasDefault && (|arms| <= 32 || memory));
  }

  datatype SendAnswer<T> = SentNow | SendRefused | SendAsleep(waiter: Waiter<T>)
  datatype RecvAnswer<T> = Got(value: T) | RecvRefused | GotNothing | RecvAsleep(waiter: Waiter<T>)

  /** Call `k` sleeps with `w` as its one waiter. */
  ghost predicate SleepsWith<T>(hub: Hub<T>, k: nat, w: Waiter<T>)
    reads hub`g, hub`s
  {
    && k < |hub.s.calls| && hub.s.calls[k].phase.Parked?
    && w in hub.g.waiters && w.call == k && w.caseIndex == 0 && w.state == null
  }

  lemma {:induction false} RegularSleeps<T>(hub: Hub<T>, k: nat, arms: seq<Arm<T>>, p: Progress<T>)
    requires hub.Valid() && Progressed(hub, k, arms, false, p) && p.Sleeps? && |arms| == 1
    ensures |p.waiters| == 1 && SleepsWith(hub, k, p.waiters[0])
  {
    assert p.waiters[0] in hub.g.waiters && p.waiters[0].Name() == Ref(k, 0);
    assert Stands(hub.g, hub.s.calls, p.waiters[0]);
  }

  /** Nobody who waits to `op` on the channel can still be chosen. */
  ghost predicate NobodyWaits<T>(s: State<T>, c: nat, op: Op)
    requires c < |s.chans|
  {
    Live(Waiters(s.chans[c], op), s.calls) == []
  }

  /** How a send ends its critical section, given whether it may wait: each answer in exactly one case. */
  ghost predicate SendAnswers<T>(s: State<T>, c: nat, mayWait: bool, a: SendAnswer<T>) {
    c < |s.chans| &&
    var shut := s.chans[c].closed || s.shutdown;
    var full := NobodyWaits(s, c, Recv) && |s.chans[c].buffer| >= s.chans[c].capacity;
    match a
    case SentNow => !shut && !full
    case SendRefused => shut || (full && !mayWait)
    case SendAsleep(_) => !shut && full && mayWait
  }

  lemma {:induction false} SendVerdict<T>(s: State<T>, task: Option<nat>, c: nat, value: T, blocking: bool,
      p: Progress<T>, a: SendAnswer<T>)
    requires CodeInv(s) && c < |s.chans|
    requires MayInvoke(Abs(s), task, false, [Case(Some(c), Op.Send, value)], [0], blocking)
    requires match a
      case SentNow => p.Told? && p.reply.Fires? && p.reply.status == Sent
      case SendRefused => p.Told? && !(p.reply.Fires? && p.reply.status == Sent)
      case SendAsleep(_) => p.Sleeps?
    ensures |Do(s, Operate(task, false, [Case(Some(c), Op.Send, value)], [0], blocking)).calls| == |s.calls| + 1
    ensures var s' := Do(s, Operate(task, false, [Case(Some(c), Op.Send, value)], [0], blocking));
      Tells(s'.calls[|s.calls|].phase, p) ==> SendAnswers(s, c, blocking && task.Some?, a)
  {
    hide CodeInv, MayInvoke, Do, Live;
    SendIsAnswered(s, task, c, value, blocking);
  }

  method SendOn<T(!new)>(hub: Hub<T>, task: Task?, ch: Channel<T>, value: T, blocking: bool) returns (a: SendAnswer<T>)
    requires MayCall(hub, task, [Arm(ch, Op.Send, value)]) && Running(hub) && !hub.locked
    modifies hub`locked, hub`g, hub`s, hub`runnable, hub.g.queues, hub.g.waiters, hub.g.states
    modifies hub.Sleepers()`state, hub.Sleepers()`channelSuccess
    modifies Self(task)`state, Self(task)`channelSuccess, Self(task)`call
    modifies hub.g.channels`head, hub.g.channels`tail, hub.g.channels`len, hub.g.channels`contents, hub.g.buffers
    ensures a.SendAsleep? ==> SleepsWith(hub, |old(hub.s).calls|, a.waiter)
    ensures hub.locked <==> a.SendAsleep?
    ensures SendAnswers(old(hub.s), ch.id, blocking && task != null, a) && Running(hub)
    ensures Leads(old(hub.s), Operate(IdOf(task), false, [Case(Some(ch.id), Op.Send, value)], [0], blocking), hub.s)
    ensures hub.CallAdded() && (!a.SendAsleep? ==> Kept(task))
    ensures hub.runnable == old(hub.runnable) + TasksOf(hub.g.callers, ServedBySend(old(hub.s), ch.id))
  {
    hide hub.Valid, Reachable, CodeInv, Answers, MayInvoke, Do, SleepsWith, SendAnswers, Tells, Mustered, hub.CallAdded;
    var arm := Arm(ch, Op.Send, value);
    assert CasesOf([arm]) == [Case(Some(ch.id), Op.Send, value)];
    ghost var k := |hub.s.calls|;
    var p := Invoke(hub, task, false, [arm], [0], blocking);
    match p {
      case Told(Fires(_, Sent, _)) => a := SentNow;
      case Told(_) => a := SendRefused;
      case Sleeps(_, ws) =>
        RegularSleeps(hub, k, [arm], p);
        a := SendAsleep(ws[0]);
    }
    SendVerdict(old(hub.s), IdOf(task), ch.id, value, blocking, p, a);
    SendServes(old(hub.s), IdOf(task), ch.id, value, blocking);
    HandsThese(hub.g.callers, old(hub.s).calls, hub.s.calls, old(hub.runnable), hub.runnable,
      ServedBySend(old(hub.s), ch.id));
  }

  /** croutine_channel_send, and with `blocking` false croutine_channel_try_send, up to the answer or the
      sleep. */
  method Send<T(!new)>(hub: Hub<T>, task: Task?, ch: Channel?<T>, value: T, blocking: bool) returns (a: SendAnswer<T>)
    requires (ch != null ==> MayCall(hub, task, [Arm(ch, Op.Send, value)])) && Running(hub) && !hub.locked
    modifies hub`locked, hub`g, hub`s, hub`runnable, hub.g.queues, hub.g.waiters, hub.g.states
    modifies hub.Sleepers()`state, hub.Sleepers()`channelSuccess
    modifies Self(task)`state, Self(task)`channelSuccess, Self(task)`call
    modifies hub.g.channels`head, hub.g.channels`tail, hub.g.channels`len, hub.g.channels`contents, hub.g.buffers
    ensures ch == null ==> a == SendRefused && hub.s == old(hub.s) && hub.runnable == old(hub.runnable)
    ensures a.SendAsleep? ==> SleepsWith(hub, |old(hub.s).calls|, a.waiter)
    ensures hub.locked <==> a.SendAsleep?
    ensures Running(hub) && hub.CallAdded() && (!a.SendAsleep? ==> Kept(task))
    ensures ch != null ==>
      hub.runnable == old(hub.runnable) + TasksOf(hub.g.callers, ServedBySend(old(hub.s), ch.id))
    ensures ch != null ==> SendAnswers(old(hub.s), ch.id, blocking && task != null, a)
    ensures ch != null ==>
      Leads(old(hub.s), Operate(IdOf(task), false, [Case(Some(ch.id), Op.Send, value)], [0], blocking), hub.s)
  {
    hide hub.Valid, Reachable, SleepsWith, SendAnswers, Leads, MayCall;
    if ch == null {
      return SendRefused;
    }
    a := SendOn(hub, task, ch, value, blocking);
  }

  /** How a receive ends its critical section: the oldest buffered value goes first, then that of the first
      waiting sender; closed and empty is told only when there is neither. */
  ghost predicate RecvAnswers<T>(s: State<T>, c: nat, mayWait: bool, a: RecvAnswer<T>) {
    c < |s.chans| &&
    var shut := s.chans[c].closed || s.shutdown;
    var senders := Live(s.chans[c].senders, s.calls);
    var nothing := s.chans[c].buffer == [] && senders == [];
    match a
    case Got(v) =>
      if s.chans[c].buffer != [] then v == s.chans[c].buffer[0]
      else senders != [] && ValidRef(s, senders[0]) && v == CaseAt(s, senders[0]).value
    case RecvRefused => nothing && shut
    case GotNothing => nothing && !shut && !mayWait
    case RecvAsleep(_) => nothing && !shut && mayWait
  }

  lemma {:induction false} RecvVerdict<T>(s: State<T>, task: Option<nat>, c: nat, memory: T, blocking: bool,
      p: Progress<T>, a: RecvAnswer<T>)
    requires CodeInv(s) && c < |s.chans| && MayInvoke(Abs(s), task, false, [Case(Some(c), Recv, memory)], [0], blocking)
    requires match a
      case Got(v) => p.Told? && p.reply.Fires? && p.reply.got == Some(v)
      case RecvRefused => p.Told? && p.reply.Fires? && p.reply.got == None
      case GotNothing => p.Told? && p.reply.Nothing?
      case RecvAsleep(_) => p.Sleeps?
    ensures |Do(s, Operate(task, false, [Case(Some(c), Recv, memory)], [0], blocking)).calls| == |s.calls| + 1
    ensures var s' := Do(s, Operate(task, false, [Case(Some(c), Recv, memory)], [0], blocking));
      Tells(s'.calls[|s.calls|].phase, p) ==> RecvAnswers(s, c, blocking && task.Some?, a)
  {
    hide CodeInv, MayInvoke, Do, Live;
    ReceiveIsAnswered(s, task, c, memory, blocking);
  }

  method ReceiveOn<T(!new)>(hub: Hub<T>, task: Task?, ch: Channel<T>, memory: T, blocking: bool)
    returns (a: RecvAnswer<T>)
    requires MayCall(hub, task, [Arm(ch, Recv, memory)]) && Running(hub) && !hub.locked
    modifies hub`locked, hub`g, hub`s, hub`runnable, hub.g.queues, hub.g.waiters, hub.g.states
    modifies hub.Sleepers()`state, hub.Sleepers()`channelSuccess
    modifies Self(task)`state, Self(task)`channelSuccess, Self(task)`call
    modifies hub.g.channels`head, hub.g.channels`tail, hub.g.channels`len, hub.g.channels`contents, hub.g.buffers
    ensures a.RecvAsleep? ==> SleepsWith(hub, |old(hub.s).calls|, a.waiter)
    ensures hub.locked <==> a.RecvAsleep?
    ensures RecvAnswers(old(hub.s), ch.id, blocking && task != null, a) && Running(hub)
    ensures Leads(old(hub.s), Operate(IdOf(task), false, [Case(Some(ch.id), Recv, memory)], [0], blocking), hub.s)
    ensures hub.CallAdded() && (!a.RecvAsleep? ==> Kept(task))
    ensures hub.runnable == old(hub.runnable) + TasksOf(hub.g.callers, LongestWaiting(old(hub.s), ch.id, Op.Send))
  {
    hide hub.Valid, Reachable, CodeInv, Answers, MayInvoke, Do, SleepsWith, RecvAnswers, Tells, Mustered, hub.CallAdded;
    var arm := Arm(ch, Recv, memory);
    assert CasesOf([arm]) == [Case(Some(ch.id), Recv, memory)];
    ghost var k := |hub.s.calls|;
    var p := Invoke(hub, task, false, [arm], [0], blocking);
    match p {
      case Told(Fires(_, _, Some(value))) => a := Got(value);
      case Told(Fires(_, _, None)) => a := RecvRefused;
      case Told(Nothing) => a := GotNothing;
      case Sleeps(_, ws) =>
        RegularSleeps(hub, k, [arm], p);
        a := RecvAsleep(ws[0]);
    }
    RecvVerdict(old(hub.s), IdOf(task), ch.id, memory, blocking, p, a);
    ReceiveServes(old(hub.s), IdOf(task), ch.id, memory, blocking);
    HandsThese(hub.g.callers, old(hub.s).calls, hub.s.calls, old(hub.runnable), hub.runnable,
      LongestWaiting(old(hub.s), ch.id, Op.Send));
  }

  /** croutine_channel_recv, and with `blocking` false croutine_channel_try_recv, up to the answer or the
      sleep. */
  method Receive<T(!new)>(hub: Hub<T>, task: Task?, ch: Channel?<T>, memory: T, blocking: bool)
    returns (a: RecvAnswer<T>)
    requires (ch != null ==> MayCall(hub, task, [Arm(ch, Recv, memory)])) && Running(hub) && !hub.locked
    modifies hub`locked, hub`g, hub`s, hub`runnable, hub.g.queues, hub.g.waiters, hub.g.states
    modifies hub.Sleepers()`state, hub.Sleepers()`channelSuccess
    modifies Self(task)`state, Self(task)`channelSuccess, Self(task)`call
    modifies hub.g.channels`head, hub.g.channels`tail, hub.g.channels`len, hub.g.channels`contents, hub.g.buffers
    ensures ch == null ==> a == RecvRefused && hub.s == old(hub.s) && hub.runnable == old(hub.runnable)
    ensures a.RecvAsleep? ==> SleepsWith(hub, |old(hub.s).calls|, a.waiter)
    ensures hub.locked <==> a.RecvAsleep?
    ensures Running(hub) && hub.CallAdded() && (!a.RecvAsleep? ==> Kept(task))
    ensures ch != null ==>
      hub.runnable == old(hub.runnable) + TasksOf(hub.g.callers, LongestWaiting(old(hub.s), ch.id, Op.Send))
    ensures ch != null ==> RecvAnswers(old(hub.s), ch.id, blocking && task != null, a)
    ensures ch != null ==>
      Leads(old(hub.s), Operate(IdOf(task), false, [Case(Some(ch.id), Recv, memory)], [0], blocking), hub.s)
  {
    hide hub.Valid, Reachable, SleepsWith, RecvAnswers, Leads, MayCall;
    if ch == null {
      return RecvRefused;
    }
    a := ReceiveOn(hub, task, ch, memory, blocking);
  }

  // ---------------------------------------------------------------------------------------------
  // From the wake to the return
  // ---------------------------------------------------------------------------------------------

  /** The end of croutine_select for a task that slept. */
  method ResumeSelect<T(!new)>(hub: Hub<T>, state: SelectState, ws: seq<Waiter<T>>, ghost k: nat)
    returns (chosen: int, status: Option<Status>)
    requires k < |hub.s.calls| && hub.s.calls[k].phase.Woken? && |ws| == |hub.s.calls[k].cases|
    requires Mustered(hub, ws, k) && k < |hub.g.selects| && hub.g.selects[k] == state && Running(hub) && !hub.locked
    modifies hub`locked, hub`s, hub.g.queues, hub.g.waiters`prev, hub.g.waiters`next, hub.g.waiters`channel
    ensures var o := old(hub.s).calls[k].phase.outcome;
      && o.Fired? && chosen == o.idx && status == Some(o.status)
      && (o.got.Some? ==> o.idx < |ws| && ws[o.idx].slot == o.got.value)
    ensures Running(hub) && !hub.locked && Leads(old(hub.s), Resume(k), hub.s)
  {
    hide hub.Valid, Reachable, CodeInv, Answers, FinishLocked, Mustered;
    ReachableInv(hub.s);
    StepReaches(hub.s, Resume(k));
    chosen, status := FinishSelect(hub, state, ws, k);
  }

  /** The end of croutine_channel_send and croutine_channel_recv for a task that slept. */
  method ResumeRegular<T(!new)>(hub: Hub<T>, w: Waiter<T>) returns (success: bool, value: T)
    requires w.call < |hub.s.calls| && hub.s.calls[w.call].phase.Woken?
    requires w in hub.g.waiters && w.state == null && Running(hub)
    modifies hub`s
    ensures var o := old(hub.s).calls[w.call].phase.outcome;
      o.Fired? && success == !o.status.Closed? && (o.got.Some? ==> value == o.got.value)
    ensures Running(hub) && Leads(old(hub.s), Resume(w.call), hub.s)
  {
    hide hub.Valid, Reachable, CodeInv, Answers, FinishLocked;
    ReachableInv(hub.s);
    StepReaches(hub.s, Resume(w.call));
    success, value := FinishRegular(hub, w);
  }

  // ---------------------------------------------------------------------------------------------
  // Calls in a row
  // ---------------------------------------------------------------------------------------------

  /** A task that does not call stays free to call while another does. */
  lemma {:induction false} SenderMay<T(!new)>(hub: Hub<T>, was: State<T>, callers: seq<Task?>, receiver: Task,
      sender: Task, ch: Channel<T>, memory: T, value: T)
    requires hub.Valid() && Leads(was, Receiving(receiver.id, ch.id, memory), hub.s) && Idle(was, ch.id)
    requires |callers| == |was.calls| && callers <= hub.g.callers && receiver in hub.g.tasks
    requires sender in hub.g.tasks - {receiver} && sender.state == Runnable
    requires forall j :: 0 <= j < |callers| && callers[j] == sender ==> !Unfinished(was.calls[j])
    requires hub.Mine(ch) && ch.id < |was.chans| && !was.chans[ch.id].destroyed
    ensures MayCall(hub, sender, [Arm(ch, Op.Send, value)])
  {
    hide hub.Valid, CodeInv, Do, May, Idle;
    ReceiverSleeps(was, receiver.id, ch.id, memory);
    CallSizes(hub);
    forall j | 0 <= j < |hub.s.calls| && hub.g.callers[j] == sender ensures hub.s.calls[j].phase.Returned? {
      CalledBy(hub, j);
      if j < |was.calls| {
        OldCalls(was, j);
        assert callers[j] == sender;
      } else {
        SameTask(hub, sender, receiver);
      }
    }
    assert [Arm(ch, Op.Send, value)][0] == Arm(ch, Op.Send, value);
  }

  lemma {:induction false} CalledBy<T>(hub: Hub<T>, k: nat)
    requires hub.Valid() && k < |hub.s.calls|
    ensures |hub.g.callers| == |hub.s.calls| && hub.s.calls[k].task == IdOf(hub.g.callers[k])
    ensures hub.g.callers[k] != null ==> hub.g.callers[k] in hub.g.tasks
  {
  }

  /** Call `k` is one of `task`. */
  ghost predicate MadeBy<T>(hub: Hub<T>, k: nat, task: Task)
    reads hub`g
  {
    k < |hub.g.callers| && hub.g.callers[k] == task
  }

  lemma {:induction false} CallerIs<T(!new)>(hub: Hub<T>, was: State<T>, receiver: Task, c: nat, memory: T)
    requires hub.Valid() && Leads(was, Receiving(receiver.id, c, memory), hub.s) && Idle(was, c)
    requires receiver in hub.g.tasks
    ensures MadeBy(hub, |was.calls|, receiver)
  {
    hide hub.Valid, CodeInv, Do, May, Idle;
    ReceiverSleeps(was, receiver.id, c, memory);
    CalledBy(hub, |was.calls|);
    SameTask(hub, receiver, hub.g.callers[|was.calls|]);
  }

  lemma {:induction false} SameTask<T>(hub: Hub<T>, a: Task, b: Task)
    requires hub.Valid() && a in hub.g.tasks && b in hub.g.tasks
    ensures a.id == b.id <==> a == b
  {
  }

  lemma {:induction false} OldCalls<T>(s: State<T>, k: nat)
    requires CodeInv(s) && k < |s.calls|
    ensures !s.calls[k].phase.Active?
  {
    hide CodeOk, Base, ChansOk, Drained;
    assert !Abs(s).calls[k].phase.Active?;
  }

  lemma {:induction false} IdleMeansSleep<T>(s: State<T>, c: nat, a: RecvAnswer<T>)
    requires Idle(s, c) && RecvAnswers(s, c, true, a)
    ensures a.RecvAsleep? && LongestWaiting(s, c, Op.Send) == []
  {
  }

  /** What the sleeping receiver of an idle channel is told by the send that follows. */
  lemma {:induction false} SleeperIsTold<T>(s0: State<T>, s1: State<T>, s2: State<T>, receiver: nat, sender: nat,
      c: nat, memory: T, value: T)
    requires Idle(s0, c) && Leads(s0, Receiving(receiver, c, memory), s1)
    requires Leads(s1, Operate(Some(sender), false, [Case(Some(c), Op.Send, value)], [0], true), s2)
    ensures |s0.calls| < |s2.calls| && s2.calls[|s0.calls|].phase == Woken(Fired(0, Value, Some(value)))
  {
    hide CodeInv, Do, MayInvoke, Answers, Live;
    ReceiverSleeps(s0, receiver, c, memory);
    SendWakesFirst(s1, Some(sender), c, value, true);
  }

  /** The scheduler loop, back from a task that parked, gives back the lock its task took. */
  method BackFromTask<T(!new)>(hub: Hub<T>)
    requires hub.locked && Running(hub)
    modifies hub`locked
    ensures !hub.locked && Running(hub)
  {
    hide Reachable;
    hub.Unlock();
  }

  /** The first half of Handover. */
  method Await<T(!new)>(hub: Hub<T>, receiver: Task, ch: Channel<T>, memory: T, ghost sender: Task, ghost value: T)
    returns (w: Waiter<T>)
    requires MayCall(hub, receiver, [Arm(ch, Recv, memory)]) && MayCall(hub, sender, [Arm(ch, Op.Send, value)])
    requires receiver != sender && Idle(hub.s, ch.id) && !hub.locked && Running(hub)
    modifies hub`locked, hub`g, hub`s, hub`runnable, hub.g.queues, hub.g.waiters, hub.g.states
    modifies hub.Sleepers()`state, hub.Sleepers()`channelSuccess
    modifies Self(receiver)`state, Self(receiver)`channelSuccess, Self(receiver)`call
    modifies hub.g.channels`head, hub.g.channels`tail, hub.g.channels`len, hub.g.channels`contents, hub.g.buffers
    ensures !hub.locked && hub.runnable == old(hub.runnable) && MadeBy(hub, |old(hub.s).calls|, receiver)
    ensures SleepsWith(hub, |old(hub.s).calls|, w) && MayCall(hub, sender, [Arm(ch, Op.Send, value)])
    ensures Leads(old(hub.s), Receiving(receiver.id, ch.id, memory), hub.s) && hub.CallAdded() && Running(hub)
  {
    hide hub.Valid, Reachable, Leads, RecvAnswers, Idle, SleepsWith;
    assert [Arm(ch, Recv, memory)][0] == Arm(ch, Recv, memory);
    ghost var s, callers := hub.s, hub.g.callers;
    var a := Receive(hub, receiver, ch, memory, true);
    IdleMeansSleep(s, ch.id, a);
    BackFromTask(hub);
    SenderMay(hub, s, callers, receiver, sender, ch, memory, value);
    CallerIs(hub, s, receiver, ch.id, memory);
    w := a.waiter;
  }

  /** The send to a sleeping receiver is told SENT. */
  lemma {:induction false} SleeperIsServed<T>(s0: State<T>, s1: State<T>, receiver: nat, c: nat, memory: T,
      a: SendAnswer<T>)
    requires Idle(s0, c) && Leads(s0, Receiving(receiver, c, memory), s1) && SendAnswers(s1, c, true, a)
    ensures a == SentNow && ServedBySend(s1, c) == [|s0.calls|]
  {
    hide CodeInv, Do, MayInvoke, Answers, Live;
    ReceiverSleeps(s0, receiver, c, memory);
  }

  /** The second half: the send, and the receiver's return. */
  method Meet<T(!new)>(hub: Hub<T>, sender: Task, ch: Channel<T>, value: T, w: Waiter<T>, ghost start: State<T>,
      ghost receiver: nat, ghost memory: T)
    returns (a: SendAnswer<T>, success: bool, got: T)
    requires MayCall(hub, sender, [Arm(ch, Op.Send, value)]) && SleepsWith(hub, |start.calls|, w)
    requires |start.calls| < |hub.g.callers|
    requires Idle(start, ch.id) && Leads(start, Receiving(receiver, ch.id, memory), hub.s)
    requires Running(hub) && !hub.locked
    modifies hub`locked, hub`g, hub`s, hub`runnable, hub.g.queues, hub.g.waiters, hub.g.states
    modifies hub.Sleepers()`state, hub.Sleepers()`channelSuccess
    modifies Self(sender)`state, Self(sender)`channelSuccess, Self(sender)`call
    modifies hub.g.channels`head, hub.g.channels`tail, hub.g.channels`len, hub.g.channels`contents, hub.g.buffers
    ensures a == SentNow && success && got == value && Running(hub) && !hub.locked && hub.CallAdded()
    ensures hub.runnable == old(hub.runnable) + [old(hub.g).callers[|start.calls|]]
  {
    hide hub.Valid, Reachable, Leads, SendAnswers, Idle, MayCall, ServedBySend;
    ghost var s := hub.s;
    a := Send(hub, sender, ch, value, true);
    SleeperIsServed(start, s, receiver, ch.id, memory, a);
    SleeperIsTold(start, s, hub.s, receiver, sender.id, ch.id, memory, value);
    success, got := ResumeRegular(hub, w);
  }

  /** A task that receives on an idle channel sleeps; another then sends without sleeping, is told SENT, and the
      first, the only one handed to the run queue, wakes with the value sent. */
  method Handover<T(!new)>(hub: Hub<T>, receiver: Task, sender: Task, ch: Channel<T>, memory: T, value: T)
    returns (a: SendAnswer<T>, success: bool, got: T)
    requires MayCall(hub, receiver, [Arm(ch, Recv, memory)]) && MayCall(hub, sender, [Arm(ch, Op.Send, value)])
    requires receiver != sender && Idle(hub.s, ch.id) && !hub.locked && Running(hub)
    modifies hub`locked, hub`g, hub`s, hub`runnable, hub.g.queues, hub.g.waiters, hub.g.states
    modifies hub.Sleepers()`state, hub.Sleepers()`channelSuccess
    modifies Self(receiver)`state, Self(receiver)`channelSuccess, Self(receiver)`call
    modifies Self(sender)`state, Self(sender)`channelSuccess, Self(sender)`call
    modifies hub.g.channels`head, hub.g.channels`tail, hub.g.channels`len, hub.g.channels`contents, hub.g.buffers
    ensures a == SentNow && success && got == value && Running(hub) && !hub.locked && hub.CallAdded()
    ensures hub.runnable == old(hub.runnable) + [receiver]
  {
    hide hub.Valid, Reachable, Leads, Idle, MayCall, SleepsWith, Running, Receiving;
    var w := Await(hub, receiver, ch, memory, sender, value);
    a, success, got := Meet(hub, sender, ch, value, w, old(hub.s), receiver.id, memory);
  }

  /** A channel just made is idle, and whoever makes no call may use it. */
  lemma {:induction false} NewIsIdle<T(!new)>(hub: Hub<T>, ch: Channel<T>, task: Task, arm: Arm<T>)
    requires Running(hub) && Leads(Init(), Open(0), hub.s) && hub.Mine(ch) && task in hub.g.tasks
    requires arm.channel == ch && task.state == Runnable
    ensures ch.id == 0 && !ch.destroyed && Idle(hub.s, 0) && MayCall(hub, task, [arm])
  {
    hide Reachable, CodeInv;
  }

  /** A runtime with one idle channel and two tasks. */
  method SetUp<T(!new)>(ghost memory: T, ghost value: T)
    returns (hub: Hub<T>, ch: Channel<T>, receiver: Task, sender: Task)
    ensures Running(hub) && !hub.locked && hub.Mine(ch) && !ch.destroyed && receiver != sender && Idle(hub.s, ch.id)
    ensures MayCall(hub, receiver, [Arm(ch, Recv, memory)]) && MayCall(hub, sender, [Arm(ch, Op.Send, value)])
    ensures fresh(hub) && fresh(hub.g.tasks) && fresh(receiver) && fresh(sender)
    ensures fresh(hub.g.queues) && fresh(hub.g.buffers)
    ensures fresh(hub.g.waiters) && fresh(hub.g.states)
    ensures forall c :: 0 <= c < |hub.g.channels| ==> fresh(hub.g.channels[c])
  {
    hide Running, Leads, Idle, MayCall;
    hub := Start();
    ch := Create(hub, 4, 0, true);
    receiver := new Task(0);
    sender := new Task(1);
    Enter(hub, receiver);
    Enter(hub, sender);
    NewIsIdle(hub, ch, receiver, Arm(ch, Recv, memory));
    NewIsIdle(hub, ch, sender, Arm(ch, Op.Send, value));
  }

  /** A channel is closed, and so can be freed; the runtime shuts down. */
  method TearDown<T(!new)>(hub: Hub<T>, ch: Channel<T>) returns (freed: bool)
    requires Running(hub) && !hub.locked && hub.Mine(ch) && !ch.destroyed
    modifies hub, hub.g.queues, hub.g.waiters, hub.g.states, hub.g.channels
    modifies hub.Sleepers()`state, hub.Sleepers()`channelSuccess
    ensures freed && Running(hub) && !hub.locked && hub.shutdown
  {
    hide Running, Leads;
    Close(hub, ch);
    freed := Destroy(hub, ch);
    RequestShutdown(hub);
  }

  /** From nothing: a runtime, an unbuffered channel, two tasks.  One hands the other a value, the channel is closed
      and can be freed, and the runtime shuts down. */
  method FromNothing<T(!new)>(memory: T, value: T) returns (got: T, freed: bool)
    ensures got == value && freed
  {
    hide Running, Leads, Idle, MayCall;
    var hub, ch, receiver, sender := SetUp(memory, value);
    var a, success;
    a, success, got := Handover(hub, receiver, sender, ch, memory, value);
    freed := TearDown(hub, ch);
  }

  /** An open channel with room for `n` values that holds `vs`, on which no receiver waits. */
  ghost predicate Buffers<T>(s: State<T>, c: nat, vs: seq<T>, n: nat) {
    && c < |s.chans| && !s.chans[c].closed && !s.shutdown && Live(s.chans[c].receivers, s.calls) == []
    && s.chans[c].buffer == vs && s.chans[c].capacity == n
  }

  lemma {:induction false} NewBuffers<T(!new)>(hub: Hub<T>, ch: Channel<T>, n: nat)
    requires Running(hub) && Leads(Init(), Open(n), hub.s) && hub.Mine(ch)
    ensures !ch.destroyed && Buffers(hub.s, ch.id, [], n)
  {
    hide Reachable, CodeInv;
  }

  lemma {:induction false} SendBuffers<T>(s: State<T>, s': State<T>, c: nat, vs: seq<T>, n: nat, v: T, a: SendAnswer<T>)
    requires Buffers(s, c, vs, n) && SendAnswers(s, c, false, a)
    requires Leads(s, Operate(None, false, [Case(Some(c), Op.Send, v)], [0], false), s')
    ensures a == if |vs| < n then SentNow else SendRefused
    ensures Buffers(s', c, if |vs| < n then vs + [v] else vs, n)
  {
    hide CodeInv, Do, MayInvoke, Answers, Live;
    SendFillsBuffer(s, None, c, v, false);
  }

  lemma {:induction false} ReceiveTakes<T>(s: State<T>, c: nat, vs: seq<T>, n: nat, a: RecvAnswer<T>)
    requires Buffers(s, c, vs, n) && vs != [] && RecvAnswers(s, c, false, a)
    ensures a == Got(vs[0])
  {
  }

  /** A thread without a task sends and does not wait. */
  method Offer<T(!new)>(hub: Hub<T>, ch: Channel<T>, value: T, ghost vs: seq<T>, ghost n: nat)
    returns (a: SendAnswer<T>)
    requires Running(hub) && !hub.locked && hub.Mine(ch) && !ch.destroyed && Buffers(hub.s, ch.id, vs, n)
    modifies hub`locked, hub`g, hub`s, hub`runnable, hub.g.queues, hub.g.waiters, hub.g.states
    modifies hub.Sleepers()`state, hub.Sleepers()`channelSuccess
    modifies hub.g.channels`head, hub.g.channels`tail, hub.g.channels`len, hub.g.channels`contents, hub.g.buffers
    ensures a == if |vs| < n then SentNow else SendRefused
    ensures Running(hub) && !hub.locked && hub.CallAdded()
    ensures Buffers(hub.s, ch.id, if |vs| < n then vs + [value] else vs, n)
  {
    hide Running, Leads, MayCall, SendAnswers, Buffers;
    MayWithoutTask(hub, Arm(ch, Op.Send, value));
    a := Send(hub, null, ch, value, false);
    SendBuffers(old(hub.s), hub.s, ch.id, vs, n, value, a);
  }

  /** From nothing, without tasks: a value sent on a buffered channel can be received, and one for which there was no
      room is turned away. */
  method ThroughBuffer<T(!new)>(first: T, second: T, memory: T)
    returns (a: SendAnswer<T>, b: SendAnswer<T>, c: RecvAnswer<T>)
    ensures a == SentNow && b == SendRefused && c == Got(first)
  {
    hide Running, Leads, MayCall, RecvAnswers, Buffers;
    var hub: Hub<T> := Start();
    var ch := Create(hub, 4, 1, true);
    NewBuffers(hub, ch, 1);
    a := Offer(hub, ch, first, [], 1);
    assert [] + [first] == [first];
    b := Offer(hub, ch, second, [first], 1);
    ghost var s := hub.s;
    MayWithoutTask(hub, Arm(ch, Recv, memory));
    c := Receive(hub, null, ch, memory, false);
    ReceiveTakes(s, ch.id, [first], 1, c);
  }
}
