/** src/channel.c on the heap: every operation under the scheduler lock does to the linked structures what
    the functions of ChannelCode do to values. */
module ChannelHub {
  import opened Basics
  import opened ChannelTypes
  import opened ChannelSpec
  import opened ChannelCode
  import opened Tasks
  import opened ChannelHeap

  function Queue<T>(ch: Channel<T>, op: Op): WaitQueue<T> {
    if op.Send? then ch.sendWaiters else ch.recvWaiters
  }

  ghost function NamesOf<T>(nodes: seq<Waiter<T>>): seq<Ref> {
    seq(|nodes|, i requires 0 <= i < |nodes| => nodes[i].Name())
  }

  /** Who is who: the objects behind channel numbers, call numbers and waiter names.  `waiters` are those
      of calls that have not returned. */
  datatype World<T> = World(
    channels: seq<Channel<T>>, callers: seq<Task?>, selects: seq<SelectState?>, links: map<Ref, Waiter<T>>,
    queues: set<WaitQueue<T>>, buffers: set<array<Option<T>>>, waiters: set<Waiter<T>>,
    tasks: set<Task>, states: set<SelectState>)

  ghost function IdOf(task: Task?): Option<nat> {
    if task == null then None else Some(task.id)
  }

  /** A call names the task that makes it, and tasks have names of their own. */
  ghost predicate Known<T>(g: World<T>, calls: seq<Call<T>>)
    requires |g.callers| == |calls|
  {
    && (forall k :: 0 <= k < |calls| ==> calls[k].task == IdOf(g.callers[k]))
    && (forall a, b :: a in g.tasks && b in g.tasks && a.id == b.id ==> a == b)
  }

  /** Every channel has its own queues and its own buffer, every call its own select state. */
  ghost predicate Shape<T>(g: World<T>, s: State<T>) {
    && |g.channels| == |s.chans| && |g.callers| == |s.calls| && |g.selects| == |s.calls| && InRange(s)
    && Known(g, s.calls)
    && (forall c :: 0 <= c < |g.channels| ==>
          g.channels[c].id == c && g.channels[c].capacity == s.chans[c].capacity && g.channels[c].buffer in g.buffers)
    && (forall c, op :: 0 <= c < |g.channels| ==>
          var q := Queue(g.channels[c], op); q in g.queues && q.chan == c && q.op == op)
    && (forall c, d :: 0 <= c < d < |g.channels| ==> g.channels[c].buffer != g.channels[d].buffer)
    && (forall k :: 0 <= k < |g.callers| && g.callers[k] != null ==> g.callers[k] in g.tasks)
    && (forall k :: 0 <= k < |g.selects| && g.selects[k] != null ==> g.selects[k] in g.states && g.selects[k].call == k)
    && (forall r :: r in g.links ==> g.links[r] in g.waiters && g.links[r].Name() == r)
  }

  /** A queue is linked as it should be and holds only waiters that say so. */
  ghost predicate Chained<T>(g: World<T>, c: nat, op: Op)
    requires c < |g.channels| && Queue(g.channels[c], op) in g.queues
    reads g.queues, g.waiters`prev, g.waiters`next, g.waiters`channel
  {
    var q := Queue(g.channels[c], op);
    && (forall w :: w in q.nodes ==> w in g.waiters && w.channel == g.channels[c] && w.op == op)
    && q.Valid()
  }

  ghost predicate Chains<T>(g: World<T>)
    requires forall c, op :: 0 <= c < |g.channels| ==> Queue(g.channels[c], op) in g.queues
    reads g.queues, g.waiters`prev, g.waiters`next, g.waiters`channel
  {
    forall c, op :: 0 <= c < |g.channels| ==> Chained(g, c, op)
  }

  /** Rings hold the buffered values. */
  ghost predicate Rings<T>(g: World<T>, chans: seq<Chan<T>>)
    requires |g.channels| == |chans| && forall c :: 0 <= c < |g.channels| ==> g.channels[c].buffer in g.buffers
    reads g.channels, g.buffers
  {
    forall c :: 0 <= c < |g.channels| ==>
      && g.channels[c].Ring() && g.channels[c].closed == chans[c].closed && g.channels[c].contents == chans[c].buffer
      && g.channels[c].destroyed == chans[c].destroyed && (chans[c].destroyed ==> chans[c].closed)
  }

  /** The channels below `n` that are not destroyed, newest first. */
  ghost function Alive<T>(channels: seq<Channel<T>>, n: nat): seq<Channel<T>>
    requires n <= |channels|
    reads channels`destroyed
  {
    if n == 0 then []
    else if channels[n - 1].destroyed then Alive(channels, n - 1)
    else [channels[n - 1]] + Alive(channels, n - 1)
  }

  /** Queues hold the waiters the state names, in that order. */
  ghost predicate Named<T>(g: World<T>, chans: seq<Chan<T>>)
    requires |g.channels| == |chans| && forall c, op :: 0 <= c < |g.channels| ==> Queue(g.channels[c], op) in g.queues
    reads g.queues`nodes
  {
    forall c, op :: 0 <= c < |g.channels| ==> NamesOf(Queue(g.channels[c], op).nodes) == Waiters(chans[c], op)
  }

  ghost predicate NamedElsewhere<T>(g: World<T>, chans: seq<Chan<T>>, c: nat, op: Op)
    requires |g.channels| == |chans| && forall c, op :: 0 <= c < |g.channels| ==> Queue(g.channels[c], op) in g.queues
    reads g.queues`nodes
  {
    forall d, o :: 0 <= d < |g.channels| && !(d == c && o == op) ==>
      NamesOf(Queue(g.channels[d], o).nodes) == Waiters(chans[d], o)
  }

  /** A waiter stands for one case of one call. */
  ghost predicate Stands<T>(g: World<T>, calls: seq<Call<T>>, w: Waiter<T>)
    requires |g.callers| == |g.selects| == |calls|
    reads w`slot
  {
    && w.call < |calls| && w.caseIndex < |calls[w.call].cases| && w.Name() in g.links && g.links[w.Name()] == w
    && w.task == g.callers[w.call] && w.state == g.selects[w.call] && calls[w.call].cases[w.caseIndex].op == w.op
    && (w.op.Send? ==> w.slot == calls[w.call].cases[w.caseIndex].value)
    && (w.state == null ==> |calls[w.call].cases| == 1) && !calls[w.call].phase.Active?
  }

  ghost predicate Standing<T>(g: World<T>, calls: seq<Call<T>>)
    requires |g.callers| == |g.selects| == |calls|
    reads g.waiters`slot
  {
    forall w :: w in g.waiters ==> Stands(g, calls, w)
  }

  /** A regular waiter is linked only while its call sleeps. */
  ghost predicate Asleep<T>(g: World<T>, calls: seq<Call<T>>)
    reads g.waiters`channel
  {
    forall w :: w in g.waiters && w.state == null && w.channel != null ==>
      w.call < |calls| && calls[w.call].phase.Parked?
  }

  /** A waiter that has a channel is named in that channel's queue. */
  ghost predicate Homes<T>(g: World<T>, chans: seq<Chan<T>>)
    reads g.waiters`channel
  {
    forall w :: w in g.waiters && w.channel != null ==>
      && w.channel.id < |g.channels| && w.channel.id < |chans| && g.channels[w.channel.id] == w.channel
      && w.Name() in Waiters(chans[w.channel.id], w.op)
  }

  /** What a woken caller will read: for a select the chosen case, else success or failure; and the value. */
  ghost predicate Reads<T>(g: World<T>, k: nat, o: Outcome<T>)
    requires k < |g.callers| == |g.selects| && o.Fired? && g.callers[k] in g.tasks
    requires g.selects[k] != null ==> g.selects[k] in g.states
    reads g.tasks, g.states, g.waiters`slot
  {
    && (if g.selects[k] != null then g.selects[k].chosenIndex == o.idx && g.selects[k].chosenStatus == Some(o.status)
        else g.callers[k].channelSuccess == !o.status.Closed?)
    && (o.got.Some? ==>
          && Ref(k, o.idx) in g.links
          && var w := g.links[Ref(k, o.idx)]; w in g.waiters && w.call == k && w.slot == o.got.value)
  }

  /** A call and its task: asleep in this call while parked, told what the state says once woken. */
  ghost predicate CallOk<T>(g: World<T>, k: nat, phase: Phase<T>)
    requires k < |g.callers| == |g.selects| && (g.selects[k] != null ==> g.selects[k] in g.states)
    reads g.tasks, g.states, g.waiters`slot
  {
    && (phase.Parked? || phase.Woken? ==> g.callers[k] in g.tasks && g.callers[k].call == k)
    && (phase.Parked? ==> g.callers[k].state == WaitingChannel)
    && (phase.Woken? ==> g.callers[k].state == Runnable)
    && (phase.Active? ==> g.selects[k] == null)
    && (g.selects[k] != null ==> (g.selects[k].done <==> !phase.Parked?))
    && (phase.Woken? ==> phase.outcome.Fired? && Reads(g, k, phase.outcome))
  }

  ghost predicate CallsOk<T>(g: World<T>, calls: seq<Call<T>>)
    requires |g.callers| == |g.selects| == |calls|
    requires forall k :: 0 <= k < |g.selects| && g.selects[k] != null ==> g.selects[k] in g.states
    reads g.tasks, g.states, g.waiters`slot
  {
    forall k :: 0 <= k < |calls| ==> CallOk(g, k, calls[k].phase)
  }

  // ---------------------------------------------------------------------------------------------
  // Whom a change hands to the run queue
  // ---------------------------------------------------------------------------------------------

  /** Sleeping calls may have been woken and the active call answered; nothing else became of any call. */
  ghost predicate Steadily<T>(calls: seq<Call<T>>, calls': seq<Call<T>>) {
    && |calls'| == |calls|
    && forall k :: 0 <= k < |calls| ==>
         || calls'[k] == calls[k] || WokenNow(calls, calls', k)
         || (calls[k].phase.Active? && calls'[k].phase.Returned?)
  }

  ghost function TasksOf(callers: seq<Task?>, ks: seq<nat>): seq<Task?> {
    seq(|ks|, i requires 0 <= i < |ks| => if ks[i] < |callers| then callers[ks[i]] else null)
  }

  /** `ks` are the calls that were woken, each once. */
  ghost predicate Exactly<T>(calls: seq<Call<T>>, calls': seq<Call<T>>, ks: seq<nat>) {
    && (forall i, j :: 0 <= i < j < |ks| ==> ks[i] != ks[j])
    && (forall k: nat :: k in ks <==> WokenNow(calls, calls', k))
  }

  /** The log of tasks handed to the run queue went on with the tasks of exactly the calls that were woken. */
  ghost predicate Queues<T>(callers: seq<Task?>, calls: seq<Call<T>>, calls': seq<Call<T>>, log: seq<Task?>,
      log': seq<Task?>)
  {
    exists ks :: Exactly(calls, calls', ks) && log' == log + TasksOf(callers, ks)
  }

  lemma {:induction false} HandsNobody<T>(callers: seq<Task?>, calls: seq<Call<T>>, calls': seq<Call<T>>,
      log: seq<Task?>)
    requires |calls'| == |calls|
    requires forall k :: 0 <= k < |calls| ==>
      calls'[k] == calls[k] || (calls[k].phase.Active? && calls'[k].phase.Returned?)
    ensures Steadily(calls, calls') && Queues(callers, calls, calls', log, log)
  {
    var ks: seq<nat> := [];
    assert Exactly(calls, calls', ks);
    assert log == log + TasksOf(callers, ks);
  }

  lemma {:induction false} HandsOne<T>(callers: seq<Task?>, calls: seq<Call<T>>, calls': seq<Call<T>>, log: seq<Task?>,
      k: nat)
    requires |calls'| == |calls| && k < |callers| && WokenNow(calls, calls', k)
    requires forall j :: 0 <= j < |calls| && j != k ==> calls'[j] == calls[j]
    ensures Steadily(calls, calls') && Queues(callers, calls, calls', log, log + [callers[k]])
  {
    var ks := [k];
    assert Exactly(calls, calls', ks);
    assert TasksOf(callers, ks) == [callers[k]];
  }

  lemma {:induction false} WokenOn<T>(a: seq<Call<T>>, b: seq<Call<T>>, c: seq<Call<T>>, k: nat)
    requires Steadily(a, b) && Steadily(b, c)
    ensures WokenNow(a, c, k) <==> WokenNow(a, b, k) || WokenNow(b, c, k)
    ensures !(WokenNow(a, b, k) && WokenNow(b, c, k))
    ensures k < |a| ==>
      || c[k] == a[k] || WokenNow(a, c, k) || (a[k].phase.Active? && c[k].phase.Returned?)
  {
    if k < |a| {
      assert b[k] == a[k] || WokenNow(a, b, k) || (a[k].phase.Active? && b[k].phase.Returned?);
      assert c[k] == b[k] || WokenNow(b, c, k) || (b[k].phase.Active? && c[k].phase.Returned?);
    }
  }

  lemma {:induction false} ExactlyOn<T>(a: seq<Call<T>>, b: seq<Call<T>>, c: seq<Call<T>>, ks: seq<nat>, js: seq<nat>)
    requires Steadily(a, b) && Steadily(b, c) && Exactly(a, b, ks) && Exactly(b, c, js)
    ensures Exactly(a, c, ks + js)
  {
    hide Steadily, WokenNow;
    var all := ks + js;
    forall k: nat ensures k in all <==> WokenNow(a, c, k) {
      WokenOn(a, b, c, k);
    }
    forall i, j | 0 <= i < j < |all| ensures all[i] != all[j] {
      if i < |ks| <= j {
        WokenOn(a, b, c, ks[i]);
        assert ks[i] in ks && js[j - |ks|] in js;
      }
    }
  }

  /** One change after another. */
  lemma {:induction false} HandsOn<T>(callers: seq<Task?>, a: seq<Call<T>>, b: seq<Call<T>>, c: seq<Call<T>>,
      log: seq<Task?>, log': seq<Task?>, log'': seq<Task?>)
    requires Steadily(a, b) && Queues(callers, a, b, log, log')
    requires Steadily(b, c) && Queues(callers, b, c, log', log'')
    ensures Steadily(a, c) && Queues(callers, a, c, log, log'')
  {
    hide Exactly, WokenNow;
    var ks: seq<nat> :| Exactly(a, b, ks) && log' == log + TasksOf(callers, ks);
    var js: seq<nat> :| Exactly(b, c, js) && log'' == log' + TasksOf(callers, js);
    ExactlyOn(a, b, c, ks, js);
    assert TasksOf(callers, ks + js) == TasksOf(callers, ks) + TasksOf(callers, js);
    forall k | 0 <= k < |a|
      ensures c[k] == a[k] || WokenNow(a, c, k) || (a[k].phase.Active? && c[k].phase.Returned?)
    {
      WokenOn(a, b, c, k);
    }
  }

  /** The active call itself goes to sleep, or returns. */
  lemma {:induction false} HandsActive<T>(callers: seq<Task?>, a: seq<Call<T>>, b: seq<Call<T>>, c: seq<Call<T>>,
      log: seq<Task?>, log': seq<Task?>, k: nat)
    requires Queues(callers, a, b, log, log') && k < |a| == |b| == |c| && a[k].phase.Active?
    requires forall j :: 0 <= j < |b| && j != k ==> c[j] == b[j]
    ensures Queues(callers, a, c, log, log')
  {
    var ks: seq<nat> :| Exactly(a, b, ks) && log' == log + TasksOf(callers, ks);
    assert forall j: nat :: WokenNow(a, b, j) == WokenNow(a, c, j);
    assert Exactly(a, c, ks);
  }

  /** A call begins and goes on. */
  lemma {:induction false} HandsBegun<T>(callers: seq<Task?>, a: seq<Call<T>>, b: seq<Call<T>>, c: seq<Call<T>>,
      log: seq<Task?>, log': seq<Task?>)
    requires |b| == |a| + 1 && b[..|a|] == a && b[|a|].phase.Active? && |c| == |b| && Queues(callers, b, c, log, log')
    ensures Queues(callers, a, c, log, log')
  {
    var ks: seq<nat> :| Exactly(b, c, ks) && log' == log + TasksOf(callers, ks);
    assert forall j: nat :: j < |a| ==> a[j] == b[j];
    assert forall j: nat :: WokenNow(b, c, j) == WokenNow(a, c, j);
    assert Exactly(a, c, ks);
  }

  // ---------------------------------------------------------------------------------------------
  // A change of the state that the heap does not see
  // ---------------------------------------------------------------------------------------------

  /** The same channels up to queues and history, the same calls up to what became of them. */
  ghost predicate SameFrame<T>(s: State<T>, s': State<T>) {
    && |s'.chans| == |s.chans| && |s'.calls| == |s.calls| && s'.shutdown == s.shutdown
    && (forall c :: 0 <= c < |s.chans| ==> s'.chans[c].capacity == s.chans[c].capacity)
    && (forall k :: 0 <= k < |s.calls| ==> s'.calls[k].cases == s.calls[k].cases && s'.calls[k].task == s.calls[k].task)
  }

  ghost predicate SameRings<T>(a: seq<Chan<T>>, b: seq<Chan<T>>) {
    && |a| == |b|
    && forall c :: 0 <= c < |a| ==>
         a[c].closed == b[c].closed && a[c].buffer == b[c].buffer && a[c].destroyed == b[c].destroyed
  }

  lemma {:induction false} KeepShape<T>(g: World<T>, s: State<T>, s': State<T>)
    requires Shape(g, s) && SameFrame(s, s')
    ensures Shape(g, s')
  {
    assert forall r :: ValidRef(s', r) == ValidRef(s, r);
  }

  lemma {:induction false} KeepRings<T>(g: World<T>, s: State<T>, s': State<T>)
    requires Shape(g, s) && Rings(g, s.chans) && SameRings(s.chans, s'.chans)
    ensures Rings(g, s'.chans)
  {
  }

  lemma {:induction false} KeepNames<T>(g: World<T>, s: State<T>, s': State<T>)
    requires Shape(g, s) && Named(g, s.chans) && Homes(g, s.chans) && |s'.chans| == |s.chans|
    requires forall c, op :: 0 <= c < |s.chans| ==> Waiters(s'.chans[c], op) == Waiters(s.chans[c], op)
    ensures Named(g, s'.chans) && Homes(g, s'.chans)
  {
  }

  lemma {:induction false} MarkKeeps<T>(g: World<T>, s: State<T>, w: Waiter<T>, status: Status, got: Option<T>)
    requires Shape(g, s) && Standing(g, s.calls) && Asleep(g, s.calls) && w in g.waiters && w.channel == null
    ensures w.call < |s.calls| && Shape(g, Mark(s, w.Name(), status, got))
    ensures Standing(g, Mark(s, w.Name(), status, got).calls) && Asleep(g, Mark(s, w.Name(), status, got).calls)
  {
    assert Stands(g, s.calls, w);
    KeepShape(g, s, Mark(s, w.Name(), status, got));
    var calls := Mark(s, w.Name(), status, got).calls;
    forall v | v in g.waiters ensures Stands(g, calls, v)
      ensures v.state == null && v.channel != null ==> v.call < |calls| && calls[v.call].phase.Parked?
    {
      assert Stands(g, s.calls, v);
    }
  }

  ghost predicate SameButHistory<T>(s: State<T>, s': State<T>) {
    && s'.calls == s.calls && s'.shutdown == s.shutdown && |s'.chans| == |s.chans|
    && forall c :: 0 <= c < |s.chans| ==>
         s'.chans[c] == s.chans[c].(accepted := s'.chans[c].accepted, delivered := s'.chans[c].delivered)
  }

  lemma {:induction false} AnswerKeeps<T>(g: World<T>, s: State<T>, me: Ref, status: Status, got: Option<T>)
    requires Shape(g, s) && Standing(g, s.calls) && Asleep(g, s.calls) && CallsOk(g, s.calls)
    requires me.call < |s.calls| && s.calls[me.call].phase.Active?
    ensures var calls := Mark(s, me, status, got).calls; Standing(g, calls) && Asleep(g, calls) && CallsOk(g, calls)
  {
    var calls := Mark(s, me, status, got).calls;
    forall w | w in g.waiters ensures Stands(g, calls, w) {
      assert Stands(g, s.calls, w);
    }
    forall k | 0 <= k < |calls| ensures CallOk(g, k, calls[k].phase) {
      assert CallOk(g, k, s.calls[k].phase);
    }
  }

  lemma {:induction false} SetTwice<T>(s: State<T>, c: nat, op: Op, a: seq<Ref>, b: seq<Ref>)
    requires c < |s.chans|
    ensures SetQueue(SetQueue(s, c, op, a), c, op, b) == SetQueue(s, c, op, b)
  {
  }

  // ---------------------------------------------------------------------------------------------
  // One more channel
  // ---------------------------------------------------------------------------------------------

  ghost function WithChannel<T>(g: World<T>, ch: Channel<T>): World<T> {
    g.(channels := g.channels + [ch], queues := g.queues + {ch.sendWaiters, ch.recvWaiters},
       buffers := g.buffers + {ch.buffer})
  }

  lemma {:induction false} AddedShape<T>(g: World<T>, s: State<T>, ch: Channel<T>, after: State<T>)
    requires Shape(g, s) && after == ChannelSpec.Create(s, ch.capacity) && ch.id == |g.channels|
    requires ch.buffer !in g.buffers
    requires forall op :: Queue(ch, op).chan == ch.id && Queue(ch, op).op == op
    ensures Shape(WithChannel(g, ch), after)
  {
    assert forall r :: ValidRef(after, r) == ValidRef(s, r);
  }

  lemma {:induction false} AddedHeap<T>(g: World<T>, chans: seq<Chan<T>>, ch: Channel<T>, chans': seq<Chan<T>>)
    requires |g.channels| == |chans| && forall c :: 0 <= c < |g.channels| ==> g.channels[c].buffer in g.buffers
    requires forall c, op :: 0 <= c < |g.channels| ==> Queue(g.channels[c], op) in g.queues
    requires Chains(g) && Rings(g, chans) && Named(g, chans) && Homes(g, chans)
    requires chans' == chans + [Chan(ch.capacity, false, false, [], [], [], [], [])]
    requires ch.Ring() && !ch.closed && !ch.destroyed && ch.contents == []
    requires forall op :: Queue(ch, op).Valid() && Queue(ch, op).nodes == []
    ensures var g' := WithChannel(g, ch);
      && (forall c :: 0 <= c < |g'.channels| ==> g'.channels[c].buffer in g'.buffers)
      && (forall c, op :: 0 <= c < |g'.channels| ==> Queue(g'.channels[c], op) in g'.queues)
      && Chains(g') && Rings(g', chans') && Named(g', chans') && Homes(g', chans')
  {
    var g' := WithChannel(g, ch);
    forall c, op | 0 <= c < |g'.channels| ensures Queue(g'.channels[c], op) in g'.queues && Chained(g', c, op) {
      if c < |g.channels| {
        assert Chained(g, c, op);
      }
    }
  }

  lemma {:induction false} AliveSame<T>(channels: seq<Channel<T>>, more: seq<Channel<T>>, n: nat)
    requires n <= |channels| && channels <= more
    ensures Alive(more, n) == Alive(channels, n)
  {
    if n == 0 {
    } else {
      AliveSame(channels, more, n - 1);
    }
  }

  lemma {:induction false} AddedAlive<T>(g: World<T>, ch: Channel<T>)
    requires !ch.destroyed
    ensures Alive(WithChannel(g, ch).channels, |g.channels| + 1) == [ch] + Alive(g.channels, |g.channels|)
  {
    AliveSame(g.channels, g.channels + [ch], |g.channels|);
  }

  // ---------------------------------------------------------------------------------------------
  // One more call, one more waiter
  // ---------------------------------------------------------------------------------------------

  lemma {:induction false} BegunPeople<T>(g: World<T>, s: State<T>, task: Task?, g': World<T>, s': State<T>)
    requires Shape(g, s) && Standing(g, s.calls) && Asleep(g, s.calls) && CallsOk(g, s.calls)
    requires task != null ==> task in g.tasks
    requires g' == g.(callers := g.callers + [task], selects := g.selects + [null])
    requires |s'.calls| == |s.calls| + 1 && s'.calls[..|s.calls|] == s.calls && s'.calls[|s.calls|].phase.Active?
    requires s'.calls[|s.calls|].task == IdOf(task)
    requires s'.chans == s.chans
    requires forall i :: 0 <= i < |s'.calls[|s.calls|].cases| && s'.calls[|s.calls|].cases[i].chan.Some? ==>
      s'.calls[|s.calls|].cases[i].chan.value < |s.chans|
    ensures Shape(g', s') && Standing(g', s'.calls) && Asleep(g', s'.calls) && CallsOk(g', s'.calls)
  {
    assert forall k :: 0 <= k < |s.calls| ==> s'.calls[k] == s.calls[k];
    forall r | ValidRef(s', r) && CaseAt(s', r).chan.Some? ensures CaseAt(s', r).chan.value < |s'.chans| {
      assert r.call < |s.calls| ==> ValidRef(s, r) && CaseAt(s, r) == CaseAt(s', r);
    }
    forall w | w in g.waiters ensures Stands(g', s'.calls, w) {
      assert Stands(g, s.calls, w);
    }
    forall k | 0 <= k < |s'.calls| ensures CallOk(g', k, s'.calls[k].phase) {
      if k < |s.calls| {
        assert CallOk(g, k, s.calls[k].phase);
      }
    }
  }

  /** The state in which call `k` sleeps but none of its waiters is linked yet. */
  ghost function Asleeping<T>(s: State<T>, k: nat): State<T>
    requires k < |s.calls|
  {
    s.(calls := s.calls[k := s.calls[k].(phase := Parked)])
  }

  lemma {:induction false} SleptPeople<T>(g: World<T>, s: State<T>, k: nat, world: World<T>)
    requires Shape(g, s) && Standing(g, s.calls) && Asleep(g, s.calls) && k < |s.calls| && s.calls[k].phase.Active?
    requires Shape(world, s) && world == g.(selects := world.selects, states := world.states)
    requires forall j :: 0 <= j < |s.calls| && j != k ==> world.selects[j] == g.selects[j]
    ensures Shape(world, Asleeping(s, k)) && Standing(world, Asleeping(s, k).calls)
    ensures Asleep(world, Asleeping(s, k).calls)
  {
    var calls := Asleeping(s, k).calls;
    assert forall r :: ValidRef(Asleeping(s, k), r) == ValidRef(s, r);
    forall w | w in g.waiters ensures Stands(world, calls, w) {
      assert Stands(g, s.calls, w);
    }
  }

  ghost function WithWaiter<T>(g: World<T>, w: Waiter<T>): World<T> {
    g.(waiters := g.waiters + {w}, links := g.links[w.Name() := w])
  }

  lemma {:induction false} MorePeople<T>(g: World<T>, s: State<T>, w: Waiter<T>)
    requires Shape(g, s) && Standing(g, s.calls) && Asleep(g, s.calls) && CallsOk(g, s.calls)
    requires w !in g.waiters && w.Name() !in g.links && w.channel == null && Stands(WithWaiter(g, w), s.calls, w)
    ensures var g' := WithWaiter(g, w);
      Shape(g', s) && Standing(g', s.calls) && Asleep(g', s.calls) && CallsOk(g', s.calls)
  {
    var g' := WithWaiter(g, w);
    forall v | v in g'.waiters ensures Stands(g', s.calls, v) {
      assert v != w ==> Stands(g, s.calls, v);
    }
    forall k | 0 <= k < |s.calls| ensures CallOk(g', k, s.calls[k].phase) {
      assert CallOk(g, k, s.calls[k].phase);
    }
  }

  lemma {:induction false} MoreWaiters<T>(g: World<T>, chans: seq<Chan<T>>, w: Waiter<T>)
    requires |g.channels| == |chans| && forall c :: 0 <= c < |g.channels| ==> g.channels[c].buffer in g.buffers
    requires forall c, op :: 0 <= c < |g.channels| ==> Queue(g.channels[c], op) in g.queues
    requires Chains(g) && Rings(g, chans) && Named(g, chans) && Homes(g, chans) && w.channel == null
    ensures var g' := WithWaiter(g, w); Chains(g') && Rings(g', chans) && Named(g', chans) && Homes(g', chans)
  {
    var g' := WithWaiter(g, w);
    forall c, op | 0 <= c < |g'.channels| ensures Chained(g', c, op) {
      assert Chained(g, c, op);
    }
  }

  // ---------------------------------------------------------------------------------------------
  // One channel fewer
  // ---------------------------------------------------------------------------------------------

  function Remove<T>(registry: seq<Channel<T>>, ch: Channel<T>): seq<Channel<T>> {
    if registry == [] then [] else if registry[0] == ch then registry[1..]
    else [registry[0]] + Remove(registry[1..], ch)
  }

  ghost function Unflagged<T>(channels: seq<Channel<T>>, flags: seq<bool>, n: nat): seq<Channel<T>>
    requires n <= |channels| == |flags|
  {
    if n == 0 then []
    else if flags[n - 1] then Unflagged(channels, flags, n - 1)
    else [channels[n - 1]] + Unflagged(channels, flags, n - 1)
  }

  ghost function Destroyed<T>(chans: seq<Chan<T>>): seq<bool> {
    seq(|chans|, i requires 0 <= i < |chans| => chans[i].destroyed)
  }

  lemma {:induction false} AliveFlags<T>(channels: seq<Channel<T>>, flags: seq<bool>, n: nat)
    requires n <= |channels| == |flags| && forall i :: 0 <= i < |flags| ==> flags[i] == channels[i].destroyed
    ensures Alive(channels, n) == Unflagged(channels, flags, n)
  {
    if n == 0 {
    } else {
      AliveFlags(channels, flags, n - 1);
    }
  }

  lemma {:induction false} FlagRemoves<T>(channels: seq<Channel<T>>, flags: seq<bool>, c: nat, n: nat)
    requires c < |channels| == |flags| && n <= |channels| && !flags[c]
    requires forall i :: 0 <= i < |channels| ==> channels[i].id == i
    ensures Unflagged(channels, flags[c := true], n) ==
      if c < n then Remove(Unflagged(channels, flags, n), channels[c]) else Unflagged(channels, flags, n)
  {
    hide Remove;
    if n == 0 {
    } else {
      FlagRemoves(channels, flags, c, n - 1);
      RemoveFront(channels[n - 1], Unflagged(channels, flags, n - 1), channels[c]);
      assert channels[n - 1] == channels[c] <==> n - 1 == c;
    }
  }

  lemma {:induction false} RemoveFront<T>(x: Channel<T>, rest: seq<Channel<T>>, ch: Channel<T>)
    ensures Remove([x] + rest, ch) == if x == ch then rest else [x] + Remove(rest, ch)
  {
    assert ([x] + rest)[1..] == rest;
  }

  lemma {:induction false} SameHeap<T>(g: World<T>, g': World<T>, chans: seq<Chan<T>>)
    requires g'.channels == g.channels && g'.queues == g.queues && g'.buffers == g.buffers && g'.waiters == g.waiters
    requires |g.channels| == |chans| && forall c :: 0 <= c < |g.channels| ==> g.channels[c].buffer in g.buffers
    requires forall c, op :: 0 <= c < |g.channels| ==> Queue(g.channels[c], op) in g.queues
    requires Chains(g) && Rings(g, chans) && Named(g, chans) && Homes(g, chans)
    ensures Chains(g') && Rings(g', chans) && Named(g', chans) && Homes(g', chans)
  {
    forall c, op | 0 <= c < |g'.channels| ensures Chained(g', c, op) {
      assert Chained(g, c, op);
    }
  }

  lemma {:induction false} GivenUp<T>(g: World<T>, s: State<T>, k: nat)
    requires Shape(g, s) && Standing(g, s.calls) && Asleep(g, s.calls) && CallsOk(g, s.calls) && k < |s.calls|
    requires s.calls[k].phase.Active?
    ensures var calls := Return(s, k).calls; Standing(g, calls) && Asleep(g, calls) && CallsOk(g, calls)
  {
    var calls := Return(s, k).calls;
    forall w | w in g.waiters ensures Stands(g, calls, w) {
      assert Stands(g, s.calls, w);
    }
    forall j | 0 <= j < |calls| ensures CallOk(g, j, calls[j].phase) {
      assert CallOk(g, j, s.calls[j].phase);
    }
  }

  lemma {:induction false} Concluded<T>(g: World<T>, s: State<T>, k: nat)
    requires Shape(g, s) && Standing(g, s.calls) && Asleep(g, s.calls) && CallsOk(g, s.calls) && k < |s.calls|
    requires s.calls[k].phase.Woken?
    ensures var calls := Finish(s, k).calls; Standing(g, calls) && Asleep(g, calls) && CallsOk(g, calls)
  {
    var calls := Finish(s, k).calls;
    forall w | w in g.waiters ensures Stands(g, calls, w) {
      assert Stands(g, s.calls, w);
    }
    forall j | 0 <= j < |calls| ensures CallOk(g, j, calls[j].phase) {
      assert CallOk(g, j, s.calls[j].phase);
    }
  }

  lemma {:induction false} MoreTasks<T>(g: World<T>, g': World<T>, calls: seq<Call<T>>)
    requires g' == g.(tasks := g'.tasks) && g.tasks <= g'.tasks && |g.callers| == |g.selects| == |calls|
    requires forall k :: 0 <= k < |g.selects| && g.selects[k] != null ==> g.selects[k] in g.states
    requires Standing(g, calls) && Asleep(g, calls) && CallsOk(g, calls)
    ensures Standing(g', calls) && Asleep(g', calls) && CallsOk(g', calls)
  {
    forall w | w in g.waiters ensures Stands(g', calls, w) {
      assert Stands(g, calls, w);
    }
    forall k | 0 <= k < |calls| ensures CallOk(g', k, calls[k].phase) {
      assert CallOk(g, k, calls[k].phase);
    }
  }

  lemma {:induction false} SamePeople<T>(g: World<T>, g': World<T>, calls: seq<Call<T>>)
    requires g'.callers == g.callers && g'.selects == g.selects && g'.links == g.links && g'.waiters == g.waiters
    requires g'.tasks == g.tasks && g'.states == g.states
    requires |g.callers| == |g.selects| == |calls|
    requires forall k :: 0 <= k < |g.selects| && g.selects[k] != null ==> g.selects[k] in g.states
    requires Standing(g, calls) && Asleep(g, calls) && CallsOk(g, calls)
    ensures Standing(g', calls) && Asleep(g', calls) && CallsOk(g', calls)
  {
    forall w | w in g.waiters ensures Stands(g', calls, w) {
      assert Stands(g, calls, w);
    }
    forall k | 0 <= k < |calls| ensures CallOk(g', k, calls[k].phase) {
      assert CallOk(g, k, calls[k].phase);
    }
  }

  class Hub<T> {
    /** scheduler_mutex; channel_registry, newest first; the tasks handed to the run queue, in order; the shutdown
        flag. */
    var locked: bool
    var registry: seq<Channel<T>>
    var runnable: seq<Task>
    var shutdown: bool
    /** The objects, and the state they stand for. */
    ghost var g: World<T>
    ghost var s: State<T>

    ghost predicate Valid()
      reads this`registry, this`shutdown, this`g, this`s
      reads g.channels, g.buffers, g.queues, g.waiters, g.tasks, g.states
    {
      && Shape(g, s) && shutdown == s.shutdown && registry == Alive(g.channels, |g.channels|)
      && Chains(g) && Rings(g, s.chans) && Named(g, s.chans) && Homes(g, s.chans) && Standing(g, s.calls)
      && Asleep(g, s.calls) && CallsOk(g, s.calls)
    }

    constructor ()
      ensures Valid() && s == State([], [], false) && g == World([], [], [], map[], {}, {}, {}, {}, {}) && !locked
    {
      locked, registry, runnable, shutdown := false, [], [], false;
      g := World([], [], [], map[], {}, {}, {}, {}, {});
      s := State([], [], false);
    }

    /** worker_scheduler_lock and worker_scheduler_unlock: taken when free, given back by whoever has it. */
    method Lock()
      requires !locked
      modifies this`locked
      ensures locked
    {
      locked := true;
    }

    method Unlock()
      requires locked
      modifies this`locked
      ensures !locked
    {
      locked := false;
    }

    /** A task is spawned, under a name no other task has. */
    ghost method Adopt(task: Task)
      requires Valid() && forall t :: t in g.tasks && t.id == task.id ==> t == task
      modifies this`g
      ensures Valid() && g == old(g).(tasks := old(g).tasks + {task})
    {
      hide Alive, Chains, Named, Rings, Standing, Homes, Asleep, CallsOk, InRange;
      var more := g.(tasks := g.tasks + {task});
      SameHeap(g, more, s.chans);
      MoreTasks(g, more, s.calls);
      g := more;
    }

    lemma {:induction false} ValidRefs()
      requires Valid()
      ensures RefsValid(s)
    {
      forall c, op, r | 0 <= c < |s.chans| && r in Waiters(s.chans[c], op) ensures ValidRef(s, r) {
        var nodes := Queue(g.channels[c], op).nodes;
        var i :| 0 <= i < |nodes| && NamesOf(nodes)[i] == r;
        assert Chained(g, c, op) && nodes[i] in g.waiters && Stands(g, s.calls, nodes[i]);
      }
    }

    /** The tasks that sleep on channels. */
    ghost function Sleepers(): set<Task>
      reads this`g, g.tasks`state
    {
      set t | t in g.tasks && t.state == WaitingChannel
    }

    /** The run queue was handed the tasks of exactly the calls that were woken, each once. */
    twostate predicate Handed()
      reads this`g, this`s, this`runnable
    {
      && Steadily(old(s).calls, s.calls) && Queues(g.callers, old(s).calls, s.calls, old(runnable), runnable)
    }

    /** Nothing is forgotten, and whatever is new was made meanwhile. */
    twostate predicate Grown()
      reads this`g
    {
      var was := old(g);
      && was.channels <= g.channels && was.callers <= g.callers && was.selects <= g.selects && was.tasks == g.tasks
      && was.queues <= g.queues && was.buffers <= g.buffers && was.waiters <= g.waiters && was.states <= g.states
      && fresh(g.queues - was.queues) && fresh(g.buffers - was.buffers)
      && fresh(g.waiters - was.waiters) && fresh(g.states - was.states)
      && forall c :: |was.channels| <= c < |g.channels| ==> fresh(g.channels[c])
    }

    /** A call was made: it may have added waiters and a select state, and left every channel and task in place. */
    twostate predicate CallAdded()
      reads this`g
    {
      var was := old(g);
      && g.channels == was.channels && g.queues == was.queues && g.buffers == was.buffers && g.tasks == was.tasks
      && was.callers <= g.callers && was.selects <= g.selects && was.waiters <= g.waiters && was.states <= g.states
      && fresh(g.waiters - was.waiters) && fresh(g.states - was.states)
    }

    ghost predicate Mine(ch: Channel<T>)
      reads this`g
    {
      ch.id < |g.channels| && g.channels[ch.id] == ch
    }

    ghost method BecomeIn(world: World<T>, after: State<T>)
      requires Shape(world, after) && shutdown == after.shutdown && registry == Alive(world.channels, |world.channels|)
      requires Chains(world) && Rings(world, after.chans) && Named(world, after.chans) && Homes(world, after.chans)
      requires Standing(world, after.calls) && Asleep(world, after.calls) && CallsOk(world, after.calls)
      modifies this`g, this`s
      ensures Valid() && g == world && s == after
    {
      hide Alive, Chains, Named, Rings, Standing, Homes, Asleep, CallsOk, Shape;
      g := world;
      s := after;
    }

    /** The heap already stands for `after`. */
    ghost method Become(after: State<T>)
      requires Shape(g, after) && shutdown == after.shutdown && registry == Alive(g.channels, |g.channels|) && Chains(g)
      requires Rings(g, after.chans) && Named(g, after.chans) && Homes(g, after.chans)
      requires Standing(g, after.calls) && Asleep(g, after.calls) && CallsOk(g, after.calls)
      modifies this`s
      ensures Valid() && s == after
    {
      hide Alive, Chains, Named, Rings, Standing, Homes, Asleep, CallsOk, Shape;
      s := after;
    }

    // ---------------------------------------------------------------------------------------------
    // Small steps
    // ---------------------------------------------------------------------------------------------

    method PopRaw(ch: Channel<T>, op: Op) returns (w: Waiter?<T>)
      requires Shape(g, s) && Chains(g) && Mine(ch)
      modifies g.queues, g.waiters`prev, g.waiters`next, g.waiters`channel
      ensures Chains(g)
      ensures forall d, o :: 0 <= d < |g.channels| && !(d == ch.id && o == op) ==>
        Queue(g.channels[d], o).nodes == old(Queue(g.channels[d], o).nodes)
      ensures var nodes := old(Queue(ch, op).nodes);
        if nodes == [] then w == null && Queue(ch, op).nodes == []
        else w == nodes[0] && w in g.waiters && w.op == op && w.channel == null && Queue(ch, op).nodes == nodes[1..]
      ensures forall x :: x in g.waiters && x != w ==> x.channel == old(x.channel)
    {
      hide InRange, Known;
      var q := Queue(ch, op);
      assert Chained(g, ch.id, op);
      assert q.nodes != [] ==> q.nodes[0] in q.nodes;
      w := q.PopHead();
      forall d, o | 0 <= d < |g.channels| ensures Chained(g, d, o) {
        assert old(Chained(g, d, o));
      }
    }

    /** PopRaw in terms of names. */
    method PopName(ch: Channel<T>, op: Op) returns (w: Waiter?<T>)
      requires Shape(g, s) && Chains(g) && Named(g, s.chans) && Mine(ch)
      modifies g.queues, g.waiters`prev, g.waiters`next, g.waiters`channel
      ensures Chains(g) && NamedElsewhere(g, s.chans, ch.id, op)
      ensures forall x :: x in g.waiters && x != w ==> x.channel == old(x.channel)
      ensures if w == null then Waiters(s.chans[ch.id], op) == [] && Named(g, s.chans)
        else Popped(w, ch, op) && old(w.channel) == ch
    {
      ghost var nodes := Queue(ch, op).nodes;
      assert NamesOf(nodes) == Waiters(s.chans[ch.id], op) && Chained(g, ch.id, op);
      w := PopRaw(ch, op);
      if w != null {
        assert NamesOf(nodes[1..]) == NamesOf(nodes)[1..];
      }
    }

    /** `w` was first in the queue and is gone from it. */
    ghost predicate Popped(w: Waiter<T>, ch: Channel<T>, op: Op)
      requires Shape(g, s) && Mine(ch)
      reads this`g, this`s, g.queues, w
    {
      && w in g.waiters && w.op == op && w.channel == null && Waiters(s.chans[ch.id], op) != []
      && w.Name() == Waiters(s.chans[ch.id], op)[0] && NamesOf(Queue(ch, op).nodes) == Waiters(s.chans[ch.id], op)[1..]
    }

    /** All of Valid but the names in the queues, which a step on a queue must restore. */
    ghost predicate Unnamed()
      reads this`registry, this`shutdown, this`g, this`s
      reads g.channels, g.buffers, g.queues, g.waiters, g.tasks, g.states
    {
      && Shape(g, s) && shutdown == s.shutdown && registry == Alive(g.channels, |g.channels|)
      && Chains(g) && Rings(g, s.chans) && Homes(g, s.chans) && Standing(g, s.calls) && Asleep(g, s.calls)
      && CallsOk(g, s.calls)
    }

    method PopHeap(ch: Channel<T>, op: Op) returns (w: Waiter?<T>)
      requires Valid() && Mine(ch)
      modifies g.queues, g.waiters`prev, g.waiters`next, g.waiters`channel
      ensures Unnamed() && NamedElsewhere(g, s.chans, ch.id, op)
      ensures if w == null then Waiters(s.chans[ch.id], op) == [] && Named(g, s.chans)
        else Popped(w, ch, op) && (w.state == null ==> w.call < |s.calls| && s.calls[w.call].phase.Parked?)
    {
      hide Alive, Chains, Named, Rings, Standing, CallsOk;
      w := PopName(ch, op);
    }

    /** A new state that differs from the old in the names of one queue. */
    ghost method Rename(ch: Channel<T>, op: Op, refs: seq<Ref>)
      requires Unnamed() && Mine(ch) && NamesOf(Queue(ch, op).nodes) == refs && NamedElsewhere(g, s.chans, ch.id, op)
      requires forall x :: x in g.waiters && x.channel == ch && x.op == op ==> x.Name() in refs
      modifies this`s
      ensures Valid() && s == SetQueue(old(s), ch.id, op, refs)
    {
      hide Alive, Chains, Rings, Standing, Asleep, CallsOk;
      var s' := SetQueue(s, ch.id, op, refs);
      KeepShape(g, s, s');
      KeepRings(g, s, s');
      Become(s');
    }

    lemma {:induction false} OthersStay(ch: Channel<T>, op: Op, w: Waiter<T>)
      requires Shape(g, s) && Mine(ch) && Homes(g, s.chans) && Standing(g, s.calls) && Popped(w, ch, op)
      ensures forall x :: x in g.waiters && x.channel == ch && x.op == op ==>
        x.Name() in Waiters(s.chans[ch.id], op)[1..]
    {
      forall x | x in g.waiters && x.channel == ch && x.op == op ensures x.Name() in Waiters(s.chans[ch.id], op)[1..] {
        assert Stands(g, s.calls, x) && Stands(g, s.calls, w);
      }
    }

    /** Pop the first waiter of a queue, dead or alive. */
    method Pop(ch: Channel<T>, op: Op) returns (w: Waiter?<T>)
      requires Valid() && Mine(ch)
      modifies this`s, g.queues, g.waiters`prev, g.waiters`next, g.waiters`channel
      ensures Valid()
      ensures var refs := Waiters(old(s).chans[ch.id], op);
        if refs == [] then w == null && s == old(s)
        else
          && w != null && w in g.waiters && w.Name() == refs[0] && w.op == op && w.channel == null
          && s == SetQueue(old(s), ch.id, op, refs[1..])
      ensures w != null && w.state == null ==> w.call < |s.calls| && s.calls[w.call].phase.Parked?
    {
      hide Alive, Chains, Rings, Standing, Homes, Asleep, CallsOk;
      w := PopHeap(ch, op);
      if w != null {
        OthersStay(ch, op, w);
        Rename(ch, op, Waiters(s.chans[ch.id], op)[1..]);
      }
    }

    /** worker_wake_task_locked, without the signals. */
    method WakeTask(task: Task, success: bool) returns (ok: bool)
      modifies this`runnable, task`state, task`channelSuccess
      ensures ok <==> old(task.state) == WaitingChannel
      ensures ok ==> task.state == Runnable && task.channelSuccess == success && runnable == old(runnable) + [task]
      ensures !ok ==>
        task.state == old(task.state) && task.channelSuccess == old(task.channelSuccess) && runnable == old(runnable)
    {
      if task.state != WaitingChannel {
        return false;
      }
      task.channelSuccess := success;
      task.state := Runnable;
      runnable := runnable + [task];
      return true;
    }

    /** A sleeping call's task, waiter and select state are told; the heap is then ready for the state in
        which that call is woken. */
    method Signal(w: Waiter<T>, status: Status, success: bool, ghost got: Option<T>)
      requires Shape(g, s) && Stands(g, s.calls, w) && w in g.waiters && CallsOk(g, s.calls)
      requires s.calls[w.call].phase.Parked?
      requires (got.Some? ==> w.slot == got.value) && success == (w.state != null || !status.Closed?)
      modifies this`runnable, w.task`state, w.task`channelSuccess, w.state
      ensures runnable == old(runnable) + [w.task]
      ensures CallsOk(g, Mark(s, w.Name(), status, got).calls)
    {
      hide InRange, Known, Queue;
      assert CallOk(g, w.call, s.calls[w.call].phase);
      if w.state != null {
        w.state.done := true;
        w.state.chosenIndex := w.caseIndex;
        w.state.chosenStatus := Some(status);
      }
      var ok := WakeTask(w.task, success);
      assert ok;
      ghost var calls := Mark(s, w.Name(), status, got).calls;
      forall k | 0 <= k < |calls| ensures CallOk(g, k, calls[k].phase) {
        assert old(CallOk(g, k, s.calls[k].phase));
      }
    }

    method SignalOnly(w: Waiter<T>, status: Status, success: bool, ghost got: Option<T>)
      requires Valid() && w in g.waiters && s.calls[w.call].phase.Parked?
      requires (got.Some? ==> w.slot == got.value) && success == (w.state != null || !status.Closed?)
      modifies this`runnable, Sleepers()`state, Sleepers()`channelSuccess, g.states
      ensures runnable == old(runnable) + [w.task]
      ensures Shape(g, s) && shutdown == s.shutdown && registry == Alive(g.channels, |g.channels|)
      ensures Chains(g) && Rings(g, s.chans) && Named(g, s.chans) && Homes(g, s.chans)
      ensures Standing(g, s.calls) && Asleep(g, s.calls) && CallsOk(g, Mark(s, w.Name(), status, got).calls)
    {
      hide Alive, Chains, Named, Rings, Homes, Asleep;
      assert Stands(g, s.calls, w) && CallOk(g, w.call, s.calls[w.call].phase);
      Signal(w, status, success, got);
    }

    lemma {:induction false} StandsFor(w: Waiter<T>)
      requires Valid() && w in g.waiters
      ensures w.call < |g.callers| == |s.calls| && w.task == g.callers[w.call]
    {
      assert Stands(g, s.calls, w);
    }

    /** complete_waiter_locked, and the wake of a regular waiter by a close: the state says its call is
        woken. */
    method Complete(w: Waiter<T>, status: Status, success: bool, ghost got: Option<T>)
      requires Valid() && w in g.waiters && w.channel == null && s.calls[w.call].phase.Parked?
      requires (got.Some? ==> w.slot == got.value) && success == (w.state != null || !status.Closed?)
      modifies this`s, this`runnable, Sleepers()`state, Sleepers()`channelSuccess, g.states
      ensures Valid() && s == Mark(old(s), w.Name(), status, got) && runnable == old(runnable) + [w.task]
      ensures Handed()
    {
      hide Alive, Chains, Named, Rings, Standing, Homes, Asleep, CallsOk, Queues, Steadily;
      StandsFor(w);
      HandsOne(g.callers, s.calls, Mark(s, w.Name(), status, got).calls, runnable, w.call);
      SignalOnly(w, status, success, got);
      MarkKeeps(g, s, w, status, got);
      Become(Mark(s, w.Name(), status, got));
    }

    /** The copy into a sleeping receiver's memory. */
    method SetSlot(w: Waiter<T>, value: T)
      requires Valid() && w in g.waiters && w.op == Recv && s.calls[w.call].phase.Parked?
      modifies w`slot
      ensures Valid() && w.slot == value
    {
      hide Alive, Chains, Named, Rings, Homes, Asleep;
      w.slot := value;
      assert Standing(g, s.calls) by {
        assert forall v :: v in g.waiters ==> old(Stands(g, s.calls, v));
      }
      forall k | 0 <= k < |s.calls| ensures CallOk(g, k, s.calls[k].phase) {
        assert old(CallOk(g, k, s.calls[k].phase));
      }
    }

    /** History grows. */
    ghost method Note(after: State<T>)
      requires Valid() && SameButHistory(s, after)
      modifies this`s
      ensures Valid() && s == after
    {
      hide Alive, Chains, Named, Rings, Standing, Homes, Asleep, CallsOk, Shape;
      KeepShape(g, s, after);
      KeepRings(g, s, after);
      KeepNames(g, s, after);
      Become(after);
    }

    /** The calling operation has its answer. */
    ghost method Answer(me: Ref, status: Status, got: Option<T>)
      requires Valid() && me.call < |s.calls| && s.calls[me.call].phase.Active?
      modifies this`s
      ensures Valid() && s == Mark(old(s), me, status, got)
    {
      hide Alive, Chains, Named, Rings, Standing, Homes, Asleep, CallsOk, Shape;
      var after := Mark(s, me, status, got);
      KeepShape(g, s, after);
      AnswerKeeps(g, s, me, status, got);
      Become(after);
    }

    method BufferPush(ch: Channel<T>, value: T)
      requires Valid() && Mine(ch) && ch.len < ch.capacity
      modifies this`s, ch`tail, ch`len, ch`contents, ch.buffer
      ensures Valid() && s == SetBuffer(old(s), ch.id, old(s).chans[ch.id].buffer + [value])
    {
      hide Alive, Chains, Named, Standing, Homes, Asleep, CallsOk;
      ghost var after := SetBuffer(s, ch.id, s.chans[ch.id].buffer + [value]);
      ch.BufferPush(value);
      KeepShape(g, s, after);
      KeepNames(g, s, after);
      Become(after);
    }

    method BufferPop(ch: Channel<T>) returns (value: T)
      requires Valid() && Mine(ch) && ch.len > 0
      modifies this`s, ch`head, ch`len, ch`contents
      ensures Valid() && s == SetBuffer(old(s), ch.id, old(s).chans[ch.id].buffer[1..])
      ensures value == old(s).chans[ch.id].buffer[0]
    {
      hide Alive, Chains, Named, Standing, Homes, Asleep, CallsOk;
      ghost var after := SetBuffer(s, ch.id, s.chans[ch.id].buffer[1..]);
      value := ch.BufferPop();
      KeepShape(g, s, after);
      KeepNames(g, s, after);
      Become(after);
    }

    method SetClosed(ch: Channel<T>)
      requires Valid() && Mine(ch)
      modifies this`s, ch`closed
      ensures Valid() && s == old(s).(chans := old(s).chans[ch.id := old(s).chans[ch.id].(closed := true)])
    {
      hide Alive, Chains, Named, Standing, Homes, Asleep, CallsOk, ch.Ring;
      ghost var after := s.(chans := s.chans[ch.id := s.chans[ch.id].(closed := true)]);
      ch.closed := true;
      KeepShape(g, s, after);
      KeepNames(g, s, after);
      Become(after);
    }

    method SetShutdown()
      requires Valid()
      modifies this`shutdown, this`s
      ensures Valid() && s == old(s).(shutdown := true)
    {
      hide Alive, Chains, Named, Rings, Standing, Homes, Asleep, CallsOk;
      shutdown := true;
      ghost var after := s.(shutdown := true);
      assert forall r :: ValidRef(after, r) == ValidRef(s, r);
      assert Shape(g, after);
      Become(after);
    }

    // ---------------------------------------------------------------------------------------------
    // Creating and destroying channels
    // ---------------------------------------------------------------------------------------------

    /** A channel just made goes to the front of the registry. */
    method Register(ch: Channel<T>)
      requires Valid() && ch.id == |g.channels| && ch.buffer !in g.buffers
      requires ch.Ring() && !ch.closed && !ch.destroyed && ch.contents == []
      requires forall op :: Queue(ch, op).Valid() && Queue(ch, op).nodes == []
      requires forall op :: Queue(ch, op).chan == ch.id && Queue(ch, op).op == op
      requires locked
      modifies this`registry, this`g, this`s
      ensures Valid() && g == WithChannel(old(g), ch) && s == ChannelSpec.Create(old(s), ch.capacity)
    {
      hide Alive, Chains, Named, Rings, Standing, Homes, Asleep, CallsOk, InRange, Known;
      ghost var more, after := WithChannel(g, ch), ChannelSpec.Create(s, ch.capacity);
      AddedShape(g, s, ch, after);
      AddedHeap(g, s.chans, ch, after.chans);
      AddedAlive(g, ch);
      SamePeople(g, more, s.calls);
      registry := [ch] + registry;
      BecomeIn(more, after);
    }

    lemma {:induction false} Counted()
      requires Valid()
      ensures |g.channels| == |s.chans|
    {
    }

    /** croutine_channel_create; `memory` says whether the allocations succeed. */
    method Create(capacity: nat, memory: bool) returns (ch: Channel?<T>)
      requires Valid()
      requires !locked
      modifies this`locked, this`registry, this`g, this`s
      ensures Valid() && (ch == null <==> !memory) && Grown() && !locked
      ensures if memory then s == ChannelSpec.Create(old(s), capacity) && Mine(ch) && ch.id == |old(s).chans|
              else s == old(s) && g == old(g)
    {
      hide Valid;
      if !memory {
        return null;
      }
      Counted();
      ch := new Channel(capacity, |g.channels|);
      Lock();
      Register(ch);
      Unlock();
    }

    method Unregister(ch: Channel<T>, ghost flags: seq<bool>)
      requires forall c :: 0 <= c < |g.channels| ==> g.channels[c].id == c
      requires |flags| == |g.channels| && forall c :: 0 <= c < |flags| ==> flags[c] == g.channels[c].destroyed
      requires registry == Alive(g.channels, |g.channels|) && Mine(ch) && !ch.destroyed
      modifies this`registry, ch`destroyed
      ensures registry == Alive(g.channels, |g.channels|) && ch.destroyed
    {
      hide Alive, Unflagged, Remove;
      AliveFlags(g.channels, flags, |g.channels|);
      FlagRemoves(g.channels, flags, ch.id, |g.channels|);
      registry := Remove(registry, ch);
      ch.destroyed := true;
      AliveFlags(g.channels, flags[ch.id := true], |g.channels|);
    }

    method UnregisterHeap(ch: Channel<T>)
      requires Shape(g, s) && Rings(g, s.chans) && registry == Alive(g.channels, |g.channels|)
      requires Mine(ch) && ch.closed && !ch.destroyed
      modifies this`registry, ch`destroyed
      ensures registry == Alive(g.channels, |g.channels|)
      ensures Rings(g, s.chans[ch.id := s.chans[ch.id].(destroyed := true)])
    {
      hide Alive, InRange, ch.Ring;
      Unregister(ch, Destroyed(s.chans));
    }

    lemma {:induction false} HeadIsFirst(ch: Channel<T>, op: Op)
      requires Valid() && Mine(ch)
      ensures ch.id < |s.chans| && (Queue(ch, op).head == null <==> Waiters(s.chans[ch.id], op) == [])
    {
      assert Chained(g, ch.id, op) && NamesOf(Queue(ch, op).nodes) == Waiters(s.chans[ch.id], op);
    }

    lemma {:induction false} FlagsAt(ch: Channel<T>)
      requires Valid() && Mine(ch)
      ensures ch.id < |s.chans| && ch.closed == s.chans[ch.id].closed && ch.destroyed == s.chans[ch.id].destroyed
      ensures Queue(ch, Send) == ch.sendWaiters && Queue(ch, Recv) == ch.recvWaiters
    {
    }

    /** croutine_channel_destroy up to the free. */
    method Destroy(ch: Channel<T>) returns (safe: bool)
      requires Valid() && Mine(ch) && !ch.destroyed
      requires !locked
      modifies this`locked, this`registry, this`s, ch`destroyed
      ensures Valid() && ch.id < |old(s).chans| && s == ChannelSpec.Destroy(old(s), ch.id)
      ensures safe == s.chans[ch.id].destroyed && !locked
    {
      hide Valid, Queue;
      Lock();
      HeadIsFirst(ch, Send);
      HeadIsFirst(ch, Recv);
      FlagsAt(ch);
      safe := ch.closed && ch.sendWaiters.head == null && ch.recvWaiters.head == null;
      if !safe {
        Unlock();
        return false;
      }
      DestroySafe(ch);
      Unlock();
    }

    method DestroySafe(ch: Channel<T>)
      requires Valid() && Mine(ch) && ch.closed && !ch.destroyed && ch.id < |s.chans|
      requires locked
      modifies this`registry, this`s, ch`destroyed
      ensures Valid() && s == old(s).(chans := old(s).chans[ch.id := old(s).chans[ch.id].(destroyed := true)])
    {
      hide Alive, Chains, Named, Rings, Standing, Homes, Asleep, CallsOk, Shape;
      ghost var after := s.(chans := s.chans[ch.id := s.chans[ch.id].(destroyed := true)]);
      UnregisterHeap(ch);
      KeepShape(g, s, after);
      KeepNames(g, s, after);
      Become(after);
    }

    // ---------------------------------------------------------------------------------------------
    // Calls
    // ---------------------------------------------------------------------------------------------

    ghost method Begin(task: Task?, select: bool, cases: seq<Case<T>>)
      requires Valid() && (task != null ==> task in g.tasks)
      requires forall i :: 0 <= i < |cases| && cases[i].chan.Some? ==> cases[i].chan.value < |s.chans|
      modifies this`g, this`s
      ensures Valid() && s == ChannelSpec.Begin(old(s), IdOf(task), select, cases)
      ensures g == old(g).(callers := old(g).callers + [task], selects := old(g).selects + [null])
    {
      hide Alive, Chains, Named, Rings, Standing, Homes, Asleep, CallsOk;
      var more := g.(callers := g.callers + [task], selects := g.selects + [null]);
      var after := ChannelSpec.Begin(s, IdOf(task), select, cases);
      assert after.calls[..|s.calls|] == s.calls;
      BegunPeople(g, s, task, more, after);
      SameHeap(g, more, s.chans);
      BecomeIn(more, after);
    }

    /** A call returns without having been decided. */
    ghost method GiveUp(k: nat)
      requires Valid() && k < |s.calls| && s.calls[k].phase.Active?
      modifies this`s
      ensures Valid() && s == Return(old(s), k)
    {
      hide Alive, Chains, Named, Rings, Standing, Homes, Asleep, CallsOk, Shape;
      var after := Return(s, k);
      KeepShape(g, s, after);
      GivenUp(g, s, k);
      Become(after);
    }

    /** A woken call returns. */
    ghost method Conclude(k: nat)
      requires Valid() && k < |s.calls| && s.calls[k].phase.Woken?
      modifies this`s
      ensures Valid() && s == Finish(old(s), k)
    {
      hide Alive, Chains, Named, Rings, Standing, Homes, Asleep, CallsOk, Shape;
      var after := Finish(s, k);
      KeepShape(g, s, after);
      Concluded(g, s, k);
      Become(after);
    }

    /** The fields worker_park_current_on_channel_locked sets, and the state a select's waiters share. */
    method Doze(task: Task, select: bool, ghost k: nat) returns (state: SelectState?, ghost world: World<T>)
      requires Shape(g, s) && CallsOk(g, s.calls) && k < |s.calls| && s.calls[k].phase.Active? && g.callers[k] == task
      requires forall j :: 0 <= j < |s.calls| && g.callers[j] == task ==>
        !s.calls[j].phase.Parked? && !s.calls[j].phase.Woken?
      modifies task`state, task`channelSuccess, task`call
      ensures (state != null <==> select) && (state != null ==> fresh(state))
      ensures world == g.(selects := g.selects[k := state], states := if select then g.states + {state} else g.states)
      ensures Shape(world, s) && CallsOk(world, Asleeping(s, k).calls)
    {
      hide InRange;
      state := null;
      world := g;
      if select {
        state := new SelectState(k);
        world := g.(selects := g.selects[k := state], states := g.states + {state});
      }
      task.state := WaitingChannel;
      task.channelSuccess := false;
      task.call := k;
      forall j | 0 <= j < |s.calls| ensures CallOk(world, j, Asleeping(s, k).calls[j].phase) {
        assert old(CallOk(g, j, s.calls[j].phase));
      }
    }

    /** The task of call `k` goes to sleep. */
    method Sleep(task: Task, select: bool, ghost k: nat) returns (state: SelectState?)
      requires Valid() && k < |s.calls| && s.calls[k].phase.Active? && g.callers[k] == task && task in g.tasks
      requires forall j :: 0 <= j < |s.calls| && g.callers[j] == task ==>
        !s.calls[j].phase.Parked? && !s.calls[j].phase.Woken?
      modifies this`g, this`s, task`state, task`channelSuccess, task`call
      ensures Valid() && s == Asleeping(old(s), k) && (state != null <==> select)
      ensures
        g == old(g).(selects := old(g).selects[k := state],
                     states := if select then old(g).states + {state} else old(g).states)
      ensures state != null ==> fresh(state)
    {
      hide Alive, Chains, Named, Rings, Standing, Homes, Asleep, CallsOk, InRange, Known;
      ghost var world;
      state, world := Doze(task, select, k);
      SleptPeople(g, s, k, world);
      SameHeap(g, world, s.chans);
      BecomeIn(world, Asleeping(s, k));
    }

    /** A waiter for case `caseIndex` of a sleeping call, not yet linked anywhere. */
    method NewWaiter(op: Op, task: Task, state: SelectState?, caseIndex: nat, value: T, ghost k: nat)
      returns (w: Waiter<T>)
      requires Valid() && k < |s.calls| && s.calls[k].phase.Parked? && g.callers[k] == task && g.selects[k] == state
      requires caseIndex < |s.calls[k].cases| && s.calls[k].cases[caseIndex].op == op
      requires s.calls[k].cases[caseIndex].value == value
      requires (state == null ==> |s.calls[k].cases| == 1) && Ref(k, caseIndex) !in g.links
      modifies this`g, this`s
      ensures Valid() && s == old(s) && fresh(w) && g == WithWaiter(old(g), w) && w.Name() == Ref(k, caseIndex)
      ensures w.op == op && w.channel == null
    {
      hide Alive, Chains, Named, Rings, Standing, Homes, Asleep, CallsOk, InRange, Known;
      w := new Waiter(op, task, state, caseIndex, value, k);
      MorePeople(g, s, w);
      MoreWaiters(g, s.chans, w);
      BecomeIn(WithWaiter(g, w), s);
    }

    // ---------------------------------------------------------------------------------------------
    // Linking and unlinking
    // ---------------------------------------------------------------------------------------------

    method PushRaw(ch: Channel<T>, w: Waiter<T>)
      requires Shape(g, s) && Chains(g) && Mine(ch) && w in g.waiters && w.channel == null
      modifies g.queues, g.waiters`next, w`prev, w`channel
      ensures Chains(g)
      ensures forall d, o :: 0 <= d < |g.channels| && !(d == ch.id && o == w.op) ==>
        Queue(g.channels[d], o).nodes == old(Queue(g.channels[d], o).nodes)
      ensures Queue(ch, w.op).nodes == old(Queue(ch, w.op).nodes) + [w] && w.channel == ch
    {
      hide InRange, Known;
      var q := Queue(ch, w.op);
      assert Chained(g, ch.id, w.op);
      ghost var nodes := q.nodes;
      q.PushTail(w, ch);
      forall d, o | 0 <= d < |g.channels| ensures Chained(g, d, o) {
        assert old(Chained(g, d, o));
        if !(d == ch.id && o == w.op) {
          var other := Queue(g.channels[d], o);
          assert forall x :: x in other.nodes ==> x.prev == old(x.prev) && x.next == old(x.next);
          assert old(other.Valid());
        }
      }
    }

    method PushHeap(ch: Channel<T>, w: Waiter<T>)
      requires Valid() && Mine(ch) && w in g.waiters && w.channel == null && w.call < |s.calls|
      requires s.calls[w.call].phase.Parked?
      modifies g.queues, g.waiters`next, w`prev, w`channel
      ensures Shape(g, s) && shutdown == s.shutdown && registry == Alive(g.channels, |g.channels|)
      ensures Chains(g) && Rings(g, s.chans) && Standing(g, s.calls) && Asleep(g, s.calls) && CallsOk(g, s.calls)
      ensures NamedElsewhere(g, s.chans, ch.id, w.op)
      ensures NamesOf(Queue(ch, w.op).nodes) == Waiters(s.chans[ch.id], w.op) + [w.Name()]
      ensures Homes(g, SetQueue(s, ch.id, w.op, Waiters(s.chans[ch.id], w.op) + [w.Name()]).chans)
    {
      hide Alive, Chains, Rings, Standing, CallsOk, InRange, Known;
      ghost var nodes := Queue(ch, w.op).nodes;
      assert NamesOf(nodes) == Waiters(s.chans[ch.id], w.op);
      assert NamesOf(nodes + [w]) == NamesOf(nodes) + [w.Name()];
      PushRaw(ch, w);
    }

    /** wait_queue_push_tail on a queue of the channel. */
    method Push(ch: Channel<T>, w: Waiter<T>)
      requires Valid() && Mine(ch) && w in g.waiters && w.channel == null && w.call < |s.calls|
      requires s.calls[w.call].phase.Parked?
      modifies this`s, g.queues, g.waiters`next, w`prev, w`channel
      ensures Valid() && ch.id < |old(s).chans|
      ensures s == SetQueue(old(s), ch.id, w.op, Waiters(old(s).chans[ch.id], w.op) + [w.Name()])
    {
      hide Alive, Chains, Rings, Standing, Homes, Asleep, CallsOk, InRange, Known;
      ghost var after := SetQueue(s, ch.id, w.op, Waiters(s.chans[ch.id], w.op) + [w.Name()]);
      PushHeap(ch, w);
      KeepShape(g, s, after);
      KeepRings(g, s, after);
      Become(after);
    }

    method UnlinkRaw(ch: Channel<T>, w: Waiter<T>, ghost at: nat)
      requires Shape(g, s) && Chains(g) && Mine(ch) && at < |Queue(ch, w.op).nodes| && Queue(ch, w.op).nodes[at] == w
      modifies g.queues, g.waiters`prev, g.waiters`next, w`channel
      ensures Chains(g)
      ensures forall d, o :: 0 <= d < |g.channels| && !(d == ch.id && o == w.op) ==>
        Queue(g.channels[d], o).nodes == old(Queue(g.channels[d], o).nodes)
      ensures Queue(ch, w.op).nodes == old(Queue(ch, w.op).nodes)[..at] + old(Queue(ch, w.op).nodes)[at + 1..]
      ensures w.channel == null
    {
      hide InRange, Known;
      var q := Queue(ch, w.op);
      assert Chained(g, ch.id, w.op);
      q.Unlink(w, at);
      forall d, o | 0 <= d < |g.channels| ensures Chained(g, d, o) {
        assert old(Chained(g, d, o));
        if !(d == ch.id && o == w.op) {
          var other := Queue(g.channels[d], o);
          assert forall x :: x in other.nodes ==> x.prev == old(x.prev) && x.next == old(x.next);
          assert old(other.Valid());
        }
      }
    }

    method UnlinkHeap(ch: Channel<T>, w: Waiter<T>, ghost at: nat)
      requires Valid() && Mine(ch) && w in g.waiters && w.channel == ch && at < |Queue(ch, w.op).nodes|
      requires Queue(ch, w.op).nodes[at] == w
      modifies g.queues, g.waiters`prev, g.waiters`next, w`channel
      ensures Unnamed() && NamedElsewhere(g, s.chans, ch.id, w.op) && w.channel == null
      ensures at < |Waiters(s.chans[ch.id], w.op)|
      ensures var refs := Waiters(s.chans[ch.id], w.op);
        refs[at] == w.Name() && NamesOf(Queue(ch, w.op).nodes) == refs[..at] + refs[at + 1..]
    {
      hide Alive, Chains, Rings, Standing, CallsOk, InRange, Known;
      ghost var nodes := Queue(ch, w.op).nodes;
      assert NamesOf(nodes) == Waiters(s.chans[ch.id], w.op);
      assert NamesOf(nodes[..at] + nodes[at + 1..]) == NamesOf(nodes)[..at] + NamesOf(nodes)[at + 1..];
      UnlinkRaw(ch, w, at);
    }

    lemma {:induction false} NodeAt(ch: Channel<T>, w: Waiter<T>) returns (at: nat)
      requires Valid() && w in g.waiters && w.channel == ch
      ensures Mine(ch) && at < |Queue(ch, w.op).nodes| && Queue(ch, w.op).nodes[at] == w
    {
      var nodes := Queue(ch, w.op).nodes;
      assert NamesOf(nodes) == Waiters(s.chans[ch.id], w.op) && Chained(g, ch.id, w.op);
      at :| 0 <= at < |nodes| && NamesOf(nodes)[at] == w.Name();
      assert nodes[at] in nodes && Stands(g, s.calls, nodes[at]) && Stands(g, s.calls, w);
    }

    lemma {:induction false} OthersRemain(ch: Channel<T>, w: Waiter<T>, at: nat)
      requires Shape(g, s) && Mine(ch) && Homes(g, s.chans) && Standing(g, s.calls) && w in g.waiters
      requires w.channel == null
      requires at < |Waiters(s.chans[ch.id], w.op)| && Waiters(s.chans[ch.id], w.op)[at] == w.Name()
      ensures var refs := Waiters(s.chans[ch.id], w.op);
        forall x :: x in g.waiters && x.channel == ch && x.op == w.op ==> x.Name() in refs[..at] + refs[at + 1..]
    {
      var refs := Waiters(s.chans[ch.id], w.op);
      forall x | x in g.waiters && x.channel == ch && x.op == w.op ensures x.Name() in refs[..at] + refs[at + 1..] {
        assert Stands(g, s.calls, x) && Stands(g, s.calls, w);
        var i :| 0 <= i < |refs| && refs[i] == x.Name();
        assert refs[i] == (refs[..at] + refs[at + 1..])[if i < at then i else i - 1];
      }
    }

    /** wait_queue_unlink of a linked waiter, as scrub_select_waiters calls it. */
    method Unlink(w: Waiter<T>) returns (ghost c: nat, ghost at: nat)
      requires Valid() && w in g.waiters && w.channel != null
      modifies this`s, g.queues, g.waiters`prev, g.waiters`next, w`channel
      ensures Valid() && w.channel == null && c < |old(s).chans| && at < |Waiters(old(s).chans[c], w.op)|
      ensures var refs := Waiters(old(s).chans[c], w.op);
        refs[at] == w.Name() && s == SetQueue(old(s), c, w.op, refs[..at] + refs[at + 1..])
    {
      hide Alive, Chains, Rings, Standing, Homes, Asleep, CallsOk, InRange, Known;
      var ch := w.channel;
      c := ch.id;
      at := NodeAt(ch, w);
      UnlinkHeap(ch, w, at);
      OthersRemain(ch, w, at);
      ghost var refs := Waiters(s.chans[c], w.op);
      Rename(ch, w.op, refs[..at] + refs[at + 1..]);
    }

    // ---------------------------------------------------------------------------------------------
    // The operations under the lock
    // ---------------------------------------------------------------------------------------------

    /** The test pop_live_waiter_locked makes. */
    predicate Dead(w: Waiter<T>)
      reads w.state
    {
      w.state != null && w.state.done
    }

    lemma {:induction false} DeadMeans(w: Waiter<T>)
      requires Valid() && w in g.waiters && (w.state == null ==> w.call < |s.calls| && s.calls[w.call].phase.Parked?)
      ensures w.call < |s.calls| && (Dead(w) <==> !s.calls[w.call].phase.Parked?)
    {
      assert Stands(g, s.calls, w) && CallOk(g, w.call, s.calls[w.call].phase);
    }

    /** pop_live_waiter_locked. */
    method PopLive(ch: Channel<T>, op: Op) returns (w: Waiter?<T>)
      requires Valid() && Mine(ch)
      modifies this`s, g.queues, g.waiters`prev, g.waiters`next, g.waiters`channel
      ensures Valid()
      ensures var q := DropDead(Waiters(old(s).chans[ch.id], op), old(s).calls);
        if q == [] then w == null && s == SetQueue(old(s), ch.id, op, [])
        else
          && w != null && w in g.waiters && w.Name() == q[0] && w.op == op && w.channel == null
          && s == SetQueue(old(s), ch.id, op, q[1..])
    {
      ghost var c, calls := ch.id, s.calls;
      ghost var rest := Waiters(s.chans[c], op);
      SetQueueSame(s, c, op);
      while true
        invariant Valid() && s == SetQueue(old(s), c, op, rest)
        invariant DropDead(rest, calls) == DropDead(Waiters(old(s).chans[c], op), calls)
        decreases |rest|
      {
        w := Pop(ch, op);
        if w == null {
          return;
        }
        SetTwice(old(s), c, op, rest, rest[1..]);
        DeadMeans(w);
        if !Dead(w) {
          return;
        }
        rest := rest[1..];
      }
    }

    /** A sender that just called, or one that slept, is told its value was sent. */
    ghost method AnswerSent(c: nat, me: Ref)
      requires Valid() && c < |s.chans| && ValidRef(s, me) && s.calls[me.call].phase.Active?
      modifies this`s
      ensures Valid() && s == MarkSent(old(s), c, me)
    {
      hide Alive, Chains, Named, Rings, Standing, Homes, Asleep, CallsOk, Shape;
      Note(s.(chans := s.chans[c := s.chans[c].(accepted := s.chans[c].accepted + [Item(me, CaseAt(s, me).value)])]));
      Answer(me, Sent, None);
    }

    ghost method AnswerGot(c: nat, me: Ref, value: T)
      requires Valid() && c < |s.chans| && me.call < |s.calls| && s.calls[me.call].phase.Active?
      modifies this`s
      ensures Valid() && s == MarkGot(old(s), c, me, value)
    {
      hide Alive, Chains, Named, Rings, Standing, Homes, Asleep, CallsOk, Shape;
      Note(s.(chans := s.chans[c := s.chans[c].(delivered := s.chans[c].delivered + [Item(me, value)])]));
      Answer(me, Value, Some(value));
    }

    method CompleteSender(w: Waiter<T>, ghost c: nat)
      requires Valid() && c < |s.chans| && w in g.waiters && ValidRef(s, w.Name()) && w.channel == null
      requires s.calls[w.call].phase.Parked?
      modifies this`s, this`runnable, Sleepers()`state, Sleepers()`channelSuccess, g.states
      ensures Valid() && s == MarkSent(old(s), c, w.Name()) && Handed()
    {
      hide Alive, Chains, Named, Rings, Standing, Homes, Asleep, CallsOk, Shape, Queues, Steadily;
      var sent := Item(w.Name(), CaseAt(s, w.Name()).value);
      Note(s.(chans := s.chans[c := s.chans[c].(accepted := s.chans[c].accepted + [sent])]));
      Complete(w, Sent, true, None);
    }

    method CompleteReceiver(w: Waiter<T>, ghost c: nat, value: T)
      requires Valid() && c < |s.chans| && w in g.waiters && w.channel == null && w.op == Recv
      requires s.calls[w.call].phase.Parked?
      modifies this`s, this`runnable, Sleepers()`state, Sleepers()`channelSuccess, g.states, w`slot
      ensures Valid() && s == MarkGot(old(s), c, w.Name(), value) && Handed()
    {
      hide Alive, Chains, Named, Rings, Standing, Homes, Asleep, CallsOk, Shape, Queues, Steadily;
      SetSlot(w, value);
      Note(s.(chans := s.chans[c := s.chans[c].(delivered := s.chans[c].delivered + [Item(w.Name(), value)])]));
      Complete(w, Value, true, Some(value));
    }
  }
}
