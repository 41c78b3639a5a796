/** Scheduler, channels and wait table as one system.  A thread inside the runtime performs a channel operation or a
    descriptor operation, and the tasks that it wakes are those the channels or the table say it wakes. */
module Runtime {
  import opened Basics
  import opened PollerTypes
  import opened IoSpec
  import opened ChannelTypes
  import opened ChannelInv
  import opened ChannelRefine
  import opened ChannelRuns
  import S = Scheduler
  import ChannelTheorems
  import SchedulerTheorems

  datatype World<T> = World(sched: S.State, chan: State<T>, waits: Waits<nat>, wishes: map<nat, Wish>)

  const BOTH := Interest(true, true)

  datatype Act<T> =
      // a move of the scheduler that wakes nobody and puts nobody to sleep
    | Plain(a: S.Action)
      // a channel is opened, used, closed or destroyed; `ts` are the tasks it wakes, `js` whom each wake signals
    | Channel(i: nat, st: Step<T>, ts: seq<nat>, js: seq<Option<nat>>)
    | RequestShutdown(i: nat, ts: seq<nat>)
      // a woken channel call returns
    | Return(i: nat, k: nat)
    | ParkOnIo(i: nat, fd: int, events: Interest)
    | HandleEvents(i: nat, batch: seq<PollEvent>)
    | ForgetFd(i: nat, fd: int)

  // ---------------------------------------------------------------------------------------------
  // What callers respect
  // ---------------------------------------------------------------------------------------------

  /** Task `t` sleeps in call `k`. */
  predicate SleepsIn<T>(calls: seq<Call<T>>, k: nat, t: nat) {
    k < |calls| && calls[k].phase.Parked? && calls[k].task == Some(t)
  }

  /** A task executes one call at a time. */
  ghost predicate AtLeisure<T>(calls: seq<Call<T>>, p: S.Phase) {
    S.HasTask(p) ==> forall k :: 0 <= k < |calls| && Unfinished(calls[k]) ==> calls[k].task != Some(p.task)
  }

  /** Thread `i` holds the lock for a runtime call and is in no other. */
  ghost predicate Calling<T>(w: World<T>, i: nat) {
    S.Up(w.sched, i) && S.InRuntime(w.sched.threads[i]) && AtLeisure(w.chan.calls, w.sched.threads[i])
  }

  function Caller(p: S.Phase): Option<nat> {
    if p.Inside? then Some(p.task) else None
  }

  predicate WakesNobody(a: S.Action) {
    !a.IoWake? && !a.ChannelWake? && !a.Forget? && !a.Shutdown? && !a.Park?
  }

  /** Moves a task makes of its own accord. */
  predicate Voluntary(a: S.Action) {
    a.Yield? || a.Finish? || a.FinishMain? || a.Spawn? || a.SpawnRefused?
  }

  /** `ts` lists, once each and in any order, the tasks whose calls were woken. */
  ghost predicate Lists<T>(calls: seq<Call<T>>, calls': seq<Call<T>>, ts: seq<nat>) {
    && (forall a, b :: 0 <= a < b < |ts| ==> ts[a] != ts[b])
    && (forall t :: t in ts <==> exists k: nat :: WokenNow(calls, calls', k) && calls[k].task == Some(t))
  }

  /** Each signal reaches a sleeper that has none yet, while there is one. */
  predicate Signals(threads: map<nat, S.Phase>, js: seq<Option<nat>>)
    decreases |js|
  {
    js == [] || (S.MaySignal(threads, js[0]) && Signals(S.Signal(threads, js[0]), js[1..]))
  }

  ghost predicate MayAct<T>(w: World<T>, a: Act<T>)
    requires CodeInv(w.chan)
  {
    match a
    case Plain(x) =>
      && WakesNobody(x) && S.Enabled(w.sched, x)
      && (Voluntary(x) ==> x.i in w.sched.threads && AtLeisure(w.chan.calls, w.sched.threads[x.i]))
    case Channel(i, st, ts, js) =>
      && Calling(w, i) && !st.ShutDown? && !st.Resume? && May(Abs(w.chan), st)
      && (st.Operate? ==> st.task == Caller(w.sched.threads[i]))
      && Lists(w.chan.calls, Do(w.chan, st).calls, ts) && |js| == |ts| && Signals(w.sched.threads, js)
    case RequestShutdown(i, ts) =>
      Calling(w, i) && Lists(w.chan.calls, Do(w.chan, ShutDown).calls, ts)
    case Return(i, k) =>
      && S.Up(w.sched, i) && May(Abs(w.chan), Resume(k)) && S.HasTask(w.sched.threads[i])
      && w.chan.calls[k].task == Some(w.sched.threads[i].task)
      && (w.sched.threads[i].Inside? || (w.sched.threads[i].Running? && !w.chan.calls[k].select))
    case ParkOnIo(i, fd, events) =>
      && Calling(w, i) && w.sched.threads[i].Inside? && !w.sched.shutdown
      && events != NONE && Fits(SlotsAt(w.waits, fd), events)
    case HandleEvents(i, _) =>
      S.Up(w.sched, i) && w.sched.threads[i].Events? && !S.Exiting(w.sched)
    case ForgetFd(i, _) =>
      Calling(w, i)
  }

  // ---------------------------------------------------------------------------------------------
  // What a step does
  // ---------------------------------------------------------------------------------------------

  /** worker_wake_task_locked for each of `ts`; a task that does not sleep on a channel is not woken. */
  function WakeEach(s: S.State, i: nat, ts: seq<nat>, js: seq<Option<nat>>): S.State
    requires |js| == |ts|
    decreases |ts|
  {
    if ts != [] && S.CanChannelWake(s, i, ts[0], js[0])
    then WakeEach(S.DoChannelWake(s, i, ts[0], js[0]), i, ts[1..], js[1..])
    else s
  }

  function PutToSleep(s: S.State, i: nat, why: TaskState): S.State {
    if S.CanPark(s, i, why) then S.DoPark(s, i, why) else s
  }

  ghost function CloseAll(s: S.State, i: nat, ts: seq<nat>): S.State {
    if S.CanShutdown(s, i, ts) then S.DoShutdown(s, i, ts) else s
  }

  function WakeFromIo(s: S.State, i: nat, ts: seq<nat>): S.State {
    if S.CanIoWake(s, i, ts) then S.DoIoWake(s, i, ts) else s
  }

  function WakeForgotten(s: S.State, i: nat, ts: seq<nat>): S.State {
    if S.CanForget(s, i, ts) then S.DoForget(s, i, ts) else s
  }

  /** A call was added and it sleeps. */
  predicate FallsAsleep<T>(calls: seq<Call<T>>, calls': seq<Call<T>>) {
    |calls| < |calls'| && calls'[|calls|].phase.Parked?
  }

  ghost function Next<T>(w: World<T>, a: Act<T>): World<T>
    requires CodeInv(w.chan) && MayAct(w, a)
  {
    match a
    case Plain(x) => w.(sched := S.Next(w.sched, x))
    case Channel(i, st, ts, js) =>
      var chan := Do(w.chan, st);
      var woken := WakeEach(w.sched, i, ts, js);
      var asleep := FallsAsleep(w.chan.calls, chan.calls);
      w.(chan := chan, sched := if asleep then PutToSleep(woken, i, WaitingChannel) else woken)
    case RequestShutdown(i, ts) => w.(chan := Do(w.chan, ShutDown), sched := CloseAll(w.sched, i, ts))
    case Return(_, k) => w.(chan := Do(w.chan, Resume(k)))
    case ParkOnIo(i, fd, events) =>
      var t := w.sched.threads[i].task;
      w.(sched := PutToSleep(w.sched, i, WaitingIo), waits := w.waits[fd := Seat(SlotsAt(w.waits, fd), t, events)],
         wishes := w.wishes[t := Wish(fd, events)])
    case HandleEvents(i, batch) =>
      World(WakeFromIo(w.sched, i, WokenBy(w.waits, batch)), w.chan, WaitsAfter(w.waits, batch),
            WishesAfter(w.wishes, w.waits, batch))
    case ForgetFd(i, fd) =>
      var s := SlotsAt(w.waits, fd);
      World(WakeForgotten(w.sched, i, IoSpec.Woken(s, BOTH)), w.chan, Settle(w.waits, fd, Remaining(s, BOTH)),
            Without(w.wishes, IoSpec.Woken(s, BOTH)))
  }

  // ---------------------------------------------------------------------------------------------
  // Runs
  // ---------------------------------------------------------------------------------------------

  ghost predicate Starting<T>(w: World<T>) {
    SchedulerTheorems.Fresh(w.sched) && w.chan == Init() && w.waits == map[] && w.wishes == map[]
  }

  ghost predicate Leads<T>(w: World<T>, run: seq<Act<T>>, w': World<T>)
    decreases |run|
  {
    if run == [] then w' == w
    else CodeInv(w.chan) && MayAct(w, run[0]) && Leads(Next(w, run[0]), run[1..], w')
  }

  ghost predicate Reachable<T(!new)>(w: World<T>) {
    exists w0, run :: Starting(w0) && Leads(w0, run, w)
  }
}
