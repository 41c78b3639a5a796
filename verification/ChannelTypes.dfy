/** The entities of src/channel.c as values: channels, waiters (named by the call and the case they
    stand for), calls and what became of them.  A state holds every channel ever created and every
    call ever made; ids are positions in those sequences. */
module ChannelTypes {
  import opened Basics

  datatype Op = Send | Recv

  /** CROUTINE_SELECT_STATUS_*; a regular send or receive is told the same thing by another name. */
  datatype Status = Value | Closed | Sent

  /** One waiter: case `idx` of call `call`. */
  datatype Ref = Ref(call: nat, idx: nat)

  /** A value together with the waiter or caller that gave or took it. */
  datatype Item<T> = Item(who: Ref, value: T)

  /** One arm of a call.  `value` is what a send offers; a receive ignores it.  A select may hold arms
      without a channel. */
  datatype Case<T> = Case(chan: Option<nat>, op: Op, value: T)

  /** What a call was told: which case fired, how, and the value a receive got. */
  datatype Outcome<T> = Fired(idx: nat, status: Status, got: Option<T>) | NotFired

  /** Active: inside its first critical section.  Parked: waiters linked, task asleep.
      Woken: decided by somebody else, task runnable.  Returned: the caller has its answer. */
  datatype Phase<T> = Active | Parked | Woken(outcome: Outcome<T>) | Returned(outcome: Outcome<T>)

  /** One call of send, recv, try_send, try_recv (a single case, `select` false) or select.
      `task` is None for a thread that runs no task. */
  datatype Call<T> = Call(task: Option<nat>, select: bool, cases: seq<Case<T>>, phase: Phase<T>)

  /** `accepted` and `delivered` are history: what senders were told was sent and what receivers
      were given, in order. */
  datatype Chan<T> = Chan(
    capacity: nat, closed: bool, destroyed: bool, buffer: seq<T>,
    senders: seq<Ref>, receivers: seq<Ref>,
    accepted: seq<Item<T>>, delivered: seq<Item<T>>)

  datatype State<T> = State(chans: seq<Chan<T>>, calls: seq<Call<T>>, shutdown: bool)

  function Waiters<T>(ch: Chan<T>, op: Op): seq<Ref> {
    if op.Send? then ch.senders else ch.receivers
  }

  function Values<T>(items: seq<Item<T>>): (vs: seq<T>)
    ensures |vs| == |items|
    ensures forall i :: 0 <= i < |items| ==> vs[i] == items[i].value
  {
    seq(|items|, i requires 0 <= i < |items| => items[i].value)
  }

  predicate ValidRef<T>(s: State<T>, r: Ref) {
    r.call < |s.calls| && r.idx < |s.calls[r.call].cases|
  }

  function CaseAt<T>(s: State<T>, r: Ref): Case<T>
    requires ValidRef(s, r)
  {
    s.calls[r.call].cases[r.idx]
  }

  /** The waiter `r` stands for an `op` on channel `c`. */
  predicate Names<T>(s: State<T>, r: Ref, c: nat, op: Op) {
    ValidRef(s, r) && CaseAt(s, r).chan == Some(c) && CaseAt(s, r).op == op
  }

  predicate Decided<T>(p: Phase<T>) {
    p.Woken? || p.Returned?
  }

  function Told<T>(call: Call<T>): Outcome<T> {
    if Decided(call.phase) then call.phase.outcome else NotFired
  }

  /** Call `k` slept and was woken. */
  ghost predicate WokenNow<T>(calls: seq<Call<T>>, calls': seq<Call<T>>, k: nat) {
    && k < |calls| <= |calls'| && calls[k].phase.Parked? && calls'[k].phase.Woken?
    && calls'[k] == calls[k].(phase := calls'[k].phase)
  }
}
