/** Who waits for which descriptor, on values: the slots of a table entry, what ready events do to them, and
    the agreement between the table and the tasks.  `X` names tasks. */
module IoSpec {
  import opened Basics
  import opened PollerTypes

  // ---------------------------------------------------------------------------------------------
  // Who waits for one descriptor
  // ---------------------------------------------------------------------------------------------

  /** The two slots of an entry; one task may hold both. */
  datatype Slots<X> = Slots(reader: Option<X>, writer: Option<X>)

  type Waits<X> = map<int, Slots<X>>

  function Empty<X>(): Slots<X> {
    Slots(None, None)
  }

  /** io_wait_entry_events. */
  function Events<X>(s: Slots<X>): Interest {
    Interest(s.reader.Some?, s.writer.Some?)
  }

  /** io_wait_entry_clear_task. */
  function Clear<X(==)>(s: Slots<X>, t: X): Slots<X> {
    Slots(if s.reader == Some(t) then None else s.reader, if s.writer == Some(t) then None else s.writer)
  }

  function Seat<X>(s: Slots<X>, t: X, events: Interest): Slots<X> {
    Slots(if events.read then Some(t) else s.reader, if events.write then Some(t) else s.writer)
  }

  /** What `t` holds. */
  function HeldBy<X(==)>(s: Slots<X>, t: X): Interest {
    Interest(s.reader == Some(t), s.writer == Some(t))
  }

  /** The tasks that events `ready` wake. */
  function Woken<X(==)>(s: Slots<X>, ready: Interest): seq<X> {
    var first := if ready.read && s.reader.Some? then [s.reader.value] else [];
    var left := if first == [] then s else Clear(s, first[0]);
    first + if ready.write && left.writer.Some? then [left.writer.value] else []
  }

  function Remaining<X(==)>(s: Slots<X>, ready: Interest): Slots<X> {
    var left := if ready.read && s.reader.Some? then Clear(s, s.reader.value) else s;
    if ready.write && left.writer.Some? then Clear(left, left.writer.value) else left
  }

  /** A task is woken if and only if it waits for something that is ready, once, and then gives up both
      slots; everyone else keeps exactly the slots they had. */
  lemma {:induction false} WakesExactly<X>(s: Slots<X>, ready: Interest, t: X)
    ensures t in Woken(s, ready) <==> Overlap(HeldBy(s, t), ready)
    ensures multiset(Woken(s, ready))[t] <= 1
    ensures HeldBy(Remaining(s, ready), t) == if t in Woken(s, ready) then NONE else HeldBy(s, t)
    ensures !Overlap(Events(Remaining(s, ready)), ready)
  {
    hide Woken, Remaining;
    WokenOnce(s, ready, t);
    WokenLeave(s, ready, t);
  }

  lemma {:induction false} WokenOnce<X>(s: Slots<X>, ready: Interest, t: X)
    ensures t in Woken(s, ready) <==> Overlap(HeldBy(s, t), ready)
    ensures multiset(Woken(s, ready))[t] <= 1
  {
    var first := if ready.read && s.reader.Some? then [s.reader.value] else [];
    var left := if first == [] then s else Clear(s, first[0]);
    var second := if ready.write && left.writer.Some? then [left.writer.value] else [];
    assert Woken(s, ready) == first + second;
    assert multiset(first + second) == multiset(first) + multiset(second);
  }

  lemma {:induction false} WokenLeave<X>(s: Slots<X>, ready: Interest, t: X)
    ensures HeldBy(Remaining(s, ready), t) == if Overlap(HeldBy(s, t), ready) then NONE else HeldBy(s, t)
    ensures !Overlap(Events(Remaining(s, ready)), ready)
  {
  }

  lemma {:induction false} WakesWhenChanged<X>(s: Slots<X>, ready: Interest)
    ensures Woken(s, ready) == [] <==> Events(Remaining(s, ready)) == Events(s)
    ensures Woken(s, ready) == [] <==> Remaining(s, ready) == s
  {
  }

  lemma {:induction false} EveryoneWakes<X>(s: Slots<X>)
    ensures Remaining(s, Interest(true, true)) == Empty()
    ensures Woken(s, Interest(true, true)) == [] <==> s == Empty()
  {
  }

  // ---------------------------------------------------------------------------------------------
  // Entries
  // ---------------------------------------------------------------------------------------------

  datatype Entry<X> = Entry(fd: int, slots: Slots<X>, inUse: bool)

  /** io_wait_entry_reset. */
  function Reset<X>(): Entry<X> {
    Entry(-1, Empty(), false)
  }

  function InUse<X>(es: seq<Entry<X>>): nat {
    if es == [] then 0 else (if es[|es| - 1].inUse then 1 else 0) + InUse(es[..|es| - 1])
  }

  lemma {:induction false} InUseBound<X>(es: seq<Entry<X>>)
    ensures InUse(es) <= |es|
    ensures InUse(es) == |es| <==> forall i :: 0 <= i < |es| ==> es[i].inUse
  {
    if es == [] {
    } else {
      InUseBound(es[..|es| - 1]);
    }
  }

  lemma {:induction false} InUseSet<X>(es: seq<Entry<X>>, i: nat, e: Entry<X>)
    requires i < |es|
    ensures InUse(es[i := e]) == InUse(es) - (if es[i].inUse then 1 else 0) + (if e.inUse then 1 else 0)
  {
    var n := |es| - 1;
    if i == n {
      assert es[i := e][..n] == es[..n];
    } else {
      assert es[i := e][..n] == es[..n][i := e];
      InUseSet(es[..n], i, e);
    }
  }

  lemma {:induction false} InUsePrefix<X>(es: seq<Entry<X>>, n: nat)
    requires n <= |es| && (forall i :: 0 <= i < n ==> es[i].inUse) && (forall i :: n <= i < |es| ==> !es[i].inUse)
    ensures InUse(es) == n
  {
    if n < |es| {
      InUsePrefix(es[..|es| - 1], n);
    } else {
      InUseBound(es);
    }
  }

  /** Entries in use and descriptors in `waits` correspond one to one: `place` says where each is. */
  ghost predicate Indexed<X>(es: seq<Entry<X>>, place: map<int, nat>, waits: Waits<X>) {
    && place.Keys == waits.Keys
    && (forall fd :: fd in place ==> place[fd] < |es| && es[place[fd]] == Entry(fd, waits[fd], true))
    && (forall i :: 0 <= i < |es| && es[i].inUse ==> es[i].fd in place && place[es[i].fd] == i)
  }

  /** The entries in use among the first `i` of `es` lie at the front of `ms`, where `to` says. */
  ghost predicate Gathered<X>(es: seq<Entry<X>>, place: map<int, nat>, waits: Waits<X>, i: nat, ms: seq<Entry<X>>,
      to: map<int, nat>, dst: nat) {
    && dst <= |ms| && to.Keys <= waits.Keys <= place.Keys
    && (forall fd :: fd in to ==> to[fd] < dst && ms[to[fd]] == Entry(fd, waits[fd], true))
    && (forall k :: 0 <= k < dst ==> ms[k].inUse && ms[k].fd in to && to[ms[k].fd] == k)
    && (forall fd :: fd in waits ==> (fd in to <==> place[fd] < i))
    && (forall k :: dst <= k < |ms| ==> ms[k] == Reset())
  }

  lemma {:induction false} GatherOne<X>(es: seq<Entry<X>>, place: map<int, nat>, waits: Waits<X>, i: nat,
      ms: seq<Entry<X>>, to: map<int, nat>, dst: nat)
    requires Indexed(es, place, waits) && Gathered(es, place, waits, i, ms, to, dst) && i < |es| && dst < |ms|
    ensures if es[i].inUse then Gathered(es, place, waits, i + 1, ms[dst := es[i]], to[es[i].fd := dst], dst + 1)
            else Gathered(es, place, waits, i + 1, ms, to, dst)
  {
    var e := es[i];
    if e.inUse {
      assert e == Entry(e.fd, waits[e.fd], true) && e.fd !in to;
    }
  }

  lemma {:induction false} GatheredAll<X>(es: seq<Entry<X>>, place: map<int, nat>, waits: Waits<X>, ms: seq<Entry<X>>,
      to: map<int, nat>, dst: nat)
    requires Indexed(es, place, waits) && Gathered(es, place, waits, |es|, ms, to, dst)
    ensures Indexed(ms, to, waits) && InUse(ms) == dst
  {
    InUsePrefix(ms, dst);
    forall fd | fd in waits ensures fd in to {
      assert fd in place && place[fd] < |es|;
    }
  }

  lemma {:induction false} NoneInUse<X>(es: seq<Entry<X>>, place: map<int, nat>, waits: Waits<X>)
    requires Indexed(es, place, waits) && forall i :: 0 <= i < |es| ==> !es[i].inUse
    ensures waits == map[] && InUse(es) == 0
  {
    InUsePrefix(es, 0);
    forall fd ensures fd !in waits {
      assert fd in waits ==> fd in place;
    }
  }

  /** The tasks of an entry, and of all entries in use, each entry's tasks once. */
  function Held<X(==)>(s: Slots<X>): seq<X> {
    (if s.reader.Some? then [s.reader.value] else []) +
    (if s.writer.Some? && s.writer != s.reader then [s.writer.value] else [])
  }

  function HeldAll<X(==)>(es: seq<Entry<X>>): seq<X> {
    if es == [] then [] else HeldAll(es[..|es| - 1]) + if es[|es| - 1].inUse then Held(es[|es| - 1].slots) else []
  }

  lemma {:induction false} HeldNone<X>(es: seq<Entry<X>>)
    requires es == []
    ensures HeldAll(es) == []
  {
  }

  lemma {:induction false} HeldMore<X>(es: seq<Entry<X>>, e: Entry<X>)
    ensures HeldAll(es + [e]) == HeldAll(es) + if e.inUse then Held(e.slots) else []
    ensures multiset(HeldAll(es + [e])) == multiset(HeldAll(es)) + multiset(if e.inUse then Held(e.slots) else [])
  {
    assert (es + [e])[..|es|] == es;
  }

  // ---------------------------------------------------------------------------------------------
  // The table and the tasks
  // ---------------------------------------------------------------------------------------------

  predicate Fits<X>(s: Slots<X>, events: Interest) {
    !Overlap(Events(s), events)
  }

  function SlotsAt<X(==)>(waits: Waits<X>, fd: int): Slots<X> {
    if fd in waits then waits[fd] else Empty()
  }

  /** The table after `fd` got slots `s`: an entry nobody waits in does not stay. */
  function Settle<X(==)>(waits: Waits<X>, fd: int, s: Slots<X>): Waits<X> {
    if s == Empty() then waits - {fd} else waits[fd := s]
  }

  lemma {:induction false} SettleAgain<X>(waits: Waits<X>, fd: int, s: Slots<X>)
    ensures Settle(waits[fd := s], fd, s) == Settle(waits, fd, s)
  {
  }

  /** Every entry has a waiter, and the poller watches for exactly what the waiters of a descriptor ask. */
  ghost predicate Watched<X>(waits: Waits<X>, poller: map<int, Interest>) {
    poller.Keys == waits.Keys && forall fd :: fd in waits ==> waits[fd] != Empty() && poller[fd] == Events(waits[fd])
  }

  /** What a waiting task waits for. */
  datatype Wish = Wish(fd: int, events: Interest)

  /** A task that waits holds, on its descriptor, exactly the slots it asked for; whoever holds a slot waits
      there. */
  ghost predicate Seated<X>(waits: Waits<X>, wishes: map<X, Wish>) {
    && (forall t :: t in wishes ==>
          wishes[t].events != NONE && wishes[t].events == HeldBy(SlotsAt(waits, wishes[t].fd), t))
    && (forall fd :: fd in waits && waits[fd].reader.Some? ==>
          waits[fd].reader.value in wishes && wishes[waits[fd].reader.value].fd == fd)
    && (forall fd :: fd in waits && waits[fd].writer.Some? ==>
          waits[fd].writer.value in wishes && wishes[waits[fd].writer.value].fd == fd)
  }

  function Without<X(==)>(wishes: map<X, Wish>, wake: seq<X>): map<X, Wish> {
    wishes - (set t | t in wake)
  }

  lemma {:induction false} WakingKeepsSeats<X>(waits: Waits<X>, wishes: map<X, Wish>, fd: int, ready: Interest)
    requires Seated(waits, wishes)
    ensures var s := SlotsAt(waits, fd);
      Seated(Settle(waits, fd, Remaining(s, ready)), Without(wishes, Woken(s, ready)))
    ensures forall t :: t in Woken(SlotsAt(waits, fd), ready) ==> t in wishes
  {
    hide Woken, Remaining;
    var s := SlotsAt(waits, fd);
    var after := Settle(waits, fd, Remaining(s, ready));
    var left := Without(wishes, Woken(s, ready));
    forall t | t in left ensures left[t].events != NONE && left[t].events == HeldBy(SlotsAt(after, left[t].fd), t) {
      WakesExactly(s, ready, t);
    }
    forall t | t in Woken(s, ready) ensures t in wishes {
      WakesExactly(s, ready, t);
    }
    var r := Remaining(s, ready);
    if r.reader.Some? { WakesExactly(s, ready, r.reader.value); }
    if r.writer.Some? { WakesExactly(s, ready, r.writer.value); }
    forall d | d in after && d != fd && after[d].reader.Some? ensures after[d].reader.value !in Woken(s, ready) {
      WakesExactly(s, ready, after[d].reader.value);
    }
    forall d | d in after && d != fd && after[d].writer.Some? ensures after[d].writer.value !in Woken(s, ready) {
      WakesExactly(s, ready, after[d].writer.value);
    }
  }

  /** Those woken are those whose wish an event on their descriptor meets. */
  lemma {:induction false} WokenAreTheReady<X>(waits: Waits<X>, wishes: map<X, Wish>, fd: int, ready: Interest, t: X)
    requires Seated(waits, wishes)
    ensures t in Woken(SlotsAt(waits, fd), ready) <==> t in wishes && Met(wishes[t], PollEvent(fd, ready))
    ensures multiset(Woken(SlotsAt(waits, fd), ready))[t] <= 1
  {
    WakesExactly(SlotsAt(waits, fd), ready, t);
  }

  predicate Met(w: Wish, e: PollEvent) {
    w.fd == e.fd && Overlap(w.events, e.events)
  }

  lemma {:induction false} ParkingKeepsSeats<X>(waits: Waits<X>, wishes: map<X, Wish>, fd: int, t: X, events: Interest)
    requires Seated(waits, wishes) && t !in wishes && events != NONE && Fits(SlotsAt(waits, fd), events)
    ensures Seated(waits[fd := Seat(SlotsAt(waits, fd), t, events)], wishes[t := Wish(fd, events)])
  {
  }

  lemma {:induction false} HeldOnce<X>(waits: Waits<X>, wishes: map<X, Wish>, fd: int, t: X)
    requires Seated(waits, wishes) && fd in waits
    ensures multiset(Held(waits[fd]))[t] == if t in wishes && wishes[t].fd == fd then 1 else 0
  {
    var s := waits[fd];
    var first: seq<X> := if s.reader.Some? then [s.reader.value] else [];
    var second: seq<X> := if s.writer.Some? && s.writer != s.reader then [s.writer.value] else [];
    assert multiset(Held(s)) == multiset(first) + multiset(second);
    if t in wishes && wishes[t].fd == fd {
      assert HeldBy(SlotsAt(waits, fd), t) != NONE;
    }
  }

  /** One entry releases a task if and only if the task waits there. */
  lemma {:induction false} ReleasedAt<X>(es: seq<Entry<X>>, place: map<int, nat>, waits: Waits<X>,
      wishes: map<X, Wish>, i: nat, t: X)
    requires Indexed(es, place, waits) && Seated(waits, wishes) && i < |es|
    requires t in wishes ==> wishes[t].fd in place
    ensures multiset(if es[i].inUse then Held(es[i].slots) else [])[t] ==
      if t in wishes && place[wishes[t].fd] == i then 1 else 0
  {
    hide Seated, Held;
    if es[i].inUse {
      HeldOnce(waits, wishes, es[i].fd, t);
    }
  }

  lemma {:induction false} ReleasedBelow<X>(es: seq<Entry<X>>, place: map<int, nat>, waits: Waits<X>,
      wishes: map<X, Wish>, i: nat, t: X)
    requires Indexed(es, place, waits) && Seated(waits, wishes) && i <= |es|
    requires t in wishes ==> wishes[t].fd in place
    ensures multiset(HeldAll(es[..i]))[t] == if t in wishes && place[wishes[t].fd] < i then 1 else 0
  {
    if i == 0 {
    } else {
      hide Indexed, Seated, HeldAll, Held;
      ReleasedBelow(es, place, waits, wishes, i - 1, t);
      assert es[..i] == es[..i - 1] + [es[i - 1]];
      HeldMore(es[..i - 1], es[i - 1]);
      ReleasedAt(es, place, waits, wishes, i - 1, t);
    }
  }

  /** Emptying the table releases every waiting task exactly once, and nobody else. */
  lemma {:induction false} WaitersReleasedOnce<X>(es: seq<Entry<X>>, place: map<int, nat>, waits: Waits<X>,
      wishes: map<X, Wish>, t: X)
    requires Indexed(es, place, waits) && Seated(waits, wishes)
    ensures multiset(HeldAll(es))[t] == if t in wishes then 1 else 0
  {
    assert es[..|es|] == es;
    if t in wishes {
      assert HeldBy(SlotsAt(waits, wishes[t].fd), t) != NONE;
    }
    ReleasedBelow(es, place, waits, wishes, |es|, t);
  }

  /** What a batch of events does to the table, to the run queue and to the wishes, one event at a time. */
  function WaitsAfter<X(==)>(waits: Waits<X>, events: seq<PollEvent>): Waits<X>
    decreases |events|
  {
    if events == [] then waits
    else WaitsAfter(Settle(waits, events[0].fd, Remaining(SlotsAt(waits, events[0].fd), events[0].events)), events[1..])
  }

  function WokenBy<X(==)>(waits: Waits<X>, events: seq<PollEvent>): seq<X>
    decreases |events|
  {
    if events == [] then [] else
    Woken(SlotsAt(waits, events[0].fd), events[0].events) +
    WokenBy(Settle(waits, events[0].fd, Remaining(SlotsAt(waits, events[0].fd), events[0].events)), events[1..])
  }

  function WishesAfter<X(==)>(wishes: map<X, Wish>, waits: Waits<X>, events: seq<PollEvent>): map<X, Wish>
    decreases |events|
  {
    if events == [] then wishes else
    WishesAfter(Without(wishes, Woken(SlotsAt(waits, events[0].fd), events[0].events)),
      Settle(waits, events[0].fd, Remaining(SlotsAt(waits, events[0].fd), events[0].events)), events[1..])
  }

  lemma {:induction false} AfterMore<X>(waits: Waits<X>, events: seq<PollEvent>, e: PollEvent)
    ensures var after := WaitsAfter(waits, events);
      WaitsAfter(waits, events + [e]) == Settle(after, e.fd, Remaining(SlotsAt(after, e.fd), e.events))
    decreases |events|
  {
    hide Settle, Remaining, SlotsAt;
    if events == [] {
      assert (events + [e])[1..] == [];
    } else {
      assert (events + [e])[1..] == events[1..] + [e];
      var next := Settle(waits, events[0].fd, Remaining(SlotsAt(waits, events[0].fd), events[0].events));
      AfterMore(next, events[1..], e);
    }
  }

  /** Event `i` of a batch finds somebody to wake. */
  predicate FindsWaiter<X(==)>(waits: Waits<X>, events: seq<PollEvent>, i: nat)
    requires i < |events|
  {
    Woken(SlotsAt(WaitsAfter(waits, events[..i]), events[i].fd), events[i].events) != []
  }

  /** A batch of events wakes, once each, exactly the tasks whose wish some event of it meets; the others
      keep their wishes. */
  lemma {:induction false} BatchWakesExactly<X>(waits: Waits<X>, wishes: map<X, Wish>, events: seq<PollEvent>, t: X)
    requires Seated(waits, wishes)
    ensures multiset(WokenBy(waits, events))[t] == if t in wishes && Answered(wishes[t], events) then 1 else 0
    ensures t in WishesAfter(wishes, waits, events) <==> t in wishes && !Answered(wishes[t], events)
    ensures t in WishesAfter(wishes, waits, events) ==> WishesAfter(wishes, waits, events)[t] == wishes[t]
    decreases |events|
  {
    if events == [] {
    } else {
      var e := events[0];
      var woken := Woken(SlotsAt(waits, e.fd), e.events);
      var next := Settle(waits, e.fd, Remaining(SlotsAt(waits, e.fd), e.events));
      assert multiset(WokenBy(waits, events)) == multiset(woken) + multiset(WokenBy(next, events[1..]));
      WakingKeepsSeats(waits, wishes, e.fd, e.events);
      WokenAreTheReady(waits, wishes, e.fd, e.events, t);
      BatchWakesExactly(next, Without(wishes, woken), events[1..], t);
      if t in wishes {
        AnsweredFirst(wishes[t], events);
      }
    }
  }

  lemma {:induction false} BatchKeepsSeats<X>(waits: Waits<X>, wishes: map<X, Wish>, events: seq<PollEvent>)
    requires Seated(waits, wishes)
    ensures Seated(WaitsAfter(waits, events), WishesAfter(wishes, waits, events))
    decreases |events|
  {
    hide Seated, Settle, SlotsAt, Woken, Remaining, Without;
    if events == [] {
    } else {
      var s := SlotsAt(waits, events[0].fd);
      WakingKeepsSeats(waits, wishes, events[0].fd, events[0].events);
      var next := Settle(waits, events[0].fd, Remaining(s, events[0].events));
      BatchKeepsSeats(next, Without(wishes, Woken(s, events[0].events)), events[1..]);
    }
  }

  /** Nobody is woken twice by a batch. */
  lemma {:induction false} BatchWakesOnce<X>(waits: Waits<X>, wishes: map<X, Wish>, events: seq<PollEvent>)
    requires Seated(waits, wishes)
    ensures forall a, b :: 0 <= a < b < |WokenBy(waits, events)| ==>
      WokenBy(waits, events)[a] != WokenBy(waits, events)[b]
    ensures forall t :: t in WokenBy(waits, events) ==> t in wishes
    ensures forall t :: t in WishesAfter(wishes, waits, events) <==> t in wishes && t !in WokenBy(waits, events)
  {
    hide Seated, WokenBy, WishesAfter, Answered;
    var ts := WokenBy(waits, events);
    forall a, b | 0 <= a < b < |ts| ensures ts[a] != ts[b] {
      BatchWakesExactly(waits, wishes, events, ts[a]);
      OccursOnce(ts, a, b);
    }
    forall t | t in ts ensures t in wishes {
      BatchWakesExactly(waits, wishes, events, t);
    }
    forall t: X | true ensures t in WishesAfter(wishes, waits, events) <==> t in wishes && t !in ts {
      BatchWakesExactly(waits, wishes, events, t);
    }
  }

  lemma {:induction false} OccursOnce<X>(q: seq<X>, a: nat, b: nat)
    requires a < b < |q| && multiset(q)[q[a]] <= 1
    ensures q[a] != q[b]
  {
    assert q == q[..b] + q[b..];
    assert multiset(q) == multiset(q[..b]) + multiset(q[b..]);
    assert q[..b][a] in multiset(q[..b]) && q[b..][0] in multiset(q[b..]);
  }

  lemma {:induction false} AnsweredFirst(w: Wish, events: seq<PollEvent>)
    requires events != []
    ensures Answered(w, events) <==> Met(w, events[0]) || Answered(w, events[1..])
  {
    assert events == [events[0]] + events[1..];
  }

  predicate Answered(w: Wish, events: seq<PollEvent>) {
    exists e :: e in events && Met(w, e)
  }
}
