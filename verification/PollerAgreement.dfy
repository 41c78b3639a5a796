/** The wait table against the pollers that exist.  The worker changes what a descriptor is watched for in one
    way: it tells the poller the events of the entry's slots as they are and as they will be, and commits the
    slots if the poller agrees. */
module PollerAgreement {
  import opened Basics
  import opened PollerTypes
  import opened IoSpec
  import opened Epoll
  import opened Kqueue

  // ---------------------------------------------------------------------------------------------
  // src/poller_epoll.c
  // ---------------------------------------------------------------------------------------------

  /** A registration stands for every descriptor somebody waits for and for no other, and the kernel, where it
      still knows the descriptor, watches for exactly what the waiters ask. */
  ghost predicate Registered<X>(e: EpollTable, waits: Waits<X>)
    reads e
  {
    forall d: int ::
      && (d in e.regs.live <==> Events(SlotsAt(waits, d)) != NONE)
      && (d in e.kernel ==> e.At(d) == Events(SlotsAt(waits, d)))
  }

  /** The kernel watches every descriptor for exactly what its waiters ask. */
  ghost predicate EpollAgrees<X>(e: EpollTable, waits: Waits<X>)
    reads e
  {
    forall d: int :: e.At(d) == Events(SlotsAt(waits, d))
  }

  /** Descriptor `fd` gets slots `slots`: agreement passes to the new table when the poller accepts and stays with
      the old one when it refuses. */
  method MoveEpoll<X(==)>(e: EpollTable, ghost waits: Waits<X>, fd: int, before: Slots<X>, slots: Slots<X>,
      memory: bool, refused: bool)
    returns (ok: bool)
    requires e.Valid() && fd <= INT_MAX && Registered(e, waits) && before == SlotsAt(waits, fd)
    modifies e, e.generations, e.registered
    ensures e.Valid() && Registered(e, if ok then Settle(waits, fd, slots) else waits)
    ensures old(EpollAgrees(e, waits)) ==> EpollAgrees(e, if ok then Settle(waits, fd, slots) else waits)
  {
    assert forall d :: d != fd ==> SlotsAt(Settle(waits, fd, slots), d) == SlotsAt(waits, d);
    assert Events(SlotsAt(Settle(waits, fd, slots), fd)) == Events(slots);
    ok := e.PollerSetLocked(fd, Events(before), Events(slots), memory, refused);
  }

  /** While table and kernel agree, an event in bits that were asked for, or an error, on a descriptor somebody waits
      for is reported and wakes somebody. */
  lemma {:induction false} EpollEventWakes<X>(e: EpollTable, waits: Waits<X>, fd: int, ready: seq<Ready>, r: Ready)
    requires e.Valid() && EpollAgrees(e, waits) && fd in e.kernel && fd <= INT_MAX
    requires r in ready && r.token == e.kernel[fd].token
    requires And(r.mask, e.kernel[fd].mask) != NO_BITS || r.mask.err || r.mask.hup
    ensures exists p :: p in Reported(e.regs, ready) && p.fd == fd && Woken(SlotsAt(waits, fd), p.events) != []
  {
    AskedIsHeard(e, fd, ready, r);
    OverlapWakes(SlotsAt(waits, fd), FromEpoll(r.mask));
  }

  lemma {:induction false} OverlapWakes<X>(s: Slots<X>, ready: Interest)
    ensures Woken(s, ready) != [] <==> Overlap(ready, Events(s))
  {
  }

  ghost predicate AgreesElsewhere<X>(e: EpollTable, waits: Waits<X>, fd: int)
    reads e
  {
    forall d: int :: d != fd ==> e.At(d) == Events(SlotsAt(waits, d))
  }

  /** The one exception to the agreement: a descriptor closed while somebody waits for it.  Then the kernel watches
      less than the table says. */
  method CloseWatched<X(==)>(e: EpollTable, ghost waits: Waits<X>, fd: int)
    requires e.Valid() && Registered(e, waits)
    modifies e`kernel
    ensures e.Valid() && Registered(e, waits)
    ensures old(EpollAgrees(e, waits)) ==> (EpollAgrees(e, waits) <==> Events(SlotsAt(waits, fd)) == NONE)
    ensures old(EpollAgrees(e, waits)) ==> AgreesElsewhere(e, waits, fd)
    ensures old(EpollAgrees(e, waits)) ==> EpollAgrees(e, waits - {fd})
  {
    e.DescriptorClosed(fd);
  }

  /** worker_forget_fd at the poller: the entry of `fd` is emptied, unless the poller refuses, which aborts. */
  method ForgetEpoll<X(==)>(e: EpollTable, ghost waits: Waits<X>, fd: int, slots: Slots<X>, refused: bool)
    returns (aborted: bool)
    requires e.Valid() && fd <= INT_MAX && Registered(e, waits) && slots == SlotsAt(waits, fd)
    modifies e, e.generations, e.registered
    ensures aborted <==> refused && Events(slots) != NONE
    ensures !aborted ==> e.Valid() && Registered(e, waits - {fd})
    ensures !aborted && old(AgreesElsewhere(e, waits, fd)) ==> EpollAgrees(e, waits - {fd})
  {
    var ok := e.PollerSetLocked(fd, Events(slots), NONE, false, refused);
    assert forall d :: SlotsAt(waits - {fd}, d) == if d == fd then Empty() else SlotsAt(waits, d);
    aborted := !ok;
  }

  /** Forgetting a descriptor and then closing it, as docs/API.md asks: the agreement is never lost. */
  method ForgetThenClose<X(==)>(e: EpollTable, ghost waits: Waits<X>, fd: int, slots: Slots<X>, refused: bool)
    returns (aborted: bool)
    requires e.Valid() && fd <= INT_MAX && Registered(e, waits) && EpollAgrees(e, waits) && slots == SlotsAt(waits, fd)
    modifies e, e.generations, e.registered
    ensures aborted <==> refused && Events(slots) != NONE
    ensures !aborted ==> e.Valid() && Registered(e, waits - {fd}) && EpollAgrees(e, waits - {fd})
  {
    aborted := ForgetEpoll(e, waits, fd, slots, refused);
    if !aborted {
      CloseWatched(e, waits - {fd}, fd);
    }
  }

  /** The other order.  The kernel forgot the descriptor when it was closed; asked to delete it, it answers ENOENT if
      the number has been `reused` for another file, and EBADF if it names none.  The source accepts only the
      former, so with somebody waiting the process aborts exactly when the number is still free. */
  method CloseThenForget<X(==)>(e: EpollTable, ghost waits: Waits<X>, fd: int, slots: Slots<X>, reused: bool)
    returns (aborted: bool)
    requires e.Valid() && fd <= INT_MAX && Registered(e, waits) && EpollAgrees(e, waits) && slots == SlotsAt(waits, fd)
    modifies e, e.generations, e.registered
    ensures aborted <==> !reused && Events(slots) != NONE
    ensures !aborted ==> e.Valid() && Registered(e, waits - {fd}) && EpollAgrees(e, waits - {fd})
  {
    CloseWatched(e, waits, fd);
    aborted := ForgetEpoll(e, waits, fd, slots, !reused);
  }

  // ---------------------------------------------------------------------------------------------
  // src/poller_kqueue.c
  // ---------------------------------------------------------------------------------------------

  ghost predicate KqueueAgrees<X>(q: KernelQueue, waits: Waits<X>)
    reads q
  {
    forall d: int :: q.At(d) == Events(SlotsAt(waits, d))
  }

  /** Nobody's wake-up can be missed. */
  ghost predicate KqueueCovers<X>(q: KernelQueue, waits: Waits<X>)
    reads q
  {
    forall d: int :: Covers(q.At(d), Events(SlotsAt(waits, d)))
  }

  /** Here a refusal can leave the kernel out of step, exactly when the read filter was changed and putting it
      back was refused as well.  Asking for more than before, as a parking task does, then leaves the kernel
      watching too much and never too little; asking for less, as a wake-up does, ends in abort. */
  method MoveKqueue<X(==)>(q: KernelQueue, ghost waits: Waits<X>, fd: int, before: Slots<X>, slots: Slots<X>,
      noRead: bool, noWrite: bool, noRollback: bool)
    returns (ok: bool)
    requires before == SlotsAt(waits, fd)
    modifies q
    ensures ok && old(KqueueAgrees(q, waits)) ==> KqueueAgrees(q, Settle(waits, fd, slots))
    ensures ok && old(KqueueCovers(q, waits)) ==> KqueueCovers(q, Settle(waits, fd, slots))
    ensures !ok && old(KqueueAgrees(q, waits)) ==>
      (KqueueAgrees(q, waits) <==> Events(before).read == Events(slots).read || noRead || !noRollback)
    ensures !ok && old(KqueueCovers(q, waits)) && Covers(Events(slots), Events(before)) ==> KqueueCovers(q, waits)
  {
    assert forall d :: d != fd ==> SlotsAt(Settle(waits, fd, slots), d) == SlotsAt(waits, d);
    assert Events(SlotsAt(Settle(waits, fd, slots), fd)) == Events(slots);
    ok := q.PollerSet(fd, Events(before), Events(slots), noRead, noWrite, noRollback);
  }

  /** Whoever waits for what a filter watches is woken when the filter fires: the filter is in place, and the merged
      list of any batch in which it fires, or its descriptor fails, has an entry that wakes somebody. */
  lemma {:induction false} KqueueEventWakes<X>(q: KernelQueue, waits: Waits<X>, fd: int, f: Filter,
      ready: seq<KEvent>, wakeFd: int, out: seq<PollEvent>, e: KEvent)
    requires KqueueCovers(q, waits) && !f.OtherFilter? && Has(Events(SlotsAt(waits, fd)), f)
    requires IsMerge(ready, wakeFd, out) && e in ready && !IsWake(e, wakeFd)
    requires e.ident == fd && (e.filter == f || e.failed)
    ensures Has(q.At(fd), f)
    ensures exists p :: p in out && p.fd == fd && Woken(SlotsAt(waits, fd), p.events) != []
  {
    FilterIsHeard(ready, wakeFd, out, e, f);
    var p :| p in out && p.fd == fd && Has(p.events, f);
    OverlapWakes(SlotsAt(waits, fd), p.events);
  }
}
