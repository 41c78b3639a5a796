/** The bookkeeping of src/poller_kqueue.c: two-step registration with rollback, and merging kernel
    events per descriptor. */
module Kqueue {
  import opened PollerTypes

  datatype Filter = Read | Write | OtherFilter

  /** struct kevent; `failed` stands for EV_EOF or EV_ERROR. */
  datatype KEvent = KEvent(ident: int, filter: Filter, failed: bool)

  // ---------------------------------------------------------------------------------------------
  // Registration
  // ---------------------------------------------------------------------------------------------

  function Has(e: Interest, f: Filter): bool
    requires !f.OtherFilter?
  {
    if f.Read? then e.read else e.write
  }

  function With(e: Interest, f: Filter, on: bool): Interest
    requires !f.OtherFilter?
  {
    if f.Read? then e.(read := on) else e.(write := on)
  }

  /** The kernel's filters per descriptor.  Any change may be refused, which leaves it as it was. */
  class KernelQueue {
    var filters: map<int, Interest>

    ghost predicate OnlyChanges(before: map<int, Interest>, fd: int)
      reads this
    {
      forall d :: d != fd ==> (d in filters <==> d in before) && (d in before ==> filters[d] == before[d])
    }

    function At(fd: int): Interest
      reads this
    {
      if fd in filters then filters[fd] else NONE
    }

    /** apply_filter_change. */
    method ApplyFilterChange(fd: int, f: Filter, enable: bool, refused: bool) returns (ok: bool)
      requires !f.OtherFilter?
      modifies this
      ensures ok == !refused && OnlyChanges(old(filters), fd)
      ensures At(fd) == if ok then With(old(At(fd)), f, enable) else old(At(fd))
    {
      if refused {
        return false;
      }
      filters := filters[fd := With(At(fd), f, enable)];
      return true;
    }

    /** sync_filter: bring one filter from the old interest to the new. */
    method SyncFilter(fd: int, before: Interest, after: Interest, f: Filter, refused: bool) returns (ok: bool)
      requires !f.OtherFilter?
      modifies this
      ensures ok <==> Has(before, f) == Has(after, f) || !refused
      ensures OnlyChanges(old(filters), fd)
      ensures At(fd) == if ok && Has(before, f) != Has(after, f) then With(old(At(fd)), f, Has(after, f))
              else old(At(fd))
    {
      if Has(before, f) == Has(after, f) {
        return true;
      }
      ok := ApplyFilterChange(fd, f, Has(after, f), refused);
    }

    /** reverse_filter: put one filter back. */
    method ReverseFilter(fd: int, before: Interest, after: Interest, f: Filter, refused: bool) returns (ok: bool)
      requires !f.OtherFilter?
      modifies this
      ensures ok <==> Has(before, f) == Has(after, f) || !refused
      ensures OnlyChanges(old(filters), fd)
      ensures At(fd) == if ok && Has(before, f) != Has(after, f) then With(old(At(fd)), f, Has(before, f))
              else old(At(fd))
    {
      if Has(before, f) == Has(after, f) {
        return true;
      }
      ok := ApplyFilterChange(fd, f, Has(before, f), refused);
    }

    /** croutine_poller_set: all or nothing.  For a caller that knows what the kernel watches, a true result
        leaves exactly the new interest, and a false one exactly the old, unless the read filter had been
        changed and putting it back was refused too.  A filter the caller does not change stays as it was. */
    method PollerSet(fd: int, before: Interest, after: Interest, noRead: bool, noWrite: bool, noRollback: bool)
      returns (ok: bool)
      modifies this
      ensures OnlyChanges(old(filters), fd)
      ensures ok <==> (before.read == after.read || !noRead) && (before.write == after.write || !noWrite)
      ensures ok && old(At(fd)) == before ==> At(fd) == after
      ensures !ok && old(At(fd)) == before ==>
        (At(fd) == before <==> before.read == after.read || noRead || !noRollback)
      ensures before.read == after.read ==> At(fd).read == old(At(fd)).read
      ensures before.write == after.write ==> At(fd).write == old(At(fd)).write
      ensures ok && before.read != after.read ==> At(fd).read == after.read
      ensures ok && before.write != after.write ==> At(fd).write == after.write
    {
      if before == after {
        return true;
      }
      var first := SyncFilter(fd, before, after, Read, noRead);
      if !first {
        return false;
      }
      var second := SyncFilter(fd, before, after, Write, noWrite);
      if second {
        return true;
      }
      var back := ReverseFilter(fd, before, after, Read, noRollback);
      return false;
    }
  }

  // ---------------------------------------------------------------------------------------------
  // Merging events
  // ---------------------------------------------------------------------------------------------

  /** translate_ready_event. */
  function Translate(e: KEvent): Interest {
    Interest(e.filter.Read? || e.failed, e.filter.Write? || e.failed)
  }

  predicate IsWake(e: KEvent, wakeFd: int) {
    e.ident == wakeFd && e.filter.Read?
  }

  /** A filter that fired says itself, an error or an end of file says everything, any other filter nothing. */
  lemma {:induction false} TranslateSays(e: KEvent)
    ensures e.failed ==> Translate(e) == Interest(true, true)
    ensures !e.failed ==> Translate(e) == if e.filter.OtherFilter? then NONE else With(NONE, e.filter, true)
  {
  }

  /** Some event of the list, not the wake-up, makes `fd` readable (writable): its filter fired, or it failed. */
  ghost predicate SaysRead(evs: seq<KEvent>, wakeFd: int, fd: int) {
    exists e :: e in evs && !IsWake(e, wakeFd) && e.ident == fd && (e.filter == Read || e.failed)
  }

  ghost predicate SaysWrite(evs: seq<KEvent>, wakeFd: int, fd: int) {
    exists e :: e in evs && !IsWake(e, wakeFd) && e.ident == fd && (e.filter == Write || e.failed)
  }

  ghost function Says(evs: seq<KEvent>, wakeFd: int, fd: int): Interest {
    Interest(SaysRead(evs, wakeFd, fd), SaysWrite(evs, wakeFd, fd))
  }

  /** `out` has one entry per descriptor with something to say, and says all of it. */
  ghost predicate IsMerge(evs: seq<KEvent>, wakeFd: int, out: seq<PollEvent>) {
    && (forall i, j :: 0 <= i < j < |out| ==> out[i].fd != out[j].fd)
    && (forall i :: 0 <= i < |out| ==> out[i].events == Says(evs, wakeFd, out[i].fd) && out[i].events != NONE)
    && (forall fd :: Says(evs, wakeFd, fd) != NONE ==> exists i :: 0 <= i < |out| && out[i].fd == fd)
  }

  /** The result of merge_ready_event on what is already there. */
  ghost predicate MergedInto(before: seq<PollEvent>, after: seq<PollEvent>, fd: int, ready: Interest) {
    if exists i :: 0 <= i < |before| && before[i].fd == fd then
      |after| == |before| && forall i :: 0 <= i < |before| ==>
        after[i] == if before[i].fd == fd then PollEvent(fd, Union(before[i].events, ready)) else before[i]
    else
      after == before + [PollEvent(fd, ready)]
  }

  lemma {:induction false} SaysMore(evs: seq<KEvent>, e: KEvent, wakeFd: int, fd: int)
    ensures Says(evs + [e], wakeFd, fd) ==
            if e.ident == fd && !IsWake(e, wakeFd) then Union(Says(evs, wakeFd, fd), Translate(e))
            else Says(evs, wakeFd, fd)
  {
    assert forall x :: x in evs + [e] <==> x in evs || x == e;
  }

  /** Merging one more event keeps the list a merge. */
  lemma {:induction false} MergeMore(evs: seq<KEvent>, e: KEvent, wakeFd: int, out: seq<PollEvent>,
      out': seq<PollEvent>)
    requires IsMerge(evs, wakeFd, out) && !IsWake(e, wakeFd) && Translate(e) != NONE
    requires forall i, j :: 0 <= i < j < |out| ==> out[i].fd != out[j].fd
    requires MergedInto(out, out', e.ident, Translate(e))
    ensures IsMerge(evs + [e], wakeFd, out')
  {
    forall fd ensures Says(evs + [e], wakeFd, fd) == if e.ident == fd then Union(Says(evs, wakeFd, fd), Translate(e))
    else Says(evs, wakeFd, fd) {
      SaysMore(evs, e, wakeFd, fd);
    }
    if exists i :: 0 <= i < |out| && out[i].fd == e.ident {
      assert forall i :: 0 <= i < |out| ==> out'[i].fd == out[i].fd;
    } else {
      assert Says(evs, wakeFd, e.ident) == NONE;
      assert out'[|out|].fd == e.ident;
      forall fd | Says(evs + [e], wakeFd, fd) != NONE ensures exists i :: 0 <= i < |out'| && out'[i].fd == fd {
        if fd != e.ident {
          var i :| 0 <= i < |out| && out[i].fd == fd;
          assert out'[i].fd == fd;
        }
      }
    }
  }

  /** Events that say nothing, and wake-ups, change nothing. */
  lemma {:induction false} MergeSkip(evs: seq<KEvent>, e: KEvent, wakeFd: int, out: seq<PollEvent>)
    requires IsMerge(evs, wakeFd, out) && (IsWake(e, wakeFd) || Translate(e) == NONE)
    ensures IsMerge(evs + [e], wakeFd, out)
  {
    forall fd ensures Says(evs + [e], wakeFd, fd) == Says(evs, wakeFd, fd) {
      SaysMore(evs, e, wakeFd, fd);
    }
  }

  /** merge_ready_event. */
  method MergeReadyEvent(events: array<PollEvent>, count: nat, fd: int, ready: Interest) returns (n: nat)
    requires count < events.Length
    requires forall i, j :: 0 <= i < j < count ==> events[i].fd != events[j].fd
    modifies events
    ensures n <= count + 1 && n <= events.Length && MergedInto(old(events[..count]), events[..n], fd, ready)
  {
    var i := 0;
    while i < count
      invariant 0 <= i <= count
      invariant forall k :: 0 <= k < i ==> events[k].fd != fd
      invariant events[..] == old(events[..])
    {
      if events[i].fd == fd {
        events[i] := events[i].(events := Union(events[i].events, ready));
        ghost var before := old(events[..count]);
        assert before[i].fd == fd;
        return count;
      }
      i := i + 1;
    }
    events[count] := PollEvent(fd, ready);
    ghost var before := old(events[..count]);
    assert forall k :: 0 <= k < |before| ==> before[k].fd != fd;
    assert events[..count + 1] == before + [PollEvent(fd, ready)];
    return count + 1;
  }

  /** The merge loop of croutine_poller_wait over the events the kernel returned. */
  method PollerWait(ready: seq<KEvent>, wakeFd: int, events: array<PollEvent>) returns (count: nat, drained: bool)
    requires |ready| <= events.Length
    modifies events
    ensures count <= |ready| && IsMerge(ready, wakeFd, events[..count])
    ensures drained <==> exists e :: e in ready && IsWake(e, wakeFd)
  {
    count, drained := 0, false;
    var i := 0;
    while i < |ready|
      invariant 0 <= i <= |ready| && count <= i
      invariant IsMerge(ready[..i], wakeFd, events[..count])
      invariant drained <==> exists e :: e in ready[..i] && IsWake(e, wakeFd)
    {
      var e := ready[i];
      assert ready[..i + 1] == ready[..i] + [e];
      ghost var before := events[..count];
      if IsWake(e, wakeFd) {
        drained := true;
        MergeSkip(ready[..i], e, wakeFd, before);
        assert e in ready[..i + 1];
      } else if Translate(e) == NONE {
        MergeSkip(ready[..i], e, wakeFd, before);
      } else {
        assert forall a, b :: 0 <= a < b < count ==> before[a].fd != before[b].fd;
        count := MergeReadyEvent(events, count, e.ident, Translate(e));
        MergeMore(ready[..i], e, wakeFd, before, events[..count]);
      }
      i := i + 1;
    }
    assert ready[..|ready|] == ready;
  }

  /** A filter the kernel was left with is heard when it fires: the merged list has an entry for its descriptor, and
      that entry has it. */
  lemma {:induction false} FilterIsHeard(ready: seq<KEvent>, wakeFd: int, out: seq<PollEvent>, e: KEvent, f: Filter)
    requires IsMerge(ready, wakeFd, out) && e in ready && !IsWake(e, wakeFd) && !f.OtherFilter?
    requires e.filter == f || e.failed
    ensures exists p :: p in out && p.fd == e.ident && Has(p.events, f)
  {
    assert Has(Says(ready, wakeFd, e.ident), f);
    var i :| 0 <= i < |out| && out[i].fd == e.ident;
    assert out[i] in out;
  }
}
