/** Descriptor waits of src/worker.c: the table of waiting tasks, parking on a descriptor, and waking. */
module IoTable {
  import opened Basics
  import opened PollerTypes
  import opened Tasks
  import opened IoSpec

  class IoWaitTable {
    var entries: array<Entry<Task>>
    var count: nat
    /** Descriptor by descriptor, who waits. */
    ghost var waits: Waits<Task>
    ghost var place: map<int, nat>

    ghost predicate Valid()
      reads this, entries
    {
      count == InUse(entries[..]) && Indexed(entries[..], place, waits)
    }

    /** io_wait_table_init. */
    constructor (capacity: nat)
      ensures Valid() && fresh(entries) && waits == map[]
    {
      entries := new Entry<Task>[capacity](_ => Reset());
      count := 0;
      waits, place := map[], map[];
      new;
      InUsePrefix(entries[..], 0);
    }

    /** io_wait_table_find: an index, or the capacity for none. */
    method Find(fd: int) returns (at: nat)
      requires Valid()
      ensures at <= entries.Length && (at < entries.Length <==> fd in waits)
      ensures at < entries.Length ==> entries[at] == Entry(fd, waits[fd], true)
    {
      at := 0;
      while at < entries.Length
        invariant at <= entries.Length && forall i :: 0 <= i < at ==> !(entries[i].inUse && entries[i].fd == fd)
      {
        if entries[at].inUse && entries[at].fd == fd {
          return;
        }
        at := at + 1;
      }
    }

    /** io_wait_table_grow: twice the room, the entries in use moved together at the front. */
    method Grow(memory: bool) returns (ok: bool)
      requires Valid()
      modifies this`entries, this`count, this`place
      ensures Valid() && ok == memory
      ensures if ok then fresh(entries) && count < entries.Length else entries == old(entries)
      ensures ok ==> entries.Length == if old(entries.Length) == 0 then 1 else 2 * old(entries.Length)
    {
      var newCapacity := if entries.Length != 0 then entries.Length * 2 else 1;
      if !memory {
        return false;
      }
      var moved := new Entry<Task>[newCapacity](_ => Reset());
      count, place := MoveTogether(moved);
      entries := moved;
      return true;
    }

    method MoveTogether(moved: array<Entry<Task>>) returns (dst: nat, ghost newPlace: map<int, nat>)
      requires Valid() && moved != entries && entries.Length <= moved.Length
      requires forall k :: 0 <= k < moved.Length ==> moved[k] == Reset()
      modifies moved
      ensures Indexed(moved[..], newPlace, waits) && InUse(moved[..]) == dst <= entries.Length
    {
      hide InUse;
      newPlace := map[];
      dst := 0;
      var i := 0;
      while i < entries.Length
        invariant dst <= i <= entries.Length && Gathered(entries[..], place, waits, i, moved[..], newPlace, dst)
        modifies moved
      {
        GatherOne(entries[..], place, waits, i, moved[..], newPlace, dst);
        var e := entries[i];
        if e.inUse {
          ghost var was := moved[..];
          moved[dst] := e;
          assert moved[..] == was[dst := e];
          newPlace := newPlace[e.fd := dst];
          dst := dst + 1;
        }
        i := i + 1;
      }
      GatheredAll(entries[..], place, waits, moved[..], newPlace, dst);
    }

    method Put(at: nat, e: Entry<Task>)
      requires Valid() && at < entries.Length && e.inUse
      requires if entries[at].inUse then entries[at].fd == e.fd else e.fd !in waits
      modifies this`count, this`waits, this`place, entries
      ensures Valid() && waits == old(waits)[e.fd := e.slots] && entries[at] == e
    {
      ghost var was := entries[..];
      InUseSet(was, at, e);
      if !entries[at].inUse {
        count := count + 1;
      }
      entries[at] := e;
      waits, place := waits[e.fd := e.slots], place[e.fd := at];
      assert entries[..] == was[at := e];
    }

    /** io_wait_table_get_or_insert; the search for a free entry always ends at one. */
    method GetOrInsert(fd: int, memory: bool) returns (ok: bool, at: nat)
      requires Valid()
      modifies this, entries
      ensures Valid() && (entries == old(entries) || fresh(entries))
      ensures ok <==> fd in old(waits) || old(count < entries.Length) || memory
      ensures waits == if ok && fd !in old(waits) then old(waits)[fd := Empty()] else old(waits)
      ensures ok ==> at < entries.Length && entries[at] == Entry(fd, waits[fd], true)
    {
      InUseBound(entries[..]);
      at := Find(fd);
      if at < entries.Length {
        return true, at;
      }
      if count == entries.Length {
        var grown := Grow(memory);
        if !grown {
          return false, 0;
        }
      }
      at := FirstFree();
      Put(at, Entry(fd, Empty(), true));
      return true, at;
    }

    method FirstFree() returns (at: nat)
      requires Valid() && count < entries.Length
      ensures at < entries.Length && !entries[at].inUse
    {
      InUseBound(entries[..]);
      at := 0;
      while entries[at].inUse
        invariant at < entries.Length && forall i :: 0 <= i < at ==> entries[i].inUse
        decreases entries.Length - at
      {
        at := at + 1;
      }
    }

    method DrainEntry(at: nat) returns (released: seq<Task>)
      requires Valid() && at < entries.Length
      modifies this`count, this`waits, this`place, entries
      ensures Valid() && released == if old(entries[at].inUse) then Held(old(entries[at].slots)) else []
      ensures !entries[at].inUse && entries[..] == old(entries[..])[at := entries[at]]
    {
      released := [];
      var e := entries[at];
      if e.inUse {
        RemoveEntry(at);
        if e.slots.reader.Some? {
          released := released + [e.slots.reader.value];
        }
        if e.slots.writer != e.slots.reader && e.slots.writer.Some? {
          released := released + [e.slots.writer.value];
        }
      }
    }

    /** The loop of worker_deinit over the table: it is left empty, and what it held is released. */
    method Drain() returns (released: seq<Task>)
      requires Valid()
      modifies this`count, this`waits, this`place, entries
      ensures Valid() && waits == map[] && count == 0 && released == HeldAll(old(entries[..]))
    {
      hide Indexed, InUse, Held, HeldAll;
      released := [];
      ghost var was := entries[..];
      HeldNone(was[..0]);
      var i := 0;
      while i < entries.Length
        invariant 0 <= i <= entries.Length && Valid()
        invariant released == HeldAll(was[..i])
        invariant forall k :: 0 <= k < i ==> !entries[k].inUse
        invariant forall k :: i <= k < entries.Length ==> entries[k] == was[k]
      {
        assert was[..i + 1] == was[..i] + [was[i]];
        HeldMore(was[..i], was[i]);
        var more := DrainEntry(i);
        released := released + more;
        i := i + 1;
      }
      assert was[..i] == was;
      NoneInUse(entries[..], place, waits);
    }

    /** io_wait_table_remove_entry. */
    method RemoveEntry(at: nat)
      requires Valid() && at < entries.Length && entries[at].inUse
      modifies this`count, this`waits, this`place, entries
      ensures Valid() && waits == old(waits) - {old(entries[at].fd)}
      ensures entries[..] == old(entries[..][at := Reset()])
    {
      ghost var was := entries[..];
      InUseSet(was, at, Reset());
      ghost var fd := entries[at].fd;
      entries[at] := Reset();
      assert entries[..] == was[at := Reset()];
      waits, place := waits - {fd}, place - {fd};
      count := count - 1;
    }
  }

  class IoWaits {
    const table: IoWaitTable
    /** What the poller watches; a call to change it may be refused. */
    var poller: map<int, Interest>
    /** The tasks handed to the run queue, in order. */
    var runnable: seq<Task>
    var shutdown: bool
    var pollerWaiterActive: bool
    /** Every task there is, and what those that wait wait for. */
    ghost var tasks: set<Task>
    ghost var wishes: map<Task, Wish>

    ghost predicate Reflects(t: Task)
      reads this, t
    {
      if t in wishes then t.state == WaitingIo && Wish(t.fd, t.events) == wishes[t] else t.state != WaitingIo
    }

    /** The table, the poller and the tasks agree. */
    ghost predicate Valid()
      reads this, table, table.entries, tasks
    {
      && table.Valid() && Watched(table.waits, poller) && Seated(table.waits, wishes)
      && wishes.Keys <= tasks && forall t :: t in tasks ==> Reflects(t)
    }

    constructor (capacity: nat)
      ensures Valid() && fresh(table) && fresh(table.entries) && tasks == {} && runnable == [] && !shutdown
    {
      table := new IoWaitTable(capacity);
      poller := map[];
      runnable := [];
      shutdown, pollerWaiterActive := false, false;
      tasks, wishes := {}, map[];
    }

    /** A task is spawned. */
    method Adopt(task: Task)
      requires Valid() && task.state != WaitingIo && task !in wishes
      modifies this`tasks
      ensures Valid() && tasks == old(tasks) + {task}
    {
      tasks := tasks + {task};
    }

    /** croutine_poller_set, as its callers here see it. */
    method PollerSet(fd: int, before: Interest, after: Interest, refused: bool) returns (ok: bool)
      modifies this`poller
      ensures ok <==> before == after || !refused
      ensures poller == if before == after || !ok then old(poller) else if after == NONE then old(poller) - {fd}
              else old(poller)[fd := after]
    {
      if before == after {
        return true;
      }
      if refused {
        return false;
      }
      poller := if after == NONE then poller - {fd} else poller[fd := after];
      return true;
    }

    /** enqueue_runnable_task_locked. */
    method Enqueue(t: Task, success: bool)
      modifies this`runnable, t`state, t`fd, t`events, t`ioSuccess
      ensures runnable == old(runnable) + [t]
      ensures t.state == Runnable && t.fd == -1 && t.events == NONE && t.ioSuccess == success
    {
      t.ioSuccess := success;
      t.state := Runnable;
      t.fd := -1;
      t.events := NONE;
      runnable := runnable + [t];
    }

    /** The first half of wake_waiting_tasks_locked: the table gives up the tasks to wake. */
    method TakeWoken(at: nat, ready: Interest) returns (wake: seq<Task>, left: Slots<Task>)
      requires table.Valid() && at < table.entries.Length && table.entries[at].inUse
      modifies table`count, table`waits, table`place, table.entries
      ensures table.Valid()
      ensures wake == Woken(old(table.entries[at].slots), ready)
      ensures left == Remaining(old(table.entries[at].slots), ready)
      ensures table.waits == old(table.waits[table.entries[at].fd := left])
      ensures table.entries[at] == old(table.entries[at]).(slots := left)
    {
      left := table.entries[at].slots;
      wake := [];
      if ready.read && left.reader.Some? {
        wake := [left.reader.value];
        left := Clear(left, left.reader.value);
      }
      if ready.write && left.writer.Some? {
        var task := left.writer.value;
        left := Clear(left, task);
        if wake == [] || wake[0] != task {
          wake := wake + [task];
        }
      }
      table.Put(at, table.entries[at].(slots := left));
    }

    /** Its middle: the poller follows, and an entry left empty goes. */
    method Follow(fd: int, at: nat, before: Slots<Task>, left: Slots<Task>, refused: bool) returns (ok: bool)
      requires table.Valid() && at < table.entries.Length && table.entries[at] == Entry(fd, left, true)
      requires before != Empty() && Watched(table.waits[fd := before], poller)
      modifies this`poller, table`count, table`waits, table`place, table.entries
      ensures ok <==> Events(before) == Events(left) || !refused
      ensures ok ==> table.Valid() && table.waits == Settle(old(table.waits), fd, left)
      ensures ok ==> Watched(table.waits, poller)
    {
      assert table.waits[fd] == left by {
        assert table.entries[..][at].inUse;
      }
      ok := PollerSet(fd, Events(before), Events(left), refused);
      if ok && Events(left) == NONE {
        table.RemoveEntry(at);
      }
    }

    method Withdraw(fd: int, at: nat, ready: Interest, refused: bool) returns (wake: seq<Task>, aborted: bool)
      requires table.Valid() && Watched(table.waits, poller)
      requires at < table.entries.Length && fd in table.waits && table.entries[at] == Entry(fd, table.waits[fd], true)
      modifies this`poller, table`count, table`waits, table`place, table.entries
      ensures wake == Woken(old(table.waits[fd]), ready)
      ensures aborted <==> refused && wake != []
      ensures !aborted ==> table.Valid() && Watched(table.waits, poller)
      ensures !aborted ==> table.waits == Settle(old(table.waits), fd, Remaining(old(table.waits[fd]), ready))
    {
      ghost var before := table.waits;
      var slots := table.entries[at].slots;
      var left;
      wake, left := TakeWoken(at, ready);
      WakesWhenChanged(slots, ready);
      assert table.waits[fd := slots] == before;
      SettleAgain(before, fd, left);
      var ok := Follow(fd, at, slots, left, refused);
      aborted := !ok;
    }

    /** Its end: the tasks become runnable. */
    method EnqueueAll(wake: seq<Task>, success: bool)
      modifies this`runnable, wake`state, wake`fd, wake`events, wake`ioSuccess
      ensures runnable == old(runnable) + wake
      ensures forall t :: t in wake ==> IsAwake(t, success)
    {
      var i := 0;
      while i < |wake|
        invariant 0 <= i <= |wake|
        invariant runnable == old(runnable) + wake[..i]
        invariant forall k :: 0 <= k < i ==> IsAwake(wake[k], success)
      {
        Enqueue(wake[i], success);
        i := i + 1;
      }
    }

    /** With the table and the poller past them, the tasks of `wake` stop waiting. */
    method Rouse(wake: seq<Task>, success: bool)
      requires table.Valid() && Watched(table.waits, poller) && Seated(table.waits, Without(wishes, wake))
      requires wishes.Keys <= tasks && (forall t :: t in tasks ==> Reflects(t))
      requires forall t :: t in wake ==> t in tasks
      modifies this`runnable, this`wishes, tasks`state, tasks`fd, tasks`events, tasks`ioSuccess
      ensures Valid() && runnable == old(runnable) + wake && wishes == Without(old(wishes), wake)
      ensures forall t :: t in tasks ==> if t in wake then IsAwake(t, success) else unchanged(t)
    {
      EnqueueAll(wake, success);
      wishes := Without(wishes, wake);
      forall t | t in tasks ensures Reflects(t) {
        if t in wake {
          assert IsAwake(t, success) && t !in wishes;
        } else {
          assert unchanged(t) && old(Reflects(t));
        }
      }
    }

    method WakeFound(fd: int, at: nat, ready: Interest, success: bool, refused: bool)
      returns (wake: seq<Task>, aborted: bool)
      requires Valid() && at < table.entries.Length && fd in table.waits
      requires table.entries[at] == Entry(fd, table.waits[fd], true)
      modifies this`poller, this`runnable, this`wishes, table`count, table`waits, table`place, table.entries
      modifies tasks`state, tasks`fd, tasks`events, tasks`ioSuccess
      ensures wake == Woken(old(table.waits[fd]), ready)
      ensures aborted <==> refused && wake != []
      ensures !aborted ==> Valid() && runnable == old(runnable) + wake && wishes == Without(old(wishes), wake)
      ensures !aborted ==> table.waits == Settle(old(table.waits), fd, Remaining(old(table.waits[fd]), ready))
      ensures !aborted ==> forall t :: t in tasks ==> if t in wake then IsAwake(t, success) else unchanged(t)
    {
      hide Woken, Remaining, Settle, Watched, Seated, IsAwake, Indexed, InUse;
      WakingKeepsSeats(table.waits, wishes, fd, ready);
      wake, aborted := Withdraw(fd, at, ready, refused);
      if !aborted {
        Rouse(wake, success);
      }
    }

    /** wake_waiting_tasks_locked: exactly the tasks waiting for something that is ready become runnable;
        a refusing poller aborts the process. */
    method WakeWaitingTasks(fd: int, ready: Interest, success: bool, refused: bool) returns (count: nat, aborted: bool)
      requires Valid()
      modifies this`poller, this`runnable, this`wishes, table`count, table`waits, table`place, table.entries
      modifies tasks`state, tasks`fd, tasks`events, tasks`ioSuccess
      ensures var wake := Woken(SlotsAt(old(table.waits), fd), ready);
        && (aborted <==> refused && wake != [])
        && (!aborted ==> count == |wake| && runnable == old(runnable) + wake && wishes == Without(old(wishes), wake))
        && (!aborted ==> forall t :: t in tasks ==> if t in wake then IsAwake(t, success) else unchanged(t))
      ensures !aborted ==> Valid()
      ensures !aborted ==> table.waits == Settle(old(table.waits), fd, Remaining(SlotsAt(old(table.waits), fd), ready))
    {
      var at := table.Find(fd);
      if at == table.entries.Length {
        return 0, false;
      }
      var wake: seq<Task>;
      wake, aborted := WakeFound(fd, at, ready, success, refused);
      count := |wake|;
    }

    /** The middle of worker_park_current_on_io: an entry with room for `events`, and the poller watching
        for them; or nothing has changed. */
    method Reserve(fd: int, events: Interest, memory: bool, refused: bool) returns (ok: bool, at: nat)
      requires table.Valid() && Watched(table.waits, poller) && events != NONE
      modifies this`poller, table, table.entries
      ensures table.Valid()
      ensures ok <==>
        && !refused && Fits(SlotsAt(old(table.waits), fd), events)
        && (fd in old(table.waits) || memory || old(table.count < table.entries.Length))
      ensures ok ==> at < table.entries.Length && table.entries[at] == Entry(fd, SlotsAt(old(table.waits), fd), true)
      ensures if ok then table.waits == old(table.waits)[fd := SlotsAt(old(table.waits), fd)]
              else table.waits == old(table.waits)
      ensures poller == if ok then old(poller)[fd := Union(Events(SlotsAt(old(table.waits), fd)), events)]
              else old(poller)
      ensures table.entries == old(table.entries) || fresh(table.entries)
    {
      ok, at := table.GetOrInsert(fd, memory);
      if !ok {
        return;
      }
      var slots := table.entries[at].slots;
      if (events.read && slots.reader.Some?) || (events.write && slots.writer.Some?) {
        return false, at;
      }
      ok := PollerSet(fd, Events(slots), Union(Events(slots), events), refused);
      if !ok && Events(slots) == NONE {
        table.RemoveEntry(at);
      }
    }

    method Book(task: Task, fd: int, events: Interest, memory: bool, refused: bool) returns (ok: bool)
      requires table.Valid() && Watched(table.waits, poller) && events != NONE
      modifies this`poller, table, table.entries
      ensures table.Valid() && Watched(table.waits, poller)
      ensures (table.entries == old(table.entries) || fresh(table.entries))
      ensures ok <==>
        && !refused && Fits(SlotsAt(old(table.waits), fd), events)
        && (fd in old(table.waits) || memory || old(table.count < table.entries.Length))
      ensures table.waits == if ok then old(table.waits)[fd := Seat(SlotsAt(old(table.waits), fd), task, events)]
              else old(table.waits)
      ensures !ok ==> poller == old(poller)
    {
      var at;
      ok, at := Reserve(fd, events, memory, refused);
      if ok {
        table.Put(at, Entry(fd, Seat(table.entries[at].slots, task, events), true));
        assert table.waits == old(table.waits)[fd := Seat(SlotsAt(old(table.waits), fd), task, events)];
      }
    }

    method Sleep(task: Task, fd: int, events: Interest)
      requires task in tasks && wishes.Keys <= tasks && forall t :: t in tasks ==> Reflects(t)
      modifies this`wishes, task`state, task`fd, task`events, task`ioSuccess
      ensures wishes == old(wishes)[task := Wish(fd, events)] && forall t :: t in tasks ==> Reflects(t)
      ensures task.state == WaitingIo && task.fd == fd && task.events == events && !task.ioSuccess
    {
      task.state := WaitingIo;
      task.fd := fd;
      task.events := events;
      task.ioSuccess := false;
      wishes := wishes[task := Wish(fd, events)];
      assert forall t :: t in tasks && t != task ==> old(Reflects(t));
    }

    /** worker_park_current_on_io up to the switch: the task waits, or nothing at all has changed. */
    method ParkOnIo(task: Task?, fd: int, events: Interest, memory: bool, refused: bool) returns (parked: bool)
      requires Valid() && (task != null ==> task in tasks && task.state != WaitingIo)
      modifies this`poller, this`wishes, table, table.entries, task
      ensures Valid()
      ensures parked <==>
        && task != null && events != NONE && !shutdown && !refused && Fits(SlotsAt(old(table.waits), fd), events)
        && (fd in old(table.waits) || memory || old(table.count < table.entries.Length))
      ensures parked ==> task.state == WaitingIo && task.fd == fd && task.events == events && !task.ioSuccess
      ensures parked ==> table.waits == old(table.waits)[fd := Seat(SlotsAt(old(table.waits), fd), task, events)]
      ensures !parked ==> table.waits == old(table.waits) && poller == old(poller) && (task != null ==> unchanged(task))
    {
      if task == null || events == NONE || shutdown {
        return false;
      }
      assert Reflects(task);
      if Fits(SlotsAt(table.waits, fd), events) {
        ParkingKeepsSeats(table.waits, wishes, fd, task, events);
      }
      parked := Book(task, fd, events, memory, refused);
      if parked {
        Sleep(task, fd, events);
      }
    }

    /** worker_forget_fd: nobody waits for a forgotten descriptor, those who did are told it closed, and a
        worker asleep in the poller is woken when there is someone to run. */
    method ForgetFd(fd: int, refused: bool) returns (wakePoller: bool, aborted: bool)
      requires Valid()
      modifies this`poller, this`runnable, this`wishes, table`count, table`waits, table`place, table.entries
      modifies tasks`state, tasks`fd, tasks`events, tasks`ioSuccess
      ensures aborted <==> fd >= 0 && refused && fd in old(table.waits)
      ensures fd < 0 ==> !wakePoller && wishes == old(wishes) && runnable == old(runnable) && poller == old(poller)
      ensures !aborted ==> Valid() && (fd >= 0 ==> fd !in poller && table.waits == old(table.waits) - {fd})
      ensures !aborted && fd >= 0 ==>
        runnable == old(runnable) + Woken(SlotsAt(old(table.waits), fd), Interest(true, true))
      ensures !aborted && fd >= 0 ==> forall t :: t in tasks ==>
        if t in old(wishes) && old(wishes)[t].fd == fd then IsAwake(t, false) && t !in wishes else unchanged(t)
      ensures !aborted && fd >= 0 ==> (wakePoller <==> fd in old(table.waits) && pollerWaiterActive)
    {
      if fd < 0 {
        return false, false;
      }
      EveryoneWakes(SlotsAt(table.waits, fd));
      forall t | t in tasks
        ensures t in Woken(SlotsAt(table.waits, fd), Interest(true, true)) <==> t in wishes && wishes[t].fd == fd
      {
        WokenAreTheReady(table.waits, wishes, fd, Interest(true, true), t);
      }
      var count;
      count, aborted := WakeWaitingTasks(fd, Interest(true, true), false, refused);
      wakePoller := !aborted && count > 0 && pollerWaiterActive;
    }

    /** One event of the poller. */
    method HandleOne(e: PollEvent, refused: bool) returns (aborted: bool)
      requires Valid()
      modifies this`poller, this`runnable, this`wishes, table`count, table`waits, table`place, table.entries
      modifies tasks`state, tasks`fd, tasks`events, tasks`ioSuccess
      ensures aborted <==> refused && Woken(SlotsAt(old(table.waits), e.fd), e.events) != []
      ensures !aborted ==> Valid() && runnable == old(runnable) + Woken(SlotsAt(old(table.waits), e.fd), e.events)
      ensures !aborted ==> wishes == Without(old(wishes), Woken(SlotsAt(old(table.waits), e.fd), e.events))
      ensures !aborted ==>
        table.waits == Settle(old(table.waits), e.fd, Remaining(SlotsAt(old(table.waits), e.fd), e.events))
      ensures !aborted ==> Told() && wishes.Keys <= old(wishes).Keys
    {
      hide Woken, Remaining, Settle, SlotsAt, Watched, Seated, IsAwake;
      WakingKeepsSeats(table.waits, wishes, e.fd, e.events);
      var count;
      count, aborted := WakeWaitingTasks(e.fd, e.events, true, refused);
    }

    /** Whoever stopped waiting was told success; nobody else was touched. */
    twostate predicate Told()
      reads this, tasks
    {
      forall t :: t in old(tasks) && t in tasks ==>
        if t in old(wishes) && t !in wishes then IsAwake(t, true) else unchanged(t)
    }

    /** The loop of worker_loop_impl over what the poller reported: exactly those whose wish some event meets become
        runnable and are told success.  The process aborts if and only if the poller refuses to follow an event that
        wakes somebody. */
    method HandleEvents(events: seq<PollEvent>, refusals: seq<bool>) returns (aborted: bool)
      requires Valid() && |refusals| == |events|
      modifies this`poller, this`runnable, this`wishes, table`count, table`waits, table`place, table.entries
      modifies tasks`state, tasks`fd, tasks`events, tasks`ioSuccess
      ensures aborted <==> exists i :: 0 <= i < |events| && refusals[i] && FindsWaiter(old(table.waits), events, i)
      ensures !aborted ==> Valid() && runnable == old(runnable) + WokenBy(old(table.waits), events)
      ensures !aborted ==> table.waits == WaitsAfter(old(table.waits), events)
      ensures !aborted ==> wishes == WishesAfter(old(wishes), old(table.waits), events) && Told()
    {
      hide Woken, Remaining, Settle, SlotsAt, Without, Watched, Seated, IsAwake;
      var i := 0;
      while i < |events|
        invariant 0 <= i <= |events| && Valid() && wishes.Keys <= old(wishes).Keys && Told()
        invariant forall j :: 0 <= j < i ==> !(refusals[j] && FindsWaiter(old(table.waits), events, j))
        invariant table.waits == WaitsAfter(old(table.waits), events[..i])
        invariant runnable + WokenBy(table.waits, events[i..]) == old(runnable) + WokenBy(old(table.waits), events)
        invariant WishesAfter(wishes, table.waits, events[i..]) == WishesAfter(old(wishes), old(table.waits), events)
      {
        assert events[i..][0] == events[i] && events[i..][1..] == events[i + 1..];
        assert events[..i + 1] == events[..i] + [events[i]];
        AfterMore(old(table.waits), events[..i], events[i]);
        aborted := HandleOne(events[i], refusals[i]);
        if aborted {
          return;
        }
        i := i + 1;
      }
      assert events[..i] == events;
      return false;
    }
  }

  predicate IsAwake(t: Task, success: bool)
    reads t
  {
    t.state == Runnable && t.fd == -1 && t.events == NONE && t.ioSuccess == success
  }
}
