/** The structures of src/channel.c as they lie in memory: waiters linked through their own fields, the
    two wait queues of a channel, and its ring of values. */
module ChannelHeap {
  import opened Basics
  import opened Arithmetic
  import opened Tasks
  import opened ChannelTypes

  /** struct CroutineSelectState: shared by the waiters of one select. */
  class SelectState {
    var done: bool
    var chosenIndex: int
    var chosenStatus: Option<Status>
    ghost const call: nat

    constructor (ghost call: nat)
      ensures !done && chosenIndex == -1 && this.call == call
    {
      done, chosenIndex, chosenStatus := false, -1, None;
      this.call := call;
    }
  }

  /** struct ChannelWaiter.  A regular waiter has no `state`.  `slot` is the caller's memory that value_slot
      points at. */
  class Waiter<T> {
    const op: Op
    const task: Task
    const state: SelectState?
    const caseIndex: nat
    ghost const call: nat
    var slot: T
    var prev: Waiter?<T>
    var next: Waiter?<T>
    var channel: Channel?<T>

    constructor (op: Op, task: Task, state: SelectState?, caseIndex: nat, slot: T, ghost call: nat)
      ensures this.op == op && this.task == task && this.state == state && this.caseIndex == caseIndex
      ensures this.call == call
      ensures this.slot == slot && prev == null && next == null && channel == null
    {
      this.op, this.task, this.state, this.caseIndex, this.call := op, task, state, caseIndex, call;
      this.slot, prev, next, channel := slot, null, null, null;
    }

    ghost function Name(): Ref {
      Ref(call, caseIndex)
    }
  }

  /** struct ChannelWaitQueue. */
  class WaitQueue<T> {
    var head: Waiter?<T>
    var tail: Waiter?<T>
    /** The waiters in the queue, first to leave first. */
    ghost var nodes: seq<Waiter<T>>
    ghost const chan: nat
    ghost const op: Op

    /** `head`, `tail`, `prev` and `next` spell out `nodes`. */
    ghost predicate Valid()
      reads this, nodes`prev, nodes`next
    {
      && head == (if nodes == [] then null else nodes[0])
      && tail == (if nodes == [] then null else nodes[|nodes| - 1])
      && (forall i {:trigger nodes[i].prev} :: 0 <= i < |nodes| ==>
            nodes[i].prev == if i == 0 then null else nodes[i - 1])
      && (forall i {:trigger nodes[i].next} :: 0 <= i < |nodes| ==>
            nodes[i].next == if i + 1 == |nodes| then null else nodes[i + 1])
      && (forall i, j :: 0 <= i < j < |nodes| ==> nodes[i] != nodes[j])
    }

    constructor (ghost chan: nat, ghost op: Op)
      ensures Valid() && nodes == [] && this.chan == chan && this.op == op
    {
      head, tail, nodes := null, null, [];
      this.chan, this.op := chan, op;
    }

    /** wait_queue_push_tail. */
    method PushTail(w: Waiter<T>, channel: Channel<T>)
      requires Valid() && w !in nodes
      modifies this, nodes`next, w`prev, w`next, w`channel
      ensures Valid() && nodes == old(nodes) + [w] && w.channel == channel
    {
      assert forall i :: 0 <= i < |nodes| ==> nodes[i] != w;
      w.prev := tail;
      w.next := null;
      w.channel := channel;
      if tail != null {
        assert tail == nodes[|nodes| - 1];
        tail.next := w;
      } else {
        head := w;
      }
      tail := w;
      nodes := nodes + [w];
    }

    /** wait_queue_pop_head. */
    method PopHead() returns (w: Waiter?<T>)
      requires Valid()
      modifies this, nodes`prev, nodes`next, nodes`channel
      ensures Valid()
      ensures if old(nodes) == [] then w == null && nodes == []
              else w == old(nodes)[0] && nodes == old(nodes)[1..] && w.channel == null
      ensures forall x :: x in nodes ==> x.channel == old(x.channel)
    {
      w := head;
      if w == null {
        return;
      }
      assert w == nodes[0] && w.next == if |nodes| == 1 then null else nodes[1];
      head := w.next;
      if head != null {
        head.prev := null;
      } else {
        tail := null;
      }
      w.prev, w.next, w.channel := null, null, null;
      nodes := nodes[1..];
    }

    /** wait_queue_unlink, of a waiter anywhere in the queue. */
    method Unlink(w: Waiter<T>, ghost at: nat)
      requires Valid() && at < |nodes| && nodes[at] == w
      modifies this, nodes`prev, nodes`next, w`channel
      ensures Valid() && nodes == old(nodes)[..at] + old(nodes)[at + 1..] && w.channel == null
    {
      assert w.prev == if at == 0 then null else nodes[at - 1];
      assert w.next == if at + 1 == |nodes| then null else nodes[at + 1];
      if w.prev != null {
        w.prev.next := w.next;
      } else if head == w {
        head := w.next;
      }
      if w.next != null {
        w.next.prev := w.prev;
      } else if tail == w {
        tail := w.prev;
      }
      w.prev, w.next, w.channel := null, null, null;
      nodes := nodes[..at] + nodes[at + 1..];
    }
  }

  /** struct croutine_channel. */
  class Channel<T> {
    const capacity: nat
    var closed: bool
    const buffer: array<Option<T>>
    var len: nat
    var head: nat
    var tail: nat
    const sendWaiters: WaitQueue<T>
    const recvWaiters: WaitQueue<T>
    ghost const id: nat
    /** The values in the ring, oldest first. */
    ghost var contents: seq<T>
    ghost var destroyed: bool

    ghost predicate Ring()
      reads this`len, this`head, this`tail, this`contents, buffer
    {
      && buffer.Length == capacity && |contents| == len <= capacity
      && (if capacity == 0 then head == tail == 0 else head < capacity && tail == Wrap(head + len, capacity))
      && forall i :: 0 <= i < len ==> buffer[Wrap(head + i, capacity)] == Some(contents[i])
    }

    constructor (capacity: nat, ghost id: nat)
      ensures Ring() && this.capacity == capacity && this.id == id && !closed && !destroyed && contents == []
      ensures fresh(buffer) && fresh(sendWaiters) && fresh(recvWaiters) && sendWaiters != recvWaiters
      ensures sendWaiters.Valid() && sendWaiters.nodes == [] && sendWaiters.chan == id && sendWaiters.op == Send
      ensures recvWaiters.Valid() && recvWaiters.nodes == [] && recvWaiters.chan == id && recvWaiters.op == Recv
    {
      this.capacity, this.id := capacity, id;
      closed, len, head, tail, contents, destroyed := false, 0, 0, 0, [], false;
      buffer := new Option<T>[capacity](_ => None);
      sendWaiters := new WaitQueue(id, Send);
      recvWaiters := new WaitQueue(id, Recv);
    }

    /** buffer_push. */
    method BufferPush(value: T)
      requires Ring() && len < capacity
      modifies this`tail, this`len, this`contents, buffer
      ensures Ring() && contents == old(contents) + [value]
    {
      WrapIsMod(tail + 1, capacity);
      buffer[tail] := Some(value);
      tail := (tail + 1) % capacity;
      len := len + 1;
      contents := contents + [value];
    }

    /** buffer_pop. */
    method BufferPop() returns (value: T)
      requires Ring() && len > 0
      modifies this`head, this`len, this`contents
      ensures Ring() && [value] + contents == old(contents)
    {
      WrapIsMod(head + 1, capacity);
      assert buffer[head] == Some(contents[0]);
      value := buffer[head].value;
      head := (head + 1) % capacity;
      len := len - 1;
      contents := contents[1..];
    }
  }
}
