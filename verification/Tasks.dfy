/** struct Task of src/internal/task.h, as far as the scheduler, the wait table and the channels touch it. */
module Tasks {
  import opened Basics
  import opened PollerTypes

  class Task {
    /** scheduler */
    var state: TaskState
    var queued: bool
    /** io_wait */
    var fd: int
    var events: Interest
    var ioSuccess: bool
    /** channel_wait */
    var channelSuccess: bool
    /** A number of its own, and the channel call it last went to sleep in. */
    ghost const id: nat
    ghost var call: nat

    constructor (ghost id: nat)
      ensures this.id == id && state == Runnable && !queued
    {
      this.id := id;
      state, queued := Runnable, false;
      fd, events, ioSuccess, channelSuccess := -1, NONE, false, false;
      call := 0;
    }
  }
}
