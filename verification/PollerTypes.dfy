/** What both pollers speak: CROUTINE_IO_EVENT_READ and CROUTINE_IO_EVENT_WRITE as two flags. */
module PollerTypes {

  datatype Interest = Interest(read: bool, write: bool)

  const NONE := Interest(false, false)

  function Union(a: Interest, b: Interest): Interest {
    Interest(a.read || b.read, a.write || b.write)
  }

  predicate Overlap(a: Interest, b: Interest) {
    (a.read && b.read) || (a.write && b.write)
  }

  predicate Covers(a: Interest, b: Interest) {
    (b.read ==> a.read) && (b.write ==> a.write)
  }

  /** struct CroutinePollEvent. */
  datatype PollEvent = PollEvent(fd: int, events: Interest)
}
