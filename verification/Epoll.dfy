/** The bookkeeping of src/poller_epoll.c: generation-stamped tokens keep an event that was collected
    before a descriptor was forgotten from being taken for news of whatever has its number now. */
module Epoll {
  import opened Basics
  import opened Arithmetic
  import opened PollerTypes

  const TWO32: nat := 0x1_0000_0000
  const INT_MAX: nat := 0x7fff_ffff
  const WAKE_TOKEN: nat := 0xffff_ffff_ffff_ffff

  // ---------------------------------------------------------------------------------------------
  // Tokens
  // ---------------------------------------------------------------------------------------------

  /** fd_token: generation in the high half, descriptor in the low half. */
  function Token(generation: nat, fd: nat): nat {
    generation * TWO32 + fd
  }

  function TokenFd(token: nat): nat { token % TWO32 }

  function TokenGeneration(token: nat): nat { (token / TWO32) % TWO32 }

  /** Packing loses nothing, fits 64 bits, and never makes the wake token. */
  lemma {:induction false} TokenRoundTrip(generation: nat, fd: nat)
    requires generation < TWO32 && fd <= INT_MAX
    ensures TokenFd(Token(generation, fd)) == fd && TokenGeneration(Token(generation, fd)) == generation
    ensures Token(generation, fd) < WAKE_TOKEN
  {
    Divides(TWO32, generation, fd);
    Divides(TWO32, 0, generation);
  }

  // ---------------------------------------------------------------------------------------------
  // Event masks
  // ---------------------------------------------------------------------------------------------

  datatype Mask = Mask(input: bool, pri: bool, rdhup: bool, output: bool, err: bool, hup: bool)

  const NO_BITS := Mask(false, false, false, false, false, false)

  /** to_epoll_events. */
  function ToEpoll(e: Interest): Mask {
    Mask(e.read, e.read, e.read, e.write, false, false)
  }

  /** from_epoll_events. */
  function FromEpoll(m: Mask): Interest {
    Interest(m.input || m.pri || m.rdhup || m.err || m.hup, m.output || m.err || m.hup)
  }

  function Or(a: Mask, b: Mask): Mask {
    Mask(a.input || b.input, a.pri || b.pri, a.rdhup || b.rdhup, a.output || b.output, a.err || b.err, a.hup || b.hup)
  }

  function And(a: Mask, b: Mask): Mask {
    Mask(a.input && b.input, a.pri && b.pri, a.rdhup && b.rdhup, a.output && b.output, a.err && b.err, a.hup && b.hup)
  }

  /** The bits, and the mask with one of them. */
  datatype Bit = Input | Pri | Rdhup | Output | Err | Hup

  function Only(b: Bit): Mask {
    Mask(b.Input?, b.Pri?, b.Rdhup?, b.Output?, b.Err?, b.Hup?)
  }

  /** A mask says what its bits say. */
  lemma {:induction false} MaskUnion(a: Mask, b: Mask)
    ensures FromEpoll(Or(a, b)) == Union(FromEpoll(a), FromEpoll(b)) && FromEpoll(NO_BITS) == NONE
    ensures And(Or(a, b), a) == a && And(a, NO_BITS) == NO_BITS
  {
  }

  /** A bit is asked for an interest exactly when it says something of that interest, and then it says nothing else;
      errors and hang-ups, which are never asked for, speak to every interest. */
  lemma {:induction false} BitSpeaks(b: Bit, e: Interest)
    ensures FromEpoll(Only(b)) != NONE
    ensures !b.Err? && !b.Hup? ==>
      && (And(Only(b), ToEpoll(e)) != NO_BITS <==> Overlap(FromEpoll(Only(b)), e))
      && (And(Only(b), ToEpoll(e)) != NO_BITS ==> Covers(e, FromEpoll(Only(b))))
    ensures b.Err? || b.Hup? ==> And(Only(b), ToEpoll(e)) == NO_BITS && FromEpoll(Only(b)) == Interest(true, true)
    ensures (b.Input? || b.Pri? || b.Rdhup?) && e.read ==> And(Only(b), ToEpoll(e)) == Only(b)
    ensures b.Output? && e.write ==> And(Only(b), ToEpoll(e)) == Only(b)
  {
  }

  /** What the kernel says in bits that were asked for, or of an error, is something of what was asked; and without
      an error it is nothing else. */
  lemma {:induction false} AskedSpeaks(m: Mask, e: Interest)
    requires e != NONE
    ensures And(m, ToEpoll(e)) != NO_BITS || m.err || m.hup ==> Overlap(FromEpoll(m), e)
    ensures And(m, ToEpoll(e)) == m ==> Covers(e, FromEpoll(m))
  {
  }

  // ---------------------------------------------------------------------------------------------
  // Registrations over time
  // ---------------------------------------------------------------------------------------------

  /** How often each descriptor's generation was bumped, without wrap-around, and which descriptors are
      registered. */
  datatype Regs = Regs(bumps: map<int, nat>, live: set<int>)

  function Bumps(r: Regs, fd: int): nat {
    if fd in r.bumps then r.bumps[fd] else 0
  }

  function Bump(r: Regs, fd: int): Regs {
    r.(bumps := r.bumps[fd := Bumps(r, fd) + 1])
  }

  datatype Change = Added(fd: int) | AddRefused(fd: int) | Deleted(fd: int)

  function Apply(r: Regs, c: Change): Regs {
    match c
    case Added(fd) => Bump(r, fd).(live := r.live + {fd})
    case AddRefused(fd) => Bump(r, fd)
    case Deleted(fd) => Bump(r, fd).(live := r.live - {fd})
  }

  function ApplyAll(r: Regs, cs: seq<Change>): Regs
    decreases |cs|
  {
    if cs == [] then r else ApplyAll(Apply(r, cs[0]), cs[1..])
  }

  function Touches(cs: seq<Change>, fd: int): nat {
    if cs == [] then 0 else (if cs[0].fd == fd then 1 else 0) + Touches(cs[1..], fd)
  }

  lemma {:induction false} BumpsCount(r: Regs, cs: seq<Change>, fd: int)
    ensures Bumps(ApplyAll(r, cs), fd) == Bumps(r, fd) + Touches(cs, fd)
    ensures Touches(cs, fd) == 0 ==> (fd in ApplyAll(r, cs).live <==> fd in r.live)
    decreases |cs|
  {
    if cs == [] {
    } else {
      BumpsCount(Apply(r, cs[0]), cs[1..], fd);
    }
  }

  /** The test croutine_poller_wait makes on a token. */
  predicate Passes(r: Regs, token: nat) {
    var fd := TokenFd(token);
    fd in r.live && Bumps(r, fd) % TWO32 == TokenGeneration(token)
  }

  lemma {:induction false} SameRemainder(a: nat, b: nat)
    requires a <= b < a + TWO32 && a % TWO32 == b % TWO32
    ensures a == b
  {
  }

  /** An event collected for a registration is reported, after any changes to the table, if and only if
      that registration still stands, as long as fewer than 2^32 bumps of its descriptor lie between. */
  lemma {:induction false} OnlyCurrentEventsPass(r: Regs, cs: seq<Change>, fd: nat)
    requires fd <= INT_MAX && fd in r.live && Touches(cs, fd) < TWO32
    ensures Passes(ApplyAll(r, cs), Token(Bumps(r, fd) % TWO32, fd)) <==> Touches(cs, fd) == 0
  {
    TokenRoundTrip(Bumps(r, fd) % TWO32, fd);
    BumpsCount(r, cs, fd);
    if Touches(cs, fd) > 0 && Bumps(r, fd) % TWO32 == Bumps(ApplyAll(r, cs), fd) % TWO32 {
      SameRemainder(Bumps(r, fd), Bumps(ApplyAll(r, cs), fd));
    }
  }

  /** The bound is exact: 2^32 bumps later the number comes round again. */
  lemma {:induction false} GenerationWraps(r: Regs, cs: seq<Change>, fd: nat)
    requires fd <= INT_MAX && Touches(cs, fd) == TWO32 && fd in ApplyAll(r, cs).live
    ensures Passes(ApplyAll(r, cs), Token(Bumps(r, fd) % TWO32, fd))
  {
    TokenRoundTrip(Bumps(r, fd) % TWO32, fd);
    BumpsCount(r, cs, fd);
    var b := Bumps(r, fd);
    QuotientRemainder(b, TWO32);
    Divides(TWO32, b / TWO32 + 1, b % TWO32);
  }

  // ---------------------------------------------------------------------------------------------
  // The table
  // ---------------------------------------------------------------------------------------------

  /** One event as epoll_wait returned it. */
  datatype Ready = Ready(token: nat, mask: Mask)

  /** What the kernel keeps for a descriptor. */
  datatype Watch = Watch(mask: Mask, token: nat)

  class EpollTable {
    var generations: array<nat>
    var registered: array<bool>
    /** The kernel's interest list: any call to change it may be refused, and a descriptor the program
        closes leaves it by itself. */
    var kernel: map<int, Watch>
    ghost var regs: Regs

    ghost predicate Valid()
      reads this, generations, registered
    {
      && generations.Length == registered.Length <= SIZE_MAX
      && (forall fd :: 0 <= fd < generations.Length ==>
            generations[fd] == Bumps(regs, fd) % TWO32 && (registered[fd] <==> fd in regs.live))
      && (forall fd :: fd in regs.bumps ==> 0 <= fd < generations.Length)
      && kernel.Keys <= regs.live <= regs.bumps.Keys
      && (forall fd :: fd in kernel ==>
            0 <= fd < generations.Length && kernel[fd].token == Token(generations[fd], fd) &&
            At(fd) != NONE && kernel[fd].mask == ToEpoll(At(fd)))
    }

    /** What the kernel was asked to watch a descriptor for. */
    function At(fd: int): Interest
      reads this
    {
      if fd in kernel then Interest(kernel[fd].mask.input, kernel[fd].mask.output) else NONE
    }

    constructor ()
      ensures Valid() && fresh(generations) && fresh(registered) && regs == Regs(map[], {}) && kernel == map[]
    {
      generations := new nat[0];
      registered := new bool[0];
      kernel := map[];
      regs := Regs(map[], {});
    }

    /** ensure_fd_capacity: doubling never overflows for a descriptor, and loses nothing. */
    method EnsureFdCapacity(fd: int, memory: bool) returns (ok: bool)
      requires Valid() && fd <= INT_MAX
      modifies this`generations, this`registered
      ensures Valid() && (generations == old(generations) || fresh(generations))
      ensures (registered == old(registered) || fresh(registered))
      ensures ok <==> fd >= 0 && (fd < old(generations.Length) || memory)
      ensures if ok then fd < generations.Length && old(generations.Length) <= generations.Length
              else generations == old(generations)
    {
      if fd < 0 {
        return false;
      }
      var needed := fd + 1;
      if needed <= generations.Length {
        return true;
      }
      var capacity := if generations.Length != 0 then generations.Length else 64;
      while capacity < needed
        invariant generations.Length <= capacity && 0 < capacity <= SIZE_MAX
        decreases needed - capacity
      {
        assert capacity <= SIZE_MAX / 2;
        capacity := capacity * 2;
      }
      if !memory {
        return false;
      }
      var newGenerations := new nat[capacity](_ => 0);
      var newRegistered := new bool[capacity](_ => false);
      forall k | 0 <= k < generations.Length {
        newGenerations[k] := generations[k];
      }
      forall k | 0 <= k < registered.Length {
        newRegistered[k] := registered[k];
      }
      generations := newGenerations;
      registered := newRegistered;
      return true;
    }

    /** The generation of `fd` moves on. */
    method BumpGeneration(fd: nat)
      requires fd < generations.Length == registered.Length <= SIZE_MAX && generations[fd] == Bumps(regs, fd) % TWO32
      modifies this`regs, generations
      ensures regs == Bump(old(regs), fd) && generations[fd] == Bumps(regs, fd) % TWO32
      ensures forall d :: 0 <= d < generations.Length && d != fd ==> generations[d] == old(generations[d])
      ensures forall d :: d != fd ==> Bumps(regs, d) == Bumps(old(regs), d)
    {
      generations[fd] := (generations[fd] + 1) % TWO32;
      regs := Bump(regs, fd);
    }

    ghost predicate OnlyChanges(before: map<int, Watch>, fd: int)
      reads this
    {
      forall d :: d != fd ==> (d in kernel <==> d in before) && (d in kernel ==> kernel[d] == before[d])
    }

    /** The program closes a watched descriptor: only the kernel knows. */
    method DescriptorClosed(fd: int)
      requires Valid()
      modifies this`kernel
      ensures Valid() && OnlyChanges(old(kernel), fd) && At(fd) == NONE
    {
      kernel := kernel - {fd};
    }

    /** The branch of poller_set_locked that ends a registration.  The kernel deletes the entry, or answers
        that there is none (ENOENT), which is as good; any other error is `refused`. */
    method Remove(fd: int, refused: bool) returns (ok: bool)
      requires Valid() && fd in regs.live
      modifies this`kernel, this`regs, generations, registered
      ensures Valid() && OnlyChanges(old(kernel), fd) && ok == !refused
      ensures if ok then At(fd) == NONE && regs == Apply(old(regs), Deleted(fd))
              else kernel == old(kernel) && regs == old(regs)
    {
      if refused {
        return false;
      }
      kernel := kernel - {fd};
      registered[fd] := false;
      BumpGeneration(fd);
      regs := regs.(live := regs.live - {fd});
      return true;
    }

    method AddWithRoom(fd: nat, after: Interest, refused: bool) returns (ok: bool)
      requires Valid() && fd < generations.Length && fd !in regs.live && after != NONE
      modifies this`kernel, this`regs, generations, registered
      ensures Valid() && OnlyChanges(old(kernel), fd) && ok == !refused
      ensures if ok then At(fd) == after && regs == Apply(old(regs), Added(fd))
              else kernel == old(kernel) && regs == Apply(old(regs), AddRefused(fd))
    {
      BumpGeneration(fd);
      if refused {
        return false;
      }
      kernel := kernel[fd := Watch(ToEpoll(after), Token(generations[fd], fd))];
      registered[fd] := true;
      regs := regs.(live := regs.live + {fd});
      return true;
    }

    /** The branch that begins one. */
    method Add(fd: int, after: Interest, memory: bool, refused: bool) returns (ok: bool)
      requires Valid() && fd <= INT_MAX && fd !in regs.live && after != NONE
      modifies this, generations, registered
      ensures Valid() && OnlyChanges(old(kernel), fd) && (generations == old(generations) || fresh(generations))
      ensures (registered == old(registered) || fresh(registered))
      ensures ok <==> !refused && fd >= 0 && (memory || fd < old(generations.Length))
      ensures if ok then At(fd) == after && regs == Apply(old(regs), Added(fd))
              else kernel == old(kernel) && (regs == old(regs) || regs == Apply(old(regs), AddRefused(fd)))
    {
      ok := EnsureFdCapacity(fd, memory);
      if ok {
        ok := AddWithRoom(fd, after, refused);
      }
    }

    /** poller_set_locked.  `refused` is any error of epoll_ctl but ENOENT, which the kernel gives of itself for a
        descriptor it does not watch.  What the kernel watches for `fd` becomes `after`, or it stays as it was; every
        registration and every removal gets a generation of its own, a change of interest does not. */
    method PollerSetLocked(fd: int, before: Interest, after: Interest, memory: bool, refused: bool) returns (ok: bool)
      requires Valid() && fd <= INT_MAX && (before == NONE <==> fd !in regs.live) && (fd in kernel ==> At(fd) == before)
      modifies this, generations, registered
      ensures Valid() && OnlyChanges(old(kernel), fd)
      ensures generations == old(generations) || fresh(generations)
      ensures registered == old(registered) || fresh(registered)
      ensures if ok && before != after then At(fd) == after else kernel == old(kernel)
      ensures ok <==>
        || before == after
        || (after == NONE && !refused)
        || (before == NONE && !refused && fd >= 0 && (memory || fd < old(generations.Length)))
        || (before != NONE && after != NONE && !refused && fd in old(kernel))
      ensures ok ==>
        regs ==
        if before == after then old(regs)
        else if after == NONE then Apply(old(regs), Deleted(fd))
        else if before == NONE then Apply(old(regs), Added(fd))
        else old(regs)
      ensures !ok ==> regs == old(regs) || (before == NONE && regs == Apply(old(regs), AddRefused(fd)))
    {
      if before == after {
        return true;
      }
      if after == NONE {
        ok := Remove(fd, refused);
        return;
      }
      if before == NONE {
        ok := Add(fd, after, memory, refused);
        return;
      }
      if !(0 <= fd < generations.Length) || !registered[fd] {
        return false;
      }
      if refused || fd !in kernel {
        return false;
      }
      kernel := kernel[fd := Watch(ToEpoll(after), Token(generations[fd], fd))];
      return true;
    }

    /** The filtering loop of croutine_poller_wait: drop what is stale or says nothing, report the rest in
        order. */
    method PollerWait(ready: seq<Ready>, events: array<PollEvent>) returns (count: nat, drained: bool)
      requires Valid() && |ready| <= events.Length
      requires forall e :: e in ready && e.token != WAKE_TOKEN ==> TokenFd(e.token) <= INT_MAX && e.token < WAKE_TOKEN
      modifies events
      ensures count <= |ready| && events[..count] == Reported(regs, ready)
      ensures drained <==> exists e :: e in ready && e.token == WAKE_TOKEN
    {
      count, drained := 0, false;
      var i := 0;
      while i < |ready|
        invariant 0 <= i <= |ready| && count <= i
        invariant events[..count] == Reported(regs, ready[..i])
        invariant drained <==> exists e :: e in ready[..i] && e.token == WAKE_TOKEN
        modifies events
      {
        var e := ready[i];
        assert ready[..i + 1] == ready[..i] + [e];
        ReportedMore(regs, ready[..i], e);
        if e.token == WAKE_TOKEN {
          drained := true;
          assert e in ready[..i + 1];
        } else {
          var fd := TokenFd(e.token);
          var current := fd < generations.Length && registered[fd] && generations[fd] == TokenGeneration(e.token);
          if current && FromEpoll(e.mask) != NONE {
            ghost var before := events[..count];
            events[count] := PollEvent(fd, FromEpoll(e.mask));
            assert events[..count + 1] == before + [PollEvent(fd, FromEpoll(e.mask))];
            count := count + 1;
          }
        }
        i := i + 1;
      }
      assert ready[..|ready|] == ready;
    }
  }

  /** What croutine_poller_wait reports for one kernel event, and for a list of them. */
  function ReportOf(r: Regs, e: Ready): seq<PollEvent> {
    if e.token != WAKE_TOKEN && Passes(r, e.token) && FromEpoll(e.mask) != NONE then
      [PollEvent(TokenFd(e.token), FromEpoll(e.mask))]
    else []
  }

  function Reported(r: Regs, ready: seq<Ready>): seq<PollEvent> {
    if ready == [] then [] else ReportOf(r, ready[0]) + Reported(r, ready[1..])
  }

  lemma {:induction false} ReportedMore(r: Regs, ready: seq<Ready>, e: Ready)
    ensures Reported(r, ready + [e]) == Reported(r, ready) + ReportOf(r, e)
  {
    if ready == [] {
      assert ready + [e] == [e];
    } else {
      assert (ready + [e])[1..] == ready[1..] + [e];
      ReportedMore(r, ready[1..], e);
    }
  }

  /** The token the kernel holds for a registration of table `r`. */
  predicate CollectedFor(r: Regs, token: nat) {
    var fd := TokenFd(token);
    fd <= INT_MAX && fd in r.live && token == Token(Bumps(r, fd) % TWO32, fd)
  }

  /** Exactly the events of standing registrations are reported: for events that were each collected for
      a registration of table `r`, after any changes `cs` to the table. */
  lemma {:induction false} ReportedAreCurrent(r: Regs, cs: seq<Change>, ready: seq<Ready>, p: PollEvent)
    requires forall e :: e in ready ==> CollectedFor(r, e.token) && Touches(cs, TokenFd(e.token)) < TWO32
    ensures p in Reported(ApplyAll(r, cs), ready) <==>
      && Touches(cs, p.fd) == 0 && p.events != NONE
      && exists e :: e in ready && TokenFd(e.token) == p.fd && FromEpoll(e.mask) == p.events
  {
    if ready == [] {
    } else {
      var e := ready[0];
      assert e in ready && forall x :: x in ready <==> x == e || x in ready[1..];
      TokenRoundTrip(Bumps(r, TokenFd(e.token)) % TWO32, TokenFd(e.token));
      OnlyCurrentEventsPass(r, cs, TokenFd(e.token));
      ReportedAreCurrent(r, cs, ready[1..], p);
    }
  }

  lemma {:induction false} ReportedHas(r: Regs, ready: seq<Ready>, e: Ready)
    requires e in ready
    ensures forall p :: p in ReportOf(r, e) ==> p in Reported(r, ready)
  {
    if e == ready[0] {
    } else {
      assert e in ready[1..];
      ReportedHas(r, ready[1..], e);
    }
  }

  /** What the kernel was asked to watch for is heard: an event on a standing registration with a bit that was asked
      for, or with an error, is reported with something the waiters want. */
  lemma {:induction false} AskedIsHeard(table: EpollTable, fd: int, ready: seq<Ready>, e: Ready)
    requires table.Valid() && fd in table.kernel && fd <= INT_MAX && e in ready && e.token == table.kernel[fd].token
    requires And(e.mask, table.kernel[fd].mask) != NO_BITS || e.mask.err || e.mask.hup
    ensures Overlap(FromEpoll(e.mask), table.At(fd))
    ensures PollEvent(fd, FromEpoll(e.mask)) in Reported(table.regs, ready)
  {
    TokenRoundTrip(table.generations[fd], fd);
    AskedSpeaks(e.mask, table.At(fd));
    assert Passes(table.regs, e.token);
    assert ReportOf(table.regs, e) == [PollEvent(fd, FromEpoll(e.mask))];
    ReportedHas(table.regs, ready, e);
  }

  /** Asking for an interest and hearing of exactly it says that interest. */
  lemma {:induction false} MaskRoundTrip(e: Interest, err: bool, hup: bool)
    ensures FromEpoll(ToEpoll(e)) == e
    ensures FromEpoll(ToEpoll(e).(err := err, hup := hup)) == if err || hup then Interest(true, true) else e
  {
  }
}
