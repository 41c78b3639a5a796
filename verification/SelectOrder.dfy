/** The order in which select tries its cases: a per-thread xorshift generator and a Fisher-Yates shuffle. */
module SelectOrder {

  const GOLDEN: bv64 := 0x9E3779B97F4A7C15

  /** One step of the generator. */
  function Step(x: bv64): bv64 {
    var a := x ^ (x << 13);
    var b := a ^ (a >> 7);
    b ^ (b << 17)
  }

  /** And back: mixing in a shift is undone by mixing in that shift, twice it, four times it, until nothing is left. */
  function Undo(x: bv64): bv64 {
    var a := x ^ (x << 17);
    var b := a ^ (a << 34);
    var c := b ^ (b >> 7);
    var d := c ^ (c >> 14);
    var e := d ^ (d >> 28);
    var f := e ^ (e >> 56);
    var g := f ^ (f << 13);
    var h := g ^ (g << 26);
    h ^ (h << 52)
  }

  lemma {:induction false} StepInFull(x: bv64)
    ensures var a := x ^ (x << 13); var b := a ^ (a >> 7); Step(x) == b ^ (b << 17)
  {
  }

  lemma {:induction false} UndoneInFull(x: bv64)
    ensures var a := x ^ (x << 13); var b := a ^ (a >> 7); Undo(b ^ (b << 17)) == x
  {
  }

  /** A step can be undone: no two states lead to the same one, so the generator never falls into a shorter cycle. */
  lemma {:induction false} StepUndone(x: bv64)
    ensures Undo(Step(x)) == x
  {
    hide Undo, Step;
    StepInFull(x);
    UndoneInFull(x);
  }

  lemma {:induction false} ZeroUndone()
    ensures Undo(0) == 0
  {
  }

  /** A state that is not zero never becomes zero, so a thread is seeded once. */
  lemma {:induction false} NeverZeroAgain(x: bv64)
    requires x != 0
    ensures Step(x) != 0
  {
    hide Undo, Step;
    StepUndone(x);
    ZeroUndone();
  }

  /** The state a thread draws its next number from. */
  function Seed(state: bv64, entropy: bv64): bv64 {
    if state != 0 then state else if entropy != 0 then entropy else GOLDEN
  }

  function AsNat(x: bv64): nat {
    x as nat
  }

  /** select_rng_state of one thread. */
  class Generator {
    var state: bv64

    constructor ()
      ensures state == 0
    {
      state := 0;
    }

    /** select_rng_next; `entropy` is the task pointer mixed with the clock. */
    method Next(entropy: bv64) returns (x: bv64)
      modifies this
      ensures x == state == Step(Seed(old(state), entropy)) && state != 0
    {
      hide Step;
      if state == 0 {
        state := entropy;
        if state == 0 {
          state := GOLDEN;
        }
      }
      NeverZeroAgain(state);
      x := Step(state);
      state := x;
    }

    method Below(i: nat, entropy: bv64) returns (j: nat)
      requires i > 0
      modifies this
      ensures state == Step(Seed(old(state), entropy)) && state != 0 && j == AsNat(state) % i
    {
      hide Step, Seed, AsNat;
      var x := Next(entropy);
      j := AsNat(x) % i;
    }
  }

  // ---------------------------------------------------------------------------------------------
  // Shuffling
  // ---------------------------------------------------------------------------------------------

  function Swap(s: seq<nat>, a: nat, b: nat): seq<nat>
    requires a < |s| && b < |s|
  {
    s[a := s[b]][b := s[a]]
  }

  /** The numbers drawn for the places `i - 1` down to 1, each below the number of places left. */
  ghost predicate MayDraw(ds: seq<nat>, i: nat)
    decreases i
  {
    if i <= 1 then ds == [] else ds != [] && ds[0] < i && MayDraw(ds[1..], i - 1)
  }

  /** The first `i` places of `s` shuffled with them. */
  ghost function Shuffled(s: seq<nat>, i: nat, ds: seq<nat>): seq<nat>
    requires i <= |s| && MayDraw(ds, i)
    decreases i
  {
    if i <= 1 then s else Shuffled(Swap(s, i - 1, ds[0]), i - 1, ds[1..])
  }

  /** What the generator draws from state `x`. */
  ghost function Draws(x: bv64, i: nat): (ds: seq<nat>)
    ensures MayDraw(ds, i)
    decreases i
  {
    if i <= 1 then [] else [AsNat(Step(x)) % i] + Draws(Step(x), i - 1)
  }

  lemma {:induction false} SwapPermutes(s: seq<nat>, a: nat, b: nat)
    requires a < |s| && b < |s|
    ensures multiset(Swap(s, a, b)) == multiset(s)
  {
  }

  lemma {:induction false} ShuffledPermutes(s: seq<nat>, i: nat, ds: seq<nat>)
    requires i <= |s| && MayDraw(ds, i)
    ensures multiset(Shuffled(s, i, ds)) == multiset(s)
    decreases i
  {
    if i <= 1 {
    } else {
      SwapPermutes(s, i - 1, ds[0]);
      ShuffledPermutes(Swap(s, i - 1, ds[0]), i - 1, ds[1..]);
    }
  }

  /** Every order is possible: some draws lead to it. */
  lemma {:induction false} EveryOrderPossible(s: seq<nat>, p: seq<nat>) returns (ds: seq<nat>)
    requires multiset(s) == multiset(p)
    ensures MayDraw(ds, |s|) && Shuffled(s, |s|, ds) == p
  {
    assert |s| == |multiset(s)| == |multiset(p)| == |p|;
    assert s[..|s|] == s && p[..|p|] == p;
    ds := DrawsFor(s, p, |s|);
  }

  /** From the back: the place `i - 1` draws where its value lies. */
  lemma {:induction false} DrawsFor(s: seq<nat>, p: seq<nat>, i: nat) returns (ds: seq<nat>)
    requires i <= |s| == |p| && SameAbove(s, p, i) && multiset(s[..i]) == multiset(p[..i])
    ensures MayDraw(ds, i) && Shuffled(s, i, ds) == p
    decreases i
  {
    hide Swap;
    if i <= 1 {
      ds := [];
      NothingLeft(s, p, i);
    } else {
      var j := FindBelow(s, p, i);
      SwapAbove(s, p, i, j);
      SwapBelow(s, p, i, j);
      var rest := DrawsFor(Swap(s, i - 1, j), p, i - 1);
      ds := [j] + rest;
      assert ds[1..] == rest;
    }
  }

  predicate SameAbove(s: seq<nat>, p: seq<nat>, i: nat)
    requires |s| == |p|
  {
    forall k :: i <= k < |s| ==> s[k] == p[k]
  }

  lemma {:induction false} NothingLeft(s: seq<nat>, p: seq<nat>, i: nat)
    requires i <= |s| == |p| && i <= 1 && SameAbove(s, p, i) && multiset(s[..i]) == multiset(p[..i])
    ensures s == p
  {
    if i == 1 {
      assert s[..1] == [s[0]] && p[..1] == [p[0]];
      assert s[0] in multiset([p[0]]);
    }
  }

  lemma {:induction false} FindBelow(s: seq<nat>, p: seq<nat>, i: nat) returns (j: nat)
    requires 1 < i <= |s| == |p| && multiset(s[..i]) == multiset(p[..i])
    ensures j < i && s[j] == p[i - 1]
  {
    var q := s[..i];
    assert p[..i][i - 1] in multiset(p[..i]);
    assert p[i - 1] in q;
    j :| j < i && q[j] == p[i - 1];
  }

  lemma {:induction false} SwapAbove(s: seq<nat>, p: seq<nat>, i: nat, j: nat)
    requires 1 < i <= |s| == |p| && SameAbove(s, p, i) && j < i && s[j] == p[i - 1]
    ensures |Swap(s, i - 1, j)| == |p| && SameAbove(Swap(s, i - 1, j), p, i - 1)
  {
  }

  lemma {:induction false} SwapBelow(s: seq<nat>, p: seq<nat>, i: nat, j: nat)
    requires 1 < i <= |s| == |p| && multiset(s[..i]) == multiset(p[..i]) && j < i && s[j] == p[i - 1]
    ensures multiset(Swap(s, i - 1, j)[..i - 1]) == multiset(p[..i - 1])
  {
    SwapFront(s[..i], p[..i], j);
    assert Swap(s, i - 1, j)[..i - 1] == Swap(s[..i], i - 1, j)[..i - 1];
    assert p[..i - 1] == p[..i][..i - 1];
  }

  lemma {:induction false} SwapFront(a: seq<nat>, b: seq<nat>, j: nat)
    requires |a| == |b| > 0 && multiset(a) == multiset(b) && j < |a| && a[j] == b[|b| - 1]
    ensures multiset(Swap(a, |a| - 1, j)[..|a| - 1]) == multiset(b[..|b| - 1])
  {
    SwapPermutes(a, |a| - 1, j);
    SameFront(Swap(a, |a| - 1, j), b);
  }

  lemma {:induction false} SameFront(a: seq<nat>, b: seq<nat>)
    requires |a| == |b| > 0 && multiset(a) == multiset(b) && a[|a| - 1] == b[|b| - 1]
    ensures multiset(a[..|a| - 1]) == multiset(b[..|b| - 1])
  {
    LastOff(a);
    LastOff(b);
  }

  lemma {:induction false} LastOff(a: seq<nat>)
    requires |a| > 0
    ensures multiset(a[..|a| - 1]) == multiset(a) - multiset{a[|a| - 1]}
  {
    assert a == a[..|a| - 1] + [a[|a| - 1]];
  }

  /** shuffle_indices: place by place from the back, each value exchanged with one drawn from those before it. */
  method Shuffle(idx: array<nat>, generator: Generator, entropy: bv64)
    modifies idx, generator
    ensures idx[..] == Shuffled(old(idx[..]), idx.Length, Draws(Seed(old(generator.state), entropy), idx.Length))
    ensures multiset(idx[..]) == multiset(old(idx[..]))
  {
    hide Step, AsNat, Shuffled, Draws, MayDraw;
    ghost var goal := Shuffled(idx[..], idx.Length, Draws(Seed(generator.state, entropy), idx.Length));
    ShuffledPermutes(idx[..], idx.Length, Draws(Seed(generator.state, entropy), idx.Length));
    var i := idx.Length;
    while i > 1
      invariant 0 <= i <= idx.Length && (i < idx.Length ==> generator.state != 0)
      invariant Shuffled(idx[..], i, Draws(Seed(generator.state, entropy), i)) == goal
    {
      ShuffledStep(idx[..], i, Seed(generator.state, entropy));
      ghost var was := idx[..];
      var j := generator.Below(i, entropy);
      idx[i - 1], idx[j] := idx[j], idx[i - 1];
      assert idx[..] == Swap(was, i - 1, j);
      i := i - 1;
    }
    ShuffledDone(idx[..], i, Seed(generator.state, entropy));
  }

  lemma {:induction false} ShuffledStep(s: seq<nat>, i: nat, x: bv64)
    requires 1 < i <= |s|
    ensures Shuffled(s, i, Draws(x, i)) ==
      Shuffled(Swap(s, i - 1, AsNat(Step(x)) % i), i - 1, Draws(Step(x), i - 1))
  {
    hide Step, AsNat, Swap;
    assert Draws(x, i)[1..] == Draws(Step(x), i - 1);
  }

  lemma {:induction false} ShuffledDone(s: seq<nat>, i: nat, x: bv64)
    requires i <= |s| && i <= 1
    ensures Shuffled(s, i, Draws(x, i)) == s
  {
  }

  /** The order in which select tries `n` cases. */
  ghost function OrderOf(n: nat, memory: bool, state: bv64, entropy: bv64): seq<nat> {
    if n <= 32 || memory then Shuffled(Upto(n), n, Draws(Seed(state, entropy), n)) else Upto(n)
  }

  /** The start of croutine_select: every case is tried exactly once, in the order the generator's draws make, or in
      source order when there is no memory for the scratch array. */
  method TryOrder(n: nat, memory: bool, generator: Generator, entropy: bv64) returns (order: seq<nat>)
    modifies generator
    ensures order == OrderOf(n, memory, old(generator.state), entropy)
    ensures |order| == n && forall i: nat :: multiset(order)[i] == if i < n then 1 else 0
  {
    hide Step, AsNat, Seed, Shuffled, Draws;
    var idx := new nat[n](i => i);
    assert idx[..] == Upto(n);
    UptoOnce(n);
    if n <= 32 || memory {
      Shuffle(idx, generator, entropy);
    }
    order := idx[..];
  }

  function Upto(n: nat): seq<nat> {
    seq(n, i => i)
  }

  lemma {:induction false} UptoOnce(n: nat)
    ensures forall i: nat :: multiset(Upto(n))[i] == if i < n then 1 else 0
  {
    if n == 0 {
    } else {
      UptoOnce(n - 1);
      assert Upto(n) == Upto(n - 1) + [n - 1];
    }
  }

  /** Such an order names every case and nothing else. */
  lemma {:induction false} NamesEveryCase(order: seq<nat>, n: nat)
    requires forall i: nat :: multiset(order)[i] == if i < n then 1 else 0
    ensures forall i: nat :: i in order <==> i < n
  {
    forall i: nat ensures i in order <==> i < n {
      assert i in order <==> multiset(order)[i] > 0;
    }
  }
}
