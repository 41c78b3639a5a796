/** Division facts for ring indices and packed tokens. */
module Arithmetic {

  lemma {:induction false} Apart(n: nat, a: int, b: int)
    requires 0 < n && a < b
    ensures a * n + n <= b * n
    decreases b - a
  {
    assert b * n == (b - 1) * n + n;
    if a == b - 1 {
    } else {
      Apart(n, a, b - 1);
    }
  }

  /** Quotient and remainder are determined by the number. */
  lemma {:induction false} Unique(n: nat, q: int, r: int, q': int, r': int)
    requires 0 <= r < n && 0 <= r' < n && q * n + r == q' * n + r'
    ensures q == q' && r == r'
  {
    if q < q' { Apart(n, q, q'); } else if q' < q { Apart(n, q', q); }
  }

  lemma {:induction false} QuotientRemainder(x: nat, n: nat)
    requires 0 < n
    ensures (x / n) * n + x % n == x
  {
  }

  lemma {:induction false} Divides(n: nat, q: nat, r: nat)
    requires r < n
    ensures (q * n + r) / n == q && (q * n + r) % n == r
  {
    QuotientRemainder(q * n + r, n);
    Unique(n, q, r, (q * n + r) / n, (q * n + r) % n);
  }

  /** A ring index that has moved by at most one round. */
  function Wrap(x: nat, capacity: nat): (k: nat)
    requires x < 2 * capacity
    ensures k < capacity
  {
    if x < capacity then x else x - capacity
  }

  lemma {:induction false} WrapIsMod(x: nat, capacity: nat)
    requires x < 2 * capacity
    ensures x % capacity == Wrap(x, capacity)
  {
    Divides(capacity, if x < capacity then 0 else 1, Wrap(x, capacity));
  }

  /** The overflow test of an array size. */
  lemma {:induction false} FitsQuotient(a: nat, n: nat, max: nat)
    requires n > 0
    ensures a <= max / n <==> a * n <= max
  {
    var q, r := max / n, max % n;
    assert max == q * n + r && r < n;
    if a <= q {
      assert a * n <= q * n;
    } else {
      assert a * n >= (q + 1) * n == q * n + n;
    }
  }
}
