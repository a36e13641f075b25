/** Drawing an index without bias: rejection at the top of the 64-bit range. */
module Sampler {
  import opened Bytes

  datatype Draw = Index(value: nat) | BadRange | ReadError

  /** Subtraction of unsigned 64-bit integers. */
  function Minus64(a: nat, b: nat): (d: nat)
    requires a < TWO64 && b < TWO64
    ensures d < TWO64
  {
    if a >= b then a - b else a + TWO64 - b
  }

  function Excess(n: nat): nat
    requires 0 < n < TWO64
  {
    Minus64(0, n) % n
  }

  predicate Accepted(v: nat, n: nat)
    requires 0 < n < TWO64
  {
    var r := Excess(n);
    r == 0 || (r < TWO64 && v < Minus64(0, r))
  }

  /** The wrapped computation yields the remainder of 2^64 itself, which does not fit in 64 bits. */
  lemma ExcessIsRemainder(n: nat)
    requires 0 < n < TWO64
    ensures Excess(n) == TWO64 % n < n
  {
    assert (TWO64 - n) % n == TWO64 % n by { ShiftRemainder(TWO64 - n, n); }
  }

  lemma ShiftRemainder(a: nat, n: nat)
    requires n > 0
    ensures (a + n) % n == a % n
  {
    Quotient(a + n, a / n + 1, a % n, n);
  }

  lemma Quotient(a: int, q: int, r: int, n: int)
    requires n > 0 && 0 <= r < n && a == q * n + r
    ensures a / n == q && a % n == r
  {
    var d := a / n - q;
    assert a == (a / n) * n + a % n;
    assert d * n == r - a % n;
    Multiples(d, n);
  }

  lemma Multiples(d: int, n: int)
    requires n > 0
    ensures (d >= 1 ==> d * n >= n) && (d <= -1 ==> d * n <= -n) && (d == 0 ==> d * n == 0)
  {}

  lemma AcceptedIsBelow(v: nat, n: nat)
    requires 0 < n < TWO64 && v < TWO64
    ensures Accepted(v, n) <==> v < TWO64 - TWO64 % n
  {
    ExcessIsRemainder(n);
  }

  // ---- Every index is hit by equally many values ----

  ghost function Hits(m: nat, n: nat, k: nat): set<nat>
    requires n > 0
  {
    set v: nat | v < m && v % n == k
  }

  lemma {:induction false} HitsAreEven(q: nat, n: nat, k: nat)
    requires k < n
    ensures |Hits(q * n, n, k)| == q
    decreases q
  {
    if q == 0 {
      assert Hits(0 * n, n, k) == {};
    } else {
      HitsAreEven(q - 1, n, k);
      var x := (q - 1) * n + k;
      Quotient(x, q - 1, k, n);
      assert q * n == (q - 1) * n + n;
      forall v: nat ensures v in Hits(q * n, n, k) <==> v in Hits((q - 1) * n, n, k) || v == x {
        if (q - 1) * n <= v < q * n { Quotient(v, q - 1, v - (q - 1) * n, n); }
      }
      assert Hits(q * n, n, k) == Hits((q - 1) * n, n, k) + {x};
    }
  }

  ghost function Yielding(n: nat, k: nat): set<nat>
    requires 0 < n < TWO64
  {
    set v: nat | v < TWO64 && Accepted(v, n) && v % n == k
  }

  /** Exactly (2^64 - 2^64 mod n) / n of the 64-bit values are accepted and yield `k`, for each of the n indices. */
  lemma Uniform(n: nat, k: nat)
    requires k < n < TWO64
    ensures |Yielding(n, k)| == (TWO64 - TWO64 % n) / n
  {
    var q := TWO64 / n;
    assert TWO64 == q * n + TWO64 % n;
    Quotient(TWO64 - TWO64 % n, q, 0, n);
    HitsAreEven(q, n, k);
    forall v: nat ensures v in Yielding(n, k) <==> v in Hits(q * n, n, k) {
      if v < TWO64 { AcceptedIsBelow(v, n); }
    }
    assert Yielding(n, k) == Hits(q * n, n, k);
  }

  /** A draw is accepted more often than not. */
  lemma AtLeastHalf(n: nat)
    requires 0 < n < TWO64
    ensures 2 * (TWO64 - TWO64 % n) > TWO64
  {
    var q := TWO64 / n;
    assert TWO64 == q * n + TWO64 % n;
    Multiples(q, n);
    assert q >= 1;
  }

  ghost predicate AllRejected(draws: seq<nat>, n: nat)
    requires 0 < n < TWO64
  {
    forall i :: 0 <= i < |draws| ==> !Accepted(draws[i], n)
  }

  /** CryptoRandIndex, with the random reader as the sequence of 64-bit values it delivers before it fails. */
  method CryptoRandIndex(n: int, draws: seq<nat>) returns (d: Draw, used: nat)
    requires n < TWO64 / 2
    requires forall i :: 0 <= i < |draws| ==> draws[i] < TWO64
    ensures d.BadRange? <==> n <= 0
    ensures used <= |draws|
    ensures n > 0 && d.ReadError? ==> used == |draws| && AllRejected(draws, n)
    ensures d.Index? ==> n > 0 && used > 0 && d.value < n && d.value == draws[used - 1] % n
    ensures d.Index? ==> Accepted(draws[used - 1], n) && AllRejected(draws[..used - 1], n)
  {
    used := 0;
    if n <= 0 { return BadRange, 0; }
    var r := Minus64(0, n) % n;
    ExcessIsRemainder(n);
    while used < |draws|
      invariant used <= |draws| && AllRejected(draws[..used], n)
    {
      var v := draws[used];
      used := used + 1;
      if r == 0 || v < Minus64(0, r) {
        return Index(v % n), used;
      }
    }
    assert draws[..used] == draws;
    return ReadError, used;
  }
}
