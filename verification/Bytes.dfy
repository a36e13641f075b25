/** Byte strings, and the fixed-width big-endian integers that `encoding/binary` reads and writes. */
module Bytes {

  newtype byte = x: int | 0 <= x < 256

  type Bytes = seq<byte>

  const TWO32: nat := 0x1_0000_0000
  const TWO64: nat := 0x1_0000_0000_0000_0000

  lemma Assoc<T>(a: seq<T>, b: seq<T>, c: seq<T>)
    ensures a + (b + c) == a + b + c
  {}

  /** The number of distinct values of a `w`-byte integer. */
  function Pow256(w: nat): (p: nat)
    ensures p > 0
  {
    if w == 0 then 1 else 256 * Pow256(w - 1)
  }

  /** `PutUint16/32/64`: the low `w` bytes of `n`, most significant first. */
  function BE(n: nat, w: nat): (b: Bytes)
    ensures |b| == w
  {
    if w == 0 then [] else BE(n / 256, w - 1) + [(n % 256) as byte]
  }

  /** `Uint16/32/64`: the integer a big-endian byte string denotes. */
  function FromBE(b: Bytes): nat {
    if b == [] then 0 else 256 * FromBE(b[..|b| - 1]) + b[|b| - 1] as nat
  }

  lemma {:induction false} BERoundTrip(n: nat, w: nat)
    requires n < Pow256(w)
    ensures FromBE(BE(n, w)) == n
  {
    if w > 0 {
      BERoundTrip(n / 256, w - 1);
      assert BE(n, w)[..w - 1] == BE(n / 256, w - 1);
    }
  }

  lemma {:induction false} BEOnto(b: Bytes)
    ensures FromBE(b) < Pow256(|b|)
    ensures BE(FromBE(b), |b|) == b
  {
    if b != [] {
      BEOnto(b[..|b| - 1]);
    }
  }

  lemma Pow256Values()
    ensures Pow256(1) == 256 && Pow256(2) == 0x1_0000 && Pow256(4) == TWO32 && Pow256(8) == TWO64
  {
    assert Pow256(2) == 256 * Pow256(1);
    assert Pow256(3) == 256 * Pow256(2);
    assert Pow256(4) == 256 * Pow256(3);
    assert Pow256(5) == 256 * Pow256(4);
    assert Pow256(6) == 256 * Pow256(5);
    assert Pow256(7) == 256 * Pow256(6);
    assert Pow256(8) == 256 * Pow256(7);
  }

  /** The byte-wise key order of the database: `a` sorts strictly before `b`. */
  predicate LexLess(a: Bytes, b: Bytes) {
    b != [] && (a == [] || a[0] < b[0] || (a[0] == b[0] && LexLess(a[1..], b[1..])))
  }

  lemma {:induction false} LexLessLast(a: Bytes, b: Bytes, x: byte, y: byte)
    requires |a| == |b|
    ensures LexLess(a + [x], b + [y]) <==> LexLess(a, b) || (a == b && x < y)
  {
    if a == [] {
    } else {
      LexLessLast(a[1..], b[1..], x, y);
      assert (a + [x])[1..] == a[1..] + [x];
      assert (b + [y])[1..] == b[1..] + [y];
      assert a == b <==> a[0] == b[0] && a[1..] == b[1..];
    }
  }

  /** A key longer than the bound it is compared with is placed by its leading bytes alone. */
  lemma {:induction false} LexLessExtended(a: Bytes, b: Bytes, tail: Bytes)
    requires |a| == |b|
    ensures LexLess(a + tail, b) <==> LexLess(a, b)
  {
    if a != [] {
      LexLessExtended(a[1..], b[1..], tail);
      assert (a + tail)[1..] == a[1..] + tail;
    }
  }

  /** Big-endian keys of one width sort exactly as the integers they encode. */
  lemma {:induction false} LexLessBE(m: nat, n: nat, w: nat)
    requires m < Pow256(w) && n < Pow256(w)
    ensures LexLess(BE(m, w), BE(n, w)) <==> m < n
  {
    if w > 0 {
      LexLessBE(m / 256, n / 256, w - 1);
      LexLessLast(BE(m / 256, w - 1), BE(n / 256, w - 1), (m % 256) as byte, (n % 256) as byte);
      BERoundTrip(m / 256, w - 1);
      BERoundTrip(n / 256, w - 1);
    }
  }
}
