/**
 * Go's fixed-width unsigned integers, on a 64-bit platform, and the
 * integer logarithm that the verifier takes of an evaluation count.
 */
module Uints {

  const TWO_64: int := 0x1_0000_0000_0000_0000
  /** Largest length a Go slice can have (math.MaxInt on a 64-bit platform). */
  const MAX_INT: int := 0x7FFF_FFFF_FFFF_FFFF

  type uint8 = x: int | 0 <= x < 0x100
  type uint64 = x: int | 0 <= x < TWO_64

  /** A Go slice: a sequence whose length fits in an `int`. */
  type Slice<T> = s: seq<T> | |s| <= MAX_INT

  /** Go's `a - b` on uint64: exact when b <= a, wraps past a otherwise. */
  function Sub64(a: uint64, b: uint64): (r: uint64)
    ensures b <= a ==> r == a - b
    ensures a < b ==> a < r && r + (b - a) == TWO_64
  {
    (a - b) % TWO_64
  }

  /** Go's `a * b` on uint64: exact when the product fits, wraps otherwise. */
  function Mul64(a: uint64, b: uint64): (r: uint64)
    ensures a * b < TWO_64 ==> r == a * b
    ensures (r - a * b) % TWO_64 == 0
  {
    (a * b) % TWO_64
  }

  function Pow2(k: nat): (r: nat)
    ensures r >= 1
  {
    if k == 0 then 1 else 2 * Pow2(k - 1)
  }

  lemma {:induction false} Pow2Add(a: nat, b: nat)
    ensures Pow2(a + b) == Pow2(a) * Pow2(b)
  {
    if a > 0 {
      Pow2Add(a - 1, b);
    }
  }

  lemma Pow2Is2To64()
    ensures Pow2(64) == TWO_64
  {
    assert Pow2(4) == 16;
    Pow2Add(4, 4);
    Pow2Add(8, 8);
    Pow2Add(16, 16);
    Pow2Add(32, 32);
  }

  lemma {:induction false} Pow2Below64(k: nat)
    ensures Pow2(k) < TWO_64 ==> k < 64
  {
    if k > 64 {
      Pow2Below64(k - 1);
    } else {
      Pow2Is2To64();
    }
  }

  /** v is 1, 2, 4, 8, ... */
  predicate IsPowerOfTwo(v: nat) {
    v == 1 || (v >= 2 && v % 2 == 0 && IsPowerOfTwo(v / 2))
  }

  /**
   * The integer the verifier uses as log2 of an evaluation count: the
   * largest k with 2^k <= v (0 for v = 0). It fits in a uint8.
   */
  function Log2Floor(v: uint64): (r: nat)
    ensures r < 64
    ensures v >= 1 ==> Pow2(r) <= v < Pow2(r + 1)
  {
    if v < 2 then 0
    else
      var k := Log2Floor(v / 2);
      Pow2Below64(k + 1);
      k + 1
  }

  lemma {:induction false} Log2FloorOfPowerOfTwo(v: uint64)
    requires IsPowerOfTwo(v)
    ensures Pow2(Log2Floor(v)) == v
  {
    if v > 1 {
      Log2FloorOfPowerOfTwo(v / 2);
    }
  }
}
