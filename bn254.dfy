/**
 * The parts of the BN254 curve library whose meaning the verifier relies
 * on: the scalar field Fr with its modular multiplication, and the types of
 * the two source groups. Group arithmetic and pairings are not interpreted
 * (see Collaborators.Library).
 */
module Bn254 {

  /** Order r of the BN254 scalar field (and of G1 and G2). */
  const R: int := 21888242871839275222246405745257275088548364400416034343698204186575808495617

  /** A scalar field element, in canonical form 0 <= x < r. */
  type Fr = x: int | 0 <= x < R

  /** The field's one, `bls.ONE`. */
  const ONE: Fr := 1

  /** `bls.MulModFr`: the product in Fr. */
  function MulModFr(a: Fr, b: Fr): Fr {
    (a * b) % R
  }

  /** x^n over the integers. */
  function Pow(x: int, n: nat): int {
    if n == 0 then 1 else x * Pow(x, n - 1)
  }

  lemma AddMultipleMod(k: int, c: int)
    ensures (k * R + c) % R == c % R
  {
  }

  /** One more modular multiplication by x turns x^i mod r into x^(i+1) mod r. */
  lemma {:induction false} MulModPow(x: Fr, i: nat)
    ensures MulModFr(Pow(x, i) % R, x) == Pow(x, i + 1) % R
  {
    var p := Pow(x, i);
    var q, m := p / R, p % R;
    assert p == q * R + m;
    calc {
      Pow(x, i + 1);
      x * p;
      x * (q * R + m);
      { assert x * (q * R + m) == (x * q) * R + m * x; }
      (x * q) * R + m * x;
    }
    AddMultipleMod(x * q, m * x);
  }

  /** A point of G1, in affine coordinates over the base field. */
  datatype G1Point = G1Point(x: int, y: int)

  /** A point of G2, in affine coordinates over the quadratic extension. */
  datatype G2Point = G2Point(x: (int, int), y: (int, int))
}
