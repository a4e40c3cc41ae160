/** Fixed-point arithmetic of the contracts: a `Decimal` is a natural number scaled by
    10^18, and every division rounds down. */
module FixedPoint {

  const E: nat := 1_000_000_000_000_000_000

  /** `Uint128 * Decimal` */
  function MulDec(a: nat, d: nat): nat {
    a * d / E
  }

  /** `Decimal::from_ratio`; a zero denominator panics, so callers test it first */
  function Ratio(a: nat, b: nat): nat
    requires b > 0
  {
    a * E / b
  }

  /** `Uint128::multiply_ratio` */
  function MultiplyRatio(a: nat, n: nat, d: nat): nat
    requires d > 0
  {
    a * n / d
  }

  function Min(a: int, b: int): int {
    if a <= b then a else b
  }

  function Max(a: int, b: int): int {
    if a >= b then a else b
  }

  // ----- division -----

  lemma DivBounds(a: int, b: int)
    requires b > 0
    ensures a / b * b <= a < a / b * b + b
  {
  }

  /** a quotient is at least `q` exactly when `q` multiples fit */
  lemma DivAtLeast(a: int, b: int, q: int)
    requires b > 0
    ensures q <= a / b <==> q * b <= a
  {
    DivBounds(a, b);
    if q <= a / b {
      MulMono(q, a / b, b);
    } else {
      MulMono(a / b + 1, q, b);
    }
  }

  lemma DivNonneg(a: int, b: int)
    requires a >= 0 && b > 0
    ensures a / b >= 0
  {
  }

  lemma DivUnique(a: int, b: int, q: int)
    requires b > 0 && q * b <= a < q * b + b
    ensures a / b == q
  {
    DivAtLeast(a, b, q);
    DivAtLeast(a, b, q + 1);
  }

  lemma DivMono(a: int, a': int, b: int)
    requires b > 0 && a <= a'
    ensures a / b <= a' / b
  {
    DivBounds(a, b);
    DivAtLeast(a', b, a / b);
  }

  /** rounding down each part never exceeds rounding down the whole */
  lemma DivSuperadditive(a: int, b: int, d: int)
    requires d > 0
    ensures a / d + b / d <= (a + b) / d
  {
    DivBounds(a, d);
    DivBounds(b, d);
    assert (a / d + b / d) * d == a / d * d + b / d * d;
    DivAtLeast(a + b, d, a / d + b / d);
  }

  // ----- multiplication -----

  lemma MulMono(a: int, b: int, c: int)
    requires a <= b && c >= 0
    ensures a * c <= b * c
    ensures c * a <= c * b
  {
  }

  lemma MulNonneg(a: int, b: int)
    requires a >= 0 && b >= 0
    ensures a * b >= 0
  {
  }

  /** cancels a positive factor of an inequality */
  lemma MulCancelLe(a: int, b: int, c: int)
    requires c > 0 && a * c <= b * c
    ensures a <= b
  {
    if a > b {
      MulMono(b + 1, a, c);
    }
  }

  lemma MulCancelLt(a: int, b: int, c: int)
    requires c > 0 && a * c < b * c
    ensures a < b
  {
    if b <= a {
      MulMono(b, a, c);
    }
  }

  // ----- the contract operations -----

  lemma MulDecBounds(a: nat, d: nat)
    ensures MulDec(a, d) * E <= a * d < MulDec(a, d) * E + E
  {
    DivBounds(a * d, E);
  }

  lemma RatioBounds(a: nat, b: nat)
    requires b > 0
    ensures Ratio(a, b) * b <= a * E < Ratio(a, b) * b + b
  {
    DivBounds(a * E, b);
  }

  lemma MultiplyRatioBounds(a: nat, n: nat, d: nat)
    requires d > 0
    ensures MultiplyRatio(a, n, d) * d <= a * n < MultiplyRatio(a, n, d) * d + d
  {
    DivBounds(a * n, d);
  }

  /** a factor of at most one never increases an amount */
  lemma MulDecAtMost(a: nat, d: nat)
    requires d <= E
    ensures MulDec(a, d) <= a
  {
    MulDecBounds(a, d);
    MulMono(d, E, a);
    MulCancelLe(MulDec(a, d), a, E);
  }

  lemma MulDecMono(a: nat, a': nat, d: nat)
    requires a <= a'
    ensures MulDec(a, d) <= MulDec(a', d)
  {
    MulMono(a, a', d);
    DivMono(a * d, a' * d, E);
  }

  /** paying several holders at one rate never costs more than paying their total */
  lemma MulDecSuperadditive(a: nat, b: nat, d: nat)
    ensures MulDec(a, d) + MulDec(b, d) <= MulDec(a + b, d)
  {
    assert (a + b) * d == a * d + b * d;
    DivSuperadditive(a * d, b * d, E);
  }

  /** a rate computed from `a / b` pays out at most `a` on `b` */
  lemma RatioPaysAtMost(a: nat, b: nat)
    requires b > 0
    ensures MulDec(b, Ratio(a, b)) <= a
  {
    RatioBounds(a, b);
    MulDecBounds(b, Ratio(a, b));
    assert b * Ratio(a, b) == Ratio(a, b) * b;
    MulCancelLe(MulDec(b, Ratio(a, b)), a, E);
  }

  // ----- two roundings of a rate -----

  /** a rate `r` of at most `w / t`, applied to `a`, gives at most `a * w / t` */
  lemma RateAtMost(a: nat, w: nat, t: nat, r: nat, m: nat, e: nat)
    requires e > 0 && r * t <= w * e && m * e <= a * r
    ensures m * t <= a * w
  {
    MulMono(m * e, a * r, t);
    MulMono(r * t, w * e, a);
    assert m * t * e == m * e * t;
    assert a * r * t == a * (r * t);
    assert a * (w * e) == a * w * e;
    MulCancelLe(m * t, a * w, e);
  }

  /** two roundings of a rate, applied to at most `e`, lose less than two units */
  lemma RateAtLeast(a: nat, w: nat, t: nat, r: nat, m: nat, e: nat)
    requires e > 0 && t > 0 && a <= e
    requires w * e < r * t + t && a * r < m * e + e
    ensures a * w < (m + 2) * t
  {
    FactorBelow(a, w, t, r, e);
    MulMono(a * r + 1, m * e + e, t);
    MulMono(a, e, t);
    Spread(a * r, m, t, e);
    MulCancelLt(a * w, (m + 2) * t, e);
  }

  lemma FactorBelow(a: nat, w: nat, t: nat, r: nat, e: nat)
    requires w * e < r * t + t
    ensures a * w * e <= a * r * t + a * t
  {
    MulMono(w * e, r * t + t, a);
    assert a * (w * e) == a * w * e;
    assert a * (r * t + t) == a * r * t + a * t;
  }

  lemma Spread(p: nat, m: nat, t: nat, e: nat)
    ensures (p + 1) * t == p * t + t
    ensures (m * e + e) * t + e * t == (m + 2) * t * e
  {
    assert (m * e + e) * t == m * t * e + t * e;
    assert (m + 2) * t * e == m * t * e + 2 * (t * e);
  }
}
