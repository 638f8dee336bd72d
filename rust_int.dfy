/**
 * Integer semantics of the Rust side of Tavern: the `i32` range and Rust's
 * integer division, which truncates toward zero (Dafny's `/` is Euclidean).
 */
module RustInt {

  const I32_MIN: int := -0x8000_0000
  const I32_MAX: int := 0x7fff_ffff

  /** `x` is representable as a Rust `i32`. */
  predicate IsI32(x: int) {
    I32_MIN <= x <= I32_MAX
  }

  /**
   * Rust's `a / d` for a positive divisor: the quotient rounded toward zero,
   * so the remainder `a - d * q` is smaller than `d` and has the sign of `a`.
   */
  function TruncDiv(a: int, d: int): (q: int)
    requires d > 0
    ensures -d < a - d * q < d
    ensures a >= 0 ==> a - d * q >= 0
    ensures a <= 0 ==> a - d * q <= 0
  {
    if a >= 0 then a / d else -((-a) / d)
  }

  /** The three conditions of `TruncDiv`'s contract pin the quotient down for a divisor of 2. */
  lemma TruncDiv2Unique(a: int, q: int)
    requires -2 < a - 2 * q < 2
    requires a >= 0 ==> a - 2 * q >= 0
    requires a <= 0 ==> a - 2 * q <= 0
    ensures q == TruncDiv(a, 2)
  {
    var t := TruncDiv(a, 2);
    assert -2 < a - 2 * t < 2;
  }

  /** Halving with truncation is monotone. */
  lemma TruncDiv2Monotone(a: int, b: int)
    requires a <= b
    ensures TruncDiv(a, 2) <= TruncDiv(b, 2)
  {
    var qa, qb := TruncDiv(a, 2), TruncDiv(b, 2);
    assert -2 < a - 2 * qa < 2 && -2 < b - 2 * qb < 2;
  }

  /**
   * Truncation differs from Dafny's floor division exactly for negative odd
   * dividends, where it is one larger.
   */
  lemma TruncDiv2VersusFloor(a: int)
    ensures TruncDiv(a, 2) == a / 2 + (if a < 0 && a % 2 == 1 then 1 else 0)
  {
  }
}
