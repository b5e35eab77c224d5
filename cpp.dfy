/** The C++ value semantics the two headers rely on: the implicit
    float-to-int conversion (truncation toward zero), integer division by
    two (also toward zero) and the `uint8_t` range. */
module Cpp {

  /** An `uint8_t`. */
  newtype byte = b: int | 0 <= b < 256

  /** `(int) r` for a float `r`: drops the fraction, rounding toward zero. */
  function Trunc(r: real): (n: int)
    ensures 0.0 <= r ==> 0 <= n && n as real <= r < n as real + 1.0
    ensures r < 0.0 ==> n <= 0 && n as real - 1.0 < r <= n as real
  {
    if r >= 0.0 then r.Floor else -((-r).Floor)
  }

  /** `n / 2` on C++ `int`s, which rounds toward zero (Dafny's `/` is Euclidean). */
  function HalfTowardZero(n: int): (q: int)
    ensures 0 <= n ==> 0 <= n - 2 * q <= 1
    ensures n < 0 ==> 0 <= 2 * q - n <= 1
  {
    if n >= 0 then n / 2 else -((-n) / 2)
  }

  /** Truncation never moves a value by a whole unit or more. */
  lemma TruncNear(r: real)
    ensures r - 1.0 < Trunc(r) as real < r + 1.0
    ensures -1.0 < r < 1.0 ==> Trunc(r) == 0
  {
  }

  lemma TruncMonotone(a: real, b: real)
    requires a <= b
    ensures Trunc(a) <= Trunc(b)
  {
  }

  /** Unlike a floor, truncation is symmetric about zero. */
  lemma TruncOdd(r: real)
    ensures Trunc(-r) == -Trunc(r)
  {
  }
}
