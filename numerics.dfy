/** The floating-point primitives of the synthesis engine, kept abstract, and the
    integer conversion Python's `int()` performs on a float. */
module Numerics {

  /** The three transcendental operations the engine calls:
      `cos` is `math.cos`, `expE(y)` is `e**y` with the program's truncated
      constant `e = 2.7182818`, and `sqrt(y)` is `y**0.5`.
      Nothing is known about them except what `Valid` states. */
  datatype Math = Math(cos: real -> real, expE: real -> real, sqrt: real -> real) {
    ghost predicate Valid() {
      (forall y :: expE(y) > 0.0) &&
      (forall y :: y >= 0.0 ==> sqrt(y) >= 0.0) &&
      (forall y :: y > 0.0 ==> sqrt(y) > 0.0)
    }
  }

  /** The program's truncated value of pi. */
  const Pi: real := 3.1415923

  /** A computation that either finishes or raises Python's ZeroDivisionError. */
  datatype Outcome<T> = Done(value: T) | ZeroDivision

  /** Python's `int(r)` on a float: truncation toward zero. */
  function Trunc(r: real): (n: int)
    ensures 0.0 <= r ==> 0 <= n && n as real <= r < n as real + 1.0
    ensures r < 0.0 ==> n <= 0 && n as real - 1.0 < r <= n as real
  {
    if r >= 0.0 then r.Floor else -((-r).Floor)
  }

  /** `Trunc` is monotone, so it keeps a value between two bounds. */
  lemma TruncMonotone(a: real, b: real)
    requires a <= b
    ensures Trunc(a) <= Trunc(b)
  {
  }
}
