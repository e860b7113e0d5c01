/** The integer arithmetic of the simulator, written out over Dafny's unbounded
    integers. Java's `/` truncates toward zero while Dafny's is Euclidean, and
    the floating-point multipliers of the source (0.5, 0.1, 0.8, 0.15) are
    given here as exact rational arithmetic. */
module JavaNumerics {

  /** Java's `a / b` on `int` for a positive divisor: the quotient is truncated
      toward zero, so the remainder has the sign of the dividend. */
  function TruncDiv(a: int, b: int): (q: int)
    requires b > 0
    ensures a >= 0 ==> 0 <= a - b * q < b
    ensures a < 0 ==> -b < a - b * q <= 0
    ensures -b < a < b ==> q == 0
  {
    var q := if a >= 0 then a / b else -((-a) / b);
    ProductBounds(b, q);
    q
  }

  /** A nonzero multiple of a positive number is at least that number in
      magnitude. */
  lemma ProductBounds(b: int, q: int)
    requires b > 0
    ensures q >= 1 ==> b * q >= b
    ensures q <= -1 ==> b * q <= -b
  {
  }

  /** Euclidean division has a unique quotient: any q that leaves a remainder
      in [0, b) is `a / b`. */
  lemma DivUnique(a: int, b: int, q: int)
    requires b > 0 && 0 <= a - b * q < b
    ensures a / b == q
  {
    var r := a / b;
    assert b * (r - q) == (a - b * q) - (a - b * r);
    ProductBounds(b, r - q);
  }

  /** Adding the divisor to the dividend adds one to the quotient; a
      non-negative dividend has a non-negative quotient. */
  lemma DivAddDivisor(a: int, b: int)
    requires b > 0
    ensures (a + b) / b == a / b + 1
    ensures a >= 0 ==> a / b >= 0
  {
    var q := a / b;
    assert a - b * q == a % b;
    assert (a + b) - b * (q + 1) == a - b * q;
    DivUnique(a + b, b, q + 1);
    ProductBounds(b, q);
  }

  /** `Math.round(x * 0.5)` and `Math.ceil(x * 0.5)`: for an integer x both are
      x/2 rounded up, and multiplying by 0.5 is exact in binary. */
  function HalfRoundedUp(x: int): (r: int)
    ensures x <= 2 * r <= x + 1
  {
    (x + 1) / 2
  }

  /** `Math.round(x * 0.1)`: the integer nearest to x/10, ties rounded up. */
  function RoundTenth(x: int): (r: int)
    ensures 10 * r - 5 <= x < 10 * r + 5
  {
    (x + 5) / 10
  }

  /** `Math.ceil(x * 0.8)`: the least integer not below 4x/5. */
  function CeilFourFifths(x: int): (r: int)
    ensures 5 * r - 5 < 4 * x <= 5 * r
  {
    (4 * x + 4) / 5
  }

  /** `Math.round(x * 0.15)`: the integer nearest to 3x/20, ties rounded up. */
  function RoundThreeTwentieths(x: int): (r: int)
    ensures 20 * r - 10 <= 3 * x < 20 * r + 10
  {
    (3 * x + 10) / 20
  }
}
