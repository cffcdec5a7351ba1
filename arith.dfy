/** Facts about integer and real arithmetic that the solver does not find unaided. */
module Arith {

  /** Euclidean division is unique: a quotient and remainder in range are `a / n` and `a % n`. */
  lemma ModUnique(a: int, n: int, q: int, r: int)
    requires n > 0 && a == q * n + r && 0 <= r < n
    ensures a % n == r && a / n == q
  {
    var q', r' := a / n, a % n;
    assert a == q' * n + r' && 0 <= r' < n;
    var d := q - q';
    assert d * n == r' - r;
    assert d >= 1 ==> d * n >= n;
    assert d <= -1 ==> d * n <= -n;
  }

  /** A multiple of `g` leaves no remainder. */
  lemma ModMultiple(k: int, g: int)
    requires g > 0
    ensures (k * g) % g == 0
  {
    ModUnique(k * g, g, k, 0);
  }

  /** Cancelling a positive factor from a strict inequality. */
  lemma MulCancel(a: int, b: int, g: int)
    requires g > 0 && a * g < b * g
    ensures a < b
  {
    assert (b - a) * g == b * g - a * g;
  }

  /** Multiplying a strict inequality by a positive real. */
  lemma RealMulLess(a: real, b: real, c: real)
    requires c > 0.0 && a < b
    ensures a * c < b * c
  {
    assert b * c - a * c == (b - a) * c;
  }

  /** Dividing a non-negative real by a positive one: the quotient has the dividend's sign and undoes multiplication. */
  lemma RealDivPos(a: real, b: real)
    requires a >= 0.0 && b > 0.0
    ensures a / b >= 0.0
    ensures a > 0.0 ==> a / b > 0.0
    ensures (a / b) * b == a
  {
    var m := a / b;
    assert m * b == a;
    assert m < 0.0 ==> m * b < 0.0;
  }

  /** The floor of a non-negative real is a non-negative integer, below every bound of the real. */
  lemma FloorLess(x: real, m: real)
    requires 0.0 <= x
    ensures 0 <= x.Floor && (x.Floor as real) <= x
    ensures x < m ==> (x.Floor as real) < m
  {
  }

  /** Integer division rounds down. */
  lemma DivFloor(a: nat, b: nat)
    requires b > 0
    ensures (a / b) * b <= a
    ensures a < b ==> a / b == 0
  {
  }
}
