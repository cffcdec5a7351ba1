/**
 * Random draws. Every `Math.random()` of the source becomes a caller-supplied
 * value of type `Unit`, a real in [0, 1).
 */
module Draw {

  /** A value that `Math.random()` can return. */
  type Unit = r: real | 0.0 <= r < 1.0

  /** `0 <= r * m`, and `r * m < m` whenever `m` is positive. */
  lemma ScaleBelow(r: Unit, m: real)
    requires m >= 0.0
    ensures 0.0 <= r * m
    ensures m > 0.0 ==> r * m < m
  {
    if m > 0.0 {
      assert m - r * m == (1.0 - r) * m;
    }
  }

  /** `Math.floor(r * n)`: an index in [0, n) for every draw `r` (0 when `n` is 0). */
  function Below(r: Unit, n: nat): (k: int)
    ensures n > 0 ==> 0 <= k < n
    ensures n == 0 ==> k == 0
  {
    ScaleBelow(r, n as real);
    (r * n as real).Floor
  }
}
