/** Division facts shared by the arithmetic parts of the model. */
module Arithmetic {

  /** A quotient with a small enough remainder is the quotient. */
  lemma DivMod(x: int, m: int, q: int, r: int)
    requires m > 0 && x == m * q + r && 0 <= r < m
    ensures x / m == q && x % m == r
  {
    var k := x / m - q;
    assert x == m * (x / m) + x % m;
    assert m * k == r - x % m;
    assert k >= 1 ==> m * k >= m;
    assert k <= -1 ==> m * k <= -m;
  }
}
