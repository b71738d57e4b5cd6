/** Integer division facts shared by the cyclic monitor order and the
    flags-word layout. */
module Arithmetic {

  /** Quotient and remainder are determined by any split n == q * d + r
      with 0 <= r < d. */
  lemma DivModUnique(n: int, d: int, q: int, r: int)
    requires d > 0 && n == q * d + r && 0 <= r < d
    ensures n / d == q && n % d == r
  {
    var e := q - n / d;
    assert e * d == n % d - r;
  }
}
