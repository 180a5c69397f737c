/** Larger and smaller of two numbers; products and quotients that the solver does not settle by itself. */
module Arith {
  function Max(a: int, b: int): int {
    if a < b then b else a
  }

  function Min(a: int, b: int): int {
    if a < b then a else b
  }

  lemma MinIs(a: int, b: int)
    ensures Min(a, b) == if a < b then a else b
  {}

  lemma TimesOrdered(a: int, b: int, d: int)
    requires a <= b && d >= 0
    ensures a * d <= b * d
  {
    assert (b - a) * d >= 0;
    assert (b - a) * d == b * d - a * d;
  }

  lemma OneMoreTimes(a: int, d: int)
    ensures (a + 1) * d == a * d + d
  {}

  lemma DivBounds(x: int, d: int)
    requires d > 0
    ensures (x / d) * d <= x < (x / d) * d + d && x == (x / d) * d + x % d
  {}

  /** Quotient and remainder are the only ones. */
  lemma DivUnique(n: int, d: int, q: int, r: int)
    requires n == q * d + r && 0 <= r < d
    ensures n / d == q && n % d == r
  {
    var p := n / d;
    DivBounds(n, d);
    OneMoreTimes(p, d);
    OneMoreTimes(q, d);
    if q < p {
      TimesOrdered(q + 1, p, d);
    } else if p < q {
      TimesOrdered(p + 1, q, d);
    }
  }
}
