/** Facts about real multiplication that the grid and the draws rely on. */
module Aritmetica {
  /** Multiplying by a positive number keeps the order, both ways. */
  lemma MultiplicarMonotono(a: real, b: real, p: real)
    requires p > 0.0
    ensures a * p <= b * p <==> a <= b
    ensures a * p < b * p <==> a < b
  {
    var d := b - a;
    assert b * p - a * p == d * p;
    if d > 0.0 {
      assert d * p > 0.0;
    } else if d < 0.0 {
      assert (-d) * p > 0.0;
    }
  }

  /** Dividing by a non-zero number and multiplying back gives the number again. */
  lemma DividirEMultiplicar(x: real, p: real)
    requires p != 0.0
    ensures (x / p) * p == x
  {
  }
}
