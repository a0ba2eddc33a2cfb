/** Rounding up, and division of real numbers. */
module Rounding {

  function Ceil(x: real): (c: int)
    ensures x <= c as real < x + 1.0
  {
    -((-x).Floor)
  }

  lemma DivSign(d: real, m: real)
    requires m > 0.0 && d > 0.0
    ensures d / m > 0.0
  {
  }

  lemma SignOfProduct(z: real, m: real)
    requires m > 0.0
    ensures z > 0.0 ==> z * m > 0.0
    ensures z < 0.0 ==> z * m < 0.0
  {
  }

  lemma DivLess(x: real, y: real, m: real)
    requires m > 0.0 && x <= y
    ensures x / m <= y / m
  {
    assert (x / m - y / m) * m == x - y;
    SignOfProduct(x / m - y / m, m);
  }

  lemma DivOneLess(d: real, m: real)
    requires m > 0.0
    ensures (d - m) / m == d / m - 1.0
  {
    var z := (d - m) / m - (d / m - 1.0);
    assert z * m == (d - m) / m * m - d / m * m + m == 0.0;
    SignOfProduct(z, m);
  }
}
