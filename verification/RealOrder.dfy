/** Order facts about products and quotients of reals. */
module RealOrder {

  lemma DivMul(x: real, b: real)
    requires b > 0.0
    ensures x / b * b == x
  {
  }

  lemma MulOrder(a: real, b: real, m: real)
    requires m > 0.0
    ensures a <= b <==> a * m <= b * m
    ensures a < b <==> a * m < b * m
  {
    if a <= b { assert (b - a) * m >= 0.0; } else { assert (a - b) * m > 0.0; }
    if a < b { assert (b - a) * m > 0.0; } else { assert (a - b) * m >= 0.0; }
  }

  lemma QuotientOrder(a: real, b: real, m: real)
    requires m > 0.0
    ensures a <= b <==> a / m <= b / m
  {
    DivMul(a, m);
    DivMul(b, m);
    MulOrder(a / m, b / m, m);
  }
}
