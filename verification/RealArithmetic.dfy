/** Facts about products and quotients of reals. */
module RealArithmetic {

  function Lesser(a: real, b: real): real { if b < a then b else a }
  function Greater(a: real, b: real): real { if b > a then b else a }

  lemma MulLe(a: real, b: real, c: real)
    requires a <= b && c >= 0.0
    ensures a * c <= b * c
  {
  }

  lemma MulLess(a: real, b: real, c: real)
    requires a < b && c > 0.0
    ensures a * c < b * c
  {
  }

  lemma DivTimes(a: real, b: real)
    requires b != 0.0
    ensures a / b * b == a
  {
  }

  lemma Scaled(a: real, b: real, c: real)
    requires c > 0.0
    ensures a <= b <==> a * c <= b * c
  {
    if a <= b {
      MulLe(a, b, c);
    } else {
      MulLess(b, a, c);
    }
  }

  lemma DivAtMost(a: real, b: real, q: real)
    requires b > 0.0
    ensures a / b <= q <==> a <= q * b
  {
    DivTimes(a, b);
    Scaled(a / b, q, b);
  }

  lemma Cancel(a: real, b: real, c: real)
    requires c > 0.0 && a * c == b * c
    ensures a == b
  {
    if a < b {
      MulLess(a, b, c);
    } else if b < a {
      MulLess(b, a, c);
    }
  }

  lemma DivNotNegative(a: real, b: real)
    requires a >= 0.0 && b > 0.0
    ensures a / b >= 0.0
  {
    DivTimes(a, b);
    Scaled(0.0, a / b, b);
  }
}
