/** Facts about multiplication and division that the solver does not find by itself. */
module Arithmetic {

  /** The quotient rounded up. */
  function CeilDiv(a: int, b: int): (r: int)
    requires b > 0
    ensures a >= 0 ==> r >= 0
  {
    (a + b - 1) / b
  }

  lemma MulLe(a: int, b: int, n: int)
    requires a <= b && n >= 0
    ensures n * a <= n * b && a * n <= b * n
  {
  }

  lemma CancelLess(a: int, b: int, n: int)
    requires n * a < n * b && n >= 0
    ensures a < b
  {
    if b <= a {
      MulLe(b, a, n);
    }
  }

  /** `q` is the quotient of `a` by `b` when the remainder it leaves is in range. */
  lemma Quotient(a: nat, b: nat, q: nat)
    requires b > 0 && b * q <= a < b * q + b
    ensures a / b == q && (a == b * q ==> a % b == 0)
  {
    var d := a / b;
    assert a == b * d + a % b;
    CancelLess(d, q + 1, b);
    CancelLess(q, d + 1, b);
  }

  lemma DivIs(n: nat, d: nat, q: nat, r: nat)
    requires n == d * q + r && r < d
    ensures n / d == q && n % d == r
  {
    Quotient(n, d, q);
  }
}
