/**
 * Kotlin's integer division truncates toward zero, while Dafny's `/` on `int`
 * is Euclidean. The two agree on non-negative dividends.
 */
module KotlinInt {

  /** `a / b` on Kotlin Int or Long, for a positive divisor. */
  function TruncDiv(a: int, b: int): int
    requires b > 0
  {
    if a >= 0 then a / b else -((-a) / b)
  }

  /** On a non-negative dividend the quotient is the floor, with its usual bounds. */
  lemma TruncDivNonNegative(a: int, b: int)
    requires a >= 0 && b > 0
    ensures TruncDiv(a, b) == a / b
    ensures 0 <= TruncDiv(a, b) && b * TruncDiv(a, b) <= a < b * (TruncDiv(a, b) + 1)
  {
  }

  /** Dividing a larger dividend never gives a smaller quotient. */
  lemma TruncDivMonotonic(a: int, c: int, b: int)
    requires a <= c && b > 0
    ensures TruncDiv(a, b) <= TruncDiv(c, b)
  {
    if a >= 0 {
      DivMonotonic(a, c, b);
    } else if c >= 0 {
    } else {
      DivMonotonic(-c, -a, b);
    }
  }

  lemma DivMonotonic(a: int, c: int, b: int)
    requires 0 <= a <= c && b > 0
    ensures a / b <= c / b
  {
    assert b * (a / b) == b * (c / b) + b * (a / b - c / b);
    if a / b > c / b {
      MulAtLeast(b, a / b - c / b);
    }
  }

  /** b * k >= b when k >= 1 and b > 0. */
  lemma MulAtLeast(b: int, k: int)
    requires b > 0 && k >= 1
    ensures b * k >= b
  {
    assert b * k == b + b * (k - 1);
    assert b * (k - 1) >= 0;
  }

  /** The quotient and remainder are the only ones with 0 <= r < b. */
  lemma DivUnique(a: int, b: int, q: int, r: int)
    requires b > 0 && 0 <= r < b && a == b * q + r
    ensures a / b == q
  {
    var q' := a / b;
    var r' := a % b;
    assert b * q' + r' == b * q + r;
    assert b * q' == b * q + b * (q' - q);
    if q' > q {
      MulAtLeast(b, q' - q);
    } else if q > q' {
      MulAtLeast(b, q - q');
    }
  }

  /** Dividing by m and then by n is dividing by m * n (quotients truncate the same way). */
  lemma {:induction false} TruncDivTwice(a: int, m: int, n: int)
    requires m > 0 && n > 0
    ensures TruncDiv(TruncDiv(a, m), n) == TruncDiv(a, m * n)
  {
    MulPositive(m, n);
    if a >= 0 {
      DivTwice(a, m, n);
      TruncDivNonNegative(a, m);
    } else {
      var b := -a;
      var q := b / m;
      DivTwice(b, m, n);
      TruncDivNonNegative(b, m);
      assert TruncDiv(a, m) == -q;
      assert TruncDiv(a, m * n) == -(b / (m * n));
      if q == 0 {
        assert TruncDiv(-q, n) == 0 == q / n;
      } else {
        assert TruncDiv(-q, n) == -(q / n);
      }
    }
  }

  lemma DivTwice(a: int, m: int, n: int)
    requires a >= 0 && m > 0 && n > 0
    ensures (a / m) / n == a / (m * n)
  {
    var q := a / (m * n);
    var r := a % (m * n);
    QuotientBelow(r, m, n);
    Regroup(a, m, n, q, r);
    DivUnique(a, m, n * q + r / m, r % m);
    DivUnique(n * q + r / m, n, q, r / m);
  }

  /** A remainder below m * n has a quotient by m below n. */
  lemma QuotientBelow(r: int, m: int, n: int)
    requires m > 0 && n > 0 && 0 <= r < m * n
    ensures 0 <= r / m < n
  {
    var s := r / m;
    assert m * s <= r;
    assert m * s == m * n + m * (s - n);
    if s >= n {
      MulNonNegative(m, s - n);
    }
  }

  lemma MulPositive(a: int, b: int)
    requires a > 0 && b > 0
    ensures a * b > 0
  {
    MulAtLeast(a, b);
  }

  lemma MulNonNegative(a: int, b: int)
    requires a >= 0 && b >= 0
    ensures a * b >= 0
  {
  }

  /** a = (m*n)*q + r regroups as m*(n*q + r/m) + r%m. */
  lemma Regroup(a: int, m: int, n: int, q: int, r: int)
    requires m > 0 && a == (m * n) * q + r
    ensures a == m * (n * q + r / m) + r % m
  {
    assert r == m * (r / m) + r % m;
    assert m * (n * q + r / m) == (m * n) * q + m * (r / m);
  }
}
