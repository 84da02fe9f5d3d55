/** Remainders, as ring indices use them.

    The quotient and the remainder are determined by the division equation, so each law below
    is proved by naming both. */
module Modular {

  lemma MulGrows(d: int, n: int)
    requires d >= 1 && n >= 0
    ensures d * n >= n
  {
    assert d * n == n + (d - 1) * n;
    assert (d - 1) * n >= 0;
  }

  /** Quotient and remainder are determined by the division equation. */
  lemma DivModUnique(a: int, n: int, q: int, r: int)
    requires n > 0 && 0 <= r < n && a == q * n + r
    ensures a / n == q && a % n == r
  {
    var d := a / n - q;
    assert d * n == a / n * n - q * n;
    assert a == a / n * n + a % n;
    if d >= 1 {
      MulGrows(d, n);
    } else if d <= -1 {
      MulGrows(-d, n);
    }
  }

  lemma ModAdd(a: int, b: int, n: int)
    requires n > 0
    ensures (a % n + b) % n == (a + b) % n
  {
    var q, r := (a % n + b) / n, (a % n + b) % n;
    assert a == a / n * n + a % n;
    assert (a / n + q) * n == a / n * n + q * n;
    DivModUnique(a + b, n, a / n + q, r);
  }

  /** Positions less than `n` apart never share a slot. */
  lemma ModDistinct(k: int, m: int, n: int)
    requires n > 0 && k < m < k + n
    ensures k % n != m % n
  {
    var d := m / n - k / n;
    assert k == k / n * n + k % n && m == m / n * n + m % n;
    assert d * n == m / n * n - k / n * n;
    if d >= 1 {
      MulGrows(d, n);
    }
  }

  lemma ModSmall(a: int, n: int)
    requires 0 <= a < n
    ensures a % n == a && a / n == 0
  {
    DivModUnique(a, n, 0, a);
  }

  /** Counting on by one, within a round or into the next. */
  lemma CountOn(n: int, period: int)
    requires period > 0
    ensures n % period + 1 < period ==>
              (n + 1) / period == n / period && (n + 1) % period == n % period + 1
    ensures n % period + 1 == period ==>
              (n + 1) / period == n / period + 1 && (n + 1) % period == 0
  {
    var q, p := n / period, n % period;
    assert n == q * period + p;
    if p + 1 < period {
      DivModUnique(n + 1, period, q, p + 1);
    } else {
      assert (q + 1) * period == q * period + period;
      DivModUnique(n + 1, period, q + 1, 0);
    }
  }
}
