/** Products and quotients the solver needs to be told about. */
module Division {
  lemma MulOrder(c: int, a: int, b: int)
    requires 1 <= c
    ensures a <= b ==> c * a <= c * b
    ensures a < b ==> c * a + c <= c * b
  {
    assert c * b == c * a + c * (b - a);
    if a < b {
      assert c * (b - a) == c * (b - a - 1) + c;
      NonNegative(c, b - a - 1);
    }
  }

  lemma NonNegative(x: int, y: int)
    requires 0 <= x && 0 <= y
    ensures 0 <= x * y
  {
  }

  lemma QuotientIsUnique(a: int, p: int, q: int, r: int)
    requires 1 <= p && a == p * q + r && 0 <= r < p
    ensures a / p == q
  {
    var d := a / p;
    assert a == p * d + a % p;
    MulOrder(p, d, q);
    MulOrder(p, q, d);
  }

  lemma DivideOut(n: int, p: int, l: int)
    requires 0 <= l && 1 <= p
    ensures (p * n + l) / p == n + l / p
  {
    assert p * (n + l / p) == p * n + p * (l / p);
    QuotientIsUnique(p * n + l, p, n + l / p, l % p);
  }

  lemma BelowQuotient(l: int, q: int, p: int)
    requires 0 <= l < q * p && 1 <= p
    ensures 0 <= l / p < q
  {
  }

  /** The largest multiple of `d` up to `n`. */
  function RoundDown(n: int, d: int): int
    requires 0 <= n && 1 <= d
  {
    if n < d then 0 else d + RoundDown(n - d, d)
  }

  lemma {:induction false} RoundDownIs(n: int, d: int)
    requires 0 <= n && 1 <= d
    ensures RoundDown(n, d) == d * (n / d)
  {
    if n < d {
      QuotientIsUnique(n, d, 0, n);
    } else {
      RoundDownIs(n - d, d);
      var q := (n - d) / d;
      assert n - d == d * q + (n - d) % d;
      assert d * (q + 1) == d * q + d;
      QuotientIsUnique(n, d, q + 1, (n - d) % d);
    }
  }

  /** Past a whole multiple, a partial step rounds back and a full one does not. */
  lemma {:induction false} RoundedPlus(n: int, d: int, r: int)
    requires 0 <= n && 1 <= d && n == RoundDown(n, d) && 0 <= r < d
    ensures RoundDown(n + r, d) == n && RoundDown(n + d, d) == n + d
  {
    if n >= d {
      RoundedPlus(n - d, d, r);
    }
  }
}
