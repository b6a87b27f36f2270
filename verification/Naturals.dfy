/** Products and quotients of naturals by repeated addition and subtraction, so that proofs stay
    linear. */
module Naturals {
  function Times(i: nat, n: nat): nat {
    if i == 0 then 0 else Times(i - 1, n) + n
  }

  function Div(a: nat, m: nat): nat
    requires 0 < m
  {
    if a < m then 0 else 1 + Div(a - m, m)
  }

  function DivUp(a: nat, m: nat): nat
    requires 0 < m
  {
    Div(a + (m - 1), m)
  }

  /** They are the product and the quotient. */
  lemma {:induction false} TimesIsProduct(i: nat, n: nat)
    ensures Times(i, n) == i * n
  {
    if 0 < i {
      TimesIsProduct(i - 1, n);
      assert i * n == (i - 1) * n + n;
    }
  }

  lemma {:induction false} DivIsQuotient(a: nat, m: nat)
    requires 0 < m
    ensures Div(a, m) == a / m
  {
    if m <= a {
      DivIsQuotient(a - m, m);
      var q, r := (a - m) / m, (a - m) % m;
      assert a - m == m * q + r;
      assert m * (a / m - (q + 1)) == r - a % m;
      NoMultipleBetween(m, a / m - (q + 1), r - a % m);
    } else {
      NoMultipleBetween(m, a / m, a - a % m);
    }
  }

  /** A multiple of `m` strictly between `-m` and `m` is zero. */
  lemma NoMultipleBetween(m: int, d: int, product: int)
    requires product == m * d && -m < product < m
    ensures d == 0
  {
  }

  lemma {:induction false} TimesRight(i: nat, n: nat)
    ensures Times(i, n + 1) == Times(i, n) + i
  {
    if 0 < i { TimesRight(i - 1, n); }
  }

  lemma {:induction false} DivMonotone(a: nat, b: nat, m: nat)
    requires 0 < m && a <= b
    ensures Div(a, m) <= Div(b, m)
  {
    if m <= a { DivMonotone(a - m, b - m, m); }
  }

  lemma {:induction false} DivStep(a: nat, v: nat, m: nat)
    requires 0 < m
    ensures Div(v, m) <= Div(a + v, m) - Div(a, m) <= Div(v, m) + 1
  {
    if a < m {
      DivMonotone(v, a + v, m);
      DivMonotone(a + v, m + v, m);
    } else {
      DivStep(a - m, v, m);
    }
  }

  lemma {:induction false} DivOfMultiple(n: nat, m: nat, rest: nat)
    requires rest < m
    ensures Div(Times(m, n) + rest, m) == n
  {
    if n == 0 {
      TimesZero(m);
    } else {
      TimesRight(m, n - 1);
      DivOfMultiple(n - 1, m, rest);
    }
  }

  lemma {:induction false} TimesZero(i: nat)
    ensures Times(i, 0) == 0
  {
    if 0 < i { TimesZero(i - 1); }
  }

  lemma {:induction false} DivTimes(a: nat, m: nat)
    requires 0 < m
    ensures Div(a, m) * m <= a
  {
    if m <= a {
      DivTimes(a - m, m);
      assert (1 + Div(a - m, m)) * m == m + Div(a - m, m) * m;
    }
  }

  lemma Distribute(a: nat, b: nat, w: nat)
    ensures (a + b) * w == a * w + b * w
  {
  }
}
