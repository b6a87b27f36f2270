/** Sums and averages of lists of numbers: what is needed of them to speak of means and mean squares
    without dividing. */
module Averages {
  /** A square as a sum of odd numbers, so that proofs about sums of squares stay linear. */
  function Square(n: int): nat {
    Odds(if n < 0 then -n else n)
  }

  function Odds(n: nat): nat {
    if n == 0 then 0 else Odds(n - 1) + 2 * n - 1
  }

  lemma {:induction false} OddsAre(n: nat)
    ensures Odds(n) == n * n
  {
    if 0 < n {
      OddsAre(n - 1);
      assert n * n == (n - 1) * (n - 1) + 2 * n - 1;
    }
  }

  lemma SquareIs(n: int)
    ensures Square(n) == n * n
  {
    OddsAre(if n < 0 then -n else n);
    assert (-n) * (-n) == n * n;
  }

  lemma DoubleSquare(a: int)
    ensures Square(2 * a) == 4 * Square(a)
  {
    SquareIs(a);
    SquareIs(2 * a);
  }

  lemma Parallelogram(a: int, w: int)
    ensures Square(a - w) + Square(a + w) == 2 * (Square(a) + Square(w))
  {
    SquareIs(a);
    SquareIs(w);
    SquareIs(a - w);
    SquareIs(a + w);
    assert (a - w) * (a - w) == a * a - 2 * (a * w) + w * w;
    assert (a + w) * (a + w) == a * a + 2 * (a * w) + w * w;
  }

  lemma SquareOfSum(a: int, b: int)
    ensures Square(a + b) == Square(a) + 2 * (a * b) + Square(b)
  {
    SquareIs(a);
    SquareIs(b);
    SquareIs(a + b);
    assert (a + b) * (a + b) == a * a + 2 * (a * b) + b * b;
  }

  /** `n` times `a`. */
  function Many(n: nat, a: int): int {
    if n == 0 then 0 else Many(n - 1, a) + a
  }

  lemma {:induction false} ManyIs(n: nat, a: int)
    ensures Many(n, a) == n * a
  {
    if 0 < n {
      ManyIs(n - 1, a);
      assert n * a == (n - 1) * a + a;
    }
  }

  lemma {:induction false} ManySum(n: nat, a: int, b: int, c: int)
    requires a + b == c
    ensures Many(n, a) + Many(n, b) == Many(n, c)
  {
    if 0 < n { ManySum(n - 1, a, b, c); }
  }

  lemma {:induction false} ManyOrder(n: nat, a: int, b: int)
    requires a <= b
    ensures Many(n, a) <= Many(n, b) && Many(n, 0) == 0
  {
    if 0 < n { ManyOrder(n - 1, a, b); }
  }

  lemma {:induction false} ManyPlus(m: nat, n: nat, l: nat, a: int)
    requires l == m + n
    ensures Many(m, a) + Many(n, a) == Many(l, a)
    decreases n
  {
    if 0 < n { ManyPlus(m, n - 1, l - 1, a); }
  }

  /** Two of one number of times are twice as many times. */
  lemma {:induction false} ManyTwice(n: nat, m: nat, a: int, b: int, c: int)
    requires m == n + n && a + b <= 2 * c
    ensures Many(n, a) + Many(n, b) <= Many(m, c)
    ensures a + b == 2 * c ==> Many(n, a) + Many(n, b) == Many(m, c)
    decreases n
  {
    if 0 < n {
      ManyTwice(n - 1, m - 2, a, b, c);
      assert Many(m, c) == Many(m - 1, c) + c && Many(m - 1, c) == Many(m - 2, c) + c;
    }
  }

  // ---------------------------------------------------------------------------
  // Lists
  // ---------------------------------------------------------------------------

  function Sum(ns: seq<int>): int {
    if ns == [] then 0 else ns[0] + Sum(ns[1..])
  }

  /** The squares of how far the numbers are from `c`, added up. */
  function SquareSum(ns: seq<int>, c: int): nat {
    if ns == [] then 0 else Square(ns[0] - c) + SquareSum(ns[1..], c)
  }

  /** How far the numbers are from `c`, added up. */
  function Drift(ns: seq<int>, c: int): int {
    if ns == [] then 0 else (ns[0] - c) + Drift(ns[1..], c)
  }

  /** How far their squares are above `v`, added up. */
  function Excess(ns: seq<int>, c: int, v: int): int {
    if ns == [] then 0 else (Square(ns[0] - c) - v) + Excess(ns[1..], c, v)
  }

  /** The numbers are `c` on average, with mean square error at most `v`. */
  ghost predicate Balanced(ns: seq<int>, c: int, v: int) {
    ns != [] && Drift(ns, c) == 0 && Excess(ns, c, v) <= 0
  }

  lemma {:induction false} SumsAre(ns: seq<int>, c: int, v: int)
    ensures Drift(ns, c) == Sum(ns) - |ns| * c
    ensures Excess(ns, c, v) == SquareSum(ns, c) - |ns| * v
  {
    if ns != [] {
      SumsAre(ns[1..], c, v);
      assert |ns| * c == c + (|ns| - 1) * c && |ns| * v == v + (|ns| - 1) * v;
    }
  }

  /** What that says of the sums themselves. */
  lemma BalancedMeans(ns: seq<int>, c: int, v: int)
    requires Balanced(ns, c, v)
    ensures Sum(ns) == |ns| * c && SquareSum(ns, c) <= |ns| * v
  {
    SumsAre(ns, c, v);
  }

  // ---------------------------------------------------------------------------
  // How many are far off
  // ---------------------------------------------------------------------------

  predicate Far(n: int, c: int, t: nat) {
    n <= c - t || c + t <= n
  }

  /** How many of the numbers are `t` or more from `c`. */
  function CountFar(ns: seq<int>, c: int, t: nat): nat {
    if ns == [] then 0 else (if Far(ns[0], c, t) then 1 else 0) + CountFar(ns[1..], c, t)
  }

  lemma {:induction false} OddsGrow(m: nat, n: nat)
    requires m <= n
    ensures Odds(m) <= Odds(n)
    decreases n
  {
    if m < n { OddsGrow(m, n - 1); }
  }

  /** So many, each of which adds at least the square of `t`. */
  lemma {:induction false} FarAdds(ns: seq<int>, c: int, t: nat)
    ensures Many(CountFar(ns, c, t), Square(t)) <= SquareSum(ns, c)
  {
    if ns != [] {
      FarAdds(ns[1..], c, t);
      if Far(ns[0], c, t) { OddsGrow(t, if ns[0] < c then c - ns[0] else ns[0] - c); }
    }
  }

  lemma ScaleProduct(m: nat, far: nat, square: nat, squares: nat, limit: nat)
    requires far * square <= squares && m * squares <= limit
    ensures m * (far * square) <= limit
  {
    assert m * (far * square) <= m * squares;
  }

  /** A bound on the squares bounds how many are far off. */
  lemma FewAreFar(ns: seq<int>, c: int, t: nat, m: nat, limit: nat)
    requires m * SquareSum(ns, c) <= limit
    ensures m * (CountFar(ns, c, t) * (t * t)) <= limit
  {
    FarAdds(ns, c, t);
    ManyIs(CountFar(ns, c, t), Square(t));
    SquareIs(t);
    ScaleProduct(m, CountFar(ns, c, t), t * t, SquareSum(ns, c), limit);
  }

  lemma {:induction false} SumsConcat(a: seq<int>, b: seq<int>, c: int, v: int)
    ensures Drift(a + b, c) == Drift(a, c) + Drift(b, c)
    ensures Excess(a + b, c, v) == Excess(a, c, v) + Excess(b, c, v)
  {
    if a == [] {
      assert a + b == b;
    } else {
      SumsConcat(a[1..], b, c, v);
      assert (a + b)[1..] == a[1..] + b;
    }
  }

  lemma OneNumber(r: int, c: int, v: int)
    ensures Drift([r], c) == Many(1, r - c) && Excess([r], c, v) == Many(1, Square(r - c) - v)
  {
    assert [r][1..] == [];
  }

  // ---------------------------------------------------------------------------
  // Replacing each number by several that are it on average
  // ---------------------------------------------------------------------------

  /** The numbers are `r` on average. */
  ghost predicate MeanIs(ns: seq<int>, r: int, c: int) {
    Drift(ns, c) == Many(|ns|, r - c)
  }

  /** Their squares about `c` are, on average, at most `more` above that of `r`. */
  ghost predicate Within(ns: seq<int>, r: int, c: int, v: int, more: int) {
    Excess(ns, c, v) <= Many(|ns|, Square(r - c) + more - v)
  }

  lemma JoinMeans(a: seq<int>, b: seq<int>, p: int, q: int, r: int, c: int)
    requires |a| == |b| && p + q == 2 * r && MeanIs(a, p, c) && MeanIs(b, q, c)
    ensures MeanIs(a + b, r, c)
  {
    SumsConcat(a, b, c, 0);
    ManyTwice(|a|, |a + b|, p - c, q - c, r - c);
  }

  lemma JoinWithin(a: seq<int>, b: seq<int>, p: int, q: int, r: int, c: int, v: int, less: int, more: int)
    requires |a| == |b| && Square(p - c) + Square(q - c) <= 2 * (Square(r - c) + (more - less))
    requires Within(a, p, c, v, less) && Within(b, q, c, v, less)
    ensures Within(a + b, r, c, v, more)
  {
    SumsConcat(a, b, c, v);
    ManyTwice(|a|, |a + b|, Square(p - c) + less - v, Square(q - c) + less - v, Square(r - c) + more - v);
  }

  /** Lists, one for each number of `ns`, one after the other. */
  function Flat(lists: seq<seq<int>>): seq<int> {
    if lists == [] then [] else lists[0] + Flat(lists[1..])
  }

  lemma {:induction false} FlatMean(lists: seq<seq<int>>, ns: seq<int>, c: int, n: nat)
    requires |lists| == |ns| && forall i | 0 <= i < |ns| :: |lists[i]| == n && MeanIs(lists[i], ns[i], c)
    ensures Drift(Flat(lists), c) == Many(n, Drift(ns, c))
  {
    if ns == [] {
      ManyOrder(n, 0, 0);
    } else {
      FlatMean(lists[1..], ns[1..], c, n);
      SumsConcat(lists[0], Flat(lists[1..]), c, 0);
      ManySum(n, ns[0] - c, Drift(ns[1..], c), Drift(ns, c));
    }
  }

  lemma {:induction false} FlatWithin(lists: seq<seq<int>>, ns: seq<int>, c: int, n: nat, v: int, more: int, w: int)
    requires w == v + more
    requires |lists| == |ns| && forall i | 0 <= i < |ns| :: |lists[i]| == n && Within(lists[i], ns[i], c, w, more)
    ensures Excess(Flat(lists), c, w) <= Many(n, Excess(ns, c, v))
  {
    if ns == [] {
      ManyOrder(n, 0, 0);
    } else {
      FlatWithin(lists[1..], ns[1..], c, n, v, more, w);
      SumsConcat(lists[0], Flat(lists[1..]), c, w);
      ManyOrder(n, Square(ns[0] - c) + more - w, Square(ns[0] - c) - v);
      ManySum(n, Square(ns[0] - c) - v, Excess(ns[1..], c, v), Excess(ns, c, v));
    }
  }

  /** Each number of `ns` is replaced by `n` numbers that are it on average and whose squares are
      on average at most `more` above its own. */
  ghost predicate Scatters(lists: seq<seq<int>>, ns: seq<int>, c: int, n: nat, v: int, more: int) {
    && |lists| == |ns|
    && forall i | 0 <= i < |ns| :: |lists[i]| == n && MeanIs(lists[i], ns[i], c) && Within(lists[i], ns[i], c, v, more)
  }

  /** Replacing each number by as many that are it on average keeps the mean, and adds to the mean
      square error what each replacement adds. */
  lemma FlatBalanced(lists: seq<seq<int>>, ns: seq<int>, c: int, n: nat, v: int, more: int, w: int)
    requires 0 < n && w == v + more && Balanced(ns, c, v) && Scatters(lists, ns, c, n, w, more)
    ensures Balanced(Flat(lists), c, w)
  {
    FlatMean(lists, ns, c, n);
    FlatWithin(lists, ns, c, n, v, more, w);
    ManyOrder(n, Excess(ns, c, v), 0);
    assert |lists[0]| == n;
  }

  // ---------------------------------------------------------------------------
  // Adding to each number, and adding every two
  // ---------------------------------------------------------------------------

  function Shifted(ns: seq<int>, b: int): (r: seq<int>)
    ensures |r| == |ns| && forall i | 0 <= i < |r| :: r[i] == b + ns[i]
  {
    seq(|ns|, i requires 0 <= i < |ns| => b + ns[i])
  }

  lemma {:induction false} ShiftedSame(ns: seq<int>, b: int, c: int, d: int, v: int)
    requires d == c + b
    ensures Drift(Shifted(ns, b), d) == Drift(ns, c) && Excess(Shifted(ns, b), d, v) == Excess(ns, c, v)
  {
    if ns != [] {
      ShiftedSame(ns[1..], b, c, d, v);
      assert Shifted(ns, b)[1..] == Shifted(ns[1..], b);
      assert Shifted(ns, b)[0] - d == ns[0] - c;
    }
  }

  lemma ShiftedBalanced(ns: seq<int>, b: int, c: int, d: int, v: int)
    requires d == c + b && Balanced(ns, c, v)
    ensures Balanced(Shifted(ns, b), d, v)
  {
    ShiftedSame(ns, b, c, d, v);
  }

  function Cross(a: seq<int>, b: seq<int>): seq<int> {
    if a == [] then [] else Shifted(b, a[0]) + Cross(a[1..], b)
  }

  lemma Product(a: int, b: int, c: int)
    ensures a * (b + c) == a * b + a * c && a * 0 == 0
  {
  }

  lemma {:induction false} ShiftedSums(ns: seq<int>, b: int, c: int, d: int, e: int, v: int, w: int, u: int)
    requires e == c + d && u == v + w
    ensures Drift(Shifted(ns, b), e) == Many(|ns|, b - c) + Drift(ns, d)
    ensures Excess(Shifted(ns, b), e, u) ==
      Many(|ns|, Square(b - c) - v) + 2 * ((b - c) * Drift(ns, d)) + Excess(ns, d, w)
  {
    Product(b - c, 0, 0);
    if ns != [] {
      var p, q := b - c, ns[0] - d;
      ShiftedSums(ns[1..], b, c, d, e, v, w, u);
      assert Shifted(ns, b)[1..] == Shifted(ns[1..], b);
      assert Shifted(ns, b)[0] - e == p + q;
      SquareOfSum(p, q);
      Product(p, q, Drift(ns[1..], d));
    }
  }

  lemma ShiftedEvenly(ns: seq<int>, b: int, c: int, d: int, e: int, v: int, w: int, u: int)
    requires e == c + d && u == v + w && Drift(ns, d) == 0
    ensures Drift(Shifted(ns, b), e) == Many(|ns|, b - c)
    ensures Excess(Shifted(ns, b), e, u) == Many(|ns|, Square(b - c) - v) + Excess(ns, d, w)
  {
    ShiftedSums(ns, b, c, d, e, v, w, u);
    Product(b - c, 0, 0);
  }

  lemma {:induction false} CrossDrift(a: seq<int>, b: seq<int>, c: int, d: int, e: int)
    requires e == c + d && Drift(b, d) == 0
    ensures Drift(Cross(a, b), e) == Many(|b|, Drift(a, c))
  {
    if a == [] {
      ManyOrder(|b|, 0, 0);
    } else {
      CrossDrift(a[1..], b, c, d, e);
      ShiftedEvenly(b, a[0], c, d, e, 0, 0, 0);
      SumsConcat(Shifted(b, a[0]), Cross(a[1..], b), e, 0);
      ManySum(|b|, a[0] - c, Drift(a[1..], c), Drift(a, c));
    }
  }

  /** When the one list is right on average the errors of the two do not mix. */
  lemma {:induction false} CrossExcess(a: seq<int>, b: seq<int>, c: int, d: int, e: int, v: int, w: int, u: int)
    requires e == c + d && u == v + w && Drift(b, d) == 0
    ensures Excess(Cross(a, b), e, u) == Many(|b|, Excess(a, c, v)) + Many(|a|, Excess(b, d, w))
  {
    if a == [] {
      ManyOrder(|b|, 0, 0);
    } else {
      CrossExcess(a[1..], b, c, d, e, v, w, u);
      ShiftedEvenly(b, a[0], c, d, e, v, w, u);
      SumsConcat(Shifted(b, a[0]), Cross(a[1..], b), e, u);
      ManySum(|b|, Square(a[0] - c) - v, Excess(a[1..], c, v), Excess(a, c, v));
      ManyPlus(|a[1..]|, 1, |a|, Excess(b, d, w));
    }
  }

  /** Adding every two numbers adds the means and the bounds on the mean square errors. */
  lemma CrossBalanced(a: seq<int>, b: seq<int>, c: int, d: int, e: int, v: int, w: int, u: int)
    requires e == c + d && u == v + w && Balanced(a, c, v) && Balanced(b, d, w)
    ensures Balanced(Cross(a, b), e, u)
  {
    CrossDrift(a, b, c, d, e);
    CrossExcess(a, b, c, d, e, v, w, u);
    ManyOrder(|b|, Excess(a, c, v), 0);
    ManyOrder(|a|, Excess(b, d, w), 0);
    assert Shifted(b, a[0]) != [];
  }
}
