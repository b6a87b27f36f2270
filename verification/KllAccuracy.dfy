/** The mean square error of a KLL rank in terms of `k` and the number of items alone: its root is
    at most about `2.74 / k` of the count. */
module KllAccuracy {
  import opened Naturals
  import opened Averages
  import opened Sorting
  import opened KllCore
  import opened KllShape
  import opened KllHistory
  import opened KllChance
  import opened KllError

  // ---------------------------------------------------------------------------
  // Powers of two
  // ---------------------------------------------------------------------------

  /** Two to the power `d`. */
  function Two(d: nat): nat {
    Doubled(1, d)
  }

  lemma {:induction false} DoubledIsTwo(n: nat, d: nat)
    ensures Doubled(n, d) == n * Two(d)
  {
    if 0 < d {
      DoubledIsTwo(n, d - 1);
      TwiceProduct(n, Two(d - 1));
    }
  }

  lemma {:induction false} WeighIs(h: nat, n: nat)
    ensures Weigh(h, n) == Two(h) * n
  {
    if 0 < h {
      WeighIs(h - 1, n);
      assert (2 * Two(h - 1)) * n == 2 * (Two(h - 1) * n);
    }
  }

  lemma {:induction false} TwoPlus(h: nat, d: nat)
    ensures Two(h + d) == Two(h) * Two(d)
  {
    if 0 < d {
      TwoPlus(h, d - 1);
      TwiceProduct(Two(h), Two(d - 1));
    }
  }

  lemma {:induction false} FourfoldIs(h: nat, n: nat)
    ensures Fourfold(h, n) == Two(h) * Two(h) * n
  {
    if 0 < h {
      FourfoldIs(h - 1, n);
      var a := Two(h - 1);
      assert (2 * a) * (2 * a) * n == 4 * (a * a * n);
    }
  }

  lemma {:induction false} PowerFour(d: nat)
    ensures Power(4, d) == Two(d) * Two(d)
  {
    if 0 < d {
      PowerFour(d - 1);
      var a := Two(d - 1);
      assert (2 * a) * (2 * a) == 4 * (a * a);
    }
  }

  // ---------------------------------------------------------------------------
  // How narrow a level can be
  // ---------------------------------------------------------------------------

  lemma {:induction false} DivAbove(a: nat, m: nat)
    requires 0 < m
    ensures a < (Div(a, m) + 1) * m
  {
    if m <= a {
      DivAbove(a - m, m);
      assert (Div(a - m, m) + 2) * m == (Div(a - m, m) + 1) * m + m;
    }
  }

  lemma WidthAtLeast(k: nat, n: nat, h: nat)
    requires h < n
    ensures 2 * (Shrunk(k, n - h - 1) + 1) <= 5 * Width(k, n, h)
  {
  }

  lemma FifthsOf(g: nat, q: nat, w: nat, p: nat)
    requires g < (q + 1) * p && 2 * (q + 1) <= 5 * w
    ensures 2 * g <= 5 * w * p
  {
    Larger(2 * (q + 1), 5 * w, p);
    assert 2 * (q + 1) * p == 2 * ((q + 1) * p);
  }

  /** A level's width is at least four fifths of `k` times two thirds to the power of its depth. */
  lemma NarrowestWidth(k: nat, n: nat, h: nat, d: nat, w: nat, p: nat)
    requires h < n && d == n - h - 1 && w == Width(k, n, h) && p == Power(3, d)
    ensures 2 * Doubled(2 * k, d) <= 5 * w * p
  {
    DivAbove(Doubled(2 * k, d), p);
    WidthAtLeast(k, n, h);
    FifthsOf(Doubled(2 * k, d), Shrunk(k, d), w, p);
  }

  // ---------------------------------------------------------------------------
  // One level's part of the spread
  // ---------------------------------------------------------------------------

  lemma Identity(k: nat, top: nat, t: nat, a: nat, b: nat)
    ensures 4 * k * top * (a * a * t) * (b * b) == 2 * (2 * k * b) * (a * t) * (a * b * top)
  {
    assert 4 * k * top * (a * a * t) * (b * b) == (4 * k) * ((a * t) * (a * b * top)) * b;
    assert 2 * (2 * k * b) * (a * t) * (a * b * top) == (4 * k) * ((a * t) * (a * b * top)) * b;
  }

  lemma ProductBound(g: nat, w: nat, p: nat, y: nat, z: nat, n: nat)
    requires g <= 5 * w * p && y * w <= n && z <= n
    ensures g * y * z <= 5 * p * (n * n)
  {
    Larger(g, 5 * w * p, y);
    assert (5 * w * p) * y == 5 * p * (y * w);
    Larger(y * w, n, 5 * p);
    assert 5 * p * (y * w) == (y * w) * (5 * p);
    assert g * y <= n * (5 * p);
    Larger(g * y, n * (5 * p), z);
    Larger(z, n, n * (5 * p));
    assert n * (5 * p) * z == z * (n * (5 * p)) && n * (n * (5 * p)) == 5 * p * (n * n);
  }

  lemma LevelPart(k: nat, s: Shape, h: nat, top: nat, n: nat, d: nat)
    requires Sound(k, s) && h < |s.lens| && d == |s.lens| - h - 1 && n == MassOf(s.lens)
    requires Weigh(|s.lens| - 1, top) <= n
    ensures 4 * k * top * Fourfold(h, s.tally[h]) * Power(4, d) <= 5 * Power(3, d) * (n * n)
  {
    var t, a, b, w := s.tally[h], Two(h), Two(d), Width(k, |s.lens|, h);
    LevelSpent(k, s, h);
    WeighIs(h, t);
    WeighIs(|s.lens| - 1, top);
    TwoPlus(h, d);
    FourfoldIs(h, t);
    PowerFour(d);
    DoubledIsTwo(2 * k, d);
    NarrowestWidth(k, |s.lens|, h, d, w, Power(3, d));
    Identity(k, top, t, a, b);
    ProductBound(2 * (2 * k * b), w, Power(3, d), a * t, a * b * top, n);
  }

  // ---------------------------------------------------------------------------
  // All levels together
  // ---------------------------------------------------------------------------

  lemma PartsStep(m: nat, f: nat, u: nat, four: nat, three: nat, nn: nat)
    requires m * f * (4 * four) <= 5 * (3 * three) * nn && m * u * four <= 15 * nn * (four - three) && three <= four
    ensures m * (f + u) * (4 * four) <= 15 * nn * (4 * four - 3 * three)
  {
    assert m * (f + u) * (4 * four) == m * f * (4 * four) + 4 * (m * u * four);
    assert 15 * nn * (four - three) == 15 * (nn * four) - 15 * (nn * three);
    assert 15 * nn * (4 * four - 3 * three) == 60 * (nn * four) - 45 * (nn * three);
    assert 5 * (3 * three) * nn == 15 * (nn * three);
  }

  lemma {:induction false} ThreesBelow(d: nat)
    ensures Power(3, d) <= Power(4, d)
  {
    if 0 < d { ThreesBelow(d - 1); }
  }

  lemma {:induction false} FourfoldSum(h: nat, a: int, b: int, c: int)
    requires a + 4 * b == c
    ensures Fourfold(h, a) + Fourfold(h + 1, b) == Fourfold(h, c)
  {
    if 0 < h { FourfoldSum(h - 1, a, b, c); }
  }

  lemma {:induction false} FourfoldNat(h: nat, n: nat)
    ensures 0 <= Fourfold(h, n)
  {
    if 0 < h { FourfoldNat(h - 1, n); }
  }

  /** The spread of the levels from `h` up. */
  lemma {:induction false} SpreadFrom(k: nat, s: Shape, h: nat, top: nat, n: nat, d: nat)
    requires Sound(k, s) && h < |s.lens| && d == |s.lens| - h - 1 && n == MassOf(s.lens)
    requires Weigh(|s.lens| - 1, top) <= n
    ensures 0 <= Fourfold(h, Spread(s.tally[h..]))
    ensures 4 * k * top * Fourfold(h, Spread(s.tally[h..])) * Power(4, d) <= 15 * (n * n) * (Power(4, d) - Power(3, d))
    decreases d
  {
    FourfoldNat(h, Spread(s.tally[h..]));
    assert s.tally[h..][1..] == s.tally[h + 1..];
    if d == 0 {
      TopTally(k, s);
      assert Spread(s.tally[h..]) == 0;
      FourfoldIs(h, 0);
    } else {
      var f, u := Fourfold(h, s.tally[h]), Fourfold(h + 1, Spread(s.tally[h + 1..]));
      SpreadFrom(k, s, h + 1, top, n, d - 1);
      LevelPart(k, s, h, top, n, d);
      FourfoldNat(h, s.tally[h]);
      FourfoldSum(h, s.tally[h], Spread(s.tally[h + 1..]), Spread(s.tally[h..]));
      ThreesBelow(d - 1);
      PartsStep(4 * k * top, f, u, Power(4, d - 1), Power(3, d - 1), n * n);
    }
  }

  lemma CancelPower(m: nat, p: nat, q: nat, limit: nat)
    requires m * p <= limit * (p - q) && q <= p && 0 < p
    ensures m <= limit
  {
    assert limit * (p - q) == limit * p - limit * q;
    assert (limit + 1) * p == limit * p + p;
    Cancel(m, limit + 1, p);
  }

  lemma FlatSpread(k: nat, s: Shape)
    requires Sound(k, s) && |s.lens| == 1
    ensures Spread(s.tally) == 0
  {
    TopTally(k, s);
    assert s.tally[1..] == [];
  }

  /** The spread, in `k`, half the top capacity, and the number of items. */
  lemma SpreadBound(k: nat, s: Shape, top: nat, n: nat)
    requires Sound(k, s) && n == MassOf(s.lens) && top == Capacity(k, 1, 0) / 2
    ensures 4 * k * top * Spread(s.tally) <= 15 * (n * n)
  {
    var spread := Spread(s.tally);
    if |s.lens| == 1 {
      FlatSpread(k, s);
    } else {
      var d := |s.lens| - 1;
      TopWeighs(s.lens, top);
      SpreadFrom(k, s, 0, top, n, d);
      assert s.tally[0..] == s.tally;
      ThreesBelow(d);
      CancelPower(4 * k * top * spread, Power(4, d), Power(3, d), 15 * (n * n));
    }
  }

  lemma TopCapacity(k: nat)
    ensures Capacity(k, 1, 0) == if k < 8 then 8 else k
  {
    DivIsQuotient(2 * k, 1);
  }

  lemma Average(m: nat, squares: nat, size: nat, spread: nat, limit: nat)
    requires squares <= size * spread && m * spread <= limit
    ensures m * squares <= limit * size
  {
    Larger(squares, size * spread, m);
    assert m * (size * spread) == size * (m * spread);
    Larger(m * spread, limit, size);
  }

  lemma HalfOf(k: nat, top: nat)
    requires 0 < k <= 2 * top + 1
    ensures 2 * k * (k - 1) <= 4 * k * top
  {
    Larger(k - 1, 2 * top, 2 * k);
    assert (2 * top) * (2 * k) == 4 * k * top && (k - 1) * (2 * k) == 2 * k * (k - 1);
  }

  lemma FromSpread(k: nat, top: nat, squares: nat, size: nat, spread: nat, limit: nat)
    requires k <= 2 * top + 1 && squares <= size * spread && 4 * k * top * spread <= limit
    ensures 2 * k * (k - 1) * squares <= limit * size
  {
    Average(4 * k * top, squares, size, spread, limit);
    if 0 < k {
      HalfOf(k, top);
      Larger(2 * k * (k - 1), 4 * k * top, squares);
    }
  }

  lemma HistorySpread(k: nat, h: History, top: nat, n: nat)
    requires n == |Stream(h)| && top == Capacity(k, 1, 0) / 2
    ensures 4 * k * top * Spread(ShapeOf(k, h).tally) <= 15 * (n * n)
  {
    CountOf(k, h);
    HistorySound(k, h);
    SpreadBound(k, ShapeOf(k, h), top, n);
  }

  /** The sum of the squares, how many there are, and the spread that bounds them. */
  lemma SquaresOf(k: nat, h: History, x: int, squares: nat, size: nat, spread: nat)
    requires squares == SquareSum(Ranks(Outcomes(k, h), x), Below(Stream(h), x))
    requires size == |Outcomes(k, h)| && spread == Spread(ShapeOf(k, h).tally)
    ensures squares <= size * spread
  {
    RanksAreFair(k, h, x);
  }

  lemma HalfTop(k: nat) returns (top: nat)
    ensures top == Capacity(k, 1, 0) / 2 && k <= 2 * top + 1
  {
    TopCapacity(k);
    top := Capacity(k, 1, 0) / 2;
  }

  lemma ErrorBoundOf(k: nat, h: History, x: int, squares: nat, size: nat, n: nat, limit: nat)
    requires n == |Stream(h)| && limit == 15 * (n * n) && size == |Outcomes(k, h)|
    requires squares == SquareSum(Ranks(Outcomes(k, h), x), Below(Stream(h), x))
    ensures 2 * k * (k - 1) * squares <= limit * size
  {
    var spread := Spread(ShapeOf(k, h).tally);
    var top := HalfTop(k);
    SquaresOf(k, h, x, squares, size, spread);
    HistorySpread(k, h, top, n);
    FromSpread(k, top, squares, size, spread, limit);
  }

  lemma ErrorOf(k: nat, h: History, x: int, ranks: seq<int>, exact: int, n: nat)
    requires ranks == Ranks(Outcomes(k, h), x) && exact == Below(Stream(h), x) && n == |Stream(h)|
    ensures 2 * k * (k - 1) * SquareSum(ranks, exact) <= 15 * (n * n) * |ranks|
  {
    ErrorBoundOf(k, h, x, SquareSum(ranks, exact), |ranks|, n, 15 * (n * n));
  }

  /** For any history of any sketch, where merged sketches have flipped separate coins, and any
      probe: the square of its rank's error, averaged over all falls of the coins, is at most `7.5 n^2 / (k (k - 1))`. */
  lemma MeanSquareError(k: nat, h: History, x: int)
    ensures var ranks, exact, n := Ranks(Outcomes(k, h), x), Below(Stream(h), x), |Stream(h)|;
      2 * k * (k - 1) * SquareSum(ranks, exact) <= 15 * (n * n) * |ranks|
  {
    ErrorOf(k, h, x, Ranks(Outcomes(k, h), x), Below(Stream(h), x), |Stream(h)|);
  }

  lemma NonNegative(k: nat)
    ensures 0 <= 2 * k * (k - 1) && 0 <= 8 * k * (k - 1)
  {
    if 0 < k { assert 0 <= k * (k - 1); }
  }

  lemma FarOf(k: nat, ranks: seq<int>, exact: int, n: nat, t: nat)
    requires 2 * k * (k - 1) * SquareSum(ranks, exact) <= 15 * (n * n) * |ranks|
    ensures 2 * k * (k - 1) * (CountFar(ranks, exact, t) * (t * t)) <= 15 * (n * n) * |ranks|
  {
    NonNegative(k);
    FewAreFar(ranks, exact, t, 2 * k * (k - 1), 15 * (n * n) * |ranks|);
  }

  /** How often a rank is off by `t` or more: for at most `7.5 (n / t)^2 / (k (k - 1))` of all falls
      of the coins. */
  lemma FarIsRare(k: nat, h: History, x: int, t: nat)
    ensures var ranks, exact, n := Ranks(Outcomes(k, h), x), Below(Stream(h), x), |Stream(h)|;
      2 * k * (k - 1) * (CountFar(ranks, exact, t) * (t * t)) <= 15 * (n * n) * |ranks|
  {
    MeanSquareError(k, h, x);
    FarOf(k, Ranks(Outcomes(k, h), x), Below(Stream(h), x), |Stream(h)|, t);
  }

  lemma CountOf(k: nat, h: History)
    ensures MassOf(ShapeOf(k, h).lens) == |Stream(h)|
  {
    EverySketchPromises(k, h, 0);
    HistoryHas(k, h);
    LensWeigh(Build(k, h).core.levels);
  }
}
