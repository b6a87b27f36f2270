/** Mean square errors of numbers that may depend on each other: adding two lists number by number,
    the errors may mix, but no more than the counts they are errors of. */
module SharedErrors {
  import opened Averages

  /** The numbers are `c` on average, and `m` times their mean square error is at most `num`. */
  ghost predicate Near(ns: seq<int>, c: int, m: nat, num: int) {
    Drift(ns, c) == 0 && Many(m, SquareSum(ns, c)) <= Many(|ns|, num)
  }

  lemma NearMore(ns: seq<int>, c: int, m: nat, num: int, more: int)
    requires Near(ns, c, m, num) && num <= more
    ensures Near(ns, c, m, more)
  {
    ManyOrder(|ns|, num, more);
  }

  lemma {:induction false} ExcessIs(ns: seq<int>, c: int, v: int)
    ensures Excess(ns, c, v) == SquareSum(ns, c) - Many(|ns|, v)
  {
    if ns != [] { ExcessIs(ns[1..], c, v); }
  }

  lemma NearShifted(ns: seq<int>, b: int, c: int, d: int, m: nat, num: int)
    requires d == c + b && Near(ns, c, m, num)
    ensures Near(Shifted(ns, b), d, m, num)
  {
    ShiftedSame(ns, b, c, d, 0);
    ExcessIs(ns, c, 0);
    ExcessIs(Shifted(ns, b), d, 0);
  }

  /** All numbers are right. */
  lemma {:induction false} NearExact(ns: seq<int>, c: int, m: nat, num: nat)
    requires forall i | 0 <= i < |ns| :: ns[i] == c
    ensures SquareSum(ns, c) == 0 && Near(ns, c, m, num)
  {
    ManyOrder(m, 0, 0);
    ManyOrder(|ns|, 0, num);
    if ns != [] { NearExact(ns[1..], c, m, num); }
  }

  // ---------------------------------------------------------------------------
  // Replacing each number by several
  // ---------------------------------------------------------------------------

  lemma {:induction false} FlatLength(lists: seq<seq<int>>, n: nat)
    requires forall i | 0 <= i < |lists| :: |lists[i]| == n
    ensures |Flat(lists)| == |lists| * n
  {
    if lists != [] {
      FlatLength(lists[1..], n);
      assert |lists| * n == n + (|lists| - 1) * n;
    }
  }

  lemma {:induction false} ManySwap(m: nat, n: nat, a: int)
    ensures Many(m, Many(n, a)) == Many(n, Many(m, a))
  {
    if m == 0 {
      ManyOrder(n, 0, 0);
    } else {
      ManySwap(m - 1, n, a);
      ManySum(n, Many(m - 1, a), a, Many(m, a));
    }
  }

  lemma {:induction false} ManyOfMany(n: nat, size: nat, length: nat, a: int)
    requires length == size * n
    ensures Many(n, Many(size, a)) == Many(length, a)
    decreases n
  {
    if 0 < n {
      assert size * n == size * (n - 1) + size;
      ManyOfMany(n - 1, size, length - size, a);
      ManyPlus(length - size, size, length, a);
    }
  }

  /** Each number is replaced by `n` that are it on average, and whose mean square error is `more`. */
  lemma NearFlat(lists: seq<seq<int>>, ns: seq<int>, c: int, n: nat, more: int, m: nat, num: int, grown: int)
    requires Near(ns, c, m, num) && Scatters(lists, ns, c, n, more, more) && Many(m, more) + num <= grown
    ensures Near(Flat(lists), c, m, grown)
  {
    FlatMean(lists, ns, c, n);
    ManyOrder(n, 0, 0);
    FlatWithin(lists, ns, c, n, 0, more, more);
    FlatLength(lists, n);
    ExcessIs(ns, c, 0);
    ManyOrder(|ns|, 0, 0);
    ExcessIs(Flat(lists), c, more);
    ManyOfMany(n, |ns|, |Flat(lists)|, num);
    FlatProducts(m, n, |Flat(lists)|, SquareSum(ns, c), SquareSum(Flat(lists), c), more, num, grown,
      Many(m, SquareSum(ns, c)), Many(|ns|, num), Many(m, more), Many(n, SquareSum(ns, c)), Many(|Flat(lists)|, more));
  }

  lemma ManyBoth(m: nat, before: int, extra: int, after: int)
    requires after <= before + extra
    ensures Many(m, after) <= Many(m, before) + Many(m, extra)
  {
    var sum := before + extra;
    ManyOrder(m, after, sum);
    ManySum(m, before, extra, sum);
  }

  lemma ManyInside(m: nat, n: nat, a: int, inner: int, outer: int)
    requires inner == Many(n, a) && outer == Many(m, a)
    ensures Many(m, inner) == Many(n, outer)
  {
    ManySwap(m, n, a);
  }

  /** What `m` times the squares come to, and `m` times what is added to each. */
  lemma ScaledSum(m: nat, n: nat, length: nat, squares: int, more: int, before: int, extra: int, scaled: int, change: int, after: int)
    requires before == Many(n, squares) && extra == Many(length, more) && after <= before + extra
    requires scaled == Many(m, squares) && change == Many(m, more)
    ensures Many(m, after) <= Many(n, scaled) + Many(length, change)
  {
    ManyBoth(m, before, extra, after);
    ManyInside(m, n, squares, before, scaled);
    ManyInside(m, length, more, extra, change);
  }

  lemma ManyRest(length: nat, change: int, num: int, grown: int)
    requires change + num <= grown
    ensures Many(length, num) + Many(length, change) <= Many(length, grown)
  {
    var sum := change + num;
    ManyOrder(length, sum, grown);
    ManySum(length, num, change, sum);
  }

  lemma ScaledParts(n: nat, length: nat, scaled: int, limit: int, change: int, num: int, grown: int)
    requires scaled <= limit && Many(n, limit) == Many(length, num) && change + num <= grown
    ensures Many(n, scaled) + Many(length, change) <= Many(length, grown)
  {
    ManyOrder(n, scaled, limit);
    ManyRest(length, change, num, grown);
  }

  lemma FlatProducts(m: nat, n: nat, length: nat, squares: int, after: int, more: int, num: int, grown: int,
                     scaled: int, limit: int, change: int, before: int, extra: int)
    requires scaled == Many(m, squares) && change == Many(m, more) && before == Many(n, squares) && extra == Many(length, more)
    requires Many(n, limit) == Many(length, num) && scaled <= limit && after <= before + extra && change + num <= grown
    ensures Many(m, after) <= Many(length, grown)
  {
    ScaledSum(m, n, length, squares, more, before, extra, scaled, change, after);
    ScaledParts(n, length, scaled, limit, change, num, grown);
  }

  // ---------------------------------------------------------------------------
  // Adding number by number
  // ---------------------------------------------------------------------------

  function Summed(a: seq<int>, b: seq<int>): (r: seq<int>)
    requires |a| == |b|
    ensures |r| == |a| && forall i | 0 <= i < |r| :: r[i] == a[i] + b[i]
  {
    seq(|a|, i requires 0 <= i < |a| => a[i] + b[i])
  }

  lemma {:induction false} SummedDrift(a: seq<int>, b: seq<int>, c: int, d: int, e: int)
    requires |a| == |b| && e == c + d
    ensures Drift(Summed(a, b), e) == Drift(a, c) + Drift(b, d)
  {
    if a != [] {
      SummedDrift(a[1..], b[1..], c, d, e);
      assert Summed(a, b)[1..] == Summed(a[1..], b[1..]);
    }
  }

  /** The square of a sum, against the squares of its parts. */
  lemma MixedSquare(p: int, q: int, i: nat, j: nat)
    ensures i * j * ((p + q) * (p + q)) <= (i + j) * (j * (p * p) + i * (q * q))
  {
    var u := j * p - i * q;
    assert 0 <= u * u;
    assert u * u == j * j * (p * p) - 2 * (i * j * (p * q)) + i * i * (q * q);
    assert (i + j) * (j * (p * p) + i * (q * q)) == i * j * (p * p) + i * i * (q * q) + j * j * (p * p) + i * j * (q * q);
    assert i * j * ((p + q) * (p + q)) == i * j * (p * p) + 2 * (i * j * (p * q)) + i * j * (q * q);
  }

  lemma MixedStep(i: nat, j: nat, all: int, s: int, t: int, left: int, x: int, u: int, right: int, y: int, z: int)
    requires all == s + t && left == x + u && right == y + z
    requires i * j * s <= (i + j) * (j * x + i * y) && i * j * t <= (i + j) * (j * u + i * z)
    ensures i * j * all <= (i + j) * (j * left + i * right)
  {
    assert i * j * (s + t) == i * j * s + i * j * t;
    assert j * (x + u) + i * (y + z) == (j * x + i * y) + (j * u + i * z);
    assert (i + j) * ((j * x + i * y) + (j * u + i * z)) == (i + j) * (j * x + i * y) + (i + j) * (j * u + i * z);
  }

  lemma MixedSquares(p: int, q: int, i: nat, j: nat)
    ensures i * j * Square(p + q) <= (i + j) * (j * Square(p) + i * Square(q))
  {
    MixedSquare(p, q, i, j);
    SquareIs(p);
    SquareIs(q);
    SquareIs(p + q);
  }

  lemma SummedFirst(a: seq<int>, b: seq<int>, c: int, d: int, e: int)
    requires |a| == |b| && a != [] && e == c + d
    ensures SquareSum(Summed(a, b), e) == Square((a[0] - c) + (b[0] - d)) + SquareSum(Summed(a[1..], b[1..]), e)
  {
    assert Summed(a, b)[1..] == Summed(a[1..], b[1..]);
    assert Summed(a, b)[0] - e == (a[0] - c) + (b[0] - d);
  }

  lemma {:induction false} SummedSquares(a: seq<int>, b: seq<int>, c: int, d: int, e: int, i: nat, j: nat)
    requires |a| == |b| && e == c + d
    ensures i * j * SquareSum(Summed(a, b), e) <= (i + j) * (j * SquareSum(a, c) + i * SquareSum(b, d))
  {
    if a != [] {
      var p, q := a[0] - c, b[0] - d;
      SummedSquares(a[1..], b[1..], c, d, e, i, j);
      SummedFirst(a, b, c, d, e);
      MixedSquares(p, q, i, j);
      MixedStep(i, j, SquareSum(Summed(a, b), e), Square(p + q), SquareSum(Summed(a[1..], b[1..]), e),
        SquareSum(a, c), Square(p), SquareSum(a[1..], c), SquareSum(b, d), Square(q), SquareSum(b[1..], d));
    }
  }

  lemma {:induction false} SummedToExact(a: seq<int>, b: seq<int>, c: int, d: int, e: int)
    requires |a| == |b| && e == c + d
    ensures SquareSum(a, c) == 0 ==> SquareSum(Summed(a, b), e) == SquareSum(b, d)
    ensures SquareSum(b, d) == 0 ==> SquareSum(Summed(a, b), e) == SquareSum(a, c)
  {
    if a != [] {
      SummedToExact(a[1..], b[1..], c, d, e);
      SummedFirst(a, b, c, d, e);
      NoSquare(a[0] - c);
      NoSquare(b[0] - d);
    }
  }

  lemma NoSquare(p: int)
    ensures Square(p) == 0 ==> p == 0
  {
    SquareIs(p);
  }

  lemma Scale(a: int, b: int, c: nat)
    requires a <= b
    ensures a * c <= b * c
  {
  }

  lemma CancelFactor(a: int, b: int, c: nat)
    requires a * c <= b * c && 0 < c
    ensures a <= b
  {
    assert (b + 1) * c == b * c + c;
    if b < a { Scale(b + 1, a, c); }
  }

  lemma PartsBound(size: nat, i: nat, j: nat, x: nat, y: nat, f: nat, g: nat, bound: nat)
    requires x <= size * (15 * i * f) && y <= size * (15 * j * g) && bound == 15 * size * (f + g)
    ensures j * x + i * y <= bound * (i * j)
  {
    Scale(x, size * (15 * i * f), j);
    Scale(y, size * (15 * j * g), i);
    assert size * (15 * i * f) * j == (15 * size * f) * (i * j);
    assert size * (15 * j * g) * i == (15 * size * g) * (i * j);
    assert (15 * size * f + 15 * size * g) * (i * j) == (15 * size * f) * (i * j) + (15 * size * g) * (i * j);
    assert 15 * size * (f + g) == 15 * size * f + 15 * size * g;
  }

  lemma ScaledMix(m: nat, i: nat, j: nat, squares: nat, x: nat, y: nat)
    requires i * j * squares <= (i + j) * (j * x + i * y)
    ensures (m * squares) * (i * j) <= (i + j) * (j * (m * x) + i * (m * y))
  {
    Scale(i * j * squares, (i + j) * (j * x + i * y), m);
    assert i * j * squares * m == (m * squares) * (i * j);
    assert (j * x + i * y) * m == j * (m * x) + i * (m * y);
    assert (i + j) * (j * x + i * y) * m == (i + j) * ((j * x + i * y) * m);
  }

  lemma MixBound(n: nat, part: nat, bound: nat, c: nat, scaled: nat)
    requires scaled * c <= n * part && part <= bound * c && 0 < c
    ensures scaled <= n * bound
  {
    Scale(part, bound * c, n);
    assert bound * c * n == (n * bound) * c && part * n == n * part;
    CancelFactor(scaled, n * bound, c);
  }

  lemma Positive(i: nat, j: nat)
    requires 0 < i && 0 < j
    ensures 0 < i * j
  {
  }

  lemma Regroup(size: nat, n: nat, h: nat)
    ensures n * (15 * size * h) == size * (15 * n * h)
  {
    assert n * (15 * size * h) == 15 * (n * size * h) == size * (15 * n * h);
  }

  lemma MixedBound(size: nat, i: nat, j: nat, n: nat, squares: nat, x: nat, y: nat, f: nat, g: nat, h: nat)
    requires 0 < i && 0 < j && n == i + j && h == f + g && squares * (i * j) <= n * (j * x + i * y)
    requires x <= size * (15 * i * f) && y <= size * (15 * j * g)
    ensures squares <= size * (15 * n * h)
  {
    Positive(i, j);
    PartsBound(size, i, j, x, y, f, g, 15 * size * h);
    MixBound(n, j * x + i * y, 15 * size * h, i * j, squares);
    Regroup(size, n, h);
  }

  lemma ManyProduct(size: nat, i: nat, f: nat, num: int)
    requires num == Many(15 * i, f)
    ensures num == 15 * i * f && Many(size, num) == size * (15 * i * f)
  {
    ManyIs(15 * i, f);
    ManyIs(size, num);
  }

  lemma ManyMixed(size: nat, i: nat, j: nat, n: nat, squares: nat, x: nat, y: nat, f: nat, g: nat, h: nat, p: int, q: int, num: int)
    requires 0 < i && 0 < j && n == i + j && h == f + g && squares * (i * j) <= n * (j * x + i * y)
    requires p == Many(15 * i, f) && q == Many(15 * j, g) && num == Many(15 * n, h)
    requires x <= Many(size, p) && y <= Many(size, q)
    ensures squares <= Many(size, num)
  {
    ManyProduct(size, i, f, p);
    ManyProduct(size, j, g, q);
    ManyProduct(size, n, h, num);
    MixedBound(size, i, j, n, squares, x, y, f, g, h);
  }

  lemma ScaledMany(m: nat, s: nat, squares: int)
    requires squares == Many(m, s)
    ensures 0 <= squares == m * s
  {
    ManyIs(m, s);
    ManyOrder(m, 0, s);
  }

  lemma ScaledTerms(m: nat, i: nat, j: nat, n: nat, s: nat, t: nat, u: nat, squares: int, x: int, y: int)
    requires n == i + j && i * j * s <= (i + j) * (j * t + i * u)
    requires squares == m * s && x == m * t && y == m * u
    ensures squares * (i * j) <= n * (j * x + i * y)
  {
    ScaledMix(m, i, j, s, t, u);
  }

  lemma ScaledSquares(a: seq<int>, b: seq<int>, c: int, d: int, e: int, m: nat, i: nat, j: nat, n: nat, squares: int, x: int, y: int)
    requires |a| == |b| && e == c + d && n == i + j
    requires squares == Many(m, SquareSum(Summed(a, b), e)) && x == Many(m, SquareSum(a, c)) && y == Many(m, SquareSum(b, d))
    ensures 0 <= squares && 0 <= x && 0 <= y && squares * (i * j) <= n * (j * x + i * y)
  {
    var s, t, u := SquareSum(Summed(a, b), e), SquareSum(a, c), SquareSum(b, d);
    SummedSquares(a, b, c, d, e, i, j);
    ScaledMany(m, s, squares);
    ScaledMany(m, t, x);
    ScaledMany(m, u, y);
    ScaledTerms(m, i, j, n, s, t, u, squares, x, y);
  }

  lemma NothingLeft(m: nat, size: nat, squares: nat)
    requires Many(m, squares) <= Many(size, 0) && 0 < m
    ensures squares == 0
  {
    ManyOrder(size, 0, 0);
    ManyOrder(m - 1, 0, squares);
  }

  lemma NumGrows(j: nat, n: nat, g: nat, h: nat)
    requires j <= n && g <= h
    ensures Many(15 * j, g) <= Many(15 * n, h)
  {
    ManyOrder(15 * j, g, h);
    ManyPlus(15 * j, 15 * (n - j), 15 * n, h);
    ManyOrder(15 * (n - j), 0, h);
  }

  /** How close the sums of two lists' numbers are, one of `i` items and one of `j`. */
  lemma NearSummed(a: seq<int>, b: seq<int>, c: int, d: int, e: int, m: nat,
                   i: nat, j: nat, n: nat, f: nat, g: nat, h: nat, p: int, q: int, num: int)
    requires |a| == |b| && e == c + d && n == i + j && h == f + g
    requires p == Many(15 * i, f) && q == Many(15 * j, g) && num == Many(15 * n, h)
    requires Near(a, c, m, p) && Near(b, d, m, q)
    ensures Near(Summed(a, b), e, m, num)
  {
    SummedDrift(a, b, c, d, e);
    SummedToExact(a, b, c, d, e);
    NumGrows(i, n, f, h);
    NumGrows(j, n, g, h);
    if m == 0 {
      ManyOrder(15 * n, 0, h);
      ManyOrder(|a|, 0, num);
    } else if i == 0 {
      NothingLeft(m, |a|, SquareSum(a, c));
      ManyOrder(|a|, q, num);
    } else if j == 0 {
      NothingLeft(m, |a|, SquareSum(b, d));
      ManyOrder(|a|, p, num);
    } else {
      var squares, x, y := Many(m, SquareSum(Summed(a, b), e)), Many(m, SquareSum(a, c)), Many(m, SquareSum(b, d));
      ScaledSquares(a, b, c, d, e, m, i, j, n, squares, x, y);
      ManyMixed(|a|, i, j, n, squares, x, y, f, g, h, p, q, num);
    }
  }
}
