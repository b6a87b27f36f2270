/** Averages over all outcomes of a KLL sketch's coins: each rank's mean is exact, and its mean
    square error is at most the sum of `4^h` over the compactions done. */
module KllError {
  import opened Wrappers
  import opened Averages
  import opened Sorting
  import opened KllCore
  import opened KllShape
  import opened KllHistory
  import opened KllChance
  import KllIngest

  /** The rank of a probe in each stack of a list. */
  function Ranks(list: seq<Levels>, x: int): (r: seq<int>)
    ensures |r| == |list| && forall i | 0 <= i < |r| :: r[i] == Rank(list[i], x)
  {
    seq(|list|, i requires 0 <= i < |list| => Rank(list[i], x))
  }

  // ---------------------------------------------------------------------------
  // The sum of `4^h` over compactions
  // ---------------------------------------------------------------------------

  function Spread(tally: seq<nat>): nat {
    if tally == [] then 0 else tally[0] + 4 * Spread(tally[1..])
  }

  function Fourfold(h: nat, n: int): int {
    if h == 0 then n else 4 * Fourfold(h - 1, n)
  }

  lemma {:induction false} UpdateSpread(tally: seq<nat>, h: nat, n: nat)
    requires h < |tally|
    ensures Spread(tally[h := n]) == Spread(tally) + Fourfold(h, n - tally[h])
  {
    if h == 0 {
      assert tally[0 := n][1..] == tally[1..];
    } else {
      UpdateSpread(tally[1..], h - 1, n);
      assert tally[h := n][1..] == tally[1..][h - 1 := n];
    }
  }

  lemma {:induction false} ZeroSpread(tally: seq<nat>)
    ensures Spread(tally + [0]) == Spread(tally)
  {
    if tally == [] {
      assert (tally + [0])[1..] == [];
    } else {
      ZeroSpread(tally[1..]);
      assert (tally + [0])[1..] == tally[1..] + [0];
    }
  }

  lemma FlipSpread(s: Shape, h: nat)
    requires h < |s.lens| == |s.tally|
    ensures Spread(FlipShape(s, h).tally) == Spread(s.tally) + Fourfold(h, 1)
  {
    ZeroSpread(s.tally);
    UpdateSpread(Extended(s.tally, h), h, s.tally[h] + 1);
  }

  lemma {:induction false} SumSpread(a: seq<nat>, b: seq<nat>)
    ensures Spread(KllShape.Sum(a, b)) == Spread(a) + Spread(b)
    decreases |a| + |b|
  {
    if a != [] || b != [] {
      SumSpread(Rest(a), Rest(b));
      assert KllShape.Sum(a, b)[1..] == KllShape.Sum(Rest(a), Rest(b)) by {
        assert forall h | 0 <= h < |KllShape.Sum(a, b)| - 1 :: At(a, h + 1) == At(Rest(a), h) && At(b, h + 1) == At(Rest(b), h);
      }
    }
  }

  lemma {:induction false} WeighSquare(h: nat)
    ensures Square(Weigh(h, 1)) == Fourfold(h, 1)
  {
    if 0 < h {
      WeighSquare(h - 1);
      DoubleSquare(Weigh(h - 1, 1));
    }
  }

  // ---------------------------------------------------------------------------
  // One coin
  // ---------------------------------------------------------------------------

  /** What the two falls of a coin make of a rank. */
  ghost predicate Falls(levels: Levels, h: nat, x: int, heads: int, tails: int, r: int)
    requires h < |levels|
  {
    heads == Rank(Compact(levels, h, true), x) && tails == Rank(Compact(levels, h, false), x) && r == Rank(levels, x)
  }

  /** A coin leaves a rank as it is, or moves it by the level's weight, one way or the other. */
  lemma CoinRanks(levels: Levels, h: nat, x: int, heads: int, tails: int, r: int, w: int)
    requires h < |levels| && Sorted(levels[h]) && Falls(levels, h, x, heads, tails, r) && w == Weigh(h, 1)
    ensures (heads == r && tails == r) || (heads == r - w && tails == r + w)
  {
    CompactRank(levels, h, true, x);
    CompactRank(levels, h, false, x);
    WeighOrder(h, 0, 0);
    WeighSum(h, 1, -1);
  }

  lemma TwoSquares(r: int, w: int, f: int, heads: int, tails: int, c: int)
    requires Square(w) == f && ((heads == r && tails == r) || (heads == r - w && tails == r + w))
    ensures Square(heads - c) + Square(tails - c) <= 2 * (Square(r - c) + f)
  {
    Parallelogram(r - c, w);
    assert heads == r - w ==> heads - c == (r - c) - w;
    assert tails == r + w ==> tails - c == (r - c) + w;
  }

  /** Over the two falls of one coin the mean square error grows by at most `4^h`. */
  lemma CoinSquares(levels: Levels, h: nat, x: int, heads: int, tails: int, r: int, f: int, c: int)
    requires h < |levels| && Sorted(levels[h]) && Falls(levels, h, x, heads, tails, r) && f == Fourfold(h, 1)
    ensures Square(heads - c) + Square(tails - c) <= 2 * (Square(r - c) + f)
  {
    CoinRanks(levels, h, x, heads, tails, r, Weigh(h, 1));
    WeighSquare(h);
    TwoSquares(r, Weigh(h, 1), f, heads, tails, c);
  }

  // ---------------------------------------------------------------------------
  // Settling one stack
  // ---------------------------------------------------------------------------

  lemma BranchesOf(k: nat, levels: Levels, h: nat)
    requires AllSorted(levels) && h < |levels| && Full(k, levels, h)
    ensures var a, b := Compact(levels, h, true), Compact(levels, h, false);
      && AllSorted(a) && AllSorted(b) && |Settles(k, a)| == |Settles(k, b)|
      && Retained(a) < Retained(levels) && Retained(b) < Retained(levels)
      && Lens(a) == Lens(b) == CompactLens(Lens(levels), h)
  {
    CompactKeeps(levels, h, true);
    CompactKeeps(levels, h, false);
    CompactSorted(levels, h, true);
    CompactSorted(levels, h, false);
    CompactHas(levels, h, true);
    CompactHas(levels, h, false);
    SameCount(k, Compact(levels, h, true), Compact(levels, h, false));
  }

  lemma RanksConcat(a: seq<Levels>, b: seq<Levels>, x: int)
    ensures Ranks(a + b, x) == Ranks(a, x) + Ranks(b, x)
  {
  }

  lemma RanksSplit(k: nat, levels: Levels, h: nat, x: int)
    requires AllSorted(levels) && FirstFull(k, levels, 0) == Some(h)
    ensures var a, b := Compact(levels, h, true), Compact(levels, h, false);
      && Ranks(Settles(k, levels), x) == Ranks(Settles(k, a), x) + Ranks(Settles(k, b), x)
      && |Ranks(Settles(k, a), x)| == |Ranks(Settles(k, b), x)|
  {
    BranchesOf(k, levels, h);
    SettlesSplit(k, levels, h);
    RanksConcat(Settles(k, Compact(levels, h, true)), Settles(k, Compact(levels, h, false)), x);
  }

  /** What settling a shape adds to the spread. */
  function Added(k: nat, s: Shape): int
    requires |s.lens| == |s.tally|
  {
    Spread(SettleShape(k, s).tally) - Spread(s.tally)
  }

  lemma AddedStep(k: nat, s: Shape, h: nat)
    requires |s.lens| == |s.tally| && FirstFullAt(k, s.lens, 0) == Some(h)
    ensures Added(k, s) == Added(k, FlipShape(s, h)) + Fourfold(h, 1)
  {
    FlipSpread(s, h);
    CompactMassOf(s.lens, h);
  }

  /** Settling keeps the mean of every rank. */
  lemma {:induction false} SettlesMean(k: nat, levels: Levels, x: int, c: int)
    requires AllSorted(levels)
    ensures MeanIs(Ranks(Settles(k, levels), x), Rank(levels, x), c)
    decreases Retained(levels)
  {
    match FirstFull(k, levels, 0)
    case None =>
      OneNumber(Rank(levels, x), c, 0);
      assert Ranks(Settles(k, levels), x) == [Rank(levels, x)];
    case Some(h) =>
      var a, b := Compact(levels, h, true), Compact(levels, h, false);
      BranchesOf(k, levels, h);
      SettlesMean(k, a, x, c);
      SettlesMean(k, b, x, c);
      RanksSplit(k, levels, h, x);
      CoinsCancel(levels, h, x);
      JoinMeans(Ranks(Settles(k, a), x), Ranks(Settles(k, b), x), Rank(a, x), Rank(b, x), Rank(levels, x), c);
  }

  lemma WithinStep(levels: Levels, h: nat, x: int, c: int, v: int, less: int, more: int,
                   a: seq<int>, b: seq<int>, heads: int, tails: int, r: int)
    requires h < |levels| && Sorted(levels[h]) && |a| == |b| && more == less + Fourfold(h, 1)
    requires Falls(levels, h, x, heads, tails, r) && Within(a, heads, c, v, less) && Within(b, tails, c, v, less)
    ensures Within(a + b, r, c, v, more)
  {
    CoinSquares(levels, h, x, heads, tails, r, more - less, c);
    JoinWithin(a, b, heads, tails, r, c, v, less, more);
  }

  /** Settling adds to the mean square error what it adds to the spread. */
  lemma {:induction false} SettlesWithin(k: nat, levels: Levels, s: Shape, x: int, r: int, c: int, v: int, more: int)
    requires AllSorted(levels) && Lens(levels) == s.lens && |s.lens| == |s.tally| && more == Added(k, s) && r == Rank(levels, x)
    ensures Within(Ranks(Settles(k, levels), x), r, c, v, more)
    decreases Retained(levels)
  {
    SameFirst(k, levels, 0);
    match FirstFull(k, levels, 0)
    case None =>
      OneNumber(r, c, v);
      assert Ranks(Settles(k, levels), x) == [r];
    case Some(h) =>
      var less, a, b := Added(k, FlipShape(s, h)), Compact(levels, h, true), Compact(levels, h, false);
      BranchesOf(k, levels, h);
      SettlesWithin(k, a, FlipShape(s, h), x, Rank(a, x), c, v, less);
      SettlesWithin(k, b, FlipShape(s, h), x, Rank(b, x), c, v, less);
      AddedStep(k, s, h);
      RanksSplit(k, levels, h, x);
      WithinStep(levels, h, x, c, v, less, more, Ranks(Settles(k, a), x), Ranks(Settles(k, b), x), Rank(a, x), Rank(b, x), r);
  }

  // ---------------------------------------------------------------------------
  // Settling every stack of a list
  // ---------------------------------------------------------------------------

  ghost predicate EachInto(k: nat, list: seq<Levels>, n: nat) {
    forall i | 0 <= i < |list| :: |Settles(k, list[i])| == n
  }

  lemma CountAll(k: nat, list: seq<Levels>, lens: seq<nat>) returns (n: nat)
    requires list != [] && Alike(list, lens)
    ensures 0 < n && EachInto(k, list, n)
  {
    n := |Settles(k, list[0])|;
    forall i | 0 <= i < |list| ensures |Settles(k, list[i])| == n { SameCount(k, list[i], list[0]); }
  }

  function RanksEach(k: nat, list: seq<Levels>, x: int): (r: seq<seq<int>>)
    ensures |r| == |list| && forall i | 0 <= i < |r| :: r[i] == Ranks(Settles(k, list[i]), x)
  {
    seq(|list|, i requires 0 <= i < |list| => Ranks(Settles(k, list[i]), x))
  }

  lemma {:induction false} RanksFlat(k: nat, list: seq<Levels>, x: int)
    ensures Ranks(SettlesAll(k, list), x) == Flat(RanksEach(k, list, x))
  {
    if list != [] {
      RanksFlat(k, list[1..], x);
      assert RanksEach(k, list, x)[1..] == RanksEach(k, list[1..], x);
      RanksConcat(Settles(k, list[0]), SettlesAll(k, list[1..]), x);
    }
  }

  lemma SettlesScatter(k: nat, list: seq<Levels>, s: Shape, x: int, c: int, n: nat, v: int, more: int)
    requires Alike(list, s.lens) && |s.lens| == |s.tally| && EachInto(k, list, n) && more == Added(k, s)
    ensures Scatters(RanksEach(k, list, x), Ranks(list, x), c, n, v, more)
  {
    forall i | 0 <= i < |list|
      ensures MeanIs(RanksEach(k, list, x)[i], Ranks(list, x)[i], c) && Within(RanksEach(k, list, x)[i], Ranks(list, x)[i], c, v, more)
    {
      SettlesMean(k, list[i], x, c);
      SettlesWithin(k, list[i], s, x, Rank(list[i], x), c, v, more);
    }
  }

  /** Settling keeps every mean, and adds to the mean square error what it compacts. */
  lemma SettlesBalanced(k: nat, list: seq<Levels>, s: Shape, x: int, c: int, v: int, more: int, w: int)
    requires Alike(list, s.lens) && |s.lens| == |s.tally| && Balanced(Ranks(list, x), c, v)
    requires more == Added(k, s) && w == v + more
    ensures Balanced(Ranks(SettlesAll(k, list), x), c, w)
  {
    var n := CountAll(k, list, s.lens);
    SettlesScatter(k, list, s, x, c, n, w, more);
    FlatBalanced(RanksEach(k, list, x), Ranks(list, x), c, n, v, more, w);
    RanksFlat(k, list, x);
  }

  // ---------------------------------------------------------------------------
  // Feeding and merging
  // ---------------------------------------------------------------------------

  lemma PouredRank(levels: Levels, y: int, x: int)
    requires levels != []
    ensures Rank(Poured(levels, y), x) == Rank(levels, x) + Below([y], x)
  {
    UpdateRank(levels, 0, Sort(levels[0] + [y]), x);
    SortBelow(levels[0] + [y], x);
    BelowConcat(levels[0], [y], x);
  }

  lemma PouredRanks(list: seq<Levels>, y: int, x: int)
    requires forall i | 0 <= i < |list| :: list[i] != []
    ensures Ranks(PouredAll(list, y), x) == Shifted(Ranks(list, x), Below([y], x))
  {
    forall i | 0 <= i < |list| ensures Ranks(PouredAll(list, y), x)[i] == Shifted(Ranks(list, x), Below([y], x))[i] {
      PouredRank(list[i], y, x);
    }
  }

  lemma PouredBalanced(list: seq<Levels>, y: int, x: int, c: int, d: int, v: int)
    requires (forall i | 0 <= i < |list| :: list[i] != []) && d == c + Below([y], x) && Balanced(Ranks(list, x), c, v)
    ensures Balanced(Ranks(PouredAll(list, y), x), d, v)
  {
    PouredRanks(list, y, x);
    ShiftedBalanced(Ranks(list, x), Below([y], x), c, d, v);
  }

  lemma FedOnce(k: nat, list: seq<Levels>, y: int, s: Shape, x: int, c: int, d: int, v: int, more: int, w: int)
    requires Alike(list, s.lens) && 0 < |s.lens| == |s.tally| && Balanced(Ranks(list, x), c, v)
    requires d == c + Below([y], x) && more == Added(k, PourShape(s, 1)) && w == v + more
    ensures Balanced(Ranks(SettlesAll(k, PouredAll(list, y)), x), d, w)
  {
    assert forall i | 0 <= i < |list| :: |list[i]| == |Lens(list[i])|;
    PouredBalanced(list, y, x, c, d, v);
    PouredAllAlike(list, y, s);
    SettlesBalanced(k, PouredAll(list, y), PourShape(s, 1), x, d, v, more, w);
  }

  lemma FeedAdds(k: nat, s: Shape, n: nat, before: Shape)
    requires 0 < |s.lens| == |s.tally| && 0 < n && before == FeedShape(k, s, n - 1)
    ensures Spread(FeedShape(k, s, n).tally) == Spread(before.tally) + Added(k, PourShape(before, 1))
  {
  }

  lemma {:induction false} FedBalanced(k: nat, list: seq<Levels>, xs: seq<int>, s: Shape, x: int, c: int, d: int, v: int, w: int)
    requires Alike(list, s.lens) && 0 < |s.lens| == |s.tally| && Balanced(Ranks(list, x), c, v)
    requires d == c + Below(xs, x) && v == Spread(s.tally) && w == Spread(FeedShape(k, s, |xs|).tally)
    ensures Balanced(Ranks(FedAll(k, list, xs), x), d, w)
    decreases |xs|
  {
    if xs != [] {
      var init, y := xs[..|xs| - 1], xs[|xs| - 1];
      var before := FeedShape(k, s, |init|);
      var u := Spread(before.tally);
      FedBalanced(k, list, init, s, x, c, c + Below(init, x), v, u);
      FedAllAlike(k, list, init, s);
      FeedAdds(k, s, |xs|, before);
      BelowLast(xs, x);
      FedLast(k, list, xs, y, FedAll(k, list, init));
      FedOnce(k, FedAll(k, list, init), y, before, x, c + Below(init, x), d, u, w - u, w);
    }
  }

  lemma FedLast(k: nat, list: seq<Levels>, xs: seq<int>, y: int, before: seq<Levels>)
    requires xs != [] && y == xs[|xs| - 1] && before == FedAll(k, list, xs[..|xs| - 1])
    ensures FedAll(k, list, xs) == SettlesAll(k, PouredAll(before, y))
  {
  }

  lemma BelowLast(xs: seq<int>, x: int)
    requires xs != []
    ensures Below(xs, x) == Below(xs[..|xs| - 1], x) + Below([xs[|xs| - 1]], x)
  {
    assert xs == xs[..|xs| - 1] + [xs[|xs| - 1]];
    BelowConcat(xs[..|xs| - 1], [xs[|xs| - 1]], x);
  }

  lemma JoinedRanks(a: Levels, list: seq<Levels>, x: int)
    ensures Ranks(JoinedWith(a, list), x) == Shifted(Ranks(list, x), Rank(a, x))
  {
    forall i | 0 <= i < |list| ensures Ranks(JoinedWith(a, list), x)[i] == Shifted(Ranks(list, x), Rank(a, x))[i] {
      KllIngest.JoinRank(a, list[i], x);
    }
  }

  lemma {:induction false} PairRanks(a: seq<Levels>, b: seq<Levels>, x: int)
    ensures Ranks(Pairs(a, b), x) == Cross(Ranks(a, x), Ranks(b, x))
  {
    if a != [] {
      PairRanks(a[1..], b, x);
      JoinedRanks(a[0], b, x);
      assert Ranks(a, x)[1..] == Ranks(a[1..], x);
      RanksConcat(JoinedWith(a[0], b), Pairs(a[1..], b), x);
    }
  }

  lemma PairsBalanced(a: seq<Levels>, b: seq<Levels>, x: int, c: int, d: int, e: int, v: int, w: int, u: int)
    requires Balanced(Ranks(a, x), c, v) && Balanced(Ranks(b, x), d, w) && e == c + d && u == v + w
    ensures Balanced(Ranks(Pairs(a, b), x), e, u)
  {
    PairRanks(a, b, x);
    CrossBalanced(Ranks(a, x), Ranks(b, x), c, d, e, v, w, u);
  }

  lemma MergedBalanced(k: nat, a: seq<Levels>, b: seq<Levels>, s: Shape, t: Shape, x: int, c: int, d: int, e: int, w: int)
    requires Alike(a, s.lens) && Alike(b, t.lens) && 0 < |s.lens| == |s.tally| && |t.lens| == |t.tally|
    requires Balanced(Ranks(a, x), c, Spread(s.tally)) && Balanced(Ranks(b, x), d, Spread(t.tally))
    requires e == c + d && w == Spread(SettleShape(k, JoinShape(s, t)).tally)
    ensures Balanced(Ranks(SettlesAll(k, Pairs(a, b)), x), e, w)
  {
    var j := JoinShape(s, t);
    var v := Spread(j.tally);
    SumSpread(s.tally, t.tally);
    PairsAlike(a, b, s.lens, t.lens);
    PairsBalanced(a, b, x, c, d, e, Spread(s.tally), Spread(t.tally), v);
    SettlesBalanced(k, Pairs(a, b), j, x, e, v, w - v, w);
  }

  // ---------------------------------------------------------------------------
  // Every history
  // ---------------------------------------------------------------------------

  lemma NewBalanced(x: int)
    ensures Balanced(Ranks([[[]]], x), 0, 0)
  {
    var empty: Levels := [[]];
    assert empty[1..] == [] && Rank(empty, x) == 0;
    assert Ranks([empty], x) == [0];
    assert [0][1..] == [];
  }

  /** What the outcomes of a history come to. */
  ghost predicate Fair(k: nat, h: History, x: int) {
    Balanced(Ranks(Outcomes(k, h), x), Below(Stream(h), x), Spread(ShapeOf(k, h).tally))
  }

  lemma NewFair(k: nat, h: History, x: int)
    requires h.New?
    ensures Fair(k, h, x)
  {
    NewBalanced(x);
    assert [0][1..] == [];
  }

  lemma FedFair(k: nat, h: History, x: int)
    requires h.Fed? && Fair(k, h.of, x)
    ensures Fair(k, h, x)
  {
    var s := ShapeOf(k, h.of);
    OutcomesAlike(k, h.of);
    BelowConcat(Stream(h.of), h.xs, x);
    FedBalanced(k, Outcomes(k, h.of), h.xs, s, x, Below(Stream(h.of), x), Below(Stream(h), x), Spread(s.tally), Spread(ShapeOf(k, h).tally));
  }

  lemma MergedFair(k: nat, h: History, x: int)
    requires h.Merged? && Fair(k, h.into, x) && Fair(k, h.from, x)
    ensures Fair(k, h, x)
  {
    var s, t := ShapeOf(k, h.into), ShapeOf(k, h.from);
    OutcomesAlike(k, h.into);
    OutcomesAlike(k, h.from);
    BelowConcat(Stream(h.into), Stream(h.from), x);
    MergedBalanced(k, Outcomes(k, h.into), Outcomes(k, h.from), s, t, x,
      Below(Stream(h.into), x), Below(Stream(h.from), x), Below(Stream(h), x), Spread(ShapeOf(k, h).tally));
  }

  lemma {:induction false} HistoryFair(k: nat, h: History, x: int)
    ensures Fair(k, h, x)
  {
    match h
    case New(_) => NewFair(k, h, x);
    case Fed(of, _) =>
      HistoryFair(k, of, x);
      FedFair(k, h, x);
    case Merged(into, from) =>
      HistoryFair(k, into, x);
      HistoryFair(k, from, x);
      MergedFair(k, h, x);
    case Reseeded(of, _) => HistoryFair(k, of, x);
  }

  /** Over all falls of all coins of everything that was fed and merged, where merged sketches have
      flipped separate coins, the rank of any probe is
      on average exactly the number of items below it, and its mean square error is at most the
      sum of `4^h` over the compactions of level `h`. */
  lemma RanksAreFair(k: nat, h: History, x: int)
    ensures var ranks, exact := Ranks(Outcomes(k, h), x), Below(Stream(h), x);
      && Build(k, h).core.levels in Outcomes(k, h)
      && Averages.Sum(ranks) == |ranks| * exact
      && SquareSum(ranks, exact) <= |ranks| * Spread(ShapeOf(k, h).tally)
  {
    SketchIsOne(k, h);
    HistoryFair(k, h, x);
    BalancedMeans(Ranks(Outcomes(k, h), x), Below(Stream(h), x), Spread(ShapeOf(k, h).tally));
  }
}
