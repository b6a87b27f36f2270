/** The coins of a KLL sketch taken together: the list of all stacks a history can lead to, one for
    each way the coins can fall and so all equally likely. Over that list every rank is right on
    average, and its mean square error is bounded by the compactions done. Sketches that are merged
    have here flipped coins of their own, and none that the other flipped too; `KllClones` is about
    those that share some. */
module KllChance {
  import opened Wrappers
  import opened Naturals
  import opened Sorting
  import opened KllCore
  import opened KllShape
  import opened KllHistory
  import KllIngest

  type Levels = seq<seq<int>>

  // ---------------------------------------------------------------------------
  // All outcomes
  // ---------------------------------------------------------------------------

  /** Both falls of every coin a settling stack flips. */
  function Settles(k: nat, levels: Levels): (r: seq<Levels>)
    ensures r != []
    decreases Retained(levels)
  {
    match FirstFull(k, levels, 0)
    case None => [levels]
    case Some(h) =>
      CompactKeeps(levels, h, true);
      CompactKeeps(levels, h, false);
      Settles(k, Compact(levels, h, true)) + Settles(k, Compact(levels, h, false))
  }

  function SettlesAll(k: nat, list: seq<Levels>): seq<Levels> {
    if list == [] then [] else Settles(k, list[0]) + SettlesAll(k, list[1..])
  }

  function Poured(levels: Levels, x: int): Levels {
    if levels == [] then levels else levels[0 := Sort(levels[0] + [x])]
  }

  function PouredAll(list: seq<Levels>, x: int): (r: seq<Levels>)
    ensures |r| == |list| && forall i | 0 <= i < |r| :: r[i] == Poured(list[i], x)
  {
    seq(|list|, i requires 0 <= i < |list| => Poured(list[i], x))
  }

  function FedAll(k: nat, list: seq<Levels>, xs: seq<int>): seq<Levels>
    decreases |xs|
  {
    if xs == [] then list else SettlesAll(k, PouredAll(FedAll(k, list, xs[..|xs| - 1]), xs[|xs| - 1]))
  }

  function JoinedWith(a: Levels, list: seq<Levels>): (r: seq<Levels>)
    ensures |r| == |list| && forall i | 0 <= i < |r| :: r[i] == KllIngest.Join(a, list[i])
  {
    seq(|list|, i requires 0 <= i < |list| => KllIngest.Join(a, list[i]))
  }

  /** Every stack of the one list with every stack of the other. */
  function Pairs(a: seq<Levels>, b: seq<Levels>): seq<Levels> {
    if a == [] then [] else JoinedWith(a[0], b) + Pairs(a[1..], b)
  }

  function Outcomes(k: nat, h: History): seq<Levels> {
    match h
    case New(_) => [[[]]]
    case Fed(of, xs) => FedAll(k, Outcomes(k, of), xs)
    case Merged(into, from) => SettlesAll(k, Pairs(Outcomes(k, into), Outcomes(k, from)))
    case Reseeded(of, _) => Outcomes(k, of)
  }

  // ---------------------------------------------------------------------------
  // They all have one shape, and the sketch itself is one of them
  // ---------------------------------------------------------------------------

  ghost predicate Alike(list: seq<Levels>, lens: seq<nat>) {
    forall i | 0 <= i < |list| :: Lens(list[i]) == lens && AllSorted(list[i])
  }

  lemma {:induction false} SettlesAlike(k: nat, levels: Levels, s: Shape)
    requires AllSorted(levels) && Lens(levels) == s.lens && |s.tally| == |s.lens|
    ensures Alike(Settles(k, levels), SettleShape(k, s).lens)
    decreases Retained(levels)
  {
    SameFirst(k, levels, 0);
    match FirstFull(k, levels, 0)
    case None =>
    case Some(h) =>
      BranchAlike(k, levels, s, h, true);
      BranchAlike(k, levels, s, h, false);
      SettlesAlike(k, Compact(levels, h, true), FlipShape(s, h));
      SettlesAlike(k, Compact(levels, h, false), FlipShape(s, h));
  }

  lemma BranchAlike(k: nat, levels: Levels, s: Shape, h: nat, heads: bool)
    requires AllSorted(levels) && Lens(levels) == s.lens && |s.tally| == |s.lens| && h < |levels| && Full(k, levels, h)
    ensures var c := Compact(levels, h, heads);
      AllSorted(c) && Lens(c) == FlipShape(s, h).lens && Retained(c) < Retained(levels)
  {
    CompactKeeps(levels, h, heads);
    CompactSorted(levels, h, heads);
    CompactHas(levels, h, heads);
  }

  /** How many outcomes there are is a matter of shape. */
  lemma {:induction false} SameCount(k: nat, a: Levels, b: Levels)
    requires Lens(a) == Lens(b)
    ensures |Settles(k, a)| == |Settles(k, b)|
    decreases Retained(a)
  {
    SameFirst(k, a, 0);
    SameFirst(k, b, 0);
    match FirstFull(k, a, 0)
    case None =>
    case Some(h) =>
      CompactKeeps(a, h, true);
      CompactKeeps(a, h, false);
      CompactHas(a, h, true);
      CompactHas(b, h, true);
      CompactHas(a, h, false);
      CompactHas(b, h, false);
      SameCount(k, Compact(a, h, true), Compact(b, h, true));
      SameCount(k, Compact(a, h, false), Compact(b, h, false));
  }

  lemma {:induction false} SettleIsOne(k: nat, coins: nat -> bool, c: Core)
    requires AllSorted(c.levels)
    ensures Settle(k, coins, c).levels in Settles(k, c.levels)
    decreases Retained(c.levels)
  {
    match FirstFull(k, c.levels, 0)
    case None =>
    case Some(h) =>
      CompactKeeps(c.levels, h, coins(c.flips));
      CompactSorted(c.levels, h, coins(c.flips));
      SettleIsOne(k, coins, Flip(coins, c, h));
  }

  lemma {:induction false} SettlesAllHas(k: nat, list: seq<Levels>, levels: Levels, r: Levels)
    requires levels in list && r in Settles(k, levels)
    ensures r in SettlesAll(k, list)
  {
    if levels != list[0] { SettlesAllHas(k, list[1..], levels, r); }
  }

  lemma {:induction false} SettlesAllAlike(k: nat, list: seq<Levels>, s: Shape)
    requires Alike(list, s.lens) && |s.tally| == |s.lens|
    ensures Alike(SettlesAll(k, list), SettleShape(k, s).lens)
  {
    if list != [] {
      SettlesAlike(k, list[0], s);
      SettlesAllAlike(k, list[1..], s);
    }
  }

  lemma PouredAllAlike(list: seq<Levels>, x: int, s: Shape)
    requires Alike(list, s.lens) && s.lens != []
    ensures Alike(PouredAll(list, x), PourShape(s, 1).lens)
  {
    forall i | 0 <= i < |list| ensures Lens(Poured(list[i], x)) == PourShape(s, 1).lens && AllSorted(Poured(list[i], x)) {
      var c := Core(list[i], 0, 0);
      assert |list[i]| == |s.lens|;
      PourSorted(c, [x]);
      assert Poured(list[i], x) == Pour(c, [x]).levels;
      assert Lens(Poured(list[i], x)) == PourShape(s, 1).lens;
    }
  }

  lemma {:induction false} FedAllAlike(k: nat, list: seq<Levels>, xs: seq<int>, s: Shape)
    requires Alike(list, s.lens) && 0 < |s.lens| == |s.tally|
    ensures Alike(FedAll(k, list, xs), FeedShape(k, s, |xs|).lens)
    decreases |xs|
  {
    if xs != [] {
      var init, x := xs[..|xs| - 1], xs[|xs| - 1];
      FedAllAlike(k, list, init, s);
      PouredAllAlike(FedAll(k, list, init), x, FeedShape(k, s, |init|));
      SettlesAllAlike(k, PouredAll(FedAll(k, list, init), x), PourShape(FeedShape(k, s, |init|), 1));
    }
  }

  lemma JoinedWithAlike(a: Levels, list: seq<Levels>, m: seq<nat>, n: seq<nat>)
    requires Lens(a) == m && AllSorted(a) && a != [] && Alike(list, n)
    ensures Alike(JoinedWith(a, list), Sum(m, n))
  {
    forall i | 0 <= i < |list| ensures Lens(KllIngest.Join(a, list[i])) == Sum(m, n) && AllSorted(KllIngest.Join(a, list[i])) {
      KllIngest.JoinedReady(Core(a, 0, 0), Core(list[i], 0, 0));
      assert Lens(KllIngest.Join(a, list[i])) == Sum(m, n);
    }
  }

  lemma {:induction false} PairsAlike(a: seq<Levels>, b: seq<Levels>, m: seq<nat>, n: seq<nat>)
    requires Alike(a, m) && Alike(b, n) && m != []
    ensures Alike(Pairs(a, b), Sum(m, n))
  {
    if a != [] {
      PairsAlike(a[1..], b, m, n);
      JoinedWithAlike(a[0], b, m, n);
    }
  }

  lemma {:induction false} OutcomesAlike(k: nat, h: History)
    ensures Alike(Outcomes(k, h), ShapeOf(k, h).lens)
  {
    match h
    case New(_) => assert Lens([[]]) == [0];
    case Fed(of, xs) =>
      OutcomesAlike(k, of);
      FedAllAlike(k, Outcomes(k, of), xs, ShapeOf(k, of));
    case Merged(into, from) =>
      OutcomesAlike(k, into);
      OutcomesAlike(k, from);
      PairsAlike(Outcomes(k, into), Outcomes(k, from), ShapeOf(k, into).lens, ShapeOf(k, from).lens);
      SettlesAllAlike(k, Pairs(Outcomes(k, into), Outcomes(k, from)), JoinShape(ShapeOf(k, into), ShapeOf(k, from)));
    case Reseeded(of, _) => OutcomesAlike(k, of);
  }

  // ---------------------------------------------------------------------------
  // The sketch itself is one of them
  // ---------------------------------------------------------------------------

  lemma {:induction false} FedIsOne(k: nat, coins: nat -> bool, c: Core, xs: seq<int>, list: seq<Levels>)
    requires Ready(c) && c.levels in list
    ensures InsertEach(k, coins, c, xs).levels in FedAll(k, list, xs)
    decreases |xs|
  {
    if xs != [] {
      var init, x := xs[..|xs| - 1], xs[|xs| - 1];
      FedIsOne(k, coins, c, init, list);
      var before := InsertEach(k, coins, c, init);
      var i :| 0 <= i < |FedAll(k, list, init)| && FedAll(k, list, init)[i] == before.levels;
      PourSorted(before, [x]);
      SettleIsOne(k, coins, Pour(before, [x]));
      assert PouredAll(FedAll(k, list, init), x)[i] == Pour(before, [x]).levels;
      SettlesAllHas(k, PouredAll(FedAll(k, list, init), x), Pour(before, [x]).levels, InsertOne(k, coins, before, x).levels);
    }
  }

  lemma {:induction false} PairsHas(a: seq<Levels>, b: seq<Levels>, x: Levels, y: Levels)
    requires x in a && y in b
    ensures KllIngest.Join(x, y) in Pairs(a, b)
  {
    if x == a[0] {
      var j :| 0 <= j < |b| && b[j] == y;
      assert JoinedWith(a[0], b)[j] == KllIngest.Join(x, y);
    } else {
      PairsHas(a[1..], b, x, y);
    }
  }

  /** However the coins fall, the sketch is one of the outcomes. */
  lemma {:induction false} SketchIsOne(k: nat, h: History)
    ensures Build(k, h).core.levels in Outcomes(k, h)
  {
    match h
    case New(_) =>
    case Fed(of, xs) =>
      SketchIsOne(k, of);
      FedIsOne(k, CoinsOf(of), Build(k, of).core, xs, Outcomes(k, of));
    case Merged(into, from) =>
      SketchIsOne(k, into);
      SketchIsOne(k, from);
      var c, d := Build(k, into).core, Build(k, from).core;
      PairsHas(Outcomes(k, into), Outcomes(k, from), c.levels, d.levels);
      KllIngest.JoinedReady(c, d);
      SettleIsOne(k, CoinsOf(into), KllIngest.Joined(c, d));
      SettlesAllHas(k, Pairs(Outcomes(k, into), Outcomes(k, from)), KllIngest.Join(c.levels, d.levels), Build(k, h).core.levels);
    case Reseeded(of, _) => SketchIsOne(k, of);
  }

  // ---------------------------------------------------------------------------
  // There are as many as the coins can fall
  // ---------------------------------------------------------------------------

  lemma {:induction false} DoubledNext(n: nat, m: nat, d: nat, e: nat)
    requires m == n + n && e == d + 1
    ensures Doubled(m, d) == Doubled(n, e)
  {
    if 0 < d { DoubledNext(n, m, d - 1, e - 1); }
  }

  lemma FlipTotal(s: Shape, h: nat)
    requires h < |s.lens| == |s.tally|
    ensures Total(FlipShape(s, h).tally) == Total(s.tally) + 1
  {
    ZeroOnTop(s.tally);
    UpdateMassOf(Extended(s.tally, h), h, s.tally[h] + 1);
  }

  lemma SettlesSplit(k: nat, levels: Levels, h: nat)
    requires FirstFull(k, levels, 0) == Some(h)
    ensures Settles(k, levels) == Settles(k, Compact(levels, h, true)) + Settles(k, Compact(levels, h, false))
  {
  }

  lemma SettlesDouble(k: nat, levels: Levels, h: nat)
    requires FirstFull(k, levels, 0) == Some(h)
    ensures |Settles(k, levels)| == 2 * |Settles(k, Compact(levels, h, true))|
  {
    SettlesSplit(k, levels, h);
    CompactHas(levels, h, true);
    CompactHas(levels, h, false);
    SameCount(k, Compact(levels, h, true), Compact(levels, h, false));
  }

  lemma SettleShapeStep(k: nat, s: Shape, h: nat)
    requires |s.lens| == |s.tally| && FirstFullAt(k, s.lens, 0) == Some(h)
    ensures SettleShape(k, s) == SettleShape(k, FlipShape(s, h))
  {
  }

  lemma CalmCount(k: nat, levels: Levels)
    requires FirstFull(k, levels, 0) == None
    ensures |Settles(k, levels)| == 1
  {
  }

  lemma CalmShape(k: nat, s: Shape)
    requires |s.lens| == |s.tally| && FirstFullAt(k, s.lens, 0) == None
    ensures SettleShape(k, s) == s
  {
  }

  lemma CountStep(k: nat, levels: Levels, h: nat, half: nat, n: nat, flips: nat)
    requires FirstFull(k, levels, 0) == Some(h) && half == |Settles(k, Compact(levels, h, true))| && n == |Settles(k, levels)|
    ensures Doubled(n, flips) == Doubled(half, flips + 1)
  {
    SettlesDouble(k, levels, h);
    DoubledNext(half, n, flips, flips + 1);
  }

  /** Settling doubles the outcomes once for each coin it flips. */
  lemma {:induction false} SettlesCount(k: nat, levels: Levels, s: Shape, n: nat, flips: nat, total: nat)
    requires AllSorted(levels) && Lens(levels) == s.lens && |s.tally| == |s.lens|
    requires n == |Settles(k, levels)| && flips == Total(s.tally) && total == Total(SettleShape(k, s).tally)
    ensures Doubled(n, flips) == Doubled(1, total)
    decreases Retained(levels)
  {
    SameFirst(k, levels, 0);
    var first := FirstFull(k, levels, 0);
    if first.None? {
      CalmCount(k, levels);
      CalmShape(k, s);
    } else {
      var h := first.value;
      var half := |Settles(k, Compact(levels, h, true))|;
      BranchAlike(k, levels, s, h, true);
      FlipTotal(s, h);
      SettleShapeStep(k, s, h);
      SettlesCount(k, Compact(levels, h, true), FlipShape(s, h), half, flips + 1, total);
      CountStep(k, levels, h, half, n, flips);
    }
  }

  lemma {:induction false} TimesDoubled(d: nat, n: nat)
    ensures Times(Doubled(1, d), n) == Doubled(n, d)
  {
    if 0 < d {
      TimesDoubled(d - 1, n);
      TimesPlus(Doubled(1, d - 1), Doubled(1, d - 1), n);
    }
  }

  lemma {:induction false} TimesPlus(i: nat, j: nat, n: nat)
    ensures Times(i + j, n) == Times(i, n) + Times(j, n)
  {
    if 0 < j { TimesPlus(i, j - 1, n); }
  }

  lemma {:induction false} CountEach(k: nat, list: seq<Levels>, lens: seq<nat>, first: Levels)
    requires Alike(list, lens) && Lens(first) == lens
    ensures |SettlesAll(k, list)| == Times(|list|, |Settles(k, first)|)
  {
    if list != [] {
      CountEach(k, list[1..], lens, first);
      SameCount(k, list[0], first);
    }
  }

  lemma SettlesAllCount(k: nat, list: seq<Levels>, s: Shape)
    requires list != [] && Alike(list, s.lens) && |s.tally| == |s.lens| && |list| == Doubled(1, Total(s.tally))
    ensures |SettlesAll(k, list)| == Doubled(1, Total(SettleShape(k, s).tally))
  {
    CountEach(k, list, s.lens, list[0]);
    SettlesCount(k, list[0], s, |Settles(k, list[0])|, Total(s.tally), Total(SettleShape(k, s).tally));
    TimesDoubled(Total(s.tally), |Settles(k, list[0])|);
  }

  lemma {:induction false} DoubledPositive(d: nat)
    ensures 0 < Doubled(1, d)
  {
    if 0 < d { DoubledPositive(d - 1); }
  }

  lemma FedOnceCount(k: nat, list: seq<Levels>, x: int, s: Shape)
    requires Alike(list, s.lens) && 0 < |s.lens| == |s.tally| && |list| == Doubled(1, Total(s.tally))
    ensures |SettlesAll(k, PouredAll(list, x))| == Doubled(1, Total(FeedOne(k, s).tally))
  {
    DoubledPositive(Total(s.tally));
    PouredAllAlike(list, x, s);
    SettlesAllCount(k, PouredAll(list, x), PourShape(s, 1));
  }

  lemma {:induction false} FedAllCount(k: nat, list: seq<Levels>, xs: seq<int>, s: Shape)
    requires Alike(list, s.lens) && 0 < |s.lens| == |s.tally| && |list| == Doubled(1, Total(s.tally))
    ensures |FedAll(k, list, xs)| == Doubled(1, Total(FeedShape(k, s, |xs|).tally))
    decreases |xs|
  {
    if xs != [] {
      var init, x := xs[..|xs| - 1], xs[|xs| - 1];
      FedAllCount(k, list, init, s);
      FedAllAlike(k, list, init, s);
      FedOnceCount(k, FedAll(k, list, init), x, FeedShape(k, s, |init|));
    }
  }

  lemma {:induction false} PairsCount(a: seq<Levels>, b: seq<Levels>)
    ensures |Pairs(a, b)| == Times(|a|, |b|)
  {
    if a != [] { PairsCount(a[1..], b); }
  }

  lemma {:induction false} SumTotal(a: seq<nat>, b: seq<nat>)
    ensures Total(Sum(a, b)) == Total(a) + Total(b)
    decreases |a| + |b|
  {
    if a != [] || b != [] {
      SumTotal(Rest(a), Rest(b));
      assert Sum(a, b)[1..] == Sum(Rest(a), Rest(b)) by {
        assert forall h | 0 <= h < |Sum(a, b)| - 1 :: At(a, h + 1) == At(Rest(a), h) && At(b, h + 1) == At(Rest(b), h);
      }
    }
  }

  lemma {:induction false} DoubledTwice(n: nat, d: nat, e: nat)
    ensures Doubled(Doubled(n, d), e) == Doubled(n, d + e)
  {
    if 0 < e { DoubledTwice(n, d, e - 1); }
  }

  lemma MergedCount(k: nat, a: seq<Levels>, b: seq<Levels>, s: Shape, t: Shape)
    requires Alike(a, s.lens) && Alike(b, t.lens) && 0 < |s.lens| == |s.tally| && |t.lens| == |t.tally|
    requires |a| == Doubled(1, Total(s.tally)) && |b| == Doubled(1, Total(t.tally))
    ensures |SettlesAll(k, Pairs(a, b))| == Doubled(1, Total(SettleShape(k, JoinShape(s, t)).tally))
  {
    PairsAlike(a, b, s.lens, t.lens);
    PairsCount(a, b);
    TimesDoubled(Total(s.tally), |b|);
    DoubledTwice(1, Total(t.tally), Total(s.tally));
    SumTotal(s.tally, t.tally);
    DoubledPositive(Total(JoinShape(s, t).tally));
    SettlesAllCount(k, Pairs(a, b), JoinShape(s, t));
  }

  /** Two to the number of compactions done: one outcome for each way the coins can fall. */
  lemma {:induction false} OutcomesCount(k: nat, h: History)
    ensures |Outcomes(k, h)| == Doubled(1, Total(ShapeOf(k, h).tally))
  {
    match h
    case New(_) => assert [0][1..] == [];
    case Fed(of, xs) =>
      OutcomesCount(k, of);
      OutcomesAlike(k, of);
      FedAllCount(k, Outcomes(k, of), xs, ShapeOf(k, of));
    case Merged(into, from) =>
      OutcomesCount(k, into);
      OutcomesCount(k, from);
      OutcomesAlike(k, into);
      OutcomesAlike(k, from);
      MergedCount(k, Outcomes(k, into), Outcomes(k, from), ShapeOf(k, into), ShapeOf(k, from));
    case Reseeded(of, _) => OutcomesCount(k, of);
  }
}
