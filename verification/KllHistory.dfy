/** Every sketch the program can come to hold - begun empty, fed, merged, cloned or rebuilt, in any
    order - and what all of them promise about the streams they have seen. */
module KllHistory {
  import opened Wrappers
  import opened Naturals
  import opened Sorting
  import opened KllCore
  import opened KllShape
  import KllIngest

  /** How a sketch came about. A clone or a rebuilt sketch flips coins of its own. */
  datatype History =
    | New(coins: nat -> bool)
    | Fed(of: History, xs: seq<int>)
    | Merged(into: History, from: History)
    | Reseeded(of: History, coins: nat -> bool)

  function CoinsOf(h: History): nat -> bool {
    match h
    case New(coins) => coins
    case Fed(of, _) => CoinsOf(of)
    case Merged(into, _) => CoinsOf(into)
    case Reseeded(_, coins) => coins
  }

  function Stream(h: History): seq<int> {
    match h
    case New(_) => []
    case Fed(of, xs) => Stream(of) + xs
    case Merged(into, from) => Stream(into) + Stream(from)
    case Reseeded(of, _) => Stream(of)
  }

  ghost function Build(k: nat, h: History): (s: Sketch)
    ensures Ready(s.core)
  {
    match h
    case New(_) => Sketch(Core([[]], 0, 0), None, None)
    case Fed(of, xs) => Ingest(k, CoinsOf(of), Build(k, of), xs)
    case Merged(into, from) =>
      KllIngest.JoinedReady(Build(k, into).core, Build(k, from).core);
      SettleReady(k, CoinsOf(into), KllIngest.Joined(Build(k, into).core, Build(k, from).core));
      KllIngest.Merge(k, CoinsOf(into), Build(k, into), Build(k, from))
    case Reseeded(of, _) => var s := Build(k, of); s.(core := s.core.(flips := 0))
  }

  // ---------------------------------------------------------------------------
  // Space
  // ---------------------------------------------------------------------------

  /** Two thirds to the power `d`. */
  function Share(d: nat): (r: real)
    ensures 0.0 < r
  {
    if d == 0 then 1.0 else Share(d - 1) * 2.0 / 3.0
  }

  lemma ShareStep(n: real, s: real, p: real)
    ensures 2.0 * (n * s * p) == n * (s * 2.0 / 3.0) * (3.0 * p)
  {
    assert n * (s * 2.0 / 3.0) == (n * s) * 2.0 / 3.0;
  }

  lemma {:induction false} ShareIs(n: nat, d: nat)
    ensures Doubled(n, d) as real == n as real * Share(d) * (Power(3, d) as real)
  {
    if 0 < d {
      ShareIs(n, d - 1);
      ShareStep(n as real, Share(d - 1), Power(3, d - 1) as real);
      assert Power(3, d) as real == 3.0 * (Power(3, d - 1) as real);
    }
  }

  lemma ProductOrder(x: real, y: real, b: real)
    requires x < y && 0.0 < b
    ensures x * b < y * b
  {
  }

  lemma QuotientReal(q: nat, a: nat, b: nat, limit: real)
    requires 0 < b && q * b <= a && a as real == limit * (b as real)
    ensures q as real <= limit
  {
    assert (q * b) as real == (q as real) * (b as real);
    if limit < q as real {
      ProductOrder(limit, q as real, b as real);
    }
  }

  lemma TwiceScaled(k: nat, s: real, p: real)
    ensures (2 * k) as real * s * p == 2.0 * (k as real * s) * p
  {
    assert (2 * k) as real == 2.0 * (k as real);
  }

  lemma DoubledReal(k: nat, d: nat, p: real, limit: real)
    requires p == Power(3, d) as real && limit == 2.0 * Scaled(k, d)
    ensures Doubled(2 * k, d) as real == limit * p
  {
    ShareIs(2 * k, d);
    TwiceScaled(k, Share(d), p);
  }

  lemma ShrunkTimes(k: nat, d: nat)
    ensures Shrunk(k, d) * Power(3, d) <= Doubled(2 * k, d)
  {
    DivTimes(Doubled(2 * k, d), Power(3, d));
  }

  /** The integer quotient in the capacity is at most the real one. */
  lemma QuotientAtMost(k: nat, d: nat)
    ensures Shrunk(k, d) as real <= 2.0 * Scaled(k, d)
  {
    var q, a, b, limit := Shrunk(k, d), Doubled(2 * k, d), Power(3, d), 2.0 * Scaled(k, d);
    DoubledReal(k, d, b as real, limit);
    ShrunkTimes(k, d);
    QuotientReal(q, a, b, limit);
  }

  lemma CapacityAtMost(k: nat, n: nat, h: nat)
    requires h < n
    ensures (Capacity(k, n, h) - 1) as real <= Scaled(k, n - h - 1) + 7.0
  {
    var d := n - h - 1;
    QuotientAtMost(k, d);
    var q := Shrunk(k, d);
    assert ((q + 1) / 2) as real <= (q as real + 1.0) / 2.0;
  }

  /** Of a settled stack, the levels from `h` up; `k` times a share is what the next ones may add. */
  lemma {:induction false} RetainedFrom(k: nat, levels: seq<seq<int>>, h: nat)
    requires h <= |levels| && Settled(k, levels)
    ensures Retained(levels[h..]) as real <= 3.0 * (k as real) - 3.0 * Scaled(k, |levels| - h) + 7.0 * ((|levels| - h) as real)
    decreases |levels| - h
  {
    if h == |levels| {
      assert Scaled(k, 0) == k as real;
    } else {
      RetainedFrom(k, levels, h + 1);
      assert levels[h..][1..] == levels[h + 1..];
      assert !Full(k, levels, h);
      CapacityAtMost(k, |levels|, h);
      NextShare(k, |levels| - h - 1);
    }
  }

  function Scaled(k: nat, d: nat): (r: real)
    ensures 0.0 <= r
  {
    (k as real) * Share(d)
  }

  lemma NextShare(k: nat, d: nat)
    ensures 3.0 * Scaled(k, d + 1) == 2.0 * Scaled(k, d)
  {
    assert (k as real) * (Share(d) * 2.0 / 3.0) == ((k as real) * Share(d)) * 2.0 / 3.0;
  }

  /** A settled sketch retains at most `3k` items and seven more for each level. */
  lemma SpaceBound(k: nat, levels: seq<seq<int>>)
    requires Settled(k, levels)
    ensures Retained(levels) <= 3 * k + 7 * |levels|
  {
    RetainedFrom(k, levels, 0);
    assert levels[0..] == levels;
  }

  // ---------------------------------------------------------------------------
  // Every history
  // ---------------------------------------------------------------------------

  /** The shape a history gives, whatever the items and the coins. */
  function ShapeOf(k: nat, h: History): (s: Shape)
    ensures 0 < |s.lens| == |s.tally|
  {
    match h
    case New(_) => Shape([0], [0])
    case Fed(of, xs) => FeedShape(k, ShapeOf(k, of), |xs|)
    case Merged(into, from) => SettleShape(k, JoinShape(ShapeOf(k, into), ShapeOf(k, from)))
    case Reseeded(of, _) => ShapeOf(k, of)
  }

  lemma NewHas(coins: nat -> bool, k: nat)
    ensures Has(Build(k, New(coins)).core, Shape([0], [0]))
  {
    assert Lens([[]]) == [0];
    assert [0][1..] == [];
  }

  lemma MergedHas(k: nat, into: History, from: History)
    requires Has(Build(k, into).core, ShapeOf(k, into)) && Has(Build(k, from).core, ShapeOf(k, from))
    ensures Has(Build(k, Merged(into, from)).core, ShapeOf(k, Merged(into, from)))
  {
    var c, d, s, t := Build(k, into).core, Build(k, from).core, ShapeOf(k, into), ShapeOf(k, from);
    JoinedHas(c, d, s, t);
    KllIngest.JoinedReady(c, d);
    SettleHas(k, CoinsOf(into), KllIngest.Joined(c, d), JoinShape(s, t));
  }

  lemma {:induction false} HistoryHas(k: nat, h: History)
    ensures Has(Build(k, h).core, ShapeOf(k, h))
  {
    match h
    case New(coins) => NewHas(coins, k);
    case Fed(of, xs) =>
      HistoryHas(k, of);
      InsertEachHas(k, CoinsOf(of), Build(k, of).core, xs, ShapeOf(k, of));
    case Merged(into, from) =>
      HistoryHas(k, into);
      HistoryHas(k, from);
      MergedHas(k, into, from);
    case Reseeded(of, _) =>
      HistoryHas(k, of);
  }

  lemma NewSound(k: nat)
    ensures KllShape.Sound(k, Shape([0], [0])) && Calm(k, [0])
  {
    assert [0][1..] == [];
    assert Paid(k, Shape([0], [0]), 0);
  }

  lemma {:induction false} HistorySound(k: nat, h: History)
    ensures KllShape.Sound(k, ShapeOf(k, h)) && Calm(k, ShapeOf(k, h).lens)
  {
    match h
    case New(_) => NewSound(k);
    case Fed(of, xs) =>
      HistorySound(k, of);
      FeedSound(k, ShapeOf(k, of), |xs|);
      FeedCalm(k, ShapeOf(k, of), |xs|);
    case Merged(into, from) =>
      HistorySound(k, into);
      HistorySound(k, from);
      JoinSound(k, ShapeOf(k, into), ShapeOf(k, from));
      SettleSound(k, JoinShape(ShapeOf(k, into), ShapeOf(k, from)));
    case Reseeded(of, _) =>
      HistorySound(k, of);
  }

  lemma HistorySettled(k: nat, h: History)
    ensures Settled(k, Build(k, h).core.levels)
  {
    HistoryHas(k, h);
    HistorySound(k, h);
    var levels := Build(k, h).core.levels;
    forall i | 0 <= i < |levels| ensures !Full(k, levels, i) { assert !FullAt(k, Lens(levels), i); }
  }

  lemma {:induction false} HistorySummarizes(k: nat, h: History)
    ensures Summarizes(Build(k, h), Stream(h))
  {
    match h
    case New(_) =>
      var c := Build(k, h).core;
      assert c.levels[1..] == [];
    case Fed(of, xs) =>
      HistorySummarizes(k, of);
      IngestSummarizes(k, CoinsOf(of), Build(k, of), Stream(of), xs);
    case Merged(into, from) =>
      HistorySummarizes(k, into);
      HistorySummarizes(k, from);
      KllIngest.MergeSummarizes(k, CoinsOf(into), Build(k, into), Build(k, from), Stream(into), Stream(from));
    case Reseeded(of, _) =>
      HistorySummarizes(k, of);
      var s := Build(k, of);
      assert forall x :: Estimates(Rank(s.core.levels, x), Below(Stream(of), x), |Stream(of)|, s.core.spent);
  }

  /** What a sketch of capacity `k` promises about the stream it stands for, at a probe `x`: the
      count is the number of items seen, the extremes are theirs, the rank is exact below and
      above all items and elsewhere off by at most the sum, over the levels below the top, of the
      count divided by the level's width; the stack is no taller than the logarithm of the count
      over `k`; and the items kept number at most `3k` and seven a level. */
  ghost predicate Promises(k: nat, s: Sketch, stream: seq<int>, x: int) {
    var levels, n := s.core.levels, |stream|;
    && levels != [] && Mass(levels) == n
    && IsLeast(s.min, stream) && IsGreatest(s.max, stream)
    && Estimates(Rank(levels, x), Below(stream, x), n, ErrorBound(k, |levels|, n))
    && (|levels| == 1 || Weigh(|levels| - 1, Capacity(k, 1, 0) / 2) <= n)
    && Retained(levels) <= 3 * k + 7 * |levels|
  }

  /** The weight of the top alone. */
  lemma TopWeighs(lens: seq<nat>, top: nat)
    requires lens != [] && top <= lens[|lens| - 1]
    ensures Weigh(|lens| - 1, top) <= MassOf(lens)
  {
    var h := |lens| - 1;
    AboveWeighs(lens, h);
    assert lens[h..] == [lens[h]] && [lens[h]][1..] == [];
    WeighOrder(h, top, lens[h]);
  }

  lemma SoundPromises(k: nat, s: Sketch, shape: Shape, stream: seq<int>, x: int)
    requires Summarizes(s, stream) && Has(s.core, shape) && KllShape.Sound(k, shape) && Settled(k, s.core.levels)
    ensures Promises(k, s, stream, x)
  {
    LensWeigh(s.core.levels);
    SpentBound(k, shape);
    assert Estimates(Rank(s.core.levels, x), Below(stream, x), |stream|, s.core.spent);
    if 1 < |s.core.levels| { TopWeighs(shape.lens, Capacity(k, 1, 0) / 2); }
    SpaceBound(k, s.core.levels);
  }

  /** Whatever was fed and merged, and however the coins fell. */
  lemma EverySketchPromises(k: nat, h: History, x: int)
    ensures Promises(k, Build(k, h), Stream(h), x)
  {
    HistorySummarizes(k, h);
    HistoryHas(k, h);
    HistorySound(k, h);
    HistorySettled(k, h);
    SoundPromises(k, Build(k, h), ShapeOf(k, h), Stream(h), x);
  }

  /** No sketch so made has a full level, so absorbing into it is inserting one by one. */
  lemma EverySketchAbsorbs(k: nat, h: History, xs: seq<int>)
    ensures KllIngest.AbsorbEach(k, CoinsOf(h), Build(k, h).core, xs) == InsertEach(k, CoinsOf(h), Build(k, h).core, xs)
  {
    HistorySettled(k, h);
    KllIngest.AbsorbIsInserts(k, CoinsOf(h), Build(k, h).core, xs);
  }

  /** Whatever sketch is taken apart, its parts are accepted back exactly when `k` is no less than
      the narrowest level. */
  lemma PartsComeBackIff(k: nat, h: History)
    ensures KllIngest.Accepted(k, Build(k, h).core.levels) <==> MIN_LEVEL_WIDTH <= k
  {
    HistorySettled(k, h);
    var levels := Build(k, h).core.levels;
    forall i | 0 <= i < |levels| ensures |levels[i]| <= Capacity(k, |levels|, i) {
      assert !Full(k, levels, i);
    }
  }
}
