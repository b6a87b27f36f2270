/** Asking a KLL sketch for the item at a rank. The batch answer sorts the retained items once
    and sweeps them once; its partner is the statement of which item lies at one rank. */
module KllQuery {
  import opened Wrappers
  import opened Sorting
  import opened KllCore

  datatype Pair = Pair(item: int, weight: nat)

  /** `y` lies at rank `r`: the weight strictly below it is less than `r`, the weight up to and
      including it is not. Items are integers, so up to `y` is below `y + 1`. */
  predicate Covers(levels: seq<seq<int>>, r: nat, y: int) {
    Rank(levels, y) < r <= Rank(levels, y + 1)
  }

  /** What one rank is to be answered with. */
  predicate Answers(levels: seq<seq<int>>, min: Option<int>, max: Option<int>, r: nat, answer: Option<int>) {
    if Mass(levels) == 0 then answer == None
    else if r == 0 then answer == min
    else if Mass(levels) <= r then answer == max
    else answer.Some? && Covers(levels, r, answer.value)
  }

  lemma {:induction false} BelowMonotone(s: seq<int>, x: int, y: int)
    requires x <= y
    ensures Below(s, x) <= Below(s, y)
  {
    if s != [] { BelowMonotone(s[1..], x, y); }
  }

  lemma {:induction false} RankMonotone(levels: seq<seq<int>>, x: int, y: int)
    requires x <= y
    ensures Rank(levels, x) <= Rank(levels, y)
  {
    if levels != [] {
      BelowMonotone(levels[0], x, y);
      RankMonotone(levels[1..], x, y);
    }
  }

  /** Only one item lies at a rank, so the answers of a batch are those of asking one by one. */
  lemma AnswerIsUnique(levels: seq<seq<int>>, min: Option<int>, max: Option<int>, r: nat, a: Option<int>, b: Option<int>)
    requires Answers(levels, min, max, r, a) && Answers(levels, min, max, r, b)
    ensures a == b
  {
    if 0 < r < Mass(levels) {
      if a.value < b.value { RankMonotone(levels, a.value + 1, b.value); }
      if b.value < a.value { RankMonotone(levels, b.value + 1, a.value); }
    }
  }

  /** The answer is near in the stream itself: fewer than `r` plus the error lie below it, and at
      least `r` minus the error lie at or below it. */
  lemma AnswerIsNear(s: Sketch, stream: seq<int>, r: nat, answer: Option<int>)
    requires Summarizes(s, stream) && Answers(s.core.levels, s.min, s.max, r, answer)
    ensures stream == [] <==> answer == None
    ensures r == 0 ==> IsLeast(answer, stream)
    ensures |stream| <= r ==> IsGreatest(answer, stream)
    ensures 0 < r < |stream| ==>
      Below(stream, answer.value) < r + s.core.spent && r <= Below(stream, answer.value + 1) + s.core.spent
  {
    if 0 < r < |stream| {
      assert Estimates(Rank(s.core.levels, answer.value), Below(stream, answer.value), |stream|, s.core.spent);
      assert Estimates(Rank(s.core.levels, answer.value + 1), Below(stream, answer.value + 1), |stream|, s.core.spent);
    }
  }

  // ---------------------------------------------------------------------------
  // The retained items with their weights
  // ---------------------------------------------------------------------------

  function Tagged(items: seq<int>, weight: nat): (r: seq<Pair>)
    ensures |r| == |items|
  {
    if items == [] then [] else [Pair(items[0], weight)] + Tagged(items[1..], weight)
  }

  function Pairs(levels: seq<seq<int>>, weight: nat): seq<Pair> {
    if levels == [] then [] else Tagged(levels[0], weight) + Pairs(levels[1..], 2 * weight)
  }

  function Total(ps: seq<Pair>): nat {
    if ps == [] then 0 else ps[0].weight + Total(ps[1..])
  }

  function Lighter(ps: seq<Pair>, x: int): nat {
    if ps == [] then 0 else (if ps[0].item < x then ps[0].weight else 0) + Lighter(ps[1..], x)
  }

  lemma {:induction false} WeightConcat(a: seq<Pair>, b: seq<Pair>, x: int)
    ensures Total(a + b) == Total(a) + Total(b) && Lighter(a + b, x) == Lighter(a, x) + Lighter(b, x)
  {
    if a == [] {
      assert a + b == b;
    } else {
      WeightConcat(a[1..], b, x);
      assert (a + b)[1..] == a[1..] + b;
    }
  }

  lemma {:induction false} TaggedWeights(items: seq<int>, weight: nat, x: int)
    ensures Total(Tagged(items, weight)) == weight * |items|
    ensures Lighter(Tagged(items, weight), x) == weight * Below(items, x)
  {
    if items != [] {
      TaggedWeights(items[1..], weight, x);
      assert Tagged(items, weight)[1..] == Tagged(items[1..], weight);
      assert weight * |items| == weight + weight * |items[1..]|;
      if items[0] < x { assert weight * Below(items, x) == weight + weight * Below(items[1..], x); }
    }
  }

  lemma {:induction false} PairsWeights(levels: seq<seq<int>>, weight: nat, x: int)
    ensures Total(Pairs(levels, weight)) == weight * Mass(levels)
    ensures Lighter(Pairs(levels, weight), x) == weight * Rank(levels, x)
  {
    if levels != [] {
      PairsWeights(levels[1..], 2 * weight, x);
      TaggedWeights(levels[0], weight, x);
      WeightConcat(Tagged(levels[0], weight), Pairs(levels[1..], 2 * weight), x);
      DoubleWeight(weight, |levels[0]|, Mass(levels[1..]));
      DoubleWeight(weight, Below(levels[0], x), Rank(levels[1..], x));
    }
  }

  lemma DoubleWeight(w: nat, a: nat, b: nat)
    ensures w * a + (2 * w) * b == w * (a + 2 * b)
  {
  }

  // ---------------------------------------------------------------------------
  // Sorting pairs by item and slots by rank
  // ---------------------------------------------------------------------------

  predicate Ordered(ps: seq<Pair>) {
    forall i, j | 0 <= i < j < |ps| :: ps[i].item <= ps[j].item
  }

  function PlacePair(p: Pair, ps: seq<Pair>): seq<Pair> {
    if ps == [] || p.item <= ps[0].item then [p] + ps else [ps[0]] + PlacePair(p, ps[1..])
  }

  function SortPairs(ps: seq<Pair>): seq<Pair> {
    if ps == [] then [] else PlacePair(ps[0], SortPairs(ps[1..]))
  }

  lemma {:induction false} PlacePairKeeps(p: Pair, ps: seq<Pair>, x: int)
    ensures Total(PlacePair(p, ps)) == p.weight + Total(ps)
    ensures Lighter(PlacePair(p, ps), x) == (if p.item < x then p.weight else 0) + Lighter(ps, x)
  {
    if ps == [] || p.item <= ps[0].item {
      assert ([p] + ps)[1..] == ps;
    } else {
      PlacePairKeeps(p, ps[1..], x);
      assert PlacePair(p, ps)[1..] == PlacePair(p, ps[1..]);
    }
  }

  lemma {:induction false} PlacePairOrdered(p: Pair, ps: seq<Pair>)
    requires Ordered(ps)
    ensures Ordered(PlacePair(p, ps))
    ensures forall q | q in PlacePair(p, ps) :: q == p || q in ps
  {
    if ps != [] && ps[0].item < p.item {
      PlacePairOrdered(p, ps[1..]);
      var rest := PlacePair(p, ps[1..]);
      forall i | 0 <= i < |rest| ensures ps[0].item <= rest[i].item {
        assert rest[i] in rest;
      }
    }
  }

  lemma {:induction false} SortPairsKeeps(ps: seq<Pair>, x: int)
    ensures Total(SortPairs(ps)) == Total(ps) && Lighter(SortPairs(ps), x) == Lighter(ps, x)
    ensures Ordered(SortPairs(ps))
  {
    if ps != [] {
      SortPairsKeeps(ps[1..], x);
      PlacePairKeeps(ps[0], SortPairs(ps[1..]), x);
      PlacePairOrdered(ps[0], SortPairs(ps[1..]));
    }
  }

  predicate Ascending(ranks: seq<nat>, slots: seq<nat>) {
    && (forall j | 0 <= j < |slots| :: slots[j] < |ranks|)
    && (forall i, j | 0 <= i < j < |slots| :: ranks[slots[i]] <= ranks[slots[j]])
  }

  function PlaceSlot(ranks: seq<nat>, slot: nat, slots: seq<nat>): (r: seq<nat>)
    requires slot < |ranks| && Ascending(ranks, slots)
    ensures Ascending(ranks, r)
    ensures forall x :: x in r <==> x == slot || x in slots
  {
    if slots == [] || ranks[slot] <= ranks[slots[0]] then [slot] + slots else
      var rest := PlaceSlot(ranks, slot, slots[1..]);
      assert forall j | 0 <= j < |rest| :: rest[j] in rest;
      [slots[0]] + rest
  }

  /** The slots from `from` on, in order of their ranks. */
  function SortSlots(ranks: seq<nat>, from: nat): (r: seq<nat>)
    requires from <= |ranks|
    ensures Ascending(ranks, r)
    ensures forall x :: x in r <==> from <= x < |ranks|
    decreases |ranks| - from
  {
    if from == |ranks| then [] else PlaceSlot(ranks, from, SortSlots(ranks, from + 1))
  }

  // ---------------------------------------------------------------------------
  // The sweep
  // ---------------------------------------------------------------------------

  /** In order, all that lies below the last item of a prefix lies in the prefix before it, and
      the prefix lies up to that item. */
  lemma {:induction false} PrefixBounds(ps: seq<Pair>, n: nat)
    requires Ordered(ps) && n < |ps|
    ensures Lighter(ps, ps[n].item) <= Total(ps[..n])
    ensures Total(ps[..n + 1]) <= Lighter(ps, ps[n].item + 1)
  {
    var y := ps[n].item;
    assert ps == ps[..n] + ps[n..] && ps == ps[..n + 1] + ps[n + 1..];
    WeightConcat(ps[..n], ps[n..], y);
    WeightConcat(ps[..n + 1], ps[n + 1..], y + 1);
    LighterAtMost(ps[..n], y);
    NoneLighter(ps[n..], y);
    AllLighter(ps[..n + 1], y + 1);
  }

  lemma {:induction false} LighterAtMost(ps: seq<Pair>, x: int)
    ensures Lighter(ps, x) <= Total(ps)
  {
    if ps != [] { LighterAtMost(ps[1..], x); }
  }

  lemma {:induction false} NoneLighter(ps: seq<Pair>, x: int)
    requires forall i | 0 <= i < |ps| :: x <= ps[i].item
    ensures Lighter(ps, x) == 0
  {
    if ps != [] { NoneLighter(ps[1..], x); }
  }

  lemma {:induction false} AllLighter(ps: seq<Pair>, x: int)
    requires forall i | 0 <= i < |ps| :: ps[i].item < x
    ensures Lighter(ps, x) == Total(ps)
  {
    if ps != [] { AllLighter(ps[1..], x); }
  }

  lemma TotalNext(ps: seq<Pair>, n: nat)
    requires n < |ps|
    ensures Total(ps[..n + 1]) == Total(ps[..n]) + ps[n].weight
  {
    assert ps[..n + 1] == ps[..n] + [ps[n]];
    WeightConcat(ps[..n], [ps[n]], 0);
  }

  ghost predicate Weighed(ps: seq<Pair>, levels: seq<seq<int>>) {
    Ordered(ps) && Total(ps) == Mass(levels) && forall x :: Lighter(ps, x) == Rank(levels, x)
  }

  method Gather(levels: seq<seq<int>>) returns (ps: seq<Pair>)
    ensures Weighed(ps, levels)
  {
    ps := SortPairs(Pairs(levels, 1));
    SortPairsKeeps(Pairs(levels, 1), 0);
    PairsWeights(levels, 1, 0);
    forall x ensures Lighter(ps, x) == Rank(levels, x) {
      SortPairsKeeps(Pairs(levels, 1), x);
      PairsWeights(levels, 1, x);
    }
  }

  /** How far the sweep has come: some prefix is consumed, and without its last item it weighs
      less than every rank still to be answered. */
  predicate Swept(ps: seq<Pair>, consumed: nat, cumulative: nat, reached: nat) {
    && consumed <= |ps| && cumulative == Total(ps[..consumed])
    && (0 < consumed ==> Total(ps[..consumed - 1]) < reached)
  }

  method Advance(ps: seq<Pair>, consumed0: nat, cumulative0: nat, ghost reached: nat, r: nat) returns (consumed: nat, cumulative: nat)
    requires Swept(ps, consumed0, cumulative0, reached) && reached <= r && 0 < r < Total(ps)
    ensures Swept(ps, consumed, cumulative, r) && 0 < consumed && r <= cumulative
  {
    consumed, cumulative := consumed0, cumulative0;
    while cumulative < r
      invariant Swept(ps, consumed, cumulative, r)
      decreases |ps| - consumed
    {
      assert ps[..|ps|] == ps;
      TotalNext(ps, consumed);
      cumulative := cumulative + ps[consumed].weight;
      consumed := consumed + 1;
    }
  }

  lemma SweptCovers(ps: seq<Pair>, levels: seq<seq<int>>, consumed: nat, cumulative: nat, r: nat)
    requires Weighed(ps, levels) && Swept(ps, consumed, cumulative, r) && 0 < consumed && r <= cumulative
    ensures Covers(levels, r, ps[consumed - 1].item)
  {
    PrefixBounds(ps, consumed - 1);
  }

  method AtRanks(levels: seq<seq<int>>, min: Option<int>, max: Option<int>, ranks: seq<nat>) returns (answers: seq<Option<int>>)
    ensures |answers| == |ranks|
    ensures forall i | 0 <= i < |ranks| :: Answers(levels, min, max, ranks[i], answers[i])
  {
    answers := seq(|ranks|, _ => None);
    if Mass(levels) == 0 { return; }
    var ps := Gather(levels);
    var slots := SortSlots(ranks, 0);
    var consumed, cumulative := 0, 0;
    ghost var reached := 0;
    var n := 0;
    while n < |slots|
      invariant n <= |slots| && |answers| == |ranks|
      invariant Swept(ps, consumed, cumulative, reached)
      invariant forall j | n <= j < |slots| :: reached <= ranks[slots[j]]
      invariant forall j | 0 <= j < n :: Answers(levels, min, max, ranks[slots[j]], answers[slots[j]])
    {
      var slot := slots[n];
      var r := ranks[slot];
      if r == 0 {
        answers := answers[slot := min];
      } else if Mass(levels) <= r {
        answers := answers[slot := max];
      } else {
        consumed, cumulative := Advance(ps, consumed, cumulative, reached, r);
        reached := r;
        SweptCovers(ps, levels, consumed, cumulative, r);
        answers := answers[slot := Some(ps[consumed - 1].item)];
      }
      n := n + 1;
    }
    forall i | 0 <= i < |ranks| ensures Answers(levels, min, max, ranks[i], answers[i]) {
      assert i in slots;
    }
  }
}
