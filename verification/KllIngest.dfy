/** The faster ways into a KLL sketch - `absorb`, chunk filling, and merging another sketch -
    against inserting one item at a time. */
module KllIngest {
  import opened Wrappers
  import opened Naturals
  import opened Sorting
  import opened KllCore

  lemma PourNothing(c: Core)
    requires Ready(c)
    ensures Pour(c, []) == c
  {
    assert c.levels[0] + [] == c.levels[0];
    SortOfSorted(c.levels[0]);
    assert c.levels[0 := c.levels[0]] == c.levels;
  }

  lemma SortOfSortPlus(a: seq<int>, b: seq<int>)
    ensures Sort(Sort(a) + b) == Sort(a + b)
  {
    SortSorted(a + b);
    forall x ensures Below(Sort(a + b), x) == Below(Sort(a) + b, x) {
      SortBelow(a + b, x);
      BelowConcat(a, b, x);
      BelowConcat(Sort(a), b, x);
      SortBelow(a, x);
    }
    SortIs(Sort(a) + b, Sort(a + b));
  }

  lemma PourAgain(c: Core, a: seq<int>, b: seq<int>)
    requires Ready(c)
    ensures Pour(Pour(c, a), b) == Pour(c, a + b)
  {
    SortOfSortPlus(c.levels[0] + a, b);
    assert c.levels[0] + a + b == c.levels[0] + (a + b);
  }

  lemma InsertEachLast(k: nat, coins: nat -> bool, c: Core, xs: seq<int>, x: int)
    requires Ready(c)
    ensures InsertEach(k, coins, c, xs + [x]) == InsertOne(k, coins, InsertEach(k, coins, c, xs), x)
  {
    assert (xs + [x])[..|xs|] == xs;
  }

  lemma {:induction false} InsertEachConcat(k: nat, coins: nat -> bool, c: Core, a: seq<int>, b: seq<int>)
    requires Ready(c)
    ensures InsertEach(k, coins, c, a + b) == InsertEach(k, coins, InsertEach(k, coins, c, a), b)
    decreases |b|
  {
    if b == [] {
      assert a + b == a;
    } else {
      var init, x := b[..|b| - 1], b[|b| - 1];
      assert a + init + [x] == a + b && init + [x] == b;
      var middle := InsertEach(k, coins, c, a);
      calc {
        InsertEach(k, coins, c, a + b);
        { InsertEachLast(k, coins, c, a + init, x); }
        InsertOne(k, coins, InsertEach(k, coins, c, a + init), x);
        { InsertEachConcat(k, coins, c, a, init); }
        InsertOne(k, coins, InsertEach(k, coins, middle, init), x);
        { InsertEachLast(k, coins, middle, init, x); }
        InsertEach(k, coins, middle, b);
      }
    }
  }

  /** Pouring in fewer items than level 0 has room for leaves nothing to compact. */
  lemma PourStaysSettled(k: nat, c: Core, xs: seq<int>)
    requires Ready(c) && Settled(k, c.levels)
    requires |c.levels[0]| + |xs| < Capacity(k, |c.levels|, 0)
    ensures Settled(k, Pour(c, xs).levels)
  {
    var levels := Pour(c, xs).levels;
    forall h | 0 <= h < |levels| ensures !Full(k, levels, h) {
      if 0 < h { assert !Full(k, c.levels, h); }
    }
  }

  /** A chunk that at most fills level 0 may be poured in at once, compacting only if it fills it. */
  lemma {:induction false} ChunkIsInserts(k: nat, coins: nat -> bool, c: Core, chunk: seq<int>)
    requires Ready(c) && Settled(k, c.levels)
    requires |c.levels[0]| + |chunk| <= Capacity(k, |c.levels|, 0)
    ensures Ready(Pour(c, chunk)) && InsertEach(k, coins, c, chunk) == Settle(k, coins, Pour(c, chunk))
    decreases |chunk|
  {
    PourSorted(c, chunk);
    if chunk == [] {
      PourNothing(c);
    } else {
      var init, x := chunk[..|chunk| - 1], chunk[|chunk| - 1];
      ChunkIsInserts(k, coins, c, init);
      PourStaysSettled(k, c, init);
      PourAgain(c, init, [x]);
      assert init + [x] == chunk;
    }
  }

  // ---------------------------------------------------------------------------
  // absorb
  // ---------------------------------------------------------------------------

  /** One item absorbed: the stack is only looked at when level 0 reaches its capacity. */
  ghost function AbsorbOne(k: nat, coins: nat -> bool, c: Core, x: int): (r: Core)
    requires Ready(c)
    ensures Ready(r)
  {
    var poured := Pour(c, [x]);
    PourSorted(c, [x]);
    SettleReady(k, coins, poured);
    if Full(k, poured.levels, 0) then Settle(k, coins, poured) else poured
  }

  ghost function AbsorbEach(k: nat, coins: nat -> bool, c: Core, xs: seq<int>): (r: Core)
    requires Ready(c)
    ensures Ready(r)
    decreases |xs|
  {
    if xs == [] then c else AbsorbOne(k, coins, AbsorbEach(k, coins, c, xs[..|xs| - 1]), xs[|xs| - 1])
  }

  /** From a settled sketch, absorbing leaves exactly the sketch that inserting one by one leaves:
      the same items, the same coins flipped. */
  lemma {:induction false} AbsorbIsInserts(k: nat, coins: nat -> bool, c: Core, xs: seq<int>)
    requires Ready(c) && Settled(k, c.levels)
    ensures AbsorbEach(k, coins, c, xs) == InsertEach(k, coins, c, xs)
    decreases |xs|
  {
    if xs != [] {
      AbsorbIsInserts(k, coins, c, xs[..|xs| - 1]);
      var before := InsertEach(k, coins, c, xs[..|xs| - 1]);
      if !Full(k, Pour(before, [xs[|xs| - 1]]).levels, 0) {
        PourStaysSettled(k, before, [xs[|xs| - 1]]);
      }
    }
  }

  /** A level above 0 at its capacity, as a rebuilt sketch may have, is compacted by the next
      insert and overlooked by the next absorb: the two agree exactly when no such level exists
      or the item fills level 0. */
  lemma AbsorbOneAgreesIff(k: nat, coins: nat -> bool, c: Core, x: int)
    requires Ready(c)
    ensures AbsorbOne(k, coins, c, x) == InsertOne(k, coins, c, x)
      <==> |c.levels[0]| + 1 >= Capacity(k, |c.levels|, 0) || forall h | 1 <= h < |c.levels| :: !Full(k, c.levels, h)
  {
    var poured := Pour(c, [x]);
    assert forall h | 1 <= h < |c.levels| :: Full(k, c.levels, h) == Full(k, poured.levels, h);
    if !Full(k, poured.levels, 0) && exists h | 1 <= h < |c.levels| :: Full(k, c.levels, h) {
      assert !Settled(k, poured.levels);
    }
  }

  /** What may be rebuilt into a sketch. */
  predicate Accepted(k: nat, levels: seq<seq<int>>) {
    && levels != [] && MIN_LEVEL_WIDTH <= k
    && forall h | 0 <= h < |levels| :: |levels[h]| <= Capacity(k, |levels|, h)
  }

  lemma NarrowTwo()
    ensures Capacity(8, 2, 1) == 8 && Capacity(8, 2, 0) == 8
  {
    assert Power(3, 1) == 3 * Power(3, 0) && Doubled(16, 1) == 32;
    DivIsQuotient(16, 1);
    DivIsQuotient(32, 3);
  }

  lemma NarrowDiffers(coins: nat -> bool, c: Core, x: int)
    requires Ready(c) && |c.levels| == 2 && c.levels[0] == [] && |c.levels[1]| == 8
    ensures Accepted(8, c.levels) && AbsorbOne(8, coins, c, x) != InsertOne(8, coins, c, x)
  {
    NarrowTwo();
    assert Full(8, c.levels, 1);
    AbsorbOneAgreesIff(8, coins, c, x);
  }

  /** Such a sketch can be rebuilt: accepted with level 1 at its capacity, and then absorbing an
      item is not inserting it. */
  lemma RebuiltSketchDiffers(coins: nat -> bool)
    ensures var c := Core([[], [1, 2, 3, 4, 5, 6, 7, 8]], 0, 0);
      Accepted(8, c.levels) && Ready(c) && AbsorbOne(8, coins, c, 0) != InsertOne(8, coins, c, 0)
  {
    NarrowDiffers(coins, Core([[], [1, 2, 3, 4, 5, 6, 7, 8]], 0, 0), 0);
  }

  // ---------------------------------------------------------------------------
  // Merging two sketches
  // ---------------------------------------------------------------------------

  function Level(levels: seq<seq<int>>, h: nat): seq<int> {
    if h < |levels| then levels[h] else []
  }

  function Join(a: seq<seq<int>>, b: seq<seq<int>>): (r: seq<seq<int>>)
    ensures |r| == if |a| < |b| then |b| else |a|
    ensures forall h | 0 <= h < |r| :: r[h] == Sort(Level(a, h) + Level(b, h))
  {
    seq(if |a| < |b| then |b| else |a|, h requires 0 <= h => Sort(Level(a, h) + Level(b, h)))
  }

  function Above(levels: seq<seq<int>>): seq<seq<int>> {
    if levels == [] then [] else levels[1..]
  }

  lemma JoinAbove(a: seq<seq<int>>, b: seq<seq<int>>)
    requires a != [] || b != []
    ensures Join(a, b)[1..] == Join(Above(a), Above(b))
  {
    forall h | 0 <= h < |Join(a, b)| - 1 ensures Join(a, b)[h + 1] == Join(Above(a), Above(b))[h] {
      assert Level(a, h + 1) == Level(Above(a), h) && Level(b, h + 1) == Level(Above(b), h);
    }
  }

  lemma {:induction false} JoinMass(a: seq<seq<int>>, b: seq<seq<int>>)
    ensures Mass(Join(a, b)) == Mass(a) + Mass(b)
    decreases |a| + |b|
  {
    if a != [] || b != [] {
      JoinAbove(a, b);
      JoinMass(Above(a), Above(b));
    }
  }

  lemma {:induction false} JoinRank(a: seq<seq<int>>, b: seq<seq<int>>, x: int)
    ensures Rank(Join(a, b), x) == Rank(a, x) + Rank(b, x)
    decreases |a| + |b|
  {
    if a != [] || b != [] {
      JoinAbove(a, b);
      JoinRank(Above(a), Above(b), x);
      SortBelow(Level(a, 0) + Level(b, 0), x);
      BelowConcat(Level(a, 0), Level(b, 0), x);
    }
  }

  function Joined(c: Core, d: Core): Core {
    Core(Join(c.levels, d.levels), c.flips, c.spent + d.spent)
  }

  lemma JoinedReady(c: Core, d: Core)
    requires Ready(c)
    ensures Ready(Joined(c, d))
  {
    forall h | 0 <= h < |Join(c.levels, d.levels)| ensures Sorted(Join(c.levels, d.levels)[h]) {
      SortSorted(Level(c.levels, h) + Level(d.levels, h));
    }
  }

  function LowerOf(a: Option<int>, b: Option<int>): Option<int> {
    if b.None? then a else Lower(a, b.value)
  }

  function HigherOf(a: Option<int>, b: Option<int>): Option<int> {
    if b.None? then a else Higher(a, b.value)
  }

  ghost function Merge(k: nat, coins: nat -> bool, s: Sketch, t: Sketch): Sketch
    requires Ready(s.core)
  {
    JoinedReady(s.core, t.core);
    Sketch(Settle(k, coins, Joined(s.core, t.core)), LowerOf(s.min, t.min), HigherOf(s.max, t.max))
  }

  lemma JoinedFits(c: Core, d: Core, left: seq<int>, right: seq<int>)
    requires Fits(c, left) && Fits(d, right)
    ensures Fits(Joined(c, d), left + right)
  {
    JoinedReady(c, d);
    JoinMass(c.levels, d.levels);
    forall x ensures Estimates(Rank(Join(c.levels, d.levels), x), Below(left + right, x), |left + right|, c.spent + d.spent) {
      JoinRank(c.levels, d.levels, x);
      BelowConcat(left, right, x);
      assert Estimates(Rank(c.levels, x), Below(left, x), |left|, c.spent);
      assert Estimates(Rank(d.levels, x), Below(right, x), |right|, d.spent);
    }
  }

  lemma ExtremesJoin(s: Sketch, t: Sketch, left: seq<int>, right: seq<int>)
    requires IsLeast(s.min, left) && IsGreatest(s.max, left) && IsLeast(t.min, right) && IsGreatest(t.max, right)
    ensures IsLeast(LowerOf(s.min, t.min), left + right) && IsGreatest(HigherOf(s.max, t.max), left + right)
  {
    if right == [] { assert left + right == left; }
    if left == [] { assert left + right == right; }
  }

  /** A merged sketch summarizes both streams: counts add, extremes are exact, and the error of a
      rank is at most both errors plus the weight of the compactions the merge itself does. */
  lemma MergeSummarizes(k: nat, coins: nat -> bool, s: Sketch, t: Sketch, left: seq<int>, right: seq<int>)
    requires Summarizes(s, left) && Summarizes(t, right)
    ensures Summarizes(Merge(k, coins, s, t), left + right)
  {
    JoinedFits(s.core, t.core, left, right);
    SettleFits(k, coins, Joined(s.core, t.core), left + right);
    ExtremesJoin(s, t, left, right);
  }
}
