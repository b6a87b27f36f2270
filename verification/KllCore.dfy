/** The KLL quantile sketch as a value: a stack of compactors, each kept in order, and the coin
    flips as a fixed sequence of which the sketch has used the first `flips`. `spent` adds up
    `2^h` over the compactions done so far; the program does not store it, the error bound does. */
module KllCore {
  import opened Wrappers
  import opened Naturals
  import opened Sorting

  const MIN_LEVEL_WIDTH: nat := 8

  datatype Core = Core(levels: seq<seq<int>>, flips: nat, spent: nat)

  datatype Sketch = Sketch(core: Core, min: Option<int>, max: Option<int>)

  function Power(base: nat, e: nat): (r: nat)
    requires 0 < base
    ensures 0 < r
  {
    if e == 0 then 1 else base * Power(base, e - 1)
  }

  /** `n` times two to the power `d`. */
  function Doubled(n: nat, d: nat): nat {
    if d == 0 then n else 2 * Doubled(n, d - 1)
  }

  /** Twice `k` times two thirds to the power `depth`, rounded down. */
  function Shrunk(k: nat, depth: nat): nat {
    Div(Doubled(2 * k, depth), Power(3, depth))
  }

  function Capacity(k: nat, height: nat, h: nat): (c: nat)
    requires h < height
    ensures MIN_LEVEL_WIDTH <= c
  {
    var depth := height - h - 1;
    var raw := (Shrunk(k, depth) + 1) / 2;
    if raw < MIN_LEVEL_WIDTH then MIN_LEVEL_WIDTH else raw
  }

  lemma {:induction false} DoubledIs(n: nat, d: nat)
    ensures Doubled(n, d) == n * Power(2, d)
  {
    if 0 < d {
      DoubledIs(n, d - 1);
      TwiceProduct(n, Power(2, d - 1));
    }
  }

  lemma TwiceProduct(n: nat, p: nat)
    ensures n * (2 * p) == 2 * (n * p)
  {
  }

  lemma ShrunkIs(k: nat, depth: nat)
    ensures Shrunk(k, depth) == 2 * k * Power(2, depth) / Power(3, depth)
  {
    DoubledIs(2 * k, depth);
    DivIsQuotient(Doubled(2 * k, depth), Power(3, depth));
  }

  /** What `n` items count for at level `h`: `2^h` times `n`. */
  function Weigh(h: nat, n: int): int {
    if h == 0 then n else 2 * Weigh(h - 1, n)
  }

  lemma {:induction false} WeighSum(h: nat, a: int, b: int)
    ensures Weigh(h, a) + Weigh(h, b) == Weigh(h, a + b)
  {
    if 0 < h { WeighSum(h - 1, a, b); }
  }

  /** Two items at one level weigh as much as one at the next. */
  lemma {:induction false} WeighUp(h: nat, n: int)
    ensures Weigh(h + 1, n) == Weigh(h, 2 * n)
  {
    if 0 < h { WeighUp(h - 1, n); }
  }

  lemma {:induction false} WeighOrder(h: nat, a: int, b: int)
    requires a <= b
    ensures Weigh(h, a) <= Weigh(h, b) && Weigh(h, 0) == 0
  {
    if 0 < h { WeighOrder(h - 1, a, b); }
  }

  // ---------------------------------------------------------------------------
  // What the stack says: total weight, rank, and how much is retained
  // ---------------------------------------------------------------------------

  function Mass(levels: seq<seq<int>>): nat {
    if levels == [] then 0 else |levels[0]| + 2 * Mass(levels[1..])
  }

  function Rank(levels: seq<seq<int>>, x: int): nat {
    if levels == [] then 0 else Below(levels[0], x) + 2 * Rank(levels[1..], x)
  }

  function Retained(levels: seq<seq<int>>): nat {
    if levels == [] then 0 else |levels[0]| + Retained(levels[1..])
  }

  ghost predicate AllSorted(levels: seq<seq<int>>) {
    forall h | 0 <= h < |levels| :: Sorted(levels[h])
  }

  lemma {:induction false} UpdateLevel(levels: seq<seq<int>>, h: nat, b: seq<int>)
    requires h < |levels|
    ensures Mass(levels[h := b]) == Mass(levels) + Weigh(h, |b| - |levels[h]|)
    ensures Retained(levels[h := b]) == Retained(levels) + |b| - |levels[h]|
  {
    if h == 0 {
      assert levels[0 := b][1..] == levels[1..];
    } else {
      UpdateLevel(levels[1..], h - 1, b);
      assert levels[h := b][1..] == levels[1..][h - 1 := b];
    }
  }

  lemma {:induction false} UpdateRank(levels: seq<seq<int>>, h: nat, b: seq<int>, x: int)
    requires h < |levels|
    ensures Rank(levels[h := b], x) == Rank(levels, x) + Weigh(h, Below(b, x) - Below(levels[h], x))
  {
    if h == 0 {
      assert levels[0 := b][1..] == levels[1..];
    } else {
      UpdateRank(levels[1..], h - 1, b, x);
      assert levels[h := b][1..] == levels[1..][h - 1 := b];
    }
  }

  lemma UpdateTwo(levels: seq<seq<int>>, h: nat, a: seq<int>, b: seq<int>, da: int, db: int)
    requires h + 1 < |levels| && da == |a| - |levels[h]| && db == |b| - |levels[h + 1]|
    ensures Mass(levels[h := a][h + 1 := b]) == Mass(levels) + Weigh(h, da + 2 * db)
    ensures Retained(levels[h := a][h + 1 := b]) == Retained(levels) + da + db
  {
    UpdateLevel(levels, h, a);
    UpdateLevel(levels[h := a], h + 1, b);
    WeighUp(h, db);
    WeighSum(h, da, 2 * db);
  }

  lemma UpdateTwoRank(levels: seq<seq<int>>, h: nat, a: seq<int>, b: seq<int>, x: int, da: int, db: int)
    requires h + 1 < |levels|
    requires da == Below(a, x) - Below(levels[h], x) && db == Below(b, x) - Below(levels[h + 1], x)
    ensures Rank(levels[h := a][h + 1 := b], x) == Rank(levels, x) + Weigh(h, da + 2 * db)
  {
    UpdateRank(levels, h, a, x);
    UpdateRank(levels[h := a], h + 1, b, x);
    WeighUp(h, db);
    WeighSum(h, da, 2 * db);
  }

  lemma {:induction false} EmptyLevelOnTop(levels: seq<seq<int>>)
    ensures Mass(levels + [[]]) == Mass(levels) && Retained(levels + [[]]) == Retained(levels)
    ensures forall x :: Rank(levels + [[]], x) == Rank(levels, x)
  {
    if levels == [] {
      assert levels + [[]] == [[]];
      assert [[]][1..] == levels;
    } else {
      EmptyLevelOnTop(levels[1..]);
      assert (levels + [[]])[1..] == levels[1..] + [[]];
    }
  }

  // ---------------------------------------------------------------------------
  // Compaction of one level
  // ---------------------------------------------------------------------------

  /** Every other item, from the second when the coin says so, else from the first. */
  function Alternate(buf: seq<int>, heads: bool): (r: seq<int>)
    ensures |r| == |buf| / 2
  {
    if |buf| < 2 then [] else [if heads then buf[1] else buf[0]] + Alternate(buf[2..], heads)
  }

  function Raised(levels: seq<seq<int>>, h: nat): (r: seq<seq<int>>)
    requires h < |levels|
    ensures h + 1 < |r|
  {
    if h + 1 == |levels| then levels + [[]] else levels
  }

  lemma RaisedKeeps(levels: seq<seq<int>>, h: nat)
    requires h < |levels|
    ensures Mass(Raised(levels, h)) == Mass(levels) && Retained(Raised(levels, h)) == Retained(levels)
    ensures forall x :: Rank(Raised(levels, h), x) == Rank(levels, x)
    ensures Raised(levels, h)[h] == levels[h]
  {
    EmptyLevelOnTop(levels);
  }

  /** The smallest item of an odd number stays behind. */
  function Kept(buf: seq<int>): (r: seq<int>)
    ensures |r| == |buf| % 2
  {
    buf[..|buf| % 2]
  }

  function Paired(buf: seq<int>): (r: seq<int>)
    ensures |r| % 2 == 0 && |r| == |buf| - |buf| % 2
    ensures buf == Kept(buf) + r
  {
    buf[|buf| % 2..]
  }

  function Promote(next: seq<int>, buf: seq<int>, heads: bool): (r: seq<int>)
    ensures |r| == |next| + |buf| / 2
  {
    Sort(next + Alternate(Paired(buf), heads))
  }

  function Compact(levels: seq<seq<int>>, h: nat, heads: bool): (r: seq<seq<int>>)
    requires h < |levels|
    ensures |levels| <= |r|
  {
    var up := Raised(levels, h);
    up[h := Kept(levels[h])][h + 1 := Promote(up[h + 1], levels[h], heads)]
  }

  lemma {:induction false} AlternateSorted(buf: seq<int>, heads: bool)
    requires Sorted(buf)
    ensures Sorted(Alternate(buf, heads))
    ensures forall y | y in Alternate(buf, heads) :: y in buf
  {
    if 2 <= |buf| {
      AlternateSorted(buf[2..], heads);
      var rest := Alternate(buf[2..], heads);
      forall i | 0 <= i < |rest| ensures buf[1] <= rest[i] {
        assert rest[i] in rest;
        var j :| 0 <= j < |buf[2..]| && buf[2..][j] == rest[i];
        assert buf[2..][j] == buf[j + 2];
      }
      assert forall y | y in buf[2..] :: y in buf;
    }
  }

  /** Of an even number of items in order, the tails half holds the first of each pair and so
      rounds the count below a probe up; the heads half rounds it down. */
  lemma {:induction false} AlternateBelow(buf: seq<int>, heads: bool, x: int)
    requires Sorted(buf) && |buf| % 2 == 0
    ensures Below(Alternate(buf, heads), x) == (if heads then Below(buf, x) / 2 else (Below(buf, x) + 1) / 2)
  {
    if buf != [] {
      var rest := buf[2..];
      AlternateBelow(rest, heads, x);
      assert buf == [buf[0], buf[1]] + rest;
      BelowConcat([buf[0], buf[1]], rest, x);
      assert [buf[0], buf[1]][1..] == [buf[1]];
      var first := if heads then buf[1] else buf[0];
      assert Alternate(buf, heads) == [first] + Alternate(rest, heads);
      BelowConcat([first], Alternate(rest, heads), x);
      if x <= buf[1] {
        NoneBelowFirst(rest, x);
      }
    }
  }

  /** The shift of a rank, in units of the level's weight. */
  function Tilt(buf: seq<int>, heads: bool, x: int): (d: int)
    ensures -1 <= d <= 1
  {
    if Below(Paired(buf), x) % 2 == 0 then 0 else if heads then -1 else 1
  }

  lemma PromoteBelow(next: seq<int>, buf: seq<int>, heads: bool, x: int)
    ensures Below(Promote(next, buf, heads), x) == Below(next, x) + Below(Alternate(Paired(buf), heads), x)
  {
    var promoted := Alternate(Paired(buf), heads);
    SortBelow(next + promoted, x);
    BelowConcat(next, promoted, x);
  }

  lemma HalvesBelow(buf: seq<int>, next: seq<int>, heads: bool, x: int, stay: int, rise: int)
    requires Sorted(buf)
    requires stay == Below(Kept(buf), x) - Below(buf, x) && rise == Below(Promote(next, buf, heads), x) - Below(next, x)
    ensures stay + 2 * rise == Tilt(buf, heads, x)
  {
    var even := Paired(buf);
    BelowConcat(Kept(buf), even, x);
    PromoteBelow(next, buf, heads, x);
    AlternateBelow(even, heads, x);
  }

  lemma CompactRank(levels: seq<seq<int>>, h: nat, heads: bool, x: int)
    requires h < |levels| && Sorted(levels[h])
    ensures Rank(Compact(levels, h, heads), x) == Rank(levels, x) + Weigh(h, Tilt(levels[h], heads, x))
  {
    var up, buf := Raised(levels, h), levels[h];
    var kept, next := Kept(buf), Promote(up[h + 1], buf, heads);
    var stay, rise := Below(kept, x) - Below(buf, x), Below(next, x) - Below(up[h + 1], x);
    RaisedKeeps(levels, h);
    HalvesBelow(buf, up[h + 1], heads, x, stay, rise);
    UpdateTwoRank(up, h, kept, next, x, stay, rise);
  }

  /** The coin makes a compaction unbiased: over its two outcomes the shifts of every rank cancel. */
  lemma CoinsCancel(levels: seq<seq<int>>, h: nat, x: int)
    requires h < |levels| && Sorted(levels[h])
    ensures Rank(Compact(levels, h, true), x) + Rank(Compact(levels, h, false), x) == 2 * Rank(levels, x)
  {
    CompactRank(levels, h, true, x);
    CompactRank(levels, h, false, x);
    WeighSum(h, Tilt(levels[h], true, x), Tilt(levels[h], false, x));
    WeighOrder(h, 0, 0);
  }

  /** Compaction keeps the total weight and drops half of what it halves. */
  lemma CompactKeeps(levels: seq<seq<int>>, h: nat, heads: bool)
    requires h < |levels|
    ensures Mass(Compact(levels, h, heads)) == Mass(levels)
    ensures Retained(Compact(levels, h, heads)) == Retained(levels) - |levels[h]| / 2
  {
    var up, buf := Raised(levels, h), levels[h];
    RaisedKeeps(levels, h);
    UpdateTwo(up, h, Kept(buf), Promote(up[h + 1], buf, heads), |buf| % 2 - |buf|, |buf| / 2);
    WeighOrder(h, 0, 0);
  }

  lemma CompactSorted(levels: seq<seq<int>>, h: nat, heads: bool)
    requires h < |levels| && AllSorted(levels)
    ensures AllSorted(Compact(levels, h, heads))
  {
    SortSorted(Raised(levels, h)[h + 1] + Alternate(Paired(levels[h]), heads));
  }

  // ---------------------------------------------------------------------------
  // Compaction to a fixed point
  // ---------------------------------------------------------------------------

  predicate Full(k: nat, levels: seq<seq<int>>, h: nat)
    requires h < |levels|
  {
    Capacity(k, |levels|, h) <= |levels[h]|
  }

  predicate Settled(k: nat, levels: seq<seq<int>>) {
    forall h | 0 <= h < |levels| :: !Full(k, levels, h)
  }

  /** The lowest full level at or above `h`. */
  function FirstFull(k: nat, levels: seq<seq<int>>, h: nat): (r: Option<nat>)
    requires h <= |levels|
    ensures r.None? ==> forall i | h <= i < |levels| :: !Full(k, levels, i)
    ensures r.Some? ==> h <= r.value < |levels| && Full(k, levels, r.value)
    ensures r.Some? ==> forall i | h <= i < r.value :: !Full(k, levels, i)
    decreases |levels| - h
  {
    if h == |levels| then None else if Full(k, levels, h) then Some(h) else FirstFull(k, levels, h + 1)
  }

  function Flip(coins: nat -> bool, c: Core, h: nat): (r: Core)
    requires h < |c.levels|
    ensures |c.levels| <= |r.levels|
  {
    WeighOrder(h, 0, 1);
    Core(Compact(c.levels, h, coins(c.flips)), c.flips + 1, c.spent + Weigh(h, 1))
  }

  ghost function Settle(k: nat, coins: nat -> bool, c: Core): (r: Core)
    requires AllSorted(c.levels)
    ensures |c.levels| <= |r.levels| && Settled(k, r.levels)
    ensures Settled(k, c.levels) ==> r == c
    decreases Retained(c.levels)
  {
    match FirstFull(k, c.levels, 0)
    case None => c
    case Some(h) =>
      CompactKeeps(c.levels, h, coins(c.flips));
      CompactSorted(c.levels, h, coins(c.flips));
      Settle(k, coins, Flip(coins, c, h))
  }

  // ---------------------------------------------------------------------------
  // What a sketch knows of the stream it has seen
  // ---------------------------------------------------------------------------

  predicate Close(a: int, b: int, error: int) {
    a - b <= error && b - a <= error
  }

  /** A rank estimate for a probe with `exact` of `n` items below it: off by at most `error`, and
      not at all below or above every item. */
  predicate Estimates(estimate: int, exact: int, n: int, error: int) {
    && Close(estimate, exact, error)
    && (exact == 0 || exact == n ==> estimate == exact)
  }

  /** The count is exact, and every rank is off by at most the weight of the compactions done. */
  ghost predicate Fits(c: Core, stream: seq<int>) {
    && c.levels != []
    && AllSorted(c.levels)
    && Mass(c.levels) == |stream|
    && forall x :: Estimates(Rank(c.levels, x), Below(stream, x), |stream|, c.spent)
  }

  lemma {:induction false} RankAtEnds(levels: seq<seq<int>>, x: int, h: nat)
    requires h < |levels|
    ensures Rank(levels, x) <= Mass(levels)
    ensures Rank(levels, x) == 0 ==> Below(levels[h], x) == 0
    ensures Rank(levels, x) == Mass(levels) ==> Below(levels[h], x) == |levels[h]|
  {
    RankAtMost(levels[1..], x);
    if 0 < h { RankAtEnds(levels[1..], x, h - 1); }
  }

  lemma {:induction false} RankAtMost(levels: seq<seq<int>>, x: int)
    ensures Rank(levels, x) <= Mass(levels)
  {
    if levels != [] { RankAtMost(levels[1..], x); }
  }

  /** A probe below or above every item of a level is not moved by compacting it. */
  lemma TiltAtEnds(buf: seq<int>, heads: bool, x: int)
    requires Below(buf, x) == 0 || Below(buf, x) == |buf|
    ensures Tilt(buf, heads, x) == 0
  {
    BelowConcat(Kept(buf), Paired(buf), x);
  }

  lemma FlipEstimates(c: Core, h: nat, heads: bool, stream: seq<int>, x: int)
    requires h < |c.levels| && Fits(c, stream)
    ensures Estimates(Rank(Compact(c.levels, h, heads), x), Below(stream, x), |stream|, c.spent + Weigh(h, 1))
  {
    var d := Tilt(c.levels[h], heads, x);
    assert Estimates(Rank(c.levels, x), Below(stream, x), |stream|, c.spent);
    CompactRank(c.levels, h, heads, x);
    RankAtEnds(c.levels, x, h);
    if Below(stream, x) == 0 || Below(stream, x) == |stream| { TiltAtEnds(c.levels[h], heads, x); }
    WeighOrder(h, d, 1);
    WeighOrder(h, -d, 1);
    WeighSum(h, d, -d);
  }

  lemma FlipFits(coins: nat -> bool, c: Core, h: nat, stream: seq<int>)
    requires h < |c.levels| && Fits(c, stream)
    ensures Fits(Flip(coins, c, h), stream)
  {
    var heads := coins(c.flips);
    CompactKeeps(c.levels, h, heads);
    CompactSorted(c.levels, h, heads);
    forall x ensures Estimates(Rank(Compact(c.levels, h, heads), x), Below(stream, x), |stream|, c.spent + Weigh(h, 1)) {
      FlipEstimates(c, h, heads, stream, x);
    }
  }

  lemma {:induction false} SettleFits(k: nat, coins: nat -> bool, c: Core, stream: seq<int>)
    requires Fits(c, stream)
    ensures Fits(Settle(k, coins, c), stream)
    decreases Retained(c.levels)
  {
    match FirstFull(k, c.levels, 0)
    case None =>
    case Some(h) =>
      CompactKeeps(c.levels, h, coins(c.flips));
      CompactSorted(c.levels, h, coins(c.flips));
      FlipFits(coins, c, h, stream);
      SettleFits(k, coins, Flip(coins, c, h), stream);
  }

  /** Items land on level 0. */
  function Pour(c: Core, xs: seq<int>): (r: Core)
    requires c.levels != []
    ensures |r.levels| == |c.levels|
  {
    c.(levels := c.levels[0 := Sort(c.levels[0] + xs)])
  }

  lemma PourSorted(c: Core, xs: seq<int>)
    requires c.levels != [] && AllSorted(c.levels)
    ensures AllSorted(Pour(c, xs).levels)
  {
    SortSorted(c.levels[0] + xs);
  }

  lemma PourFits(c: Core, stream: seq<int>, xs: seq<int>)
    requires Fits(c, stream)
    ensures Fits(Pour(c, xs), stream + xs)
  {
    var bottom := Sort(c.levels[0] + xs);
    SortSorted(c.levels[0] + xs);
    UpdateLevel(c.levels, 0, bottom);
    forall x ensures Estimates(Rank(Pour(c, xs).levels, x), Below(stream + xs, x), |stream + xs|, c.spent) {
      assert Estimates(Rank(c.levels, x), Below(stream, x), |stream|, c.spent);
      UpdateRank(c.levels, 0, bottom, x);
      SortBelow(c.levels[0] + xs, x);
      BelowConcat(c.levels[0], xs, x);
      BelowConcat(stream, xs, x);
    }
  }

  // ---------------------------------------------------------------------------
  // Inserting one by one: the reference for every way of ingesting
  // ---------------------------------------------------------------------------

  ghost predicate Ready(c: Core) {
    c.levels != [] && AllSorted(c.levels)
  }

  ghost function InsertOne(k: nat, coins: nat -> bool, c: Core, x: int): (r: Core)
    requires Ready(c)
    ensures r.levels != [] && Settled(k, r.levels)
  {
    PourSorted(c, [x]);
    Settle(k, coins, Pour(c, [x]))
  }

  lemma {:induction false} SettleReady(k: nat, coins: nat -> bool, c: Core)
    requires Ready(c)
    ensures Ready(Settle(k, coins, c))
    decreases Retained(c.levels)
  {
    match FirstFull(k, c.levels, 0)
    case None =>
    case Some(h) =>
      CompactKeeps(c.levels, h, coins(c.flips));
      CompactSorted(c.levels, h, coins(c.flips));
      SettleReady(k, coins, Flip(coins, c, h));
  }

  ghost function InsertEach(k: nat, coins: nat -> bool, c: Core, xs: seq<int>): (r: Core)
    requires Ready(c)
    ensures Ready(r)
    decreases |xs|
  {
    if xs == [] then c else
      var before := InsertEach(k, coins, c, xs[..|xs| - 1]);
      PourSorted(before, [xs[|xs| - 1]]);
      SettleReady(k, coins, Pour(before, [xs[|xs| - 1]]));
      InsertOne(k, coins, before, xs[|xs| - 1])
  }

  function Lower(m: Option<int>, x: int): Option<int> {
    if m.None? || x < m.value then Some(x) else m
  }

  function Higher(m: Option<int>, x: int): Option<int> {
    if m.None? || m.value < x then Some(x) else m
  }

  function Lowest(m: Option<int>, xs: seq<int>): Option<int> {
    if xs == [] then m else Lower(Lowest(m, xs[..|xs| - 1]), xs[|xs| - 1])
  }

  function Highest(m: Option<int>, xs: seq<int>): Option<int> {
    if xs == [] then m else Higher(Highest(m, xs[..|xs| - 1]), xs[|xs| - 1])
  }

  /** The sketch after inserting `xs` one by one, with a full compaction after each. */
  ghost function Ingest(k: nat, coins: nat -> bool, s: Sketch, xs: seq<int>): Sketch
    requires Ready(s.core)
  {
    Sketch(InsertEach(k, coins, s.core, xs), Lowest(s.min, xs), Highest(s.max, xs))
  }

  ghost predicate IsLeast(m: Option<int>, stream: seq<int>) {
    if stream == [] then m.None? else m.Some? && m.value in stream && forall y | y in stream :: m.value <= y
  }

  ghost predicate IsGreatest(m: Option<int>, stream: seq<int>) {
    if stream == [] then m.None? else m.Some? && m.value in stream && forall y | y in stream :: y <= m.value
  }

  /** Count and extremes exact, ranks within the error bound. */
  ghost predicate Summarizes(s: Sketch, stream: seq<int>) {
    Fits(s.core, stream) && IsLeast(s.min, stream) && IsGreatest(s.max, stream)
  }

  lemma InsertOneFits(k: nat, coins: nat -> bool, c: Core, stream: seq<int>, x: int)
    requires Fits(c, stream)
    ensures Fits(InsertOne(k, coins, c, x), stream + [x])
  {
    PourFits(c, stream, [x]);
    SettleFits(k, coins, Pour(c, [x]), stream + [x]);
  }

  lemma {:induction false} InsertEachFits(k: nat, coins: nat -> bool, c: Core, stream: seq<int>, xs: seq<int>)
    requires Fits(c, stream)
    ensures Fits(InsertEach(k, coins, c, xs), stream + xs)
    decreases |xs|
  {
    if xs == [] {
      assert stream + xs == stream;
    } else {
      var init, x := xs[..|xs| - 1], xs[|xs| - 1];
      var before := InsertEach(k, coins, c, init);
      InsertEachFits(k, coins, c, stream, init);
      InsertOneFits(k, coins, before, stream + init, x);
      assert stream + init + [x] == stream + xs;
    }
  }

  lemma {:induction false} ExtremesFollow(m: Option<int>, n: Option<int>, stream: seq<int>, xs: seq<int>)
    requires IsLeast(m, stream) && IsGreatest(n, stream)
    ensures IsLeast(Lowest(m, xs), stream + xs) && IsGreatest(Highest(n, xs), stream + xs)
    decreases |xs|
  {
    if xs == [] {
      assert stream + xs == stream;
    } else {
      var init, x := xs[..|xs| - 1], xs[|xs| - 1];
      ExtremesFollow(m, n, stream, init);
      assert stream + xs == (stream + init) + [x];
    }
  }

  /** Whatever stream and whatever coins: ingesting keeps the count and the extremes exact and
      every rank within the weight of the compactions done. */
  lemma IngestSummarizes(k: nat, coins: nat -> bool, s: Sketch, stream: seq<int>, xs: seq<int>)
    requires Summarizes(s, stream)
    ensures Summarizes(Ingest(k, coins, s, xs), stream + xs)
  {
    InsertEachFits(k, coins, s.core, stream, xs);
    ExtremesFollow(s.min, s.max, stream, xs);
  }
}
