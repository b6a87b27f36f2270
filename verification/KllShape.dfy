/** How many items a KLL sketch has on each level, and how often it has compacted each: neither
    depends on the items or on how the coins fall. The error bounds are read off this shape. */
module KllShape {
  import opened Wrappers
  import opened Naturals
  import opened KllCore
  import KllIngest

  /** `tally[h]` counts the compactions of level `h`. */
  datatype Shape = Shape(lens: seq<nat>, tally: seq<nat>)

  function MassOf(lens: seq<nat>): nat {
    if lens == [] then 0 else lens[0] + 2 * MassOf(lens[1..])
  }

  function Total(lens: seq<nat>): nat {
    if lens == [] then 0 else lens[0] + Total(lens[1..])
  }

  // ---------------------------------------------------------------------------
  // The shape's own operations
  // ---------------------------------------------------------------------------

  function Extended(lens: seq<nat>, h: nat): (r: seq<nat>)
    requires h < |lens|
    ensures h + 1 < |r| && |lens| <= |r| && r[h] == lens[h]
  {
    if h + 1 == |lens| then lens + [0] else lens
  }

  function CompactLens(lens: seq<nat>, h: nat): (r: seq<nat>)
    requires h < |lens|
    ensures |r| == |Extended(lens, h)|
  {
    Carried(Extended(lens, h), h, lens[h] / 2)
  }

  /** `half` pairs of level `h`, one of each carried up. */
  function Carried(lens: seq<nat>, h: nat, half: nat): (r: seq<nat>)
    requires h + 1 < |lens| && 2 * half <= lens[h]
    ensures |r| == |lens|
  {
    lens[h := lens[h] - 2 * half][h + 1 := lens[h + 1] + half]
  }

  function FlipShape(s: Shape, h: nat): Shape
    requires h < |s.lens| == |s.tally|
  {
    var up := Extended(s.tally, h);
    Shape(CompactLens(s.lens, h), up[h := up[h] + 1])
  }

  predicate FullAt(k: nat, lens: seq<nat>, h: nat)
    requires h < |lens|
  {
    Capacity(k, |lens|, h) <= lens[h]
  }

  predicate Calm(k: nat, lens: seq<nat>) {
    forall h | 0 <= h < |lens| :: !FullAt(k, lens, h)
  }

  function FirstFullAt(k: nat, lens: seq<nat>, h: nat): (r: Option<nat>)
    requires h <= |lens|
    ensures r.None? ==> forall i | h <= i < |lens| :: !FullAt(k, lens, i)
    ensures r.Some? ==> h <= r.value < |lens| && FullAt(k, lens, r.value)
    decreases |lens| - h
  {
    if h == |lens| then None else if FullAt(k, lens, h) then Some(h) else FirstFullAt(k, lens, h + 1)
  }

  lemma {:induction false} UpdateMassOf(lens: seq<nat>, h: nat, n: nat)
    requires h < |lens|
    ensures MassOf(lens[h := n]) == MassOf(lens) + Weigh(h, n - lens[h])
    ensures Total(lens[h := n]) == Total(lens) + n - lens[h]
  {
    if h == 0 {
      assert lens[0 := n][1..] == lens[1..];
    } else {
      UpdateMassOf(lens[1..], h - 1, n);
      assert lens[h := n][1..] == lens[1..][h - 1 := n];
    }
  }

  lemma {:induction false} ZeroOnTop(lens: seq<nat>)
    ensures MassOf(lens + [0]) == MassOf(lens) && Total(lens + [0]) == Total(lens)
  {
    if lens == [] {
      assert (lens + [0])[1..] == [];
    } else {
      ZeroOnTop(lens[1..]);
      assert (lens + [0])[1..] == lens[1..] + [0];
    }
  }

  lemma CarriedMass(lens: seq<nat>, h: nat, half: nat)
    requires h + 1 < |lens| && 2 * half <= lens[h]
    ensures MassOf(Carried(lens, h, half)) == MassOf(lens)
    ensures Total(Carried(lens, h, half)) == Total(lens) - half
  {
    var down := lens[h := lens[h] - 2 * half];
    UpdateMassOf(lens, h, lens[h] - 2 * half);
    UpdateMassOf(down, h + 1, lens[h + 1] + half);
    WeighUp(h, half);
    WeighSum(h, -2 * half, 2 * half);
    WeighOrder(h, 0, 0);
  }

  lemma CompactMassOf(lens: seq<nat>, h: nat)
    requires h < |lens|
    ensures MassOf(CompactLens(lens, h)) == MassOf(lens)
    ensures Total(CompactLens(lens, h)) == Total(lens) - lens[h] / 2
  {
    ExtendedMass(lens, h);
    CarriedMass(Extended(lens, h), h, lens[h] / 2);
  }

  lemma ExtendedMass(lens: seq<nat>, h: nat)
    requires h < |lens|
    ensures MassOf(Extended(lens, h)) == MassOf(lens) && Total(Extended(lens, h)) == Total(lens)
  {
    ZeroOnTop(lens);
  }

  function SettleShape(k: nat, s: Shape): (r: Shape)
    requires |s.lens| == |s.tally|
    ensures |r.lens| == |r.tally| && |s.lens| <= |r.lens| && Calm(k, r.lens)
    ensures Calm(k, s.lens) ==> r == s
    decreases Total(s.lens)
  {
    match FirstFullAt(k, s.lens, 0)
    case None => s
    case Some(h) =>
      CompactMassOf(s.lens, h);
      SettleShape(k, FlipShape(s, h))
  }

  function PourShape(s: Shape, n: nat): Shape
    requires s.lens != []
  {
    s.(lens := s.lens[0 := s.lens[0] + n])
  }

  function FeedOne(k: nat, s: Shape): (r: Shape)
    requires 0 < |s.lens| == |s.tally|
    ensures |s.lens| <= |r.lens| == |r.tally|
  {
    SettleShape(k, PourShape(s, 1))
  }

  /** `n` items inserted one by one. */
  function FeedShape(k: nat, s: Shape, n: nat): (r: Shape)
    requires 0 < |s.lens| == |s.tally|
    ensures |s.lens| <= |r.lens| == |r.tally|
  {
    if n == 0 then s else FeedOne(k, FeedShape(k, s, n - 1))
  }

  lemma FeedCalm(k: nat, s: Shape, n: nat)
    requires 0 < |s.lens| == |s.tally| && Calm(k, s.lens)
    ensures Calm(k, FeedShape(k, s, n).lens)
  {
    if 0 < n { assert FeedShape(k, s, n) == SettleShape(k, PourShape(FeedShape(k, s, n - 1), 1)); }
  }

  function At(lens: seq<nat>, h: nat): nat {
    if h < |lens| then lens[h] else 0
  }

  function Sum(a: seq<nat>, b: seq<nat>): (r: seq<nat>)
    ensures |r| == if |a| < |b| then |b| else |a|
    ensures forall h | 0 <= h < |r| :: r[h] == At(a, h) + At(b, h)
  {
    seq(if |a| < |b| then |b| else |a|, h requires 0 <= h => At(a, h) + At(b, h))
  }

  function JoinShape(s: Shape, t: Shape): Shape {
    Shape(Sum(s.lens, t.lens), Sum(s.tally, t.tally))
  }

  // ---------------------------------------------------------------------------
  // A sketch has its shape
  // ---------------------------------------------------------------------------

  function Lens(levels: seq<seq<int>>): (r: seq<nat>)
    ensures |r| == |levels| && forall h | 0 <= h < |r| :: r[h] == |levels[h]|
  {
    seq(|levels|, h requires 0 <= h < |levels| => |levels[h]|)
  }

  ghost predicate Has(c: Core, s: Shape) {
    |s.lens| == |s.tally| && Lens(c.levels) == s.lens && c.spent == MassOf(s.tally)
  }

  lemma {:induction false} LensWeigh(levels: seq<seq<int>>)
    ensures MassOf(Lens(levels)) == Mass(levels) && Total(Lens(levels)) == Retained(levels)
  {
    if levels != [] {
      LensWeigh(levels[1..]);
      assert Lens(levels)[1..] == Lens(levels[1..]);
    }
  }

  lemma {:induction false} SameFirst(k: nat, levels: seq<seq<int>>, h: nat)
    requires h <= |levels|
    ensures FirstFullAt(k, Lens(levels), h) == FirstFull(k, levels, h)
    decreases |levels| - h
  {
    if h < |levels| { SameFirst(k, levels, h + 1); }
  }

  lemma CompactHas(levels: seq<seq<int>>, h: nat, heads: bool)
    requires h < |levels|
    ensures Lens(Compact(levels, h, heads)) == CompactLens(Lens(levels), h)
  {
    assert Lens(Raised(levels, h)) == Extended(Lens(levels), h);
    assert |levels[h]| % 2 == |levels[h]| - 2 * (|levels[h]| / 2);
  }

  lemma FlipHas(coins: nat -> bool, c: Core, h: nat, s: Shape)
    requires Has(c, s) && h < |c.levels|
    ensures Has(Flip(coins, c, h), FlipShape(s, h))
  {
    CompactHas(c.levels, h, coins(c.flips));
    ZeroOnTop(s.tally);
    UpdateMassOf(Extended(s.tally, h), h, s.tally[h] + 1);
  }

  lemma {:induction false} SettleHas(k: nat, coins: nat -> bool, c: Core, s: Shape)
    requires Has(c, s) && AllSorted(c.levels)
    ensures Has(Settle(k, coins, c), SettleShape(k, s))
    decreases Retained(c.levels)
  {
    SameFirst(k, c.levels, 0);
    match FirstFull(k, c.levels, 0)
    case None =>
    case Some(h) =>
      CompactKeeps(c.levels, h, coins(c.flips));
      CompactSorted(c.levels, h, coins(c.flips));
      FlipHas(coins, c, h, s);
      SettleHas(k, coins, Flip(coins, c, h), FlipShape(s, h));
  }

  lemma PourHas(c: Core, xs: seq<int>, s: Shape)
    requires Has(c, s) && c.levels != []
    ensures Has(Pour(c, xs), PourShape(s, |xs|))
  {
    assert Lens(Pour(c, xs).levels) == PourShape(s, |xs|).lens;
  }

  lemma {:induction false} InsertEachHas(k: nat, coins: nat -> bool, c: Core, xs: seq<int>, s: Shape)
    requires Has(c, s) && Ready(c)
    ensures Has(InsertEach(k, coins, c, xs), FeedShape(k, s, |xs|))
    decreases |xs|
  {
    if xs != [] {
      var init, x := xs[..|xs| - 1], xs[|xs| - 1];
      InsertEachHas(k, coins, c, init, s);
      var before := InsertEach(k, coins, c, init);
      PourHas(before, [x], FeedShape(k, s, |init|));
      PourSorted(before, [x]);
      SettleHas(k, coins, Pour(before, [x]), PourShape(FeedShape(k, s, |init|), 1));
    }
  }

  function Rest(lens: seq<nat>): seq<nat> {
    if lens == [] then [] else lens[1..]
  }

  lemma {:induction false} SumMass(a: seq<nat>, b: seq<nat>)
    ensures MassOf(Sum(a, b)) == MassOf(a) + MassOf(b)
    decreases |a| + |b|
  {
    if a != [] || b != [] {
      SumMass(Rest(a), Rest(b));
      assert Sum(a, b)[1..] == Sum(Rest(a), Rest(b)) by {
        assert forall h | 0 <= h < |Sum(a, b)| - 1 :: At(a, h + 1) == At(Rest(a), h) && At(b, h + 1) == At(Rest(b), h);
      }
    }
  }

  lemma JoinedHas(c: Core, d: Core, s: Shape, t: Shape)
    requires Has(c, s) && Has(d, t)
    ensures Has(KllIngest.Joined(c, d), JoinShape(s, t))
  {
    SumMass(s.tally, t.tally);
    assert Lens(KllIngest.Join(c.levels, d.levels)) == Sum(s.lens, t.lens);
  }

  // ---------------------------------------------------------------------------
  // Capacities shrink as the stack grows and grow with `k`
  // ---------------------------------------------------------------------------

  lemma QuotientTimes(a: nat, b: nat)
    requires 0 < b
    ensures (a / b) * b <= a
  {
  }

  lemma QuotientIs(a: nat, b: nat, q: nat)
    requires 0 < b && q == a / b
    ensures q * b <= a < (q + 1) * b
  {
  }

  lemma Thirds(a: nat, b: nat, q: nat, p: nat)
    requires q * (3 * b) <= 2 * a && a < (p + 1) * b
    ensures q <= p
  {
    assert q * (3 * b) == 3 * (q * b);
    Cancel(q, p + 1, b);
  }

  lemma QuotientShrinks(a: nat, b: nat, c: nat, d: nat, q: nat, p: nat)
    requires 0 < b && c == 2 * a && d == 3 * b && q == c / d && p == a / b
    ensures q <= p
  {
    QuotientIs(a, b, p);
    QuotientIs(c, d, q);
    Thirds(a, b, q, p);
  }

  lemma AtLeastQuotient(a: nat, b: nat, q: nat)
    requires 0 < b && q * b <= a
    ensures q <= a / b
  {
    var p := a / b;
    assert (p + 1) * b == p * b + b;
    Cancel(q, p + 1, b);
  }

  lemma Cancel(x: nat, y: nat, b: nat)
    requires x * b < y * b
    ensures x < y
  {
    if y <= x { Larger(y, x, b); }
  }

  lemma Larger(x: nat, y: nat, b: nat)
    requires x <= y
    ensures x * b <= y * b
  {
  }

  lemma DoubleTwice(k: nat, p: nat)
    ensures 2 * k * (2 * p) == 2 * (2 * k * p)
  {
  }

  lemma QuotientFalls(k: nat, d: nat)
    ensures Shrunk(k, d + 1) <= Shrunk(k, d)
  {
    ShrunkIs(k, d);
    ShrunkIs(k, d + 1);
    var a, b, c, e := 2 * k * Power(2, d), Power(3, d), 2 * k * Power(2, d + 1), Power(3, d + 1);
    DoubleTwice(k, Power(2, d));
    QuotientShrinks(a, b, c, e, c / e, a / b);
  }

  lemma CapacityStep(k: nat, n: nat, h: nat)
    requires h < n
    ensures Capacity(k, n + 1, h) <= Capacity(k, n, h)
  {
    QuotientFalls(k, n - h - 1);
  }

  lemma {:induction false} CapacityFalls(k: nat, m: nat, n: nat, h: nat)
    requires h < m <= n
    ensures Capacity(k, n, h) <= Capacity(k, m, h)
    decreases n
  {
    if m < n {
      CapacityFalls(k, m, n - 1, h);
      CapacityStep(k, n - 1, h);
    }
  }

  lemma {:induction false} DoubledGrows(m: nat, n: nat, d: nat)
    requires m <= n
    ensures Doubled(m, d) <= Doubled(n, d)
  {
    if 0 < d { DoubledGrows(m, n, d - 1); }
  }

  lemma CapacityGrows(k: nat, l: nat, n: nat, h: nat)
    requires h < n && k <= l
    ensures Capacity(k, n, h) <= Capacity(l, n, h)
  {
    var d := n - h - 1;
    DoubledGrows(2 * k, 2 * l, d);
    DivMonotone(Doubled(2 * k, d), Doubled(2 * l, d), Power(3, d));
  }

  /** What a compaction of level `h` takes up at the least, for a stack of `n` levels: an even
      number, one less than the capacity when that is odd. */
  function Width(k: nat, n: nat, h: nat): (w: nat)
    requires h < n
    ensures 8 <= w && w <= Capacity(k, n, h) <= w + 1
  {
    2 * (Capacity(k, n, h) / 2)
  }

  // ---------------------------------------------------------------------------
  // What has been spent has been paid for
  // ---------------------------------------------------------------------------

  /** The compactions of level `h`, each at its width, weigh no more than what lies above it. */
  predicate Paid(k: nat, s: Shape, h: nat)
    requires h < |s.lens| == |s.tally|
  {
    s.tally[h] * Width(k, |s.lens|, h) <= 2 * MassOf(s.lens[h + 1..])
  }

  /** Paid for on every level, and a grown stack has at least half a top capacity on top. */
  ghost predicate Sound(k: nat, s: Shape) {
    && 0 < |s.lens| == |s.tally|
    && (forall h | 0 <= h < |s.lens| :: Paid(k, s, h))
    && (1 < |s.lens| ==> Capacity(k, 1, 0) / 2 <= s.lens[|s.lens| - 1])
  }

  lemma CompactAbove(lens: seq<nat>, h: nat, g: nat)
    requires h < |lens| && g < |Extended(lens, h)|
    ensures MassOf(CompactLens(lens, h)[g + 1..]) ==
      MassOf(Extended(lens, h)[g + 1..]) + if g == h then lens[h] / 2 else 0
  {
    var up, r := Extended(lens, h), CompactLens(lens, h);
    if g < h {
      assert Extended(lens[g + 1..], h - g - 1) == up[g + 1..];
      assert r[g + 1..] == CompactLens(lens[g + 1..], h - g - 1);
      CompactMassOf(lens[g + 1..], h - g - 1);
      ZeroOnTop(lens[g + 1..]);
    } else if g == h {
      assert r[h + 1..] == up[h + 1..][0 := up[h + 1] + lens[h] / 2];
      UpdateMassOf(up[h + 1..], 0, up[h + 1] + lens[h] / 2);
    } else {
      assert r[g + 1..] == up[g + 1..];
    }
  }

  lemma ExtendedAbove(lens: seq<nat>, h: nat, g: nat)
    requires h < |lens| && g < |lens|
    ensures MassOf(Extended(lens, h)[g + 1..]) == MassOf(lens[g + 1..])
  {
    if h + 1 == |lens| {
      assert Extended(lens, h)[g + 1..] == lens[g + 1..] + [0];
      ZeroOnTop(lens[g + 1..]);
    }
  }

  lemma Cheaper(t: nat, w: nat, v: nat, limit: nat)
    requires t * w <= limit && v <= w
    ensures t * v <= limit
  {
    assert t * v <= t * w;
  }

  lemma FlipAbove(lens: seq<nat>, h: nat, g: nat)
    requires h < |lens| && g < |lens|
    ensures MassOf(CompactLens(lens, h)[g + 1..]) == MassOf(lens[g + 1..]) + if g == h then lens[h] / 2 else 0
  {
    CompactAbove(lens, h, g);
    ExtendedAbove(lens, h, g);
  }

  /** One compaction more at most, paid for by what it carries up. */
  lemma StillPaid(t: nat, u: nat, w: nat, v: nat, above: nat, half: nat)
    requires t * w <= 2 * above && v <= w && (u == t || (u == t + 1 && v <= 2 * half))
    ensures u * v <= 2 * (above + half)
  {
    Cheaper(t, w, v, 2 * above);
    assert (t + 1) * v == t * v + v;
  }

  lemma FlipPaid(k: nat, s: Shape, h: nat, g: nat)
    requires Sound(k, s) && h < |s.lens| && FullAt(k, s.lens, h) && g < |FlipShape(s, h).lens|
    ensures Paid(k, FlipShape(s, h), g)
  {
    var r := FlipShape(s, h);
    var n, m := |s.lens|, |r.lens|;
    if g < n {
      assert Paid(k, s, g);
      FlipAbove(s.lens, h, g);
      CapacityFalls(k, n, m, g);
      StillPaid(s.tally[g], r.tally[g], Width(k, n, g), Width(k, m, g), MassOf(s.lens[g + 1..]), if g == h then s.lens[h] / 2 else 0);
    } else {
      assert r.tally[g] == 0;
    }
  }

  lemma FlipTopped(k: nat, s: Shape, h: nat)
    requires Sound(k, s) && h < |s.lens| && FullAt(k, s.lens, h)
    ensures var r := FlipShape(s, h).lens; 1 < |r| && Capacity(k, 1, 0) / 2 <= r[|r| - 1]
  {
    var n := |s.lens|;
    if h + 1 == n { assert Capacity(k, n, h) == Capacity(k, 1, 0); }
  }

  lemma FlipSound(k: nat, s: Shape, h: nat)
    requires Sound(k, s) && h < |s.lens| && FullAt(k, s.lens, h)
    ensures Sound(k, FlipShape(s, h))
  {
    forall g | 0 <= g < |FlipShape(s, h).lens| ensures Paid(k, FlipShape(s, h), g) { FlipPaid(k, s, h, g); }
    FlipTopped(k, s, h);
  }

  lemma {:induction false} SettleSound(k: nat, s: Shape)
    requires Sound(k, s)
    ensures Sound(k, SettleShape(k, s))
    decreases Total(s.lens)
  {
    match FirstFullAt(k, s.lens, 0)
    case None =>
    case Some(h) =>
      CompactMassOf(s.lens, h);
      FlipSound(k, s, h);
      SettleSound(k, FlipShape(s, h));
  }

  lemma PourSound(k: nat, s: Shape, n: nat)
    requires Sound(k, s)
    ensures Sound(k, PourShape(s, n))
  {
    var r := PourShape(s, n);
    forall h | 0 <= h < |r.lens| ensures Paid(k, r, h) {
      assert Paid(k, s, h);
      assert r.lens[h + 1..] == s.lens[h + 1..];
    }
  }

  lemma {:induction false} FeedSound(k: nat, s: Shape, n: nat)
    requires Sound(k, s)
    ensures Sound(k, FeedShape(k, s, n))
  {
    if 0 < n {
      FeedSound(k, s, n - 1);
      PourSound(k, FeedShape(k, s, n - 1), 1);
      SettleSound(k, PourShape(FeedShape(k, s, n - 1), 1));
    }
  }

  /** What lies above a level in either of two stacks, of any height. */
  function AboveOf(lens: seq<nat>, h: nat): nat {
    if h + 1 < |lens| then MassOf(lens[h + 1..]) else 0
  }

  lemma SumAbove(a: seq<nat>, b: seq<nat>, h: nat)
    requires h < |Sum(a, b)|
    ensures MassOf(Sum(a, b)[h + 1..]) == AboveOf(a, h) + AboveOf(b, h)
  {
    var x := if h + 1 < |a| then a[h + 1..] else [];
    var y := if h + 1 < |b| then b[h + 1..] else [];
    assert Sum(a, b)[h + 1..] == Sum(x, y);
    SumMass(x, y);
  }

  lemma PaidHigher(k: nat, s: Shape, n: nat, h: nat)
    requires Sound(k, s) && |s.lens| <= n && h < n
    ensures At(s.tally, h) * Width(k, n, h) <= 2 * AboveOf(s.lens, h)
  {
    if h < |s.lens| {
      assert Paid(k, s, h);
      CapacityFalls(k, |s.lens|, n, h);
      assert h + 1 == |s.lens| ==> s.lens[h + 1..] == [];
      Cheaper(s.tally[h], Width(k, |s.lens|, h), Width(k, n, h), 2 * AboveOf(s.lens, h));
    }
  }

  lemma JoinPaid(k: nat, s: Shape, t: Shape, h: nat)
    requires Sound(k, s) && Sound(k, t) && h < |JoinShape(s, t).lens|
    ensures Paid(k, JoinShape(s, t), h)
  {
    var n := |JoinShape(s, t).lens|;
    PaidHigher(k, s, n, h);
    PaidHigher(k, t, n, h);
    SumAbove(s.lens, t.lens, h);
    Distribute(At(s.tally, h), At(t.tally, h), Width(k, n, h));
  }

  lemma JoinSound(k: nat, s: Shape, t: Shape)
    requires Sound(k, s) && Sound(k, t)
    ensures Sound(k, JoinShape(s, t))
  {
    var j := JoinShape(s, t);
    forall h | 0 <= h < |j.lens| ensures Paid(k, j, h) { JoinPaid(k, s, t, h); }
    assert j.lens[|j.lens| - 1] == At(s.lens, |j.lens| - 1) + At(t.lens, |j.lens| - 1);
  }

  // ---------------------------------------------------------------------------
  // The error, in `k`, the height and the count
  // ---------------------------------------------------------------------------

  /** A share of the count for each level below the top, from level `h` up. */
  function BoundFrom(k: nat, n: nat, h: nat, count: nat): nat
    requires h < n
    decreases n - h
  {
    if h + 1 == n then 0 else Portion(count, Width(k, n, h)) + BoundFrom(k, n, h + 1, count)
  }

  function Portion(count: nat, w: nat): nat
    requires 0 < w
  {
    count / w
  }

  function ErrorBound(k: nat, n: nat, count: nat): nat
    requires 0 < n
  {
    BoundFrom(k, n, 0, count)
  }

  lemma {:induction false} AboveWeighs(lens: seq<nat>, h: nat)
    requires h <= |lens|
    ensures Weigh(h, MassOf(lens[h..])) <= MassOf(lens)
  {
    if h == 0 {
      assert lens[0..] == lens;
    } else {
      AboveWeighs(lens[1..], h - 1);
      assert lens[1..][h - 1..] == lens[h..];
    }
  }

  lemma {:induction false} WeighTimes(h: nat, n: int, w: int)
    ensures Weigh(h, n) * w == Weigh(h, n * w)
  {
    if 0 < h {
      WeighTimes(h - 1, n, w);
      assert (2 * Weigh(h - 1, n)) * w == 2 * (Weigh(h - 1, n) * w);
    }
  }

  /** A level's compactions weigh no more than its share of the count. */
  lemma LevelSpent(k: nat, s: Shape, h: nat)
    requires Sound(k, s) && h < |s.lens|
    ensures 0 <= Weigh(h, s.tally[h]) <= Portion(MassOf(s.lens), Width(k, |s.lens|, h))
    ensures Weigh(h, s.tally[h]) * Width(k, |s.lens|, h) <= MassOf(s.lens)
  {
    var w, above := Width(k, |s.lens|, h), MassOf(s.lens[h + 1..]);
    assert Paid(k, s, h);
    WeighOrder(h, 0, s.tally[h]);
    WeighTimes(h, s.tally[h], w);
    WeighOrder(h, s.tally[h] * w, 2 * above);
    WeighUp(h, above);
    AboveWeighs(s.lens, h + 1);
    AtLeastQuotient(MassOf(s.lens), w, Weigh(h, s.tally[h]));
  }

  lemma TopTally(k: nat, s: Shape)
    requires Sound(k, s)
    ensures s.tally[|s.tally| - 1] == 0
  {
    var h, w := |s.lens| - 1, Width(k, |s.lens|, |s.lens| - 1);
    assert Paid(k, s, h);
    assert s.lens[h + 1..] == [];
    NothingTimes(s.tally[h], w);
  }

  lemma NothingTimes(t: nat, w: nat)
    requires t * w == 0 && 0 < w
    ensures t == 0
  {
  }

  lemma {:induction false} SpentFrom(k: nat, s: Shape, h: nat)
    requires Sound(k, s) && h < |s.lens|
    ensures Weigh(h, MassOf(s.tally[h..])) <= BoundFrom(k, |s.lens|, h, MassOf(s.lens))
    decreases |s.lens| - h
  {
    assert s.tally[h..][1..] == s.tally[h + 1..];
    if h + 1 == |s.lens| {
      TopTally(k, s);
      WeighOrder(h, 0, 0);
    } else {
      SpentFrom(k, s, h + 1);
      LevelSpent(k, s, h);
      var above := MassOf(s.tally[h + 1..]);
      WeighUp(h, above);
      WeighSum(h, s.tally[h], 2 * above);
    }
  }

  /** All compactions together weigh at most the sum, over the levels below the top, of the count
      divided by the level's width. */
  lemma SpentBound(k: nat, s: Shape)
    requires Sound(k, s)
    ensures MassOf(s.tally) <= ErrorBound(k, |s.lens|, MassOf(s.lens))
  {
    SpentFrom(k, s, 0);
    assert s.tally[0..] == s.tally;
  }

  lemma SmallerShare(count: nat, w: nat, v: nat)
    requires 0 < w <= v
    ensures Portion(count, v) <= Portion(count, w)
  {
    QuotientTimes(count, v);
    assert (count / v) * w <= (count / v) * v;
    AtLeastQuotient(count, w, count / v);
  }

  /** A wider sketch promises no more error. */
  lemma {:induction false} WiderIsCloser(k: nat, l: nat, n: nat, h: nat, count: nat)
    requires h < n && k <= l
    ensures BoundFrom(l, n, h, count) <= BoundFrom(k, n, h, count)
    decreases n - h
  {
    if h + 1 < n {
      WiderIsCloser(k, l, n, h + 1, count);
      CapacityGrows(k, l, n, h);
      SmallerShare(count, Width(k, n, h), Width(l, n, h));
    }
  }
}
