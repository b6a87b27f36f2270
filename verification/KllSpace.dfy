/** How much a KLL sketch can come to keep: with `k` fixed, no bound holds for all streams. */
module KllSpace {
  import opened Wrappers
  import opened KllCore
  import opened KllShape
  import opened KllHistory

  // ---------------------------------------------------------------------------
  // Deep levels have the least capacity
  // ---------------------------------------------------------------------------

  lemma {:induction false} ThirdsOutgrow(d: nat)
    ensures (d + 2) * Power(2, d) <= 2 * Power(3, d)
  {
    if 0 < d {
      ThirdsOutgrow(d - 1);
      OutgrowStep(d, Power(2, d - 1), Power(3, d - 1));
    }
  }

  lemma OutgrowStep(d: nat, two: nat, three: nat)
    requires 0 < d && (d + 1) * two <= 2 * three
    ensures (d + 2) * (2 * two) <= 2 * (3 * three)
  {
    assert (d + 2) * (2 * two) == 2 * ((d + 1) * two) + 2 * two;
    assert 2 * two <= (d + 1) * two;
  }

  lemma DeepIsSmall(k: nat, d: nat, two: nat, three: nat)
    requires 2 * k <= d && (d + 2) * two <= 2 * three && 0 < three
    ensures 2 * k * two / three <= 2
  {
    Larger(2 * k, d + 2, two);
    AtMostQuotient(2 * k * two, three, 2);
  }

  lemma AtMostQuotient(a: nat, b: nat, q: nat)
    requires 0 < b && a <= q * b
    ensures a / b <= q
  {
    QuotientTimes(a, b);
    assert (q + 1) * b == q * b + b;
    Cancel(a / b, q + 1, b);
  }

  lemma DeepCapacity(k: nat, n: nat, h: nat)
    requires h + 2 * k < n
    ensures Capacity(k, n, h) == 8
  {
    var d := n - h - 1;
    ThirdsOutgrow(d);
    ShrunkIs(k, d);
    DeepIsSmall(k, d, Power(2, d), Power(3, d));
  }

  // ---------------------------------------------------------------------------
  // Handing items up, one packet at a time
  // ---------------------------------------------------------------------------

  /** `p` items added to level `g` of a calm stack, and what follows from it. */
  function Bump(k: nat, s: Shape, g: nat, p: nat): Shape
    requires g < |s.lens| == |s.tally|
  {
    SettleShape(k, s.(lens := s.lens[g := s.lens[g] + p]))
  }

  lemma FirstIs(k: nat, lens: seq<nat>, g: nat, h: nat)
    requires h <= g < |lens| && FullAt(k, lens, g) && forall i | h <= i < g :: !FullAt(k, lens, i)
    ensures FirstFullAt(k, lens, h) == Some(g)
    decreases g - h
  {
    if h < g { FirstIs(k, lens, g, h + 1); }
  }

  /** A packet that does not fill its level stays there. */
  lemma BumpStays(k: nat, s: Shape, g: nat, p: nat)
    requires g < |s.lens| == |s.tally| && Calm(k, s.lens) && s.lens[g] + p < Capacity(k, |s.lens|, g)
    ensures Calm(k, s.lens[g := s.lens[g] + p]) && Bump(k, s, g, p).lens == s.lens[g := s.lens[g] + p]
  {
    var lens := s.lens[g := s.lens[g] + p];
    forall h | 0 <= h < |lens| ensures !FullAt(k, lens, h) {
      if h != g { assert !FullAt(k, s.lens, h); }
    }
  }

  lemma FlipIs(s: Shape, g: nat, rest: nat, half: nat)
    requires g + 1 < |s.lens| == |s.tally| && rest < 2 && rest + 2 * half == s.lens[g]
    ensures FlipShape(s, g) == Shape(s.lens[g := rest][g + 1 := s.lens[g + 1] + half], s.tally[g := s.tally[g] + 1])
  {
    assert half == s.lens[g] / 2;
  }

  lemma FewerStaysCalm(k: nat, lens: seq<nat>, g: nat, rest: nat)
    requires g < |lens| && Calm(k, lens) && rest < 8
    ensures Calm(k, lens[g := rest])
  {
    var fewer := lens[g := rest];
    forall i | 0 <= i < |fewer| ensures !FullAt(k, fewer, i) {
      if i != g { assert !FullAt(k, lens, i); }
    }
  }

  lemma BumpFirst(k: nat, s: Shape, g: nat, p: nat)
    requires g < |s.lens| == |s.tally| && Calm(k, s.lens) && Capacity(k, |s.lens|, g) <= s.lens[g] + p
    ensures var full := s.(lens := s.lens[g := s.lens[g] + p]); Bump(k, s, g, p) == SettleShape(k, FlipShape(full, g))
  {
    var full := s.(lens := s.lens[g := s.lens[g] + p]);
    forall i | 0 <= i < g ensures !FullAt(k, full.lens, i) { assert !FullAt(k, s.lens, i); }
    FirstIs(k, full.lens, g, 0);
  }

  /** A packet that fills its level sends half of it on. */
  lemma BumpCarries(k: nat, s: Shape, g: nat, p: nat, rest: nat, half: nat) returns (t: Shape)
    requires g + 1 < |s.lens| == |s.tally| && Calm(k, s.lens) && Capacity(k, |s.lens|, g) <= s.lens[g] + p
    requires rest < 2 && rest + 2 * half == s.lens[g] + p
    ensures |t.lens| == |t.tally| == |s.lens| && t.lens == s.lens[g := rest]
    ensures Calm(k, t.lens) && Bump(k, s, g, p) == Bump(k, t, g + 1, half)
  {
    var full := s.(lens := s.lens[g := s.lens[g] + p]);
    BumpFirst(k, s, g, p);
    FlipIs(full, g, rest, half);
    t := Shape(s.lens[g := rest], full.tally[g := full.tally[g] + 1]);
    FewerStaysCalm(k, s.lens, g, rest);
    assert full.lens[g := rest] == t.lens;
  }

  /** The same from level `g` up. */
  predicate SameFrom(a: seq<nat>, b: seq<nat>, g: nat) {
    |a| == |b| && forall i | g <= i < |a| :: a[i] == b[i]
  }

  predicate Eights(k: nat, n: nat, m: nat) {
    m <= n && forall i | 0 <= i < m :: Capacity(k, n, i) == 8
  }

  function Room(lens: seq<nat>, g: nat): nat {
    if g == 0 || |lens| < g || 8 <= lens[g - 1] then 0 else 8 - lens[g - 1]
  }

  /** The stack of some stream. */
  ghost predicate Reached(k: nat, s: Shape) {
    exists n: nat :: s == FeedShape(k, Shape([0], [0]), n)
  }

  lemma ReachedNext(k: nat, s: Shape)
    requires Reached(k, s)
    ensures 0 < |s.lens| == |s.tally| && Reached(k, FeedOne(k, s))
  {
    var n: nat :| s == FeedShape(k, Shape([0], [0]), n);
    assert FeedOne(k, s) == FeedShape(k, Shape([0], [0]), n + 1);
  }

  /** A single packet, of at most six, is handed to level `g`, and nothing at or above `g` has
      been touched before. */
  ghost predicate Delivered(k: nat, s: Shape, g: nat, t: Shape, p: nat)
    requires g < |s.lens| == |s.tally|
  {
    && 0 < p <= 6 && |t.lens| == |t.tally| && Calm(k, t.lens) && SameFrom(t.lens, s.lens, g)
    && Reached(k, Bump(k, t, g, p))
  }

  lemma FirstPacket(k: nat, s: Shape)
    requires 0 < |s.lens| == |s.tally| && Calm(k, s.lens) && Reached(k, s)
    ensures Delivered(k, s, 0, s, 1)
  {
    ReachedNext(k, s);
    FirstBump(k, s);
  }

  lemma FirstBump(k: nat, s: Shape)
    requires 0 < |s.lens| == |s.tally|
    ensures Bump(k, s, 0, 1) == FeedOne(k, s)
  {
  }

  lemma {:induction false} Deliver(k: nat, s: Shape, g: nat) returns (t: Shape, p: nat)
    requires g < |s.lens| == |s.tally| && Calm(k, s.lens) && Eights(k, |s.lens|, g) && Reached(k, s)
    ensures Delivered(k, s, g, t, p)
    decreases g, Room(s.lens, g)
  {
    if g == 0 {
      t, p := s, 1;
      FirstPacket(k, s);
    } else {
      var low, q := Deliver(k, s, g - 1);
      assert !FullAt(k, low.lens, g - 1);
      if low.lens[g - 1] + q < 8 {
        BumpStays(k, low, g - 1, q);
        var next := Bump(k, low, g - 1, q);
        t, p := Deliver(k, next, g);
      } else {
        t, p := PassOn(k, s, g - 1, low, q);
      }
    }
  }

  lemma PassOn(k: nat, s: Shape, g: nat, low: Shape, q: nat) returns (t: Shape, p: nat)
    requires g + 1 < |s.lens| == |s.tally| && Delivered(k, s, g, low, q)
    requires Capacity(k, |s.lens|, g) == 8 <= low.lens[g] + q
    ensures Delivered(k, s, g + 1, t, p)
  {
    var packet := low.lens[g] + q;
    assert !FullAt(k, low.lens, g);
    t := BumpCarries(k, low, g, q, packet % 2, packet / 2);
    p := packet / 2;
  }

  // ---------------------------------------------------------------------------
  // Something on every deep level
  // ---------------------------------------------------------------------------

  predicate Occupied(lens: seq<nat>, g: nat, m: nat) {
    m <= |lens| && forall i | g <= i < m :: 0 < lens[i]
  }

  lemma Occupy(k: nat, s: Shape, g: nat, m: nat) returns (r: Shape)
    requires g < m && |s.lens| == |s.tally| && Calm(k, s.lens) && Eights(k, |s.lens|, m) && Occupied(s.lens, g + 1, m)
    requires Reached(k, s)
    ensures Reached(k, r) && |r.lens| == |r.tally| == |s.lens| && Calm(k, r.lens) && Occupied(r.lens, g, m)
  {
    if s.lens[g] == 0 {
      var t, p := Deliver(k, s, g);
      BumpStays(k, t, g, p);
      r := Bump(k, t, g, p);
    } else {
      r := s;
    }
  }

  /** Levels `g` up to `m` are occupied; those below follow from the top down. */
  lemma {:induction false} OccupyAll(k: nat, s: Shape, g: nat, m: nat) returns (r: Shape)
    requires g <= m && 0 < |s.lens| == |s.tally| && Calm(k, s.lens) && Eights(k, |s.lens|, m) && Occupied(s.lens, g, m)
    requires Reached(k, s)
    ensures Reached(k, r) && Occupied(r.lens, 0, m)
    decreases g
  {
    r := s;
    if 0 < g {
      r := Occupy(k, s, g - 1, m);
      r := OccupyAll(k, r, g - 1, m);
    }
  }

  lemma {:induction false} OccupiedTotal(lens: seq<nat>, m: nat)
    requires Occupied(lens, 0, m)
    ensures m <= Total(lens)
  {
    if 0 < m {
      assert forall i | 0 <= i < m - 1 :: lens[1..][i] == lens[i + 1];
      OccupiedTotal(lens[1..], m - 1);
    }
  }

  // ---------------------------------------------------------------------------
  // Tall stacks
  // ---------------------------------------------------------------------------

  lemma {:induction false} MassAtMost(lens: seq<nat>, h: nat)
    requires |lens| <= h
    ensures MassOf(lens) <= Weigh(h, Total(lens))
  {
    WeighOrder(h, 0, Total(lens));
    if lens != [] {
      MassAtMost(lens[1..], h - 1);
      WeighSum(h - 1, lens[0], Total(lens[1..]));
      AtLeastOne(h - 1, lens[0]);
    }
  }

  lemma {:induction false} AtLeastOne(h: nat, n: nat)
    ensures n <= Weigh(h, n)
  {
    if 0 < h { AtLeastOne(h - 1, n); }
  }

  lemma FedBounds(k: nat, coins: nat -> bool, xs: seq<int>)
    ensures var lens := FeedShape(k, Shape([0], [0]), |xs|).lens;
      MassOf(lens) == |xs| && Total(lens) <= 3 * k + 7 * |lens|
  {
    var h := Fed(New(coins), xs);
    EverySketchPromises(k, h, 0);
    HistoryHas(k, h);
    LensWeigh(Build(k, h).core.levels);
    assert Stream(h) == xs;
    assert ShapeOf(k, h) == FeedShape(k, ShapeOf(k, New(coins)), |xs|);
  }

  lemma ShortIsLight(k: nat, lens: seq<nat>, height: nat)
    requires |lens| <= height && Total(lens) <= 3 * k + 7 * |lens|
    ensures MassOf(lens) <= Weigh(height, 3 * k + 7 * height)
  {
    MassAtMost(lens, height);
    WeighOrder(height, Total(lens), 3 * k + 7 * height);
  }

  /** A stack that has taken in enough is taller than any height. */
  lemma Tall(k: nat, height: nat) returns (n: nat)
    ensures height < |FeedShape(k, Shape([0], [0]), n).lens|
  {
    WeighOrder(height, 0, 3 * k + 7 * height);
    n := Weigh(height, 3 * k + 7 * height) + 1;
    FedBounds(k, _ => false, seq(n, _ => 0));
    var lens := FeedShape(k, Shape([0], [0]), n).lens;
    if |lens| <= height { ShortIsLight(k, lens, height); }
  }

  lemma Crowded(k: nat, m: nat) returns (n: nat)
    ensures m <= Total(FeedShape(k, Shape([0], [0]), n).lens)
  {
    var empty := Shape([0], [0]);
    var a := Tall(k, m + 2 * k);
    var s := FeedShape(k, empty, a);
    NewSound(k);
    FeedCalm(k, empty, a);
    forall i | 0 <= i < m ensures Capacity(k, |s.lens|, i) == 8 { DeepCapacity(k, |s.lens|, i); }
    assert Reached(k, s);
    var r := OccupyAll(k, s, m, m);
    OccupiedTotal(r.lens, m);
    n :| r == FeedShape(k, empty, n);
  }

  lemma FedKeeps(k: nat, coins: nat -> bool, xs: seq<int>)
    ensures Retained(Build(k, Fed(New(coins), xs)).core.levels) == Total(FeedShape(k, Shape([0], [0]), |xs|).lens)
  {
    var h := Fed(New(coins), xs);
    HistoryHas(k, h);
    LensWeigh(Build(k, h).core.levels);
    assert ShapeOf(k, h) == FeedShape(k, ShapeOf(k, New(coins)), |xs|);
  }

  /** With `k` fixed, and for any bound, there is a length of stream whose sketch keeps more than
      `3k` items and that bound, whatever the items and however the coins fall. */
  lemma SpaceIsUnbounded(k: nat, bound: nat) returns (n: nat)
    ensures forall coins: nat -> bool, xs: seq<int> | |xs| == n ::
      3 * k + bound < Retained(Build(k, Fed(New(coins), xs)).core.levels)
  {
    n := Crowded(k, 3 * k + bound + 1);
    forall coins: nat -> bool, xs: seq<int> | |xs| == n
      ensures 3 * k + bound < Retained(Build(k, Fed(New(coins), xs)).core.levels)
    {
      FedKeeps(k, coins, xs);
    }
  }
}
