/** How high the items of a KLL stack lie, each counted with its weight: a compaction raises this
    by enough to pay for the square of the error it adds, whatever other sketches share its coins. */
module KllHeight {
  import opened Wrappers
  import opened Naturals
  import opened Averages
  import opened KllCore
  import opened KllShape
  import opened KllHistory
  import opened KllChance
  import opened KllError
  import opened KllAccuracy

  /** The sum over all items of their weight times their level. */
  function Height(lens: seq<nat>): nat {
    if lens == [] then 0 else 2 * (Height(lens[1..]) + MassOf(lens[1..]))
  }

  lemma {:induction false} FlipHeight(lens: seq<nat>, h: nat)
    requires h < |lens|
    ensures Height(CompactLens(lens, h)) == Height(lens) + Weigh(h + 1, lens[h] / 2)
  {
    var up, half := Extended(lens, h), lens[h] / 2;
    assert Weigh(h + 1, half) == 2 * Weigh(h, half);
    if h == 0 {
      var rest := up[1..];
      assert CompactLens(lens, h)[1..] == rest[0 := rest[0] + half];
      assert rest[0 := rest[0] + half][1..] == rest[1..];
      assert |lens| == 1 ==> rest == [0] && lens[1..] == [] && [0][1..] == [];
      assert 1 < |lens| ==> rest == lens[1..];
    } else {
      assert CompactLens(lens, h)[1..] == CompactLens(lens[1..], h - 1);
      FlipHeight(lens[1..], h - 1);
      CompactMassOf(lens[1..], h - 1);
    }
  }

  lemma {:induction false} SumHeight(a: seq<nat>, b: seq<nat>)
    ensures Height(KllShape.Sum(a, b)) == Height(a) + Height(b)
    decreases |a| + |b|
  {
    if a != [] || b != [] {
      SumHeight(Rest(a), Rest(b));
      SumMass(Rest(a), Rest(b));
      assert KllShape.Sum(a, b)[1..] == KllShape.Sum(Rest(a), Rest(b)) by {
        assert forall h | 0 <= h < |KllShape.Sum(a, b)| - 1 :: At(a, h + 1) == At(Rest(a), h) && At(b, h + 1) == At(Rest(b), h);
      }
    }
  }

  lemma PourHeight(s: Shape, n: nat)
    requires s.lens != []
    ensures Height(PourShape(s, n).lens) == Height(s.lens) && MassOf(PourShape(s, n).lens) == MassOf(s.lens) + n
  {
    assert PourShape(s, n).lens[1..] == s.lens[1..];
  }

  /** No item lies above the top level. */
  lemma {:induction false} HeightAtMost(lens: seq<nat>)
    requires lens != []
    ensures Height(lens) <= (|lens| - 1) * MassOf(lens)
  {
    var rest, d := lens[1..], |lens| - 1;
    if rest != [] {
      HeightAtMost(rest);
      OneLevelMore(Height(rest), MassOf(rest), d, MassOf(lens));
    }
  }

  lemma OneLevelMore(height: nat, mass: nat, d: nat, n: nat)
    requires 0 < d && height <= (d - 1) * mass && 2 * mass <= n
    ensures 2 * (height + mass) <= d * n
  {
    assert (d - 1) * mass + mass == d * mass;
    assert d * (2 * mass) <= d * n;
  }

  // ---------------------------------------------------------------------------
  // A compaction pays
  // ---------------------------------------------------------------------------

  lemma {:induction false} FoursAbove(d: nat)
    requires 0 < d
    ensures 4 * Power(3, d) <= 3 * Power(4, d)
  {
    if 1 < d {
      FoursAbove(d - 1);
    } else {
      assert Power(3, 1) == 3 * Power(3, 0) && Power(4, 1) == 4 * Power(4, 0);
    }
  }

  lemma WideTimes(k: nat, w: nat, b: nat, p: nat)
    requires 2 * (2 * k * b) <= 5 * w * p && 4 * p <= 3 * (b * b)
    ensures 16 * k * p <= 15 * (w * b) * p
  {
    Larger(2 * (2 * k * b), 5 * w * p, 3 * b);
    assert 2 * (2 * k * b) * (3 * b) == (4 * k) * (3 * (b * b));
    assert 5 * w * p * (3 * b) == 15 * (w * b) * p;
    Larger(4 * p, 3 * (b * b), 4 * k);
    assert 4 * p * (4 * k) == 16 * k * p && 3 * (b * b) * (4 * k) == (4 * k) * (3 * (b * b));
  }

  lemma CancelAtMost(x: nat, y: nat, p: nat)
    requires x * p <= y * p && 0 < p
    ensures x <= y
  {
    assert (y + 1) * p == y * p + p;
    Cancel(x, y + 1, p);
  }

  /** One level or more below the top, the width times its distance in weight is large against `k`. */
  lemma WideEnough(k: nat, w: nat, b: nat, p: nat)
    requires 2 * (2 * k * b) <= 5 * w * p && 4 * p <= 3 * (b * b) && 0 < p
    ensures 16 * k <= 15 * (w * b)
  {
    WideTimes(k, w, b, p);
    CancelAtMost(16 * k, 15 * (w * b), p);
  }

  lemma ErrorPart(k: nat, top: nat, a: nat, b: nat, w: nat)
    requires 16 * k <= 15 * (w * b)
    ensures 16 * k * top * (a * a) <= (a * b * top) * (15 * (a * w))
  {
    var c := top * (a * a);
    Larger(16 * k, 15 * (w * b), c);
    assert 16 * k * c == 16 * k * top * (a * a);
    assert 15 * (w * b) * c == (a * b * top) * (15 * (a * w));
  }

  lemma HeightPart(y: nat, a: nat, w: nat, half: nat, n: nat)
    requires y <= n && w <= 2 * half
    ensures y * (15 * (a * w)) <= 15 * n * (2 * (a * half))
  {
    Larger(y, n, 15 * (a * w));
    Larger(w, 2 * half, 15 * n * a);
    assert n * (15 * (a * w)) == w * (15 * n * a);
    assert 2 * half * (15 * n * a) == 15 * n * (2 * (a * half));
  }

  lemma Pays(k: nat, top: nat, a: nat, b: nat, w: nat, half: nat, n: nat)
    requires 16 * k <= 15 * (w * b) && a * b * top <= n && w <= 2 * half
    ensures 16 * k * top * (a * a) <= 15 * n * (2 * (a * half))
  {
    ErrorPart(k, top, a, b, w);
    HeightPart(a * b * top, a, w, half, n);
  }

  lemma FlipRoom(k: nat, s: Shape, h: nat, w: nat)
    requires KllShape.Sound(k, s) && h < |s.lens| && FullAt(k, s.lens, h) && w == Width(k, |FlipShape(s, h).lens|, h)
    ensures w <= 2 * (s.lens[h] / 2)
  {
    CapacityFalls(k, |s.lens|, |FlipShape(s, h).lens|, h);
  }

  lemma FlipPays(k: nat, s: Shape, h: nat, top: nat, n: nat)
    requires KllShape.Sound(k, s) && h < |s.lens| && FullAt(k, s.lens, h)
    requires n == MassOf(s.lens) && top == Capacity(k, 1, 0) / 2
    ensures 16 * k * top * Fourfold(h, 1) <= 15 * n * Weigh(h + 1, s.lens[h] / 2)
  {
    var r, half := FlipShape(s, h), s.lens[h] / 2;
    var d := |r.lens| - h - 1;
    var w, p, a, b := Width(k, |r.lens|, h), Power(3, d), Two(h), Two(d);
    FlipTopped(k, s, h);
    CompactMassOf(s.lens, h);
    TopWeighs(r.lens, top);
    WeighIs(|r.lens| - 1, top);
    TwoPlus(h, d);
    NarrowestWidth(k, |r.lens|, h, d, w, p);
    DoubledIsTwo(2 * k, d);
    FoursAbove(d);
    PowerFour(d);
    WideEnough(k, w, b, p);
    FlipRoom(k, s, h, w);
    Pays(k, top, a, b, w, half, n);
    FourfoldIs(h, 1);
    WeighIs(h, half);
  }

  /** `16 k` times half the top capacity. */
  function Unit(k: nat): nat {
    Times(16 * k, Capacity(k, 1, 0) / 2)
  }

  /** With `n` items, this gain in height covers this addition to the spread. */
  ghost predicate Covers(m: nat, n: nat, more: int, gain: int) {
    Many(m, more) <= Many(15 * n, gain)
  }

  lemma CoverTogether(m: nat, n: nat, f: int, g: int, more: int, up: int, rest: int, gain: int)
    requires Covers(m, n, f, up) && Covers(m, n, g, rest) && more == f + g && gain == up + rest
    ensures Covers(m, n, more, gain)
  {
    ManySum(m, f, g, more);
    ManySum(15 * n, up, rest, gain);
  }

  lemma FlipCovers(k: nat, s: Shape, h: nat, m: nat, n: nat, f: int, up: int)
    requires KllShape.Sound(k, s) && h < |s.lens| && FullAt(k, s.lens, h)
    requires n == MassOf(s.lens) && m == Unit(k)
    requires f == Fourfold(h, 1) && up == Weigh(h + 1, s.lens[h] / 2)
    ensures Covers(m, n, f, up)
  {
    TimesIsProduct(16 * k, Capacity(k, 1, 0) / 2);
    FlipPays(k, s, h, Capacity(k, 1, 0) / 2, n);
    ManyIs(m, f);
    ManyIs(15 * n, up);
  }

  /** What settling adds to the spread, and gains in height. */
  ghost predicate Settling(k: nat, s: Shape, more: int, gain: int) {
    |s.lens| == |s.tally| && more == Added(k, s) && gain == Height(SettleShape(k, s).lens) - Height(s.lens)
  }

  lemma FlipGain(k: nat, s: Shape, h: nat, f: int, up: int, more: int, gain: int, less: int, rest: int)
    requires Settling(k, s, more, gain) && FirstFullAt(k, s.lens, 0) == Some(h)
    requires f == Fourfold(h, 1) && up == Weigh(h + 1, s.lens[h] / 2) && more == f + less && gain == up + rest
    ensures Settling(k, FlipShape(s, h), less, rest)
    ensures MassOf(FlipShape(s, h).lens) == MassOf(s.lens) && Total(FlipShape(s, h).lens) < Total(s.lens)
  {
    CompactMassOf(s.lens, h);
    FlipHeight(s.lens, h);
    AddedStep(k, s, h);
    SettleShapeStep(k, s, h);
  }

  lemma CalmCovers(k: nat, s: Shape, m: nat, n: nat, more: int, gain: int)
    requires Settling(k, s, more, gain) && FirstFullAt(k, s.lens, 0) == None
    ensures Covers(m, n, more, gain)
  {
    CalmShape(k, s);
    ManyOrder(m, 0, 0);
    ManyOrder(15 * n, 0, 0);
  }

  lemma {:induction false} SettleMass(k: nat, s: Shape)
    requires |s.lens| == |s.tally|
    ensures MassOf(SettleShape(k, s).lens) == MassOf(s.lens)
    decreases Total(s.lens)
  {
    match FirstFullAt(k, s.lens, 0)
    case None =>
    case Some(h) =>
      CompactMassOf(s.lens, h);
      SettleMass(k, FlipShape(s, h));
  }

  /** All that settling adds to the spread is covered by the height it gains. */
  lemma {:induction false} SettleCovers(k: nat, s: Shape, m: nat, n: nat, more: int, gain: int)
    requires KllShape.Sound(k, s) && n == MassOf(s.lens) && m == Unit(k) && Settling(k, s, more, gain)
    ensures Covers(m, n, more, gain)
    decreases Total(s.lens)
  {
    var first := FirstFullAt(k, s.lens, 0);
    if first.None? {
      CalmCovers(k, s, m, n, more, gain);
    } else {
      var h := first.value;
      var f, up := Fourfold(h, 1), Weigh(h + 1, s.lens[h] / 2);
      var less, rest := more - f, gain - up;
      FlipGain(k, s, h, f, up, more, gain, less, rest);
      FlipSound(k, s, h);
      FlipCovers(k, s, h, m, n, f, up);
      SettleCovers(k, FlipShape(s, h), m, n, less, rest);
      CoverTogether(m, n, f, less, more, up, rest, gain);
    }
  }
}
