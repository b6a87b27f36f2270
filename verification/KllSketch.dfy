/** The sketch object. Between operations a level may be out of order; a flag per level says when
    it is known to be in order, so that a compaction can skip the sort and a promotion can merge.
    Every operation is proved to be the operation of `KllCore` on the levels put in order. */
module KllSketch {
  import opened Wrappers
  import opened Sorting
  import opened KllCore
  import KllIngest
  import KllQuery

  function InOrder(levels: seq<seq<int>>): (r: seq<seq<int>>)
    ensures |r| == |levels|
    ensures forall h | 0 <= h < |r| :: r[h] == Sort(levels[h]) && |r[h]| == |levels[h]|
  {
    seq(|levels|, h requires 0 <= h < |levels| => Sort(levels[h]))
  }

  lemma InOrderSorted(levels: seq<seq<int>>)
    ensures AllSorted(InOrder(levels))
  {
    forall h | 0 <= h < |levels| ensures Sorted(InOrder(levels)[h]) { SortSorted(levels[h]); }
  }

  lemma {:induction false} InOrderWeighs(levels: seq<seq<int>>, x: int)
    ensures Mass(InOrder(levels)) == Mass(levels) && Retained(InOrder(levels)) == Retained(levels)
    ensures Rank(InOrder(levels), x) == Rank(levels, x)
  {
    if levels != [] {
      InOrderWeighs(levels[1..], x);
      SortBelow(levels[0], x);
      assert InOrder(levels)[1..] == InOrder(levels[1..]);
    }
  }

  lemma {:induction false} SameFirstFull(k: nat, levels: seq<seq<int>>, h: nat)
    requires h <= |levels|
    ensures FirstFull(k, levels, h) == FirstFull(k, InOrder(levels), h)
    decreases |levels| - h
  {
    if h < |levels| { SameFirstFull(k, levels, h + 1); }
  }

  lemma SortTwice(a: seq<int>)
    ensures Sort(Sort(a)) == Sort(a)
  {
    SortSorted(a);
    SortOfSorted(Sort(a));
  }

  lemma InOrderTwice(levels: seq<seq<int>>)
    ensures InOrder(InOrder(levels)) == InOrder(levels)
  {
    forall h | 0 <= h < |levels| ensures InOrder(InOrder(levels))[h] == InOrder(levels)[h] { SortTwice(levels[h]); }
  }

  method EveryOther(buf: seq<int>, heads: bool) returns (r: seq<int>)
    requires |buf| % 2 == 0
    ensures r == Alternate(buf, heads)
  {
    r := [];
    var i := 0;
    while i < |buf|
      invariant i <= |buf| && i % 2 == 0
      invariant r + Alternate(buf[i..], heads) == Alternate(buf, heads)
    {
      assert buf[i..][2..] == buf[i + 2..];
      r := r + [if heads then buf[i + 1] else buf[i]];
      i := i + 2;
    }
  }

  lemma {:induction false} WeighTimes(h: nat, n: int)
    ensures Weigh(h, 1) * n == Weigh(h, n)
  {
    if 0 < h {
      WeighTimes(h - 1, n);
      assert (2 * Weigh(h - 1, 1)) * n == 2 * (Weigh(h - 1, 1) * n);
    }
  }

  /** The destination of a promotion, whether merged or appended, is in order what it should be. */
  lemma NextInOrder(existing: seq<int>, promoted: seq<int>, next: seq<int>)
    requires next == existing + promoted || next == Sort(existing + promoted)
    ensures Sort(next) == Sort(Sort(existing) + promoted)
  {
    KllIngest.SortOfSortPlus(existing, promoted);
    SortTwice(existing + promoted);
  }

  lemma SortBoth(a: seq<int>, b: seq<int>)
    ensures Sort(Sort(a) + Sort(b)) == Sort(a + b)
  {
    SortSorted(a + b);
    forall x ensures Below(Sort(a + b), x) == Below(Sort(a) + Sort(b), x) {
      SortBelow(a, x);
      SortBelow(b, x);
      SortBelow(a + b, x);
      BelowConcat(a, b, x);
      BelowConcat(Sort(a), Sort(b), x);
    }
    SortIs(Sort(a) + Sort(b), Sort(a + b));
  }

  /** Tracking only a batch's extremes tracks all of it. */
  lemma BatchExtremes(m: Option<int>, n: Option<int>, xs: seq<int>, low: int, high: int)
    requires IsLeast(Some(low), xs) && IsGreatest(Some(high), xs)
    ensures Lowest(m, xs) == Lower(m, low) && Highest(n, xs) == Higher(n, high)
  {
    BatchLowest(m, xs, low);
    BatchHighest(n, xs, high);
  }

  lemma BatchLowest(m: Option<int>, xs: seq<int>, low: int)
    requires IsLeast(Some(low), xs)
    ensures Lowest(m, xs) == Lower(m, low)
  {
    var seen := if m.None? then [] else [m.value];
    ExtremesFollow(m, m, seen, xs);
    assert IsLeast(Lower(m, low), seen + xs);
  }

  lemma BatchHighest(n: Option<int>, xs: seq<int>, high: int)
    requires IsGreatest(Some(high), xs)
    ensures Highest(n, xs) == Higher(n, high)
  {
    var seen := if n.None? then [] else [n.value];
    ExtremesFollow(n, n, seen, xs);
    assert IsGreatest(Higher(n, high), seen + xs);
  }

  /** Flags that do not claim more order than there is. */
  ghost predicate Truthful(levels: seq<seq<int>>, sorted: seq<bool>) {
    && levels != [] && |sorted| == |levels|
    && forall h | 0 <= h < |levels| :: sorted[h] ==> Sorted(levels[h])
  }

  lemma RaisedInOrder(levels: seq<seq<int>>, h: nat)
    requires h < |levels|
    ensures Raised(InOrder(levels), h) == InOrder(Raised(levels, h))
  {
  }

  lemma UpdateInOrder(levels: seq<seq<int>>, h: nat, b: seq<int>)
    requires h < |levels|
    ensures InOrder(levels[h := b]) == InOrder(levels)[h := Sort(b)]
  {
  }

  lemma CompactInOrder(levels: seq<seq<int>>, h: nat, next: seq<int>, heads: bool)
    requires h < |levels|
    requires Sort(next) == Promote(Sort(Raised(levels, h)[h + 1]), Sort(levels[h]), heads)
    ensures InOrder(Raised(levels, h)[h := Kept(Sort(levels[h]))][h + 1 := next]) == Compact(InOrder(levels), h, heads)
  {
    var kept := Kept(Sort(levels[h]));
    SortOfSorted(kept);
    RaisedInOrder(levels, h);
    UpdateInOrder(Raised(levels, h), h, kept);
    UpdateInOrder(Raised(levels, h)[h := kept], h + 1, next);
  }

  /** The paired items of a level, halved and carried to the next: merged into it when it is in
      order, appended otherwise. */
  method Carry(existing: seq<int>, inOrder: bool, buf: seq<int>, heads: bool) returns (next: seq<int>)
    requires Sorted(buf) && (inOrder ==> Sorted(existing))
    ensures Sort(next) == Promote(Sort(existing), buf, heads)
    ensures inOrder ==> Sorted(next)
  {
    AlternateSorted(Paired(buf), heads);
    var promoted := EveryOther(Paired(buf), heads);
    if inOrder {
      next := MergeSorted(existing, promoted);
      SortSorted(existing + promoted);
    } else {
      next := existing + promoted;
    }
    NextInOrder(existing, promoted, next);
  }

  method CompactOnce(levels: seq<seq<int>>, sorted: seq<bool>, h: nat, heads: bool)
    returns (compacted: seq<seq<int>>, flags: seq<bool>)
    requires Truthful(levels, sorted) && h < |levels|
    ensures Truthful(compacted, flags) && InOrder(compacted) == Compact(InOrder(levels), h, heads)
    ensures sorted[0] ==> flags[0]
  {
    var buf := levels[h];
    if sorted[h] { SortOfSorted(buf); } else { SortSorted(buf); buf := Sort(buf); }
    compacted, flags := Raised(levels, h), sorted;
    if h + 1 == |levels| { flags := flags + [true]; }
    var next := Carry(compacted[h + 1], flags[h + 1], buf, heads);
    CompactInOrder(levels, h, next, heads);
    compacted, flags := compacted[h := Kept(buf)][h + 1 := next], flags[h := true];
  }

  lemma IngestOne(k: nat, coins: nat -> bool, s: Sketch, x: int)
    requires Ready(s.core)
    ensures Ingest(k, coins, s, [x]) == Sketch(InsertOne(k, coins, s.core, x), Lower(s.min, x), Higher(s.max, x))
  {
    var xs := [x];
    var none := xs[..|xs| - 1];
    assert none == [] && none + xs == xs;
    assert Lowest(s.min, xs) == Lower(Lowest(s.min, none), x);
    assert Highest(s.max, xs) == Higher(Highest(s.max, none), x);
    KllIngest.InsertEachLast(k, coins, s.core, none, x);
  }

  /** Whatever stream the one core fits, the other fits that stream followed by `xs`. */
  ghost predicate Carries(c: Core, d: Core, xs: seq<int>) {
    forall stream | Fits(c, stream) :: Fits(d, stream + xs)
  }

  /** Where a chunked ingest stands after `xs`: it has lost nothing, and if it began settled it
      is where inserting one by one would be. */
  ghost predicate Tracks(k: nat, coins: nat -> bool, start: Core, now: Core, xs: seq<int>)
    requires Ready(start)
  {
    && Ready(now) && Carries(start, now, xs)
    && (Settled(k, start.levels) ==> Settled(k, now.levels) && now == InsertEach(k, coins, start, xs))
  }

  lemma CarriesChunk(k: nat, coins: nat -> bool, start: Core, now: Core, done: seq<int>, chunk: seq<int>)
    requires Ready(now) && Carries(start, now, done)
    ensures Ready(Pour(now, chunk))
    ensures Carries(start, Pour(now, chunk), done + chunk)
    ensures Carries(start, Settle(k, coins, Pour(now, chunk)), done + chunk)
  {
    PourSorted(now, chunk);
    forall stream | Fits(start, stream)
      ensures Fits(Pour(now, chunk), stream + (done + chunk))
      ensures Fits(Settle(k, coins, Pour(now, chunk)), stream + (done + chunk))
    {
      PourFits(now, stream + done, chunk);
      assert stream + done + chunk == stream + (done + chunk);
      SettleFits(k, coins, Pour(now, chunk), stream + (done + chunk));
    }
  }

  lemma TracksChunk(k: nat, coins: nat -> bool, start: Core, now: Core, done: seq<int>, chunk: seq<int>, next: Core)
    requires Ready(start) && Tracks(k, coins, start, now, done)
    requires chunk == [] || |now.levels[0]| + |chunk| <= Capacity(k, |now.levels|, 0)
    requires Ready(Pour(now, chunk))
    requires next == if Full(k, Pour(now, chunk).levels, 0) then Settle(k, coins, Pour(now, chunk)) else Pour(now, chunk)
    ensures Tracks(k, coins, start, next, done + chunk)
  {
    CarriesChunk(k, coins, start, now, done, chunk);
    SettleReady(k, coins, Pour(now, chunk));
    if Settled(k, start.levels) {
      assert !Full(k, now.levels, 0);
      KllIngest.ChunkIsInserts(k, coins, now, chunk);
      KllIngest.InsertEachConcat(k, coins, start, done, chunk);
      if !Full(k, Pour(now, chunk).levels, 0) {
        KllIngest.PourStaysSettled(k, now, chunk);
      }
    }
  }

  lemma TracksStart(k: nat, coins: nat -> bool, start: Core)
    requires Ready(start)
    ensures Tracks(k, coins, start, start, [])
  {
    forall stream | Fits(start, stream) ensures Fits(start, stream + []) {
      assert stream + [] == stream;
    }
  }

  method Extremes(xs: seq<int>) returns (low: int, high: int)
    requires xs != []
    ensures IsLeast(Some(low), xs) && IsGreatest(Some(high), xs)
  {
    low, high := xs[0], xs[0];
    for i := 1 to |xs|
      invariant low in xs && high in xs
      invariant forall j | 0 <= j < i :: low <= xs[j] <= high
    {
      if xs[i] < low { low := xs[i]; }
      if high < xs[i] { high := xs[i]; }
    }
  }

  lemma JoinInOrder(mine: seq<seq<int>>, theirs: seq<seq<int>>, joined: seq<seq<int>>)
    requires |joined| == if |mine| < |theirs| then |theirs| else |mine|
    requires forall h | 0 <= h < |joined| :: joined[h] == KllIngest.Level(mine, h) + KllIngest.Level(theirs, h)
    ensures InOrder(joined) == KllIngest.Join(InOrder(mine), InOrder(theirs))
  {
    forall h | 0 <= h < |joined|
      ensures InOrder(joined)[h] == KllIngest.Join(InOrder(mine), InOrder(theirs))[h]
    {
      SortBoth(KllIngest.Level(mine, h), KllIngest.Level(theirs, h));
      assert Sort([]) == [];
      assert KllIngest.Level(InOrder(mine), h) == Sort(KllIngest.Level(mine, h));
      assert KllIngest.Level(InOrder(theirs), h) == Sort(KllIngest.Level(theirs, h));
    }
  }

  /** Same-height levels one after the other, the stack growing as needed; an extended level is
      no longer known to be in order. */
  method JoinLevels(mine: seq<seq<int>>, sorted: seq<bool>, theirs: seq<seq<int>>)
    returns (joined: seq<seq<int>>, flags: seq<bool>)
    requires Truthful(mine, sorted)
    ensures Truthful(joined, flags) && InOrder(joined) == KllIngest.Join(InOrder(mine), InOrder(theirs))
  {
    joined, flags := mine, sorted;
    for h := 0 to |theirs|
      invariant |joined| == if |mine| < h then h else |mine|
      invariant forall i | 0 <= i < h :: joined[i] == KllIngest.Level(mine, i) + theirs[i]
      invariant forall i | h <= i < |mine| :: joined[i] == mine[i]
      invariant Truthful(joined, flags)
    {
      if h == |joined| {
        joined, flags := joined + [[]], flags + [true];
      }
      if theirs[h] != [] {
        joined, flags := joined[h := joined[h] + theirs[h]], flags[h := false];
      }
    }
    JoinInOrder(mine, theirs, joined);
  }

  class KllSketch {
    const k: nat
    const coins: nat -> bool
    var levels: seq<seq<int>>
    var sorted: seq<bool>
    var flips: nat
    var min: Option<int>
    var max: Option<int>
    ghost var spent: nat

    ghost predicate Valid()
      reads this
    {
      Truthful(levels, sorted)
    }

    ghost function Stack(): (c: Core)
      reads this
      ensures |c.levels| == |levels| && AllSorted(c.levels)
      ensures levels != [] ==> Ready(c)
    {
      InOrderSorted(levels);
      Core(InOrder(levels), flips, spent)
    }

    ghost function View(): Sketch
      reads this
    {
      Sketch(Stack(), min, max)
    }

    constructor (k: nat, coins: nat -> bool)
      ensures Valid() && this.k == k && this.coins == coins
      ensures Summarizes(View(), []) && Settled(k, levels) && spent == 0 && flips == 0
    {
      this.k, this.coins := k, coins;
      levels, sorted, flips, min, max, spent := [[]], [true], 0, None, None, 0;
      new;
      assert InOrder(levels) == [[]];
      assert levels[1..] == [] && InOrder(levels)[1..] == [];
      assert !Full(k, levels, 0);
    }

    method CompactLevel(h: nat)
      requires Valid() && h < |levels|
      modifies this`levels, this`sorted, this`flips, this`spent
      ensures Valid()
      ensures Stack() == if |old(levels[h])| < 2 then old(Stack()) else Flip(coins, old(Stack()), h)
      ensures old(sorted[0]) ==> sorted[0]
    {
      if |levels[h]| < 2 { return; }
      WeighOrder(h, 0, 1);
      levels, sorted := CompactOnce(levels, sorted, h, coins(flips));
      flips, spent := flips + 1, spent + Weigh(h, 1);
    }

    method CompactAll()
      requires Valid()
      modifies this`levels, this`sorted, this`flips, this`spent
      ensures Valid() && Stack() == Settle(k, coins, old(Stack()))
      ensures old(sorted[0]) ==> sorted[0]
    {
      var target := FirstFull(k, levels, 0);
      SameFirstFull(k, levels, 0);
      while target.Some?
        invariant Valid() && (old(sorted[0]) ==> sorted[0])
        invariant target == FirstFull(k, levels, 0) == FirstFull(k, Stack().levels, 0)
        invariant Settle(k, coins, Stack()) == Settle(k, coins, old(Stack()))
        decreases Retained(Stack().levels)
      {
        ghost var before := Stack();
        CompactKeeps(before.levels, target.value, coins(before.flips));
        CompactLevel(target.value);
        target := FirstFull(k, levels, 0);
        SameFirstFull(k, levels, 0);
      }
    }

    /** Items appended to level 0, with no compaction yet. */
    method Push(xs: seq<int>)
      requires Valid()
      modifies this`levels, this`sorted
      ensures Valid() && |levels| == |old(levels)| && Stack() == KllCore.Pour(old(Stack()), xs)
      ensures |levels[0]| == |old(levels[0])| + |xs|
    {
      KllIngest.SortOfSortPlus(levels[0], xs);
      ghost var before := levels;
      levels := levels[0 := levels[0] + xs];
      sorted := sorted[0 := false];
      assert InOrder(levels) == InOrder(before)[0 := Sort(InOrder(before)[0] + xs)];
    }

    method Track(low: int, high: int)
      modifies this`min, this`max
      ensures min == Lower(old(min), low) && max == Higher(old(max), high)
    {
      if min.None? || low < min.value { min := Some(low); }
      if max.None? || max.value < high { max := Some(high); }
    }

    method Insert(x: int)
      requires Valid()
      modifies this
      ensures Valid() && View() == Ingest(k, coins, old(View()), [x])
    {
      IngestOne(k, coins, View(), x);
      Track(x, x);
      Push([x]);
      CompactAll();
    }

    method Absorb(xs: seq<int>)
      requires Valid()
      modifies this
      ensures Valid()
      ensures Stack() == KllIngest.AbsorbEach(k, coins, old(Stack()), xs)
      ensures min == Lowest(old(min), xs) && max == Highest(old(max), xs)
      ensures Settled(k, old(Stack()).levels) ==> View() == Ingest(k, coins, old(View()), xs)
    {
      var capacity := Capacity(k, |levels|, 0);
      var i := 0;
      while i < |xs|
        invariant i <= |xs| && Valid() && capacity == Capacity(k, |levels|, 0)
        invariant Stack() == KllIngest.AbsorbEach(k, coins, old(Stack()), xs[..i])
        invariant min == Lowest(old(min), xs[..i]) && max == Highest(old(max), xs[..i])
      {
        assert xs[..i + 1][..i] == xs[..i];
        Track(xs[i], xs[i]);
        Push([xs[i]]);
        if capacity <= |levels[0]| {
          CompactAll();
          capacity := Capacity(k, |levels|, 0);
        }
        i := i + 1;
      }
      assert xs[..|xs|] == xs;
      if Settled(k, old(Stack()).levels) {
        KllIngest.AbsorbIsInserts(k, coins, old(Stack()), xs);
      }
    }

    /** How much of the remaining items level 0 has room for. */
    function Take(left: nat): (n: nat)
      requires levels != []
      reads this`levels
      ensures n <= left
      ensures n == 0 || |levels[0]| + n <= Capacity(k, |levels|, 0)
      ensures n == left || Capacity(k, |levels|, 0) <= |levels[0]| + n
    {
      var capacity := Capacity(k, |levels|, 0);
      var room := if capacity <= |levels[0]| then 0 else capacity - |levels[0]|;
      if left < room then left else room
    }

    method CompactIfFull()
      requires Valid()
      modifies this`levels, this`sorted, this`flips, this`spent
      ensures Valid() && !Full(k, levels, 0) && (old(sorted[0]) ==> sorted[0])
      ensures Stack() == if Full(k, old(Stack()).levels, 0) then Settle(k, coins, old(Stack())) else old(Stack())
    {
      if Capacity(k, |levels|, 0) <= |levels[0]| {
        CompactAll();
        assert !Full(k, Stack().levels, 0);
      }
    }

    /** After a chunk is on level 0: compact if that filled it. */
    method Finish(xs: seq<int>, i: nat, take: nat, ghost start: Core, ghost before: Core)
      requires Valid() && i + take <= |xs| && Ready(start) && Tracks(k, coins, start, before, xs[..i])
      requires Stack() == KllCore.Pour(before, xs[i..i + take])
      requires take == 0 || |before.levels[0]| + take <= Capacity(k, |before.levels|, 0)
      modifies this`levels, this`sorted, this`flips, this`spent
      ensures Valid() && !Full(k, levels, 0) && (old(sorted[0]) ==> sorted[0])
      ensures Tracks(k, coins, start, Stack(), xs[..i + take])
    {
      CompactIfFull();
      TracksChunk(k, coins, start, before, xs[..i], xs[i..i + take], Stack());
      assert xs[..i] + xs[i..i + take] == xs[..i + take];
    }

    method Fill(xs: seq<int>, i: nat, ghost start: Core) returns (next: nat)
      requires Valid() && i < |xs| && Ready(start) && Tracks(k, coins, start, Stack(), xs[..i])
      modifies this`levels, this`sorted, this`flips, this`spent
      ensures Valid() && i <= next <= |xs| && Tracks(k, coins, start, Stack(), xs[..next])
      ensures !Full(k, levels, 0) && (next == i ==> old(Full(k, levels, 0)))
    {
      var take := Take(|xs| - i);
      ghost var before := Stack();
      Push(xs[i..i + take]);
      Finish(xs, i, take, start, before);
      next := i + take;
    }

    method AbsorbSlice(xs: seq<int>)
      requires Valid()
      modifies this
      ensures Valid() && Carries(old(Stack()), Stack(), xs)
      ensures min == Lowest(old(min), xs) && max == Highest(old(max), xs)
      ensures Settled(k, old(Stack()).levels) ==> View() == Ingest(k, coins, old(View()), xs)
    {
      TracksStart(k, coins, Stack());
      if xs == [] { return; }
      var low, high := Extremes(xs);
      BatchExtremes(min, max, xs, low, high);
      Track(low, high);
      var i := 0;
      while i < |xs|
        invariant i <= |xs| && Valid()
        invariant Tracks(k, coins, old(Stack()), Stack(), xs[..i])
        invariant min == Lowest(old(min), xs) && max == Highest(old(max), xs)
        decreases |xs| - i, Full(k, levels, 0)
      {
        i := Fill(xs, i, old(Stack()));
      }
      assert xs[..|xs|] == xs;
    }

    /** Level 0 is in order and stays so. */
    method PushSorted(xs: seq<int>, i: nat, j: nat)
      requires Valid() && sorted[0] && Sorted(xs) && i <= j <= |xs|
      modifies this`levels
      ensures Valid() && |levels| == |old(levels)| && Stack() == KllCore.Pour(old(Stack()), xs[i..j])
    {
      var chunk := xs[i..j];
      KllIngest.SortOfSortPlus(levels[0], chunk);
      SortTwice(levels[0] + chunk);
      SortSorted(levels[0] + chunk);
      var merged := MergeSorted(levels[0], chunk);
      UpdateInOrder(levels, 0, merged);
      levels := levels[0 := merged];
    }

    method OrderBottom()
      requires Valid()
      modifies this`levels, this`sorted
      ensures Valid() && sorted[0] && Stack() == old(Stack())
    {
      if !sorted[0] {
        SortTwice(levels[0]);
        SortSorted(levels[0]);
        UpdateInOrder(levels, 0, Sort(levels[0]));
        levels, sorted := levels[0 := Sort(levels[0])], sorted[0 := true];
      }
    }

    method FillSorted(xs: seq<int>, i: nat, ghost start: Core) returns (next: nat)
      requires Valid() && sorted[0] && Sorted(xs)
      requires i < |xs| && Ready(start) && Tracks(k, coins, start, Stack(), xs[..i])
      modifies this`levels, this`sorted, this`flips, this`spent
      ensures Valid() && sorted[0] && i <= next <= |xs| && Tracks(k, coins, start, Stack(), xs[..next])
      ensures !Full(k, levels, 0) && (next == i ==> old(Full(k, levels, 0)))
    {
      var take := Take(|xs| - i);
      ghost var before := Stack();
      PushSorted(xs, i, i + take);
      Finish(xs, i, take, start, before);
      next := i + take;
    }

    method AbsorbInOrder(xs: seq<int>)
      requires Valid() && Sorted(xs)
      modifies this`levels, this`sorted, this`flips, this`spent
      ensures Valid() && Tracks(k, coins, old(Stack()), Stack(), xs)
    {
      TracksStart(k, coins, Stack());
      OrderBottom();
      var i := 0;
      while i < |xs|
        invariant i <= |xs| && Valid() && sorted[0]
        invariant Tracks(k, coins, old(Stack()), Stack(), xs[..i])
        decreases |xs| - i, Full(k, levels, 0)
      {
        i := FillSorted(xs, i, old(Stack()));
      }
      assert xs[..|xs|] == xs;
    }

    method AbsorbSortedSlice(xs: seq<int>)
      requires Valid()
      modifies this
      ensures Valid() && Carries(old(Stack()), Stack(), xs)
      ensures min == Lowest(old(min), xs) && max == Highest(old(max), xs)
      ensures Settled(k, old(Stack()).levels) ==> View() == Ingest(k, coins, old(View()), xs)
    {
      if xs == [] {
        TracksStart(k, coins, Stack());
      } else if !Sorted(xs) {
        AbsorbSlice(xs);
      } else {
        BatchExtremes(min, max, xs, xs[0], xs[|xs| - 1]);
        Track(xs[0], xs[|xs| - 1]);
        AbsorbInOrder(xs);
      }
    }

    method FoldExtremes(other: KllSketch)
      modifies this`min, this`max
      ensures min == KllIngest.LowerOf(old(min), old(other.min))
      ensures max == KllIngest.HigherOf(old(max), old(other.max))
    {
      if other.min.Some? && (min.None? || other.min.value < min.value) { min := other.min; }
      if other.max.Some? && (max.None? || max.value < other.max.value) { max := other.max; }
    }

    method JoinStack(other: KllSketch)
      requires Valid() && other.Valid() && other != this
      modifies this`levels, this`sorted, this`spent
      ensures Valid() && Stack() == KllIngest.Joined(old(Stack()), old(other.Stack()))
    {
      levels, sorted := JoinLevels(levels, sorted, other.levels);
      spent := spent + other.spent;
    }

    /** Folds another sketch in. The other sketch is given up by its owner. */
    method Merge(other: KllSketch)
      requires Valid() && other.Valid() && other != this
      modifies this
      ensures Valid() && View() == KllIngest.Merge(k, coins, old(View()), old(other.View()))
    {
      FoldExtremes(other);
      JoinStack(other);
      CompactAll();
    }

    /** Rebuilds a sketch from its parts, refusing a stack that is empty or over capacity. The
        coins start afresh; the parts bring along the error they had. */
    static method FromParts(k: nat, coins: nat -> bool, levels: seq<seq<int>>, min: Option<int>, max: Option<int>,
                            ghost error: nat)
      returns (s: KllSketch?)
      ensures s != null <==> KllIngest.Accepted(k, levels)
      ensures s != null ==> fresh(s) && s.Valid() && s.k == k && s.coins == coins
      ensures s != null ==> s.View() == Sketch(Core(InOrder(levels), 0, error), min, max)
    {
      if levels == [] || k < MIN_LEVEL_WIDTH { return null; }
      for h := 0 to |levels|
        invariant forall i | 0 <= i < h :: |levels[i]| <= Capacity(k, |levels|, i)
      {
        if Capacity(k, |levels|, h) < |levels[h]| { return null; }
      }
      var built := new KllSketch(k, coins);
      built.levels, built.sorted := InOrder(levels), seq(|levels|, _ => true);
      built.min, built.max, built.spent := min, max, error;
      InOrderSorted(levels);
      InOrderTwice(levels);
      return built;
    }

    method Count() returns (n: nat)
      requires Valid()
      ensures n == Mass(Stack().levels)
    {
      n := 0;
      var weight: nat := 1;
      for h := 0 to |levels|
        invariant weight == Weigh(h, 1)
        invariant n + Weigh(h, Mass(levels[h..])) == Mass(levels)
      {
        assert levels[h..][1..] == levels[h + 1..];
        WeighTimes(h, |levels[h]|);
        WeighUp(h, Mass(levels[h + 1..]));
        WeighSum(h, |levels[h]|, 2 * Mass(levels[h + 1..]));
        n := n + weight * |levels[h]|;
        weight := 2 * weight;
      }
      WeighOrder(|levels|, 0, 0);
      InOrderWeighs(levels, 0);
    }

    method RankOf(x: int) returns (n: nat)
      requires Valid()
      ensures n == Rank(Stack().levels, x)
    {
      n := 0;
      var weight: nat := 1;
      for h := 0 to |levels|
        invariant weight == Weigh(h, 1)
        invariant n + Weigh(h, Rank(levels[h..], x)) == Rank(levels, x)
      {
        assert levels[h..][1..] == levels[h + 1..];
        WeighTimes(h, Below(levels[h], x));
        WeighUp(h, Rank(levels[h + 1..], x));
        WeighSum(h, Below(levels[h], x), 2 * Rank(levels[h + 1..], x));
        n := n + weight * Below(levels[h], x);
        weight := 2 * weight;
      }
      WeighOrder(|levels|, 0, 0);
      InOrderWeighs(levels, x);
    }

    method AtRanks(ranks: seq<nat>) returns (answers: seq<Option<int>>)
      requires Valid()
      ensures |answers| == |ranks|
      ensures forall i | 0 <= i < |ranks| :: KllQuery.Answers(Stack().levels, min, max, ranks[i], answers[i])
    {
      answers := KllQuery.AtRanks(levels, min, max, ranks);
      forall i | 0 <= i < |ranks| ensures KllQuery.Answers(Stack().levels, min, max, ranks[i], answers[i]) {
        if answers[i].Some? {
          InOrderWeighs(levels, answers[i].value);
          InOrderWeighs(levels, answers[i].value + 1);
        } else {
          InOrderWeighs(levels, 0);
        }
      }
    }
  }
}
