/** Any number of KLL sketches together, some of them copies of others: a copy shares the coins its
    original has flipped, so merging the two adds errors that are not independent. The list of all
    that the sketches can come to, one for each way all coins can fall, is right on average still. */
module KllClones {
  import opened Naturals
  import opened Averages
  import opened SharedErrors
  import opened Sorting
  import opened KllCore
  import opened KllShape
  import opened KllHistory
  import opened KllChance
  import opened KllError
  import opened KllAccuracy
  import opened KllHeight
  import KllIngest

  /** What is done, to the sketches there are by number: one is begun, fed an item, merged with a
      copy of another, or copied. */
  datatype Op =
    | Begin(coins: nat -> bool)
    | Insert(i: nat, x: int)
    | Merge(i: nat, j: nat)
    | Copy(i: nat, coins: nat -> bool)

  predicate Fits(n: nat, op: Op) {
    match op
    case Begin(_) => true
    case Insert(i, _) => i < n
    case Merge(i, j) => i < n && j < n
    case Copy(i, _) => i < n
  }

  function After(hs: seq<History>, op: Op): seq<History>
    requires Fits(|hs|, op)
  {
    match op
    case Begin(coins) => hs + [New(coins)]
    case Insert(i, x) => hs[i := Fed(hs[i], [x])]
    case Merge(i, j) => hs[i := Merged(hs[i], hs[j])]
    case Copy(i, coins) => hs + [Reseeded(hs[i], coins)]
  }

  function Size(ops: seq<Op>): nat {
    if |ops| == 0 then 0
    else Size(ops[..|ops| - 1]) + if ops[|ops| - 1].Begin? || ops[|ops| - 1].Copy? then 1 else 0
  }

  /** Every operation is about sketches there are. */
  predicate Runs(ops: seq<Op>) {
    |ops| == 0 || (Runs(ops[..|ops| - 1]) && Fits(Size(ops[..|ops| - 1]), ops[|ops| - 1]))
  }

  function Histories(ops: seq<Op>): (hs: seq<History>)
    requires Runs(ops)
    ensures |hs| == Size(ops)
  {
    if |ops| == 0 then [] else After(Histories(ops[..|ops| - 1]), ops[|ops| - 1])
  }

  // ---------------------------------------------------------------------------
  // All that the sketches can come to
  // ---------------------------------------------------------------------------

  type Pool = seq<Levels>

  function Placed(pool: Pool, i: nat, list: seq<Levels>): (r: seq<Pool>)
    requires i < |pool|
    ensures |r| == |list| && forall m | 0 <= m < |r| :: r[m] == pool[i := list[m]]
  {
    seq(|list|, m requires 0 <= m < |list| => pool[i := list[m]])
  }

  /** The stack that an operation leaves to be settled. */
  function Base(pool: Pool, op: Op): Levels
    requires Fits(|pool|, op) && (op.Insert? || op.Merge?)
  {
    if op.Insert? then Poured(pool[op.i], op.x) else KllIngest.Join(pool[op.i], pool[op.j])
  }

  function Fresh(pool: Pool, op: Op): Levels
    requires Fits(|pool|, op) && (op.Begin? || op.Copy?)
  {
    if op.Begin? then [[]] else pool[op.i]
  }

  function Moves(k: nat, pool: Pool, op: Op): (r: seq<Pool>)
    requires Fits(|pool|, op)
  {
    if op.Begin? || op.Copy? then [pool + [Fresh(pool, op)]] else Placed(pool, op.i, Settles(k, Base(pool, op)))
  }

  ghost predicate AllOf(list: seq<Pool>, n: nat) {
    forall m | 0 <= m < |list| :: |list[m]| == n
  }

  function MovesAll(k: nat, list: seq<Pool>, n: nat, op: Op): (r: seq<Pool>)
    requires AllOf(list, n) && Fits(n, op)
    ensures AllOf(r, if op.Begin? || op.Copy? then n + 1 else n)
  {
    if list == [] then [] else Moves(k, list[0], op) + MovesAll(k, list[1..], n, op)
  }

  function Worlds(k: nat, ops: seq<Op>): (r: seq<Pool>)
    requires Runs(ops)
    ensures AllOf(r, Size(ops))
  {
    if |ops| == 0 then [[]]
    else MovesAll(k, Worlds(k, ops[..|ops| - 1]), Size(ops[..|ops| - 1]), ops[|ops| - 1])
  }

  // ---------------------------------------------------------------------------
  // What the sketches are is one of them
  // ---------------------------------------------------------------------------

  ghost function PoolOf(k: nat, hs: seq<History>): (r: Pool)
    ensures |r| == |hs| && forall q | 0 <= q < |r| :: r[q] == Build(k, hs[q]).core.levels
  {
    seq(|hs|, q requires 0 <= q < |hs| => Build(k, hs[q]).core.levels)
  }

  lemma {:induction false} MovesAllHas(k: nat, list: seq<Pool>, n: nat, op: Op, pool: Pool, r: Pool)
    requires AllOf(list, n) && Fits(n, op) && |pool| == n && pool in list && r in Moves(k, pool, op)
    ensures r in MovesAll(k, list, n, op)
  {
    if pool != list[0] { MovesAllHas(k, list[1..], n, op, pool, r); }
  }

  lemma SettledIsOne(k: nat, hs: seq<History>, op: Op)
    requires Fits(|hs|, op) && (op.Insert? || op.Merge?)
    ensures Build(k, After(hs, op)[op.i]).core.levels in Settles(k, Base(PoolOf(k, hs), op))
  {
    var c, coins := Build(k, hs[op.i]).core, CoinsOf(hs[op.i]);
    if op.Insert? {
      PourSorted(c, [op.x]);
      assert InsertEach(k, coins, c, [op.x][..0]) == c;
      assert InsertEach(k, coins, c, [op.x]) == InsertOne(k, coins, c, op.x);
      SettleIsOne(k, coins, Pour(c, [op.x]));
    } else {
      var d := Build(k, hs[op.j]).core;
      KllIngest.JoinedReady(c, d);
      SettleIsOne(k, coins, KllIngest.Joined(c, d));
    }
  }

  lemma PoolGrows(k: nat, hs: seq<History>, op: Op)
    requires Fits(|hs|, op) && (op.Begin? || op.Copy?)
    ensures PoolOf(k, After(hs, op)) == PoolOf(k, hs) + [Fresh(PoolOf(k, hs), op)]
  {
  }

  lemma PoolChanges(k: nat, hs: seq<History>, op: Op, levels: Levels)
    requires Fits(|hs|, op) && (op.Insert? || op.Merge?) && levels == Build(k, After(hs, op)[op.i]).core.levels
    ensures PoolOf(k, After(hs, op)) == PoolOf(k, hs)[op.i := levels]
  {
  }

  lemma PlacedHas(pool: Pool, i: nat, list: seq<Levels>, levels: Levels)
    requires i < |pool| && levels in list
    ensures pool[i := levels] in Placed(pool, i, list)
  {
    var m :| 0 <= m < |list| && list[m] == levels;
    assert Placed(pool, i, list)[m] == pool[i := levels];
  }

  lemma PoolMoves(k: nat, hs: seq<History>, op: Op)
    requires Fits(|hs|, op)
    ensures PoolOf(k, After(hs, op)) in Moves(k, PoolOf(k, hs), op)
  {
    var pool := PoolOf(k, hs);
    if op.Begin? || op.Copy? {
      PoolGrows(k, hs, op);
    } else {
      var levels := Build(k, After(hs, op)[op.i]).core.levels;
      SettledIsOne(k, hs, op);
      PoolChanges(k, hs, op, levels);
      PlacedHas(pool, op.i, Settles(k, Base(pool, op)), levels);
    }
  }

  lemma {:induction false} PoolIsOne(k: nat, ops: seq<Op>)
    requires Runs(ops)
    ensures PoolOf(k, Histories(ops)) in Worlds(k, ops)
  {
    if |ops| == 0 {
      assert PoolOf(k, Histories(ops)) == [];
    } else {
      var init, op := ops[..|ops| - 1], ops[|ops| - 1];
      PoolIsOne(k, init);
      PoolMoves(k, Histories(init), op);
      MovesAllHas(k, Worlds(k, init), Size(init), op, PoolOf(k, Histories(init)), PoolOf(k, Histories(ops)));
    }
  }

  // ---------------------------------------------------------------------------
  // One sketch through all of them
  // ---------------------------------------------------------------------------

  function Slot(list: seq<Pool>, n: nat, q: nat): (r: seq<Levels>)
    requires AllOf(list, n) && q < n
    ensures |r| == |list| && forall m | 0 <= m < |r| :: r[m] == list[m][q]
  {
    seq(|list|, m requires 0 <= m < |list| => list[m][q])
  }

  function Bases(list: seq<Pool>, n: nat, op: Op): (r: seq<Levels>)
    requires AllOf(list, n) && Fits(n, op) && (op.Insert? || op.Merge?)
    ensures |r| == |list| && forall m | 0 <= m < |r| :: r[m] == Base(list[m], op)
  {
    seq(|list|, m requires 0 <= m < |list| => Base(list[m], op))
  }

  lemma SlotFirst(a: seq<Pool>, b: seq<Pool>, n: nat, q: nat)
    requires AllOf(a, n) && AllOf(b, n) && q < n
    ensures AllOf(a + b, n) && Slot(a + b, n, q) == Slot(a, n, q) + Slot(b, n, q)
  {
  }

  /** The sketch an operation changes is settled in each. */
  lemma {:induction false} ChangedSlot(k: nat, list: seq<Pool>, n: nat, op: Op)
    requires AllOf(list, n) && Fits(n, op) && (op.Insert? || op.Merge?)
    ensures Slot(MovesAll(k, list, n, op), n, op.i) == SettlesAll(k, Bases(list, n, op))
  {
    if list != [] {
      var first := Moves(k, list[0], op);
      ChangedSlot(k, list[1..], n, op);
      assert Bases(list, n, op)[1..] == Bases(list[1..], n, op);
      assert AllOf(first, n) && Slot(first, n, op.i) == Settles(k, Base(list[0], op));
      SlotFirst(first, MovesAll(k, list[1..], n, op), n, op.i);
    }
  }

  function Copies(n: nat, r: int): (s: seq<int>)
    ensures |s| == n && forall i | 0 <= i < n :: s[i] == r
  {
    seq(n, _ => r)
  }

  function CopiesEach(n: nat, ns: seq<int>): (r: seq<seq<int>>)
    ensures |r| == |ns| && forall i | 0 <= i < |r| :: r[i] == Copies(n, ns[i])
  {
    seq(|ns|, i requires 0 <= i < |ns| => Copies(n, ns[i]))
  }

  lemma OtherFirst(k: nat, pool: Pool, op: Op, q: nat, x: int, falls: nat)
    requires Fits(|pool|, op) && (op.Insert? || op.Merge?) && q < |pool| && q != op.i && |Settles(k, Base(pool, op))| == falls
    ensures AllOf(Moves(k, pool, op), |pool|)
    ensures Ranks(Slot(Moves(k, pool, op), |pool|, q), x) == Copies(falls, Rank(pool[q], x))
  {
  }

  lemma CopiesFirst(n: nat, ns: seq<int>)
    requires ns != []
    ensures Flat(CopiesEach(n, ns)) == Copies(n, ns[0]) + Flat(CopiesEach(n, ns[1..]))
  {
    assert CopiesEach(n, ns)[1..] == CopiesEach(n, ns[1..]);
  }

  lemma EachRest(k: nat, list: seq<Pool>, n: nat, op: Op, falls: nat)
    requires list != [] && AllOf(list, n) && Fits(n, op) && (op.Insert? || op.Merge?) && EachInto(k, Bases(list, n, op), falls)
    ensures |Settles(k, Base(list[0], op))| == falls && EachInto(k, Bases(list[1..], n, op), falls)
  {
    assert Bases(list, n, op)[0] == Base(list[0], op) && Bases(list, n, op)[1..] == Bases(list[1..], n, op);
  }

  lemma OtherJoin(first: seq<Pool>, rest: seq<Pool>, n: nat, q: nat, x: int, falls: nat, ns: seq<int>)
    requires AllOf(first, n) && AllOf(rest, n) && q < n && ns != []
    requires Ranks(Slot(first, n, q), x) == Copies(falls, ns[0])
    requires Ranks(Slot(rest, n, q), x) == Flat(CopiesEach(falls, ns[1..]))
    ensures AllOf(first + rest, n) && Ranks(Slot(first + rest, n, q), x) == Flat(CopiesEach(falls, ns))
  {
    CopiesFirst(falls, ns);
    SlotFirst(first, rest, n, q);
    RanksConcat(Slot(first, n, q), Slot(rest, n, q), x);
  }

  lemma RanksRest(list: seq<Pool>, n: nat, q: nat, x: int)
    requires list != [] && AllOf(list, n) && q < n
    ensures var ns := Ranks(Slot(list, n, q), x); ns[0] == Rank(list[0][q], x) && ns[1..] == Ranks(Slot(list[1..], n, q), x)
  {
  }

  /** The others are as they were, as often as the one can fall. */
  lemma {:induction false} OtherSlot(k: nat, list: seq<Pool>, n: nat, op: Op, q: nat, x: int, falls: nat)
    requires AllOf(list, n) && Fits(n, op) && (op.Insert? || op.Merge?) && q < n && q != op.i
    requires EachInto(k, Bases(list, n, op), falls)
    ensures Ranks(Slot(MovesAll(k, list, n, op), n, q), x) == Flat(CopiesEach(falls, Ranks(Slot(list, n, q), x)))
  {
    if list != [] {
      EachRest(k, list, n, op, falls);
      OtherFirst(k, list[0], op, q, x, falls);
      OtherSlot(k, list[1..], n, op, q, x, falls);
      RanksRest(list, n, q, x);
      OtherJoin(Moves(k, list[0], op), MovesAll(k, list[1..], n, op), n, q, x, falls, Ranks(Slot(list, n, q), x));
    }
  }

  lemma {:induction false} GrownAll(k: nat, list: seq<Pool>, n: nat, op: Op)
    requires AllOf(list, n) && Fits(n, op) && (op.Begin? || op.Copy?)
    ensures var r := MovesAll(k, list, n, op);
      |r| == |list| && forall m | 0 <= m < |r| :: r[m] == list[m] + [Fresh(list[m], op)]
  {
    if list != [] { GrownAll(k, list[1..], n, op); }
  }

  // ---------------------------------------------------------------------------
  // What every operation keeps
  // ---------------------------------------------------------------------------

  /** Fifteen times the number of items times their height. */
  function Worth(lens: seq<nat>): int {
    Many(15 * MassOf(lens), Height(lens))
  }

  /** The stacks are of one shape; their ranks are right on average, and their mean square error is
      at most the worth of that shape over `Unit(k)`. */
  ghost predicate Kept(k: nat, slot: seq<Levels>, lens: seq<nat>, c: int, x: int) {
    Alike(slot, lens) && Near(Ranks(slot, x), c, Unit(k), Worth(lens))
  }

  lemma WorthGrows(n: nat, before: nat, gain: int, height: nat, num: int, grown: int, change: int)
    requires height == before + gain && num == Many(15 * n, before) && grown == Many(15 * n, height)
    requires change <= Many(15 * n, gain)
    ensures change + num <= grown
  {
    ManySum(15 * n, before, gain, height);
  }

  lemma SettleWorth(k: nat, s: Shape, more: int)
    requires KllShape.Sound(k, s) && more == KllError.Added(k, s)
    ensures Many(Unit(k), more) + Worth(s.lens) <= Worth(SettleShape(k, s).lens)
  {
    var n, r := MassOf(s.lens), SettleShape(k, s).lens;
    var gain := Height(r) - Height(s.lens);
    SettleMass(k, s);
    SettleCovers(k, s, Unit(k), n, more, gain);
    WorthGrows(n, Height(s.lens), gain, Height(r), Worth(s.lens), Worth(r), Many(Unit(k), more));
  }

  lemma SettleKept(k: nat, list: seq<Levels>, s: Shape, c: int, x: int)
    requires list != [] && KllShape.Sound(k, s) && Kept(k, list, s.lens, c, x)
    ensures SettlesAll(k, list) != [] && Kept(k, SettlesAll(k, list), SettleShape(k, s).lens, c, x)
  {
    var more := KllError.Added(k, s);
    var n := CountAll(k, list, s.lens);
    SettlesScatter(k, list, s, x, c, n, more, more);
    SettleWorth(k, s, more);
    NearFlat(RanksEach(k, list, x), Ranks(list, x), c, n, more, Unit(k), Worth(s.lens), Worth(SettleShape(k, s).lens));
    RanksFlat(k, list, x);
    SettlesAllAlike(k, list, s);
  }

  lemma PourWorth(s: Shape)
    requires s.lens != []
    ensures Worth(s.lens) <= Worth(PourShape(s, 1).lens)
  {
    PourHeight(s, 1);
    NumGrows(MassOf(s.lens), MassOf(s.lens) + 1, Height(s.lens), Height(s.lens));
  }

  lemma PouredKept(k: nat, list: seq<Levels>, s: Shape, y: int, c: int, e: int, x: int)
    requires s.lens != [] && Kept(k, list, s.lens, c, x) && e == c + Below([y], x)
    ensures Kept(k, PouredAll(list, y), PourShape(s, 1).lens, e, x)
  {
    assert forall m | 0 <= m < |list| :: |list[m]| == |Lens(list[m])|;
    PouredAllAlike(list, y, s);
    PouredRanks(list, y, x);
    NearShifted(Ranks(list, x), Below([y], x), c, e, Unit(k), Worth(s.lens));
    PourWorth(s);
    NearMore(Ranks(PouredAll(list, y), x), e, Unit(k), Worth(s.lens), Worth(PourShape(s, 1).lens));
  }

  function JoinedEach(a: seq<Levels>, b: seq<Levels>): (r: seq<Levels>)
    requires |a| == |b|
    ensures |r| == |a| && forall m | 0 <= m < |r| :: r[m] == KllIngest.Join(a[m], b[m])
  {
    seq(|a|, m requires 0 <= m < |a| => KllIngest.Join(a[m], b[m]))
  }

  lemma JoinedEachRanks(a: seq<Levels>, b: seq<Levels>, x: int)
    requires |a| == |b|
    ensures Ranks(JoinedEach(a, b), x) == Summed(Ranks(a, x), Ranks(b, x))
  {
    forall m | 0 <= m < |a| ensures Ranks(JoinedEach(a, b), x)[m] == Summed(Ranks(a, x), Ranks(b, x))[m] {
      KllIngest.JoinRank(a[m], b[m], x);
    }
  }

  lemma JoinedEachAlike(a: seq<Levels>, b: seq<Levels>, m: seq<nat>, n: seq<nat>)
    requires |a| == |b| && Alike(a, m) && Alike(b, n) && m != []
    ensures Alike(JoinedEach(a, b), KllShape.Sum(m, n))
  {
    forall i | 0 <= i < |a| ensures Alike([JoinedEach(a, b)[i]], KllShape.Sum(m, n)) {
      JoinedWithAlike(a[i], [b[i]], m, n);
      assert JoinedWith(a[i], [b[i]]) == [JoinedEach(a, b)[i]];
    }
    forall i | 0 <= i < |a| ensures Lens(JoinedEach(a, b)[i]) == KllShape.Sum(m, n) && AllSorted(JoinedEach(a, b)[i]) {
      assert [JoinedEach(a, b)[i]][0] == JoinedEach(a, b)[i];
    }
  }

  lemma JoinedNear(k: nat, a: seq<int>, b: seq<int>, s: seq<nat>, t: seq<nat>, j: seq<nat>, c: int, d: int, e: int)
    requires |a| == |b| && e == c + d && j == KllShape.Sum(s, t)
    requires Near(a, c, Unit(k), Worth(s)) && Near(b, d, Unit(k), Worth(t))
    ensures Near(Summed(a, b), e, Unit(k), Worth(j))
  {
    SumMass(s, t);
    SumHeight(s, t);
    NearSummed(a, b, c, d, e, Unit(k), MassOf(s), MassOf(t), MassOf(j), Height(s), Height(t), Height(j), Worth(s), Worth(t), Worth(j));
  }

  /** Whatever coins the two share. */
  lemma JoinedKept(k: nat, a: seq<Levels>, b: seq<Levels>, s: seq<nat>, t: seq<nat>, j: seq<nat>, c: int, d: int, e: int, x: int)
    requires |a| == |b| && s != [] && e == c + d && j == KllShape.Sum(s, t) && Kept(k, a, s, c, x) && Kept(k, b, t, d, x)
    ensures Kept(k, JoinedEach(a, b), j, e, x)
  {
    JoinedEachAlike(a, b, s, t);
    JoinedEachRanks(a, b, x);
    JoinedNear(k, Ranks(a, x), Ranks(b, x), s, t, j, c, d, e);
  }

  lemma {:induction false} CopiesAre(n: nat, s: seq<int>, r: int, c: int)
    requires |s| == n && forall i | 0 <= i < n :: s[i] == r
    ensures MeanIs(s, r, c) && Within(s, r, c, 0, 0)
  {
    if 0 < n { CopiesAre(n - 1, s[1..], r, c); }
  }

  lemma CopiesNear(n: nat, ns: seq<int>, c: int, m: nat, num: int)
    requires Near(ns, c, m, num)
    ensures Near(Flat(CopiesEach(n, ns)), c, m, num)
  {
    var lists := CopiesEach(n, ns);
    forall i | 0 <= i < |ns| ensures MeanIs(lists[i], ns[i], c) && Within(lists[i], ns[i], c, 0, 0) {
      CopiesAre(n, lists[i], ns[i], c);
    }
    ManyOrder(m, 0, 0);
    NearFlat(lists, ns, c, n, 0, m, num, num);
  }

  // ---------------------------------------------------------------------------
  // Every sketch, whatever was done
  // ---------------------------------------------------------------------------

  ghost predicate KeptOf(k: nat, slot: seq<Levels>, h: History, x: int) {
    Kept(k, slot, ShapeOf(k, h).lens, Below(Stream(h), x), x)
  }

  ghost predicate AllKept(k: nat, list: seq<Pool>, hs: seq<History>, x: int) {
    list != [] && AllOf(list, |hs|) && forall q | 0 <= q < |hs| :: KeptOf(k, Slot(list, |hs|, q), hs[q], x)
  }

  /** The shape a history gives, the number of its items below a probe. */
  ghost predicate Reads(k: nat, h: History, s: Shape, c: int, x: int) {
    s == ShapeOf(k, h) && c == Below(Stream(h), x)
  }

  lemma FedReads(k: nat, h: History, y: int, s: Shape, r: Shape, c: int, e: int, x: int)
    requires Reads(k, h, s, c, x) && r == FeedOne(k, s) && e == c + Below([y], x)
    ensures Reads(k, Fed(h, [y]), r, e, x)
  {
    assert FeedShape(k, s, 1) == FeedOne(k, FeedShape(k, s, 0));
    BelowConcat(Stream(h), [y], x);
  }

  lemma MergedReads(k: nat, h: History, g: History, s: Shape, t: Shape, r: Shape, c: int, d: int, e: int, x: int)
    requires Reads(k, h, s, c, x) && Reads(k, g, t, d, x) && r == SettleShape(k, JoinShape(s, t)) && e == c + d
    ensures Reads(k, Merged(h, g), r, e, x)
  {
    BelowConcat(Stream(h), Stream(g), x);
  }

  lemma PouredSettles(k: nat, list: seq<Levels>, s: Shape, y: int, c: int, e: int, x: int)
    requires list != [] && KllShape.Sound(k, s) && Kept(k, list, s.lens, c, x) && e == c + Below([y], x)
    ensures SettlesAll(k, PouredAll(list, y)) != [] && Kept(k, SettlesAll(k, PouredAll(list, y)), FeedOne(k, s).lens, e, x)
    ensures Alike(PouredAll(list, y), PourShape(s, 1).lens)
  {
    PourSound(k, s, 1);
    PouredKept(k, list, s, y, c, e, x);
    SettleKept(k, PouredAll(list, y), PourShape(s, 1), e, x);
  }

  lemma InsertedKept(k: nat, list: seq<Levels>, h: History, y: int, s: Shape, r: Shape, c: int, e: int, x: int)
    requires list != [] && Reads(k, h, s, c, x) && Kept(k, list, s.lens, c, x) && r == FeedOne(k, s) && e == c + Below([y], x)
    ensures SettlesAll(k, PouredAll(list, y)) != [] && Kept(k, SettlesAll(k, PouredAll(list, y)), r.lens, e, x)
    ensures Reads(k, Fed(h, [y]), r, e, x) && Alike(PouredAll(list, y), PourShape(s, 1).lens)
  {
    HistorySound(k, h);
    PouredSettles(k, list, s, y, c, e, x);
    FedReads(k, h, y, s, r, c, e, x);
  }

  lemma JoinedSettles(k: nat, a: seq<Levels>, b: seq<Levels>, s: seq<nat>, t: seq<nat>, j: Shape, c: int, d: int, e: int, x: int)
    requires 0 < |a| == |b| && e == c + d && s != [] && j.lens == KllShape.Sum(s, t) && KllShape.Sound(k, j)
    requires Kept(k, a, s, c, x) && Kept(k, b, t, d, x)
    ensures SettlesAll(k, JoinedEach(a, b)) != [] && Kept(k, SettlesAll(k, JoinedEach(a, b)), SettleShape(k, j).lens, e, x)
    ensures Alike(JoinedEach(a, b), j.lens)
  {
    JoinedKept(k, a, b, s, t, j.lens, c, d, e, x);
    SettleKept(k, JoinedEach(a, b), j, e, x);
  }

  lemma HistoriesJoin(k: nat, h: History, g: History)
    ensures KllShape.Sound(k, JoinShape(ShapeOf(k, h), ShapeOf(k, g)))
  {
    HistorySound(k, h);
    HistorySound(k, g);
    JoinSound(k, ShapeOf(k, h), ShapeOf(k, g));
  }

  lemma MergedKept(k: nat, a: seq<Levels>, b: seq<Levels>, h: History, g: History, s: Shape, t: Shape, r: Shape, c: int, d: int, e: int, x: int)
    requires 0 < |a| == |b| && Reads(k, h, s, c, x) && Reads(k, g, t, d, x) && Kept(k, a, s.lens, c, x) && Kept(k, b, t.lens, d, x)
    requires r == SettleShape(k, JoinShape(s, t)) && e == c + d
    ensures SettlesAll(k, JoinedEach(a, b)) != [] && Kept(k, SettlesAll(k, JoinedEach(a, b)), r.lens, e, x)
    ensures Reads(k, Merged(h, g), r, e, x) && Alike(JoinedEach(a, b), JoinShape(s, t).lens)
  {
    HistoriesJoin(k, h, g);
    JoinedSettles(k, a, b, s.lens, t.lens, JoinShape(s, t), c, d, e, x);
    MergedReads(k, h, g, s, t, r, c, d, e, x);
  }

  /** The sketch that was fed or merged. */
  lemma ChangedKept(k: nat, list: seq<Pool>, hs: seq<History>, op: Op, x: int) returns (lens: seq<nat>)
    requires AllKept(k, list, hs, x) && Fits(|hs|, op) && (op.Insert? || op.Merge?)
    ensures Alike(Bases(list, |hs|, op), lens) && MovesAll(k, list, |hs|, op) != []
    ensures KeptOf(k, Slot(MovesAll(k, list, |hs|, op), |hs|, op.i), After(hs, op)[op.i], x)
  {
    var n := |hs|;
    var a, h := Slot(list, n, op.i), hs[op.i];
    var s, c := ShapeOf(k, h), Below(Stream(h), x);
    ChangedSlot(k, list, n, op);
    assert KeptOf(k, a, h, x);
    if op.Insert? {
      assert Bases(list, n, op) == PouredAll(a, op.x);
      InsertedKept(k, a, h, op.x, s, FeedOne(k, s), c, c + Below([op.x], x), x);
      lens := PourShape(s, 1).lens;
    } else {
      var b, g := Slot(list, n, op.j), hs[op.j];
      var t, d := ShapeOf(k, g), Below(Stream(g), x);
      assert KeptOf(k, b, g, x);
      assert Bases(list, n, op) == JoinedEach(a, b);
      MergedKept(k, a, b, h, g, s, t, SettleShape(k, JoinShape(s, t)), c, d, c + d, x);
      lens := JoinShape(s, t).lens;
    }
  }

  lemma {:induction false} OtherAlike(k: nat, list: seq<Pool>, n: nat, op: Op, q: nat, lens: seq<nat>)
    requires AllOf(list, n) && Fits(n, op) && (op.Insert? || op.Merge?) && q < n && q != op.i && Alike(Slot(list, n, q), lens)
    ensures Alike(Slot(MovesAll(k, list, n, op), n, q), lens)
  {
    if list != [] {
      assert Slot(list[1..], n, q) == Slot(list, n, q)[1..];
      OtherAlike(k, list[1..], n, op, q, lens);
      var first := Moves(k, list[0], op);
      assert AllOf(first, n);
      assert forall m | 0 <= m < |first| :: Slot(first, n, q)[m] == Slot(list, n, q)[0];
      SlotFirst(first, MovesAll(k, list[1..], n, op), n, q);
    }
  }

  lemma OtherKept(k: nat, list: seq<Pool>, n: nat, op: Op, q: nat, lens: seq<nat>, c: int, x: int, bases: seq<nat>)
    requires list != [] && AllOf(list, n) && Fits(n, op) && (op.Insert? || op.Merge?) && q < n && q != op.i
    requires Alike(Bases(list, n, op), bases) && Kept(k, Slot(list, n, q), lens, c, x)
    ensures Kept(k, Slot(MovesAll(k, list, n, op), n, q), lens, c, x)
  {
    var falls := CountAll(k, Bases(list, n, op), bases);
    OtherSlot(k, list, n, op, q, x, falls);
    CopiesNear(falls, Ranks(Slot(list, n, q), x), c, Unit(k), Worth(lens));
    OtherAlike(k, list, n, op, q, lens);
  }

  lemma ChangingKeeps(k: nat, list: seq<Pool>, hs: seq<History>, op: Op, x: int)
    requires AllKept(k, list, hs, x) && Fits(|hs|, op) && (op.Insert? || op.Merge?)
    ensures AllKept(k, MovesAll(k, list, |hs|, op), After(hs, op), x)
  {
    var n := |hs|;
    var bases := ChangedKept(k, list, hs, op, x);
    forall q | 0 <= q < n ensures KeptOf(k, Slot(MovesAll(k, list, n, op), n, q), After(hs, op)[q], x) {
      if q != op.i {
        assert KeptOf(k, Slot(list, n, q), hs[q], x);
        OtherKept(k, list, n, op, q, ShapeOf(k, hs[q]).lens, Below(Stream(hs[q]), x), x, bases);
      }
    }
  }

  lemma BegunKept(k: nat, slot: seq<Levels>, coins: nat -> bool, x: int)
    requires forall m | 0 <= m < |slot| :: slot[m] == [[]]
    ensures KeptOf(k, slot, New(coins), x)
  {
    var empty: Levels := [[]];
    assert empty[1..] == [] && Rank(empty, x) == 0;
    assert Lens(empty) == [0] by { assert |Lens(empty)| == 1 && Lens(empty)[0] == |empty[0]|; }
    assert [0][1..] == [] && Worth([0]) == 0;
    NearExact(Ranks(slot, x), 0, Unit(k), 0);
  }

  lemma GrownSlot(k: nat, list: seq<Pool>, n: nat, op: Op, q: nat)
    requires AllOf(list, n) && Fits(n, op) && (op.Begin? || op.Copy?) && q <= n
    ensures var slot := Slot(MovesAll(k, list, n, op), n + 1, q);
      && |MovesAll(k, list, n, op)| == |list|
      && (q < n ==> slot == Slot(list, n, q))
      && (q == n && op.Copy? ==> slot == Slot(list, n, op.i))
      && (q == n && op.Begin? ==> forall m | 0 <= m < |slot| :: slot[m] == [[]])
  {
    GrownAll(k, list, n, op);
  }

  lemma CopiedKept(k: nat, slot: seq<Levels>, h: History, coins: nat -> bool, x: int)
    requires KeptOf(k, slot, h, x)
    ensures KeptOf(k, slot, Reseeded(h, coins), x)
  {
    assert ShapeOf(k, Reseeded(h, coins)) == ShapeOf(k, h) && Stream(Reseeded(h, coins)) == Stream(h);
  }

  lemma GrownKept(k: nat, list: seq<Pool>, hs: seq<History>, op: Op, q: nat, x: int)
    requires AllKept(k, list, hs, x) && Fits(|hs|, op) && (op.Begin? || op.Copy?) && q <= |hs|
    ensures KeptOf(k, Slot(MovesAll(k, list, |hs|, op), |hs| + 1, q), After(hs, op)[q], x)
  {
    var n := |hs|;
    GrownSlot(k, list, n, op, q);
    if q < n {
      assert KeptOf(k, Slot(list, n, q), hs[q], x);
    } else if op.Begin? {
      BegunKept(k, Slot(MovesAll(k, list, n, op), n + 1, q), op.coins, x);
    } else {
      assert KeptOf(k, Slot(list, n, op.i), hs[op.i], x);
      CopiedKept(k, Slot(list, n, op.i), hs[op.i], op.coins, x);
    }
  }

  lemma GrowingKeeps(k: nat, list: seq<Pool>, hs: seq<History>, op: Op, x: int)
    requires AllKept(k, list, hs, x) && Fits(|hs|, op) && (op.Begin? || op.Copy?)
    ensures AllKept(k, MovesAll(k, list, |hs|, op), After(hs, op), x)
  {
    var n, r := |hs|, MovesAll(k, list, |hs|, op);
    GrownSlot(k, list, n, op, n);
    forall q | 0 <= q < n + 1 ensures KeptOf(k, Slot(r, n + 1, q), After(hs, op)[q], x) {
      GrownKept(k, list, hs, op, q, x);
    }
  }

  lemma {:induction false} WorldsKept(k: nat, ops: seq<Op>, x: int)
    requires Runs(ops)
    ensures AllKept(k, Worlds(k, ops), Histories(ops), x)
  {
    if 0 < |ops| {
      var init, op := ops[..|ops| - 1], ops[|ops| - 1];
      WorldsKept(k, init, x);
      if op.Begin? || op.Copy? {
        GrowingKeeps(k, Worlds(k, init), Histories(init), op, x);
      } else {
        ChangingKeeps(k, Worlds(k, init), Histories(init), op, x);
      }
    }
  }

  // ---------------------------------------------------------------------------
  // What that says
  // ---------------------------------------------------------------------------

  lemma HeightTimes(n: nat, d: nat, height: nat)
    requires height <= d * n
    ensures 15 * n * height <= 15 * d * (n * n)
  {
    Scale(height, d * n, 15 * n);
    assert d * n * (15 * n) == 15 * d * (n * n) && height * (15 * n) == 15 * n * height;
  }

  lemma WorthAtMost(lens: seq<nat>, n: nat, d: nat)
    requires lens != [] && n == MassOf(lens) && d == |lens| - 1
    ensures Worth(lens) <= 15 * d * (n * n)
  {
    HeightAtMost(lens);
    ManyIs(15 * n, Height(lens));
    HeightTimes(n, d, Height(lens));
  }

  lemma EightTimes(k: nat, top: nat)
    requires k <= 2 * top + 1
    ensures 8 * k * (k - 1) <= 16 * k * top
  {
    if 0 < k {
      Larger(k - 1, 2 * top, 8 * k);
      assert (k - 1) * (8 * k) == 8 * k * (k - 1) && 2 * top * (8 * k) == 16 * k * top;
    }
  }

  lemma UnitIs(k: nat)
    ensures 8 * k * (k - 1) <= Unit(k)
  {
    var top := HalfTop(k);
    TimesIsProduct(16 * k, top);
    EightTimes(k, top);
  }

  lemma UnitAtLeast(k: nat, squares: nat, m: nat)
    requires m == Unit(k)
    ensures 8 * k * (k - 1) * squares <= Many(m, squares)
  {
    UnitIs(k);
    ManyIs(m, squares);
    Scale(8 * k * (k - 1), m, squares);
  }

  /** The numbers are `c` on average; their mean square error is at most `15 d n^2 / (8 k (k - 1))`;
      and so seldom are they off by `t` or more. */
  ghost predicate Accurate(k: nat, ns: seq<int>, c: int, n: nat, d: nat) {
    && Averages.Sum(ns) == |ns| * c
    && 8 * k * (k - 1) * SquareSum(ns, c) <= 15 * d * (n * n) * |ns|
    && forall t: nat :: 8 * k * (k - 1) * (CountFar(ns, c, t) * (t * t)) <= 15 * d * (n * n) * |ns|
  }

  lemma SquaresAccurate(k: nat, ns: seq<int>, c: int, n: nat, d: nat)
    requires Averages.Sum(ns) == |ns| * c && 8 * k * (k - 1) * SquareSum(ns, c) <= 15 * d * (n * n) * |ns|
    ensures Accurate(k, ns, c, n, d)
  {
    NonNegative(k);
    forall t: nat ensures 8 * k * (k - 1) * (CountFar(ns, c, t) * (t * t)) <= 15 * d * (n * n) * |ns| {
      FewAreFar(ns, c, t, 8 * k * (k - 1), 15 * d * (n * n) * |ns|);
    }
  }

  lemma NearSquares(k: nat, squares: nat, size: nat, lens: seq<nat>, n: nat, d: nat)
    requires lens != [] && n == MassOf(lens) && d == |lens| - 1 && Many(Unit(k), squares) <= Many(size, Worth(lens))
    ensures 8 * k * (k - 1) * squares <= 15 * d * (n * n) * size
  {
    UnitAtLeast(k, squares, Unit(k));
    WorthAtMost(lens, n, d);
    ManyOrder(size, Worth(lens), 15 * d * (n * n));
    ManyIs(size, 15 * d * (n * n));
  }

  lemma NearMeans(k: nat, ns: seq<int>, c: int, lens: seq<nat>, n: nat, d: nat)
    requires lens != [] && n == MassOf(lens) && d == |lens| - 1 && Near(ns, c, Unit(k), Worth(lens))
    ensures Accurate(k, ns, c, n, d)
  {
    SumsAre(ns, c, 0);
    NearSquares(k, SquareSum(ns, c), |ns|, lens, n, d);
    SquaresAccurate(k, ns, c, n, d);
  }

  /** Whatever is done to any number of sketches, copies of each other or not, and merged in any
      way: for every one of them the rank of any probe, over all falls of all coins, is on average
      exactly the number of items below it, and its mean square error is at most
      `15 (levels - 1) n^2 / (8 k (k - 1))`. What the sketches are is one of those cases. */
  lemma ClonesAreFair(k: nat, ops: seq<Op>, q: nat, x: int)
    requires Runs(ops) && q < Size(ops)
    ensures PoolOf(k, Histories(ops)) in Worlds(k, ops)
    ensures var h, ranks := Histories(ops)[q], Ranks(Slot(Worlds(k, ops), Size(ops), q), x);
      Accurate(k, ranks, Below(Stream(h), x), |Stream(h)|, |ShapeOf(k, h).lens| - 1)
  {
    PoolIsOne(k, ops);
    WorldsKept(k, ops, x);
    var h := Histories(ops)[q];
    assert KeptOf(k, Slot(Worlds(k, ops), Size(ops), q), h, x);
    CountOf(k, h);
    NearMeans(k, Ranks(Slot(Worlds(k, ops), Size(ops), q), x), Below(Stream(h), x), ShapeOf(k, h).lens, |Stream(h)|, |ShapeOf(k, h).lens| - 1);
  }
}
