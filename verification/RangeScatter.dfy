/** From a sketch to partitions: the boundaries read off the sketch, the split of a batch along
    them, and how the sizes of the parts relate to the ranks asked for. */
module RangeScatter {
  import opened Wrappers
  import opened Sorting
  import opened KllCore
  import opened RangeCuts
  import KllQuery
  import RangeBalance

  // ---------------------------------------------------------------------------
  // Boundaries
  // ---------------------------------------------------------------------------

  predicate IsCuts(s: Sketch, l: Layout, cuts: seq<int>)
    requires l.Valid()
  {
    && |cuts| == l.parts - 1
    && forall i | 0 <= i < |cuts| :: KllQuery.Answers(s.core.levels, s.min, s.max, RankAt(l, i), Some(cuts[i]))
  }

  /** The boundaries between `parts` partitions, each a value and never a NULL. Empty when there is
      nothing to divide; an error only for a sketch that lost its maximum. */
  method Cuts(s: Sketch, nulls: nat, nullsFirst: bool, parts: nat) returns (r: Result<seq<int>, string>)
    ensures parts < 2 || Mass(s.core.levels) == 0 ==> r == Ok([])
    ensures var l := Layout(parts, Mass(s.core.levels), nulls, nullsFirst);
      l.Valid() ==> (r.Ok? && IsCuts(s, l, r.value)) || (r.Err? && s.max.None?)
  {
    if parts < 2 || Mass(s.core.levels) == 0 { return Ok([]); }
    var l := Layout(parts, Mass(s.core.levels), nulls, nullsFirst);
    var ranks: seq<nat> := [];
    for i := 0 to parts - 1
      invariant |ranks| == i && forall j | 0 <= j < i :: ranks[j] == RankAt(l, j)
    {
      ranks := ranks + [RankAt(l, i)];
    }
    var answers := KllQuery.AtRanks(s.core.levels, s.min, s.max, ranks);
    var cuts: seq<int> := [];
    for i := 0 to |answers|
      invariant |cuts| == i
      invariant forall j | 0 <= j < i :: KllQuery.Answers(s.core.levels, s.min, s.max, RankAt(l, j), Some(cuts[j]))
    {
      if answers[i].None? { return Err("no value at this rank"); }
      cuts := cuts + [answers[i].value];
    }
    return Ok(cuts);
  }

  /** Answers to ascending ranks ascend, and stay between the extremes. */
  lemma AnswersAscend(s: Sketch, stream: seq<int>, p: nat, q: nat, a: int, b: int)
    requires Summarizes(s, stream) && stream != [] && 1 <= p <= q
    requires KllQuery.Answers(s.core.levels, s.min, s.max, p, Some(a))
    requires KllQuery.Answers(s.core.levels, s.min, s.max, q, Some(b))
    ensures a <= b
  {
    var levels := s.core.levels;
    if p < Mass(levels) <= q {
      AllBelow(stream, b + 1);
      assert Estimates(Rank(levels, b + 1), Below(stream, b + 1), |stream|, s.core.spent);
    }
    if b < a { KllQuery.RankMonotone(levels, b + 1, a); }
  }

  lemma {:induction false} AllBelow(stream: seq<int>, x: int)
    requires forall y | y in stream :: y < x
    ensures Below(stream, x) == |stream|
  {
    if stream != [] {
      assert stream[0] in stream && forall y | y in stream[1..] :: y in stream;
      AllBelow(stream[1..], x);
    }
  }

  /** The boundaries never decrease, which is what splitting along them needs. */
  lemma CutsAscend(s: Sketch, stream: seq<int>, l: Layout, cuts: seq<int>)
    requires Summarizes(s, stream) && l.Valid() && l.values == |stream| && IsCuts(s, l, cuts)
    ensures Sorted(cuts)
  {
    forall i, j | 0 <= i < j < |cuts| ensures cuts[i] <= cuts[j] {
      RanksAscend(l, i, j);
      AnswersAscend(s, stream, RankAt(l, i), RankAt(l, j), cuts[i], cuts[j]);
    }
  }

  // ---------------------------------------------------------------------------
  // Splitting a batch
  // ---------------------------------------------------------------------------

  /** How many leading boundaries are at or below the key. */
  function PartitionPoint(cuts: seq<int>, key: int): (b: nat)
    ensures b <= |cuts|
  {
    if cuts == [] || key < cuts[0] then 0 else 1 + PartitionPoint(cuts[1..], key)
  }

  function BucketOf(cuts: seq<int>, nullsFirst: bool, key: Option<int>): (b: nat)
    ensures b <= |cuts|
  {
    if key.Some? then PartitionPoint(cuts, key.value) else if nullsFirst then 0 else |cuts|
  }

  /** A bucket is a half-open range. */
  lemma {:induction false} BucketIsRange(cuts: seq<int>, key: int, b: nat)
    requires Sorted(cuts) && b <= |cuts|
    ensures b == PartitionPoint(cuts, key) <==> (b == 0 || cuts[b - 1] <= key) && (b == |cuts| || key < cuts[b])
  {
    if cuts != [] && cuts[0] <= key {
      if 0 < b {
        BucketIsRange(cuts[1..], key, b - 1);
      }
    }
  }

  /** The rows below `n` that go to bucket `b`, in order. */
  function RowsIn(keys: seq<Option<int>>, cuts: seq<int>, nullsFirst: bool, b: nat, n: nat): seq<nat>
    requires n <= |keys|
  {
    if n == 0 then [] else
      RowsIn(keys, cuts, nullsFirst, b, n - 1) + (if BucketOf(cuts, nullsFirst, keys[n - 1]) == b then [n - 1] else [])
  }

  lemma {:induction false} RowsInHolds(keys: seq<Option<int>>, cuts: seq<int>, nullsFirst: bool, b: nat, n: nat)
    requires n <= |keys|
    ensures forall row: nat :: row in RowsIn(keys, cuts, nullsFirst, b, n) <==> row < n && BucketOf(cuts, nullsFirst, keys[row]) == b
    ensures forall i, j | 0 <= i < j < |RowsIn(keys, cuts, nullsFirst, b, n)| ::
      RowsIn(keys, cuts, nullsFirst, b, n)[i] < RowsIn(keys, cuts, nullsFirst, b, n)[j]
  {
    if 0 < n {
      RowsInHolds(keys, cuts, nullsFirst, b, n - 1);
      var before := RowsIn(keys, cuts, nullsFirst, b, n - 1);
      assert forall i | 0 <= i < |before| :: before[i] in before;
    }
  }

  /** Every row goes to exactly the bucket its key calls for, in the order it came. */
  method Split(keys: seq<Option<int>>, cuts: seq<int>, nullsFirst: bool) returns (buckets: seq<seq<nat>>)
    ensures |buckets| == |cuts| + 1
    ensures forall b | 0 <= b <= |cuts| :: buckets[b] == RowsIn(keys, cuts, nullsFirst, b, |keys|)
  {
    buckets := seq(|cuts| + 1, _ => []);
    for n := 0 to |keys|
      invariant |buckets| == |cuts| + 1
      invariant forall b | 0 <= b <= |cuts| :: buckets[b] == RowsIn(keys, cuts, nullsFirst, b, n)
    {
      var b := BucketOf(cuts, nullsFirst, keys[n]);
      buckets := buckets[b := buckets[b] + [n]];
    }
  }

  /** Whatever lands in a later bucket is not below anything in an earlier one. */
  lemma BucketsAreOrdered(keys: seq<Option<int>>, cuts: seq<int>, nullsFirst: bool, row: nat, other: nat)
    requires Sorted(cuts) && row < |keys| && other < |keys| && keys[row].Some? && keys[other].Some?
    requires BucketOf(cuts, nullsFirst, keys[row]) < BucketOf(cuts, nullsFirst, keys[other])
    ensures keys[row].value < keys[other].value
  {
    var b, c := BucketOf(cuts, nullsFirst, keys[row]), BucketOf(cuts, nullsFirst, keys[other]);
    BucketIsRange(cuts, keys[row].value, b);
    BucketIsRange(cuts, keys[other].value, c);
  }

  // ---------------------------------------------------------------------------
  // Sizes
  // ---------------------------------------------------------------------------

  function Values(keys: seq<Option<int>>, n: nat): seq<int>
    requires n <= |keys|
  {
    if n == 0 then [] else Values(keys, n - 1) + (if keys[n - 1].Some? then [keys[n - 1].value] else [])
  }

  function Nulls(keys: seq<Option<int>>, n: nat): nat
    requires n <= |keys|
  {
    if n == 0 then 0 else Nulls(keys, n - 1) + (if keys[n - 1].Some? then 0 else 1)
  }

  /** How many values lie below the end of bucket `b`. */
  function Through(values: seq<int>, cuts: seq<int>, b: nat): nat
    requires b <= |cuts|
  {
    if b == |cuts| then |values| else Below(values, cuts[b])
  }

  function Size(values: seq<int>, nulls: nat, cuts: seq<int>, nullsFirst: bool, b: nat): int
    requires b <= |cuts|
  {
    Through(values, cuts, b) - (if b == 0 then 0 else Through(values, cuts, b - 1))
      + (if b == (if nullsFirst then 0 else |cuts|) then nulls else 0)
  }

  lemma BelowLast(values: seq<int>, y: int, x: int)
    ensures Below(values + [y], x) == Below(values, x) + (if y < x then 1 else 0)
  {
    BelowConcat(values, [y], x);
  }

  lemma SizeNext(values: seq<int>, nulls: nat, cuts: seq<int>, nullsFirst: bool, b: nat, y: int)
    requires Sorted(cuts) && b <= |cuts|
    ensures Size(values + [y], nulls, cuts, nullsFirst, b)
      == Size(values, nulls, cuts, nullsFirst, b) + (if PartitionPoint(cuts, y) == b then 1 else 0)
  {
    BucketIsRange(cuts, y, b);
    if b < |cuts| { BelowLast(values, y, cuts[b]); }
    if 0 < b { BelowLast(values, y, cuts[b - 1]); }
  }

  /** The rows of a bucket, counted by the values between its boundaries. */
  lemma {:induction false} BucketSize(keys: seq<Option<int>>, cuts: seq<int>, nullsFirst: bool, b: nat, n: nat)
    requires Sorted(cuts) && b <= |cuts| && n <= |keys|
    ensures |RowsIn(keys, cuts, nullsFirst, b, n)| == Size(Values(keys, n), Nulls(keys, n), cuts, nullsFirst, b)
  {
    if 0 < n {
      BucketSize(keys, cuts, nullsFirst, b, n - 1);
      if keys[n - 1].Some? {
        SizeNext(Values(keys, n - 1), Nulls(keys, n - 1), cuts, nullsFirst, b, keys[n - 1].value);
      } else {
        assert Values(keys, n) == Values(keys, n - 1);
      }
    } else {
      if 0 < b { assert Below([], cuts[b - 1]) == 0; }
    }
  }

  function Occurs(values: seq<int>, y: int): nat {
    if values == [] then 0 else (if values[0] == y then 1 else 0) + Occurs(values[1..], y)
  }

  /** Between a value and the next lie its own occurrences. */
  lemma {:induction false} BelowNextValue(values: seq<int>, y: int)
    ensures Below(values, y + 1) == Below(values, y) + Occurs(values, y)
  {
    if values != [] { BelowNextValue(values[1..], y); }
  }

  predicate Distinct(values: seq<int>) {
    forall i, j | 0 <= i < j < |values| :: values[i] != values[j]
  }

  lemma {:induction false} OccursOnce(values: seq<int>, y: int)
    requires Distinct(values)
    ensures Occurs(values, y) <= if y in values then 1 else 0
  {
    if values != [] {
      OccursOnce(values[1..], y);
      assert values[0] !in values[1..];
    }
  }

  /** How many values lie below the answer to a rank: one less than the rank, give or take the
      sketch's error, and less by as often as the answer itself is repeated. */
  lemma AnswerSplits(s: Sketch, values: seq<int>, r: nat, y: int)
    requires Summarizes(s, values) && 1 <= r <= |values|
    requires KllQuery.Answers(s.core.levels, s.min, s.max, r, Some(y))
    ensures Below(values, y) <= r - 1 + s.core.spent
    ensures r <= Below(values, y) + Occurs(values, y) + s.core.spent
  {
    KllQuery.AnswerIsNear(s, values, r, Some(y));
    BelowNextValue(values, y);
    if r == |values| {
      AllBelow(values, y + 1);
      NotAllBelow(values, y);
    }
  }

  lemma {:induction false} NotAllBelow(values: seq<int>, y: int)
    requires y in values
    ensures Below(values, y) < |values|
  {
    if values[0] != y { NotAllBelow(values[1..], y); }
  }

  /** How often the key of the boundary at the end of bucket `b` is repeated, beyond its first. */
  function Repeats(values: seq<int>, cuts: seq<int>, b: nat): int {
    if b < |cuts| then Occurs(values, cuts[b]) - 1 else 0
  }

  /** A batch split along the boundaries its own sketch gives: every bucket has the rows the ranks
      set out, give or take twice the sketch's error; it may have more by the repetitions of the
      key it begins with, and less by those of the key it ends before. */
  lemma ScatterFollowsRanks(s: Sketch, keys: seq<Option<int>>, l: Layout, cuts: seq<int>, b: nat)
    requires var values := Values(keys, |keys|);
      Summarizes(s, values) && l.values == |values| && l.nulls == Nulls(keys, |keys|)
    requires l.Valid() && IsCuts(s, l, cuts) && b < l.parts
    ensures Sorted(cuts)
    ensures var values, rows := Values(keys, |keys|), |RowsIn(keys, cuts, l.nullsFirst, b, |keys|)|;
      && rows <= RangeBalance.Rows(l, b) + 2 * s.core.spent + (if b == 0 then 0 else Repeats(values, cuts, b - 1))
      && RangeBalance.Rows(l, b) <= rows + 2 * s.core.spent + Repeats(values, cuts, b)
  {
    var values := Values(keys, |keys|);
    CutsAscend(s, values, l, cuts);
    BucketSize(keys, cuts, l.nullsFirst, b, |keys|);
    if b < |cuts| { AnswerSplits(s, values, RankAt(l, b), cuts[b]); }
    if 0 < b { AnswerSplits(s, values, RankAt(l, b - 1), cuts[b - 1]); }
  }

  /** Over distinct keys nothing but the error is left, and before any compaction nothing at all. */
  lemma DistinctScatterFollowsRanks(s: Sketch, keys: seq<Option<int>>, l: Layout, cuts: seq<int>, b: nat)
    requires var values := Values(keys, |keys|);
      Summarizes(s, values) && Distinct(values) && l.values == |values| && l.nulls == Nulls(keys, |keys|)
    requires l.Valid() && IsCuts(s, l, cuts) && b < l.parts
    ensures Close(|RowsIn(keys, cuts, l.nullsFirst, b, |keys|)|, RangeBalance.Rows(l, b), 2 * s.core.spent)
  {
    ScatterFollowsRanks(s, keys, l, cuts, b);
    if b < |cuts| { OccursOnce(Values(keys, |keys|), cuts[b]); }
    if 0 < b { OccursOnce(Values(keys, |keys|), cuts[b - 1]); }
  }
}
