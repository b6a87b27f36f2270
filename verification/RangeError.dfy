/** The sizes of range partitions for every sketch the program can come to hold: how far each is
    from the even share, in the number of rows, `k`, and the number of partitions. */
module RangeError {
  import opened Wrappers
  import opened Sorting
  import opened KllCore
  import opened KllShape
  import opened KllHistory
  import opened RangeCuts
  import opened RangeScatter
  import RangeBalance

  // ---------------------------------------------------------------------------
  // A sketch does not know the order of its stream
  // ---------------------------------------------------------------------------

  lemma SameSummary(s: Sketch, a: seq<int>, b: seq<int>)
    requires Summarizes(s, a) && multiset(a) == multiset(b)
    ensures Summarizes(s, b)
  {
    SameBelow(a, b, 0);
    forall x ensures Estimates(Rank(s.core.levels, x), Below(b, x), |b|, s.core.spent) {
      SameBelow(a, b, x);
      assert Estimates(Rank(s.core.levels, x), Below(a, x), |a|, s.core.spent);
    }
    forall y ensures y in a <==> y in b { assert y in multiset(a) <==> y in multiset(b); }
  }

  // ---------------------------------------------------------------------------
  // Every bucket
  // ---------------------------------------------------------------------------

  /** A batch of rows, the history of a sketch of its keys, and the boundaries read off it. */
  ghost predicate Planned(k: nat, h: History, keys: seq<Option<int>>, l: Layout, cuts: seq<int>) {
    var values := Values(keys, |keys|);
    && multiset(Stream(h)) == multiset(values)
    && l.values == |values| && l.nulls == Nulls(keys, |keys|)
    && l.Valid() && IsCuts(Build(k, h), l, cuts)
  }

  /** What the sketch can be off by, over all its compactions. */
  ghost function Slack(k: nat, h: History): nat
  {
    ErrorBound(k, |ShapeOf(k, h).lens|, |Stream(h)|)
  }

  lemma SpentWithinSlack(k: nat, h: History)
    ensures Build(k, h).core.spent <= Slack(k, h)
  {
    HistoryHas(k, h);
    HistorySound(k, h);
    HistorySummarizes(k, h);
    LensWeigh(Build(k, h).core.levels);
    SpentBound(k, ShapeOf(k, h));
  }

  /** How often the key a bucket begins with is repeated. */
  function Early(values: seq<int>, cuts: seq<int>, b: nat): int {
    if b == 0 then 0 else Repeats(values, cuts, b - 1)
  }

  lemma BucketFollowsRanks(k: nat, h: History, keys: seq<Option<int>>, l: Layout, cuts: seq<int>, b: nat)
    requires Planned(k, h, keys, l, cuts) && b < l.parts
    ensures var values, rows := Values(keys, |keys|), |RowsIn(keys, cuts, l.nullsFirst, b, |keys|)|;
      && rows <= RangeBalance.Rows(l, b) + 2 * Slack(k, h) + Early(values, cuts, b)
      && RangeBalance.Rows(l, b) <= rows + 2 * Slack(k, h) + Repeats(values, cuts, b)
  {
    var values := Values(keys, |keys|);
    HistorySummarizes(k, h);
    SameSummary(Build(k, h), Stream(h), values);
    SpentWithinSlack(k, h);
    ScatterFollowsRanks(Build(k, h), keys, l, cuts, b);
  }

  /** Unless the NULLs outgrow a partition, every partition - however the sketch of its keys was
      fed and merged, and however its coins fell - has the even share of the rows, less at most
      one and more by at most two, give or take twice the sketch's slack and the repetitions of
      the keys at its two ends. */
  lemma EveryPartitionIsNearShare(k: nat, h: History, keys: seq<Option<int>>, l: Layout, cuts: seq<int>, b: nat)
    requires Planned(k, h, keys, l, cuts) && b < l.parts && !l.NullsOutgrow()
    ensures var values, rows, share := Values(keys, |keys|), |RowsIn(keys, cuts, l.nullsFirst, b, |keys|)|, l.Total() / l.parts;
      && rows <= share + 2 + 2 * Slack(k, h) + Early(values, cuts, b)
      && share - 1 <= rows + 2 * Slack(k, h) + Repeats(values, cuts, b)
  {
    BucketFollowsRanks(k, h, keys, l, cuts, b);
    RangeBalance.FittingRunIsBalanced(l, b);
  }

  /** When they do, any two of the other partitions are within one of each other, give or take
      four times the slack and the repetitions. */
  lemma OtherPartitionsAreNear(k: nat, h: History, keys: seq<Option<int>>, l: Layout, cuts: seq<int>, b: nat, c: nat)
    requires Planned(k, h, keys, l, cuts) && b < l.parts && c < l.parts && l.NullsOutgrow()
    requires var run := if l.nullsFirst then 0 else l.parts - 1; b != run && c != run
    ensures var values := Values(keys, |keys|);
      |RowsIn(keys, cuts, l.nullsFirst, b, |keys|)| <=
        |RowsIn(keys, cuts, l.nullsFirst, c, |keys|)| + 1 + 4 * Slack(k, h) + Early(values, cuts, b) + Repeats(values, cuts, c)
  {
    BucketFollowsRanks(k, h, keys, l, cuts, b);
    BucketFollowsRanks(k, h, keys, l, cuts, c);
    RangeBalance.OutgrownRunIsBalanced(l, b, c);
  }
}
