/** How evenly the ranks of the boundaries split the rows. */
module RangeBalance {
  import opened Naturals
  import opened RangeCuts

  /** How many of the values, ordered, lie in partition `i`: partition 0 ends just before the value
      of the first rank, the last begins at the value of the last. */
  function Gap(l: Layout, i: nat): int
    requires l.Valid() && i < l.parts
  {
    (if i == l.parts - 1 then l.values + 1 else RankAt(l, i)) - (if i == 0 then 1 else RankAt(l, i - 1))
  }

  /** The rows of partition `i`: the NULL run rides at its own end. */
  function Rows(l: Layout, i: nat): int
    requires l.Valid() && i < l.parts
  {
    Gap(l, i) + (if i == (if l.nullsFirst then 0 else l.parts - 1) then l.nulls else 0)
  }

  lemma Quotient(n: nat, m: nat)
    requires 0 < m
    ensures n < m ==> Div(n, m) == 0
    ensures m <= n ==> 1 <= Div(n, m)
  {
  }

  /** From below: at least, or at most, one for each run. */
  lemma {:induction false} ShareFromBelow(i: nat, n: nat, parts: nat)
    requires 0 < parts
    ensures parts <= n ==> i <= Share(i, n, parts) && i <= ShareUp(i, n, parts)
    ensures n < parts ==> Share(i, n, parts) <= i && ShareUp(i, n, parts) <= i
  {
    if i == 0 {
      ShareEnds(n, parts);
    } else {
      ShareFromBelow(i - 1, n, parts);
      ShareStep(i - 1, n, parts);
      Quotient(n, parts);
    }
  }

  /** From above likewise. */
  lemma {:induction false} ShareFromAbove(i: nat, n: nat, parts: nat)
    requires 0 < parts && i <= parts
    ensures parts <= n ==> Share(i, n, parts) <= n - (parts - i) && ShareUp(i, n, parts) <= n - (parts - i)
    ensures n < parts ==> n - (parts - i) <= Share(i, n, parts) && n - (parts - i) <= ShareUp(i, n, parts)
    ensures Share(i, n, parts) <= n
    decreases parts - i
  {
    if i == parts {
      ShareEnds(n, parts);
    } else {
      ShareFromAbove(i + 1, n, parts);
      ShareStep(i, n, parts);
      Quotient(n, parts);
    }
  }

  /** Rounded up, a step is never more than one above the share of one less. */
  lemma CeilStep(i: nat, n: nat, parts: nat)
    requires 0 < parts && 0 < n
    ensures Div(n - 1, parts) <= ShareUp(i + 1, n, parts) - ShareUp(i, n, parts) <= Div(n - 1, parts) + 1
  {
    CeilDiv(Times(i, n), n, parts);
  }

  lemma {:induction false} CeilDiv(a: nat, n: nat, m: nat)
    requires 0 < m && 0 < n
    ensures Div(n - 1, m) <= Div(a + n + (m - 1), m) - Div(a + (m - 1), m) <= Div(n - 1, m) + 1
  {
    if m <= a {
      CeilDiv(a - m, n, m);
    } else if 0 < a {
      assert Div(a + (m - 1), m) == 1 + Div(a - 1, m);
      assert Div(a + n + (m - 1), m) == 1 + Div(a + n - 1, m);
      DivMonotone(n - 1, a + n - 1, m);
      DivMonotone(a + n - 1, m + n - 1, m);
    } else {
      assert Div(n + (m - 1), m) == 1 + Div(n - 1, m);
    }
  }

  // ---------------------------------------------------------------------------
  // A run of NULLs larger than a partition's share takes its partition whole
  // ---------------------------------------------------------------------------

  lemma OutgrownFirst(l: Layout, i: nat)
    requires l.Valid() && l.NullsOutgrow() && l.nullsFirst && i < l.parts - 1
    ensures RankAt(l, i) == if l.parts - 1 <= l.values then Share(i, l.values, l.parts - 1) + 1 else AtMost(i + 1, l.values)
  {
    ShareFromBelow(i, l.values, l.parts - 1);
    ShareFromAbove(i, l.values, l.parts - 1);
  }

  lemma OutgrownLast(l: Layout, i: nat)
    requires l.Valid() && l.NullsOutgrow() && !l.nullsFirst && i < l.parts - 1
    ensures RankAt(l, i) == if l.parts - 1 <= l.values then ShareUp(i + 1, l.values, l.parts - 1)
                            else AtLeast(l.values - (l.parts - 2 - i), 1)
  {
    ShareFromBelow(i + 1, l.values, l.parts - 1);
    ShareFromAbove(i + 1, l.values, l.parts - 1);
  }

  lemma OutgrownFirstGap(l: Layout, i: nat, q: nat)
    requires l.Valid() && l.NullsOutgrow() && l.nullsFirst && i < l.parts && q == Div(l.values, l.parts - 1)
    ensures i == 0 ==> Gap(l, i) == 0
    ensures 0 < i ==> q <= Gap(l, i) <= q + 1
  {
    var m := l.parts - 1;
    Quotient(l.values, m);
    ShareEnds(l.values, m);
    if i < m { OutgrownFirst(l, i); }
    if 0 < i {
      OutgrownFirst(l, i - 1);
      ShareStep(i - 1, l.values, m);
    }
  }

  lemma OutgrownLastGap(l: Layout, i: nat)
    requires l.Valid() && l.NullsOutgrow() && !l.nullsFirst && i < l.parts
    ensures i == l.parts - 1 ==> Gap(l, i) == 1
    ensures i < l.parts - 1 ==> Div(l.values - 1, l.parts - 1) <= Gap(l, i) <= Div(l.values - 1, l.parts - 1) + 1
  {
    var m := l.parts - 1;
    ShareEnds(l.values, m);
    if 0 < i { OutgrownLast(l, i - 1); }
    if i < m {
      OutgrownLast(l, i);
      CeilStep(i, l.values, m);
      if l.values < m { Quotient(l.values - 1, m); }
      if i == 0 { FirstCeil(l.values, m); }
    }
  }

  lemma FirstCeil(n: nat, m: nat)
    requires 0 < m && 0 < n
    ensures ShareUp(1, n, m) == Div(n - 1, m) + 1
  {
    assert Times(1, n) == n;
    assert Div(n + (m - 1), m) == 1 + Div(n - 1, m);
  }

  /** When the NULLs outgrow a partition they take the one at their end, with no value beside them
      first and one value beside them last; any two of the other partitions differ by at most one. */
  lemma OutgrownRunIsBalanced(l: Layout, i: nat, j: nat)
    requires l.Valid() && l.NullsOutgrow() && i < l.parts && j < l.parts
    requires var run := if l.nullsFirst then 0 else l.parts - 1; i != run && j != run
    ensures -1 <= Rows(l, i) - Rows(l, j) <= 1
    ensures l.nullsFirst ==> Rows(l, 0) == l.nulls
    ensures !l.nullsFirst ==> Rows(l, l.parts - 1) == l.nulls + 1
  {
    if l.nullsFirst {
      var q := Div(l.values, l.parts - 1);
      OutgrownFirstGap(l, 0, q);
      OutgrownFirstGap(l, i, q);
      OutgrownFirstGap(l, j, q);
    } else {
      OutgrownLastGap(l, l.parts - 1);
      OutgrownLastGap(l, i);
      OutgrownLastGap(l, j);
    }
  }

  // ---------------------------------------------------------------------------
  // A run that fits shares its partition with values
  // ---------------------------------------------------------------------------

  lemma RunFits(l: Layout, share: nat)
    requires l.Valid() && !l.NullsOutgrow() && share == Div(l.Total(), l.parts)
    ensures l.nulls <= share
  {
    DivOfMultiple(l.nulls, l.parts, 0);
    DivMonotone(Times(l.parts, l.nulls), l.Total(), l.parts);
  }

  /** A clamped rank follows what is wanted, at most `d` further for `d` more. */
  lemma ClampStep(a: nat, b: nat, d: nat, i: nat, above: nat, values: nat)
    requires a <= b <= a + d && 1 <= d && 0 < above
    ensures 0 <= ClampFirst(b, i + 1, values) - ClampFirst(a, i, values) <= d
    ensures 0 <= ClampLast(b, above - 1, values) - ClampLast(a, above, values) <= d
  {
  }

  /** With two rows or more a partition, the second boundary on stays clear of the run. */
  lemma {:induction false} ShareClears(j: nat, n: nat, parts: nat, share: nat)
    requires 0 < parts && share == Div(n, parts) && 2 <= share && 2 <= j
    ensures share + j <= Share(j, n, parts)
  {
    ShareStep(j - 1, n, parts);
    if j == 2 {
      ShareStep(0, n, parts);
      ShareEnds(n, parts);
    } else {
      ShareClears(j - 1, n, parts, share);
    }
  }

  lemma FirstShare(n: nat, parts: nat)
    requires 0 < parts
    ensures Share(1, n, parts) == Div(n, parts)
  {
    assert Times(1, n) == n;
  }

  lemma FittingFirst(l: Layout, i: nat, share: nat)
    requires l.Valid() && !l.NullsOutgrow() && l.nullsFirst && i < l.parts - 1 && share == Div(l.Total(), l.parts)
    ensures i == 0 ==> RankAt(l, i) == AtLeast(share - l.nulls, 1)
    ensures var wanted := Share(i + 1, l.Total(), l.parts) - l.nulls;
      wanted <= RankAt(l, i) && (2 <= share && 1 <= i ==> RankAt(l, i) == wanted)
  {
    RunFits(l, share);
    FirstShare(l.Total(), l.parts);
    ShareFromAbove(i + 1, l.Total(), l.parts);
    if 2 <= share && 1 <= i { ShareClears(i + 1, l.Total(), l.parts, share); }
  }

  lemma FittingFirstLow(l: Layout, share: nat)
    requires l.Valid() && !l.NullsOutgrow() && l.nullsFirst && share == Div(l.Total(), l.parts)
    ensures share - 1 <= Rows(l, 0) <= share + 2
  {
    RunFits(l, share);
    FittingFirst(l, 0, share);
  }

  lemma FittingFirstStep(l: Layout, i: nat, share: nat)
    requires l.Valid() && !l.NullsOutgrow() && l.nullsFirst && share == Div(l.Total(), l.parts)
    requires 1 <= i < l.parts - 1
    ensures 0 <= RankAt(l, i) - RankAt(l, i - 1) <= share + 1
  {
    ShareStep(i, l.Total(), l.parts);
    ClampStep(WantedFirst(l, i - 1), WantedFirst(l, i), share + 1, i - 1, 1, l.values);
  }

  lemma FittingFirstMiddle(l: Layout, i: nat, share: nat)
    requires l.Valid() && !l.NullsOutgrow() && l.nullsFirst && share == Div(l.Total(), l.parts)
    requires 1 <= i < l.parts - 1
    ensures share - 1 <= RankAt(l, i) - RankAt(l, i - 1) <= share + 1
  {
    FittingFirstStep(l, i, share);
    if 2 <= share {
      RunFits(l, share);
      ShareStep(i, l.Total(), l.parts);
      FirstShare(l.Total(), l.parts);
      FittingFirst(l, i, share);
      FittingFirst(l, i - 1, share);
    }
  }

  lemma FittingFirstHigh(l: Layout, share: nat)
    requires l.Valid() && !l.NullsOutgrow() && l.nullsFirst && share == Div(l.Total(), l.parts)
    ensures share - 1 <= l.values + 1 - RankAt(l, l.parts - 2) <= share + 2
  {
    RunFits(l, share);
    ShareEnds(l.Total(), l.parts);
    ShareStep(l.parts - 1, l.Total(), l.parts);
    FirstShare(l.Total(), l.parts);
    FittingFirst(l, l.parts - 2, share);
  }

  lemma FittingFirstRows(l: Layout, i: nat, share: nat)
    requires l.Valid() && !l.NullsOutgrow() && l.nullsFirst && i < l.parts && share == Div(l.Total(), l.parts)
    ensures share - 1 <= Rows(l, i) <= share + 2
  {
    if i == 0 {
      FittingFirstLow(l, share);
    } else if i < l.parts - 1 {
      FittingFirstMiddle(l, i, share);
    } else {
      FittingFirstHigh(l, share);
    }
  }

  /** The last boundaries leave the run its room when NULLs come last. */
  lemma {:induction false} ShareLeavesRoom(j: nat, n: nat, parts: nat, share: nat)
    requires j < parts && 1 <= share == Div(n, parts)
    ensures Share(j, n, parts) <= n - share - (parts - 1 - j)
    decreases parts - j
  {
    ShareStep(j, n, parts);
    if j == parts - 1 {
      ShareEnds(n, parts);
    } else {
      ShareLeavesRoom(j + 1, n, parts, share);
    }
  }

  /** With at least a row a partition, nothing is held back. */
  lemma FittingLast(l: Layout, i: nat, share: nat)
    requires l.Valid() && !l.NullsOutgrow() && !l.nullsFirst && i < l.parts - 1 && 1 <= share == Div(l.Total(), l.parts)
    ensures RankAt(l, i) == Share(i + 1, l.Total(), l.parts)
  {
    RunFits(l, share);
    ShareLeavesRoom(i + 1, l.Total(), l.parts, share);
    Quotient(l.Total(), l.parts);
    ShareFromBelow(i + 1, l.Total(), l.parts);
  }

  lemma FittingLastRows(l: Layout, i: nat, share: nat)
    requires l.Valid() && !l.NullsOutgrow() && !l.nullsFirst && i < l.parts && 1 <= share == Div(l.Total(), l.parts)
    ensures share - 1 <= Rows(l, i) <= share + 2
  {
    ShareEnds(l.Total(), l.parts);
    ShareStep(i, l.Total(), l.parts);
    if i < l.parts - 1 { FittingLast(l, i, share); }
    if 0 < i { FittingLast(l, i - 1, share); }
  }

  /** Fewer rows than partitions: no partition gets more than two. */
  lemma SparseLastRows(l: Layout, i: nat)
    requires l.Valid() && !l.NullsOutgrow() && !l.nullsFirst && i < l.parts && Div(l.Total(), l.parts) == 0
    ensures 0 <= Rows(l, i) <= 2
  {
    RunFits(l, 0);
    Quotient(l.Total(), l.parts);
    if 0 < i < l.parts - 1 {
      ShareStep(i, l.Total(), l.parts);
      ClampStep(WantedLast(l, i - 1), WantedLast(l, i), 1, 0, l.parts - 1 - i, l.values);
    } else if i == 0 {
      FirstShare(l.Total(), l.parts);
    } else {
      ShareFromAbove(l.parts - 1, l.Total(), l.parts);
    }
  }

  /** When the NULLs fit in a partition's share, every partition - the NULLs counted in theirs - is
      at most one below the share and at most two above it. */
  lemma FittingRunIsBalanced(l: Layout, i: nat)
    requires l.Valid() && !l.NullsOutgrow() && i < l.parts
    ensures l.Total() / l.parts - 1 <= Rows(l, i) <= l.Total() / l.parts + 2
  {
    var share := Div(l.Total(), l.parts);
    DivIsQuotient(l.Total(), l.parts);
    if l.nullsFirst {
      FittingFirstRows(l, i, share);
    } else if 1 <= share {
      FittingLastRows(l, i, share);
    } else {
      SparseLastRows(l, i);
    }
  }

  /** Without NULLs the two placements choose the same ranks for every boundary exactly when there
      are enough values for every partition, or only one. */
  lemma PlacementsAgreeIff(l: Layout)
    requires l.Valid() && l.nulls == 0
    ensures (forall i: nat | i < l.parts - 1 :: RankAt(l.(nullsFirst := true), i) == RankAt(l.(nullsFirst := false), i))
      <==> l.parts <= l.values || l.values == 1
  {
    TimesZero(l.parts);
    var first, last := l.(nullsFirst := true), l.(nullsFirst := false);
    if l.parts <= l.values {
      forall i: nat | i < l.parts - 1 ensures RankAt(first, i) == RankAt(last, i) {
        ShareFromBelow(i + 1, l.values, l.parts);
        ShareFromAbove(i + 1, l.values, l.parts);
      }
    } else if 1 < l.values {
      ShareFromBelow(1, l.values, l.parts);
      Quotient(l.values, l.parts);
      ShareEnds(l.values, l.parts);
      TwoShares(l.values, l.parts);
      assert RankAt(first, 1) == 2 && RankAt(last, 1) == 1;
    }
  }

  lemma TwoShares(n: nat, parts: nat)
    requires n < parts
    ensures Share(2, n, parts) <= 1
  {
    assert Times(2, n) == n + n by { assert Times(1, n) == n; }
    DivMonotone(n + n, parts + n, parts);
    Quotient(n, parts);
  }

  /** The partitions together hold every row once. */
  lemma {:induction false} RowsAddUp(l: Layout, i: nat)
    requires l.Valid() && i < l.parts
    ensures SumRows(l, i) == (if i == l.parts - 1 then l.values else RankAt(l, i) - 1)
      + (if l.nullsFirst || i == l.parts - 1 then l.nulls else 0)
  {
    if 0 < i { RowsAddUp(l, i - 1); }
  }

  /** The rows of partitions `0` to `i`. */
  function SumRows(l: Layout, i: nat): int
    requires l.Valid() && i < l.parts
  {
    (if i == 0 then 0 else SumRows(l, i - 1)) + Rows(l, i)
  }
}
