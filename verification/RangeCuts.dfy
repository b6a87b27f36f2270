/** The ranks at which a sort-key sketch is asked for partition boundaries. NULLs are counted apart
    and form one run at the end that the NULL placement names. */
module RangeCuts {
  import opened Naturals

  // ---------------------------------------------------------------------------
  // The rank each boundary asks for
  // ---------------------------------------------------------------------------

  /** What the boundaries are chosen from: `parts` partitions for `values` values and `nulls` NULLs. */
  datatype Layout = Layout(parts: nat, values: nat, nulls: nat, nullsFirst: bool) {
    predicate Valid() {
      2 <= parts && 0 < values
    }

    function Total(): nat {
      values + nulls
    }

    /** More NULLs than one partition's share of all rows. */
    predicate NullsOutgrow() {
      values + nulls < Times(parts, nulls)
    }
  }

  function AtLeast(n: int, floor: int): int {
    if n < floor then floor else n
  }

  function AtMost(n: int, ceiling: int): int {
    if ceiling < n then ceiling else n
  }

  /** `i` of the `parts` equal runs of `n` rows, rounded down. */
  function Share(i: nat, n: nat, parts: nat): nat
    requires 0 < parts
  {
    Div(Times(i, n), parts)
  }

  /** The same rounded up. */
  function ShareUp(i: nat, n: nat, parts: nat): nat
    requires 0 < parts
  {
    DivUp(Times(i, n), parts)
  }

  /** The rank a boundary asks for when NULLs come first: no lower than one for each boundary so far. */
  function WantedFirst(l: Layout, i: nat): nat
    requires l.Valid()
  {
    if l.NullsOutgrow() then Share(i, l.values, l.parts - 1) + 1
    else AtLeast(Share(i + 1, l.Total(), l.parts) - l.nulls, 0)
  }

  function ClampFirst(wanted: nat, i: nat, values: nat): nat {
    AtMost(AtLeast(wanted, i + 1), values)
  }

  /** The mirror image when NULLs come last: no higher than leaves one for each boundary above. */
  function WantedLast(l: Layout, i: nat): nat
    requires l.Valid()
  {
    if l.NullsOutgrow() then ShareUp(i + 1, l.values, l.parts - 1) else Share(i + 1, l.Total(), l.parts)
  }

  function ClampLast(wanted: nat, above: nat, values: nat): nat {
    AtLeast(AtMost(wanted, AtLeast(values - above, 0)), 1)
  }

  /** Always the rank of a value. */
  function RankAt(l: Layout, i: nat): (r: nat)
    requires l.Valid() && i < l.parts - 1
    ensures 1 <= r <= l.values
  {
    if l.nullsFirst then ClampFirst(WantedFirst(l, i), i, l.values)
    else ClampLast(WantedLast(l, i), l.parts - 2 - i, l.values)
  }

  /** One more run adds the quotient or one more, from any start. */
  lemma StepFrom(a: nat, b: nat, n: nat, m: nat)
    requires 0 < m && b == a + n
    ensures Div(n, m) <= Div(b, m) - Div(a, m) <= Div(n, m) + 1
  {
    DivStep(a, n, m);
  }

  lemma StepUpFrom(a: nat, b: nat, n: nat, m: nat)
    requires 0 < m && b == a + n
    ensures Div(n, m) <= DivUp(b, m) - DivUp(a, m) <= Div(n, m) + 1
  {
    StepFrom(a + (m - 1), b + (m - 1), n, m);
  }

  lemma TimesNext(i: nat, n: nat)
    ensures Times(i + 1, n) == Times(i, n) + n
  {
  }

  lemma ShareStepDown(i: nat, n: nat, parts: nat)
    requires 0 < parts
    ensures Div(n, parts) <= Share(i + 1, n, parts) - Share(i, n, parts) <= Div(n, parts) + 1
  {
    TimesNext(i, n);
    StepFrom(Times(i, n), Times(i + 1, n), n, parts);
  }

  lemma ShareStepUp(i: nat, n: nat, parts: nat)
    requires 0 < parts
    ensures Div(n, parts) <= ShareUp(i + 1, n, parts) - ShareUp(i, n, parts) <= Div(n, parts) + 1
  {
    TimesNext(i, n);
    StepUpFrom(Times(i, n), Times(i + 1, n), n, parts);
  }

  lemma ShareStep(i: nat, n: nat, parts: nat)
    requires 0 < parts
    ensures Div(n, parts) <= Share(i + 1, n, parts) - Share(i, n, parts) <= Div(n, parts) + 1
    ensures Div(n, parts) <= ShareUp(i + 1, n, parts) - ShareUp(i, n, parts) <= Div(n, parts) + 1
  {
    ShareStepDown(i, n, parts);
    ShareStepUp(i, n, parts);
  }

  lemma ShareEnds(n: nat, parts: nat)
    requires 0 < parts
    ensures Share(0, n, parts) == 0 && Share(parts, n, parts) == n
    ensures ShareUp(0, n, parts) == 0 && ShareUp(parts, n, parts) == n
  {
    DivOfMultiple(n, parts, 0);
    DivOfMultiple(n, parts, parts - 1);
  }

  lemma WantedAscend(l: Layout, i: nat)
    requires l.Valid()
    ensures WantedFirst(l, i) <= WantedFirst(l, i + 1) && WantedLast(l, i) <= WantedLast(l, i + 1)
  {
    ShareStep(i, l.values, l.parts - 1);
    ShareStep(i + 1, l.values, l.parts - 1);
    ShareStep(i + 1, l.Total(), l.parts);
  }

  /** Ranks never decrease from one boundary to the next. */
  lemma {:induction false} RanksAscend(l: Layout, i: nat, j: nat)
    requires l.Valid() && i <= j < l.parts - 1
    ensures RankAt(l, i) <= RankAt(l, j)
    decreases j
  {
    if i < j {
      RanksAscend(l, i, j - 1);
      WantedAscend(l, j - 1);
    }
  }

}
