/** Two ways to order a nullable column: a key with a tag bit above the value bits, and value
    keys alone with the NULLs counted beside them. And fixed-width row keys, padded with zeros. */
module NullKeys {
  import opened Wrappers
  import opened SortableKeys
  import Sorting

  // ---------------------------------------------------------------------------
  // Sorting
  // ---------------------------------------------------------------------------

  predicate SortingOf(s: seq<nat>, t: seq<nat>) {
    Sorting.Sorted(t) && multiset(s) == multiset(t)
  }

  lemma SortingUnique(a: seq<nat>, b: seq<nat>)
    requires Sorting.Sorted(a) && Sorting.Sorted(b) && multiset(a) == multiset(b)
    ensures a == b
  {
    Sorting.SameBelow(a, b, 0);
    forall x ensures Sorting.Below(a, x) == Sorting.Below(b, x) { Sorting.SameBelow(a, b, x); }
    Sorting.SortedUnique(a, b);
  }

  // ---------------------------------------------------------------------------
  // Keys of a nullable column; `base` is the tag bit, two to the width of the value patterns
  // ---------------------------------------------------------------------------

  type Pattern = b: Bits | b != [] witness [false]

  function ValueKey(b: Pattern): nat {
    Value(ToSortable(b))
  }

  function Tag(base: nat, key: nat): nat {
    base + key
  }

  function TaggedKey(base: nat, cell: Option<Pattern>): nat {
    match cell
    case Some(b) => Tag(base, ValueKey(b))
    case None => 0
  }

  /** The key's own bits: a set bit above those of the value, or all bits clear. */
  function TaggedBits(width: nat, cell: Option<Pattern>): Bits {
    match cell
    case Some(b) => [true] + ToSortable(b)
    case None => seq(width + 1, _ => false)
  }

  lemma {:induction false} ClearBits(n: nat)
    ensures Value(seq(n, _ => false)) == 0
  {
    if 0 < n {
      ClearBits(n - 1);
      assert seq(n, _ => false)[1..] == seq(n - 1, _ => false);
    }
  }

  /** Value keys of a width stay below two to that width, so setting the bit above them is adding
      it, and a NULL's key lies below every value's. */
  lemma TagIsTheBitAbove(width: nat, cell: Option<Pattern>)
    requires cell.Some? ==> |cell.value| == width
    ensures TaggedKey(Pow2(width), cell) == Value(TaggedBits(width, cell))
    ensures cell.Some? ==> ValueKey(cell.value) < Pow2(width) <= TaggedKey(Pow2(width), cell)
  {
    match cell
    case Some(b) =>
      assert TaggedBits(width, cell)[1..] == ToSortable(b);
    case None => ClearBits(width + 1);
  }

  function TaggedKeys(base: nat, column: seq<Option<Pattern>>): seq<nat> {
    if column == [] then [] else [TaggedKey(base, column[0])] + TaggedKeys(base, column[1..])
  }

  function ValueKeys(column: seq<Option<Pattern>>): seq<nat> {
    if column == [] then []
    else if column[0].Some? then [ValueKey(column[0].value)] + ValueKeys(column[1..])
    else ValueKeys(column[1..])
  }

  function Nulls(column: seq<Option<Pattern>>): nat {
    if column == [] then 0 else (if column[0].None? then 1 else 0) + Nulls(column[1..])
  }

  /** The tagged keys of all batches, as they are handed to the sketch. */
  method IngestTagged(base: nat, batches: seq<seq<Option<Pattern>>>) returns (keys: seq<nat>)
    ensures keys == TaggedKeys(base, Flatten(batches))
  {
    keys := [];
    for i := 0 to |batches|
      invariant keys == TaggedKeys(base, Flatten(batches[..i]))
    {
      var batch := batches[i];
      FlattenOneMore(batches, i);
      ghost var before := Flatten(batches[..i]);
      assert before + batch[..0] == before;
      for j := 0 to |batch|
        invariant keys == TaggedKeys(base, before + batch[..j])
      {
        TaggedOneMore(base, before + batch[..j], batch[j]);
        match batch[j] {
          case Some(b) => keys := keys + [base + Value(ToSortable(b))];
          case None => keys := keys + [0];
        }
        assert before + batch[..j + 1] == (before + batch[..j]) + [batch[j]];
      }
      assert batch[..|batch|] == batch;
    }
    assert batches[..|batches|] == batches;
  }

  lemma {:induction false} TaggedOneMore(base: nat, column: seq<Option<Pattern>>, cell: Option<Pattern>)
    ensures TaggedKeys(base, column + [cell]) == TaggedKeys(base, column) + [TaggedKey(base, cell)]
  {
    if column == [] {
      assert column + [cell] == [cell] && TaggedKeys(base, [cell][1..]) == [];
    } else {
      assert (column + [cell])[1..] == column[1..] + [cell];
      TaggedOneMore(base, column[1..], cell);
    }
  }

  function Flatten(batches: seq<seq<Option<Pattern>>>): seq<Option<Pattern>> {
    if batches == [] then [] else Flatten(batches[..|batches| - 1]) + batches[|batches| - 1]
  }

  lemma FlattenOneMore(batches: seq<seq<Option<Pattern>>>, i: nat)
    requires i < |batches|
    ensures Flatten(batches[..i + 1]) == Flatten(batches[..i]) + batches[i]
  {
    assert batches[..i + 1][..i] == batches[..i];
  }

  // ---------------------------------------------------------------------------
  // Counting NULLs out of band loses nothing
  // ---------------------------------------------------------------------------

  function Zeros(n: nat): (r: seq<nat>)
    ensures |r| == n && forall i | 0 <= i < n :: r[i] == 0
  {
    if n == 0 then [] else [0] + Zeros(n - 1)
  }

  function TagAll(base: nat, keys: seq<nat>): (r: seq<nat>)
    ensures |r| == |keys| && forall i | 0 <= i < |r| :: r[i] == Tag(base, keys[i])
  {
    if keys == [] then [] else [Tag(base, keys[0])] + TagAll(base, keys[1..])
  }

  function Count(s: seq<nat>, k: nat): nat {
    if s == [] then 0 else (if s[0] == k then 1 else 0) + Count(s[1..], k)
  }

  lemma {:induction false} CountIsMultiplicity(s: seq<nat>, k: nat)
    ensures multiset(s)[k] == Count(s, k)
  {
    if s != [] {
      CountIsMultiplicity(s[1..], k);
      assert s == [s[0]] + s[1..];
    }
  }

  lemma {:induction false} CountConcat(a: seq<nat>, b: seq<nat>, k: nat)
    ensures Count(a + b, k) == Count(a, k) + Count(b, k)
  {
    if a == [] {
      assert a + b == b;
    } else {
      CountConcat(a[1..], b, k);
      assert (a + b)[1..] == a[1..] + b;
    }
  }

  lemma {:induction false} TaggedCounts(base: nat, column: seq<Option<Pattern>>, k: nat)
    ensures Count(TaggedKeys(base, column), k) ==
      Count(Zeros(Nulls(column)), k) + Count(TagAll(base, ValueKeys(column)), k)
  {
    if column != [] {
      TaggedCounts(base, column[1..], k);
      var rest := ValueKeys(column[1..]);
      assert TaggedKeys(base, column)[1..] == TaggedKeys(base, column[1..]);
      if column[0].Some? {
        var v := ValueKey(column[0].value);
        assert ([v] + rest)[1..] == rest;
        assert TagAll(base, [v] + rest)[1..] == TagAll(base, rest);
      } else {
        assert Zeros(Nulls(column))[1..] == Zeros(Nulls(column[1..]));
      }
    }
  }

  lemma {:induction false} TagCounts(base: nat, a: seq<nat>, k: nat)
    ensures Count(TagAll(base, a), k) == if k >= base then Count(a, k - base) else 0
  {
    if a != [] {
      TagCounts(base, a[1..], k);
      assert TagAll(base, a)[1..] == TagAll(base, a[1..]);
    }
  }

  lemma SameCounts(a: seq<nat>, b: seq<nat>, k: nat)
    requires multiset(a) == multiset(b)
    ensures Count(a, k) == Count(b, k)
  {
    CountIsMultiplicity(a, k);
    CountIsMultiplicity(b, k);
  }

  /** How often a key occurs among tagged values depends on the values, not their order. */
  lemma TagCountsAnyOrder(base: nat, a: seq<nat>, b: seq<nat>, k: nat)
    requires multiset(a) == multiset(b)
    ensures Count(TagAll(base, a), k) == Count(TagAll(base, b), k)
  {
    TagCounts(base, a, k);
    TagCounts(base, b, k);
    if k >= base { SameCounts(a, b, k - base); }
  }

  lemma TaggedCountsAnyOrder(base: nat, column: seq<Option<Pattern>>, values: seq<nat>, k: nat)
    requires multiset(ValueKeys(column)) == multiset(values)
    ensures Count(TaggedKeys(base, column), k) == Count(Zeros(Nulls(column)) + TagAll(base, values), k)
  {
    TaggedCounts(base, column, k);
    CountConcat(Zeros(Nulls(column)), TagAll(base, values), k);
    TagCountsAnyOrder(base, ValueKeys(column), values, k);
  }

  /** The tagged keys are zeros and tagged value keys, in whatever order `values` has those. */
  lemma TaggedContents(base: nat, column: seq<Option<Pattern>>, values: seq<nat>)
    requires multiset(ValueKeys(column)) == multiset(values)
    ensures multiset(TaggedKeys(base, column)) == multiset(Zeros(Nulls(column)) + TagAll(base, values))
  {
    var t, out := TaggedKeys(base, column), Zeros(Nulls(column)) + TagAll(base, values);
    var x: multiset<nat>, y: multiset<nat> := multiset(t), multiset(out);
    forall k: nat
      ensures x[k] == y[k]
    {
      CountIsMultiplicity(t, k);
      CountIsMultiplicity(out, k);
      TaggedCountsAnyOrder(base, column, values, k);
    }
  }

  lemma NullsThenValuesSorted(base: nat, n: nat, values: seq<nat>)
    requires Sorting.Sorted(values)
    ensures Sorting.Sorted(Zeros(n) + TagAll(base, values))
  {
  }

  /** Sorting the tagged keys gives the NULLs followed by the sorted value keys, and nothing
      else does: the tag carries no information that a count of the NULLs does not. */
  lemma TaggedOrderIsNullsThenValues(base: nat, column: seq<Option<Pattern>>, values: seq<nat>, tagged: seq<nat>)
    requires SortingOf(ValueKeys(column), values)
    ensures SortingOf(TaggedKeys(base, column), tagged) <==> tagged == Zeros(Nulls(column)) + TagAll(base, values)
  {
    var out := Zeros(Nulls(column)) + TagAll(base, values);
    TaggedContents(base, column, values);
    NullsThenValuesSorted(base, Nulls(column), values);
    if SortingOf(TaggedKeys(base, column), tagged) { SortingUnique(tagged, out); }
  }

  /** A value's rank in the column is the number of NULLs plus its rank among the values. */
  lemma {:induction false} TaggedRank(base: nat, column: seq<Option<Pattern>>, k: nat)
    requires base > 0
    ensures Sorting.Below(TaggedKeys(base, column), Tag(base, k)) == Nulls(column) + Sorting.Below(ValueKeys(column), k)
  {
    if column != [] {
      TaggedRank(base, column[1..], k);
      if column[0].Some? { assert ValueKeys(column)[1..] == ValueKeys(column[1..]); }
    }
  }

  // ---------------------------------------------------------------------------
  // Row keys: the bytes of a row, padded with zeros to a fixed width
  // ---------------------------------------------------------------------------

  const ROW_KEY_WIDTH: nat := 24

  predicate LexLess(a: seq<nat>, b: seq<nat>) {
    if b == [] then false
    else if a == [] then true
    else a[0] < b[0] || (a[0] == b[0] && LexLess(a[1..], b[1..]))
  }

  /** A row longer than the key cannot be copied into it. */
  function Pad(width: nat, row: seq<nat>): (r: seq<nat>)
    requires |row| <= width
    ensures |r| == width
  {
    row + Zeros(width - |row|)
  }

  /** `b` is `a` and then only zeros, at least one. */
  predicate ExtendsByZeros(a: seq<nat>, b: seq<nat>) {
    a < b && forall i | |a| <= i < |b| :: b[i] == 0
  }

  lemma {:induction false} ZerosLeast(n: nat, b: seq<nat>)
    requires |b| == n
    ensures !LexLess(b, Zeros(n))
    ensures LexLess(Zeros(n), b) <==> exists i :: 0 <= i < n && b[i] != 0
  {
    if n > 0 {
      ZerosLeast(n - 1, b[1..]);
      assert Zeros(n)[1..] == Zeros(n - 1);
      if i :| 0 <= i < n && b[i] != 0 && i > 0 { assert b[1..][i - 1] != 0; }
      if j :| 0 <= j < n - 1 && b[1..][j] != 0 { assert b[j + 1] != 0; }
    }
  }

  /** Padding keeps the order of two rows unless one continues the other by zeros alone; rows of
      one length, which is what a fixed-width column gives, are never in that case. */
  lemma {:induction false} PadKeepsOrderIff(width: nat, a: seq<nat>, b: seq<nat>)
    requires |a| <= width && |b| <= width
    ensures (LexLess(Pad(width, a), Pad(width, b)) <==> LexLess(a, b)) <==> !ExtendsByZeros(a, b)
    decreases width
  {
    if a == [] {
      var p := Pad(width, b);
      assert Pad(width, a) == Zeros(width);
      ZerosLeast(width, p);
      if b != [] {
        assert forall i | 0 <= i < |b| :: p[i] == b[i];
        if !ExtendsByZeros(a, b) {
          var i :| 0 <= i < |b| && b[i] != 0;
          assert p[i] != 0;
        }
      } else {
        assert p == Zeros(width);
      }
    } else if b == [] {
      assert Pad(width, b) == Zeros(width);
      ZerosLeast(width, Pad(width, a));
    } else {
      assert Pad(width, a)[1..] == Pad(width - 1, a[1..]);
      assert Pad(width, b)[1..] == Pad(width - 1, b[1..]);
      PadKeepsOrderIff(width - 1, a[1..], b[1..]);
      if a[0] == b[0] {
        assert a < b <==> a[1..] < b[1..];
        assert forall i | 1 <= i < |b| :: b[i] == b[1..][i - 1];
        assert ExtendsByZeros(a, b) <==> ExtendsByZeros(a[1..], b[1..]);
      } else {
        assert !(a < b);
      }
    }
  }

  lemma RowKeysKeepOrder(a: seq<nat>, b: seq<nat>)
    requires |a| == |b| <= ROW_KEY_WIDTH
    ensures LexLess(Pad(ROW_KEY_WIDTH, a), Pad(ROW_KEY_WIDTH, b)) <==> LexLess(a, b)
  {
    PadKeepsOrderIff(ROW_KEY_WIDTH, a, b);
  }
}
