/** Ordered sequences of items. What a sequence contains is told by how many of its items lie
    below each probe; two sequences with equal answers hold the same items. */
module Sorting {
  predicate Sorted(s: seq<int>) {
    forall i, j | 0 <= i < j < |s| :: s[i] <= s[j]
  }

  function Below(s: seq<int>, x: int): (n: nat)
    ensures n <= |s|
  {
    if s == [] then 0 else (if s[0] < x then 1 else 0) + Below(s[1..], x)
  }

  ghost predicate SameItems(a: seq<int>, b: seq<int>) {
    |a| == |b| && forall x :: Below(a, x) == Below(b, x)
  }

  lemma {:induction false} BelowConcat(a: seq<int>, b: seq<int>, x: int)
    ensures Below(a + b, x) == Below(a, x) + Below(b, x)
  {
    if a == [] {
      assert a + b == b;
    } else {
      BelowConcat(a[1..], b, x);
      assert (a + b)[1..] == a[1..] + b;
    }
  }

  lemma {:induction false} NoneBelowFirst(a: seq<int>, x: int)
    requires forall i | 0 <= i < |a| :: x <= a[i]
    ensures Below(a, x) == 0
  {
    if a != [] { NoneBelowFirst(a[1..], x); }
  }

  /** A sequence in order is determined by its items. */
  lemma {:induction false} SortedUnique(a: seq<int>, b: seq<int>)
    requires Sorted(a) && Sorted(b) && SameItems(a, b)
    ensures a == b
  {
    if a != [] {
      FirstIsLeast(a, b);
      FirstIsLeast(b, a);
      forall x ensures Below(a[1..], x) == Below(b[1..], x) {
        assert Below(a, x) == Below(b, x);
      }
      SortedUnique(a[1..], b[1..]);
      assert a == [a[0]] + a[1..] && b == [b[0]] + b[1..];
    }
  }

  lemma FirstIsLeast(a: seq<int>, b: seq<int>)
    requires a != [] && b != [] && Sorted(a) && SameItems(a, b)
    ensures a[0] <= b[0]
  {
    NoneBelowFirst(a, a[0]);
    assert Below(b, a[0]) == 0;
  }

  lemma TakeOut(s: seq<int>, i: nat, x: int)
    requires i < |s|
    ensures Below(s, x) == Below(s[..i] + s[i + 1..], x) + (if s[i] < x then 1 else 0)
    ensures multiset(s) == multiset(s[..i] + s[i + 1..]) + multiset{s[i]}
  {
    assert s == s[..i] + ([s[i]] + s[i + 1..]);
    BelowConcat(s[..i], [s[i]] + s[i + 1..], x);
    BelowConcat([s[i]], s[i + 1..], x);
    BelowConcat(s[..i], s[i + 1..], x);
  }

  lemma {:induction false} SameBelow(a: seq<int>, b: seq<int>, x: int)
    requires multiset(a) == multiset(b)
    ensures |a| == |b| && Below(a, x) == Below(b, x)
  {
    if a == [] {
      assert |multiset(b)| == |multiset(a)|;
    } else {
      assert a[0] in multiset(b);
      var i :| 0 <= i < |b| && b[i] == a[0];
      TakeOut(b, i, x);
      assert a == [a[0]] + a[1..];
      assert multiset(a[1..]) == multiset(a) - multiset{a[0]};
      SameBelow(a[1..], b[..i] + b[i + 1..], x);
    }
  }

  // ---------------------------------------------------------------------------
  // Sorting
  // ---------------------------------------------------------------------------

  function Place(x: int, s: seq<int>): (r: seq<int>)
    ensures |r| == |s| + 1
  {
    if s == [] || x <= s[0] then [x] + s else [s[0]] + Place(x, s[1..])
  }

  function Sort(s: seq<int>): (r: seq<int>)
    ensures |r| == |s|
  {
    if s == [] then [] else Place(s[0], Sort(s[1..]))
  }

  lemma {:induction false} PlaceBelow(x: int, s: seq<int>, y: int)
    ensures Below(Place(x, s), y) == (if x < y then 1 else 0) + Below(s, y)
  {
    if s == [] || x <= s[0] {
      assert ([x] + s)[1..] == s;
    } else {
      PlaceBelow(x, s[1..], y);
      assert ([s[0]] + Place(x, s[1..]))[1..] == Place(x, s[1..]);
    }
  }

  lemma {:induction false} PlaceSorted(x: int, s: seq<int>)
    requires Sorted(s)
    ensures Sorted(Place(x, s))
    ensures forall i | 0 <= i <= |s| :: Place(x, s)[i] == x || Place(x, s)[i] in s
  {
    if s != [] && s[0] < x {
      PlaceSorted(x, s[1..]);
      var r := Place(x, s[1..]);
      assert forall i | 0 <= i < |s[1..]| :: s[0] <= s[1..][i];
      forall i | 0 <= i < |r| ensures s[0] <= r[i] {
        if r[i] != x { assert r[i] in s[1..]; }
      }
    }
  }

  lemma {:induction false} SortBelow(s: seq<int>, x: int)
    ensures Below(Sort(s), x) == Below(s, x)
  {
    if s != [] {
      SortBelow(s[1..], x);
      PlaceBelow(s[0], Sort(s[1..]), x);
    }
  }

  lemma {:induction false} SortSorted(s: seq<int>)
    ensures Sorted(Sort(s))
  {
    if s != [] {
      SortSorted(s[1..]);
      PlaceSorted(s[0], Sort(s[1..]));
    }
  }

  /** The sorting of `s` is the one sequence in order with the items of `s`. */
  lemma SortIs(s: seq<int>, t: seq<int>)
    requires Sorted(t) && |t| == |s| && forall x :: Below(t, x) == Below(s, x)
    ensures Sort(s) == t
  {
    SortSorted(s);
    forall x ensures Below(Sort(s), x) == Below(t, x) { SortBelow(s, x); }
    SortedUnique(Sort(s), t);
  }

  lemma SortOfSorted(s: seq<int>)
    requires Sorted(s)
    ensures Sort(s) == s
  {
    SortIs(s, s);
  }

  lemma BelowNext(s: seq<int>, i: nat, x: int)
    requires i < |s|
    ensures Below(s[..i + 1], x) == Below(s[..i], x) + (if s[i] < x then 1 else 0)
  {
    assert s[..i + 1] == s[..i] + [s[i]];
    BelowConcat(s[..i], [s[i]], x);
  }

  predicate AtMostAll(s: seq<int>, t: seq<int>) {
    forall n, m | 0 <= n < |s| && 0 <= m < |t| :: s[n] <= t[m]
  }

  ghost predicate Merged(r: seq<int>, a: seq<int>, b: seq<int>) {
    Sorted(r) && |r| == |a| + |b| && forall x :: Below(r, x) == Below(a, x) + Below(b, x)
  }

  /** The merge stands at `i` of `a` and `j` of `b`: what is taken is merged and at most what is left. */
  ghost predicate Merging(r: seq<int>, a: seq<int>, i: nat, b: seq<int>, j: nat) {
    && i <= |a| && j <= |b|
    && Merged(r, a[..i], b[..j])
    && AtMostAll(r, a[i..]) && AtMostAll(r, b[j..])
  }

  lemma MergeNext(r: seq<int>, a: seq<int>, i: nat, b: seq<int>, j: nat)
    requires Merging(r, a, i, b, j) && i < |a| && Sorted(a) && Sorted(b)
    requires j < |b| ==> a[i] <= b[j]
    ensures Merging(r + [a[i]], a, i + 1, b, j)
  {
    var next := r + [a[i]];
    assert a[i..][0] == a[i];
    forall x ensures Below(next, x) == Below(a[..i + 1], x) + Below(b[..j], x) {
      BelowConcat(r, [a[i]], x);
      BelowNext(a, i, x);
    }
    NextAtMost(r, a, i, a, i);
    NextAtMost(r, a, i, b, j);
    var rest := a[i + 1..];
    forall n, m | 0 <= n < |next| && 0 <= m < |rest| ensures next[n] <= rest[m] {
      assert rest[m] == a[i..][m + 1];
    }
  }

  lemma NextAtMost(r: seq<int>, a: seq<int>, i: nat, b: seq<int>, j: nat)
    requires i < |a| && j <= |b| && Sorted(b) && AtMostAll(r, b[j..]) && (j < |b| ==> a[i] <= b[j])
    ensures AtMostAll(r + [a[i]], b[j..])
  {
  }

  lemma MergedIsSort(r: seq<int>, a: seq<int>, b: seq<int>)
    requires Merged(r, a, b)
    ensures r == Sort(a + b)
  {
    forall x ensures Below(r, x) == Below(a + b, x) { BelowConcat(a, b, x); }
    SortIs(a + b, r);
  }

  /** The linear merge of two sequences in order. */
  method MergeSorted(a: seq<int>, b: seq<int>) returns (r: seq<int>)
    requires Sorted(a) && Sorted(b)
    ensures r == Sort(a + b)
  {
    r := [];
    var i, j := 0, 0;
    while i < |a| || j < |b|
      invariant Merging(r, a, i, b, j)
      decreases |a| - i + |b| - j
    {
      if j == |b| || (i < |a| && a[i] <= b[j]) {
        MergeNext(r, a, i, b, j);
        r, i := r + [a[i]], i + 1;
      } else {
        MergeNext(r, b, j, a, i);
        r, j := r + [b[j]], j + 1;
      }
    }
    assert a[..|a|] == a && b[..|b|] == b;
    MergedIsSort(r, a, b);
  }
}
