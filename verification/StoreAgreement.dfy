/** When callers that ask for one key get one store, told by the keys used in between. */
module StoreAgreement {
  import opened StoreBuild
  import opened StoreCache
  import opened StoreProtocol

  // ---------------------------------------------------------------------------
  // A key's place in the order of last use
  // ---------------------------------------------------------------------------

  /** The other keys used since the last use of `k`. */
  function Since(uses: seq<StoreKey>, k: StoreKey): (r: set<StoreKey>)
    ensures k !in r
  {
    if uses == [] then {}
    else
      var last := uses[|uses| - 1];
      if last == k then {} else Since(uses[..|uses| - 1], k) + {last}
  }

  /** Only keys used since `k` come before it. */
  ghost predicate PlacedAt(keys: seq<StoreKey>, k: StoreKey, before: set<StoreKey>) {
    |before| < |keys| && keys[|before|] == k && forall x :: x in keys[..|before|] <==> x in before
  }

  lemma PlacedBefore(a: seq<StoreKey>, before: set<StoreKey>, last: StoreKey)
    requires Distinct(a) && |a| == |before| && forall x :: x in a <==> x in before
    ensures |Without(a, last)| + 1 == |before + {last}|
    ensures forall x :: x in [last] + Without(a, last) <==> x in before + {last}
  {
    WithoutDistinct(a, last);
    if last in a { assert before + {last} == before; }
  }

  /** The keys up to `k` and from `k` on. */
  lemma PlaceSplits(keys: seq<StoreKey>, k: StoreKey, before: set<StoreKey>, a: seq<StoreKey>, b: seq<StoreKey>)
    requires Distinct(keys) && PlacedAt(keys, k, before) && a == keys[..|before|] && b == keys[|before|..]
    ensures keys == a + b && Distinct(a) && |a| == |before| && b != [] && b[0] == k && forall x :: x in a <==> x in before
  {
  }

  lemma PlaceMoves(keys: seq<StoreKey>, k: StoreKey, before: set<StoreKey>, last: StoreKey)
    requires Distinct(keys) && PlacedAt(keys, k, before) && last != k
    ensures PlacedAt([last] + Without(keys, last), k, before + {last})
  {
    var a, b := keys[..|before|], keys[|before|..];
    PlaceSplits(keys, k, before, a, b);
    MoveToFront(a, b, k, before, last);
  }

  lemma FrontIs(a: seq<StoreKey>, b: seq<StoreKey>, k: StoreKey, last: StoreKey)
    requires b != [] && b[0] == k && last != k
    ensures [last] + Without(a + b, last) == [last] + Without(a, last) + Without(b, last)
    ensures Without(b, last) != [] && Without(b, last)[0] == k
  {
    WithoutConcat(a, b, last);
    assert [last] + (Without(a, last) + Without(b, last)) == [last] + Without(a, last) + Without(b, last);
  }

  lemma MoveToFront(a: seq<StoreKey>, b: seq<StoreKey>, k: StoreKey, before: set<StoreKey>, last: StoreKey)
    requires Distinct(a) && |a| == |before| && b != [] && b[0] == k && last != k && forall x :: x in a <==> x in before
    ensures PlacedAt([last] + Without(a + b, last), k, before + {last})
  {
    FrontIs(a, b, k, last);
    PlacedBefore(a, before, last);
    PlacedAfter([last] + Without(a, last), Without(b, last), k, before + {last});
  }

  lemma PlacedAfter(x: seq<StoreKey>, y: seq<StoreKey>, k: StoreKey, before: set<StoreKey>)
    requires |x| == |before| && y != [] && y[0] == k && forall z :: z in x <==> z in before
    ensures PlacedAt(x + y, k, before)
  {
    assert (x + y)[..|x|] == x;
  }

  /** The number of distinct other keys used since a key's last use is its place in the order. */
  lemma {:induction false} PlaceIsSince(uses: seq<StoreKey>, k: StoreKey)
    requires k in uses
    ensures PlacedAt(Recency(uses), k, Since(uses, k))
  {
    var last, earlier := uses[|uses| - 1], uses[..|uses| - 1];
    assert uses == earlier + [last];
    if last == k {
      assert Recency(uses)[..0] == [];
    } else {
      PlaceIsSince(earlier, k);
      RecencyDistinct(earlier);
      PlaceMoves(Recency(earlier), k, Since(earlier, k), last);
    }
  }

  lemma {:induction false} RecencyHolds(uses: seq<StoreKey>, k: StoreKey)
    ensures k in Recency(uses) <==> k in uses
  {
    if uses != [] {
      RecencyHolds(uses[..|uses| - 1], k);
      assert uses == uses[..|uses| - 1] + [uses[|uses| - 1]];
    }
  }

  /** A key is among the `n` most recent exactly when it was used and fewer than `n` others since. */
  lemma KeptIff(n: nat, uses: seq<StoreKey>, k: StoreKey)
    ensures k in Take(n, Recency(uses)) <==> k in uses && |Since(uses, k)| < n
  {
    RecencyHolds(uses, k);
    if k in uses {
      PlaceIsSince(uses, k);
      RecencyDistinct(uses);
      var keys, place := Recency(uses), |Since(uses, k)|;
      if n <= place { assert k !in keys[..place]; assert forall x | x in keys[..n] :: x in keys[..place]; }
    }
  }

  // ---------------------------------------------------------------------------
  // Callers
  // ---------------------------------------------------------------------------

  lemma HoldsIff(w: World, capacity: nat, states: seq<State>, steps: seq<Step>, m: nat, k: StoreKey)
    requires IsRun(w, capacity, states, steps) && m < |states|
    ensures Holds(states[m], k) <==> k in states[m].uses && |Since(states[m].uses, k)| < capacity
  {
    CacheIsBoundedRecency(w, capacity, states, steps, m);
    FindKeys(states[m].cache, k);
    KeptIff(capacity, states[m].uses, k);
  }

  lemma UsesGrow(w: World, capacity: nat, states: seq<State>, steps: seq<Step>, m: nat)
    requires IsRun(w, capacity, states, steps) && m < |steps|
    ensures states[m].uses <= states[m + 1].uses && |states[m + 1].uses| <= |states[m].uses| + 1
  {
    assert StepsAt(w, capacity, states, steps, m);
  }

  lemma {:induction false} UsesBetween(w: World, capacity: nat, states: seq<State>, steps: seq<Step>, i: nat, j: nat)
    requires IsRun(w, capacity, states, steps) && i <= j < |states|
    ensures states[i].uses <= states[j].uses
    ensures forall u | |states[i].uses| <= u <= |states[j].uses| :: exists m | i <= m <= j :: states[m].uses == states[j].uses[..u]
    decreases j
  {
    if i < j {
      UsesBetween(w, capacity, states, steps, i, j - 1);
      UsesGrow(w, capacity, states, steps, j - 1);
      forall u | |states[i].uses| <= u <= |states[j].uses|
        ensures exists m | i <= m <= j :: states[m].uses == states[j].uses[..u]
      {
        if u <= |states[j - 1].uses| {
          var m :| i <= m <= j - 1 && states[m].uses == states[j - 1].uses[..u];
          assert states[j].uses[..u] == states[j - 1].uses[..u];
        } else {
          assert states[j].uses[..u] == states[j].uses;
        }
      }
    } else {
      assert states[j].uses[..|states[j].uses|] == states[j].uses;
    }
  }

  /** Two callers with one key get the same store exactly when, from the first return to the
      second, there are never as many distinct other keys used since the key's last use as the
      cache has room for. */
  lemma CallersAgreeByUses(w: World, capacity: nat, states: seq<State>, steps: seq<Step>,
                           i: nat, j: nat, c: nat, d: nat, k: StoreKey, store: nat, other: nat)
    requires IsRun(w, capacity, states, steps) && i <= j
    requires ReturnsAt(states, steps, i, c, k, store) && ReturnsAt(states, steps, j, d, k, other)
    ensures |states[i].uses| <= |states[j].uses|
    ensures store == other <==>
      forall u | |states[i].uses| <= u <= |states[j].uses| :: |Since(states[j].uses[..u], k)| < capacity
  {
    CallersAgreeIff(w, capacity, states, steps, i, j, c, d, k, store, other);
    UsesBetween(w, capacity, states, steps, i, j);
    ReturnedIsCached(w, capacity, states, steps, i, c, k, store);
    HoldsIff(w, capacity, states, steps, i, k);
    forall m | i <= m <= j
      ensures |states[i].uses| <= |states[m].uses| <= |states[j].uses|
      ensures states[m].uses == states[j].uses[..|states[m].uses|]
      ensures Holds(states[m], k) <==> |Since(states[m].uses, k)| < capacity
    {
      UsesBetween(w, capacity, states, steps, i, m);
      UsesBetween(w, capacity, states, steps, m, j);
      HoldsIff(w, capacity, states, steps, m, k);
    }
    if forall m | i <= m <= j :: Holds(states[m], k) {
      forall u | |states[i].uses| <= u <= |states[j].uses| ensures |Since(states[j].uses[..u], k)| < capacity {
        var m :| i <= m <= j && states[m].uses == states[j].uses[..u];
        assert Holds(states[m], k);
      }
    }
  }
}
