/** The process-wide store cache: a bounded least-recently-used list behind a lock. Looking up,
    building and inserting are separate steps, and only the first and the last hold the lock. */
module StoreCache {
  import opened Wrappers
  import opened StoreBuild

  /** A store is known by its number: sharing a store means having the same number. */
  datatype Entry = Entry(key: StoreKey, store: nat)

  // ---------------------------------------------------------------------------
  // The list under the lock, most recently used first
  // ---------------------------------------------------------------------------

  function Keys(entries: seq<Entry>): (r: seq<StoreKey>)
    ensures |r| == |entries| && forall i | 0 <= i < |r| :: r[i] == entries[i].key
  {
    seq(|entries|, i requires 0 <= i < |entries| => entries[i].key)
  }

  function Find(entries: seq<Entry>, k: StoreKey): (r: Option<nat>)
    ensures r.Some? ==> Entry(k, r.value) in entries
  {
    if entries == [] then None
    else if entries[0].key == k then Some(entries[0].store)
    else Find(entries[1..], k)
  }

  lemma {:induction false} FindKeys(entries: seq<Entry>, k: StoreKey)
    ensures Find(entries, k).Some? <==> k in Keys(entries)
  {
    if entries != [] && entries[0].key != k {
      FindKeys(entries[1..], k);
      assert Keys(entries)[1..] == Keys(entries[1..]);
    }
  }

  function Others(entries: seq<Entry>, k: StoreKey): (r: seq<Entry>)
    ensures |r| <= |entries|
    ensures forall e :: e in r <==> e in entries && e.key != k
    ensures Find(entries, k).Some? ==> |r| < |entries|
  {
    if entries == [] then []
    else if entries[0].key == k then Others(entries[1..], k)
    else [entries[0]] + Others(entries[1..], k)
  }

  /** A successful lookup or insert makes its entry the most recent one. */
  function Touch(capacity: nat, entries: seq<Entry>, k: StoreKey, store: nat): seq<Entry>
    requires capacity > 0
  {
    match Find(entries, k)
    case Some(kept) => [Entry(k, kept)] + Others(entries, k)
    case None =>
      [Entry(k, store)] + if |entries| < capacity then entries else entries[..capacity - 1]
  }

  // ---------------------------------------------------------------------------
  // Reference: an unbounded list of keys in order of last use
  // ---------------------------------------------------------------------------

  function Without(keys: seq<StoreKey>, k: StoreKey): (r: seq<StoreKey>)
    ensures forall x :: x in r <==> x in keys && x != k
  {
    if keys == [] then []
    else if keys[0] == k then Without(keys[1..], k)
    else [keys[0]] + Without(keys[1..], k)
  }

  function Recency(uses: seq<StoreKey>): seq<StoreKey> {
    if uses == [] then []
    else var k := uses[|uses| - 1]; [k] + Without(Recency(uses[..|uses| - 1]), k)
  }

  function Take(n: nat, keys: seq<StoreKey>): seq<StoreKey> {
    if |keys| <= n then keys else keys[..n]
  }

  predicate Distinct(keys: seq<StoreKey>) {
    forall i, j | 0 <= i < j < |keys| :: keys[i] != keys[j]
  }

  lemma {:induction false} WithoutConcat(a: seq<StoreKey>, b: seq<StoreKey>, k: StoreKey)
    ensures Without(a + b, k) == Without(a, k) + Without(b, k)
  {
    if a == [] {
      assert a + b == b;
    } else {
      assert (a + b)[1..] == a[1..] + b;
      WithoutConcat(a[1..], b, k);
    }
  }

  lemma {:induction false} WithoutAbsent(a: seq<StoreKey>, k: StoreKey)
    requires k !in a
    ensures Without(a, k) == a
  {
    if a != [] { WithoutAbsent(a[1..], k); }
  }

  lemma {:induction false} WithoutDistinct(a: seq<StoreKey>, k: StoreKey)
    requires Distinct(a)
    ensures Distinct(Without(a, k))
    ensures if k in a then |Without(a, k)| == |a| - 1 else Without(a, k) == a
  {
    if k !in a {
      WithoutAbsent(a, k);
    } else if a[0] == k {
      WithoutAbsent(a[1..], k);
    } else {
      WithoutDistinct(a[1..], k);
      var r := Without(a[1..], k);
      assert forall j | 0 <= j < |r| :: r[j] in a[1..];
    }
  }

  lemma {:induction false} RecencyDistinct(uses: seq<StoreKey>)
    ensures Distinct(Recency(uses))
  {
    if uses != [] {
      RecencyDistinct(uses[..|uses| - 1]);
      WithoutDistinct(Recency(uses[..|uses| - 1]), uses[|uses| - 1]);
      var r := Without(Recency(uses[..|uses| - 1]), uses[|uses| - 1]);
      assert forall j | 0 <= j < |r| :: r[j] in r;
    }
  }

  lemma {:induction false} KeysOfOthers(entries: seq<Entry>, k: StoreKey)
    ensures Keys(Others(entries, k)) == Without(Keys(entries), k)
  {
    if entries != [] {
      KeysOfOthers(entries[1..], k);
      assert Keys(entries)[1..] == Keys(entries[1..]);
    }
  }

  /** Forgetting all but the first `n` keys commutes with using a key. */
  lemma TakeAfterUse(n: nat, keys: seq<StoreKey>, k: StoreKey)
    requires n > 0 && Distinct(keys)
    ensures Take(n, [k] + Without(keys, k)) ==
      if k in Take(n, keys) then [k] + Without(Take(n, keys), k) else [k] + Take(n - 1, keys)
  {
    var a := Take(n, keys);
    var b := keys[|a|..];
    assert keys == a + b;
    WithoutConcat(a, b, k);
    WithoutDistinct(a, k);
    var x, y := Without(a, k), Without(b, k);
    if |keys| <= n {
      assert y == [];
      assert |a| == n ==> a[..n - 1] == keys[..n - 1];
    } else {
      assert ([k] + (x + y))[..n] == [k] + (x + y)[..n - 1];
    }
  }

  lemma KeysOfHit(entries: seq<Entry>, k: StoreKey, store: nat)
    ensures Keys([Entry(k, store)] + Others(entries, k)) == [k] + Without(Keys(entries), k)
  {
    KeysOfOthers(entries, k);
  }

  lemma KeysOfMiss(capacity: nat, entries: seq<Entry>, k: StoreKey, store: nat)
    requires capacity > 0 && |entries| <= capacity
    ensures var kept := if |entries| < capacity then entries else entries[..capacity - 1];
      Keys([Entry(k, store)] + kept) == [k] + Take(capacity - 1, Keys(entries))
  {
  }

  lemma TakeShorter(n: nat, keys: seq<StoreKey>)
    requires n > 0
    ensures Take(n - 1, Take(n, keys)) == Take(n - 1, keys)
  {
  }

  /** The bounded cache is the unbounded recency list with its tail cut off. */
  lemma TouchRefinesRecency(capacity: nat, entries: seq<Entry>, uses: seq<StoreKey>, k: StoreKey, store: nat)
    requires capacity > 0 && Keys(entries) == Take(capacity, Recency(uses))
    ensures Keys(Touch(capacity, entries, k, store)) == Take(capacity, Recency(uses + [k]))
  {
    var keys := Recency(uses);
    assert (uses + [k])[..|uses|] == uses;
    RecencyDistinct(uses);
    TakeAfterUse(capacity, keys, k);
    FindKeys(entries, k);
    match Find(entries, k)
    case Some(kept) => KeysOfHit(entries, k, kept);
    case None =>
      KeysOfMiss(capacity, entries, k, store);
      TakeShorter(capacity, keys);
  }

  // ---------------------------------------------------------------------------
  // One caller at a time
  // ---------------------------------------------------------------------------

  class Cache {
    const capacity: nat
    var stores: seq<Entry>
    /** The keys of all successful lookups and inserts, oldest first. */
    ghost var uses: seq<StoreKey>

    ghost predicate Valid()
      reads this
    {
      capacity > 0 && Keys(stores) == Take(capacity, Recency(uses))
    }

    constructor (capacity: nat)
      requires capacity > 0
      ensures Valid() && this.capacity == capacity && stores == []
    {
      this.capacity, stores, uses := capacity, [], [];
    }

    /** `lock().get(&key)` */
    method Get(key: StoreKey) returns (found: Option<nat>)
      requires Valid()
      modifies this
      ensures Valid() && found == Find(old(stores), key)
      ensures uses == if found.Some? then old(uses) + [key] else old(uses)
      ensures stores == if found.Some? then Touch(capacity, old(stores), key, 0) else old(stores)
    {
      found := Find(stores, key);
      if found.Some? {
        TouchRefinesRecency(capacity, stores, uses, key, 0);
        stores, uses := Touch(capacity, stores, key, 0), uses + [key];
      }
    }

    /** `lock().get_or_insert(key, || store)` */
    method GetOrInsert(key: StoreKey, store: nat) returns (kept: nat)
      requires Valid()
      modifies this
      ensures Valid() && uses == old(uses) + [key] && stores == Touch(capacity, old(stores), key, store)
      ensures kept == (if Find(old(stores), key).Some? then Find(old(stores), key).value else store)
    {
      var found := Find(stores, key);
      TouchRefinesRecency(capacity, stores, uses, key, store);
      stores, uses := Touch(capacity, stores, key, store), uses + [key];
      kept := if found.Some? then found.value else store;
    }

    /** A call without interference; `built` is what building would give. */
    method GetOrBuild(key: StoreKey, built: Option<nat>) returns (r: Option<nat>)
      requires Valid()
      modifies this
      ensures Valid() && |stores| <= capacity
      ensures r == if Find(old(stores), key).Some? then Find(old(stores), key) else built
      ensures r.None? ==> stores == old(stores)
      ensures r.Some? ==> stores != [] && stores[0] == Entry(key, r.value) && uses == old(uses) + [key]
    {
      r := Get(key);
      if r.None? && built.Some? {
        var kept := GetOrInsert(key, built.value);
        r := Some(kept);
      }
    }
  }
}
