/** Many callers asking registries for stores at the same time, while `SET` statements change
    the options the stores are built from. Each step below is atomic; any of them may come next. */
module StoreProtocol {
  import opened Wrappers
  import opened StoreBuild
  import opened StoreCache

  datatype Origin = Origin(url: Url, cfg: Option<S3Config>) {
    function Key(): StoreKey { KeyFor(url, cfg) }
  }

  /** A call of `get_store` on an `http`, `https` or `s3` URL. `want` is the URL with the option
      snapshot taken at the start, from which both the key and a build are made. */
  datatype Call =
    | Asked(want: Origin)
    | Missed(want: Origin)
    | Built(want: Origin, store: nat)
    | Returned(want: Origin, store: nat)
    | Rejected(want: Origin)

  /** Stores are numbered in the order they are built; `origins` says what each was built from. */
  datatype State = State(
    cache: seq<Entry>, uses: seq<StoreKey>, origins: seq<Origin>,
    options: map<nat, S3Config>, calls: map<nat, Call>)

  datatype Step =
    | Set(registry: nat, cfg: S3Config)
    | Ask(call: nat, registry: nat, url: Url)
    | LookUp(call: nat)
    | Make(call: nat)
    | Insert(call: nat)

  function Init(options: map<nat, S3Config>): State {
    State([], [], [], options, map[])
  }

  predicate Enabled(s: State, step: Step) {
    match step
    case Set(r, _) => r in s.options
    case Ask(c, r, url) =>
      c !in s.calls && r in s.options && url.WellFormed() && url.scheme in ["http", "https", "s3"]
    case LookUp(c) => c in s.calls && s.calls[c].Asked?
    case Make(c) => c in s.calls && s.calls[c].Missed?
    case Insert(c) => c in s.calls && s.calls[c].Built?
  }

  function Next(w: World, capacity: nat, s: State, step: Step): State
    requires capacity > 0 && Enabled(s, step)
  {
    match step
    case Set(r, cfg) => s.(options := s.options[r := cfg])
    case Ask(c, r, url) =>
      var cfg := if url.scheme == "s3" then Some(s.options[r]) else None;
      s.(calls := s.calls[c := Asked(Origin(url, cfg))])
    case LookUp(c) =>
      var want := s.calls[c].want;
      (match Find(s.cache, want.Key())
       case Some(store) => Used(capacity, s, c, want, store)
       case None => s.(calls := s.calls[c := Missed(want)]))
    case Make(c) =>
      var want := s.calls[c].want;
      if Build(w, want.url, want.cfg).Some? then
        s.(origins := s.origins + [want], calls := s.calls[c := Built(want, |s.origins|)])
      else s.(calls := s.calls[c := Rejected(want)])
    case Insert(c) =>
      var want := s.calls[c].want;
      Used(capacity, s, c, want, s.calls[c].store)
  }

  /** The entry for the key is used, or inserted with `store`, and its store is returned. */
  function Used(capacity: nat, s: State, c: nat, want: Origin, store: nat): State
    requires capacity > 0
  {
    var cache := Touch(capacity, s.cache, want.Key(), store);
    s.(cache := cache, uses := s.uses + [want.Key()], calls := s.calls[c := Returned(want, cache[0].store)])
  }

  // ---------------------------------------------------------------------------
  // What holds in every reachable state
  // ---------------------------------------------------------------------------

  predicate GoodOrigin(w: World, o: Origin) {
    o.url.WellFormed() && Build(w, o.url, o.cfg).Some?
  }

  predicate GoodEntry(s: State, e: Entry) {
    e.store < |s.origins| && s.origins[e.store].Key() == e.key
  }

  predicate GoodCall(s: State, c: Call) {
    && c.want.url.WellFormed()
    && (c.Built? ==> c.store < |s.origins| && s.origins[c.store] == c.want)
    && (c.Returned? ==> c.store < |s.origins| && s.origins[c.store].Key() == c.want.Key())
  }

  /** A store on its way into the cache is known to its builder alone. */
  predicate Private(s: State, c: nat)
    requires c in s.calls && s.calls[c].Built?
  {
    && (forall e <- s.cache :: e.store != s.calls[c].store)
    && (forall d | d in s.calls && d != c && (s.calls[d].Built? || s.calls[d].Returned?) ::
          s.calls[d].store != s.calls[c].store)
  }

  ghost predicate Inv(w: World, capacity: nat, s: State) {
    && capacity > 0
    && Keys(s.cache) == Take(capacity, Recency(s.uses))
    && (forall o <- s.origins :: GoodOrigin(w, o))
    && (forall e <- s.cache :: GoodEntry(s, e))
    && (forall c | c in s.calls :: GoodCall(s, s.calls[c]))
    && (forall c | c in s.calls && s.calls[c].Built? :: Private(s, c))
  }

  lemma UsedKeepsInv(w: World, capacity: nat, s: State, c: nat, store: nat)
    requires Inv(w, capacity, s) && c in s.calls && store < |s.origins|
    requires s.origins[store].Key() == s.calls[c].want.Key()
    requires Find(s.cache, s.calls[c].want.Key()).Some? || (s.calls[c].Built? && s.calls[c].store == store)
    ensures Inv(w, capacity, Used(capacity, s, c, s.calls[c].want, store))
  {
    var want := s.calls[c].want;
    var s' := Used(capacity, s, c, want, store);
    TouchRefinesRecency(capacity, s.cache, s.uses, want.Key(), store);
    forall e | e in s'.cache
      ensures GoodEntry(s', e) && (e in s.cache || (e.store == store && Find(s.cache, want.Key()).None?))
    {
      if e in s.cache { assert GoodEntry(s, e); }
    }
    assert s'.cache[0] in s'.cache;
    forall d | d in s'.calls
      ensures GoodCall(s', s'.calls[d])
    {
      assert GoodCall(s, s.calls[d]);
    }
    forall d | d in s'.calls && s'.calls[d].Built?
      ensures Private(s', d)
    {
      assert Private(s, d);
    }
  }

  lemma MakeKeepsInv(w: World, capacity: nat, s: State, c: nat)
    requires Inv(w, capacity, s) && c in s.calls && s.calls[c].Missed?
    ensures Inv(w, capacity, Next(w, capacity, s, Make(c)))
  {
    var s' := Next(w, capacity, s, Make(c));
    assert GoodCall(s, s.calls[c]);
    forall e | e in s'.cache ensures GoodEntry(s', e) && e.store < |s.origins| { assert GoodEntry(s, e); }
    forall d | d in s'.calls
      ensures GoodCall(s', s'.calls[d])
    {
      assert GoodCall(s, s.calls[d]);
    }
    forall d | d in s'.calls && s'.calls[d].Built?
      ensures Private(s', d)
    {
      assert forall x | x in s.calls :: GoodCall(s, s.calls[x]);
      if d != c { assert Private(s, d); }
    }
  }

  lemma StepKeepsInv(w: World, capacity: nat, s: State, step: Step)
    requires Inv(w, capacity, s) && Enabled(s, step)
    ensures Inv(w, capacity, Next(w, capacity, s, step))
  {
    var s' := Next(w, capacity, s, step);
    match step {
      case Set(_, _) => CallsOnly(w, capacity, s, s');
      case Ask(_, _, _) => CallsOnly(w, capacity, s, s');
      case Make(c) => MakeKeepsInv(w, capacity, s, c);
      case Insert(c) =>
        assert GoodCall(s, s.calls[c]);
        UsedKeepsInv(w, capacity, s, c, s.calls[c].store);
      case LookUp(c) =>
        var found := Find(s.cache, s.calls[c].want.Key());
        assert GoodCall(s, s.calls[c]);
        if found.Some? {
          assert GoodEntry(s, Entry(s.calls[c].want.Key(), found.value));
          UsedKeepsInv(w, capacity, s, c, found.value);
        } else {
          CallsOnly(w, capacity, s, s');
        }
    }
  }

  /** Steps that touch neither the cache nor any store. */
  lemma CallsOnly(w: World, capacity: nat, s: State, s': State)
    requires Inv(w, capacity, s)
    requires s'.cache == s.cache && s'.uses == s.uses && s'.origins == s.origins
    requires forall c | c in s'.calls ::
      (c in s.calls && s'.calls[c] == s.calls[c]) || ((s'.calls[c].Asked? || s'.calls[c].Missed?) && s'.calls[c].want.url.WellFormed())
    ensures Inv(w, capacity, s')
  {
    forall e | e in s'.cache ensures GoodEntry(s', e) { assert GoodEntry(s, e); }
    forall c | c in s'.calls ensures GoodCall(s', s'.calls[c]) {
      if c in s.calls { assert GoodCall(s, s.calls[c]); }
    }
    forall c | c in s'.calls && s'.calls[c].Built? ensures Private(s', c) { assert Private(s, c); }
  }

  // ---------------------------------------------------------------------------
  // Whole runs
  // ---------------------------------------------------------------------------

  predicate StepsAt(w: World, capacity: nat, states: seq<State>, steps: seq<Step>, i: nat)
    requires capacity > 0 && i < |steps| < |states|
  {
    Enabled(states[i], steps[i]) && states[i + 1] == Next(w, capacity, states[i], steps[i])
  }

  /** States and the steps between them, from an empty cache. */
  ghost predicate IsRun(w: World, capacity: nat, states: seq<State>, steps: seq<Step>) {
    && capacity > 0
    && |states| == |steps| + 1
    && states[0] == Init(states[0].options)
    && forall i: nat | i < |steps| :: StepsAt(w, capacity, states, steps, i)
  }

  lemma {:induction false} RunKeepsInv(w: World, capacity: nat, states: seq<State>, steps: seq<Step>, i: nat)
    requires IsRun(w, capacity, states, steps) && i < |states|
    ensures Inv(w, capacity, states[i])
  {
    if i > 0 {
      RunKeepsInv(w, capacity, states, steps, i - 1);
      assert StepsAt(w, capacity, states, steps, i - 1);
      StepKeepsInv(w, capacity, states[i - 1], steps[i - 1]);
    }
  }

  /** The cache never changes what a caller gets: whatever the interleaving and the `SET`
      statements in between, a returned store equals one built afresh from the caller's own URL
      and option snapshot. Callers that share a store have the same key, hence the same options. */
  lemma CacheIsTransparent(w: World, capacity: nat, states: seq<State>, steps: seq<Step>, i: nat, c: nat)
    requires IsRun(w, capacity, states, steps) && i < |states|
    requires c in states[i].calls && states[i].calls[c].Returned?
    ensures var s := states[i];
      var want, store := s.calls[c].want, s.calls[c].store;
      && store < |s.origins|
      && Build(w, want.url, want.cfg).Some?
      && Build(w, want.url, want.cfg) == Build(w, s.origins[store].url, s.origins[store].cfg)
      && forall d | d in s.calls && s.calls[d].Returned? && s.calls[d].store == store ::
           s.calls[d].want.cfg == want.cfg && s.calls[d].want.url.host == want.url.host
  {
    RunKeepsInv(w, capacity, states, steps, i);
    var s := states[i];
    var want, store := s.calls[c].want, s.calls[c].store;
    assert GoodCall(s, s.calls[c]);
    var o := s.origins[store];
    assert GoodOrigin(w, o);
    KeyDeterminesBuild(w, want.url, o.url, want.cfg, o.cfg);
    forall d | d in s.calls && s.calls[d].Returned? && s.calls[d].store == store
      ensures s.calls[d].want.cfg == want.cfg && s.calls[d].want.url.host == want.url.host
    {
      assert GoodCall(s, s.calls[d]);
      KeyDeterminesBuild(w, want.url, s.calls[d].want.url, want.cfg, s.calls[d].want.cfg);
    }
  }

  /** Size, one store per key, and the order of eviction, in every reachable state. */
  lemma CacheIsBoundedRecency(w: World, capacity: nat, states: seq<State>, steps: seq<Step>, i: nat)
    requires IsRun(w, capacity, states, steps) && i < |states|
    ensures var s := states[i];
      |s.cache| <= capacity && Distinct(Keys(s.cache)) && Keys(s.cache) == Take(capacity, Recency(s.uses))
  {
    RunKeepsInv(w, capacity, states, steps, i);
    RecencyDistinct(states[i].uses);
  }

  /** A build that fails leaves the cache as it was. */
  lemma FailedBuildInsertsNothing(w: World, capacity: nat, s: State, step: Step, c: nat)
    requires capacity > 0 && Enabled(s, step) && (c in s.calls ==> !s.calls[c].Rejected?)
    requires var s' := Next(w, capacity, s, step); c in s'.calls && s'.calls[c].Rejected?
    ensures var s' := Next(w, capacity, s, step);
      s'.cache == s.cache && s'.uses == s.uses && s'.origins == s.origins && Build(w, s'.calls[c].want.url, s'.calls[c].want.cfg).None?
  {
  }

  // ---------------------------------------------------------------------------
  // Agreement between callers
  // ---------------------------------------------------------------------------

  predicate Holds(s: State, k: StoreKey) {
    Find(s.cache, k).Some?
  }

  /** Step `i - 1` of the run returns `store` to caller `c`. */
  ghost predicate ReturnsAt(states: seq<State>, steps: seq<Step>, i: nat, c: nat, k: StoreKey, store: nat)
    requires |states| == |steps| + 1
  {
    && 0 < i < |states|
    && (steps[i - 1] == LookUp(c) || steps[i - 1] == Insert(c))
    && c in states[i].calls && states[i].calls[c].Returned?
    && states[i].calls[c].want.Key() == k && states[i].calls[c].store == store
  }

  lemma ReturnedIsCached(w: World, capacity: nat, states: seq<State>, steps: seq<Step>, i: nat, c: nat, k: StoreKey, store: nat)
    requires IsRun(w, capacity, states, steps) && ReturnsAt(states, steps, i, c, k, store)
    ensures Find(states[i].cache, k) == Some(store)
  {
    assert StepsAt(w, capacity, states, steps, i - 1);
  }

  lemma {:induction false} FindUnique(entries: seq<Entry>, i: nat)
    requires i < |entries| && Distinct(Keys(entries))
    ensures Find(entries, entries[i].key) == Some(entries[i].store)
  {
    if i > 0 {
      assert Keys(entries)[0] != Keys(entries)[i];
      assert Distinct(Keys(entries[1..])) by {
        assert forall j | 0 <= j < |entries[1..]| :: Keys(entries[1..])[j] == Keys(entries)[j + 1];
      }
      FindUnique(entries[1..], i - 1);
    }
  }

  lemma TouchKeepsStore(capacity: nat, entries: seq<Entry>, used: StoreKey, store: nat, k: StoreKey)
    requires capacity > 0 && Distinct(Keys(entries))
    requires Find(entries, k).Some? && Find(Touch(capacity, entries, used, store), k).Some?
    ensures Find(Touch(capacity, entries, used, store), k) == Find(entries, k)
  {
    if used != k {
      var e := Entry(k, Find(Touch(capacity, entries, used, store), k).value);
      assert e in entries;
      var i :| 0 <= i < |entries| && entries[i] == e;
      FindUnique(entries, i);
    }
  }

  /** While a key stays cached, it stays cached with the same store. */
  lemma StepKeepsStore(w: World, capacity: nat, s: State, step: Step, k: StoreKey)
    requires capacity > 0 && Distinct(Keys(s.cache)) && Enabled(s, step)
    requires Holds(s, k) && Holds(Next(w, capacity, s, step), k)
    ensures Find(Next(w, capacity, s, step).cache, k) == Find(s.cache, k)
  {
    if step.Insert? {
      TouchKeepsStore(capacity, s.cache, s.calls[step.call].want.Key(), s.calls[step.call].store, k);
    } else if step.LookUp? {
      var used := s.calls[step.call].want.Key();
      var found := Find(s.cache, used);
      if found.Some? { TouchKeepsStore(capacity, s.cache, used, found.value, k); }
    }
  }

  lemma RunStepKeepsStore(w: World, capacity: nat, states: seq<State>, steps: seq<Step>, m: nat, k: StoreKey)
    requires IsRun(w, capacity, states, steps) && m < |steps| && Holds(states[m], k) && Holds(states[m + 1], k)
    ensures Find(states[m + 1].cache, k) == Find(states[m].cache, k)
  {
    CacheIsBoundedRecency(w, capacity, states, steps, m);
    assert StepsAt(w, capacity, states, steps, m);
    StepKeepsStore(w, capacity, states[m], steps[m], k);
  }

  /** No cache entry and no caller on its way to inserting has the store. */
  predicate Gone(s: State, store: nat) {
    && store < |s.origins|
    && (forall e <- s.cache :: e.store != store)
    && (forall c | c in s.calls && s.calls[c].Built? :: s.calls[c].store != store)
  }

  lemma StepKeepsGone(w: World, capacity: nat, s: State, step: Step, store: nat)
    requires capacity > 0 && Enabled(s, step) && Gone(s, store)
    ensures Gone(Next(w, capacity, s, step), store)
  {
    var s' := Next(w, capacity, s, step);
    if step.LookUp? || step.Insert? {
      forall e | e in s'.cache ensures e.store != store {
        if e !in s.cache { assert s'.cache[0] == e; }
      }
    }
  }

  lemma {:induction false} StoreStays(w: World, capacity: nat, states: seq<State>, steps: seq<Step>, i: nat, j: nat, k: StoreKey)
    requires IsRun(w, capacity, states, steps) && i <= j < |states|
    requires forall m | i <= m <= j :: Holds(states[m], k)
    ensures Find(states[j].cache, k) == Find(states[i].cache, k)
    decreases j
  {
    if i < j {
      StoreStays(w, capacity, states, steps, i, j - 1, k);
      RunStepKeepsStore(w, capacity, states, steps, j - 1, k);
    }
  }

  lemma {:induction false} GoneStays(w: World, capacity: nat, states: seq<State>, steps: seq<Step>, i: nat, j: nat, store: nat)
    requires IsRun(w, capacity, states, steps) && i <= j < |states| && Gone(states[i], store)
    ensures Gone(states[j], store)
    decreases j
  {
    if i < j {
      GoneStays(w, capacity, states, steps, i, j - 1, store);
      assert StepsAt(w, capacity, states, steps, j - 1);
      StepKeepsGone(w, capacity, states[j - 1], steps[j - 1], store);
    }
  }

  /** Once a returned store is not being inserted by anyone, it never is again. */
  lemma {:induction false} NotBuiltStays(w: World, capacity: nat, states: seq<State>, steps: seq<Step>, i: nat, j: nat, store: nat)
    requires IsRun(w, capacity, states, steps) && i <= j < |states| && store < |states[i].origins|
    requires forall c | c in states[i].calls && states[i].calls[c].Built? :: states[i].calls[c].store != store
    ensures store < |states[j].origins|
    ensures forall c | c in states[j].calls && states[j].calls[c].Built? :: states[j].calls[c].store != store
    decreases j
  {
    if i < j {
      NotBuiltStays(w, capacity, states, steps, i, j - 1, store);
      assert StepsAt(w, capacity, states, steps, j - 1);
    }
  }

  /** Two callers with one key get the same store exactly when the key stays cached from the
      first return to the second. In particular all callers that miss a key together agree
      unless that key is evicted between their inserts. */
  lemma CallersAgreeIff(w: World, capacity: nat, states: seq<State>, steps: seq<Step>,
                        i: nat, j: nat, c: nat, d: nat, k: StoreKey, store: nat, other: nat)
    requires IsRun(w, capacity, states, steps) && i <= j
    requires ReturnsAt(states, steps, i, c, k, store) && ReturnsAt(states, steps, j, d, k, other)
    ensures store == other <==> forall m | i <= m <= j :: Holds(states[m], k)
  {
    ReturnedIsCached(w, capacity, states, steps, i, c, k, store);
    ReturnedIsCached(w, capacity, states, steps, j, d, k, other);
    if forall m | i <= m <= j :: Holds(states[m], k) {
      StoreStays(w, capacity, states, steps, i, j, k);
    } else {
      var m :| i <= m <= j && !Holds(states[m], k);
      EvictedStoreIsGone(w, capacity, states, steps, i, m, k, store);
      GoneStays(w, capacity, states, steps, m, j, store);
      assert Entry(k, other) in states[j].cache;
    }
  }

  lemma EvictedStoreIsGone(w: World, capacity: nat, states: seq<State>, steps: seq<Step>, i: nat, m: nat, k: StoreKey, store: nat)
    requires IsRun(w, capacity, states, steps) && i <= m < |states|
    requires Find(states[i].cache, k) == Some(store) && !Holds(states[m], k)
    ensures Gone(states[m], store)
  {
    var s, t := states[i], states[m];
    RunKeepsInv(w, capacity, states, steps, i);
    RunKeepsInv(w, capacity, states, steps, m);
    var e := Entry(k, store);
    assert e in s.cache && GoodEntry(s, e);
    forall x | x in s.calls && s.calls[x].Built? ensures s.calls[x].store != store { assert Private(s, x); }
    NotBuiltStays(w, capacity, states, steps, i, m, store);
    OriginsGrow(w, capacity, states, steps, i, m);
    forall f | f in t.cache ensures f.store != store {
      assert GoodEntry(t, f);
      var n :| 0 <= n < |t.cache| && t.cache[n] == f;
      assert f.key in Keys(t.cache) by { assert Keys(t.cache)[n] == f.key; }
      FindKeys(t.cache, f.key);
    }
  }

  lemma {:induction false} OriginsGrow(w: World, capacity: nat, states: seq<State>, steps: seq<Step>, i: nat, j: nat)
    requires IsRun(w, capacity, states, steps) && i <= j < |states|
    ensures states[i].origins <= states[j].origins
    decreases j
  {
    if i < j {
      OriginsGrow(w, capacity, states, steps, i, j - 1);
      assert StepsAt(w, capacity, states, steps, j - 1);
    }
  }
}
