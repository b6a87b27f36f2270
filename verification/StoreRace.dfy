/** Callers that miss a key together and get different stores, for a cache of any size. */
module StoreRace {
  import opened Wrappers
  import opened StoreBuild
  import opened StoreCache
  import opened StoreProtocol
  import opened StoreAgreement

  // ---------------------------------------------------------------------------
  // Making a run longer
  // ---------------------------------------------------------------------------

  function Now(states: seq<State>): State
    requires states != []
  {
    states[|states| - 1]
  }

  lemma Append(w: World, capacity: nat, states: seq<State>, steps: seq<Step>, step: Step, to: State)
    requires IsRun(w, capacity, states, steps) && Enabled(Now(states), step) && to == Next(w, capacity, Now(states), step)
    ensures IsRun(w, capacity, states + [to], steps + [step])
  {
    var more, taken := states + [to], steps + [step];
    forall i: nat | i < |taken| ensures StepsAt(w, capacity, more, taken, i) {
      if i < |steps| { assert StepsAt(w, capacity, states, steps, i); }
    }
  }

  lemma ReturnsStay(states: seq<State>, steps: seq<Step>, more: seq<State>, taken: seq<Step>, i: nat, c: nat, k: StoreKey, store: nat)
    requires |states| == |steps| + 1 && |more| == |taken| + 1 && states <= more && steps <= taken
    requires ReturnsAt(states, steps, i, c, k, store)
    ensures ReturnsAt(more, taken, i, c, k, store)
  {
    assert more[i] == states[i] && taken[i - 1] == steps[i - 1];
  }

  predicate Http(w: World, u: Url) {
    u.WellFormed() && u.scheme == "http" && Build(w, u, None).Some?
  }

  function KeyOf(u: Url): StoreKey {
    KeyFor(u, None)
  }

  lemma AskGoes(w: World, capacity: nat, s: State, c: nat, u: Url)
    requires capacity > 0 && 0 in s.options && Http(w, u) && c !in s.calls
    ensures Enabled(s, Ask(c, 0, u)) && Next(w, capacity, s, Ask(c, 0, u)) == s.(calls := s.calls[c := Asked(Origin(u, None))])
  {
  }

  lemma LookUpGoes(w: World, capacity: nat, s: State, c: nat)
    requires capacity > 0 && c in s.calls && s.calls[c].Asked? && !Holds(s, s.calls[c].want.Key())
    ensures Enabled(s, LookUp(c)) && Next(w, capacity, s, LookUp(c)) == s.(calls := s.calls[c := Missed(s.calls[c].want)])
  {
  }

  lemma MakeGoes(w: World, capacity: nat, s: State, c: nat)
    requires capacity > 0 && c in s.calls && s.calls[c].Missed? && Build(w, s.calls[c].want.url, s.calls[c].want.cfg).Some?
    ensures Enabled(s, Make(c)) && Next(w, capacity, s, Make(c)) ==
      s.(origins := s.origins + [s.calls[c].want], calls := s.calls[c := Built(s.calls[c].want, |s.origins|)])
  {
  }

  lemma InsertGoes(w: World, capacity: nat, s: State, c: nat)
    requires capacity > 0 && c in s.calls && s.calls[c].Built? && !Holds(s, s.calls[c].want.Key())
    ensures Enabled(s, Insert(c))
    ensures var want, to := s.calls[c].want, Next(w, capacity, s, Insert(c));
      && to.uses == s.uses + [want.Key()] && to.options == s.options && to.origins == s.origins
      && to.calls == s.calls[c := Returned(want, s.calls[c].store)]
  {
  }

  /** A key that was never used is not held. */
  lemma NeverUsed(w: World, capacity: nat, states: seq<State>, steps: seq<Step>, k: StoreKey)
    requires IsRun(w, capacity, states, steps) && k !in Now(states).uses
    ensures !Holds(Now(states), k)
  {
    HoldsIff(w, capacity, states, steps, |states| - 1, k);
  }

  // ---------------------------------------------------------------------------
  // A caller that asks for a key of its own
  // ---------------------------------------------------------------------------

  /** What such a caller leaves: its key used last, and the other callers as they were. */
  ghost predicate Visited(s: State, to: State, c: nat, k: StoreKey) {
    && to.uses == s.uses + [k] && to.options == s.options
    && c in to.calls && to.calls == s.calls[c := to.calls[c]]
  }

  lemma Asking(w: World, capacity: nat, states: seq<State>, steps: seq<Step>, c: nat, u: Url)
    returns (more: seq<State>, taken: seq<Step>)
    requires IsRun(w, capacity, states, steps) && Http(w, u)
    requires 0 in Now(states).options && c !in Now(states).calls && KeyOf(u) !in Now(states).uses
    ensures IsRun(w, capacity, more, taken) && states <= more && steps <= taken
    ensures |more| == |states| + 2
    ensures Now(more) == Now(states).(calls := Now(states).calls[c := Missed(Origin(u, None))])
  {
    var s := Now(states);
    var s1 := s.(calls := s.calls[c := Asked(Origin(u, None))]);
    AskGoes(w, capacity, s, c, u);
    Append(w, capacity, states, steps, Ask(c, 0, u), s1);
    more, taken := states + [s1], steps + [Ask(c, 0, u)];
    NeverUsed(w, capacity, more, taken, KeyOf(u));
    LookUpGoes(w, capacity, s1, c);
    var s2 := Next(w, capacity, s1, LookUp(c));
    Append(w, capacity, more, taken, LookUp(c), s2);
    more, taken := more + [s2], taken + [LookUp(c)];
    assert s2.calls == s.calls[c := Missed(Origin(u, None))];
  }

  lemma Making(w: World, capacity: nat, states: seq<State>, steps: seq<Step>, c: nat)
    returns (more: seq<State>, taken: seq<Step>)
    requires IsRun(w, capacity, states, steps) && c in Now(states).calls && Now(states).calls[c].Missed?
    requires Build(w, Now(states).calls[c].want.url, Now(states).calls[c].want.cfg).Some?
    ensures IsRun(w, capacity, more, taken) && states <= more && steps <= taken
    ensures var s := Now(states);
      Now(more) == s.(origins := s.origins + [s.calls[c].want], calls := s.calls[c := Built(s.calls[c].want, |s.origins|)])
  {
    var s := Now(states);
    MakeGoes(w, capacity, s, c);
    var to := Next(w, capacity, s, Make(c));
    Append(w, capacity, states, steps, Make(c), to);
    more, taken := states + [to], steps + [Make(c)];
  }

  lemma Inserting(w: World, capacity: nat, states: seq<State>, steps: seq<Step>, c: nat)
    returns (more: seq<State>, taken: seq<Step>)
    requires IsRun(w, capacity, states, steps) && c in Now(states).calls && Now(states).calls[c].Built?
    requires !Holds(Now(states), Now(states).calls[c].want.Key())
    ensures IsRun(w, capacity, more, taken) && states <= more && steps <= taken
    ensures var s := Now(states); var want := s.calls[c].want;
      && Visited(s, Now(more), c, want.Key()) && Now(more).calls[c] == Returned(want, s.calls[c].store)
      && ReturnsAt(more, taken, |more| - 1, c, want.Key(), s.calls[c].store)
  {
    var s := Now(states);
    InsertGoes(w, capacity, s, c);
    var to := Next(w, capacity, s, Insert(c));
    Append(w, capacity, states, steps, Insert(c), to);
    more, taken := states + [to], steps + [Insert(c)];
  }

  lemma Visit(w: World, capacity: nat, states: seq<State>, steps: seq<Step>, c: nat, u: Url)
    returns (more: seq<State>, taken: seq<Step>)
    requires IsRun(w, capacity, states, steps) && Http(w, u)
    requires 0 in Now(states).options && c !in Now(states).calls && KeyOf(u) !in Now(states).uses
    ensures IsRun(w, capacity, more, taken) && states <= more && steps <= taken
    ensures Visited(Now(states), Now(more), c, KeyOf(u))
  {
    more, taken := Asking(w, capacity, states, steps, c, u);
    more, taken := Making(w, capacity, more, taken, c);
    NeverUsed(w, capacity, more, taken, KeyOf(u));
    more, taken := Inserting(w, capacity, more, taken, c);
  }

  // ---------------------------------------------------------------------------
  // As many other callers as the cache has room for
  // ---------------------------------------------------------------------------

  function KeysOf(urls: seq<Url>): (r: seq<StoreKey>)
    ensures |r| == |urls| && forall i | 0 <= i < |r| :: r[i] == KeyOf(urls[i])
  {
    seq(|urls|, i requires 0 <= i < |urls| => KeyOf(urls[i]))
  }

  /** Callers from `first` on can ask for these URLs, each of which has a key of its own. */
  ghost predicate CanVisit(w: World, s: State, first: nat, urls: seq<Url>) {
    && 0 in s.options && (forall u | u in urls :: Http(w, u))
    && Distinct(KeysOf(urls)) && (forall k | k in KeysOf(urls) :: k !in s.uses)
    && forall c | c in s.calls :: c < first
  }

  /** These keys were used, and the callers there were are as they were. */
  ghost predicate Passed(s: State, to: State, keys: seq<StoreKey>) {
    to.uses == s.uses + keys && forall c | c in s.calls :: c in to.calls && to.calls[c] == s.calls[c]
  }

  lemma PassedOn(s: State, middle: State, to: State, a: seq<StoreKey>, b: seq<StoreKey>)
    requires Passed(s, middle, a) && Passed(middle, to, b)
    ensures Passed(s, to, a + b)
  {
    assert s.uses + a + b == s.uses + (a + b);
  }

  lemma RestDistinct(urls: seq<Url>)
    requires urls != [] && Distinct(KeysOf(urls))
    ensures Distinct(KeysOf(urls[1..])) && KeyOf(urls[0]) !in KeysOf(urls[1..])
    ensures forall k | k in KeysOf(urls[1..]) :: k in KeysOf(urls)
  {
    assert KeysOf(urls)[1..] == KeysOf(urls[1..]);
  }

  lemma OneVisited(w: World, s: State, to: State, first: nat, urls: seq<Url>)
    requires urls != [] && CanVisit(w, s, first, urls) && Visited(s, to, first, KeyOf(urls[0]))
    ensures CanVisit(w, to, first + 1, urls[1..]) && Passed(s, to, [KeyOf(urls[0])])
    ensures [KeyOf(urls[0])] + KeysOf(urls[1..]) == KeysOf(urls)
  {
    RestDistinct(urls);
  }

  lemma {:induction false} VisitAll(w: World, capacity: nat, states: seq<State>, steps: seq<Step>, first: nat, urls: seq<Url>)
    returns (more: seq<State>, taken: seq<Step>)
    requires IsRun(w, capacity, states, steps) && CanVisit(w, Now(states), first, urls)
    ensures IsRun(w, capacity, more, taken) && states <= more && steps <= taken
    ensures Passed(Now(states), Now(more), KeysOf(urls))
    decreases |urls|
  {
    more, taken := states, steps;
    if urls != [] {
      assert urls[0] in urls && KeysOf(urls)[0] in KeysOf(urls);
      more, taken := Visit(w, capacity, states, steps, first, urls[0]);
      var middle := Now(more);
      OneVisited(w, Now(states), middle, first, urls);
      more, taken := VisitAll(w, capacity, more, taken, first + 1, urls[1..]);
      PassedOn(Now(states), middle, Now(more), [KeyOf(urls[0])], KeysOf(urls[1..]));
    }
  }

  lemma SinceOne(k: StoreKey, uses: seq<StoreKey>, last: StoreKey)
    requires last != k
    ensures Since(uses + [last], k) == Since(uses, k) + {last}
  {
    assert (uses + [last])[..|uses|] == uses;
  }

  lemma {:induction false} SinceWithin(uses: seq<StoreKey>, k: StoreKey, x: StoreKey)
    ensures x in Since(uses, k) ==> x in uses
    decreases |uses|
  {
    if uses != [] { SinceWithin(uses[..|uses| - 1], k, x); }
  }

  /** Since `k` was used, all of these keys were. */
  lemma {:induction false} SinceAll(k: StoreKey, keys: seq<StoreKey>)
    requires Distinct(keys) && k !in keys
    ensures |Since([k] + keys, k)| == |keys|
    decreases |keys|
  {
    if keys != [] {
      var init, last := keys[..|keys| - 1], keys[|keys| - 1];
      SinceAll(k, init);
      SinceWithin([k] + init, k, last);
      SinceOne(k, [k] + init, last);
      assert [k] + keys == ([k] + init) + [last];
    }
  }

  // ---------------------------------------------------------------------------
  // Disagreement
  // ---------------------------------------------------------------------------

  /** Two callers miss the same URL and both build. */
  lemma BothMiss(w: World, capacity: nat, o: map<nat, S3Config>, a: Url) returns (states: seq<State>, steps: seq<Step>)
    requires capacity > 0 && 0 in o && Http(w, a)
    ensures IsRun(w, capacity, states, steps) && |states| > 4
    ensures states[4].calls == map[0 := Missed(Origin(a, None)), 1 := Missed(Origin(a, None))]
    ensures var A := Origin(a, None);
      Now(states) == State([], [], [A, A], o, map[0 := Built(A, 0), 1 := Built(A, 1)])
  {
    states, steps := [Init(o)], [];
    states, steps := Asking(w, capacity, states, steps, 0, a);
    states, steps := Asking(w, capacity, states, steps, 1, a);
    var missed := states;
    assert Now(missed).calls == map[0 := Missed(Origin(a, None)), 1 := Missed(Origin(a, None))];
    states, steps := Making(w, capacity, states, steps, 0);
    states, steps := Making(w, capacity, states, steps, 1);
    assert states[4] == missed[4];
  }

  /** Once as many other keys were used as the cache has room for, a key is gone. */
  lemma Evicted(w: World, capacity: nat, states: seq<State>, steps: seq<Step>, k: StoreKey, keys: seq<StoreKey>)
    requires IsRun(w, capacity, states, steps) && Now(states).uses == [k] + keys
    requires Distinct(keys) && k !in keys && |keys| == capacity
    ensures !Holds(Now(states), k)
  {
    SinceAll(k, keys);
    HoldsIff(w, capacity, states, steps, |states| - 1, k);
  }

  /** The first caller inserts its store, and the others come. */
  lemma OthersCome(w: World, o: map<nat, S3Config>, a: Url, urls: seq<Url>)
    returns (states: seq<State>, steps: seq<Step>, i: nat)
    requires 0 in o && Http(w, a) && urls != [] && (forall u | u in urls :: Http(w, u))
    requires Distinct(KeysOf(urls)) && KeyOf(a) !in KeysOf(urls)
    ensures IsRun(w, |urls|, states, steps) && 4 <= i && ReturnsAt(states, steps, i, 0, KeyOf(a), 0)
    ensures states[4].calls == map[0 := Missed(Origin(a, None)), 1 := Missed(Origin(a, None))]
    ensures 1 in Now(states).calls && Now(states).calls[1] == Built(Origin(a, None), 1)
    ensures Now(states).uses == [KeyOf(a)] + KeysOf(urls)
  {
    states, steps := BothMiss(w, |urls|, o, a);
    var missed := states[4];
    NeverUsed(w, |urls|, states, steps, KeyOf(a));
    states, steps := Inserting(w, |urls|, states, steps, 0);
    i := |states| - 1;
    var s, more, taken := Now(states), states, steps;
    more, taken := VisitAll(w, |urls|, states, steps, 2, urls);
    ReturnsStay(states, steps, more, taken, i, 0, KeyOf(a), 0);
    assert more[4] == states[4] == missed;
    states, steps := more, taken;
  }

  /**
    * Two callers that missed a key together get different stores, whatever room
    * the cache has, when callers of that many other keys come between their inserts.
    */
  lemma MissedTogetherDisagree(w: World, o: map<nat, S3Config>, a: Url, urls: seq<Url>)
    returns (states: seq<State>, steps: seq<Step>, i: nat, j: nat)
    requires 0 in o && Http(w, a) && urls != [] && (forall u | u in urls :: Http(w, u))
    requires Distinct(KeysOf(urls)) && KeyOf(a) !in KeysOf(urls)
    ensures IsRun(w, |urls|, states, steps) && 4 <= i < j < |states|
    ensures states[4].calls == map[0 := Missed(Origin(a, None)), 1 := Missed(Origin(a, None))]
    ensures ReturnsAt(states, steps, i, 0, KeyOf(a), 0) && ReturnsAt(states, steps, j, 1, KeyOf(a), 1)
  {
    states, steps, i := OthersCome(w, o, a, urls);
    Evicted(w, |urls|, states, steps, KeyOf(a), KeysOf(urls));
    var more, taken := Inserting(w, |urls|, states, steps, 1);
    ReturnsStay(states, steps, more, taken, i, 0, KeyOf(a), 0);
    assert more[4] == states[4];
    states, steps, j := more, taken, |more| - 1;
  }

  // ---------------------------------------------------------------------------
  // It happens in a cache of any size
  // ---------------------------------------------------------------------------

  function Name(n: nat): (r: string)
    ensures |r| == n + 1 && forall c | c in r :: c == 'a'
  {
    seq(n + 1, _ => 'a')
  }

  function Host(n: nat): Url {
    Url("http", Some(Name(n)), None, "")
  }

  function Hosts(n: nat): (r: seq<Url>)
    ensures |r| == n && forall i | 0 <= i < n :: r[i] == Host(i + 1)
  {
    seq(n, i requires 0 <= i < n => Host(i + 1))
  }

  lemma HostKeys(m: nat, n: nat)
    requires m != n
    ensures KeyOf(Host(m)) != KeyOf(Host(n))
  {
    assert |KeyOf(Host(m)).url| == m + 8 && |KeyOf(Host(n)).url| == n + 8;
  }

  lemma HostsDiffer(n: nat)
    ensures Distinct(KeysOf(Hosts(n))) && KeyOf(Host(0)) !in KeysOf(Hosts(n))
  {
    forall i, j | 0 <= i < j < n ensures KeysOf(Hosts(n))[i] != KeysOf(Hosts(n))[j] {
      HostKeys(i + 1, j + 1);
    }
    forall i | 0 <= i < n ensures KeysOf(Hosts(n))[i] != KeyOf(Host(0)) {
      HostKeys(i + 1, 0);
    }
  }

  /** For every capacity such callers exist: hosts of different names, and a library that accepts every address. */
  lemma DisagreementHappens(capacity: nat, environment: S3Settings, cfg: S3Config)
    returns (w: World, states: seq<State>, steps: seq<Step>, i: nat, j: nat, k: StoreKey)
    requires capacity > 0
    ensures IsRun(w, capacity, states, steps) && i < j
    ensures ReturnsAt(states, steps, i, 0, k, 0) && ReturnsAt(states, steps, j, 1, k, 1)
  {
    w := World(environment, _ => false, _ => true, _ => true);
    HostsDiffer(capacity);
    k := KeyOf(Host(0));
    states, steps, i, j := MissedTogetherDisagree(w, map[0 := cfg], Host(0), Hosts(capacity));
  }
}
