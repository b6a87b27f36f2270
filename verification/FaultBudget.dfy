/** A budget of injectable faults shared by processes through a directory of token files.
    Taking a token is listing the directory and then racing to remove one of its files. */
module FaultBudget {
  import opened Wrappers

  function Tokens(n: nat): (r: set<nat>)
    ensures |r| == n
    ensures forall i: nat :: i in r <==> i < n
  {
    if n == 0 then {} else Tokens(n - 1) + {n - 1}
  }

  // ---------------------------------------------------------------------------
  // The directory as one process sees it
  // ---------------------------------------------------------------------------

  /** The token files `token-0`, `token-1`, ... by number; `present` is false for a directory
      that was never created. */
  class Directory {
    var present: bool
    var tokens: set<nat>

    ghost predicate Valid()
      reads this
    {
      !present ==> tokens == {}
    }

    constructor ()
      ensures Valid() && !present
    {
      present, tokens := false, {};
    }

    /** Whatever was there before is replaced. */
    method Create(n: nat)
      requires Valid()
      modifies this
      ensures Valid() && present && tokens == Tokens(n)
    {
      present, tokens := true, {};
      for i := 0 to n
        invariant present && tokens == Tokens(i)
      {
        tokens := tokens + {i};
      }
    }

    method Remaining() returns (n: nat)
      requires Valid()
      ensures n == |tokens|
    {
      n := if present then |tokens| else 0;
    }

    /** Other processes may take tokens at any time, unless this one is alone. */
    method Rivals(alone: bool)
      modifies `tokens
      ensures tokens <= old(tokens) && (alone ==> tokens == old(tokens))
    {
      if !alone {
        var taken: set<nat> := *;
        tokens := tokens - taken;
      }
    }

    /** Returns the token won, if any. Without a token the directory was empty; and a process
        that is alone wins exactly when there is a token, and takes just that one. */
    method TryConsume(alone: bool) returns (mine: Option<nat>)
      requires Valid()
      modifies `tokens
      ensures Valid() && tokens <= old(tokens)
      ensures mine.Some? ==> mine.value in old(tokens) && mine.value !in tokens
      ensures mine.None? ==> tokens == {}
      ensures alone ==> (mine.Some? <==> old(tokens) != {})
      ensures alone && mine.Some? ==> tokens == old(tokens) - {mine.value}
    {
      if !present {
        return None;
      }
      var entries := tokens;
      while entries != {}
        invariant tokens <= entries <= old(tokens) && tokens <= old(tokens)
        invariant alone ==> tokens == entries == old(tokens)
        decreases entries
      {
        Rivals(alone);
        var t :| t in entries;
        entries := entries - {t};
        if t in tokens {
          tokens := tokens - {t};
          return Some(t);
        }
      }
      return None;
    }
  }

  // ---------------------------------------------------------------------------
  // Many processes at once
  // ---------------------------------------------------------------------------

  /** A call of `try_consume`. `entries` are the tokens that were there when the directory was
      opened and have not come up yet; they come up in any order. */
  datatype Call = Scanning(entries: set<nat>) | Done(won: bool)

  /** `log` holds the outcomes in the order in which they were decided. */
  datatype Outcome = Outcome(call: nat, token: Option<nat>)
  datatype State = State(tokens: set<nat>, calls: map<nat, Call>, log: seq<Outcome>)

  datatype Step =
    | OpenDir(call: nat)
    | Remove(call: nat, token: nat)      // `remove_file` on the next entry
    | Vanish(call: nat, token: nat)      // the listing leaves out a file that is already gone
    | GiveUp(call: nat)                  // no entry is left

  function Init(n: nat): State {
    State(Tokens(n), map[], [])
  }

  predicate Enabled(s: State, step: Step) {
    match step
    case OpenDir(c) => c !in s.calls
    case Remove(c, t) => c in s.calls && s.calls[c].Scanning? && t in s.calls[c].entries
    case Vanish(c, t) => c in s.calls && s.calls[c].Scanning? && t in s.calls[c].entries && t !in s.tokens
    case GiveUp(c) => c in s.calls && s.calls[c].Scanning? && s.calls[c].entries == {}
  }

  function Next(s: State, step: Step): State
    requires Enabled(s, step)
  {
    match step
    case OpenDir(c) => s.(calls := s.calls[c := Scanning(s.tokens)])
    case Remove(c, t) =>
      if t in s.tokens then
        State(s.tokens - {t}, s.calls[c := Done(true)], s.log + [Outcome(c, Some(t))])
      else s.(calls := s.calls[c := Scanning(s.calls[c].entries - {t})])
    case Vanish(c, t) => s.(calls := s.calls[c := Scanning(s.calls[c].entries - {t})])
    case GiveUp(c) => s.(calls := s.calls[c := Done(false)], log := s.log + [Outcome(c, None)])
  }

  /** Every listing still has all the tokens that are left. */
  predicate ListingsCover(s: State) {
    forall c | c in s.calls && s.calls[c].Scanning? :: s.tokens <= s.calls[c].entries
  }

  // ---------------------------------------------------------------------------
  // Reference: an atomic counter
  // ---------------------------------------------------------------------------

  /** Taking from a counter succeeds exactly while it is positive. `Legal(n, log)` says that
      `log` is what an atomic counter that started at `n` would have answered. */
  predicate Legal(n: nat, log: seq<Outcome>) {
    forall i | 0 <= i < |log| :: log[i].token.Some? <==> i < n
  }

  function Wins(log: seq<Outcome>): nat {
    if log == [] then 0 else Wins(log[..|log| - 1]) + if log[|log| - 1].token.Some? then 1 else 0
  }

  predicate NoTokenTwice(log: seq<Outcome>) {
    forall i, j | 0 <= i < j < |log| && log[i].token.Some? && log[j].token.Some? :: log[i].token != log[j].token
  }

  predicate NoCallTwice(log: seq<Outcome>) {
    forall i, j | 0 <= i < j < |log| :: log[i].call != log[j].call
  }

  predicate Answered(calls: map<nat, Call>, o: Outcome) {
    o.call in calls && calls[o.call] == Done(o.token.Some?)
  }

  predicate Accounted(n: nat, tokens: set<nat>, log: seq<Outcome>) {
    && Wins(log) + |tokens| == n
    && Legal(n, log)
    && NoTokenTwice(log)
    && (forall i | 0 <= i < |log| && log[i].token.Some? :: log[i].token.value !in tokens)
  }

  predicate Inv(n: nat, s: State) {
    && ListingsCover(s)
    && Accounted(n, s.tokens, s.log)
    && NoCallTwice(s.log)
    && (forall o <- s.log :: Answered(s.calls, o))
  }

  lemma {:induction false} WinsBound(n: nat, log: seq<Outcome>)
    requires Legal(n, log)
    ensures Wins(log) == if |log| <= n then |log| else n
  {
    if log != [] { WinsBound(n, log[..|log| - 1]); }
  }

  /** Only while tokens are left does a token come with the next decision. */
  lemma DecisionIsAccounted(n: nat, tokens: set<nat>, log: seq<Outcome>, o: Outcome)
    requires Accounted(n, tokens, log)
    requires if o.token.Some? then o.token.value in tokens else tokens == {}
    ensures Accounted(n, if o.token.Some? then tokens - {o.token.value} else tokens, log + [o])
  {
    var log' := log + [o];
    WinsBound(n, log);
    assert log'[..|log|] == log && log'[|log|] == o;
    assert Wins(log') == Wins(log) + if o.token.Some? then 1 else 0;
    assert |tokens| > 0 <==> |log| < n;
    assert o.token.Some? ==> |tokens - {o.token.value}| == |tokens| - 1;
    assert Legal(n, log') by {
      forall i | 0 <= i < |log'| ensures log'[i].token.Some? <==> i < n {
        if i < |log| { assert log'[i] == log[i]; }
      }
    }
    assert NoTokenTwice(log') by {
      assert forall i | 0 <= i < |log| :: log'[i] == log[i];
    }
  }

  /** A call is decided: the log grows by one. */
  lemma DecisionKeepsInv(n: nat, s: State, s': State, o: Outcome)
    requires Inv(n, s) && o.call in s.calls && s.calls[o.call].Scanning?
    requires s'.log == s.log + [o] && s'.calls == s.calls[o.call := Done(o.token.Some?)]
    requires if o.token.Some? then o.token.value in s.tokens && s'.tokens == s.tokens - {o.token.value}
             else s.tokens == {} && s'.tokens == {}
    ensures Inv(n, s')
  {
    DecisionIsAccounted(n, s.tokens, s.log, o);
    forall p | p in s'.log ensures Answered(s'.calls, p) && (p in s.log ==> p.call != o.call) {
      if p in s.log { assert Answered(s.calls, p); }
    }
    assert forall i | 0 <= i < |s.log| :: s.log[i] in s.log;
  }

  /** A call starts or goes on. */
  lemma ScanKeepsInv(n: nat, s: State, c: nat, entries: set<nat>)
    requires Inv(n, s) && (c in s.calls ==> s.calls[c].Scanning?) && s.tokens <= entries
    ensures Inv(n, s.(calls := s.calls[c := Scanning(entries)]))
  {
    var calls := s.calls[c := Scanning(entries)];
    forall o | o in s.log ensures Answered(calls, o) { assert Answered(s.calls, o); }
  }

  lemma StepKeepsInv(n: nat, s: State, step: Step)
    requires Inv(n, s) && Enabled(s, step)
    ensures Inv(n, Next(s, step))
  {
    var s' := Next(s, step);
    match step {
      case OpenDir(c) => ScanKeepsInv(n, s, c, s.tokens);
      case Vanish(c, t) => ScanKeepsInv(n, s, c, s.calls[c].entries - {t});
      case Remove(c, t) =>
        if t in s.tokens { DecisionKeepsInv(n, s, s', Outcome(c, Some(t))); }
        else { ScanKeepsInv(n, s, c, s.calls[c].entries - {t}); }
      case GiveUp(c) =>
        assert s.tokens <= {};
        DecisionKeepsInv(n, s, s', Outcome(c, None));
    }
  }

  /** Each step is a step of the counter or leaves it alone: a call is decided at one instant,
      between its start and its return, by the number of tokens left at that instant. */
  lemma StepRefinesCounter(n: nat, s: State, step: Step)
    requires Inv(n, s) && Enabled(s, step)
    ensures var s' := Next(s, step);
      || (s'.tokens == s.tokens && s'.log == s.log)
      || (exists token :: s'.log == s.log + [Outcome(step.call, token)] &&
            (token.Some? <==> |s.tokens| > 0) && |s'.tokens| == |s.tokens| - (if token.Some? then 1 else 0) &&
            s'.calls[step.call] == Done(token.Some?))
  {
    var s' := Next(s, step);
    match step
    case OpenDir(_) =>
    case Vanish(_, _) =>
    case Remove(c, t) =>
      if t in s.tokens { assert s'.log == s.log + [Outcome(c, Some(t))]; }
    case GiveUp(c) =>
      assert s.tokens <= {};
      assert s'.log == s.log + [Outcome(c, None)];
  }

  function Run(s: State, steps: seq<Step>): Option<State>
    decreases |steps|
  {
    if steps == [] then Some(s)
    else if Enabled(s, steps[0]) then Run(Next(s, steps[0]), steps[1..])
    else None
  }

  lemma {:induction false} RunKeepsInv(n: nat, s: State, steps: seq<Step>)
    requires Inv(n, s) && Run(s, steps).Some?
    ensures Inv(n, Run(s, steps).value)
    decreases |steps|
  {
    if steps != [] {
      StepKeepsInv(n, s, steps[0]);
      RunKeepsInv(n, Next(s, steps[0]), steps[1..]);
    }
  }

  /** The main result. However the processes interleave, the calls are answered as if a single
      counter had been decremented: the first `n` calls to be decided win, all later ones lose;
      every win takes a token of its own, wins plus remaining tokens stay at `n`, and a call
      is refused only once no token is left. */
  lemma BudgetIsAtomicCounter(n: nat, steps: seq<Step>)
    requires Run(Init(n), steps).Some?
    ensures var s := Run(Init(n), steps).value;
      && Legal(n, s.log) && NoTokenTwice(s.log) && NoCallTwice(s.log)
      && Wins(s.log) + |s.tokens| == n
      && (s.tokens != {} ==> forall c | c in s.calls :: s.calls[c] != Done(false))
  {
    RunKeepsInv(n, Init(n), steps);
    DoneIsLogged(Init(n), steps);
    var s := Run(Init(n), steps).value;
    WinsBound(n, s.log);
    if s.tokens != {} {
      forall c | c in s.calls ensures s.calls[c] != Done(false) {
        if s.calls[c].Done? {
          var i :| 0 <= i < |s.log| && s.log[i].call == c;
          assert Answered(s.calls, s.log[i]);
        }
      }
    }
  }

  predicate AllDoneLogged(s: State) {
    forall c | c in s.calls && s.calls[c].Done? :: exists i :: 0 <= i < |s.log| && s.log[i].call == c
  }

  lemma {:induction false} DoneIsLogged(s: State, steps: seq<Step>)
    requires AllDoneLogged(s) && Run(s, steps).Some?
    ensures AllDoneLogged(Run(s, steps).value)
    decreases |steps|
  {
    if steps != [] {
      var s' := Next(s, steps[0]);
      forall c | c in s'.calls && s'.calls[c].Done?
        ensures exists i :: 0 <= i < |s'.log| && s'.log[i].call == c
      {
        if c in s.calls && s.calls[c].Done? {
          var i :| 0 <= i < |s.log| && s.log[i].call == c;
          assert s'.log[i].call == c;
        } else {
          assert s'.log[|s.log|].call == c;
        }
      }
      DoneIsLogged(s', steps[1..]);
    }
  }
}
