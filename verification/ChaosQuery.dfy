/** Fault injection by a pass-through function spliced into a query's WHERE clause. The faults
    come out of a shared budget; where none fires, the query means what it meant before. */
module ChaosQuery {
  import opened Wrappers
  import FaultBudget

  // ---------------------------------------------------------------------------
  // The function
  // ---------------------------------------------------------------------------

  datatype Fault = IoFault | ExecutionFault | Panic | UnknownMode
  datatype Answer = Passed(column: seq<Option<bool>>) | Faulted(fault: Fault)

  function FaultOf(mode: string): Fault {
    if mode == "io" then IoFault else if mode == "exec" then ExecutionFault
    else if mode == "panic" then Panic else UnknownMode
  }

  predicate Selected(guard: seq<Option<bool>>) {
    exists i | 0 <= i < |guard| :: guard[i] == Some(true)
  }

  /** One invocation on a batch, against a budget with `tokens` left. */
  function Invoke(tokens: nat, mode: string, guard: seq<Option<bool>>): (r: (Answer, nat))
    ensures r.0.Passed? ==> r.0.column == guard && r.1 == tokens
    ensures r.0.Faulted? ==> r.1 + 1 == tokens && Selected(guard)
  {
    if Selected(guard) && tokens > 0 then (Faulted(FaultOf(mode)), tokens - 1) else (Passed(guard), tokens)
  }

  /** The same on the directory itself, alone or while other processes take tokens too. */
  method InvokeOn(dir: FaultBudget.Directory, mode: string, guard: seq<Option<bool>>, alone: bool) returns (a: Answer)
    requires dir.Valid()
    modifies dir
    ensures dir.Valid() && dir.tokens <= old(dir.tokens)
    ensures alone ==> (a, |dir.tokens|) == Invoke(|old(dir.tokens)|, mode, guard)
    ensures a.Faulted? ==> a.fault == FaultOf(mode) && Selected(guard) && dir.tokens < old(dir.tokens)
    ensures a.Passed? ==> a.column == guard && (Selected(guard) ==> dir.tokens == {})
  {
    var selected := false;
    for i := 0 to |guard|
      invariant selected <==> Selected(guard[..i])
    {
      assert guard[..i + 1] == guard[..i] + [guard[i]];
      if guard[i] == Some(true) {
        assert guard[..i + 1][i] == Some(true);
        selected := true;
      }
    }
    assert guard[..|guard|] == guard;
    if selected {
      var token := dir.TryConsume(alone);
      if token.Some? {
        return Faulted(FaultOf(mode));
      }
    }
    var column := [];
    for i := 0 to |guard|
      invariant column == guard[..i]
    {
      column := column + [if guard[i].None? then None else Some(guard[i].value)];
    }
    return Passed(column);
  }

  // ---------------------------------------------------------------------------
  // The queries
  // ---------------------------------------------------------------------------

  datatype Fact = Fact(key: int, value: int)
  datatype Dim = Dim(key: int, name: string)
  datatype Row = Row(fact: Fact, name: string)
  datatype Group = Group(count: int, total: int)

  type Guard = Fact -> Option<bool>

  function Matches(f: Fact, dims: seq<Dim>): seq<Row> {
    if dims == [] then []
    else if dims[0].key == f.key then [Row(f, dims[0].name)] + Matches(f, dims[1..])
    else Matches(f, dims[1..])
  }

  function Join(facts: seq<Fact>, dims: seq<Dim>): seq<Row> {
    if facts == [] then [] else Matches(facts[0], dims) + Join(facts[1..], dims)
  }

  function Sum(rows: seq<Row>, weight: Row -> int): int {
    if rows == [] then 0 else weight(rows[0]) + Sum(rows[1..], weight)
  }

  function One(name: string): Row -> int {
    (r: Row) => if r.name == name then 1 else 0
  }

  function Value(name: string): Row -> int {
    (r: Row) => if r.name == name then r.fact.value else 0
  }

  /** `SELECT name, COUNT(*), SUM(value) ... GROUP BY name`; the names being distinct, the
      ORDER BY leaves a single order of the result. */
  function Aggregate(rows: seq<Row>): map<string, Group> {
    map name | name in (set r <- rows :: r.name) :: Group(Sum(rows, One(name)), Sum(rows, Value(name)))
  }

  function Baseline(facts: seq<Fact>, dims: seq<Dim>): map<string, Group> {
    Aggregate(Join(facts, dims))
  }

  /** `WHERE chaos_fail(guard, ...) IS NOT NULL` over one batch, given the column it passed on. */
  function Keep(batch: seq<Row>, column: seq<Option<bool>>): seq<Row>
    requires |batch| == |column|
  {
    if batch == [] then []
    else if column[0].Some? then [batch[0]] + Keep(batch[1..], column[1..])
    else Keep(batch[1..], column[1..])
  }

  function Column(g: Guard, batch: seq<Row>): (c: seq<Option<bool>>)
    ensures |c| == |batch|
  {
    seq(|batch|, i requires 0 <= i < |batch| => g(batch[i].fact))
  }

  // ---------------------------------------------------------------------------
  // Runs: attempts of tasks, interleaved in any way
  // ---------------------------------------------------------------------------

  /** How far an attempt has come: the rows that went in and those that came out, or a fault. */
  datatype Attempt = Going(input: seq<Row>, output: seq<Row>) | Broken(fault: Fault)
  datatype State = State(tokens: nat, attempts: map<nat, Attempt>, faults: nat)

  /** The next batch of an attempt; a broken attempt takes no more. */
  datatype Event = Event(attempt: nat, batch: seq<Row>)

  function Step(mode: string, g: Guard, s: State, e: Event): State {
    var a := if e.attempt in s.attempts then s.attempts[e.attempt] else Going([], []);
    if a.Broken? then s
    else
      var (answer, tokens) := Invoke(s.tokens, mode, Column(g, e.batch));
      match answer
      case Faulted(fault) => State(tokens, s.attempts[e.attempt := Broken(fault)], s.faults + 1)
      case Passed(column) =>
        State(tokens, s.attempts[e.attempt := Going(a.input + e.batch, a.output + Keep(e.batch, column))], s.faults)
  }

  function Run(mode: string, g: Guard, s: State, events: seq<Event>): State
    decreases |events|
  {
    if events == [] then s else Run(mode, g, Step(mode, g, s, events[0]), events[1..])
  }

  function Drop(g: Guard, rows: seq<Row>): seq<Row> {
    if rows == [] then []
    else if g(rows[0].fact).Some? then [rows[0]] + Drop(g, rows[1..])
    else Drop(g, rows[1..])
  }

  lemma {:induction false} KeepIsDrop(g: Guard, batch: seq<Row>)
    ensures Keep(batch, Column(g, batch)) == Drop(g, batch)
  {
    if batch != [] {
      KeepIsDrop(g, batch[1..]);
      assert Column(g, batch)[1..] == Column(g, batch[1..]);
    }
  }

  lemma {:induction false} DropConcat(g: Guard, a: seq<Row>, b: seq<Row>)
    ensures Drop(g, a + b) == Drop(g, a) + Drop(g, b)
  {
    if a == [] {
      assert a + b == b;
    } else {
      DropConcat(g, a[1..], b);
      assert (a + b)[1..] == a[1..] + b;
    }
  }

  predicate PassesThrough(g: Guard, a: Attempt) {
    a.Going? ==> a.output == Drop(g, a.input)
  }

  predicate Inv(g: Guard, n: nat, s: State) {
    && s.tokens + s.faults == n
    && (forall i | i in s.attempts :: PassesThrough(g, s.attempts[i]))
  }

  lemma StepKeepsInv(mode: string, g: Guard, n: nat, s: State, e: Event)
    requires Inv(g, n, s)
    ensures Inv(g, n, Step(mode, g, s, e))
  {
    KeepIsDrop(g, e.batch);
    var a := if e.attempt in s.attempts then s.attempts[e.attempt] else Going([], []);
    if a.Going? {
      DropConcat(g, a.input, e.batch);
      assert e.attempt in s.attempts ==> PassesThrough(g, a);
    }
  }

  /** Every fault takes one token and nothing else does, so faults never exceed the budget over
      any number of attempts; and an attempt without a fault has passed on every row whose
      guard is not NULL, in order, however its input was cut into batches. */
  lemma {:induction false} FaultsStayWithinBudget(mode: string, g: Guard, n: nat, s: State, events: seq<Event>)
    requires Inv(g, n, s)
    ensures var r := Run(mode, g, s, events);
      Inv(g, n, r) && r.faults <= n && s.faults <= r.faults && r.tokens == s.tokens - (r.faults - s.faults)
    decreases |events|
  {
    if events != [] {
      StepKeepsInv(mode, g, n, s, events[0]);
      FaultsStayWithinBudget(mode, g, n, Step(mode, g, s, events[0]), events[1..]);
    }
  }

  // ---------------------------------------------------------------------------
  // The rewritten query against the baseline
  // ---------------------------------------------------------------------------

  lemma {:induction false} SumWithout(b: seq<Row>, i: nat, w: Row -> int)
    requires i < |b|
    ensures Sum(b, w) == w(b[i]) + Sum(b[..i] + b[i + 1..], w)
  {
    var rest := b[..i] + b[i + 1..];
    if i == 0 {
      assert rest == b[1..];
    } else {
      SumWithout(b[1..], i - 1, w);
      assert rest[1..] == b[1..][..i - 1] + b[1..][i..];
    }
  }

  lemma FindFirst(a: seq<Row>, b: seq<Row>) returns (i: nat)
    requires a != [] && multiset(a) == multiset(b)
    ensures i < |b| && b[i] == a[0] && multiset(a[1..]) == multiset(b[..i] + b[i + 1..])
  {
    assert a[0] in multiset(b);
    i :| 0 <= i < |b| && b[i] == a[0];
    assert a == [a[0]] + a[1..];
    var x, y := b[..i], b[i + 1..];
    assert b == x + ([b[i]] + y);
    assert multiset(b) == multiset(x) + (multiset([b[i]]) + multiset(y));
    assert multiset(x + y) == multiset(x) + multiset(y);
    assert multiset(x + y) == multiset(b) - multiset([b[i]]);
    assert multiset(a) == multiset([a[0]]) + multiset(a[1..]);
    assert multiset(a[1..]) == multiset(a) - multiset([a[0]]);
  }

  /** Sums do not depend on the order in which partitions deliver their rows. */
  lemma {:induction false} SumPermutation(a: seq<Row>, b: seq<Row>, w: Row -> int)
    requires multiset(a) == multiset(b)
    ensures Sum(a, w) == Sum(b, w)
  {
    if a == [] {
      assert |multiset(b)| == 0;
    } else {
      var i := FindFirst(a, b);
      SumPermutation(a[1..], b[..i] + b[i + 1..], w);
      SumWithout(b, i, w);
    }
  }

  lemma AggregatePermutation(a: seq<Row>, b: seq<Row>)
    requires multiset(a) == multiset(b)
    ensures Aggregate(a) == Aggregate(b)
  {
    assert forall r :: r in a <==> r in multiset(a);
    assert forall r :: r in b <==> r in multiset(b);
    forall name | name in Aggregate(a)
      ensures Aggregate(a)[name] == Aggregate(b)[name]
    {
      SumPermutation(a, b, One(name));
      SumPermutation(a, b, Value(name));
    }
  }

  predicate NeverNull(g: Guard, rows: seq<Row>) {
    forall i | 0 <= i < |rows| :: g(rows[i].fact).Some?
  }

  lemma {:induction false} DropNothing(g: Guard, rows: seq<Row>)
    requires NeverNull(g, rows)
    ensures Drop(g, rows) == rows
  {
    if rows != [] { DropNothing(g, rows[1..]); }
  }

  /** Dropping rows can only lower a count. */
  lemma {:induction false} DropCounts(g: Guard, rows: seq<Row>, name: string)
    ensures 0 <= Sum(Drop(g, rows), One(name)) <= Sum(rows, One(name))
    ensures (exists i | 0 <= i < |rows| :: rows[i].name == name && g(rows[i].fact).None?) ==>
      Sum(Drop(g, rows), One(name)) < Sum(rows, One(name))
  {
    if rows != [] {
      DropCounts(g, rows[1..], name);
      if g(rows[0].fact).Some? {
        assert Drop(g, rows)[1..] == Drop(g, rows[1..]);
      }
      forall i | 0 <= i < |rows| && rows[i].name == name && g(rows[i].fact).None?
        ensures i == 0 || (rows[1..][i - 1].name == name && g(rows[1..][i - 1].fact).None?)
      {
      }
    }
  }

  lemma {:induction false} CountsPresent(rows: seq<Row>, name: string)
    ensures Sum(rows, One(name)) >= 0
    ensures name in (set r <- rows :: r.name) <==> Sum(rows, One(name)) > 0
  {
    if rows != [] {
      CountsPresent(rows[1..], name);
      assert rows == [rows[0]] + rows[1..];
    }
  }

  /** The main result. Let the joined rows be spread over successful attempts in any way. The
      rewritten query returns the baseline's result exactly when no guard is NULL. */
  lemma ChaosMeansBaselineIff(g: Guard, facts: seq<Fact>, dims: seq<Dim>, delivered: seq<Row>)
    requires multiset(delivered) == multiset(Join(facts, dims))
    ensures Aggregate(Drop(g, delivered)) == Baseline(facts, dims) <==> NeverNull(g, Join(facts, dims))
  {
    var rows := Join(facts, dims);
    assert forall r :: r in rows <==> r in multiset(rows);
    assert forall r :: r in delivered <==> r in multiset(delivered);
    AggregatePermutation(delivered, rows);
    if NeverNull(g, rows) {
      forall i | 0 <= i < |delivered| ensures g(delivered[i].fact).Some? {
        assert delivered[i] in rows;
      }
      DropNothing(g, delivered);
    } else {
      var i :| 0 <= i < |rows| && g(rows[i].fact).None?;
      assert rows[i] in delivered;
      var name := rows[i].name;
      DropCounts(g, delivered, name);
      CountsPresent(delivered, name);
      assert name in Aggregate(delivered);
    }
  }

  lemma {:induction false} MatchesHas(f: Fact, dims: seq<Dim>, d: Dim)
    requires d in dims && d.key == f.key
    ensures Row(f, d.name) in Matches(f, dims)
  {
    if d != dims[0] { MatchesHas(f, dims[1..], d); }
  }

  lemma {:induction false} JoinHas(facts: seq<Fact>, dims: seq<Dim>, f: Fact, d: Dim)
    requires f in facts && d in dims && d.key == f.key
    ensures Row(f, d.name) in Join(facts, dims)
  {
    if f == facts[0] { MatchesHas(f, dims, d); } else { JoinHas(facts[1..], dims, f, d); }
  }

  /** A guard that is NULL on one fact that joins does filter. */
  lemma NullGuardFilters(g: Guard, facts: seq<Fact>, dims: seq<Dim>, f: Fact, d: Dim)
    requires f in facts && d in dims && d.key == f.key && g(f).None?
    ensures Aggregate(Drop(g, Join(facts, dims))) != Baseline(facts, dims)
  {
    JoinHas(facts, dims, f, d);
    var rows := Join(facts, dims);
    var i :| 0 <= i < |rows| && rows[i] == Row(f, d.name);
    ChaosMeansBaselineIff(g, facts, dims, rows);
    assert !NeverNull(g, rows);
  }

  /** The rows that went into, and came out of, the attempts whose results are used. */
  function Inputs(s: State, used: seq<nat>): seq<Row>
    requires forall i | 0 <= i < |used| :: used[i] in s.attempts && s.attempts[used[i]].Going?
  {
    if used == [] then [] else s.attempts[used[0]].input + Inputs(s, used[1..])
  }

  function Outputs(s: State, used: seq<nat>): seq<Row>
    requires forall i | 0 <= i < |used| :: used[i] in s.attempts && s.attempts[used[i]].Going?
  {
    if used == [] then [] else s.attempts[used[0]].output + Outputs(s, used[1..])
  }

  lemma {:induction false} OutputsAreDrop(g: Guard, n: nat, s: State, used: seq<nat>)
    requires Inv(g, n, s)
    requires forall i | 0 <= i < |used| :: used[i] in s.attempts && s.attempts[used[i]].Going?
    ensures Outputs(s, used) == Drop(g, Inputs(s, used))
  {
    if used != [] {
      OutputsAreDrop(g, n, s, used[1..]);
      assert PassesThrough(g, s.attempts[used[0]]);
      DropConcat(g, s.attempts[used[0]].input, Inputs(s, used[1..]));
    }
  }

  /** Over whole runs: from a fresh budget of `n`, with attempts interleaved, broken and started
      again in any way, the attempts that make up the result give the baseline exactly when no
      guard is NULL. */
  lemma ChaosRunMeansBaselineIff(mode: string, g: Guard, n: nat, events: seq<Event>, used: seq<nat>,
                                 facts: seq<Fact>, dims: seq<Dim>)
    requires var s := Run(mode, g, State(n, map[], 0), events);
      && (forall i | 0 <= i < |used| :: used[i] in s.attempts && s.attempts[used[i]].Going?)
      && multiset(Inputs(s, used)) == multiset(Join(facts, dims))
    ensures var s := Run(mode, g, State(n, map[], 0), events);
      && s.tokens + s.faults == n
      && (Aggregate(Outputs(s, used)) == Baseline(facts, dims) <==> NeverNull(g, Join(facts, dims)))
  {
    var s := Run(mode, g, State(n, map[], 0), events);
    FaultsStayWithinBudget(mode, g, n, State(n, map[], 0), events);
    OutputsAreDrop(g, n, s, used);
    ChaosMeansBaselineIff(g, facts, dims, Inputs(s, used));
  }

  /** The optimizer may test the guard before the join: it depends on the fact alone. */
  lemma {:induction false} GuardPushesBelowJoin(g: Guard, facts: seq<Fact>, dims: seq<Dim>)
    ensures Drop(g, Join(facts, dims)) == Join(Surviving(g, facts), dims)
  {
    if facts != [] {
      GuardPushesBelowJoin(g, facts[1..], dims);
      DropConcat(g, Matches(facts[0], dims), Join(facts[1..], dims));
      DropMatches(g, facts[0], dims);
      if g(facts[0]).Some? {
        assert Surviving(g, facts)[1..] == Surviving(g, facts[1..]);
      }
    }
  }

  function Surviving(g: Guard, facts: seq<Fact>): seq<Fact> {
    if facts == [] then []
    else if g(facts[0]).Some? then [facts[0]] + Surviving(g, facts[1..])
    else Surviving(g, facts[1..])
  }

  lemma {:induction false} DropMatches(g: Guard, f: Fact, dims: seq<Dim>)
    ensures Drop(g, Matches(f, dims)) == if g(f).Some? then Matches(f, dims) else []
  {
    if dims != [] {
      DropMatches(g, f, dims[1..]);
      if dims[0].key == f.key { assert Matches(f, dims)[1..] == Matches(f, dims[1..]); }
    }
  }
}
