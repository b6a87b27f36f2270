/** Queries under fault injection by several processes at once: every attempt takes its tokens by
    the racing steps of the shared directory. Seen from the outside it is the run in which each
    batch is decided at one instant. */
module ChaosRace {
  import opened Wrappers
  import B = FaultBudget
  import C = ChaosQuery

  /** The directory, the batches whose attempts are at it, and how far all attempts have come. */
  datatype Race = Race(budget: B.State, asking: map<nat, C.Event>, attempts: map<nat, C.Attempt>, faults: nat)

  datatype Move =
    | Pass(event: C.Event)               // no row of the batch is selected
    | Ask(call: nat, event: C.Event)     // one is: the attempt goes to the directory
    | Try(step: B.Step)                  // and takes a step there

  function Start(n: nat): Race {
    Race(B.Init(n), map[], map[], 0)
  }

  /** An attempt has its batches one after the other. */
  predicate Free(r: Race, attempt: nat) {
    && (attempt in r.attempts ==> r.attempts[attempt].Going?)
    && forall c | c in r.asking :: r.asking[c].attempt != attempt
  }

  predicate Enabled(g: C.Guard, r: Race, m: Move) {
    match m
    case Pass(e) => !C.Selected(C.Column(g, e.batch)) && Free(r, e.attempt)
    case Ask(c, e) => C.Selected(C.Column(g, e.batch)) && Free(r, e.attempt) && B.Enabled(r.budget, B.OpenDir(c)) && c !in r.asking
    case Try(s) => !s.OpenDir? && s.call in r.asking && B.Enabled(r.budget, s)
  }

  function SoFar(r: Race, attempt: nat): C.Attempt {
    if attempt in r.attempts then r.attempts[attempt] else C.Going([], [])
  }

  /** The attempt's answer: a fault if it won a token, else the batch is passed on. */
  function Answered(mode: string, g: C.Guard, r: Race, e: C.Event, won: bool): Race {
    var a := SoFar(r, e.attempt);
    if a.Broken? then r
    else if won then r.(attempts := r.attempts[e.attempt := C.Broken(C.FaultOf(mode))], faults := r.faults + 1)
    else r.(attempts := r.attempts[e.attempt := C.Going(a.input + e.batch, a.output + C.Keep(e.batch, C.Column(g, e.batch)))])
  }

  function Next(mode: string, g: C.Guard, r: Race, m: Move): Race
    requires Enabled(g, r, m)
  {
    match m
    case Pass(e) => Answered(mode, g, r, e, false)
    case Ask(c, e) => r.(budget := B.Next(r.budget, B.OpenDir(c)), asking := r.asking[c := e])
    case Try(s) =>
      var after := r.(budget := B.Next(r.budget, s));
      var call := after.budget.calls[s.call];
      if call.Scanning? then after
      else Answered(mode, g, after.(asking := r.asking - {s.call}), r.asking[s.call], call.won)
  }

  /** What the outside sees. */
  function View(r: Race): C.State {
    C.State(|r.budget.tokens|, r.attempts, r.faults)
  }

  // ---------------------------------------------------------------------------
  // Each move is a step of the run without races, or no step
  // ---------------------------------------------------------------------------

  ghost predicate Asks(g: C.Guard, r: Race, c: nat)
    requires c in r.asking
  {
    && c in r.budget.calls && r.budget.calls[c].Scanning?
    && C.Selected(C.Column(g, r.asking[c].batch)) && SoFar(r, r.asking[c].attempt).Going?
  }

  ghost predicate Orderly(g: C.Guard, r: Race) {
    && (forall c | c in r.asking :: Asks(g, r, c))
    && (forall c, d | c in r.asking && d in r.asking && c != d :: r.asking[c].attempt != r.asking[d].attempt)
  }

  ghost predicate Inv(g: C.Guard, n: nat, r: Race) {
    B.Inv(n, r.budget) && Orderly(g, r)
  }

  /** The batch a move decides, if it decides one. */
  function Decided(g: C.Guard, r: Race, m: Move): Option<C.Event>
    requires Enabled(g, r, m)
  {
    match m
    case Pass(e) => Some(e)
    case Ask(_, _) => None
    case Try(s) => if B.Next(r.budget, s).calls[s.call].Scanning? then None else Some(r.asking[s.call])
  }

  /** What a step at the directory tells its caller. */
  lemma TryDecides(n: nat, b: B.State, s: B.Step)
    requires B.Inv(n, b) && B.Enabled(b, s) && !s.OpenDir?
    ensures var after := B.Next(b, s);
      && B.Inv(n, after) && after.calls.Keys == b.calls.Keys
      && (forall c | c in b.calls && c != s.call :: after.calls[c] == b.calls[c])
      && (after.calls[s.call].Scanning? ==> |after.tokens| == |b.tokens|)
      && (after.calls[s.call].Done? ==> (after.calls[s.call].won <==> 0 < |b.tokens|))
      && (after.calls[s.call].Done? ==> |after.tokens| == |b.tokens| - if after.calls[s.call].won then 1 else 0)
  {
    B.StepKeepsInv(n, b, s);
    B.StepRefinesCounter(n, b, s);
  }

  /** Answering one attempt leaves those that ask as they were. */
  lemma AnsweredKeeps(mode: string, g: C.Guard, r: Race, e: C.Event, won: bool, c: nat)
    requires c in r.asking && Asks(g, r, c) && r.asking[c].attempt != e.attempt
    ensures Asks(g, Answered(mode, g, r, e, won), c)
  {
  }

  lemma StaysOrderly(mode: string, g: C.Guard, r: Race, after: Race, call: nat, won: bool)
    requires Orderly(g, r) && call in r.asking && after == r.(budget := after.budget)
    requires forall c | c in r.budget.calls && c != call :: c in after.budget.calls && after.budget.calls[c] == r.budget.calls[c]
    ensures call in after.budget.calls && after.budget.calls[call].Scanning? ==> Orderly(g, after)
    ensures Orderly(g, Answered(mode, g, after.(asking := r.asking - {call}), r.asking[call], won))
  {
    var left := after.(asking := r.asking - {call});
    forall c | c in r.asking && c != call ensures Asks(g, after, c) && Asks(g, left, c) { assert Asks(g, r, c); }
    assert Asks(g, r, call);
    forall c | c in left.asking ensures Asks(g, Answered(mode, g, left, r.asking[call], won), c) {
      AnsweredKeeps(mode, g, left, r.asking[call], won, c);
    }
  }

  lemma TryKeeps(mode: string, g: C.Guard, n: nat, r: Race, s: B.Step)
    requires Inv(g, n, r) && Enabled(g, r, Try(s))
    ensures Inv(g, n, Next(mode, g, r, Try(s)))
  {
    TryDecides(n, r.budget, s);
    var after := r.(budget := B.Next(r.budget, s));
    var call := after.budget.calls[s.call];
    StaysOrderly(mode, g, r, after, s.call, call.Done? && call.won);
  }

  /** An answer given at the number of tokens left is a step of the run without races. */
  lemma AnswerIsStep(mode: string, g: C.Guard, before: Race, r: Race, e: C.Event, won: bool)
    requires r.attempts == before.attempts && r.faults == before.faults && SoFar(r, e.attempt).Going?
    requires won <==> 0 < |before.budget.tokens| && C.Selected(C.Column(g, e.batch))
    requires |r.budget.tokens| == |before.budget.tokens| - if won then 1 else 0
    ensures View(Answered(mode, g, r, e, won)) == C.Step(mode, g, View(before), e)
  {
  }

  lemma TryRefines(mode: string, g: C.Guard, n: nat, r: Race, s: B.Step)
    requires Inv(g, n, r) && Enabled(g, r, Try(s))
    ensures var after := View(Next(mode, g, r, Try(s)));
      match Decided(g, r, Try(s)) case None => after == View(r) case Some(e) => after == C.Step(mode, g, View(r), e)
  {
    assert Asks(g, r, s.call);
    TryDecides(n, r.budget, s);
    var after := r.(budget := B.Next(r.budget, s));
    var call := after.budget.calls[s.call];
    if call.Done? { AnswerIsStep(mode, g, r, after.(asking := r.asking - {s.call}), r.asking[s.call], call.won); }
  }

  lemma MoveRefines(mode: string, g: C.Guard, n: nat, r: Race, m: Move)
    requires Inv(g, n, r) && Enabled(g, r, m)
    ensures Inv(g, n, Next(mode, g, r, m))
    ensures var after := View(Next(mode, g, r, m));
      match Decided(g, r, m) case None => after == View(r) case Some(e) => after == C.Step(mode, g, View(r), e)
  {
    var next := Next(mode, g, r, m);
    match m
    case Pass(e) =>
      forall c | c in r.asking ensures Asks(g, next, c) {
        assert Asks(g, r, c);
        AnsweredKeeps(mode, g, r, e, false, c);
      }
      AnswerIsStep(mode, g, r, r, e, false);
    case Ask(c, e) =>
      B.StepKeepsInv(n, r.budget, B.OpenDir(c));
      forall d | d in next.asking ensures Asks(g, next, d) { if d != c { assert Asks(g, r, d); } }
    case Try(s) =>
      TryKeeps(mode, g, n, r, s);
      TryRefines(mode, g, n, r, s);
  }

  // ---------------------------------------------------------------------------
  // Whole runs
  // ---------------------------------------------------------------------------

  predicate Plays(mode: string, g: C.Guard, r: Race, moves: seq<Move>)
    decreases moves
  {
    moves == [] || (Enabled(g, r, moves[0]) && Plays(mode, g, Next(mode, g, r, moves[0]), moves[1..]))
  }

  function Play(mode: string, g: C.Guard, r: Race, moves: seq<Move>): Race
    requires Plays(mode, g, r, moves)
    decreases moves
  {
    if moves == [] then r else Play(mode, g, Next(mode, g, r, moves[0]), moves[1..])
  }

  /** The batches in the order in which they were decided. */
  function Order(mode: string, g: C.Guard, r: Race, moves: seq<Move>): seq<C.Event>
    requires Plays(mode, g, r, moves)
    decreases moves
  {
    if moves == [] then [] else
      var rest := Order(mode, g, Next(mode, g, r, moves[0]), moves[1..]);
      var decided := Decided(g, r, moves[0]);
      if decided.Some? then [decided.value] + rest else rest
  }

  lemma {:induction false} RaceIsRun(mode: string, g: C.Guard, n: nat, r: Race, moves: seq<Move>)
    requires Inv(g, n, r) && Plays(mode, g, r, moves)
    ensures View(Play(mode, g, r, moves)) == C.Run(mode, g, View(r), Order(mode, g, r, moves))
    decreases moves
  {
    if moves != [] {
      MoveRefines(mode, g, n, r, moves[0]);
      var next := Next(mode, g, r, moves[0]);
      RaceIsRun(mode, g, n, next, moves[1..]);
      var rest := Order(mode, g, next, moves[1..]);
      var decided := Decided(g, r, moves[0]);
      if decided.Some? { assert ([decided.value] + rest)[1..] == rest; }
    }
  }

  /** However the processes race for tokens: tokens and faults add up to the budget, and the
      attempts that make up the result give the baseline exactly when no guard is NULL. */
  lemma RacesMeanBaselineIff(mode: string, g: C.Guard, n: nat, moves: seq<Move>, used: seq<nat>, facts: seq<C.Fact>, dims: seq<C.Dim>)
    requires Plays(mode, g, Start(n), moves)
    requires var s := View(Play(mode, g, Start(n), moves));
      && (forall i | 0 <= i < |used| :: used[i] in s.attempts && s.attempts[used[i]].Going?)
      && multiset(C.Inputs(s, used)) == multiset(C.Join(facts, dims))
    ensures var s := View(Play(mode, g, Start(n), moves));
      && s.tokens + s.faults == n
      && (C.Aggregate(C.Outputs(s, used)) == C.Baseline(facts, dims) <==> C.NeverNull(g, C.Join(facts, dims)))
  {
    RaceIsRun(mode, g, n, Start(n), moves);
    C.ChaosRunMeansBaselineIff(mode, g, n, Order(mode, g, Start(n), moves), used, facts, dims);
  }
}
