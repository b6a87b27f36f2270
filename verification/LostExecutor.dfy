/** A whole job's stages when an executor is lost: passes over the stage graph that take the executor
    off every unfinished stage, restart the finished stages whose results went with it, and are
    repeated until a pass resets nothing. */
module LostExecutor {
  import opened StageTasks
  import opened ShuffleEdge

  /** A stage's record of one stage it reads: that stage's number and what it published. */
  datatype Input = Input(from: nat, entries: seq<Entry>, complete: bool)

  datatype Stage =
    | Unready(inputs: seq<Input>)
    | Ready(inputs: seq<Input>)
    | Active(inputs: seq<Input>, work: Work, n: nat)
    | Over(inputs: seq<Input>, tasks: seq<Task>, n: nat)
    | Broken

  type Graph = seq<Stage>

  predicate Unfinished(s: Stage) {
    s.Unready? || s.Ready? || s.Active?
  }

  // ---------------------------------------------------------------------------
  // One pass
  // ---------------------------------------------------------------------------

  predicate Hit(input: Input, x: string) {
    Keep(input.entries, x) != input.entries
  }

  predicate AnyHit(inputs: seq<Input>, x: string) {
    exists i | 0 <= i < |inputs| :: Hit(inputs[i], x)
  }

  function TakeOff(input: Input, x: string): Input {
    Input(input.from, Keep(input.entries, x), input.complete && !Hit(input, x))
  }

  function TakeOffAll(inputs: seq<Input>, x: string): (r: seq<Input>)
    ensures |r| == |inputs| && forall i | 0 <= i < |r| :: r[i] == TakeOff(inputs[i], x)
  {
    seq(|inputs|, i requires 0 <= i < |inputs| => TakeOff(inputs[i], x))
  }

  function Tidy(s: Stage, x: string): Stage
    requires Unfinished(s)
  {
    match s
    case Unready(inputs) => Unready(TakeOffAll(inputs, x))
    case Ready(inputs) => if AnyHit(inputs, x) then Unready(TakeOffAll(inputs, x)) else Ready(TakeOffAll(inputs, x))
    case Active(inputs, work, n) =>
      if AnyHit(inputs, x) then Unready(TakeOffAll(inputs, x)) else Active(TakeOffAll(inputs, x), Lose(work, x), n)
  }

  /** Some unfinished stage had to take results of stage `i` off its record. */
  predicate Named(g: Graph, i: nat, x: string) {
    exists j | 0 <= j < |g| && Unfinished(g[j]) :: Names(g[j].inputs, i, x)
  }

  predicate Names(inputs: seq<Input>, i: nat, x: string) {
    exists k | 0 <= k < |inputs| :: inputs[k].from == i && Hit(inputs[k], x)
  }

  function After(g: Graph, i: nat, x: string): Stage
    requires i < |g|
  {
    match g[i]
    case Over(inputs, tasks, n) =>
      var after := LoseSuccesses(tasks, x);
      if Named(g, i, x) && after != tasks then Active(inputs, Work(Undone(after, n), after), n) else g[i]
    case Broken => Broken
    case _ => Tidy(g[i], x)
  }

  function Pass(g: Graph, x: string): (r: Graph)
    ensures |r| == |g| && forall i | 0 <= i < |r| :: r[i] == After(g, i, x)
  {
    seq(|g|, i requires 0 <= i < |g| => After(g, i, x))
  }

  predicate AnyOn(tasks: seq<Task>, x: string) {
    exists t | 0 <= t < |tasks| :: IsOn(tasks[t].status, x)
  }

  /** Whether a pass counts stage `i` as reset. */
  predicate ResetsStage(g: Graph, i: nat, x: string)
    requires i < |g|
  {
    match g[i]
    case Unready(_) => false
    case Ready(inputs) => AnyHit(inputs, x)
    case Active(inputs, work, _) => AnyOn(work.tasks, x) || AnyHit(inputs, x)
    case Over(_, tasks, _) => Named(g, i, x) && LoseSuccesses(tasks, x) != tasks
    case Broken => false
  }

  predicate Resets(g: Graph, x: string) {
    exists i | 0 <= i < |g| :: ResetsStage(g, i, x)
  }

  // ---------------------------------------------------------------------------
  // Each pass that resets something leaves less on the executor
  // ---------------------------------------------------------------------------

  function ListedOn(inputs: seq<Input>, x: string): nat {
    if inputs == [] then 0 else |TasksOn(inputs[0].entries, x)| + ListedOn(inputs[1..], x)
  }

  function LiveOn(tasks: seq<Task>, x: string): nat {
    if tasks == [] then 0 else (if IsOn(tasks[0].status, x) then 1 else 0) + LiveOn(tasks[1..], x)
  }

  /** How much of a stage is on the executor: entries it reads, and tasks. */
  function OnStage(s: Stage, x: string): nat {
    match s
    case Unready(inputs) => ListedOn(inputs, x)
    case Ready(inputs) => ListedOn(inputs, x)
    case Active(inputs, work, _) => ListedOn(inputs, x) + LiveOn(work.tasks, x)
    case Over(inputs, tasks, _) => ListedOn(inputs, x) + LiveOn(tasks, x)
    case Broken => 0
  }

  function OnGraph(g: Graph, x: string): nat {
    if g == [] then 0 else OnStage(g[0], x) + OnGraph(g[1..], x)
  }

  lemma {:induction false} TakenOff(inputs: seq<Input>, x: string)
    ensures ListedOn(TakeOffAll(inputs, x), x) == 0
    ensures ListedOn(inputs, x) == 0 <==> !AnyHit(inputs, x)
  {
    if inputs != [] {
      TakenOff(inputs[1..], x);
      assert TakeOffAll(inputs, x)[1..] == TakeOffAll(inputs[1..], x);
      KeepHolds(inputs[0].entries, x);
      KeepHolds(Keep(inputs[0].entries, x), x);
      NothingOn(Keep(inputs[0].entries, x), x);
      AnyHitSplits(inputs, x);
    }
  }

  lemma {:induction false} NothingOn(entries: seq<Entry>, x: string)
    requires forall e | e in entries :: e.executor != x
    ensures TasksOn(entries, x) == []
  {
    if entries != [] {
      assert entries[0] in entries && forall e | e in entries[1..] :: e in entries;
      NothingOn(entries[1..], x);
    }
  }

  lemma AnyHitSplits(inputs: seq<Input>, x: string)
    requires inputs != []
    ensures AnyHit(inputs, x) <==> Hit(inputs[0], x) || AnyHit(inputs[1..], x)
  {
    if AnyHit(inputs[1..], x) {
      var i :| 0 <= i < |inputs[1..]| && Hit(inputs[1..][i], x);
      assert Hit(inputs[i + 1], x);
    }
    if AnyHit(inputs, x) && !Hit(inputs[0], x) {
      var i :| 0 <= i < |inputs| && Hit(inputs[i], x);
      assert Hit(inputs[1..][i - 1], x);
    }
  }

  /** Tasks that only leave the executor. */
  predicate Leaves(tasks: seq<Task>, after: seq<Task>, x: string) {
    |after| == |tasks| && forall t | 0 <= t < |tasks| :: after[t] == tasks[t] || (IsOn(tasks[t].status, x) && !IsOn(after[t].status, x))
  }

  lemma {:induction false} FewerLive(tasks: seq<Task>, after: seq<Task>, x: string)
    requires Leaves(tasks, after, x)
    ensures LiveOn(after, x) <= LiveOn(tasks, x)
    ensures after != tasks ==> LiveOn(after, x) < LiveOn(tasks, x)
  {
    if tasks != [] {
      FewerLive(tasks[1..], after[1..], x);
      assert tasks == [tasks[0]] + tasks[1..] && after == [after[0]] + after[1..];
    }
  }

  lemma StageShrinks(g: Graph, i: nat, x: string)
    requires i < |g|
    ensures OnStage(After(g, i, x), x) <= OnStage(g[i], x)
    ensures ResetsStage(g, i, x) ==> OnStage(After(g, i, x), x) < OnStage(g[i], x)
  {
    match g[i]
    case Unready(inputs) => TakenOff(inputs, x);
    case Ready(inputs) => TakenOff(inputs, x);
    case Active(inputs, work, _) =>
      TakenOff(inputs, x);
      FewerLive(work.tasks, LoseTasks(work.tasks, x), x);
      if AnyOn(work.tasks, x) {
        var t :| 0 <= t < |work.tasks| && IsOn(work.tasks[t].status, x);
        assert LoseTasks(work.tasks, x)[t] != work.tasks[t];
      }
    case Over(_, tasks, _) => FewerLive(tasks, LoseSuccesses(tasks, x), x);
    case Broken =>
  }

  lemma {:induction false} GraphShrinks(g: Graph, h: Graph, x: string)
    requires |g| == |h| && forall i | 0 <= i < |g| :: OnStage(h[i], x) <= OnStage(g[i], x)
    ensures OnGraph(h, x) <= OnGraph(g, x)
    ensures (exists i | 0 <= i < |g| :: OnStage(h[i], x) < OnStage(g[i], x)) ==> OnGraph(h, x) < OnGraph(g, x)
  {
    if g != [] {
      GraphShrinks(g[1..], h[1..], x);
      if exists i | 0 <= i < |g| :: OnStage(h[i], x) < OnStage(g[i], x) {
        var i :| 0 <= i < |g| && OnStage(h[i], x) < OnStage(g[i], x);
        if 0 < i { assert OnStage(h[1..][i - 1], x) < OnStage(g[1..][i - 1], x); }
      }
    }
  }

  lemma PassShrinks(g: Graph, x: string)
    ensures Resets(g, x) ==> OnGraph(Pass(g, x), x) < OnGraph(g, x)
  {
    forall i | 0 <= i < |g|
      ensures OnStage(Pass(g, x)[i], x) <= OnStage(g[i], x)
      ensures ResetsStage(g, i, x) ==> OnStage(Pass(g, x)[i], x) < OnStage(g[i], x)
    {
      StageShrinks(g, i, x);
    }
    GraphShrinks(g, Pass(g, x), x);
  }

  /** The loop: passes until one resets nothing. */
  function Settle(g: Graph, x: string): Graph
    decreases OnGraph(g, x)
  {
    PassShrinks(g, x);
    if Resets(g, x) then Settle(Pass(g, x), x) else Pass(g, x)
  }

  method ResetOnLost(g: Graph, x: string) returns (r: Graph)
    ensures r == Settle(g, x)
  {
    r := g;
    while Resets(r, x)
      invariant Settle(r, x) == Settle(g, x)
      decreases OnGraph(r, x)
    {
      PassShrinks(r, x);
      r := Pass(r, x);
    }
    r := Pass(r, x);
  }

  // ---------------------------------------------------------------------------
  // What the loop leaves
  // ---------------------------------------------------------------------------

  /** An unfinished stage with no task on the executor and nothing to read from it. */
  ghost predicate Clean(s: Stage, x: string) {
    Unfinished(s) ==>
      && !AnyHit(s.inputs, x)
      && (s.Active? ==> !AnyOn(s.work.tasks, x))
  }

  lemma TakenOffStays(inputs: seq<Input>, x: string)
    ensures !AnyHit(TakeOffAll(inputs, x), x)
  {
    TakenOff(inputs, x);
    TakenOff(TakeOffAll(inputs, x), x);
  }

  lemma PassCleans(g: Graph, x: string, i: nat)
    requires i < |g| && !Resets(g, x)
    ensures Clean(Pass(g, x)[i], x)
  {
    assert !ResetsStage(g, i, x);
    if Unfinished(g[i]) { TakenOffStays(g[i].inputs, x); }
  }

  /** The loop ends with no unfinished stage left on the executor, in its tasks or its inputs. */
  lemma {:induction false} SettleCleans(g: Graph, x: string, i: nat)
    requires i < |g|
    ensures |Settle(g, x)| == |g| && Clean(Settle(g, x)[i], x)
    decreases OnGraph(g, x)
  {
    if Resets(g, x) {
      PassShrinks(g, x);
      SettleCleans(Pass(g, x), x, i);
    } else {
      PassCleans(g, x, i);
    }
  }

  /** What a stage reads from a finished one are successes of that one. */
  ghost predicate Linked(g: Graph) {
    forall j, k | 0 <= j < |g| && !g[j].Broken? && 0 <= k < |g[j].inputs| :: UpToDate(g, g[j].inputs[k])
  }

  ghost predicate UpToDate(g: Graph, input: Input) {
    input.from < |g| && g[input.from].Over? ==>
      forall e | e in input.entries ::
        e.task < |g[input.from].tasks| && g[input.from].tasks[e.task].status == Successful(e.executor)
  }

  lemma PassReads(g: Graph, x: string, j: nat, k: nat)
    requires j < |g| && !g[j].Broken? && k < |g[j].inputs|
    ensures var s := Pass(g, x)[j];
      && !s.Broken? && |s.inputs| == |g[j].inputs| && s.inputs[k].from == g[j].inputs[k].from
      && s.inputs[k].entries == if Unfinished(g[j]) then Keep(g[j].inputs[k].entries, x) else g[j].inputs[k].entries
  {
  }

  lemma PassUpdates(g: Graph, x: string, j: nat, k: nat)
    requires j < |g| && !g[j].Broken? && k < |g[j].inputs| && UpToDate(g, g[j].inputs[k])
    ensures UpToDate(Pass(g, x), Pass(g, x)[j].inputs[k])
  {
    var h, from := Pass(g, x), g[j].inputs[k].from;
    PassReads(g, x, j, k);
    KeepHolds(g[j].inputs[k].entries, x);
    if from < |g| && h[from].Over? { assert h[from] == g[from]; }
  }

  lemma PassLinks(g: Graph, x: string)
    requires Linked(g)
    ensures Linked(Pass(g, x))
  {
    var h := Pass(g, x);
    forall j, k | 0 <= j < |h| && !h[j].Broken? && 0 <= k < |h[j].inputs| ensures UpToDate(h, h[j].inputs[k]) {
      assert !g[j].Broken? && |h[j].inputs| == |g[j].inputs|;
      PassUpdates(g, x, j, k);
    }
  }

  lemma HitLoses(input: Input, tasks: seq<Task>, x: string)
    requires Hit(input, x)
    requires forall e | e in input.entries :: e.task < |tasks| && tasks[e.task].status == Successful(e.executor)
    ensures LoseSuccesses(tasks, x) != tasks
  {
    KeepHolds(input.entries, x);
    var t := TasksOn(input.entries, x)[0];
    assert t in TasksOn(input.entries, x);
    assert LoseSuccesses(tasks, x)[t] != tasks[t];
  }

  /** A finished stage whose results an unfinished one had to take off is restarted in that pass. */
  lemma TakenOffRestarts(g: Graph, x: string, j: nat, k: nat)
    requires Linked(g) && j < |g| && Unfinished(g[j]) && k < |g[j].inputs| && Hit(g[j].inputs[k], x)
    requires g[j].inputs[k].from < |g|
    ensures !Pass(g, x)[g[j].inputs[k].from].Over?
  {
    var input := g[j].inputs[k];
    var i := input.from;
    assert Names(g[j].inputs, i, x) && Named(g, i, x);
    if g[i].Over? {
      assert UpToDate(g, input);
      HitLoses(input, g[i].tasks, x);
    }
  }

  lemma {:induction false} SettleNeverEnds(g: Graph, x: string, i: nat)
    requires i < |g| && !g[i].Over?
    ensures |Settle(g, x)| == |g| && !Settle(g, x)[i].Over?
    decreases OnGraph(g, x)
  {
    PassShrinks(g, x);
    if Resets(g, x) { SettleNeverEnds(Pass(g, x), x, i); }
  }

  /** Whatever the loop takes off a stage's record is made again: the stage it was read from is not
      left finished. A record that lost nothing is as it was. */
  lemma {:induction false} SettleRestarts(g: Graph, x: string, j: nat, k: nat)
    requires Linked(g) && j < |g| && !g[j].Broken? && k < |g[j].inputs|
    ensures var r := Settle(g, x); var from := g[j].inputs[k].from;
      && |r| == |g| && !r[j].Broken? && |r[j].inputs| == |g[j].inputs| && r[j].inputs[k].from == from
      && (from < |g| && r[from].Over? ==> r[j].inputs[k].entries == g[j].inputs[k].entries)
    decreases OnGraph(g, x)
  {
    var from := g[j].inputs[k].from;
    PassReads(g, x, j, k);
    if Unfinished(g[j]) && Hit(g[j].inputs[k], x) && from < |g| { TakenOffRestarts(g, x, j, k); }
    if Resets(g, x) {
      PassShrinks(g, x);
      PassLinks(g, x);
      SettleRestarts(Pass(g, x), x, j, k);
      if from < |g| && !Pass(g, x)[from].Over? { SettleNeverEnds(Pass(g, x), x, from); }
    }
  }
}
