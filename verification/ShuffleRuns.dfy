/** Whole runs of a shuffle edge: what every run of sound steps gives, which steps are not sound,
    and what becomes of the consumer's input when one of those is taken. */
module ShuffleRuns {
  import opened StageTasks
  import opened ShuffleEdge

  // ---------------------------------------------------------------------------
  // Runs
  // ---------------------------------------------------------------------------

  predicate Plays(e: Edge, steps: seq<Step>)
    decreases steps
  {
    steps == [] || (Enabled(e, steps[0]) && Plays(Next(e, steps[0]), steps[1..]))
  }

  function Play(e: Edge, steps: seq<Step>): Edge
    requires Plays(e, steps)
    decreases steps
  {
    if steps == [] then e else Play(Next(e, steps[0]), steps[1..])
  }

  predicate AllSound(e: Edge, steps: seq<Step>)
    requires Plays(e, steps)
    decreases steps
  {
    steps == [] || (Sound(e, steps[0]) && AllSound(Next(e, steps[0]), steps[1..]))
  }

  function Init(n: nat): Edge {
    Edge(n, Waiting(0), Unresolved(0, {}), [], false)
  }

  lemma {:induction false} SoundRunKeeps(e: Edge, steps: seq<Step>)
    requires EdgeInv(e) && Plays(e, steps) && AllSound(e, steps)
    ensures EdgeInv(Play(e, steps))
    ensures !Play(e, steps).consumer.Unresolved? ==> ExactlyOnce(Play(e, steps).ledger, e.n)
    ensures Play(e, steps).n == e.n
    decreases steps
  {
    if steps == [] {
      if !e.consumer.Unresolved? { CompleteIsExact(e); }
    } else {
      SoundStepKeeps(e, steps[0]);
      SoundRunKeeps(Next(e, steps[0]), steps[1..]);
    }
  }

  /** From the start of a job, over every run of sound steps, a consumer that is ready, running or
      done has each partition of the producer in its input once - through batches of reports in
      any order, retries, lost executors and failed fetches. */
  lemma InputsAreExact(n: nat, steps: seq<Step>)
    requires Plays(Init(n), steps) && AllSound(Init(n), steps)
    ensures EdgeInv(Play(Init(n), steps))
    ensures !Play(Init(n), steps).consumer.Unresolved? ==> ExactlyOnce(Play(Init(n), steps).ledger, n)
  {
    SoundRunKeeps(Init(n), steps);
  }

  lemma FirstStep(e: Edge, s: Step, rest: seq<Step>)
    requires Enabled(e, s) && Plays(Next(e, s), rest)
    ensures Plays(e, [s] + rest) && Play(e, [s] + rest) == Play(Next(e, s), rest)
    ensures Sound(e, s) && AllSound(Next(e, s), rest) ==> AllSound(e, [s] + rest)
  {
    assert ([s] + rest)[1..] == rest;
  }

  lemma {:induction false} ThenSteps(e: Edge, steps: seq<Step>, more: seq<Step>)
    requires Plays(e, steps) && Plays(Play(e, steps), more)
    ensures Plays(e, steps + more) && Play(e, steps + more) == Play(Play(e, steps), more)
    ensures AllSound(e, steps) && AllSound(Play(e, steps), more) ==> AllSound(e, steps + more)
    decreases steps
  {
    if steps == [] {
      assert steps + more == more;
    } else {
      ThenSteps(Next(e, steps[0]), steps[1..], more);
      FirstStep(e, steps[0], steps[1..] + more);
      assert [steps[0]] + (steps[1..] + more) == steps + more;
    }
  }

  // ---------------------------------------------------------------------------
  // Which steps are not sound
  // ---------------------------------------------------------------------------

  /** A task is listed twice, or one that has not succeeded is listed. */
  ghost predicate Broken(d: Desk) {
    !DistinctTasks(d.ledger) || exists e | e in d.ledger :: e.task < |d.work.tasks| && !d.work.tasks[e.task].status.Successful?
  }

  lemma BrokenIsNotPublished(d: Desk)
    requires Broken(d)
    ensures !Published(d.ledger, d.work.tasks)
  {
  }

  lemma MoreIsNotDistinct(ledger: seq<Entry>, entry: Entry, more: Entry)
    requires entry in ledger && entry.task == more.task
    ensures !DistinctTasks(ledger + [more])
  {
    var i :| 0 <= i < |ledger| && ledger[i] == entry;
    assert (ledger + [more])[i].task == (ledger + [more])[|ledger|].task;
  }

  lemma TellStaysBroken(attempt: nat, d: Desk, r: Report)
    requires Broken(d)
    ensures Broken(Tell(attempt, d, r))
  {
    if Counts(attempt, d.work, r) {
      var after := Tell(attempt, d, r);
      if !DistinctTasks(d.ledger) {
        var i, j :| 0 <= i < j < |d.ledger| && d.ledger[i].task == d.ledger[j].task;
        assert after.ledger[i] == d.ledger[i] && after.ledger[j] == d.ledger[j];
      } else {
        var e :| e in d.ledger && e.task < |d.work.tasks| && !d.work.tasks[e.task].status.Successful?;
        assert e in after.ledger;
        if r.status.Successful? && r.task == e.task {
          MoreIsNotDistinct(d.ledger, e, Entry(r.task, r.status.executor, d.work.tasks[r.task].slice));
        }
      }
    }
  }

  lemma UnsoundBreaks(attempt: nat, d: Desk, r: Report)
    requires Published(d.ledger, d.work.tasks) && !SoundReport(attempt, d.work, r)
    ensures Broken(Tell(attempt, d, r))
  {
    assert Listed(d.ledger, r.task);
    var e :| e in d.ledger && e.task == r.task;
    if r.status.Successful? {
      MoreIsNotDistinct(d.ledger, e, Entry(r.task, r.status.executor, d.work.tasks[r.task].slice));
    } else {
      assert e in Tell(attempt, d, r).ledger;
    }
  }

  lemma {:induction false} StaysBroken(attempt: nat, d: Desk, reports: seq<Report>)
    requires Broken(d)
    ensures Broken(TellAll(attempt, d, reports))
    decreases reports
  {
    if reports != [] {
      TellStaysBroken(attempt, d, reports[0]);
      StaysBroken(attempt, Tell(attempt, d, reports[0]), reports[1..]);
    }
  }

  lemma {:induction false} UnsoundReportsBreak(attempt: nat, d: Desk, reports: seq<Report>, n: nat)
    requires DeskInv(d, n, []) && !SoundReports(attempt, d, reports)
    ensures Broken(TellAll(attempt, d, reports))
    decreases reports
  {
    if SoundReport(attempt, d.work, reports[0]) {
      TellKeeps(attempt, d, reports[0], n, []);
      UnsoundReportsBreak(attempt, Tell(attempt, d, reports[0]), reports[1..], n);
    } else {
      UnsoundBreaks(attempt, d, reports[0]);
      StaysBroken(attempt, Tell(attempt, d, reports[0]), reports[1..]);
    }
  }

  /** Which steps keep the consumer's record exact: exactly the sound ones. A late failure in the
      same batch could by chance take away what an unsound report did, so batches with one are
      sound or not judged. */
  lemma StepKeepsIff(e: Edge, s: Step)
    requires EdgeInv(e) && Enabled(e, s)
    requires s.Batch? && e.producer.Busy? ==> News(e.consumer.reasons, s.late) == []
    ensures EdgeInv(Next(e, s)) <==> Sound(e, s)
  {
    if Sound(e, s) {
      SoundStepKeeps(e, s);
    } else if s.Batch? {
      var d := Desk(e.producer.work, e.ledger);
      UnsoundReportsBreak(e.producer.attempt, d, s.reports, e.n);
      BrokenIsNotPublished(TellAll(e.producer.attempt, d, s.reports));
    }
  }

  /** Telling an edge twice that an executor is lost changes nothing more. */
  lemma LoseTwice(e: Edge, x: string)
    requires EdgeInv(e)
    ensures OnLost(OnLost(e, x), x) == OnLost(e, x)
  {
    if !e.consumer.Ended? {
      var once := OnLost(e, x);
      LoseExecutorKeeps(e, x);
      KeepHolds(e.ledger, x);
      KeepAgain(e.ledger, x);
      if once.producer.Busy? {
        var tasks := once.producer.work.tasks;
        forall t | 0 <= t < |tasks| ensures !IsOn(tasks[t].status, x) { NoneLeft(e, x, t); }
        NoSlices(tasks, x, |tasks|);
        assert LoseTasks(tasks, x) == tasks;
        assert Lose(once.producer.work, x) == once.producer.work;
      }
    }
  }

  lemma NoneLeft(e: Edge, x: string, t: nat)
    requires EdgeInv(e) && !e.consumer.Ended?
    requires OnLost(e, x).producer.Busy? && t < |OnLost(e, x).producer.work.tasks|
    ensures !IsOn(OnLost(e, x).producer.work.tasks[t].status, x)
  {
    if e.producer.Finished? {
      var w := Work([], e.producer.tasks);
      var p := w.tasks[t].slice[0];
      assert p in w.tasks[t].slice && Covered(w.tasks, p);
      var u :| 0 <= u < |w.tasks| && w.tasks[u].status.Successful? && p in w.tasks[u].slice;
      UnsealedHolds(w, e.n, u, t, p);
    }
  }

  lemma {:induction false} NoSlices(tasks: seq<Task>, x: string, i: nat)
    requires i <= |tasks| && forall t | 0 <= t < |tasks| :: !IsOn(tasks[t].status, x)
    ensures Slices(tasks, x, i) == []
  {
    if 0 < i { NoSlices(tasks, x, i - 1); }
  }

  lemma {:induction false} KeepAgain(ledger: seq<Entry>, x: string)
    ensures Keep(Keep(ledger, x), x) == Keep(ledger, x)
  {
    if ledger != [] {
      KeepAgain(ledger[1..], x);
      if ledger[0].executor == x {
        assert Keep(ledger, x) == Keep(ledger[1..], x);
      } else {
        assert Keep(ledger, x)[1..] == Keep(ledger[1..], x);
      }
    }
  }

  // ---------------------------------------------------------------------------
  // Finishing a stage
  // ---------------------------------------------------------------------------

  /** Every partition waits, runs or has succeeded: none is stuck with a failure nobody retries. */
  predicate Workable(w: Work, n: nat) {
    forall p: nat | p < n :: p in w.pending || Held(w.tasks, p)
  }

  predicate Held(tasks: seq<Task>, p: nat) {
    exists t | 0 <= t < |tasks| :: !tasks[t].status.Failed? && p in tasks[t].slice
  }

  function RunningCount(tasks: seq<Task>): nat {
    if tasks == [] then 0 else (if tasks[0].status.Running? then 1 else 0) + RunningCount(tasks[1..])
  }

  lemma {:induction false} OneLessRunning(tasks: seq<Task>, t: nat, status: Status)
    requires t < |tasks| && tasks[t].status.Running? && !status.Running?
    ensures RunningCount(tasks[t := tasks[t].(status := status)]) == RunningCount(tasks) - 1
  {
    var after := tasks[t := tasks[t].(status := status)];
    if t == 0 {
      assert after[1..] == tasks[1..];
    } else {
      OneLessRunning(tasks[1..], t - 1, status);
      assert after[1..] == tasks[1..][t - 1 := tasks[t].(status := status)];
    }
  }

  /** A stage at work on an edge whose consumer waits, whatever its record says. */
  ghost predicate AtWork(e: Edge) {
    && e.producer.Busy? && e.consumer.Unresolved?
    && Inv(e.producer.work, e.n) && Workable(e.producer.work, e.n)
  }

  function One(r: Report): Step {
    Batch([r], [], true)
  }

  lemma OneReport(e: Edge, r: Report)
    requires e.producer.Busy? && e.consumer.Unresolved? && (Counts(e.producer.attempt, e.producer.work, r) ==> Routine(r))
    ensures Enabled(e, One(r))
    ensures var d := Tell(e.producer.attempt, Desk(e.producer.work, e.ledger), r);
      Next(e, One(r)) == Conclude(e.(producer := Busy(e.producer.attempt, d.work), ledger := d.ledger))
    ensures Sound(e, One(r)) <==> SoundReport(e.producer.attempt, e.producer.work, r)
  {
    var a, d := e.producer.attempt, Desk(e.producer.work, e.ledger);
    assert [r][1..] == [];
    assert TellAll(a, d, [r]) == TellAll(a, Tell(a, d, r), []) == Tell(a, d, r);
    assert News(e.consumer.reasons, []) == [];
    assert SoundReports(a, d, [r]) == (SoundReport(a, d.work, r) && SoundReports(a, Tell(a, d, r), []));
    assert e.consumer.(reasons := e.consumer.reasons + set x | x in []) == e.consumer;
  }

  lemma WorkableAfter(w: Work, v: Work, n: nat)
    requires Workable(w, n) && |w.tasks| <= |v.tasks|
    requires forall p | p in w.pending :: p in v.pending || Held(v.tasks, p)
    requires forall t | 0 <= t < |w.tasks| :: v.tasks[t].slice == w.tasks[t].slice
    requires forall t, p | 0 <= t < |w.tasks| && p in w.tasks[t].slice && !w.tasks[t].status.Failed? ::
      !v.tasks[t].status.Failed? || p in v.pending
    ensures Workable(v, n)
  {
    forall p: nat | p < n ensures p in v.pending || Held(v.tasks, p) {
      if p !in w.pending {
        assert Held(w.tasks, p);
        var t :| 0 <= t < |w.tasks| && !w.tasks[t].status.Failed? && p in w.tasks[t].slice;
        assert p in v.tasks[t].slice;
      }
    }
  }

  lemma NothingRuns(w: Work, n: nat)
    requires Workable(w, n) && w.pending == [] && forall t | 0 <= t < |w.tasks| :: !w.tasks[t].status.Running?
    ensures Done(w, n)
  {
    forall p: nat | p < n ensures Covered(w.tasks, p) { assert Held(w.tasks, p); }
  }

  lemma FreshWorks(n: nat)
    requires 0 < n
    ensures Inv(Fresh(n), n) && Workable(Fresh(n), n) && !Done(Fresh(n), n)
  {
    FreshKeeps(n);
    forall p: nat | p < n ensures p in Fresh(n).pending { assert Range(n)[p] == p; }
  }

  /** The entries from `from` on cover partition `p`. */
  predicate CoversFrom(ledger: seq<Entry>, from: nat, p: nat) {
    exists i | from <= i < |ledger| :: p in ledger[i].slice
  }

  /** A stage that is not stuck can be finished by plain steps, and then publishes again every
      partition that no success covered before. */
  lemma {:induction false} Finish(e: Edge, x: string) returns (steps: seq<Step>)
    requires AtWork(e) && !Done(e.producer.work, e.n)
    ensures Plays(e, steps) && AllSound(e, steps) && Plain(steps)
    ensures var end := Play(e, steps);
      && end.complete && end.consumer == e.consumer && end.n == e.n && e.ledger <= end.ledger
      && forall p: nat | p < e.n && !Covered(e.producer.work.tasks, p) :: CoversFrom(end.ledger, |e.ledger|, p)
    decreases |e.producer.work.pending|, RunningCount(e.producer.work.tasks)
  {
    var w := e.producer.work;
    if exists t | 0 <= t < |w.tasks| :: w.tasks[t].status.Running? {
      var t :| 0 <= t < |w.tasks| && w.tasks[t].status.Running?;
      steps := FinishByReport(e, x, t);
    } else {
      if w.pending == [] { NothingRuns(w, e.n); }
      steps := FinishByHand(e, x);
    }
  }

  /** Only hand-outs and reports. */
  predicate Plain(steps: seq<Step>) {
    forall i | 0 <= i < |steps| :: steps[i].Hand? || (steps[i].Batch? && steps[i].late == [])
  }

  lemma FinishByReport(e: Edge, x: string, t: nat) returns (steps: seq<Step>)
    requires AtWork(e) && !Done(e.producer.work, e.n)
    requires t < |e.producer.work.tasks| && e.producer.work.tasks[t].status.Running?
    ensures Plays(e, steps) && AllSound(e, steps) && Plain(steps)
    ensures var end := Play(e, steps);
      && end.complete && end.consumer == e.consumer && end.n == e.n && e.ledger <= end.ledger
      && forall p: nat | p < e.n && !Covered(e.producer.work.tasks, p) :: CoversFrom(end.ledger, |e.ledger|, p)
    decreases |e.producer.work.pending|, RunningCount(e.producer.work.tasks), 0
  {
    var w, r := e.producer.work, Report(t, e.producer.attempt, Successful(x));
    var v := Update(w, t, r.status);
    OneReport(e, r);
    UpdateKeeps(w, e.n, t, r.status);
    WorkableAfter(w, v, e.n);
    OneLessRunning(w.tasks, t, r.status);
    var next := Next(e, One(r));
    assert next.ledger == e.ledger + [Entry(t, x, w.tasks[t].slice)];
    if Done(v, e.n) {
      steps := [One(r)];
      FirstStep(e, One(r), []);
      assert [One(r)] + [] == [One(r)];
    } else {
      var rest := Finish(next, x);
      steps := [One(r)] + rest;
      FirstStep(e, One(r), rest);
    }
    var end := Play(e, steps);
    forall p: nat | p < e.n && !Covered(w.tasks, p) ensures CoversFrom(end.ledger, |e.ledger|, p) {
      ReportCovers(w, t, x, p);
      if p in w.tasks[t].slice {
        assert end.ledger[|e.ledger|] == next.ledger[|e.ledger|];
      } else if !Done(v, e.n) {
        assert CoversFrom(end.ledger, |next.ledger|, p);
      }
    }
  }

  lemma ReportCovers(w: Work, t: nat, x: string, p: nat)
    requires t < |w.tasks| && w.tasks[t].status.Running?
    ensures Covered(Update(w, t, Successful(x)).tasks, p) <==> Covered(w.tasks, p) || p in w.tasks[t].slice
  {
    var v := Update(w, t, Successful(x));
    if Covered(w.tasks, p) {
      var u :| 0 <= u < |w.tasks| && w.tasks[u].status.Successful? && p in w.tasks[u].slice;
      assert v.tasks[u] == w.tasks[u];
    }
    if p in w.tasks[t].slice { assert p in v.tasks[t].slice; }
    if Covered(v.tasks, p) {
      var u :| 0 <= u < |v.tasks| && v.tasks[u].status.Successful? && p in v.tasks[u].slice;
      assert u != t ==> w.tasks[u] == v.tasks[u];
    }
  }

  lemma FinishByHand(e: Edge, x: string) returns (steps: seq<Step>)
    requires AtWork(e) && e.producer.work.pending != []
    ensures Plays(e, steps) && AllSound(e, steps) && Plain(steps)
    ensures var end := Play(e, steps);
      && end.complete && end.consumer == e.consumer && end.n == e.n && e.ledger <= end.ledger
      && forall p: nat | p < e.n && !Covered(e.producer.work.tasks, p) :: CoversFrom(end.ledger, |e.ledger|, p)
    decreases |e.producer.work.pending|, 0, 0
  {
    var w := e.producer.work;
    var s := Hand(|w.pending|, x);
    var v := Bind(w, |w.pending|, x);
    assert w.pending[..|w.pending|] == w.pending;
    assert v == Work([], w.tasks + [Task(Running(x), w.pending)]);
    BindKeeps(w, e.n, |w.pending|, x);
    assert v.tasks[|w.tasks|].status.Running? && v.tasks[|w.tasks|].slice == w.pending;
    WorkableAfter(w, v, e.n);
    var p := w.pending[0];
    assert p in v.tasks[|w.tasks|].slice;
    if Covered(v.tasks, p) {
      var u :| 0 <= u < |v.tasks| && v.tasks[u].status.Successful? && p in v.tasks[u].slice;
      UnsealedHolds(w, e.n, u, u, p);
    }
    var rest := Finish(Next(e, s), x);
    steps := [s] + rest;
    FirstStep(e, s, rest);
    forall q: nat | Covered(v.tasks, q) ensures Covered(w.tasks, q) {
      var u :| 0 <= u < |v.tasks| && v.tasks[u].status.Successful? && q in v.tasks[u].slice;
      assert w.tasks[u] == v.tasks[u];
    }
  }

  // ---------------------------------------------------------------------------
  // Runs in which every failure is retried leave nothing stuck
  // ---------------------------------------------------------------------------

  predicate Retried(reports: seq<Report>) {
    forall r | r in reports :: r.status.Failed? ==> r.status.retryable
  }

  predicate Live(e: Edge) {
    e.producer.Busy? ==> Workable(e.producer.work, e.n)
  }

  lemma TellWorks(attempt: nat, d: Desk, r: Report, n: nat)
    requires Workable(d.work, n) && (r.status.Failed? ==> r.status.retryable)
    ensures Workable(Tell(attempt, d, r).work, n)
  {
    if Counts(attempt, d.work, r) { WorkableAfter(d.work, Tell(attempt, d, r).work, n); }
  }

  lemma {:induction false} TellAllWorks(attempt: nat, d: Desk, reports: seq<Report>, n: nat)
    requires Workable(d.work, n) && Retried(reports)
    ensures Workable(TellAll(attempt, d, reports).work, n)
    decreases reports
  {
    if reports != [] {
      assert reports[0] in reports && forall r | r in reports[1..] :: r in reports;
      TellWorks(attempt, d, reports[0], n);
      TellAllWorks(attempt, Tell(attempt, d, reports[0]), reports[1..], n);
    }
  }

  lemma {:induction false} ResetEachWorks(w: Work, ids: seq<nat>, n: nat)
    requires Workable(w, n)
    ensures Workable(ResetEach(w, ids), n)
    decreases ids
  {
    if ids != [] && ids[0] < |w.tasks| {
      WorkableAfter(w, Reset(w, ids[0]), n);
      ResetEachWorks(Reset(w, ids[0]), ids[1..], n);
    }
  }

  lemma BindWorks(w: Work, max: nat, x: string, n: nat)
    requires Workable(w, n)
    ensures Workable(Bind(w, max, x), n)
  {
    var take := Least(max, |w.pending|);
    if 0 < take {
      var v := Bind(w, max, x);
      assert w.pending == w.pending[..take] + w.pending[take..];
      forall p | p in w.pending ensures p in v.pending || Held(v.tasks, p) {
        if p in w.pending[..take] { assert p in v.tasks[|w.tasks|].slice; }
      }
      WorkableAfter(w, v, n);
    }
  }

  lemma UndoneWorks(tasks: seq<Task>, pending: seq<nat>, n: nat)
    requires forall p: nat :: p in pending <==> p < n && !Covered(tasks, p)
    ensures Workable(Work(pending, tasks), n)
  {
    forall p: nat | p < n && p !in pending ensures Held(tasks, p) { assert Covered(tasks, p); }
  }

  lemma StepWorks(e: Edge, s: Step)
    requires EdgeInv(e) && Enabled(e, s) && Live(e) && (s.Batch? ==> Retried(s.reports))
    ensures Live(Next(e, s))
  {
    match s
    case Start =>
      forall p: nat | p < e.n ensures p in Fresh(e.n).pending { assert Range(e.n)[p] == p; }
    case Hand(max, x) => BindWorks(e.producer.work, max, x, e.n);
    case Batch(reports, late, producerFirst) =>
      if e.producer.Busy? {
        var news := News(e.consumer.reasons, late);
        var before := Desk(e.producer.work, if producerFirst then e.ledger else KeepAll(e.ledger, news));
        TellAllWorks(e.producer.attempt, before, reports, e.n);
        var told := TellAll(e.producer.attempt, before, reports);
        ResetEachWorks(told.work, TasksOnAll(if producerFirst then told.ledger else e.ledger, news), e.n);
      }
    case LoseExecutor(x) => if !e.consumer.Ended? { LossWorks(e, x); }
    case FetchFailures(xs) =>
      var tasks, ids := e.producer.tasks, TasksOnAll(e.ledger, xs);
      KeepAllHides(e.ledger, tasks, [], xs);
      assert [] + ids == ids;
      RerunEdge(e, KeepAll(e.ledger, xs), ids, MarkLost(tasks, ids));
      UndoneWorks(MarkLost(tasks, ids), Undone(MarkLost(tasks, ids), e.n), e.n);
    case _ =>
  }

  lemma LossWorks(e: Edge, x: string)
    requires EdgeInv(e) && Live(e) && !e.consumer.Ended?
    ensures Live(OnLost(e, x))
  {
    LoseExecutorKeeps(e, x);
    var after := OnLost(e, x);
    if e.producer.Busy? {
      LoseKeeps(e.producer.work, e.n, x);
      WorkableAfter(e.producer.work, Lose(e.producer.work, x), e.n);
    } else if after.producer.Busy? {
      UndoneWorks(after.producer.work.tasks, after.producer.work.pending, e.n);
    }
  }

  predicate AllRetried(steps: seq<Step>) {
    forall i | 0 <= i < |steps| :: steps[i].Batch? ==> Retried(steps[i].reports)
  }

  /** Over every run of sound steps in which failures are retried, no partition gets stuck, so a
      stage at work can always be finished. */
  lemma {:induction false} RunWorks(e: Edge, steps: seq<Step>)
    requires EdgeInv(e) && Live(e) && Plays(e, steps) && AllSound(e, steps) && AllRetried(steps)
    ensures EdgeInv(Play(e, steps)) && Live(Play(e, steps))
    decreases steps
  {
    if steps != [] {
      SoundStepKeeps(e, steps[0]);
      StepWorks(e, steps[0]);
      RunWorks(Next(e, steps[0]), steps[1..]);
    }
  }

  // ---------------------------------------------------------------------------
  // Runs step by step
  // ---------------------------------------------------------------------------

  /** A step from one edge to another that does no harm. */
  predicate Goes(e: Edge, s: Step, to: Edge) {
    Enabled(e, s) && Sound(e, s) && Next(e, s) == to
  }

  lemma ThreeSteps(e0: Edge, e1: Edge, e2: Edge, e3: Edge, s0: Step, s1: Step, s2: Step)
    requires Goes(e0, s0, e1) && Goes(e1, s1, e2) && Goes(e2, s2, e3)
    ensures Plays(e0, [s0, s1, s2]) && AllSound(e0, [s0, s1, s2]) && Play(e0, [s0, s1, s2]) == e3
  {
    FirstStep(e2, s2, []);
    FirstStep(e1, s1, [s2]);
    FirstStep(e0, s0, [s1, s2]);
    assert [s2] + [] == [s2] && [s1] + [s2] == [s1, s2] && [s0] + [s1, s2] == [s0, s1, s2];
  }

  lemma HandOut(e: Edge, max: nat, x: string, slice: seq<nat>, rest: seq<nat>)
    requires e.producer.Busy? && e.producer.work.pending == slice + rest
    requires slice != [] && |slice| == Least(max, |slice + rest|)
    ensures Goes(e, Hand(max, x),
      e.(producer := Busy(e.producer.attempt, Work(rest, e.producer.work.tasks + [Task(Running(x), slice)]))))
  {
    var w := e.producer.work;
    assert w.pending[..|slice|] == slice && w.pending[|slice|..] == rest;
  }
}
