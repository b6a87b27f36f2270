/** Steps a job can take that leave a partition in a stage's input twice, and exactly when they do. */
module ShuffleHarm {
  import opened StageTasks
  import opened ShuffleEdge
  import opened ShuffleRuns

  // ---------------------------------------------------------------------------
  // What an unsound step leads to
  // ---------------------------------------------------------------------------

  /** Two entries are over partition `p`. */
  predicate Twice(ledger: seq<Entry>, p: nat) {
    exists i, j | 0 <= i < j < |ledger| :: p in ledger[i].slice && p in ledger[j].slice
  }

  lemma TwiceIsNotOnce(ledger: seq<Entry>, n: nat, p: nat)
    requires Twice(ledger, p) && p < n
    ensures !ExactlyOnce(ledger, n)
  {
    var i, j :| 0 <= i < j < |ledger| && p in ledger[i].slice && p in ledger[j].slice;
    assert !OnceIn(ledger, p);
  }

  /** In whatever way the job goes on without further harm, its consumer sees each partition once. */
  ghost predicate Safe(e: Edge) {
    forall steps | Plays(e, steps) && AllSound(e, steps) ::
      !Play(e, steps).consumer.Unresolved? ==> ExactlyOnce(Play(e, steps).ledger, e.n)
  }

  lemma InvIsSafe(e: Edge)
    requires EdgeInv(e)
    ensures Safe(e)
  {
    forall steps | Plays(e, steps) && AllSound(e, steps)
      ensures !Play(e, steps).consumer.Unresolved? ==> ExactlyOnce(Play(e, steps).ledger, e.n)
    {
      SoundRunKeeps(e, steps);
    }
  }

  /** Partition `p` is listed and is listed again, or is going to be. */
  predicate Doubled(e: Edge, p: nat) {
    || Twice(e.ledger, p)
    || (e.producer.Busy? && !Covered(e.producer.work.tasks, p) && exists i | 0 <= i < |e.ledger| :: p in e.ledger[i].slice)
  }

  lemma {:induction false} FinishDoubles(e: Edge, x: string, p: nat) returns (steps: seq<Step>)
    requires AtWork(e) && !Done(e.producer.work, e.n) && p < e.n && Doubled(e, p)
    ensures Plays(e, steps) && AllSound(e, steps) && Plain(steps)
    ensures var end := Play(e, steps);
      end.complete && end.consumer == e.consumer && end.n == e.n && Twice(end.ledger, p)
  {
    steps := Finish(e, x);
    var end := Play(e, steps);
    if Twice(e.ledger, p) {
      var i, j :| 0 <= i < j < |e.ledger| && p in e.ledger[i].slice && p in e.ledger[j].slice;
      assert end.ledger[i] == e.ledger[i] && end.ledger[j] == e.ledger[j];
    } else {
      var i :| 0 <= i < |e.ledger| && p in e.ledger[i].slice;
      assert CoversFrom(end.ledger, |e.ledger|, p);
      var j :| |e.ledger| <= j < |end.ledger| && p in end.ledger[j].slice;
      assert end.ledger[i] == e.ledger[i];
    }
  }

  /** From there a consumer that has the partition twice is reached without further harm. */
  lemma DoubledReaches(e: Edge, x: string, p: nat) returns (steps: seq<Step>)
    requires e.consumer.Unresolved? && p < e.n && Doubled(e, p)
    requires (e.complete && Twice(e.ledger, p)) || (AtWork(e) && !Done(e.producer.work, e.n))
    ensures Plays(e, steps) && AllSound(e, steps)
    ensures var end := Play(e, steps); end.consumer.Resolved? && end.n == e.n && Twice(end.ledger, p)
    ensures !Safe(e)
  {
    var before: seq<Step> := [];
    if AtWork(e) && !Done(e.producer.work, e.n) { before := FinishDoubles(e, x, p); }
    var ready := Play(e, before);
    FirstStep(ready, Resolve, []);
    assert [Resolve] + [] == [Resolve];
    ThenSteps(e, before, [Resolve]);
    steps := before + [Resolve];
    TwiceIsNotOnce(Play(e, steps).ledger, e.n, p);
  }

  // ---------------------------------------------------------------------------
  // The steps that do harm
  // ---------------------------------------------------------------------------

  /** Rolling back a running producer is safe exactly when it has published nothing: what it has
      published stays in the consumer's record and is published again by the rerun. */
  lemma RollBackIsSafeIff(e: Edge, x: string)
    requires EdgeInv(e) && e.producer.Busy?
    ensures Safe(Next(e, RollBackProducer)) <==> e.ledger == []
  {
    var back := Next(e, RollBackProducer);
    if e.ledger == [] {
      InvIsSafe(back);
    } else {
      var steps := RollBackDoubles(e, x);
    }
  }

  lemma RestartDoubles(e: Edge, x: string, p: nat) returns (steps: seq<Step>)
    requires e.producer.Waiting? && e.consumer.Unresolved? && p < e.n
    requires exists i | 0 <= i < |e.ledger| :: p in e.ledger[i].slice
    ensures Plays(e, steps) && AllSound(e, steps)
    ensures Play(e, steps).consumer.Resolved? && Twice(Play(e, steps).ledger, p)
  {
    FreshWorks(e.n);
    var rest := DoubledReaches(Next(e, Start), x, p);
    FirstStep(e, Start, rest);
    steps := [Start] + rest;
  }

  lemma RollBackDoubles(e: Edge, x: string) returns (steps: seq<Step>)
    requires EdgeInv(e) && e.producer.Busy? && e.ledger != []
    ensures var back := Next(e, RollBackProducer);
      && Plays(back, steps) && AllSound(back, steps) && !Safe(back)
      && Play(back, steps).consumer.Resolved? && !ExactlyOnce(Play(back, steps).ledger, e.n)
  {
    var back := Next(e, RollBackProducer);
    assert e.ledger[0] in e.ledger;
    var p := e.ledger[0].slice[0];
    assert p in e.ledger[0].slice;
    steps := RestartDoubles(back, x, p);
    TwiceIsNotOnce(Play(back, steps).ledger, e.n, p);
  }

  /** Where a report on a task that has succeeded leaves its stage. */
  lemma SecondReportDoubles(e: Edge, r: Report, p: nat)
    requires EdgeInv(e) && e.producer.Busy? && Workable(e.producer.work, e.n)
    requires !SoundReport(e.producer.attempt, e.producer.work, r) && (r.status.Failed? ==> r.status.retryable)
    requires p in e.producer.work.tasks[r.task].slice
    ensures var d := Tell(e.producer.attempt, Desk(e.producer.work, e.ledger), r);
      && Inv(d.work, e.n) && Workable(d.work, e.n) && p < e.n
      && Doubled(e.(producer := Busy(e.producer.attempt, d.work), ledger := d.ledger), p)
      && (Done(d.work, e.n) ==> Twice(d.ledger, p))
  {
    var w, t := e.producer.work, r.task;
    var d := Tell(e.producer.attempt, Desk(w, e.ledger), r);
    UpdateKeeps(w, e.n, t, r.status);
    UnsealedResets(w, e.n, t);
    assert Reset(Update(w, t, r.status), t) == Reset(w, t);
    WorkableAfter(w, d.work, e.n);
    assert Listed(e.ledger, t);
    var entry :| entry in e.ledger && entry.task == t;
    var i :| 0 <= i < |e.ledger| && e.ledger[i] == entry;
    if r.status.Successful? {
      assert d.ledger[i] == entry && p in d.ledger[|e.ledger|].slice;
    } else {
      NoLongerCovered(w, d.work, e.n, t, p);
    }
  }

  lemma NoLongerCovered(w: Work, v: Work, n: nat, t: nat, p: nat)
    requires Inv(w, n) && t < |w.tasks| && w.tasks[t].status.Successful? && p in w.tasks[t].slice
    requires |v.tasks| == |w.tasks| && !v.tasks[t].status.Successful?
    requires forall u | 0 <= u < |w.tasks| && u != t :: v.tasks[u] == w.tasks[u]
    ensures !Covered(v.tasks, p)
  {
    forall u | 0 <= u < |v.tasks| && p in v.tasks[u].slice ensures !v.tasks[u].status.Successful? {
      if u != t { UnsealedHolds(w, n, t, u, p); }
    }
  }

  /** A report that leaves the job running is safe exactly when its task has not yet succeeded, or
      it does not count: a second success is published a second time, and after a failure or a
      running report the task's partitions are run and published again. */
  lemma ReportIsSafeIff(e: Edge, r: Report, x: string)
    requires EdgeInv(e) && e.producer.Busy? && Workable(e.producer.work, e.n) && Enabled(e, One(r))
    requires r.status.Failed? ==> r.status.retryable
    ensures Safe(Next(e, One(r))) <==> SoundReport(e.producer.attempt, e.producer.work, r)
  {
    OneReport(e, r);
    if SoundReport(e.producer.attempt, e.producer.work, r) {
      SoundStepKeeps(e, One(r));
      InvIsSafe(Next(e, One(r)));
    } else {
      var steps := ReportDoubles(e, r, x);
    }
  }

  lemma ReportDoubles(e: Edge, r: Report, x: string) returns (steps: seq<Step>)
    requires EdgeInv(e) && e.producer.Busy? && Workable(e.producer.work, e.n)
    requires !SoundReport(e.producer.attempt, e.producer.work, r) && (r.status.Failed? ==> r.status.retryable) && Enabled(e, One(r))
    ensures var next := Next(e, One(r));
      && Plays(next, steps) && AllSound(next, steps) && !Safe(next)
      && Play(next, steps).consumer.Resolved? && !ExactlyOnce(Play(next, steps).ledger, e.n)
  {
    OneReport(e, r);
    var p := e.producer.work.tasks[r.task].slice[0];
    assert p in e.producer.work.tasks[r.task].slice;
    SecondReportDoubles(e, r, p);
    steps := DoubledReaches(Next(e, One(r)), x, p);
    TwiceIsNotOnce(Play(Next(e, One(r)), steps).ledger, e.n, p);
  }

  // ---------------------------------------------------------------------------
  // The last stage
  // ---------------------------------------------------------------------------

  /** The last stage publishes to the job's outputs, which a lost executor does not shrink: only
      the stage's tasks are put back. The job here takes the place of the consumer. */
  function LoseLast(e: Edge, x: string): Edge
    requires e.producer.Busy?
  {
    e.(producer := Busy(e.producer.attempt, Lose(e.producer.work, x)))
  }

  /** After that loss the finished stage lists every partition once in the job's outputs, however
      its tasks are handed out and report, exactly when no success was on the lost executor. */
  lemma JobOutputsStayIff(e: Edge, x: string)
    requires EdgeInv(e) && e.producer.Busy? && Workable(e.producer.work, e.n)
    ensures (forall t | 0 <= t < |e.producer.work.tasks| :: e.producer.work.tasks[t].status != Successful(x)) <==>
      (forall steps | Plays(LoseLast(e, x), steps) && AllSound(LoseLast(e, x), steps) && Plain(steps) ::
        Play(LoseLast(e, x), steps).complete ==> ExactlyOnce(Play(LoseLast(e, x), steps).ledger, e.n))
  {
    var w, last := e.producer.work, LoseLast(e, x);
    LoseKeeps(w, e.n, x);
    if forall t | 0 <= t < |w.tasks| :: w.tasks[t].status != Successful(x) {
      PublishedStays(e.ledger, w.tasks, [], Lose(w, x).tasks);
      forall steps | Plays(last, steps) && AllSound(last, steps) && Plain(steps)
        ensures Play(last, steps).complete ==> ExactlyOnce(Play(last, steps).ledger, e.n)
      {
        SoundRunKeeps(last, steps);
        if Play(last, steps).complete { CompleteIsExact(Play(last, steps)); }
      }
    } else {
      var t :| 0 <= t < |w.tasks| && w.tasks[t].status == Successful(x);
      var steps := LossDoubles(e, x, t);
    }
  }

  lemma LossDoubles(e: Edge, x: string, t: nat) returns (steps: seq<Step>)
    requires EdgeInv(e) && e.producer.Busy? && Workable(e.producer.work, e.n)
    requires t < |e.producer.work.tasks| && e.producer.work.tasks[t].status == Successful(x)
    ensures var last := LoseLast(e, x);
      && Plays(last, steps) && AllSound(last, steps) && Plain(steps)
      && Play(last, steps).complete && !ExactlyOnce(Play(last, steps).ledger, e.n)
  {
    var w, last := e.producer.work, LoseLast(e, x);
    var p := w.tasks[t].slice[0];
    assert p in w.tasks[t].slice;
    LoseKeeps(w, e.n, x);
    WorkableAfter(w, last.producer.work, e.n);
    assert p in last.producer.work.pending;
    assert Listed(e.ledger, t);
    var entry :| entry in e.ledger && entry.task == t;
    forall u | 0 <= u < |w.tasks| && p in w.tasks[u].slice ensures !last.producer.work.tasks[u].status.Successful? {
      UnsealedHolds(w, e.n, t, u, p);
    }
    steps := FinishDoubles(last, x, p);
    TwiceIsNotOnce(Play(last, steps).ledger, e.n, p);
  }

  // ---------------------------------------------------------------------------
  // Each happens to a job
  // ---------------------------------------------------------------------------

  /** The first of two partitions is handed out and succeeds. */
  function HalfDone(x: string): seq<Step> {
    [Start, Hand(1, x), One(Report(0, 0, Successful(x)))]
  }

  lemma HalfDonePlays(x: string)
    ensures Plays(Init(2), HalfDone(x)) && AllSound(Init(2), HalfDone(x))
    ensures Play(Init(2), HalfDone(x)) ==
      Edge(2, Busy(0, Work([1], [Task(Successful(x), [0])])), Unresolved(0, {}), [Entry(0, x, [0])], false)
  {
    var e1 := Next(Init(2), Start);
    var e2 := Init(2).(producer := Busy(0, Work([1], [Task(Running(x), [0])])));
    var r := Report(0, 0, Successful(x));
    assert Range(2) == [0] + [1];
    HandOut(e1, 1, x, [0], [1]);
    assert [] + [Task(Running(x), [0])] == [Task(Running(x), [0])];
    OneReport(e2, r);
    ThreeSteps(Init(2), e1, e2, Next(e2, One(r)), Start, Hand(1, x), One(r));
    assert Update(e2.producer.work, 0, Successful(x)) == Work([1], [Task(Successful(x), [0])]);
  }

  /** A half-done producer is rolled back and run again: its consumer has a partition twice. */
  lemma RollBackHappens(x: string) returns (rest: seq<Step>)
    ensures var steps := HalfDone(x) + [RollBackProducer] + rest;
      && Plays(Init(2), steps) && Play(Init(2), steps).consumer.Resolved?
      && !ExactlyOnce(Play(Init(2), steps).ledger, 2)
  {
    HalfDonePlays(x);
    var half := Play(Init(2), HalfDone(x));
    SoundRunKeeps(Init(2), HalfDone(x));
    rest := RollBackDoubles(half, x);
    FirstStep(half, RollBackProducer, rest);
    ThenSteps(Init(2), HalfDone(x), [RollBackProducer] + rest);
    assert HalfDone(x) + ([RollBackProducer] + rest) == HalfDone(x) + [RollBackProducer] + rest;
  }

  /** The success is reported a second time: the same. */
  lemma SecondReportHappens(x: string) returns (rest: seq<Step>)
    ensures var steps := HalfDone(x) + [One(Report(0, 0, Successful(x)))] + rest;
      && Plays(Init(2), steps) && Play(Init(2), steps).consumer.Resolved?
      && !ExactlyOnce(Play(Init(2), steps).ledger, 2)
  {
    HalfDonePlays(x);
    var half, again := Play(Init(2), HalfDone(x)), One(Report(0, 0, Successful(x)));
    RunWorks(Init(2), HalfDone(x));
    rest := ReportDoubles(half, Report(0, 0, Successful(x)), x);
    FirstStep(half, again, rest);
    ThenSteps(Init(2), HalfDone(x), [again] + rest);
    assert HalfDone(x) + ([again] + rest) == HalfDone(x) + [again] + rest;
  }
}
