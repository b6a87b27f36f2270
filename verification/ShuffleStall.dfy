/** Stages that are done and are not finished: which steps lead there, and which lead out. */
module ShuffleStall {
  import opened Wrappers
  import opened StageTasks
  import opened ShuffleEdge
  import opened ShuffleRuns

  /** Nothing waits, nothing runs and all is covered, yet the stage counts as running. */
  predicate Stalled(e: Edge) {
    e.producer.Busy? && Done(e.producer.work, e.n)
  }

  // ---------------------------------------------------------------------------
  // Into a stall
  // ---------------------------------------------------------------------------

  lemma {:induction false} ResetGrows(w: Work, ids: seq<nat>)
    ensures |w.pending| <= |ResetEach(w, ids).pending|
    decreases ids
  {
    if ids != [] && ids[0] < |w.tasks| { ResetGrows(Reset(w, ids[0]), ids[1..]); }
  }

  lemma ResetWaits(w: Work, n: nat, ids: seq<nat>)
    requires Inv(w, n) && Takes(ids, w.tasks, []) && ids != []
    ensures ResetEach(w, ids).pending != []
  {
    assert ids[0] in ids;
    ResetGrows(Reset(w, ids[0]), ids[1..]);
  }

  /** Where a batch's reports leave the stage at work. */
  function Told(e: Edge, reports: seq<Report>, late: seq<string>, producerFirst: bool): Desk
    requires e.producer.Busy? && e.consumer.Unresolved?
  {
    var news := News(e.consumer.reasons, late);
    TellAll(e.producer.attempt, Desk(e.producer.work, if producerFirst then e.ledger else KeepAll(e.ledger, news)), reports)
  }

  /** The published tasks that a batch's late failures name. */
  function Named(e: Edge, reports: seq<Report>, late: seq<string>, producerFirst: bool): seq<nat>
    requires e.producer.Busy? && e.consumer.Unresolved?
  {
    TasksOnAll(if producerFirst then Told(e, reports, late, producerFirst).ledger else e.ledger, News(e.consumer.reasons, late))
  }

  /** What leads into a stall: starting a stage without partitions; a batch whose reports make the
      stage done and that also brings a late failure that is news and names nothing published; and
      failed fetches that name nothing published. */
  predicate Stalls(e: Edge, s: Step) {
    match s
    case Start => e.n == 0
    case Batch(reports, late, producerFirst) =>
      && e.producer.Busy? && e.consumer.Unresolved?
      && News(e.consumer.reasons, late) != [] && Named(e, reports, late, producerFirst) == []
      && Done(Told(e, reports, late, producerFirst).work, e.n)
    case FetchFailures(xs) => TasksOnAll(e.ledger, xs) == []
    case _ => false
  }

  lemma BatchStallsIff(e: Edge, reports: seq<Report>, late: seq<string>, producerFirst: bool)
    requires EdgeInv(e) && e.producer.Busy? && !Stalled(e)
    requires Enabled(e, Batch(reports, late, producerFirst)) && Sound(e, Batch(reports, late, producerFirst))
    ensures Stalled(Next(e, Batch(reports, late, producerFirst))) <==> Stalls(e, Batch(reports, late, producerFirst))
  {
    var told, ids := Told(e, reports, late, producerFirst), Named(e, reports, late, producerFirst);
    BatchDesk(e, reports, late, producerFirst);
    if ids != [] { ResetWaits(told.work, e.n, ids); }
  }

  lemma SomeMember(s: seq<nat>)
    ensures s != [] <==> exists x :: x in s
  {
    if s != [] { assert s[0] in s; }
  }

  /** A task that is lost leaves its partitions uncovered. */
  lemma LostUncovers(before: seq<Task>, after: seq<Task>, n: nat, t: nat)
    requires Inv(Work([], before), n) && t < |before| == |after| && before[t].status.Successful? && !after[t].status.Successful?
    requires forall u | 0 <= u < |before| :: after[u] == before[u] || !after[u].status.Successful?
    ensures exists p: nat | p < n :: !Covered(after, p)
  {
    var p := before[t].slice[0];
    assert p in before[t].slice;
    forall u | 0 <= u < |before| && p in before[u].slice && after[u] == before[u] ensures !after[u].status.Successful? {
      if u != t { UnsealedHolds(Work([], before), n, t, u, p); }
    }
    assert p < n && !Covered(after, p);
  }

  lemma RerunOfNothing(tasks: seq<Task>, pending: seq<nat>, n: nat)
    requires Done(Work([], tasks), n) && forall p: nat :: p in pending <==> p < n && !Covered(tasks, p)
    ensures Done(Work(pending, tasks), n)
  {
    assert forall p: nat | p < n :: Covered(tasks, p);
    SomeMember(pending);
  }

  lemma FetchStallsIff(e: Edge, xs: seq<string>)
    requires EdgeInv(e) && Enabled(e, FetchFailures(xs))
    ensures Stalled(Next(e, FetchFailures(xs))) <==> TasksOnAll(e.ledger, xs) == []
  {
    FetchFailuresKeep(e, xs);
    var tasks, ids, after := e.producer.tasks, TasksOnAll(e.ledger, xs), Next(e, FetchFailures(xs)).producer.work;
    if ids == [] {
      assert after.tasks == tasks;
      RerunOfNothing(tasks, after.pending, e.n);
      assert after == Work(after.pending, tasks);
    } else {
      KeepAllHides(e.ledger, tasks, [], xs);
      assert ids[0] in ids;
      LostUncovers(tasks, after.tasks, e.n, ids[0]);
    }
  }

  lemma LossDoesNotStall(e: Edge, x: string)
    requires EdgeInv(e) && !Stalled(e)
    ensures !Stalled(OnLost(e, x))
  {
    if !e.consumer.Ended? {
      LoseExecutorKeeps(e, x);
      var after := OnLost(e, x);
      if e.producer.Busy? {
        LoseKeeps(e.producer.work, e.n, x);
        LossLeavesUndone(e.producer.work, e.n, x);
      } else if e.producer.Finished? && after.producer.Busy? {
        var t :| 0 <= t < |e.producer.tasks| && after.producer.work.tasks[t] != e.producer.tasks[t];
        LostUncovers(e.producer.tasks, after.producer.work.tasks, e.n, t);
      }
    }
  }

  lemma LossLeavesUndone(w: Work, n: nat, x: string)
    requires Inv(w, n)
    ensures Done(Lose(w, x), n) ==> Done(w, n)
  {
    if Done(Lose(w, x), n) {
      LoseKeeps(w, n, x);
      forall t | 0 <= t < |w.tasks| ensures !IsOn(w.tasks[t].status, x) {
        var p := w.tasks[t].slice[0];
        assert p in w.tasks[t].slice;
        assert p !in Lose(w, x).pending;
      }
      assert Lose(w, x).tasks == w.tasks;
      SomeMember(w.pending);
    }
  }

  /** Of all sound steps exactly these stall a stage that was not. */
  lemma StallsIff(e: Edge, s: Step)
    requires EdgeInv(e) && Enabled(e, s) && Sound(e, s) && !Stalled(e)
    ensures Stalled(Next(e, s)) <==> Stalls(e, s)
  {
    match s
    case Start => if 0 < e.n { FreshWorks(e.n); }
    case Hand(max, x) => HandKeepsUndone(e.producer.work, e.n, max, x);
    case Batch(reports, late, producerFirst) => if e.producer.Busy? { BatchStallsIff(e, reports, late, producerFirst); }
    case LoseExecutor(x) => LossDoesNotStall(e, x);
    case FetchFailures(xs) => FetchStallsIff(e, xs);
    case _ =>
  }

  lemma HandKeepsUndone(w: Work, n: nat, max: nat, x: string)
    requires Inv(w, n)
    ensures Done(Bind(w, max, x), n) ==> Bind(w, max, x) == w
  {
    var b := Bind(w, max, x);
    if b != w {
      var p := w.pending[0];
      assert p in w.pending;
      forall t | 0 <= t < |b.tasks| && b.tasks[t].status.Successful? ensures p !in b.tasks[t].slice {
        if p in b.tasks[t].slice { UnsealedHolds(w, n, t, t, p); }
      }
      assert !Covered(b.tasks, p);
    }
  }

  // ---------------------------------------------------------------------------
  // Out of a stall
  // ---------------------------------------------------------------------------

  /** What leads out: a batch that brings a report, on a task already over, and no news; a batch
      whose news names something published; losing an executor with something published; and
      rolling the stage back. */
  predicate Frees(e: Edge, s: Step) {
    match s
    case Batch(reports, late, _) =>
      && e.producer.Busy? && e.consumer.Unresolved?
      && var news := News(e.consumer.reasons, late);
        (reports != [] && news == []) || TasksOnAll(e.ledger, news) != []
    case LoseExecutor(x) => TasksOn(e.ledger, x) != []
    case RollBackProducer => true
    case _ => false
  }

  /** Every task of a stalled stage has succeeded or ignores reports. */
  lemma AllOver(w: Work, n: nat, t: nat)
    requires Inv(w, n) && Done(w, n) && t < |w.tasks|
    ensures w.tasks[t].status.Successful? || Sealed(w.tasks[t].status)
  {
    var p := w.tasks[t].slice[0];
    assert p in w.tasks[t].slice && Covered(w.tasks, p);
    var u :| 0 <= u < |w.tasks| && w.tasks[u].status.Successful? && p in w.tasks[u].slice;
    UnsealedHolds(w, n, u, t, p);
  }

  lemma {:induction false} NothingTold(attempt: nat, d: Desk, reports: seq<Report>)
    requires forall t | 0 <= t < |d.work.tasks| :: d.work.tasks[t].status.Successful? || Sealed(d.work.tasks[t].status)
    requires SoundReports(attempt, d, reports)
    ensures TellAll(attempt, d, reports) == d
    decreases reports
  {
    if reports != [] {
      assert !Counts(attempt, d.work, reports[0]);
      NothingTold(attempt, d, reports[1..]);
    }
  }

  lemma BatchFreesIff(e: Edge, reports: seq<Report>, late: seq<string>, producerFirst: bool)
    requires EdgeInv(e) && Stalled(e)
    requires Enabled(e, Batch(reports, late, producerFirst)) && Sound(e, Batch(reports, late, producerFirst))
    ensures !Stalled(Next(e, Batch(reports, late, producerFirst))) <==> Frees(e, Batch(reports, late, producerFirst))
  {
    var w, news := e.producer.work, News(e.consumer.reasons, late);
    forall t | 0 <= t < |w.tasks| ensures w.tasks[t].status.Successful? || Sealed(w.tasks[t].status) { AllOver(w, e.n, t); }
    NothingTold(e.producer.attempt, Desk(w, if producerFirst then e.ledger else KeepAll(e.ledger, news)), reports);
    var ids := Named(e, reports, late, producerFirst);
    assert ids == TasksOnAll(e.ledger, news);
    BatchDesk(e, reports, late, producerFirst);
    if ids != [] { ResetWaits(w, e.n, ids); }
  }

  lemma LossOfNothing(w: Work, n: nat, x: string)
    requires Inv(w, n) && Done(w, n) && forall t | 0 <= t < |w.tasks| :: w.tasks[t].status != Successful(x)
    ensures Lose(w, x) == w
  {
    forall t | 0 <= t < |w.tasks| ensures !IsOn(w.tasks[t].status, x) { AllOver(w, n, t); }
    NoSlices(w.tasks, x, |w.tasks|);
    assert LoseTasks(w.tasks, x) == w.tasks;
    assert Lose(w, x).pending == w.pending;
  }

  lemma LossPutsBack(w: Work, n: nat, x: string, t: nat)
    requires Inv(w, n) && t < |w.tasks| && w.tasks[t].status == Successful(x)
    ensures Lose(w, x).pending != []
  {
    LoseKeeps(w, n, x);
    var p := w.tasks[t].slice[0];
    assert p in w.tasks[t].slice && p in Lose(w, x).pending;
  }

  lemma LossFreesIff(e: Edge, x: string)
    requires EdgeInv(e) && Stalled(e)
    ensures !Stalled(OnLost(e, x)) <==> TasksOn(e.ledger, x) != []
  {
    var w, ids := e.producer.work, TasksOn(e.ledger, x);
    forall t: nat ensures t in ids <==> t < |w.tasks| && w.tasks[t].status == Successful(x) { NamedIff(e.ledger, w.tasks, x, t); }
    if ids == [] {
      assert forall t | 0 <= t < |w.tasks| :: t !in ids;
      LossOfNothing(w, e.n, x);
    } else {
      assert ids[0] in ids;
      LossPutsBack(w, e.n, x, ids[0]);
    }
  }

  /** Of all sound steps exactly these end a stall. */
  lemma StallEndsIff(e: Edge, s: Step)
    requires EdgeInv(e) && Enabled(e, s) && Sound(e, s) && Stalled(e)
    ensures !Stalled(Next(e, s)) <==> Frees(e, s)
    ensures s.Hand? || s.Batch? || s.LoseExecutor? || s.RollBackProducer?
    ensures s.Hand? ==> Next(e, s) == e
  {
    match s
    case Batch(reports, late, producerFirst) => BatchFreesIff(e, reports, late, producerFirst);
    case LoseExecutor(x) => LossFreesIff(e, x);
    case _ =>
  }

  /** No step of the run leads out. */
  predicate NoneFrees(e: Edge, steps: seq<Step>)
    requires Plays(e, steps)
    decreases steps
  {
    steps == [] || (!Frees(e, steps[0]) && NoneFrees(Next(e, steps[0]), steps[1..]))
  }

  /** A stall lasts over every run of sound steps of which none leads out, and as long as it lasts
      the consumer waits for an input that is never complete and no task of the stage runs. */
  lemma {:induction false} StallLasts(e: Edge, steps: seq<Step>)
    requires EdgeInv(e) && Stalled(e) && Plays(e, steps) && AllSound(e, steps)
    ensures NoneFrees(e, steps) ==>
      var end := Play(e, steps);
      && EdgeInv(end) && Stalled(end) && end.consumer.Unresolved? && !end.complete
      && forall t | 0 <= t < |end.producer.work.tasks| :: !end.producer.work.tasks[t].status.Running?
    decreases steps
  {
    if steps == [] {
      forall t | 0 <= t < |e.producer.work.tasks| ensures !e.producer.work.tasks[t].status.Running? {
        AllOver(e.producer.work, e.n, t);
      }
    } else if !Frees(e, steps[0]) {
      StallEndsIff(e, steps[0]);
      SoundStepKeeps(e, steps[0]);
      StallLasts(Next(e, steps[0]), steps[1..]);
    }
  }

  // ---------------------------------------------------------------------------
  // Stalls happen
  // ---------------------------------------------------------------------------

  /** A partition on each of two executors, and the consumer begins. */
  function Opening(a: string, b: string): seq<Step> {
    [Start, Hand(1, a), Hand(1, b), Batch([Report(0, 0, Successful(a)), Report(1, 0, Successful(b))], [], true),
     Resolve, Begin]
  }

  /** The consumer fails to fetch from the first; the second is lost; both partitions are run
      again; and their report comes together with a failure to fetch from the second. */
  function Stalling(a: string, b: string, c: string): seq<Step> {
    [FetchFailures([a]), LoseExecutor(b), Hand(2, c), Batch([Report(2, 1, Successful(c))], [b], true)]
  }

  function Refetching(a: string, b: string): Edge {
    Edge(2, Busy(1, Work([0], [Task(LOST, [0]), Task(Successful(b), [1])])), Unresolved(1, {a}), [Entry(1, b, [1])], false)
  }

  function BothLost(a: string): Edge {
    Edge(2, Busy(1, Work([1, 0], [Task(LOST, [0]), Task(LOST, [1])])), Unresolved(1, {a}), [], false)
  }

  function Reporting(a: string, c: string): Edge {
    Edge(2, Busy(1, Work([], [Task(LOST, [0]), Task(LOST, [1]), Task(Running(c), [1, 0])])), Unresolved(1, {a}), [], false)
  }

  function Opened(a: string, b: string): Edge {
    Edge(2, Finished(0, [Task(Successful(a), [0]), Task(Successful(b), [1])]), Started(0),
         [Entry(0, a, [0]), Entry(1, b, [1])], true)
  }

  lemma BothSucceed(e: Edge, a: string, b: string)
    requires e == Edge(2, Busy(0, Work([], [Task(Running(a), [0]), Task(Running(b), [1])])), Unresolved(0, {}), [], false)
    ensures var batch := Batch([Report(0, 0, Successful(a)), Report(1, 0, Successful(b))], [], true);
      Enabled(e, batch) && Sound(e, batch) && Next(e, batch) == Opened(a, b).(consumer := Unresolved(0, {}))
  {
    var r0, r1 := Report(0, 0, Successful(a)), Report(1, 0, Successful(b));
    var d0 := Desk(e.producer.work, []);
    var d1 := Desk(Work([], [Task(Successful(a), [0]), Task(Running(b), [1])]), [Entry(0, a, [0])]);
    var d2 := Desk(Work([], Opened(a, b).producer.tasks), Opened(a, b).ledger);
    assert Tell(0, d0, r0) == d1 && Tell(0, d1, r1) == d2;
    assert [r0, r1][1..] == [r1] && [r1][1..] == [];
    assert TellAll(0, d0, [r0, r1]) == TellAll(0, d1, [r1]) == TellAll(0, d2, []) == d2;
    assert SoundReports(0, d1, [r1]) && RoutineReports(0, d1, [r1]);
    assert Covered(d2.work.tasks, 0) by { assert 0 in d2.work.tasks[0].slice; }
    assert Covered(d2.work.tasks, 1) by { assert 1 in d2.work.tasks[1].slice; }
    assert News({}, []) == [];
    var none: set<string> := {};
    assert none + (set x: string | x in []) == none;
  }

  lemma Opens(a: string, b: string)
    ensures Plays(Init(2), Opening(a, b)) && AllSound(Init(2), Opening(a, b)) && Play(Init(2), Opening(a, b)) == Opened(a, b)
  {
    var batch := Batch([Report(0, 0, Successful(a)), Report(1, 0, Successful(b))], [], true);
    var t0, t1 := Task(Running(a), [0]), Task(Running(b), [1]);
    var e1 := Next(Init(2), Start);
    var e2 := Init(2).(producer := Busy(0, Work([1], [t0])));
    var e3 := Init(2).(producer := Busy(0, Work([], [t0, t1])));
    assert Range(2) == [0] + [1];
    HandOut(e1, 1, a, [0], [1]);
    assert [] + [t0] == [t0];
    assert [1] + [] == [1];
    HandOut(e2, 1, b, [1], []);
    assert [t0] + [t1] == [t0, t1];
    ThreeSteps(Init(2), e1, e2, e3, Start, Hand(1, a), Hand(1, b));
    BothSucceed(e3, a, b);
    ThreeSteps(e3, Opened(a, b).(consumer := Unresolved(0, {})), Opened(a, b).(consumer := Resolved(0, {})), Opened(a, b), batch, Resolve, Begin);
    ThenSteps(Init(2), [Start, Hand(1, a), Hand(1, b)], [batch, Resolve, Begin]);
    assert [Start, Hand(1, a), Hand(1, b)] + [batch, Resolve, Begin] == Opening(a, b);
  }

  lemma FirstUndone(after: seq<Task>, b: string)
    requires after == [Task(LOST, [0]), Task(Successful(b), [1])]
    ensures Undone(after, 2) == [0]
  {
    assert Last(after, 1, 2) == Some(1);
    assert Last(after, 0, 1) == Some(0);
    assert 0 !in after[1].slice;
    assert Last(after, 0, 2) == Some(0);
    assert Undone(after, 1) == [0];
  }

  lemma FirstTaken(first: Entry, second: Entry, a: string)
    requires first.executor == a && second.executor != a
    ensures TasksOnAll([first, second], [a]) == [first.task] && KeepAll([first, second], [a]) == [second]
  {
    var ledger := [first, second];
    assert [a][1..] == [] && ledger[1..] == [second] && [second][1..] == [];
    assert Keep([second], a) == [second] + [] && TasksOn([second], a) == [];
    assert Keep(ledger, a) == [] + [second] && TasksOn(ledger, a) == [first.task] + [];
  }

  lemma FetchFails(e: Edge, a: string, b: string)
    requires a != b && e == Opened(a, b)
    ensures Goes(e, FetchFailures([a]), Refetching(a, b))
  {
    var after := [Task(LOST, [0]), Task(Successful(b), [1])];
    FirstTaken(Entry(0, a, [0]), Entry(1, b, [1]), a);
    FirstUndone(after, b);
    FetchLeaves(e, a, [0], after);
  }

  lemma FetchLeaves(e: Edge, a: string, ids: seq<nat>, after: seq<Task>)
    requires e.consumer.Started? && e.producer.Finished? && ids == TasksOnAll(e.ledger, [a])
    requires |after| == |e.producer.tasks|
    requires forall t | 0 <= t < |after| :: after[t] == if t in ids then e.producer.tasks[t].(status := LOST) else e.producer.tasks[t]
    ensures Goes(e, FetchFailures([a]), Edge(e.n, Rerun(e.producer.attempt, after, e.n),
      Unresolved(e.consumer.attempt + 1, {a}), KeepAll(e.ledger, [a]), false))
  {
    assert MarkLost(e.producer.tasks, ids) == after;
    assert (set x | x in [a]) == {a};
  }

  lemma SecondIsLost(e: Edge, a: string, b: string)
    requires a != b && e == Refetching(a, b)
    ensures Goes(e, LoseExecutor(b), BothLost(a))
  {
    var tasks := e.producer.work.tasks;
    assert Slices(tasks, b, 1) == [];
    assert Slices(tasks, b, 2) == [] + [1] == [1];
    assert [1] + [0] == [1, 0];
    assert LoseTasks(tasks, b) == [Task(LOST, [0]), Task(LOST, [1])];
    assert Keep(e.ledger, b) == [] by { assert e.ledger[1..] == []; }
  }

  lemma NothingNamed(entry: Entry, b: string)
    requires entry.executor != b
    ensures TasksOnAll([entry], [b]) == []
  {
    assert [entry][1..] == [] && [b][1..] == [];
    assert TasksOn([entry], b) == [] + TasksOn([], b) == [];
    assert TasksOnAll(Keep([entry], b), []) == [];
  }

  lemma LastReport(e: Edge, a: string, b: string, c: string)
    requires a != b && b != c && e == Reporting(a, c)
    ensures var batch := Batch([Report(2, 1, Successful(c))], [b], true);
      Enabled(e, batch) && Sound(e, batch) && Stalled(Next(e, batch))
  {
    var r, d := Report(2, 1, Successful(c)), Desk(e.producer.work, []);
    var told := Desk(Work([], [Task(LOST, [0]), Task(LOST, [1]), Task(Successful(c), [1, 0])]), [Entry(2, c, [1, 0])]);
    assert [r][1..] == [] && [b][1..] == [];
    assert TellAll(1, d, [r]) == TellAll(1, Tell(1, d, r), []) == told;
    assert SoundReports(1, d, [r]) && RoutineReports(1, d, [r]);
    assert News({a}, [b]) == [b];
    NothingNamed(told.ledger[0], b);
    assert Covered(told.work.tasks, 0) by { assert 0 in told.work.tasks[2].slice; }
    assert Covered(told.work.tasks, 1) by { assert 1 in told.work.tasks[2].slice; }
  }

  /** A run of sound steps, from the start of a job, that stalls its producer. */
  lemma StallHappens(a: string, b: string, c: string)
    requires a != b && b != c
    ensures Plays(Init(2), Opening(a, b) + Stalling(a, b, c)) && AllSound(Init(2), Opening(a, b) + Stalling(a, b, c))
    ensures Stalled(Play(Init(2), Opening(a, b) + Stalling(a, b, c)))
  {
    Opens(a, b);
    FetchFails(Opened(a, b), a, b);
    SecondIsLost(Refetching(a, b), a, b);
    assert [1, 0] + [] == [1, 0];
    HandOut(BothLost(a), 2, c, [1, 0], []);
    assert BothLost(a).producer.work.tasks + [Task(Running(c), [1, 0])] == Reporting(a, c).producer.work.tasks;
    LastReport(Reporting(a, c), a, b, c);
    StallsAtLast(Opened(a, b), Refetching(a, b), BothLost(a), Reporting(a, c), a, b, c);
    ThenSteps(Init(2), Opening(a, b), Stalling(a, b, c));
  }

  lemma StallsAtLast(e0: Edge, e1: Edge, e2: Edge, e3: Edge, a: string, b: string, c: string)
    requires Goes(e0, FetchFailures([a]), e1) && Goes(e1, LoseExecutor(b), e2) && Goes(e2, Hand(2, c), e3)
    requires var batch := Batch([Report(2, 1, Successful(c))], [b], true);
      Enabled(e3, batch) && Sound(e3, batch) && Stalled(Next(e3, batch))
    ensures Plays(e0, Stalling(a, b, c)) && AllSound(e0, Stalling(a, b, c)) && Stalled(Play(e0, Stalling(a, b, c)))
  {
    var batch := Batch([Report(2, 1, Successful(c))], [b], true);
    ThreeSteps(e0, e1, e2, e3, FetchFailures([a]), LoseExecutor(b), Hand(2, c));
    FirstStep(e3, batch, []);
    assert [batch] + [] == [batch];
    ThenSteps(e0, [FetchFailures([a]), LoseExecutor(b), Hand(2, c)], [batch]);
    assert [FetchFailures([a]), LoseExecutor(b), Hand(2, c)] + [batch] == Stalling(a, b, c);
  }

  /** So does a failed fetch from an executor that has published nothing. */
  lemma WrongFetchStalls(a: string, b: string, c: string)
    requires c != a && c != b
    ensures var steps := Opening(a, b) + [FetchFailures([c])];
      Plays(Init(2), steps) && AllSound(Init(2), steps) && Stalled(Play(Init(2), steps))
  {
    Opens(a, b);
    SoundRunKeeps(Init(2), Opening(a, b));
    var e, s := Opened(a, b), FetchFailures([c]);
    KeepAllHolds(e.ledger, [c]);
    SomeMember(TasksOnAll(e.ledger, [c]));
    FetchStallsIff(e, [c]);
    FirstStep(e, s, []);
    assert [s] + [] == [s];
    ThenSteps(Init(2), Opening(a, b), [s]);
  }
}
