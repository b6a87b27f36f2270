/** One edge of the stage graph: a producing stage, the stage that consumes its shuffle output, and
    the consumer's record of what has been published to it. Reports arrive in batches; executors
    are lost, fetches fail and stages are rolled back at any point in between. */
module ShuffleEdge {
  import opened StageTasks

  /** What one successful task published: its outputs, on one executor, over its slice. */
  datatype Entry = Entry(task: nat, executor: string, slice: seq<nat>)

  datatype Producer =
    | Waiting(attempt: nat)
    | Busy(attempt: nat, work: Work)
    | Finished(attempt: nat, tasks: seq<Task>)

  datatype Consumer =
    | Unresolved(attempt: nat, reasons: set<string>)
    | Resolved(attempt: nat, reasons: set<string>)
    | Started(attempt: nat)
    | Ended(attempt: nat)

  datatype Edge = Edge(n: nat, producer: Producer, consumer: Consumer, ledger: seq<Entry>, complete: bool)

  /** A task of the producer, at an attempt of its stage, says how it stands. */
  datatype Report = Report(task: nat, attempt: nat, status: Status)

  datatype Step =
    | Start                                    // the producer is ready and begins
    | Hand(max: nat, executor: string)         // a task of it is handed out
    /** Reports on the producer and failed fetches of the consumer's last attempt, together; the
        two stages are looked at in either order. */
    | Batch(reports: seq<Report>, late: seq<string>, producerFirst: bool)
    | LoseExecutor(executor: string)
    | Resolve                                  // the consumer has all its inputs
    | Begin                                    // the consumer begins
    | End                                      // the consumer is done
    | BeginAgain                               // the consumer's own results were lost
    | RollBackConsumer(reasons: set<string>)   // for the sake of another of its inputs
    | FetchFailures(executors: seq<string>)    // tasks of the running consumer could not fetch
    | RollBackProducer                         // for the sake of one of the producer's inputs

  // ---------------------------------------------------------------------------
  // The ledger
  // ---------------------------------------------------------------------------

  /** The entries that are not on an executor, and the tasks of those that are. */
  function Keep(ledger: seq<Entry>, executor: string): seq<Entry> {
    if ledger == [] then []
    else (if ledger[0].executor == executor then [] else [ledger[0]]) + Keep(ledger[1..], executor)
  }

  function TasksOn(ledger: seq<Entry>, executor: string): seq<nat> {
    if ledger == [] then []
    else (if ledger[0].executor == executor then [ledger[0].task] else []) + TasksOn(ledger[1..], executor)
  }

  /** The same for several executors, one after the other. */
  function KeepAll(ledger: seq<Entry>, executors: seq<string>): seq<Entry>
    decreases executors
  {
    if executors == [] then ledger else KeepAll(Keep(ledger, executors[0]), executors[1..])
  }

  function TasksOnAll(ledger: seq<Entry>, executors: seq<string>): seq<nat>
    decreases executors
  {
    if executors == [] then []
    else TasksOn(ledger, executors[0]) + TasksOnAll(Keep(ledger, executors[0]), executors[1..])
  }

  function MarkLost(tasks: seq<Task>, ids: seq<nat>): (r: seq<Task>)
    ensures |r| == |tasks|
    ensures forall t | 0 <= t < |r| :: r[t] == if t in ids then tasks[t].(status := LOST) else tasks[t]
  {
    seq(|tasks|, t requires 0 <= t < |tasks| => if t in ids then tasks[t].(status := LOST) else tasks[t])
  }

  /** Resets tasks one after the other; a number that is no task's ends it with an error. */
  function ResetEach(w: Work, ids: seq<nat>): Work
    decreases ids
  {
    if ids == [] || |w.tasks| <= ids[0] then w else ResetEach(Reset(w, ids[0]), ids[1..])
  }

  // ---------------------------------------------------------------------------
  // Reports
  // ---------------------------------------------------------------------------

  /** A running stage at work, and what it has published. */
  datatype Desk = Desk(work: Work, ledger: seq<Entry>)

  /** A report counts only for the current attempt, on a task that is not sealed. */
  predicate Counts(attempt: nat, w: Work, r: Report) {
    attempt <= r.attempt && r.task < |w.tasks| && !Sealed(w.tasks[r.task].status)
  }

  function Tell(attempt: nat, d: Desk, r: Report): Desk {
    if !Counts(attempt, d.work, r) then d
    else
      var told := Update(d.work, r.task, r.status);
      match r.status
      case Successful(x) => Desk(told, d.ledger + [Entry(r.task, x, d.work.tasks[r.task].slice)])
      case Running(_) => Desk(told, d.ledger)
      case Failed(_, retryable, _) => Desk(if retryable then Reset(told, r.task) else told, d.ledger)
  }

  function TellAll(attempt: nat, d: Desk, reports: seq<Report>): Desk
    decreases reports
  {
    if reports == [] then d else TellAll(attempt, Tell(attempt, d, reports[0]), reports[1..])
  }

  /** No report on a task that has already succeeded. */
  predicate SoundReport(attempt: nat, w: Work, r: Report) {
    Counts(attempt, w, r) ==> !w.tasks[r.task].status.Successful?
  }

  predicate SoundReports(attempt: nat, d: Desk, reports: seq<Report>)
    decreases reports
  {
    reports == [] || (SoundReport(attempt, d.work, reports[0]) && SoundReports(attempt, Tell(attempt, d, reports[0]), reports[1..]))
  }

  /** A failure to fetch rolls the stage back, and an execution error or one without a reason fails
      the job: neither is told to the stage as a report. */
  predicate Routine(r: Report) {
    r.status.Failed? ==> r.status.reason.Some? && !r.status.reason.value.FetchPartition? && !r.status.reason.value.ExecutionError?
  }

  predicate RoutineReports(attempt: nat, d: Desk, reports: seq<Report>)
    decreases reports
  {
    || reports == []
    || ((Counts(attempt, d.work, reports[0]) ==> Routine(reports[0])) && RoutineReports(attempt, Tell(attempt, d, reports[0]), reports[1..]))
  }

  /** The executors of late failures that are news to the consumer, each once. */
  function News(reasons: set<string>, late: seq<string>): seq<string>
    decreases late
  {
    if late == [] then []
    else if late[0] in reasons then News(reasons, late[1..])
    else [late[0]] + News(reasons + {late[0]}, late[1..])
  }

  // ---------------------------------------------------------------------------
  // Steps
  // ---------------------------------------------------------------------------

  function Rerun(attempt: nat, tasks: seq<Task>, n: nat): Producer {
    Busy(attempt + 1, Work(Undone(tasks, n), tasks))
  }

  /** A running stage is finished once nothing waits and all is covered. */
  function Conclude(e: Edge): Edge {
    if e.producer.Busy? && Done(e.producer.work, e.n)
    then e.(producer := Finished(e.producer.attempt, e.producer.work.tasks), complete := true) else e
  }

  function BackToUnresolved(c: Consumer, reasons: set<string>): Consumer {
    match c
    case Unresolved(_, _) => c
    case Resolved(attempt, last) => Unresolved(attempt, last)
    case Started(attempt) => Unresolved(attempt + 1, reasons)
    case Ended(_) => c
  }

  /** A stage that has ended is not looked at when an executor is lost. */
  function OnLost(e: Edge, executor: string): Edge {
    if e.consumer.Ended? then e
    else
      var ledger := Keep(e.ledger, executor);
      var hit := ledger != e.ledger;
      Edge(e.n,
        match e.producer {
          case Waiting(_) => e.producer
          case Busy(attempt, work) => Busy(attempt, Lose(work, executor))
          case Finished(attempt, tasks) =>
            var after := LoseSuccesses(tasks, executor);
            if hit && after != tasks then Rerun(attempt, after, e.n) else e.producer
        },
        if hit then BackToUnresolved(e.consumer, {executor}) else e.consumer,
        ledger,
        e.complete && !hit)
  }

  /** The reports of a batch, and the late failures that are news: what those name is taken off
      the ledger before or after the reports are told, and its tasks are reset at the end. */
  function OnBatch(e: Edge, reports: seq<Report>, late: seq<string>, producerFirst: bool): Edge
    requires e.producer.Busy? && e.consumer.Unresolved?
  {
    var news := News(e.consumer.reasons, late);
    var attempt, before := e.producer.attempt, Desk(e.producer.work, e.ledger);
    var told := TellAll(attempt, if producerFirst then before else before.(ledger := KeepAll(e.ledger, news)), reports);
    var ids := TasksOnAll(if producerFirst then told.ledger else e.ledger, news);
    var after := Edge(e.n, Busy(attempt, ResetEach(told.work, ids)),
      e.consumer.(reasons := e.consumer.reasons + set x | x in news),
      if producerFirst then KeepAll(told.ledger, news) else told.ledger, e.complete && news == []);
    // a stage named by a late failure is not finished in the same batch
    if reports != [] && news == [] then Conclude(after) else after
  }

  /** Reports may come at any time, late or repeated; of failures only those that leave the job
      running are steps. */
  predicate Enabled(e: Edge, s: Step) {
    match s
    case Start => e.producer.Waiting?
    case Hand(_, _) => e.producer.Busy?
    case Batch(reports, _, _) =>
      e.producer.Busy? ==> e.consumer.Unresolved? && RoutineReports(e.producer.attempt, Desk(e.producer.work, e.ledger), reports)
    case LoseExecutor(_) => true
    case Resolve => e.consumer.Unresolved? && e.complete
    case Begin => e.consumer.Resolved?
    case End => e.consumer.Started?
    case BeginAgain => e.consumer.Ended?
    case RollBackConsumer(_) => e.consumer.Resolved? || e.consumer.Started?
    case FetchFailures(xs) => e.consumer.Started? && e.producer.Finished? && xs != []
    case RollBackProducer => e.producer.Busy?
  }

  function Next(e: Edge, s: Step): Edge
    requires Enabled(e, s)
  {
    match s
    case Start => e.(producer := Busy(e.producer.attempt, Fresh(e.n)))
    case Hand(max, x) => e.(producer := e.producer.(work := Bind(e.producer.work, max, x)))
    case Batch(reports, late, producerFirst) => if e.producer.Busy? then OnBatch(e, reports, late, producerFirst) else e
    case LoseExecutor(x) => OnLost(e, x)
    case Resolve => e.(consumer := Resolved(e.consumer.attempt, e.consumer.reasons))
    case Begin => e.(consumer := Started(e.consumer.attempt))
    case End => e.(consumer := Ended(e.consumer.attempt))
    case BeginAgain => e.(consumer := Started(e.consumer.attempt + 1))
    case RollBackConsumer(reasons) => e.(consumer := BackToUnresolved(e.consumer, reasons))
    case FetchFailures(xs) =>
      Edge(e.n, Rerun(e.producer.attempt, MarkLost(e.producer.tasks, TasksOnAll(e.ledger, xs)), e.n),
           BackToUnresolved(e.consumer, set x | x in xs), KeepAll(e.ledger, xs), false)
    case RollBackProducer => e.(producer := Waiting(e.producer.attempt + 1))
  }

  /** A step that does no harm: no report on a task that has already succeeded, and no producer
      rolled back once it has published. */
  predicate Sound(e: Edge, s: Step) {
    match s
    case Batch(reports, late, producerFirst) =>
      e.producer.Busy? && e.consumer.Unresolved? ==>
        var news := News(e.consumer.reasons, late);
        SoundReports(e.producer.attempt,
          Desk(e.producer.work, if producerFirst then e.ledger else KeepAll(e.ledger, news)), reports)
    case RollBackProducer => e.ledger == []
    case _ => true
  }

  // ---------------------------------------------------------------------------
  // The invariant
  // ---------------------------------------------------------------------------

  predicate DistinctTasks(ledger: seq<Entry>) {
    forall i, j | 0 <= i < j < |ledger| :: ledger[i].task != ledger[j].task
  }

  predicate Listed(ledger: seq<Entry>, t: nat) {
    exists e | e in ledger :: e.task == t
  }

  /** The ledger lists exactly the successful tasks, each once, but for those in `hidden`. */
  ghost predicate PublishedBut(ledger: seq<Entry>, tasks: seq<Task>, hidden: seq<nat>) {
    && (forall e | e in ledger ::
          e.task < |tasks| && tasks[e.task] == Task(Successful(e.executor), e.slice) && e.task !in hidden)
    && DistinctTasks(ledger)
    && (forall t | 0 <= t < |tasks| && tasks[t].status.Successful? && t !in hidden :: Listed(ledger, t))
  }

  ghost predicate Published(ledger: seq<Entry>, tasks: seq<Task>) {
    PublishedBut(ledger, tasks, [])
  }

  ghost predicate EdgeInv(e: Edge) {
    match e.producer
    case Waiting(_) => e.ledger == [] && !e.complete && e.consumer.Unresolved?
    case Busy(_, w) => Inv(w, e.n) && Published(e.ledger, w.tasks) && !e.complete && e.consumer.Unresolved?
    case Finished(_, tasks) =>
      Inv(Work([], tasks), e.n) && Done(Work([], tasks), e.n) && Published(e.ledger, tasks) && e.complete
  }

  /** One entry, and no other, is over partition `p`. */
  predicate OnceIn(ledger: seq<Entry>, p: nat) {
    exists i | 0 <= i < |ledger| :: p in ledger[i].slice && forall j | 0 <= j < |ledger| && p in ledger[j].slice :: j == i
  }

  /** Every partition of the producer is in the consumer's input once. */
  ghost predicate ExactlyOnce(ledger: seq<Entry>, n: nat) {
    forall p: nat | p < n :: OnceIn(ledger, p)
  }

  lemma CoveredIsOnce(ledger: seq<Entry>, w: Work, n: nat, p: nat)
    requires Inv(w, n) && Published(ledger, w.tasks) && Covered(w.tasks, p)
    ensures OnceIn(ledger, p)
  {
    var t :| 0 <= t < |w.tasks| && w.tasks[t].status.Successful? && p in w.tasks[t].slice;
    assert Listed(ledger, t);
    var e :| e in ledger && e.task == t;
    var i :| 0 <= i < |ledger| && ledger[i] == e;
    forall j | 0 <= j < |ledger| && p in ledger[j].slice ensures j == i {
      assert ledger[j] in ledger;
      CoveredOnce(w, n, t, ledger[j].task, p);
    }
  }

  lemma DoneIsExact(ledger: seq<Entry>, w: Work, n: nat)
    requires Inv(w, n) && Published(ledger, w.tasks) && Done(w, n)
    ensures ExactlyOnce(ledger, n)
  {
    forall p: nat | p < n ensures OnceIn(ledger, p) { CoveredIsOnce(ledger, w, n, p); }
  }

  lemma CompleteIsExact(e: Edge)
    requires EdgeInv(e) && e.complete
    ensures ExactlyOnce(e.ledger, e.n)
  {
    DoneIsExact(e.ledger, Work([], e.producer.tasks), e.n);
  }

  // ---------------------------------------------------------------------------
  // Taking executors off the ledger
  // ---------------------------------------------------------------------------

  lemma {:induction false} KeepHolds(ledger: seq<Entry>, x: string)
    ensures forall e :: e in Keep(ledger, x) <==> e in ledger && e.executor != x
    ensures forall t :: t in TasksOn(ledger, x) <==> exists e | e in ledger :: e.executor == x && e.task == t
    ensures TasksOn(ledger, x) == [] <==> Keep(ledger, x) == ledger
    ensures |Keep(ledger, x)| <= |ledger|
  {
    if ledger != [] {
      KeepHolds(ledger[1..], x);
      assert ledger == [ledger[0]] + ledger[1..];
      if ledger[0].executor == x {
        assert |Keep(ledger, x)| < |ledger|;
        assert ledger[0].task in TasksOn(ledger, x);
      }
    }
  }

  lemma {:induction false} KeepDistinct(ledger: seq<Entry>, x: string)
    requires DistinctTasks(ledger)
    ensures DistinctTasks(Keep(ledger, x)) && NoRepeats(TasksOn(ledger, x))
  {
    if ledger != [] {
      KeepDistinct(ledger[1..], x);
      KeepHolds(ledger[1..], x);
      HeadDistinct(ledger, Keep(ledger[1..], x), TasksOn(ledger[1..], x));
      assert [] + Keep(ledger[1..], x) == Keep(ledger[1..], x) && [] + TasksOn(ledger[1..], x) == TasksOn(ledger[1..], x);
    }
  }

  lemma HeadDistinct(ledger: seq<Entry>, rest: seq<Entry>, ids: seq<nat>)
    requires ledger != [] && DistinctTasks(ledger) && DistinctTasks(rest) && NoRepeats(ids)
    requires forall e | e in rest :: e in ledger[1..]
    requires forall t | t in ids :: exists e | e in ledger[1..] :: e.task == t
    ensures DistinctTasks([ledger[0]] + rest) && NoRepeats([ledger[0].task] + ids)
  {
    forall e | e in ledger[1..] ensures e.task != ledger[0].task {
      var i :| 0 <= i < |ledger[1..]| && ledger[1..][i] == e;
      assert ledger[i + 1] == e;
    }
    forall i | 0 <= i < |rest| ensures rest[i].task != ledger[0].task { assert rest[i] in rest; }
    forall i | 0 <= i < |ids| ensures ids[i] != ledger[0].task { assert ids[i] in ids; }
  }

  /** The numbers taken off are successful tasks, none twice and none hidden before. */
  ghost predicate Takes(ids: seq<nat>, tasks: seq<Task>, hidden: seq<nat>) {
    NoRepeats(ids) && forall t | t in ids :: t < |tasks| && tasks[t].status.Successful? && t !in hidden
  }

  lemma KeepHides(ledger: seq<Entry>, tasks: seq<Task>, hidden: seq<nat>, x: string)
    requires PublishedBut(ledger, tasks, hidden)
    ensures Takes(TasksOn(ledger, x), tasks, hidden)
    ensures PublishedBut(Keep(ledger, x), tasks, hidden + TasksOn(ledger, x))
  {
    KeepHolds(ledger, x);
    KeepDistinct(ledger, x);
    var ids := TasksOn(ledger, x);
    forall t | t in ids ensures t < |tasks| && tasks[t].status == Successful(x) && t !in hidden {
      var f :| f in ledger && f.executor == x && f.task == t;
    }
    forall t | 0 <= t < |tasks| && tasks[t].status.Successful? && t !in hidden + ids ensures Listed(Keep(ledger, x), t) {
      assert Listed(ledger, t);
      var e :| e in ledger && e.task == t;
      assert e in Keep(ledger, x);
    }
  }

  lemma {:induction false} KeepAllHides(ledger: seq<Entry>, tasks: seq<Task>, hidden: seq<nat>, xs: seq<string>)
    requires PublishedBut(ledger, tasks, hidden)
    ensures Takes(TasksOnAll(ledger, xs), tasks, hidden)
    ensures PublishedBut(KeepAll(ledger, xs), tasks, hidden + TasksOnAll(ledger, xs))
    decreases xs
  {
    if xs == [] {
      assert hidden + [] == hidden;
    } else {
      var ids, kept := TasksOn(ledger, xs[0]), Keep(ledger, xs[0]);
      KeepHides(ledger, tasks, hidden, xs[0]);
      KeepAllHides(kept, tasks, hidden + ids, xs[1..]);
      var more := TasksOnAll(kept, xs[1..]);
      TakesMore(ids, more, tasks, hidden);
      assert hidden + ids + more == hidden + (ids + more);
    }
  }

  lemma TakesMore(a: seq<nat>, b: seq<nat>, tasks: seq<Task>, hidden: seq<nat>)
    requires Takes(a, tasks, hidden) && Takes(b, tasks, hidden + a)
    ensures Takes(a + b, tasks, hidden)
  {
    forall i, j | 0 <= i < j < |a + b| ensures (a + b)[i] != (a + b)[j] {
      if i < |a| <= j { assert a[i] in hidden + a && b[j - |a|] in b; }
    }
  }

  /** Undoing the hidden successes makes the ledger exact again. */
  lemma HiddenUndone(ledger: seq<Entry>, tasks: seq<Task>, ids: seq<nat>, after: seq<Task>)
    requires PublishedBut(ledger, tasks, ids) && |after| == |tasks|
    requires forall t | 0 <= t < |tasks| :: if t in ids then !after[t].status.Successful? else after[t] == tasks[t]
    ensures Published(ledger, after)
  {
    forall t | 0 <= t < |after| && after[t].status.Successful? ensures Listed(ledger, t) {
      assert t !in ids;
    }
  }

  lemma {:induction false} ResetEachKeeps(w: Work, n: nat, ids: seq<nat>)
    requires Inv(w, n) && NoRepeats(ids)
    requires forall t | t in ids :: t < |w.tasks| && !Sealed(w.tasks[t].status)
    ensures var r := ResetEach(w, ids);
      Inv(r, n) && |r.tasks| == |w.tasks|
      && forall t | 0 <= t < |w.tasks| :: r.tasks[t] == if t in ids then w.tasks[t].(status := RESET) else w.tasks[t]
    decreases ids
  {
    if ids != [] {
      assert ids[0] in ids;
      UnsealedResets(w, n, ids[0]);
      assert forall t | t in ids[1..] :: t in ids && t != ids[0];
      ResetEachKeeps(Reset(w, ids[0]), n, ids[1..]);
      assert ids == [ids[0]] + ids[1..];
    }
  }

  lemma ResetHidden(d: Desk, n: nat, ids: seq<nat>)
    requires Inv(d.work, n) && Takes(ids, d.work.tasks, []) && PublishedBut(d.ledger, d.work.tasks, ids)
    ensures Inv(ResetEach(d.work, ids), n) && Published(d.ledger, ResetEach(d.work, ids).tasks)
  {
    ResetEachKeeps(d.work, n, ids);
    HiddenUndone(d.ledger, d.work.tasks, ids, ResetEach(d.work, ids).tasks);
  }

  // ---------------------------------------------------------------------------
  // Telling reports
  // ---------------------------------------------------------------------------

  ghost predicate DeskInv(d: Desk, n: nat, hidden: seq<nat>) {
    Inv(d.work, n) && PublishedBut(d.ledger, d.work.tasks, hidden) && Takes(hidden, d.work.tasks, [])
  }

  lemma PublishOne(ledger: seq<Entry>, tasks: seq<Task>, hidden: seq<nat>, t: nat, x: string)
    requires PublishedBut(ledger, tasks, hidden) && t < |tasks| && !tasks[t].status.Successful? && t !in hidden
    ensures PublishedBut(ledger + [Entry(t, x, tasks[t].slice)], tasks[t := tasks[t].(status := Successful(x))], hidden)
  {
    var entry := Entry(t, x, tasks[t].slice);
    var more, after := ledger + [entry], tasks[t := tasks[t].(status := Successful(x))];
    forall i, j | 0 <= i < j < |more| ensures more[i].task != more[j].task {
      if i < |ledger| { assert ledger[i] in ledger; }
    }
    forall u | 0 <= u < |after| && after[u].status.Successful? && u !in hidden ensures Listed(more, u) {
      if u == t {
        assert entry in more;
      } else {
        assert Listed(ledger, u);
        var e :| e in ledger && e.task == u;
        assert e in more;
      }
    }
  }

  /** Changing tasks that are not successful to others that are not leaves what is published. */
  lemma PublishedStays(ledger: seq<Entry>, tasks: seq<Task>, hidden: seq<nat>, after: seq<Task>)
    requires PublishedBut(ledger, tasks, hidden) && |tasks| <= |after|
    requires forall t | 0 <= t < |tasks| :: after[t] == tasks[t] || (!tasks[t].status.Successful? && !after[t].status.Successful?)
    requires forall t | |tasks| <= t < |after| :: !after[t].status.Successful?
    ensures PublishedBut(ledger, after, hidden)
  {
    forall t | 0 <= t < |after| && after[t].status.Successful? && t !in hidden ensures Listed(ledger, t) {
      assert tasks[t].status.Successful?;
    }
  }

  /** Nothing comes of a report that does not count; a success that counts is published, once and
      last, and nothing else is; and the report changes no task but its own. */
  lemma TellKeeps(attempt: nat, d: Desk, r: Report, n: nat, hidden: seq<nat>)
    requires DeskInv(d, n, hidden) && SoundReport(attempt, d.work, r)
    ensures var after := Tell(attempt, d, r);
      && DeskInv(after, n, hidden)
      && (!Counts(attempt, d.work, r) ==> after == d)
      && (Counts(attempt, d.work, r) && r.status.Successful? ==>
            after.ledger == d.ledger + [Entry(r.task, r.status.executor, d.work.tasks[r.task].slice)])
      && (!r.status.Successful? ==> after.ledger == d.ledger)
      && |after.work.tasks| == |d.work.tasks|
      && (forall t | 0 <= t < |d.work.tasks| && t != r.task :: after.work.tasks[t] == d.work.tasks[t])
  {
    if Counts(attempt, d.work, r) {
      var w, t := d.work, r.task;
      var told := Update(w, t, r.status);
      UpdateKeeps(w, n, t, r.status);
      match r.status
      case Successful(x) => PublishOne(d.ledger, w.tasks, hidden, t, x);
      case Running(_) => PublishedStays(d.ledger, w.tasks, hidden, told.tasks);
      case Failed(_, retryable, _) =>
        UnsealedResets(w, n, t);
        assert Reset(told, t) == Reset(w, t);
        PublishedStays(d.ledger, w.tasks, hidden, if retryable then Reset(told, t).tasks else told.tasks);
    }
  }

  lemma {:induction false} TellAllKeeps(attempt: nat, d: Desk, reports: seq<Report>, n: nat, hidden: seq<nat>)
    requires DeskInv(d, n, hidden) && SoundReports(attempt, d, reports)
    ensures DeskInv(TellAll(attempt, d, reports), n, hidden)
    decreases reports
  {
    if reports != [] {
      TellKeeps(attempt, d, reports[0], n, hidden);
      TellAllKeeps(attempt, Tell(attempt, d, reports[0]), reports[1..], n, hidden);
    }
  }

  // ---------------------------------------------------------------------------
  // Steps keep the invariant
  // ---------------------------------------------------------------------------

  lemma ConcludeKeeps(e: Edge)
    requires EdgeInv(e) && e.producer.Busy?
    ensures EdgeInv(Conclude(e))
    ensures Conclude(e).complete <==> Done(e.producer.work, e.n)
  {
    var w := e.producer.work;
    if Done(w, e.n) { assert Work([], w.tasks) == w; }
  }

  /** Where a batch leaves the stage at work, before it may be concluded. */
  lemma BatchDesk(e: Edge, reports: seq<Report>, late: seq<string>, producerFirst: bool)
    requires EdgeInv(e) && e.producer.Busy? && Sound(e, Batch(reports, late, producerFirst))
    ensures var news := News(e.consumer.reasons, late);
      var before := Desk(e.producer.work, e.ledger);
      var told := TellAll(e.producer.attempt, if producerFirst then before else before.(ledger := KeepAll(e.ledger, news)), reports);
      var ids := TasksOnAll(if producerFirst then told.ledger else e.ledger, news);
      var ledger := if producerFirst then KeepAll(told.ledger, news) else told.ledger;
      && Inv(ResetEach(told.work, ids), e.n) && Published(ledger, ResetEach(told.work, ids).tasks)
      && Inv(told.work, e.n) && Takes(ids, told.work.tasks, [])
  {
    var news, w, attempt := News(e.consumer.reasons, late), e.producer.work, e.producer.attempt;
    if producerFirst {
      var told := TellAll(attempt, Desk(w, e.ledger), reports);
      TellAllKeeps(attempt, Desk(w, e.ledger), reports, e.n, []);
      var ids := TasksOnAll(told.ledger, news);
      KeepAllHides(told.ledger, told.work.tasks, [], news);
      assert [] + ids == ids;
      ResetHidden(told.(ledger := KeepAll(told.ledger, news)), e.n, ids);
    } else {
      var ids := TasksOnAll(e.ledger, news);
      KeepAllHides(e.ledger, w.tasks, [], news);
      assert [] + ids == ids;
      var cut := Desk(w, KeepAll(e.ledger, news));
      TellAllKeeps(attempt, cut, reports, e.n, ids);
      ResetHidden(TellAll(attempt, cut, reports), e.n, ids);
    }
  }

  /** A batch, in either order, publishes each success once, takes back what late failures name,
      and completes the input if and only if the stage is done and no late failure was news. */
  lemma BatchKeeps(e: Edge, reports: seq<Report>, late: seq<string>, producerFirst: bool)
    requires EdgeInv(e) && e.producer.Busy? && Enabled(e, Batch(reports, late, producerFirst)) && Sound(e, Batch(reports, late, producerFirst))
    ensures var after := Next(e, Batch(reports, late, producerFirst));
      && EdgeInv(after)
      && (after.complete <==> (reports != [] && News(e.consumer.reasons, late) == [] &&
                               Done(TellAll(e.producer.attempt, Desk(e.producer.work, e.ledger), reports).work, e.n)))
  {
    BatchDesk(e, reports, late, producerFirst);
    var news := News(e.consumer.reasons, late);
    var before := Desk(e.producer.work, e.ledger);
    var told := TellAll(e.producer.attempt, if producerFirst then before else before.(ledger := KeepAll(e.ledger, news)), reports);
    var ids := TasksOnAll(if producerFirst then told.ledger else e.ledger, news);
    var after := Edge(e.n, Busy(e.producer.attempt, ResetEach(told.work, ids)),
      e.consumer.(reasons := e.consumer.reasons + set x | x in news),
      if producerFirst then KeepAll(told.ledger, news) else told.ledger, false);
    if reports != [] && news == [] { ConcludeKeeps(after); }
  }

  lemma RerunEdge(e: Edge, ledger: seq<Entry>, ids: seq<nat>, after: seq<Task>)
    requires EdgeInv(e) && e.producer.Finished? && |after| == |e.producer.tasks|
    requires PublishedBut(ledger, e.producer.tasks, ids)
    requires forall t | 0 <= t < |after| ::
      after[t] == if t in ids then e.producer.tasks[t].(status := LOST) else e.producer.tasks[t]
    ensures var w := Work(Undone(after, e.n), after);
      Inv(w, e.n) && Published(ledger, after) && forall p: nat :: p in w.pending <==> p < e.n && !Covered(after, p)
  {
    RerunKeeps(e.producer.tasks, after, e.n);
    HiddenUndone(ledger, e.producer.tasks, ids, after);
  }

  /** A ledger names an executor exactly when a success of it is on that executor. */
  lemma NamedIff(ledger: seq<Entry>, tasks: seq<Task>, x: string, t: nat)
    requires Published(ledger, tasks)
    ensures t in TasksOn(ledger, x) <==> t < |tasks| && tasks[t].status == Successful(x)
  {
    KeepHolds(ledger, x);
    if t < |tasks| && tasks[t].status == Successful(x) {
      assert Listed(ledger, t);
      var e :| e in ledger && e.task == t;
      assert e.executor == x;
    }
  }

  /** Losing an executor takes exactly its successes off the record. When there were any, the
      consumer waits again and a finished producer restarts with the partitions they covered. */
  lemma LoseExecutorKeeps(e: Edge, x: string)
    requires EdgeInv(e) && !e.consumer.Ended?
    ensures var after := OnLost(e, x);
      && EdgeInv(after)
      && (forall entry :: entry in after.ledger <==> entry in e.ledger && entry.executor != x)
      && ((exists entry | entry in e.ledger :: entry.executor == x) ==> after.consumer.Unresolved?)
      && ((exists entry | entry in e.ledger :: entry.executor == x) && e.producer.Finished? ==> after.producer.Busy?)
      && (e.producer.Finished? && after.producer.Busy? ==>
            forall p: nat :: p in after.producer.work.pending <==> p < e.n && !Covered(after.producer.work.tasks, p))
  {
    KeepHolds(e.ledger, x);
    match e.producer
    case Waiting(_) =>
    case Busy(_, w) =>
      var after, ids := Lose(w, x).tasks, TasksOn(e.ledger, x);
      LoseKeeps(w, e.n, x);
      KeepHides(e.ledger, w.tasks, [], x);
      assert [] + ids == ids;
      forall t: nat ensures t in ids <==> t < |w.tasks| && w.tasks[t].status == Successful(x) { NamedIff(e.ledger, w.tasks, x, t); }
      LostPublished(Keep(e.ledger, x), w.tasks, ids, after);
    case Finished(_, tasks) =>
      var ids := TasksOn(e.ledger, x);
      forall t: nat ensures t in ids <==> t < |tasks| && tasks[t].status == Successful(x) { NamedIff(e.ledger, tasks, x, t); }
      if Keep(e.ledger, x) != e.ledger {
        var after := LoseSuccesses(tasks, x);
        assert ids[0] in ids;
        assert after[ids[0]] != tasks[ids[0]];
        KeepHides(e.ledger, tasks, [], x);
        assert [] + ids == ids;
        RerunEdge(e, Keep(e.ledger, x), ids, after);
      }
  }

  lemma LostPublished(ledger: seq<Entry>, tasks: seq<Task>, ids: seq<nat>, after: seq<Task>)
    requires PublishedBut(ledger, tasks, ids) && |after| == |tasks|
    requires forall t | 0 <= t < |tasks| :: if t in ids then !after[t].status.Successful?
      else after[t] == tasks[t] || (!tasks[t].status.Successful? && !after[t].status.Successful?)
    ensures Published(ledger, after)
  {
    forall t | 0 <= t < |after| && after[t].status.Successful? ensures Listed(ledger, t) {
      assert tasks[t].status.Successful? && t !in ids;
    }
  }

  lemma {:induction false} KeepAllHolds(ledger: seq<Entry>, xs: seq<string>)
    ensures forall e :: e in KeepAll(ledger, xs) <==> e in ledger && e.executor !in xs
    ensures forall t :: t in TasksOnAll(ledger, xs) <==> exists e | e in ledger :: e.executor in xs && e.task == t
    decreases xs
  {
    if xs != [] {
      KeepHolds(ledger, xs[0]);
      KeepAllHolds(Keep(ledger, xs[0]), xs[1..]);
      assert xs == [xs[0]] + xs[1..];
      forall t ensures t in TasksOnAll(ledger, xs) <==> exists e | e in ledger :: e.executor in xs && e.task == t {
        NamedByFirst(ledger, xs, t);
      }
    }
  }

  lemma NamedByFirst(ledger: seq<Entry>, xs: seq<string>, t: nat)
    requires xs != []
    requires t in TasksOnAll(Keep(ledger, xs[0]), xs[1..]) <==>
      exists e | e in Keep(ledger, xs[0]) :: e.executor in xs[1..] && e.task == t
    ensures t in TasksOnAll(ledger, xs) <==> exists e | e in ledger :: e.executor in xs && e.task == t
  {
    KeepHolds(ledger, xs[0]);
    assert xs == [xs[0]] + xs[1..];
    if e :| e in ledger && e.executor in xs && e.task == t {
      if e.executor != xs[0] { assert e in Keep(ledger, xs[0]); }
    }
  }

  /** Failed fetches take back exactly what the executors they name have published: those entries
      and no others go, the successes behind them and no others are lost, and the producer restarts
      with the partitions no remaining success covers while the consumer waits. */
  lemma FetchFailuresKeep(e: Edge, xs: seq<string>)
    requires EdgeInv(e) && Enabled(e, FetchFailures(xs))
    ensures var after := Next(e, FetchFailures(xs));
      && EdgeInv(after) && after.producer.Busy? && after.consumer.Unresolved?
      && (forall entry :: entry in after.ledger <==> entry in e.ledger && entry.executor !in xs)
      && |after.producer.work.tasks| == |e.producer.tasks|
      && (forall t | 0 <= t < |e.producer.tasks| :: after.producer.work.tasks[t] ==
            if t in TasksOnAll(e.ledger, xs) then e.producer.tasks[t].(status := LOST) else e.producer.tasks[t])
      && (forall t :: t in TasksOnAll(e.ledger, xs) <==> exists entry | entry in e.ledger :: entry.executor in xs && entry.task == t)
      && (forall p: nat :: p in after.producer.work.pending <==> p < e.n && !Covered(after.producer.work.tasks, p))
  {
    var tasks, ids := e.producer.tasks, TasksOnAll(e.ledger, xs);
    KeepAllHides(e.ledger, tasks, [], xs);
    KeepAllHolds(e.ledger, xs);
    assert [] + ids == ids;
    RerunEdge(e, KeepAll(e.ledger, xs), ids, MarkLost(tasks, ids));
  }

  /** Every sound step keeps the record equal to the producer's successful tasks, each once. */
  lemma SoundStepKeeps(e: Edge, s: Step)
    requires EdgeInv(e) && Enabled(e, s) && Sound(e, s)
    ensures EdgeInv(Next(e, s))
  {
    match s
    case Start => FreshKeeps(e.n);
    case Hand(max, x) =>
      BindKeeps(e.producer.work, e.n, max, x);
      PublishedStays(e.ledger, e.producer.work.tasks, [], Bind(e.producer.work, max, x).tasks);
    case Batch(reports, late, producerFirst) => if e.producer.Busy? { BatchKeeps(e, reports, late, producerFirst); }
    case LoseExecutor(x) => if !e.consumer.Ended? { LoseExecutorKeeps(e, x); }
    case Resolve =>
    case Begin =>
    case End =>
    case BeginAgain =>
    case RollBackConsumer(_) =>
    case FetchFailures(xs) => FetchFailuresKeep(e, xs);
    case RollBackProducer =>
  }
}
