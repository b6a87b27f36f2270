/** The task bookkeeping of one running stage: a queue of input partitions still to be handed out
    and an append-only list of tasks, each over a slice of partitions. Retries append new tasks. */
module StageTasks {
  import opened Wrappers

  datatype Reason = TaskKilled | ResultLost | FetchPartition | ExecutionError | IoFailure

  datatype Status =
    | Running(executor: string)
    | Successful(executor: string)
    | Failed(reason: Option<Reason>, retryable: bool, counted: bool)

  datatype Task = Task(status: Status, slice: seq<nat>)

  datatype Work = Work(pending: seq<nat>, tasks: seq<Task>)

  const RESET := Failed(Some(TaskKilled), true, false)
  const LOST := Failed(Some(ResultLost), true, false)

  /** A task whose later reports are ignored. */
  predicate Sealed(status: Status) {
    status.Failed? && (status.reason == Some(TaskKilled) || status.reason == Some(ResultLost))
  }

  predicate IsOn(status: Status, executor: string) {
    !status.Failed? && status.executor == executor
  }

  predicate NoRepeats(s: seq<nat>) {
    forall i, j | 0 <= i < j < |s| :: s[i] != s[j]
  }

  /** Partitions of a stage that has `n`, none twice. */
  predicate Proper(s: seq<nat>, n: nat) {
    NoRepeats(s) && forall p | p in s :: p < n
  }

  lemma ProperParts(s: seq<nat>, i: nat, n: nat)
    requires Proper(s, n) && i <= |s|
    ensures Proper(s[..i], n) && Proper(s[i..], n)
    ensures forall p | p in s[..i] :: p in s && p !in s[i..]
    ensures forall p | p in s[i..] :: p in s
  {
    assert forall p | p in s[..i] :: p in s;
    assert forall p | p in s[i..] :: p in s;
  }

  /** Partition `p` has moved on from task `t`: it waits again, or a later task has it. */
  predicate MovedOn(w: Work, t: nat, p: nat) {
    p in w.pending || exists u | t < u < |w.tasks| :: p in w.tasks[u].slice
  }

  /** What every operation keeps: partitions wait at most once, each is somewhere, and a task whose
      partition has moved on is sealed. */
  ghost predicate Inv(w: Work, n: nat) {
    && Proper(w.pending, n)
    && (forall t | 0 <= t < |w.tasks| :: w.tasks[t].slice != [] && Proper(w.tasks[t].slice, n))
    && (forall t, p | 0 <= t < |w.tasks| && p in w.tasks[t].slice && MovedOn(w, t, p) :: Sealed(w.tasks[t].status))
    && (forall p: nat | p < n :: p in w.pending || exists t | 0 <= t < |w.tasks| :: p in w.tasks[t].slice)
  }

  // ---------------------------------------------------------------------------
  // Operations on values
  // ---------------------------------------------------------------------------

  function Range(n: nat): (r: seq<nat>)
    ensures |r| == n && forall i | 0 <= i < n :: r[i] == i
  {
    seq(n, i => i)
  }

  function Fresh(n: nat): Work {
    Work(Range(n), [])
  }

  function Least(a: nat, b: nat): nat {
    if a < b then a else b
  }

  function Bind(w: Work, max: nat, executor: string): Work {
    var take := Least(max, |w.pending|);
    if take == 0 then w
    else Work(w.pending[take..], w.tasks + [Task(Running(executor), w.pending[..take])])
  }

  function Update(w: Work, t: nat, status: Status): Work
    requires t < |w.tasks|
  {
    if Sealed(w.tasks[t].status) then w else w.(tasks := w.tasks[t := w.tasks[t].(status := status)])
  }

  function Reset(w: Work, t: nat): Work
    requires t < |w.tasks|
  {
    Work(w.tasks[t].slice + w.pending, w.tasks[t := w.tasks[t].(status := RESET)])
  }

  function LoseOne(task: Task, executor: string): Task {
    if IsOn(task.status, executor) then task.(status := LOST) else task
  }

  function LoseTasks(tasks: seq<Task>, executor: string): (r: seq<Task>)
    ensures |r| == |tasks| && forall t | 0 <= t < |r| :: r[t] == LoseOne(tasks[t], executor)
  {
    seq(|tasks|, t requires 0 <= t < |tasks| => LoseOne(tasks[t], executor))
  }

  /** Of a finished stage only the successes on an executor are lost. */
  function LoseSuccess(task: Task, executor: string): Task {
    if task.status.Successful? && task.status.executor == executor then task.(status := LOST) else task
  }

  function LoseSuccesses(tasks: seq<Task>, executor: string): (r: seq<Task>)
    ensures |r| == |tasks| && forall t | 0 <= t < |r| :: r[t] == LoseSuccess(tasks[t], executor)
  {
    seq(|tasks|, t requires 0 <= t < |tasks| => LoseSuccess(tasks[t], executor))
  }

  /** The slices of the first `i` tasks that are on an executor, one after the other. */
  function Slices(tasks: seq<Task>, executor: string, i: nat): seq<nat>
    requires i <= |tasks|
  {
    if i == 0 then []
    else Slices(tasks, executor, i - 1) + (if IsOn(tasks[i - 1].status, executor) then tasks[i - 1].slice else [])
  }

  function Lose(w: Work, executor: string): Work {
    Work(Slices(w.tasks, executor, |w.tasks|) + w.pending, LoseTasks(w.tasks, executor))
  }

  // ---------------------------------------------------------------------------
  // Every operation keeps the invariant
  // ---------------------------------------------------------------------------

  lemma FreshKeeps(n: nat)
    ensures Inv(Fresh(n), n)
  {
    forall p: nat | p < n ensures p in Fresh(n).pending { assert Range(n)[p] == p; }
  }

  lemma BindSeals(w: Work, b: Work, n: nat, t: nat, p: nat)
    requires Inv(w, n) && |b.tasks| == |w.tasks| + 1 && b.tasks[..|w.tasks|] == w.tasks
    requires w.pending == b.tasks[|w.tasks|].slice + b.pending
    requires t < |w.tasks| && p in b.tasks[t].slice && MovedOn(b, t, p)
    ensures Sealed(b.tasks[t].status)
  {
    assert b.tasks[t] == w.tasks[t];
    if p !in w.pending {
      var u :| t < u < |b.tasks| && p in b.tasks[u].slice;
      assert u < |w.tasks| && b.tasks[u] == w.tasks[u];
    }
    assert MovedOn(w, t, p);
  }

  lemma BindKnows(w: Work, b: Work, n: nat, p: nat)
    requires Inv(w, n) && |b.tasks| == |w.tasks| + 1 && b.tasks[..|w.tasks|] == w.tasks
    requires w.pending == b.tasks[|w.tasks|].slice + b.pending && p < n
    ensures p in b.pending || exists t | 0 <= t < |b.tasks| :: p in b.tasks[t].slice
  {
    if p !in w.pending {
      var t :| 0 <= t < |w.tasks| && p in w.tasks[t].slice;
      assert b.tasks[t] == w.tasks[t];
    }
  }

  lemma BindKeeps(w: Work, n: nat, max: nat, executor: string)
    requires Inv(w, n)
    ensures Inv(Bind(w, max, executor), n)
  {
    var take := Least(max, |w.pending|);
    if 0 < take {
      var b := Bind(w, max, executor);
      var last := |w.tasks|;
      assert w.pending == b.tasks[last].slice + b.pending;
      ProperParts(w.pending, take, n);
      assert b.tasks[..last] == w.tasks;
      forall t, p | 0 <= t < |b.tasks| && p in b.tasks[t].slice && MovedOn(b, t, p) ensures Sealed(b.tasks[t].status) {
        if t < last { BindSeals(w, b, n, t, p); }
      }
      forall p: nat | p < n ensures p in b.pending || exists t | 0 <= t < |b.tasks| :: p in b.tasks[t].slice {
        BindKnows(w, b, n, p);
      }
    }
  }

  lemma SameSlices(w: Work, v: Work, n: nat)
    requires Inv(w, n) && v.pending == w.pending && |v.tasks| == |w.tasks|
    requires forall t | 0 <= t < |w.tasks| :: v.tasks[t].slice == w.tasks[t].slice
    requires forall t | 0 <= t < |w.tasks| :: Sealed(w.tasks[t].status) ==> Sealed(v.tasks[t].status)
    ensures Inv(v, n)
  {
    forall t, p | 0 <= t < |v.tasks| && p in v.tasks[t].slice && MovedOn(v, t, p) ensures Sealed(v.tasks[t].status) {
      if p !in v.pending {
        var u :| t < u < |v.tasks| && p in v.tasks[u].slice;
        assert p in w.tasks[u].slice;
      }
      assert p in w.tasks[t].slice && MovedOn(w, t, p);
    }
    forall p: nat | p < n ensures p in v.pending || exists t | 0 <= t < |v.tasks| :: p in v.tasks[t].slice {
      if p !in v.pending {
        var t :| 0 <= t < |w.tasks| && p in w.tasks[t].slice;
        assert p in v.tasks[t].slice;
      }
    }
  }

  lemma UpdateKeeps(w: Work, n: nat, t: nat, status: Status)
    requires Inv(w, n) && t < |w.tasks|
    ensures Inv(Update(w, t, status), n)
  {
    if !Sealed(w.tasks[t].status) { SameSlices(w, Update(w, t, status), n); }
  }

  /** Putting partitions that have not moved on back in front. */
  lemma RescheduleKeeps(w: Work, n: nat, again: seq<nat>)
    requires Inv(w, n) && NoRepeats(again)
    requires forall p | p in again :: p < n && p !in w.pending
    requires forall t, p | 0 <= t < |w.tasks| && p in w.tasks[t].slice && p in again :: Sealed(w.tasks[t].status)
    ensures Inv(w.(pending := again + w.pending), n)
  {
    var v := w.(pending := again + w.pending);
    forall i, j | 0 <= i < j < |v.pending| ensures v.pending[i] != v.pending[j] {
      if i < |again| <= j {
        assert again[i] in again && w.pending[j - |again|] in w.pending;
      }
    }
    forall t, p | 0 <= t < |v.tasks| && p in v.tasks[t].slice && MovedOn(v, t, p) ensures Sealed(v.tasks[t].status) {
      if p !in again { assert MovedOn(w, t, p); }
    }
  }

  /** An unsealed task's partitions wait nowhere and belong to no other unsealed task. */
  lemma UnsealedHolds(w: Work, n: nat, t: nat, u: nat, p: nat)
    requires Inv(w, n) && t < |w.tasks| && u < |w.tasks| && !Sealed(w.tasks[t].status)
    requires p in w.tasks[t].slice
    ensures p !in w.pending
    ensures t != u && p in w.tasks[u].slice ==> u < t && Sealed(w.tasks[u].status)
  {
    if p in w.pending { assert MovedOn(w, t, p); }
    if t < u && p in w.tasks[u].slice { assert MovedOn(w, t, p); }
    if u < t && p in w.tasks[u].slice { assert MovedOn(w, u, p); }
  }

  /** Partition `p` is in hand elsewhere: it waits, or another task that may still report has it. */
  predicate InHand(w: Work, t: nat, p: nat) {
    p in w.pending || exists u | 0 <= u < |w.tasks| && u != t :: p in w.tasks[u].slice && !Sealed(w.tasks[u].status)
  }

  /** Resetting a task keeps the invariant exactly when none of its partitions is in hand elsewhere. */
  lemma ResetKeepsIff(w: Work, n: nat, t: nat)
    requires Inv(w, n) && t < |w.tasks|
    ensures Inv(Reset(w, t), n) <==> forall p | p in w.tasks[t].slice :: !InHand(w, t, p)
  {
    var task := w.tasks[t];
    if forall p | p in task.slice :: !InHand(w, t, p) {
      var v := w.(tasks := w.tasks[t := task.(status := RESET)]);
      SameSlices(w, v, n);
      forall u, p | 0 <= u < |v.tasks| && p in v.tasks[u].slice && p in task.slice ensures Sealed(v.tasks[u].status) {
        assert !InHand(w, t, p);
      }
      forall p | p in task.slice ensures p !in v.pending { assert !InHand(w, t, p); }
      RescheduleKeeps(v, n, task.slice);
    } else {
      var p :| p in task.slice && InHand(w, t, p);
      ResetBreaks(w, n, t, p);
    }
  }

  lemma ResetBreaks(w: Work, n: nat, t: nat, p: nat)
    requires Inv(w, n) && t < |w.tasks| && p in w.tasks[t].slice && InHand(w, t, p)
    ensures !Inv(Reset(w, t), n)
  {
    var r := Reset(w, t);
    if p in w.pending {
      var i :| 0 <= i < |w.tasks[t].slice| && w.tasks[t].slice[i] == p;
      var j :| 0 <= j < |w.pending| && w.pending[j] == p;
      assert r.pending[i] == p && r.pending[|w.tasks[t].slice| + j] == p;
    } else {
      var u :| 0 <= u < |w.tasks| && u != t && p in w.tasks[u].slice && !Sealed(w.tasks[u].status);
      assert p in r.pending && p in r.tasks[u].slice && MovedOn(r, u, p);
    }
  }

  /** A task that may still report has nothing in hand elsewhere. */
  lemma UnsealedResets(w: Work, n: nat, t: nat)
    requires Inv(w, n) && t < |w.tasks| && !Sealed(w.tasks[t].status)
    ensures Inv(Reset(w, t), n)
  {
    forall p | p in w.tasks[t].slice ensures !InHand(w, t, p) {
      forall u | 0 <= u < |w.tasks| ensures p !in w.pending && (u != t && p in w.tasks[u].slice ==> Sealed(w.tasks[u].status)) {
        UnsealedHolds(w, n, t, u, p);
      }
    }
    ResetKeepsIff(w, n, t);
  }

  /** What the slices on an executor hold. */
  lemma {:induction false} SlicesHold(w: Work, n: nat, executor: string, i: nat)
    requires Inv(w, n) && i <= |w.tasks|
    ensures forall p :: p in Slices(w.tasks, executor, i) <==>
      exists t | 0 <= t < i :: IsOn(w.tasks[t].status, executor) && p in w.tasks[t].slice
    ensures NoRepeats(Slices(w.tasks, executor, i))
  {
    if 0 < i {
      SlicesHold(w, n, executor, i - 1);
      var before, task := Slices(w.tasks, executor, i - 1), w.tasks[i - 1];
      if IsOn(task.status, executor) {
        var all := before + task.slice;
        forall a, b | 0 <= a < b < |all| ensures all[a] != all[b] {
          if a < |before| <= b {
            assert before[a] in before && task.slice[b - |before|] in task.slice;
            var t :| 0 <= t < i - 1 && IsOn(w.tasks[t].status, executor) && before[a] in w.tasks[t].slice;
            if before[a] == all[b] { UnsealedHolds(w, n, t, i - 1, before[a]); }
          }
        }
      }
    }
  }

  /** Losing an executor seals its tasks and puts each of their partitions back once. */
  lemma LoseKeeps(w: Work, n: nat, executor: string)
    requires Inv(w, n)
    ensures Inv(Lose(w, executor), n)
    ensures forall p :: p in Lose(w, executor).pending <==>
      p in w.pending || exists t | 0 <= t < |w.tasks| :: IsOn(w.tasks[t].status, executor) && p in w.tasks[t].slice
    ensures forall t | 0 <= t < |w.tasks| :: !IsOn(Lose(w, executor).tasks[t].status, executor)
  {
    var again := Slices(w.tasks, executor, |w.tasks|);
    SlicesHold(w, n, executor, |w.tasks|);
    var v := w.(tasks := LoseTasks(w.tasks, executor));
    SameSlices(w, v, n);
    forall p | p in again ensures p < n && p !in v.pending {
      var t :| 0 <= t < |w.tasks| && IsOn(w.tasks[t].status, executor) && p in w.tasks[t].slice;
      UnsealedHolds(w, n, t, t, p);
    }
    forall u, p | 0 <= u < |v.tasks| && p in v.tasks[u].slice && p in again ensures Sealed(v.tasks[u].status) {
      var t :| 0 <= t < |w.tasks| && IsOn(w.tasks[t].status, executor) && p in w.tasks[t].slice;
      UnsealedHolds(w, n, t, u, p);
    }
    RescheduleKeeps(v, n, again);
  }

  /** The latest of the first `i` tasks that has partition `p`. */
  function Last(tasks: seq<Task>, p: nat, i: nat): (r: Option<nat>)
    requires i <= |tasks|
    ensures r.Some? ==> r.value < i && p in tasks[r.value].slice && forall u | r.value < u < i :: p !in tasks[u].slice
    ensures r.None? ==> forall u | 0 <= u < i :: p !in tasks[u].slice
  {
    if i == 0 then None else if p in tasks[i - 1].slice then Some(i - 1) else Last(tasks, p, i - 1)
  }

  // ---------------------------------------------------------------------------
  // Done, and undone
  // ---------------------------------------------------------------------------

  predicate Covered(tasks: seq<Task>, p: nat) {
    exists t | 0 <= t < |tasks| :: tasks[t].status.Successful? && p in tasks[t].slice
  }

  /** Nothing waits and every partition is covered by a successful task. */
  predicate Done(w: Work, n: nat) {
    w.pending == [] && forall p: nat | p < n :: Covered(w.tasks, p)
  }

  /** A partition is covered exactly when its latest attempt is the one that succeeded. */
  lemma CoveredIffLatest(w: Work, n: nat, p: nat)
    requires Inv(w, n)
    ensures Covered(w.tasks, p) <==>
      var last := Last(w.tasks, p, |w.tasks|); last.Some? && w.tasks[last.value].status.Successful?
  {
    if Covered(w.tasks, p) {
      var t :| 0 <= t < |w.tasks| && w.tasks[t].status.Successful? && p in w.tasks[t].slice;
      var last := Last(w.tasks, p, |w.tasks|).value;
      UnsealedHolds(w, n, t, last, p);
    }
  }

  /** No partition is covered twice. */
  lemma CoveredOnce(w: Work, n: nat, t: nat, u: nat, p: nat)
    requires Inv(w, n) && t < |w.tasks| && u < |w.tasks| && p in w.tasks[t].slice && p in w.tasks[u].slice
    requires !w.tasks[t].status.Failed? && !w.tasks[u].status.Failed?
    ensures t == u
  {
    UnsealedHolds(w, n, t, u, p);
  }

  /** The latest attempt at a partition is not a success. */
  predicate LastFailed(tasks: seq<Task>, p: nat) {
    var last := Last(tasks, p, |tasks|);
    last.Some? && !tasks[last.value].status.Successful?
  }

  /** The partitions below `i` whose latest attempt is not a success, in order. */
  function Undone(tasks: seq<Task>, i: nat): seq<nat> {
    if i == 0 then [] else Undone(tasks, i - 1) + (if LastFailed(tasks, i - 1) then [i - 1] else [])
  }

  lemma {:induction false} UndoneHolds(tasks: seq<Task>, i: nat)
    ensures NoRepeats(Undone(tasks, i))
    ensures forall p: nat :: p in Undone(tasks, i) <==> p < i && LastFailed(tasks, p)
  {
    if 0 < i {
      UndoneHolds(tasks, i - 1);
      var before := Undone(tasks, i - 1);
      forall a | 0 <= a < |before| ensures before[a] < i - 1 { assert before[a] in before; }
    }
  }

  /** Marks some tasks of a finished stage as lost. */
  predicate LostSome(before: seq<Task>, after: seq<Task>) {
    && |after| == |before|
    && forall t | 0 <= t < |before| :: after[t] == before[t] || after[t] == before[t].(status := LOST)
  }

  /** A finished stage that lost results starts again with exactly the partitions no remaining
      success covers, each once, and with the invariant. */
  lemma RerunKeeps(before: seq<Task>, after: seq<Task>, n: nat)
    requires Inv(Work([], before), n) && Done(Work([], before), n) && LostSome(before, after)
    ensures Inv(Work(Undone(after, n), after), n)
    ensures forall p: nat :: p in Undone(after, n) <==> p < n && !Covered(after, p)
  {
    var w := Work([], after);
    SameSlices(Work([], before), w, n);
    UndoneHolds(after, n);
    forall p: nat | p < n ensures p in Undone(after, n) <==> !Covered(after, p) {
      CoveredIffLatest(w, n, p);
      assert Covered(before, p);
    }
    forall t, p | 0 <= t < |after| && p in after[t].slice && p in Undone(after, n) ensures Sealed(after[t].status) {
      UndoneSealed(before, after, n, t, p);
    }
    RescheduleKeeps(w, n, Undone(after, n));
    assert Undone(after, n) + [] == Undone(after, n);
  }

  lemma UndoneSealed(before: seq<Task>, after: seq<Task>, n: nat, t: nat, p: nat)
    requires Inv(Work([], before), n) && Done(Work([], before), n) && LostSome(before, after)
    requires t < |after| && p in after[t].slice && p < n && !Covered(after, p)
    ensures Sealed(after[t].status)
  {
    assert Covered(before, p);
    var u :| 0 <= u < |before| && before[u].status.Successful? && p in before[u].slice;
    UnsealedHolds(Work([], before), n, u, t, p);
    assert after[u] == before[u] ==> Covered(after, p);
  }
}
