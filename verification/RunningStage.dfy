/** A running stage as the scheduler holds it, and the finished stage it becomes and may restart
    from. Each method is proved to be an operation of `StageTasks` on the queue and the tasks. */
module RunningStage {
  import opened Wrappers
  import opened StageTasks
  import Sorting

  /** How many of the first `i` tasks are on an executor. */
  function CountOn(tasks: seq<Task>, executor: string, i: nat): nat
    requires i <= |tasks|
  {
    if i == 0 then 0 else CountOn(tasks, executor, i - 1) + (if IsOn(tasks[i - 1].status, executor) then 1 else 0)
  }

  /** A partition's failure counter after a report on it. */
  function Tally(failures: nat, status: Status): nat {
    if status.Successful? then 0 else if status.Failed? && status.retryable then failures + 1 else failures
  }

  /** The failure counters after a report on the partitions of a slice. */
  function Counted(failures: seq<nat>, slice: seq<nat>, status: Status): (r: seq<nat>)
    ensures |r| == |failures|
    ensures forall p | 0 <= p < |r| :: r[p] == (if p in slice then Tally(failures[p], status) else failures[p])
  {
    seq(|failures|, p requires 0 <= p < |failures| => if p in slice then Tally(failures[p], status) else failures[p])
  }

  // ---------------------------------------------------------------------------
  // A sequence without repeats is ordered by its members alone
  // ---------------------------------------------------------------------------

  ghost function Under(s: seq<nat>, x: int): set<nat> {
    set p | p in s && p < x
  }

  lemma {:induction false} BelowIsUnder(s: seq<nat>, x: int)
    requires NoRepeats(s)
    ensures Sorting.Below(s, x) == |Under(s, x)|
  {
    if s == [] {
      assert Under(s, x) == {};
    } else {
      BelowIsUnder(s[1..], x);
      assert s[0] !in s[1..];
      assert Under(s, x) == Under(s[1..], x) + (if s[0] < x then {s[0]} else {});
    }
  }

  lemma {:induction false} LengthIsUnder(s: seq<nat>, n: nat)
    requires NoRepeats(s) && forall p | p in s :: p < n
    ensures |s| == |Under(s, n)|
  {
    if s == [] {
      assert Under(s, n) == {};
    } else {
      assert s[0] in s && forall p | p in s[1..] :: p in s;
      LengthIsUnder(s[1..], n);
      assert s[0] !in s[1..];
      assert Under(s, n) == Under(s[1..], n) + {s[0]};
    }
  }

  lemma SortedMembers(s: seq<nat>, t: seq<nat>, n: nat)
    requires NoRepeats(s) && NoRepeats(t) && Sorting.Sorted(t)
    requires forall p: nat :: p in s <==> p in t
    requires forall p | p in t :: p < n
    ensures Sorting.Sort(s) == t
  {
    forall x: int ensures Sorting.Below(t, x) == Sorting.Below(s, x) {
      BelowIsUnder(s, x);
      BelowIsUnder(t, x);
      assert Under(s, x) == Under(t, x);
    }
    LengthIsUnder(s, n);
    LengthIsUnder(t, n);
    assert Under(s, n) == Under(t, n);
    Sorting.SortIs(s, t);
  }

  lemma {:induction false} UndoneSorted(tasks: seq<Task>, i: nat)
    ensures Sorting.Sorted(Undone(tasks, i))
  {
    if 0 < i {
      UndoneSorted(tasks, i - 1);
      UndoneHolds(tasks, i - 1);
      var before := Undone(tasks, i - 1);
      forall a | 0 <= a < |before| ensures before[a] < i - 1 { assert before[a] in before; }
    }
  }

  // ---------------------------------------------------------------------------
  // The running stage
  // ---------------------------------------------------------------------------

  class RunningStage {
    const partitions: nat
    const attempt: nat
    var pending: seq<nat>
    var tasks: seq<Task>
    var failures: seq<nat>

    function View(): Work
      reads this
    {
      Work(pending, tasks)
    }

    ghost predicate Valid()
      reads this
    {
      |failures| == partitions && Inv(View(), partitions)
    }

    constructor (partitions: nat, attempt: nat)
      ensures Valid() && View() == Fresh(partitions) && this.partitions == partitions && this.attempt == attempt
      ensures forall p | 0 <= p < |failures| :: failures[p] == 0
    {
      this.partitions, this.attempt := partitions, attempt;
      pending, tasks, failures := Range(partitions), [], seq(partitions, _ => 0);
      new;
      FreshKeeps(partitions);
    }

    /** The next task for an executor: up to `max` of the waiting partitions. */
    method BindTask(max: nat, executor: string) returns (task: Option<nat>)
      requires Valid()
      modifies this`pending, this`tasks
      ensures Valid() && View() == Bind(old(View()), max, executor)
      ensures task == if max == 0 || old(pending) == [] then None else Some(|old(tasks)|)
    {
      BindKeeps(View(), partitions, max, executor);
      var take := Least(max, |pending|);
      if take == 0 { return None; }
      task := Some(|tasks|);
      tasks := tasks + [Task(Running(executor), pending[..take])];
      pending := pending[take..];
    }

    method UpdateTaskInfo(t: nat, status: Status) returns (accepted: bool)
      requires Valid() && t < |tasks|
      modifies this`tasks, this`failures
      ensures Valid() && accepted == !Sealed(old(tasks[t].status)) && View() == Update(old(View()), t, status)
      ensures failures == if accepted then Counted(old(failures), old(tasks[t].slice), status) else old(failures)
    {
      UpdateKeeps(View(), partitions, t, status);
      accepted := !Sealed(tasks[t].status);
      if accepted {
        tasks := tasks[t := tasks[t].(status := status)];
        failures := Counted(failures, tasks[t].slice, status);
      }
    }

    /** The most often failed partition of a task decides. */
    method TaskFailureNumber(t: nat) returns (most: nat)
      requires Valid() && t < |tasks|
      ensures forall p | p in tasks[t].slice :: failures[p] <= most
      ensures most == 0 || exists p | p in tasks[t].slice :: failures[p] == most
    {
      most := 0;
      var slice := tasks[t].slice;
      assert forall j | 0 <= j < |slice| :: slice[j] in slice;
      for i := 0 to |slice|
        invariant forall j | 0 <= j < i :: failures[slice[j]] <= most
        invariant most == 0 || exists p | p in slice :: failures[p] == most
      {
        if most < failures[slice[i]] { most := failures[slice[i]]; }
      }
    }

    /** Seals a task and puts its partitions back in front. Valid again exactly when none of them
        was in hand elsewhere. */
    method ResetTaskInfo(t: nat)
      requires Valid() && t < |tasks|
      modifies this`pending, this`tasks
      ensures View() == Reset(old(View()), t)
      ensures Valid() <==> forall p | p in old(tasks[t].slice) :: !InHand(old(View()), t, p)
    {
      ResetKeepsIff(View(), partitions, t);
      pending := tasks[t].slice + pending;
      tasks := tasks[t := tasks[t].(status := RESET)];
    }

    /** An executor is gone: its running and finished tasks are lost. */
    method ResetTasks(executor: string) returns (reset: nat)
      requires Valid()
      modifies this`pending, this`tasks
      ensures Valid() && View() == Lose(old(View()), executor)
      ensures reset == CountOn(old(tasks), executor, |old(tasks)|)
    {
      LoseKeeps(View(), partitions, executor);
      reset := 0;
      var again: seq<nat> := [];
      for t := 0 to |tasks|
        invariant pending == old(pending) && |tasks| == |old(tasks)|
        invariant forall u | 0 <= u < t :: tasks[u] == LoseOne(old(tasks)[u], executor)
        invariant forall u | t <= u < |tasks| :: tasks[u] == old(tasks)[u]
        invariant again == Slices(old(tasks), executor, t) && reset == CountOn(old(tasks), executor, t)
      {
        if IsOn(tasks[t].status, executor) {
          again := again + tasks[t].slice;
          tasks := tasks[t := tasks[t].(status := LOST)];
          reset := reset + 1;
        }
      }
      assert tasks == LoseTasks(old(tasks), executor);
      pending := again + pending;
    }

    method IsSuccessful() returns (done: bool)
      requires Valid()
      ensures done <==> Done(View(), partitions)
    {
      if pending != [] { return false; }
      var covered := seq(partitions, _ => false);
      for t := 0 to |tasks|
        invariant |covered| == partitions
        invariant forall p | 0 <= p < partitions :: covered[p] <==> Covered(tasks[..t], p)
      {
        var before := covered;
        if tasks[t].status.Successful? {
          var slice := tasks[t].slice;
          assert forall j | 0 <= j < |slice| :: slice[j] in slice;
          for i := 0 to |slice|
            invariant |covered| == partitions
            invariant forall p | 0 <= p < partitions :: covered[p] <==> before[p] || p in slice[..i]
          {
            assert slice[..i + 1] == slice[..i] + [slice[i]];
            covered := covered[slice[i] := true];
          }
          assert slice[..|slice|] == slice;
        }
        CoveredNext(tasks, t);
      }
      assert tasks[..|tasks|] == tasks;
      done := forall p | 0 <= p < partitions :: covered[p];
    }
  }

  lemma CoveredNext(tasks: seq<Task>, t: nat)
    requires t < |tasks|
    ensures forall p: nat :: Covered(tasks[..t + 1], p) <==>
      Covered(tasks[..t], p) || (tasks[t].status.Successful? && p in tasks[t].slice)
  {
    forall p: nat ensures Covered(tasks[..t + 1], p) <==>
      Covered(tasks[..t], p) || (tasks[t].status.Successful? && p in tasks[t].slice)
    {
      if Covered(tasks[..t], p) {
        var u :| 0 <= u < t && tasks[..t][u].status.Successful? && p in tasks[..t][u].slice;
        assert tasks[..t + 1][u] == tasks[..t][u];
      }
      if tasks[t].status.Successful? && p in tasks[t].slice {
        assert tasks[..t + 1][t] == tasks[t];
      }
      if Covered(tasks[..t + 1], p) {
        var u :| 0 <= u < t + 1 && tasks[..t + 1][u].status.Successful? && p in tasks[..t + 1][u].slice;
        assert u < t ==> tasks[..t][u] == tasks[..t + 1][u];
      }
    }
  }

  // ---------------------------------------------------------------------------
  // The finished stage
  // ---------------------------------------------------------------------------

  /** The successes on a lost executor no longer count. */
  method ResetSuccesses(tasks: seq<Task>, executor: string) returns (after: seq<Task>, reset: nat)
    ensures after == LoseSuccesses(tasks, executor)
    ensures reset == 0 <==> after == tasks
  {
    after, reset := tasks, 0;
    for t := 0 to |tasks|
      invariant |after| == |tasks|
      invariant reset == 0 <==> after == tasks
      invariant forall u | 0 <= u < t :: after[u] == LoseSuccess(tasks[u], executor)
      invariant forall u | t <= u < |tasks| :: after[u] == tasks[u]
    {
      if tasks[t].status.Successful? && tasks[t].status.executor == executor {
        after, reset := after[t := after[t].(status := LOST)], reset + 1;
        assert after[t] != tasks[t];
      }
    }
  }

  /** Which partitions one task, read after all later ones, adds to those to run again. */
  method Visit(tasks: seq<Task>, t: nat, n: nat, seen0: seq<bool>, again0: seq<nat>) returns (seen: seq<bool>, again: seq<nat>)
    requires t < |tasks| && |seen0| == n && NoRepeats(again0)
    requires forall p: nat | p < n :: seen0[p] <==> exists u | t < u < |tasks| :: p in tasks[u].slice
    requires forall p: nat :: p in again0 <==> p < n && seen0[p] && LastFailed(tasks, p)
    ensures |seen| == n && NoRepeats(again)
    ensures forall p: nat | p < n :: seen[p] <==> seen0[p] || p in tasks[t].slice
    ensures forall p: nat :: p in again <==> p < n && seen[p] && LastFailed(tasks, p)
  {
    seen, again := seen0, again0;
    var slice := tasks[t].slice;
    for i := 0 to |slice|
      invariant |seen| == n && NoRepeats(again)
      invariant forall p: nat | p < n :: seen[p] <==> seen0[p] || p in slice[..i]
      invariant forall p: nat :: p in again <==> p < n && seen[p] && LastFailed(tasks, p)
    {
      var p := slice[i];
      assert slice[..i + 1] == slice[..i] + [p] && p in slice;
      if p < |seen| && !seen[p] {
        assert Last(tasks, p, |tasks|) == Some(t) by {
          assert forall u | t < u < |tasks| :: p !in tasks[u].slice;
        }
        seen := seen[p := true];
        if !tasks[t].status.Successful? { again := again + [p]; }
      }
    }
    assert slice[..|slice|] == slice;
  }

  /** The finished stage runs again, one attempt later, with the partitions whose latest attempt is
      not a success waiting in order. */
  method ToRunning(tasks: seq<Task>, n: nat) returns (pending: seq<nat>)
    ensures pending == Undone(tasks, n)
  {
    var seen := seq(n, _ => false);
    var again: seq<nat> := [];
    var t := |tasks|;
    while 0 < t
      invariant 0 <= t <= |tasks| && |seen| == n && NoRepeats(again)
      invariant forall p: nat | p < n :: seen[p] <==> exists u | t <= u < |tasks| :: p in tasks[u].slice
      invariant forall p: nat :: p in again <==> p < n && seen[p] && LastFailed(tasks, p)
    {
      t := t - 1;
      seen, again := Visit(tasks, t, n, seen, again);
    }
    UndoneHolds(tasks, n);
    UndoneSorted(tasks, n);
    forall p: nat ensures p in again <==> p in Undone(tasks, n) {
      if p < n && LastFailed(tasks, p) {
        assert p in tasks[Last(tasks, p, |tasks|).value].slice;
      }
    }
    SortedMembers(again, Undone(tasks, n), n);
    pending := Sorting.Sort(again);
  }
}
