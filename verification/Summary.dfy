/** Running a suite of queries and writing its summary after each one, so that a kill at any
    moment leaves a complete summary of what had been collected. */
module Summary {
  import opened Wrappers

  type Bytes = seq<int>

  datatype QueryResult = QueryResult(elapsed: real, rowCount: nat)
  datatype QueryRun = QueryRun(query: nat, iterations: seq<QueryResult>, error: Option<string>)

  /** How running a query ends: the iterations that finished, and the error if it failed. */
  datatype Ending = Ending(iterations: seq<QueryResult>, error: Option<string>)

  function RunOf(query: nat, e: Ending): QueryRun {
    QueryRun(query, e.iterations, e.error)
  }

  /** The record of a suite in which query `i` ends as `endings(i)`. */
  function Record(queries: seq<nat>, endings: nat -> Ending): (r: seq<QueryRun>)
    ensures |r| == |queries|
    ensures forall i | 0 <= i < |queries| :: r[i] == RunOf(queries[i], endings(i))
  {
    seq(|queries|, i requires 0 <= i < |queries| => RunOf(queries[i], endings(i)))
  }

  function Failures(runs: seq<QueryRun>): nat {
    if runs == [] then 0 else Failures(runs[..|runs| - 1]) + if runs[|runs| - 1].error.Some? then 1 else 0
  }

  lemma {:induction false} FailuresIff(runs: seq<QueryRun>)
    ensures Failures(runs) > 0 <==> exists i :: 0 <= i < |runs| && runs[i].error.Some?
  {
    if runs != [] {
      var n := |runs| - 1;
      FailuresIff(runs[..n]);
      assert forall i | 0 <= i < n :: runs[..n][i] == runs[i];
    }
  }

  /** What a kill at some moment would leave on disk, with the number of queries completed by
      then and the number of them that the summary covers. */
  datatype Moment = Moment(tmpFile: Option<Bytes>, finalFile: Option<Bytes>, completed: nat, covered: nat)

  datatype SuiteError = WriteFailed | QueriesFailed(count: nat)

  class Suite {
    /** The summary's text; `before` is what a file of that name held at the start. */
    const render: seq<QueryRun> -> Bytes
    const before: Option<Bytes>
    var tmpFile: Option<Bytes>
    var finalFile: Option<Bytes>
    var runs: seq<QueryRun>
    ghost var covered: nat
    ghost var moments: seq<Moment>

    constructor (render: seq<QueryRun> -> Bytes, before: Option<Bytes>)
      ensures this.render == render && this.before == before && runs == [] && moments == []
      ensures Valid() && covered == 0
    {
      this.render, this.before := render, before;
      tmpFile, finalFile, runs := None, before, [];
      covered, moments := 0, [];
    }

    /** The file that covers the first `k` runs: before the first one, whatever was there. */
    function FileFor(k: nat): Option<Bytes>
      reads this
      requires k <= |runs|
    {
      if k == 0 then before else Some(render(runs[..k]))
    }

    /** A complete summary of a prefix of the runs, at most one behind. */
    ghost predicate Consistent(m: Moment)
      reads this
    {
      m.covered <= m.completed <= |runs| && m.completed <= m.covered + 1 && m.finalFile == FileFor(m.covered)
    }

    ghost predicate Valid()
      reads this
    {
      && covered <= |runs| && finalFile == FileFor(covered)
      && (forall i | 0 <= i < |moments| :: Consistent(moments[i]))
      && (forall i, j | 0 <= i < j < |moments| :: moments[i].covered <= moments[j].covered)
      && (forall i | 0 <= i < |moments| :: moments[i].covered <= covered)
    }

    ghost method Note()
      requires Valid() && |runs| <= covered + 1
      modifies `moments
      ensures Valid() && moments == old(moments) + [Moment(tmpFile, finalFile, |runs|, covered)]
    {
      moments := moments + [Moment(tmpFile, finalFile, |runs|, covered)];
    }

    /** Create the temporary file, write it piece by piece, sync, rename. Any of these may fail. */
    method WriteSummary() returns (ok: bool)
      requires Valid() && runs != [] && covered == |runs| - 1
      modifies `tmpFile, `finalFile, `covered, `moments
      ensures Valid() && old(moments) <= moments && moments != []
      ensures ok ==> covered == |runs|
      ensures covered == |runs| || covered == old(covered)
    {
      var json := render(runs);
      Note();
      var created: bool := *;
      if !created {
        return false;
      }
      tmpFile := Some([]);
      Note();
      var written := 0;
      while written < |json|
        invariant Valid() && covered == |runs| - 1 && old(moments) <= moments && moments != []
        invariant 0 <= written <= |json| && tmpFile == Some(json[..written])
      {
        var fails: bool := *;
        if fails {
          return false;
        }
        var more :| 0 < more <= |json| - written;
        written := written + more;
        tmpFile := Some(json[..written]);
        Note();
      }
      assert json[..|json|] == json;
      var synced, renamed: bool := *, *;
      if !synced || !renamed {
        return false;
      }
      assert runs[..|runs|] == runs;
      finalFile, tmpFile := tmpFile, None;
      covered := |runs|;
      Note();
      return true;
    }

    method RunSuite(queries: seq<nat>, output: bool, endings: nat -> Ending) returns (r: Result<seq<QueryRun>, SuiteError>)
      requires runs == [] && moments == [] && covered == 0 && Valid()
      modifies this
      ensures Valid() && runs <= Record(queries, endings)
      // without an output directory nothing is written
      ensures !output ==> moments == [] && finalFile == before
      // a run whose writes succeed records every query, in order
      ensures r != Err(WriteFailed) ==> runs == Record(queries, endings)
      ensures r != Err(WriteFailed) && output ==> covered == |queries|
      ensures !output ==> r != Err(WriteFailed)
      // and returns an error exactly when some query failed
      ensures r.Ok? ==> r.value == runs
      ensures r != Err(WriteFailed) ==>
        (r == Err(QueriesFailed(Failures(runs))) <==> exists i :: 0 <= i < |queries| && endings(i).error.Some?)
      ensures r.Ok? || r == Err(WriteFailed) || r == Err(QueriesFailed(Failures(runs)))
    {
      ghost var all := Record(queries, endings);
      for i := 0 to |queries|
        invariant Valid() && runs == all[..i]
        invariant if output then covered == i else covered == 0 && moments == [] && finalFile == before
      {
        var run := RunOf(queries[i], endings(i));
        ghost var earlier := runs;
        runs := runs + [run];
        assert forall k | 0 <= k <= |earlier| :: runs[..k] == earlier[..k];
        assert runs == all[..i + 1];
        if output {
          var ok := WriteSummary();
          if !ok {
            return Err(WriteFailed);
          }
        }
      }
      assert runs == all;
      FailuresIff(runs);
      var failures := Failures(runs);
      if failures > 0 {
        return Err(QueriesFailed(failures));
      }
      return Ok(runs);
    }
  }
}
