/** The body of `main`: read the rows into a set of unique ids, spawn one task
    per id, join the tasks in spawn order into result rows. The runtime and
    the network are abstracted as `env`, which says for each id what its
    spawned task did: it ran and the request produced a `SendOutcome`, or
    joining its handle failed. */
module Engine {
  import opened Tasks
  import opened RemoteOperation

  /** What the runtime and the network did with the task spawned for one id. */
  datatype TaskRun = Ran(response: SendOutcome) | JoinFault(reason: string)

  /** What awaiting a handle yields: the `(task_id, outcome)` pair the task
      returned, or the runtime's join error (its display text). */
  datatype JoinResult = Joined(task_id: u64, outcome: Result<()>) | JoinError(reason: string)

  /** A spawned task: the id moved into it, and what joining it will yield. */
  datatype Handle = Handle(task_id: u64, join: JoinResult)

  const JoinErrorPrefix: string := "Task execution error: "

  // ---------------------------------------------------------------------
  // Ingest: the dedup loop

  predicate AllParsed(rows: seq<Result<InputTask>>)
  {
    forall i :: 0 <= i < |rows| ==> rows[i].Ok?
  }

  /** Row `k` is the first row that failed to parse. */
  predicate IsFirstParseError(rows: seq<Result<InputTask>>, k: int)
  {
    0 <= k < |rows| && rows[k].Err? && forall i :: 0 <= i < k ==> rows[i].Ok?
  }

  /** The ids of the rows that parsed. */
  ghost function RowIds(rows: seq<Result<InputTask>>): set<u64>
  {
    set i | 0 <= i < |rows| && rows[i].Ok? :: rows[i].value.task_id
  }

  /** Folds the rows into the set of unique task ids, or stops at the first
      row that does not parse; no partial set is returned. */
  method Ingest(rows: seq<Result<InputTask>>) returns (r: Result<set<u64>>)
    ensures r.Ok? <==> AllParsed(rows)
    ensures r.Ok? ==> r.value == RowIds(rows)
    ensures r.Err? ==> exists k :: IsFirstParseError(rows, k) && r.error == rows[k].error
  {
    var unique: set<u64> := {};
    var i := 0;
    while i < |rows|
      invariant 0 <= i <= |rows|
      invariant forall j :: 0 <= j < i ==> rows[j].Ok?
      invariant unique == RowIds(rows[..i])
    {
      if rows[i].Err? {
        assert IsFirstParseError(rows, i);
        return Err(rows[i].error);
      }
      RowIdsSnoc(rows[..i], rows[i]);
      assert rows[..i + 1] == rows[..i] + [rows[i]];
      unique := unique + {rows[i].value.task_id};
      i := i + 1;
    }
    assert rows[..i] == rows;
    return Ok(unique);
  }

  lemma RowIdsSnoc(rows: seq<Result<InputTask>>, row: Result<InputTask>)
    requires row.Ok?
    ensures RowIds(rows + [row]) == RowIds(rows) + {row.value.task_id}
  {
    var s := rows + [row];
    assert s[|rows|] == row;
    forall id | id in RowIds(rows)
      ensures id in RowIds(s)
    {
      var i :| 0 <= i < |rows| && rows[i].Ok? && rows[i].value.task_id == id;
      assert s[i] == rows[i];
    }
  }

  /** Deduplication never adds ids: there are at most as many unique ids as
      rows, however often an id is repeated. */
  lemma {:induction false} RowIdsBounded(rows: seq<Result<InputTask>>)
    ensures |RowIds(rows)| <= |rows|
  {
    if rows == [] {
      assert RowIds(rows) == {};
    } else {
      var init := rows[..|rows| - 1];
      var last := rows[|rows| - 1];
      assert rows == init + [last];
      RowIdsBounded(init);
      if last.Ok? {
        RowIdsSnoc(init, last);
      } else {
        RowIdsSkipsError(init, last);
      }
    }
  }

  lemma RowIdsSkipsError(rows: seq<Result<InputTask>>, row: Result<InputTask>)
    requires row.Err?
    ensures RowIds(rows + [row]) == RowIds(rows)
  {
    var s := rows + [row];
    forall id | id in RowIds(rows)
      ensures id in RowIds(s)
    {
      var i :| 0 <= i < |rows| && rows[i].Ok? && rows[i].value.task_id == id;
      assert s[i] == rows[i];
    }
  }

  /** A row repeating an id already seen leaves the set unchanged. */
  lemma RepeatedIdCollapses(rows: seq<Result<InputTask>>, row: Result<InputTask>)
    requires row.Ok? && row.value.task_id in RowIds(rows)
    ensures RowIds(rows + [row]) == RowIds(rows)
  {
    RowIdsSnoc(rows, row);
  }

  // ---------------------------------------------------------------------
  // Dispatch: the spawn loop

  /** The handle `tokio::spawn` returns for `id`: the task computes
      `(id, execute_task(id))` unless the runtime fails it. */
  function Spawn(id: u64, env: u64 -> TaskRun): Handle
  {
    match env(id)
    case Ran(response) => Handle(id, Joined(id, ExecuteTask(response)))
    case JoinFault(reason) => Handle(id, JoinError(reason))
  }

  ghost function HandleIds(handles: seq<Handle>): set<u64>
  {
    set i | 0 <= i < |handles| :: handles[i].task_id
  }

  /** No id is spawned twice. */
  predicate DistinctIds(handles: seq<Handle>)
  {
    forall i, j :: 0 <= i < j < |handles| ==> handles[i].task_id != handles[j].task_id
  }

  /** Every handle is the one spawned for its own id. */
  predicate SpawnedFor(handles: seq<Handle>, env: u64 -> TaskRun)
  {
    forall i :: 0 <= i < |handles| ==> handles[i] == Spawn(handles[i].task_id, env)
  }

  /** Spawns one task per id, in whatever order the set yields them: the
      handles enumerate the set without repeats. */
  method Dispatch(ids: set<u64>, env: u64 -> TaskRun) returns (handles: seq<Handle>)
    ensures |handles| == |ids|
    ensures HandleIds(handles) == ids
    ensures DistinctIds(handles)
    ensures SpawnedFor(handles, env)
  {
    handles := [];
    var remaining := ids;
    while remaining != {}
      invariant remaining <= ids
      invariant HandleIds(handles) == ids - remaining
      invariant |handles| + |remaining| == |ids|
      invariant DistinctIds(handles)
      invariant SpawnedFor(handles, env)
      decreases remaining
    {
      var id :| id in remaining;
      var h := Spawn(id, env);
      PushHandle(handles, h, env);
      handles := handles + [h];
      remaining := remaining - {id};
    }
  }

  /** Pushing the handle of an id not yet spawned keeps the handles distinct
      and adds exactly that id. */
  lemma PushHandle(handles: seq<Handle>, h: Handle, env: u64 -> TaskRun)
    requires DistinctIds(handles) && SpawnedFor(handles, env)
    requires h.task_id !in HandleIds(handles) && h == Spawn(h.task_id, env)
    ensures DistinctIds(handles + [h]) && SpawnedFor(handles + [h], env)
    ensures HandleIds(handles + [h]) == HandleIds(handles) + {h.task_id}
  {
    var s := handles + [h];
    assert s[|handles|] == h;
    forall id | id in HandleIds(handles)
      ensures id in HandleIds(s)
    {
      var i :| 0 <= i < |handles| && handles[i].task_id == id;
      assert s[i] == handles[i];
    }
    forall i, j | 0 <= i < j < |s|
      ensures s[i].task_id != s[j].task_id
    {
      if j == |handles| {
        assert s[i].task_id in HandleIds(handles);
      }
    }
  }

  // ---------------------------------------------------------------------
  // Collect: the join loop

  /** The row written for a task's outcome. */
  function ToTaskResult(id: u64, outcome: Result<()>): (t: TaskResult)
    ensures t.task_id == id
    ensures t.final_status == Completed <==> outcome.Ok?
    ensures outcome.Ok? ==> t.error_info == ""
    ensures outcome.Err? ==> t.error_info == outcome.error
  {
    match outcome
    case Ok(_) => TaskResult(id, Completed, "")
    case Err(msg) => TaskResult(id, Failed, msg)
  }

  predicate AllJoined(handles: seq<Handle>)
  {
    forall i :: 0 <= i < |handles| ==> handles[i].join.Joined?
  }

  /** Handle `k` is the first whose join failed. */
  predicate IsFirstJoinError(handles: seq<Handle>, k: int)
  {
    0 <= k < |handles| && handles[k].join.JoinError? && forall i :: 0 <= i < k ==> handles[i].join.Joined?
  }

  /** Awaits the handles in push order. Each joined task gives one row, in the
      same position; the first failed join aborts with its message and no
      rows. */
  method Collect(handles: seq<Handle>) returns (r: Result<seq<TaskResult>>)
    ensures r.Ok? <==> AllJoined(handles)
    ensures r.Ok? ==> |r.value| == |handles|
    ensures r.Ok? ==> forall i :: 0 <= i < |handles| ==>
              r.value[i] == ToTaskResult(handles[i].join.task_id, handles[i].join.outcome)
    ensures r.Err? ==> exists k :: IsFirstJoinError(handles, k) && r.error == JoinErrorPrefix + handles[k].join.reason
  {
    var results: seq<TaskResult> := [];
    var i := 0;
    while i < |handles|
      invariant 0 <= i <= |handles|
      invariant |results| == i
      invariant forall j :: 0 <= j < i ==> handles[j].join.Joined?
      invariant forall j :: 0 <= j < i ==>
                  results[j] == ToTaskResult(handles[j].join.task_id, handles[j].join.outcome)
    {
      match handles[i].join
      case JoinError(e) =>
        assert IsFirstJoinError(handles, i);
        return Err(JoinErrorPrefix + e);
      case Joined(id, outcome) =>
        results := results + [ToTaskResult(id, outcome)];
      i := i + 1;
    }
    return Ok(results);
  }

  // ---------------------------------------------------------------------
  // The whole run

  ghost function ResultIds(results: seq<TaskResult>): set<u64>
  {
    set i | 0 <= i < |results| :: results[i].task_id
  }

  /** The status and the error text agree: a completed task has none, a
      failed one has a non-empty message naming its kind of failure. */
  predicate Coupled(t: TaskResult)
  {
    && (t.final_status == Completed ==> t.error_info == "")
    && (t.final_status == Failed ==>
          t.error_info != ""
          && (StartsWith(t.error_info, TransportFailedPrefix) || StartsWith(t.error_info, BadStatusPrefix)))
  }

  /** Every row written for an outcome of `execute_task` is coupled. */
  lemma ExecutedRowCoupled(id: u64, sent: SendOutcome)
    ensures Coupled(ToTaskResult(id, ExecuteTask(sent)))
  {
  }

  /** Ingest, dispatch and collect, as `main` does between reading the file
      and writing the output. */
  method Run(rows: seq<Result<InputTask>>, env: u64 -> TaskRun) returns (r: Result<seq<TaskResult>>)
    // all or nothing
    ensures r.Ok? <==> AllParsed(rows) && forall id :: id in RowIds(rows) ==> env(id).Ran?
    // a bad row aborts with its own error, before anything is dispatched
    ensures !AllParsed(rows) ==> exists k :: IsFirstParseError(rows, k) && r == Err(rows[k].error)
    // a failed join aborts with the message of one of the spawned tasks
    ensures AllParsed(rows) && r.Err? ==>
              exists id :: id in RowIds(rows) && env(id).JoinFault? && r.error == JoinErrorPrefix + env(id).reason
    // exactly one row per distinct id
    ensures r.Ok? ==> |r.value| == |RowIds(rows)| && ResultIds(r.value) == RowIds(rows)
    ensures r.Ok? ==> forall i, j :: 0 <= i < j < |r.value| ==> r.value[i].task_id != r.value[j].task_id
    // each row is what that id's own request produced
    ensures r.Ok? ==> forall i :: 0 <= i < |r.value| ==>
              r.value[i] == ToTaskResult(r.value[i].task_id, ExecuteTask(env(r.value[i].task_id).response))
    ensures r.Ok? ==> forall i :: 0 <= i < |r.value| ==> Coupled(r.value[i])
  {
    var ingested := Ingest(rows);
    if ingested.Err? {
      return Err(ingested.error);
    }
    var ids := ingested.value;
    var handles := Dispatch(ids, env);
    r := Collect(handles);
    if r.Ok? {
      var results := r.value;
      forall i | 0 <= i < |results|
        ensures results[i].task_id == handles[i].task_id
        ensures results[i] == ToTaskResult(results[i].task_id, ExecuteTask(env(results[i].task_id).response))
        ensures Coupled(results[i])
      {
        ExecutedRowCoupled(handles[i].task_id, env(handles[i].task_id).response);
      }
      assert ResultIds(results) == HandleIds(handles) by {
        forall id | id in HandleIds(handles)
          ensures id in ResultIds(results)
        {
          var i :| 0 <= i < |handles| && handles[i].task_id == id;
          assert results[i].task_id == id;
        }
      }
      forall id | id in RowIds(rows)
        ensures env(id).Ran?
      {
        var i :| 0 <= i < |handles| && handles[i].task_id == id;
      }
    } else {
      var k :| IsFirstJoinError(handles, k) && r.error == JoinErrorPrefix + handles[k].join.reason;
      assert handles[k].task_id in HandleIds(handles);
    }
  }
}
