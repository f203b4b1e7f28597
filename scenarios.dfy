/** Clients of Run: what a caller can conclude from its contract alone on the
    documented scenarios. */
module Scenarios {
  import opened Tasks
  import opened RemoteOperation
  import opened Engine

  /** Ids 1, 2, 2, 3 with every request answered 200: three completed rows,
      one per distinct id. */
  method DuplicatesCollapse()
  {
    var rows := [Ok(InputTask(1, "a")), Ok(InputTask(2, "b")), Ok(InputTask(2, "b")), Ok(InputTask(3, "c"))];
    var r := Run(rows, _ => Ran(Response(StatusCode(200, "200 OK"))));
    assert rows[0].value.task_id == 1 && rows[1].value.task_id == 2 && rows[3].value.task_id == 3;
    assert RowIds(rows) == {1, 2, 3};
    assert r.Ok?;
    assert |r.value| == 3;
    assert ResultIds(r.value) == {1, 2, 3};
    assert forall i :: 0 <= i < |r.value| ==> r.value[i] == TaskResult(r.value[i].task_id, Completed, "");
  }

  /** Id 5 answered 503: one failed row carrying the status message. */
  method BadStatusFails()
  {
    var rows := [Ok(InputTask(5, "x"))];
    var status := StatusCode(503, "503 Service Unavailable");
    var r := Run(rows, _ => Ran(Response(status)));
    assert rows[0].value.task_id == 5;
    assert RowIds(rows) == {5};
    assert r.Ok? && |r.value| == 1;
    assert r.value[0].task_id in ResultIds(r.value);
    assert r.value[0] == TaskResult(5, Failed, BadStatusPrefix + "503 Service Unavailable");
  }

  /** No data rows: an empty result. */
  method EmptyInput(env: u64 -> TaskRun)
  {
    var r := Run([], env);
    assert RowIds([]) == {};
    assert r == Ok([]);
  }

  /** A malformed second row aborts the run with its error, whatever the
      network would have done. */
  method MalformedRowAborts(env: u64 -> TaskRun)
  {
    var rows := [Ok(InputTask(1, "a")), Err("invalid digit"), Ok(InputTask(2, "b"))];
    var r := Run(rows, env);
    assert rows[1].Err?;
    var k :| IsFirstParseError(rows, k) && r == Err(rows[k].error);
    assert k == 1;
    assert r == Err("invalid digit");
  }

  /** One transport failure among successes fails that task only. */
  method OneFailureIsolated()
  {
    var rows := [Ok(InputTask(1, "a")), Ok(InputTask(2, "b"))];
    var env := (id: u64) => if id == 2 then Ran(TransportError("timed out")) else Ran(Response(StatusCode(200, "200 OK")));
    var r := Run(rows, env);
    assert rows[0].value.task_id == 1 && rows[1].value.task_id == 2;
    assert RowIds(rows) == {1, 2};
    assert r.Ok? && |r.value| == 2;
    assert forall i :: 0 <= i < 2 ==>
      r.value[i] == (if r.value[i].task_id == 2 then TaskResult(2, Failed, TransportFailedPrefix + "timed out")
                     else TaskResult(1, Completed, ""));
  }
}
