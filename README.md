# Task orchestrator core, modelled in Dafny

A model of `rust-task-orchestrator`. The program reads task rows from a CSV
file and collapses them into a set of unique `task_id`s. It spawns one
concurrent task per id; each task issues one HTTP GET. It then joins the
tasks and writes one `task_id, final_status, error_info` row per id.

The model keeps what `main` and `execute_task` compute and abstracts what
they do not control:

- `tasks.dfy`, module `Tasks`: the records (`InputTask`, `TaskResult`), the
  closed `TaskStatus` variant and its explicit mapping to the literals
  `Completed` and `Failed`.
- `remote.dfy`, module `RemoteOperation`: the classification in
  `execute_task`. What the HTTP client returned is a parameter: either a
  transport error with its display text, or a response with a status code
  and that status's display text. "Is success" is the client's 2xx test.
- `engine.dfy`, module `Engine`: the three loops of `main` as methods with
  loop invariants:
  - `Ingest` is the dedup loop.
  - `Dispatch` is the spawn loop. It picks ids with `:|`, so no iteration
    order is fixed, just as a `HashSet` fixes none.
  - `Collect` is the join loop.

  `Run` composes the three. The runtime and the network are one function
  `env: u64 -> TaskRun`. For each id it says what that id's spawned task did:
  it ran, and the request produced a given `SendOutcome`; or joining its
  handle failed. Module `Scenarios` (`scenarios.dfy`) holds client methods that derive the
  documented example runs from `Run`'s contract alone.

Where the documentation and the code differ, the model follows the code.
The rows come out in handle push order, which is the set's iteration order.
They do not come out in completion order: `Collect` awaits the handles one
after another (src/main.rs:71-72).

## Model

| member | source | states |
|---|---|---|
| `Tasks.StatusLabel` | src/main.rs:13-22 | every status is written as one of the two literals `Completed` or `Failed` |
| `Tasks.StatusLabelRoundTrip` | src/main.rs:18-21 | reading the written label back yields the status that was written |
| `Tasks.StatusLabelInjective` | src/main.rs:18-21 | two statuses share a label exactly when they are the same status |
| `RemoteOperation.ExecuteTask` | src/main.rs:103-119 | a task succeeds exactly when the request got a 2xx response. A transport error gives a non-empty message: `HTTP request failed: ` followed by the cause, unchanged. A non-2xx status gives `HTTP request returned status: ` followed by the status text, unchanged |
| `RemoteOperation.PrefixesExclusive` | src/main.rs:109-112 | no message starts with both failure prefixes |
| `RemoteOperation.FailureDiagnosable` | src/main.rs:109-112 | the prefix of any failure message tells whether it was a transport error or a bad status |
| `RemoteOperation.FailureMessageInjective` | src/main.rs:109-112 | two failures with the same message are of the same kind and have the same cause text |
| `Engine.Ingest` | src/main.rs:48-53 | the result is `Ok` exactly when every row parses. It then holds exactly the ids of the rows. Otherwise it is the first bad row's error, and no partial set is returned |
| `Engine.RowIdsSnoc` | src/main.rs:50-53 | inserting a parsed row adds exactly its id to the set |
| `Engine.RepeatedIdCollapses` | src/main.rs:52 | a row whose id was already seen leaves the set unchanged |
| `Engine.RowIdsBounded` | src/main.rs:48-53 | deduplication never yields more ids than there were rows |
| `Engine.Dispatch` | src/main.rs:59-66 | one handle per id of the set, with no id spawned twice, so the handle count is the set's size. Each handle carries the id moved into it, and its join yields that id paired with `execute_task` of that id's response, unless the runtime failed it |
| `Engine.ToTaskResult` | src/main.rs:75-90 | `Ok` becomes `Completed` with empty `error_info`; `Err(msg)` becomes `Failed` with `error_info` equal to `msg` unchanged; the row keeps the task's id |
| `Engine.Collect` | src/main.rs:69-91 | the result is `Ok` exactly when every handle joined. Result `i` is then the row for handle `i`'s id and outcome, in push order. Otherwise it is `Task execution error: ` followed by the first failed join's text, with no rows |
| `Engine.ExecutedRowCoupled` | src/main.rs:75-90 | a row built from an `execute_task` outcome is either `Completed` with empty `error_info`, or `Failed` with a non-empty `error_info` that starts with one of the two failure prefixes |
| `Engine.Run` | src/main.rs:42-91 | the run succeeds exactly when every row parses and every spawned task joins. A bad row aborts with its own error before anything is dispatched. A failed join aborts with the join-error message of one of the ids. On success there is exactly one row per distinct input id, with no duplicates. Each row is what that id's own request produced, and its status and `error_info` agree |

## Left out

- Command-line handling and opening the input file (src/main.rs:44-46) are
  process plumbing. A missing file aborts before ingestion, so nothing is
  dispatched.
- CSV reading (src/main.rs:50-51) is library I/O. The input is a sequence of
  rows that either parsed or failed with the parser's display text. This
  includes ids outside the `u64` range, which the parser rejects.
- CSV writing and flushing (src/main.rs:94-98) are library I/O. The output is
  the result sequence. Of the serialization, only the status labels
  (`StatusLabel`) are modelled. A write failure is not modelled.
- `reqwest` is left out, with the GET to the fixed endpoint
  (src/main.rs:104-109). The display texts of its errors and of `StatusCode`
  are opaque strings.
- The 5-second sleep on the success path (src/main.rs:115) is only the named
  constant `SettleSeconds`; it does not change the outcome.
- The `eprintln!` log lines (src/main.rs:56, 117) are observability only.
- Concurrency and the tokio runtime are not modelled: `env` fixes each task's
  run up front. Tasks share no state, so the model loses no interaction
  between them. The display text of a `JoinError` is an opaque string.
- The process exit status is left out: an `Err` from `Run` stands for a
  non-zero exit.
