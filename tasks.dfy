/** The records the orchestrator reads and writes, and the closed status
    variant with its explicit mapping to the two output labels. */
module Tasks {

  /** Rust's `u64`: task identifiers are unsigned 64-bit integers. */
  type u64 = x: int | 0 <= x < 0x1_0000_0000_0000_0000

  /** A value or an error message. The orchestrator's errors are all rendered
      as text: `execute_task` returns `Result<(), String>`, and every fatal
      error of the run ends up as a boxed error whose display is a string. */
  datatype Result<T> = Ok(value: T) | Err(error: string)

  datatype Option<T> = None | Some(value: T)

  /** The final status of one task, as written in the `final_status` column. */
  datatype TaskStatus = Completed | Failed

  /** One output row. */
  datatype TaskResult = TaskResult(task_id: u64, final_status: TaskStatus, error_info: string)

  /** One input row; `task_type` is read but never used. */
  datatype InputTask = InputTask(task_id: u64, task_type: string)

  /** The literal written for a status: an explicit match, never derived from
      the variant's name. */
  function StatusLabel(s: TaskStatus): (text: string)
    ensures text == "Completed" || text == "Failed"
  {
    match s
    case Completed => "Completed"
    case Failed => "Failed"
  }

  /** Reading a label back: the inverse of StatusLabel on the two literals. */
  function LabelStatus(text: string): (s: Option<TaskStatus>)
  {
    if text == "Completed" then Some(Completed)
    else if text == "Failed" then Some(Failed)
    else None
  }

  /** Labels round-trip, so no two statuses share a label. */
  lemma StatusLabelRoundTrip(s: TaskStatus)
    ensures LabelStatus(StatusLabel(s)) == Some(s)
  {
  }

  lemma StatusLabelInjective(a: TaskStatus, b: TaskStatus)
    ensures StatusLabel(a) == StatusLabel(b) <==> a == b
  {
  }

  /** True when `p` is a prefix of `s`. */
  predicate StartsWith(s: string, p: string)
  {
    |p| <= |s| && s[..|p|] == p
  }
}
