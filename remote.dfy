/** `execute_task`: one GET per task, classified into success or a failure
    message. The HTTP client is not part of this model; what it returned is
    a parameter. */
module RemoteOperation {
  import opened Tasks

  /** An HTTP status as the client reports it: its numeric code and the text
      its `Display` produces (for instance "404 Not Found"), kept opaque. */
  datatype StatusCode = StatusCode(code: int, text: string)

  /** What sending the request produced: a transport-level error (whose
      `Display` text is kept opaque) or a response carrying a status. */
  datatype SendOutcome = TransportError(cause: string) | Response(status: StatusCode)

  /** The client's "is success" test: a 2xx status. */
  predicate IsSuccess(s: StatusCode)
  {
    200 <= s.code <= 299
  }

  const TransportFailedPrefix: string := "HTTP request failed: "
  const BadStatusPrefix: string := "HTTP request returned status: "

  /** Seconds the task waits on the success path before reporting; the wait
      has no effect on the outcome. */
  const SettleSeconds: nat := 5

  /** The outcome of one task: a transport error and a non-success status
      become failure messages that name their kind; only a response with a
      success status is `Ok`. */
  function ExecuteTask(sent: SendOutcome): (r: Result<()>)
    ensures r.Ok? <==> sent.Response? && IsSuccess(sent.status)
    ensures r.Err? ==> |r.error| > 0
    ensures sent.TransportError? ==>
              r.Err? && StartsWith(r.error, TransportFailedPrefix) && r.error[|TransportFailedPrefix|..] == sent.cause
    ensures sent.Response? && !IsSuccess(sent.status) ==>
              r.Err? && StartsWith(r.error, BadStatusPrefix) && r.error[|BadStatusPrefix|..] == sent.status.text
  {
    match sent
    case TransportError(cause) => Err(TransportFailedPrefix + cause)
    case Response(status) =>
      if !IsSuccess(status) then Err(BadStatusPrefix + status.text)
      else Ok(())
  }

  /** Which kind of failure a message reports, read off its prefix. */
  datatype FailureKind = Transport | BadStatus

  function FailureKindOf(msg: string): Option<FailureKind>
  {
    if StartsWith(msg, TransportFailedPrefix) then Some(Transport)
    else if StartsWith(msg, BadStatusPrefix) then Some(BadStatus)
    else None
  }

  /** The two prefixes disagree at their 14th character, so no message
      starts with both. */
  lemma PrefixesExclusive(msg: string)
    ensures StartsWith(msg, TransportFailedPrefix) ==> !StartsWith(msg, BadStatusPrefix)
  {
    if StartsWith(msg, TransportFailedPrefix) {
      assert msg[13] == msg[..|TransportFailedPrefix|][13] == 'f';
      if |BadStatusPrefix| <= |msg| {
        assert msg[..|BadStatusPrefix|][13] != BadStatusPrefix[13];
      }
    }
  }

  /** Every failure message tells, by its prefix alone, which kind of
      failure it was. */
  lemma FailureDiagnosable(sent: SendOutcome)
    requires ExecuteTask(sent).Err?
    ensures FailureKindOf(ExecuteTask(sent).error) == Some(if sent.TransportError? then Transport else BadStatus)
  {
    PrefixesExclusive(ExecuteTask(sent).error);
  }

  /** Distinct causes of the same kind give distinct messages. */
  lemma FailureMessageInjective(a: SendOutcome, b: SendOutcome)
    requires ExecuteTask(a).Err? && ExecuteTask(b).Err?
    requires ExecuteTask(a) == ExecuteTask(b)
    ensures a.TransportError? <==> b.TransportError?
    ensures a.TransportError? ==> a.cause == b.cause
    ensures a.Response? ==> a.status.text == b.status.text
  {
    FailureDiagnosable(a);
    FailureDiagnosable(b);
  }
}
