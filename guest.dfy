/** What the host side takes as given about a plugin's WASM code: the outcome
    of one call into it, the outcome of an optional lifecycle export, how the
    host reads the bytes a call returns, and the error of the timed context
    a call runs under. */
module Guest {
  import opened Wrappers
  import opened Text
  import opened Errors
  import D = Dispatcher

  /** One call into the guest: it was still running at the deadline, or it
      returned an error or output bytes after `elapsed` nanoseconds. */
  datatype CallOutcome =
    | TimedOut
    | Raised(elapsed: nat, err: Error)
    | Completed(elapsed: nat, output: Bytes)

  /** An optional export such as `on_enable`: not exported, or called with
      this outcome. */
  datatype Hook = NotExported | Ran(outcome: Outcome<Error>)

  predicate HookFailed(h: Hook) {
    h.Ran? && h.outcome.Fail?
  }

  /** `parseEventResult` (the same function appears in the manager and in the
      runtime instance): the first byte says whether the event is cancelled,
      and modifications are never read back. */
  function ParseEventResult(output: Bytes): (r: D.EventResult)
    ensures r.cancelled <==> |output| > 0 && output[0] == 1
    ensures r.modifications == map[] && r.error == ""
  {
    D.EventResult(|output| > 0 && output[0] == 1, map[], "")
  }

  /** `context.DeadlineExceeded`. */
  const DeadlineExceeded := Sentinel("context deadline exceeded")

  /** The error of the context `context.WithTimeout(parent, timeout)` once
      it is done: the parent's error if the parent ended first, otherwise
      the deadline's. A context that is not done has no error. */
  function TimedContextErr(parentErr: Option<Error>, deadlinePassed: bool): (r: Option<Error>)
    ensures parentErr.Some? ==> r == parentErr
    ensures r.None? <==> parentErr.None? && !deadlinePassed
  {
    if parentErr.Some? then parentErr
    else if deadlinePassed then Some(DeadlineExceeded)
    else None
  }

  /** The error to record when a timed call is abandoned: the timed
      context's error, which exists whenever the deadline has passed, and is
      the caller's own error when the caller cancelled first. */
  function TimeoutCause(parentErr: Option<Error>): (r: Error)
    ensures Some(r) == TimedContextErr(parentErr, true)
    ensures parentErr.Some? ==> r == parentErr.value
    ensures parentErr.None? ==> r == DeadlineExceeded
  {
    TimedContextErr(parentErr, true).value
  }
}
