/** A running plugin of `internal/runtime/instance.go`: the lifecycle of its
    record (`Enable`, `Disable`, `Close`), its call and error counters, and
    event handling through an `on_<event>` export.

    The guest is an input: whether an optional export exists and how it ends
    is a `Hook`, and a call's outcome is given by `guest`. A timed call also
    depends on the caller's context, whose error is `parentErr` (`None`
    while the caller has not cancelled). */
module RuntimeInstance {
  import opened Wrappers
  import opened Text
  import opened Errors
  import opened PluginManifest
  import opened PluginInfo
  import opened Lifecycle
  import opened Guest
  import D = Dispatcher

  // ---------------------------------------------------------------------------
  // The error recorded on a timeout

  /** As written: the timeout branch records the caller's context error,
      `ctx.Err()`, rather than the timed context's `callCtx.Err()`. `None`
      stands for Go's nil error, on which `RecordError` panics when it takes
      its message. */
  function TimeoutCauseAsWritten(parentErr: Option<Error>): (r: Option<Error>)
    ensures r.None? <==> parentErr.None?
  {
    parentErr
  }

  /** When the call's own deadline ends the wait while the caller is still
      live, the timed context is done with an error, yet the error recorded
      as written is nil: `RecordError(nil)` dereferences nil. */
  lemma TimeoutCauseAsWrittenIsNil()
    ensures TimedContextErr(None, true).Some?
    ensures TimeoutCauseAsWritten(None).None?
  {
  }

  /** The error `Call` returns on a timeout, `timeout` being the limit as Go
      prints a duration. */
  function TimedOutError(timeout: string): (e: Error)
    ensures var t := Message(e); |t| == |timeout| + 28 && t[28..] == timeout
  {
    Sentinel("plugin call timed out after " + timeout)
  }

  function CannotEnableError(s: State): (e: Error)
    ensures var t := Message(e); |t| == |StateString(s)| + 31 && t[31..] == StateString(s)
  {
    Sentinel("cannot enable plugin in state: " + StateString(s))
  }

  function CannotDisableError(s: State): (e: Error)
    ensures var t := Message(e); |t| == |StateString(s)| + 32 && t[32..] == StateString(s)
  {
    Sentinel("cannot disable plugin in state: " + StateString(s))
  }

  /** The metrics a call leaves, given how it ended and the caller's
      context error. */
  function CallMetrics(v: MetricsValues, outcome: CallOutcome, parentErr: Option<Error>): (r: MetricsValues)
    ensures r.errorCount == v.errorCount + (if outcome.Completed? then 0 else 1)
    ensures r.totalCalls == v.totalCalls + (if outcome.TimedOut? then 0 else 1)
    ensures r.eventsHandled == v.eventsHandled && r.eventsCancelled == v.eventsCancelled
  {
    match outcome
    case TimedOut => ErrorRecorded(v, Message(TimeoutCause(parentErr)))
    case Raised(d, err) => ErrorRecorded(CallRecorded(v, d), Message(err))
    case Completed(d, _) => CallRecorded(v, d)
  }

  /** The name of the export that handles `event`. */
  function HandlerExport(event: EventType): (r: string)
    ensures |r| == |event| + 3 && r[..3] == "on_" && r[3..] == event
  {
    "on_" + event
  }

  // ---------------------------------------------------------------------------
  // The instance

  class Instance {
    const info: Info
    var lastCall: nat
    var callCount: nat
    var errorCount: nat

    predicate Valid()
      reads info.metrics
    {
      info.metrics.Valid()
    }

    /** `NewInstance` once the module is created: no calls yet, and the time
        of the last call is Go's zero time. */
    constructor (info: Info)
      ensures this.info == info && lastCall == 0 && callCount == 0 && errorCount == 0
    {
      this.info := info;
      lastCall := 0;
      callCount := 0;
      errorCount := 0;
    }

    /** `Call`: every call counts once; a timeout or a failing call counts
        an error. The metrics record the duration of every call that came
        back and the error of every call that did not complete. */
    method Call(funcName: string, input: Bytes, outcome: CallOutcome, parentErr: Option<Error>,
                timeout: string, now: nat) returns (r: Result<Bytes, Error>)
      requires Valid()
      modifies this, info.metrics
      ensures Valid()
      ensures lastCall == now && callCount == old(callCount) + 1
      ensures errorCount == old(errorCount) + (if outcome.Completed? then 0 else 1)
      ensures info.metrics.Values() == CallMetrics(old(info.metrics.Values()), outcome, parentErr)
      ensures outcome.TimedOut? ==> r == Failure(TimedOutError(timeout))
      ensures outcome.Raised? ==> r == Failure(outcome.err)
      ensures outcome.Completed? ==> r == Success(outcome.output)
    {
      lastCall := now;
      callCount := callCount + 1;
      match outcome
      case TimedOut =>
        errorCount := errorCount + 1;
        info.metrics.RecordError(Message(TimeoutCause(parentErr)));
        r := Failure(TimedOutError(timeout));
      case Raised(d, err) =>
        info.metrics.RecordCall(d);
        errorCount := errorCount + 1;
        info.metrics.RecordError(Message(err));
        r := Failure(err);
      case Completed(d, output) =>
        info.metrics.RecordCall(d);
        r := Success(output);
    }

    /** `HandleEvent`: an event the manifest does not subscribe to is
        ignored without a call; otherwise `on_<event>` is called, its error
        returned, or its output read as the verdict and counted. */
    method HandleEvent(event: EventType, data: Bytes, guest: (string, Bytes) -> CallOutcome,
                       parentErr: Option<Error>, timeout: string, now: nat)
      returns (r: Result<Option<D.EventResult>, Error>)
      requires Valid()
      modifies this, info.metrics
      ensures Valid()
      ensures !SubscribedTo(info.manifest.events, event) ==>
        && r == Success(None)
        && callCount == old(callCount) && errorCount == old(errorCount) && lastCall == old(lastCall)
        && info.metrics.Values() == old(info.metrics.Values())
      ensures SubscribedTo(info.manifest.events, event) ==>
        var outcome := guest(HandlerExport(event), data);
        && callCount == old(callCount) + 1 && lastCall == now
        && errorCount == old(errorCount) + (if outcome.Completed? then 0 else 1)
        && (outcome.TimedOut? ==> r == Failure(TimedOutError(timeout)))
        && (outcome.Raised? ==> r == Failure(outcome.err))
        && (!outcome.Completed? ==> info.metrics.Values() == CallMetrics(old(info.metrics.Values()), outcome, parentErr))
        && (outcome.Completed? ==>
              && r == Success(Some(ParseEventResult(outcome.output)))
              && info.metrics.Values()
                 == EventRecorded(CallMetrics(old(info.metrics.Values()), outcome, parentErr), event,
                                  ParseEventResult(outcome.output).cancelled))
    {
      if !SubscribedTo(info.manifest.events, event) {
        return Success(None);
      }
      var name := HandlerExport(event);
      var result := Call(name, data, guest(name, data), parentErr, timeout, now);
      if result.Failure? {
        return Failure(result.error);
      }
      var eventResult := ParseEventResult(result.value);
      info.metrics.RecordEvent(event, eventResult.cancelled);
      r := Success(Some(eventResult));
    }

    /** `Enable`: only a loaded or disabled plugin may be enabled; a failing
        `on_enable` leaves it in the error state. */
    method Enable(onEnable: Hook) returns (err: Option<Error>)
      modifies info
      ensures info.state == AfterEnable(old(info.state), HookFailed(onEnable))
      ensures !CanEnable(old(info.state)) ==> err == Some(CannotEnableError(old(info.state)))
      ensures CanEnable(old(info.state)) && HookFailed(onEnable) ==> err == Some(Wrapped("on_enable", onEnable.outcome.error))
      ensures CanEnable(old(info.state)) && !HookFailed(onEnable) ==> err.None?
    {
      if info.state != StateLoaded && info.state != StateDisabled {
        return Some(CannotEnableError(info.state));
      }
      info.state := StateEnabling;
      if onEnable.Ran? && onEnable.outcome.Fail? {
        info.state := StateError;
        return Some(Wrapped("on_enable", onEnable.outcome.error));
      }
      info.state := StateEnabled;
      err := None;
    }

    /** `Disable`: only an enabled plugin may be disabled, and it ends
        disabled whatever `on_disable` does. */
    method Disable(onDisable: Hook) returns (err: Option<Error>)
      modifies info
      ensures info.state == AfterDisable(old(info.state))
      ensures old(info.state) != StateEnabled ==> err == Some(CannotDisableError(old(info.state)))
      ensures old(info.state) == StateEnabled ==> err.None?
    {
      if info.state != StateEnabled {
        return Some(CannotDisableError(info.state));
      }
      info.state := StateDisabling;
      info.state := StateDisabled;
      err := None;
    }

    /** `Close`: an enabled plugin gets its `on_disable` call, and every
        plugin ends unloaded. */
    method Close(onDisable: Hook)
      modifies info
      ensures info.state == StateUnloaded
    {
      if info.state == StateEnabled {
        info.state := StateDisabling;
      }
      info.state := StateUnloaded;
    }

    function IsEnabled(): (r: bool)
      reads info
      ensures r <==> info.state == StateEnabled
    {
      info.state == StateEnabled
    }
  }
}
