/** The error values of `pkg/types/errors.go`: sentinel errors, errors that
    name the plugin and operation they came from, event errors, and the
    validation-error list with its multi-line message. */
module Errors {
  import opened Wrappers
  import opened Text

  /** An error value. `Message` is Go's `Error()`; `Unwrap` follows `%w` wrapping. */
  datatype Error =
    | Sentinel(text: string)                   // errors.New(text)
    | Foreign(text: string)                    // an error raised outside the model
    | Wrapped(prefix: string, inner: Error)    // fmt.Errorf("<prefix>: %w", inner)
    | Annotated(inner: Error, detail: string)  // fmt.Errorf("%w: <detail>", inner)
    | PluginError(pluginId: string, op: string, err: Error)
    | EventError(eventId: string, eventType: string, eventPluginId: string, cause: Error)

  const ErrPluginNotFound := Sentinel("plugin not found")
  const ErrPluginAlreadyLoaded := Sentinel("plugin already loaded")
  const ErrPluginNotEnabled := Sentinel("plugin not enabled")
  const ErrPluginDisabled := Sentinel("plugin is disabled")
  const ErrInvalidManifest := Sentinel("invalid plugin manifest")
  const ErrInvalidWASM := Sentinel("invalid WASM module")
  const ErrMissingExport := Sentinel("missing required WASM export")
  const ErrPermissionDenied := Sentinel("permission denied")
  const ErrDependencyNotMet := Sentinel("dependency not met")
  const ErrEventHandlerFailed := Sentinel("event handler failed")
  const ErrHostCallFailed := Sentinel("host call failed")
  const ErrPluginTimeout := Sentinel("plugin operation timed out")
  const ErrPluginPanic := Sentinel("plugin panicked")
  const ErrMemoryLimitExceeded := Sentinel("memory limit exceeded")
  const ErrUnsupportedEvent := Sentinel("unsupported event type")
  const ErrPlayerNotFound := Sentinel("player not found")
  const ErrWorldNotFound := Sentinel("world not found")
  const ErrInvalidPosition := Sentinel("invalid position")

  /** Go's `Error()` for every kind of error value. */
  function Message(e: Error): string {
    match e
    case Sentinel(t) => t
    case Foreign(t) => t
    case Wrapped(p, inner) => p + ": " + Message(inner)
    case Annotated(inner, d) => Message(inner) + ": " + d
    case PluginError(id, op, err) => PluginErrorMessage(id, op, Message(err))
    case EventError(eid, et, pid, cause) => "event " + eid + " (" + et + ") plugin " + pid + ": " + Message(cause)
  }

  /** `PluginError.Error`: the plugin prefix appears only when the id is non-empty. */
  function PluginErrorMessage(id: string, op: string, inner: string): (r: string)
    ensures id == "" ==> r == op + ": " + inner
    ensures id != "" ==> StartsWith(r, "plugin " + id + ": ") && EndsWith(r, op + ": " + inner)
    ensures |r| == |op| + 2 + |inner| + (if id == "" then 0 else 7 + |id| + 2)
  {
    if id == "" then op + ": " + inner
    else
      var r := "plugin " + id + ": " + op + ": " + inner;
      assert r[..|"plugin " + id + ": "|] == "plugin " + id + ": ";
      assert r[|r| - |op + ": " + inner|..] == op + ": " + inner;
      r
  }

  /** `PluginError.Unwrap` and the `%w` chain: the error one level down. */
  function Unwrap(e: Error): (r: Option<Error>)
    ensures r.Some? <==> (e.Wrapped? || e.Annotated? || e.PluginError? || e.EventError?)
    ensures r.Some? ==> r.value < e
  {
    match e
    case Wrapped(_, inner) => Some(inner)
    case Annotated(inner, _) => Some(inner)
    case PluginError(_, _, err) => Some(err)
    case EventError(_, _, _, cause) => Some(cause)
    case _ => None
  }

  /** Go's `errors.Is`: `target` is `e` or somewhere down its unwrap chain. */
  predicate Is(e: Error, target: Error)
    decreases e
  {
    e == target || match Unwrap(e) case Some(inner) => Is(inner, target) case None => false
  }

  /** A plugin error still answers `errors.Is` for the sentinel it wraps,
      however many `%w` layers lie in between. */
  lemma {:induction false} IsThroughPluginError(id: string, op: string, err: Error, target: Error)
    requires Is(err, target)
    ensures Is(PluginError(id, op, err), target)
  {
  }

  /** `EventError.Error` names the event, its type and the plugin, then the
      cause's message; `Unwrap` gives the cause back. */
  lemma EventErrorMessage(eventId: string, eventType: string, pluginId: string, cause: Error)
    ensures var prefix := "event " + eventId + " (" + eventType + ") plugin " + pluginId + ": ";
      var m := Message(EventError(eventId, eventType, pluginId, cause));
      && StartsWith(m, prefix) && EndsWith(m, Message(cause))
      && |m| == |prefix| + |Message(cause)|
    ensures Unwrap(EventError(eventId, eventType, pluginId, cause)) == Some(cause)
  {
    var prefix := "event " + eventId + " (" + eventType + ") plugin " + pluginId + ": ";
    var m := Message(EventError(eventId, eventType, pluginId, cause));
    assert m == prefix + Message(cause);
    assert m[..|prefix|] == prefix;
    assert m[|m| - |Message(cause)|..] == Message(cause);
  }

  // ---------------------------------------------------------------------------
  // Validation errors

  datatype ValidationError = ValidationError(field: string, message: string)

  /** `ValidationError.Error`. */
  function ValidationMessage(v: ValidationError): (r: string)
    ensures StartsWith(r, "validation: ") && EndsWith(r, v.message)
    ensures r == "validation: " + v.field + ": " + v.message
  {
    var r := "validation: " + v.field + ": " + v.message;
    assert r[..|"validation: "|] == "validation: ";
    assert r[|r| - |v.message|..] == v.message;
    r
  }

  /** One line per entry, each introduced by a newline and "  - ". */
  function Bullets(items: seq<ValidationError>): string
    decreases |items|
  {
    if |items| == 0 then ""
    else Bullets(items[..|items| - 1]) + "\n  - " + ValidationMessage(items[|items| - 1])
  }

  /** The message of a whole validation-error list: a fixed text for none, the
      entry's own message for one, and a count header for several. */
  function ValidationErrorsMessage(items: seq<ValidationError>): (r: string)
    ensures |items| == 0 ==> r == "no validation errors"
    ensures |items| == 1 ==> r == ValidationMessage(items[0])
    ensures |items| > 1 ==> StartsWith(r, CountHeader(|items|))
  {
    if |items| == 0 then "no validation errors"
    else if |items| == 1 then ValidationMessage(items[0])
    else CountHeader(|items|) + Bullets(items)
  }

  /** The first line of a message for several errors. */
  function CountHeader(n: nat): string {
    NatToString(n) + " validation errors:"
  }

  predicate NoNewline(v: ValidationError) {
    '\n' !in v.field && '\n' !in v.message
  }

  /** The lines the bullets stand for, one per entry. */
  function BulletTexts(items: seq<ValidationError>): (r: seq<string>)
    ensures |r| == |items|
    ensures forall k :: 0 <= k < |items| ==> r[k] == "  - " + ValidationMessage(items[k])
    decreases |items|
  {
    if |items| == 0 then []
    else BulletTexts(items[..|items| - 1]) + ["  - " + ValidationMessage(items[|items| - 1])]
  }

  /** Splitting the bullet text at newlines gives one line per entry, in order. */
  lemma {:induction false} BulletLines(head: string, items: seq<ValidationError>)
    requires '\n' !in head
    requires forall k :: 0 <= k < |items| ==> NoNewline(items[k])
    ensures Split(head + Bullets(items), '\n') == [head] + BulletTexts(items)
    decreases |items|
  {
    if |items| == 0 {
      assert head + Bullets(items) == head;
      SplitNoSep(head, '\n');
    } else {
      var n := |items|;
      var init := items[..n - 1];
      var lastLine := "  - " + ValidationMessage(items[n - 1]);
      forall k | 0 <= k < |init| ensures NoNewline(init[k]) { assert init[k] == items[k]; }
      LineNoNewline(items[n - 1]);
      BulletLines(head, init);
      var s := head + Bullets(init);
      BulletsSnoc(head, items);
      SplitAppendLine(s, lastLine);
      assert BulletTexts(items) == BulletTexts(init) + [lastLine];
    }
  }

  lemma BulletsSnoc(head: string, items: seq<ValidationError>)
    requires |items| > 0
    ensures head + Bullets(items)
         == head + Bullets(items[..|items| - 1]) + "\n" + ("  - " + ValidationMessage(items[|items| - 1]))
  {
    var b := Bullets(items[..|items| - 1]);
    var m := ValidationMessage(items[|items| - 1]);
    assert Bullets(items) == b + "\n  - " + m;
    RegroupLine(head, b, m);
  }

  lemma RegroupLine(head: string, b: string, m: string)
    ensures head + (b + "\n  - " + m) == head + b + "\n" + ("  - " + m)
  {
    assert "\n  - " == "\n" + "  - ";
  }

  lemma LineNoNewline(v: ValidationError)
    requires NoNewline(v)
    ensures '\n' !in "  - " + ValidationMessage(v)
  {
    assert "  - " + ValidationMessage(v) == "  - validation: " + v.field + ": " + v.message;
  }

  lemma {:induction false} SplitAppendLine(s: string, line: string)
    requires '\n' !in line
    ensures Split(s + "\n" + line, '\n') == Split(s, '\n') + [line]
    decreases |s|
  {
    if |s| == 0 {
      assert s + "\n" + line == ['\n'] + line;
      SplitNoSep(line, '\n');
      assert (['\n'] + line)[1..] == line;
    } else {
      assert (s + "\n" + line)[1..] == s[1..] + "\n" + line;
      SplitAppendLine(s[1..], line);
      var rest := Split(s[1..], '\n');
      if s[0] != '\n' {
        if |rest| == 1 {
          assert Split(s[1..] + "\n" + line, '\n') == [rest[0], line];
        } else {
          assert (rest + [line])[1..] == rest[1..] + [line];
        }
      }
    }
  }

  /** A message for several errors: its first line counts them, and every
      further line names one entry, in the order they were added. */
  lemma ValidationErrorsLines(items: seq<ValidationError>)
    requires |items| > 1
    requires forall k :: 0 <= k < |items| ==> NoNewline(items[k])
    ensures Split(ValidationErrorsMessage(items), '\n') == [CountHeader(|items|)] + BulletTexts(items)
  {
    HeaderNoNewline(|items|);
    BulletLines(CountHeader(|items|), items);
  }

  lemma HeaderNoNewline(n: nat)
    ensures '\n' !in CountHeader(n)
  {
    var count := NatToString(n);
    var head := CountHeader(n);
    NoCharInNat(n, '\n');
    forall k | 0 <= k < |head| ensures head[k] != '\n' {
      if k >= |count| { assert head[k] == " validation errors:"[k - |count|]; }
      else { assert head[k] == count[k]; }
    }
  }

  /** The imperative `ValidationErrors` slice: `Add` appends through a pointer. */
  class ValidationErrors {
    var items: seq<ValidationError>

    constructor ()
      ensures items == []
    {
      items := [];
    }

    method Add(field: string, message: string)
      modifies this
      ensures items == old(items) + [ValidationError(field, message)]
    {
      items := items + [ValidationError(field, message)];
    }

    predicate HasErrors()
      reads this
    {
      |items| > 0
    }

    /** `ValidationErrors.Error`: builds the message line by line. */
    method Error() returns (msg: string)
      ensures msg == ValidationErrorsMessage(items)
    {
      if |items| == 0 {
        return "no validation errors";
      }
      if |items| == 1 {
        return ValidationMessage(items[0]);
      }
      msg := CountHeader(|items|);
      var i := 0;
      while i < |items|
        invariant 0 <= i <= |items|
        invariant msg == CountHeader(|items|) + Bullets(items[..i])
      {
        assert items[..i + 1][..i] == items[..i];
        msg := msg + "\n  - " + ValidationMessage(items[i]);
        i := i + 1;
      }
      assert items[..i] == items;
    }
  }
}
