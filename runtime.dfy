/** The WASM runtime of `internal/runtime/runtime.go`: the registry of plugin
    instances by id, the lifecycle of an instance (`Enable`, `Disable`,
    `IsEnabled`), the state gate and bookkeeping of a call, and the per-instance
    processing metrics.

    What the Extism library does is an input: whether creating the plugin
    fails (and with which message), which exports the module has, and how a
    call ends. The clock reading `time.Now()` is a parameter. */
module Runtime {
  import opened Wrappers
  import opened Text
  import opened Errors
  import opened PluginManifest
  import opened Guest
  import T = Types

  // ---------------------------------------------------------------------------
  // Metrics

  /** `PluginMetrics`: events processed, their total duration, errors, and
      the time of the last successful event. */
  class PluginMetrics {
    var eventsProcessed: nat
    var totalProcessingTime: nat
    var errors: nat
    var lastEventTime: nat

    constructor ()
      ensures eventsProcessed == 0 && totalProcessingTime == 0 && errors == 0 && lastEventTime == 0
    {
      eventsProcessed, totalProcessingTime, errors, lastEventTime := 0, 0, 0, 0;
    }

    /** `recordSuccess`: one more event, its duration added to the total. */
    method RecordSuccess(duration: nat, now: nat)
      modifies this
      ensures eventsProcessed == old(eventsProcessed) + 1
      ensures totalProcessingTime == old(totalProcessingTime) + duration
      ensures lastEventTime == now && errors == old(errors)
    {
      eventsProcessed := eventsProcessed + 1;
      totalProcessingTime := totalProcessingTime + duration;
      lastEventTime := now;
    }

    /** `recordError`: one more error, nothing else. */
    method RecordError()
      modifies this
      ensures errors == old(errors) + 1
      ensures eventsProcessed == old(eventsProcessed) && totalProcessingTime == old(totalProcessingTime)
      ensures lastEventTime == old(lastEventTime)
    {
      errors := errors + 1;
    }

    /** `AverageProcessingTime`: zero before any event, otherwise the mean
        duration rounded down. */
    function AverageProcessingTime(): (r: nat)
      reads this
      ensures eventsProcessed == 0 ==> r == 0
      ensures eventsProcessed > 0 ==> r * eventsProcessed <= totalProcessingTime < (r + 1) * eventsProcessed
    {
      if eventsProcessed == 0 then 0 else totalProcessingTime / eventsProcessed
    }
  }

  // ---------------------------------------------------------------------------
  // Lifecycle of an instance

  /** The state `Enable` leaves: a loaded or disabled instance becomes
      enabled, any other keeps its state. */
  function Enabled(s: T.PluginState): (r: T.PluginState)
    ensures (s == T.StateLoaded || s == T.StateDisabled) ==> r == T.StateEnabled
    ensures !(s == T.StateLoaded || s == T.StateDisabled) ==> r == s
  {
    if s == T.StateLoaded || s == T.StateDisabled then T.StateEnabled else s
  }

  /** The state `Disable` leaves: only an enabled instance becomes disabled. */
  function Disabled(s: T.PluginState): (r: T.PluginState)
    ensures s == T.StateEnabled ==> r == T.StateDisabled
    ensures s != T.StateEnabled ==> r == s
  {
    if s == T.StateEnabled then T.StateDisabled else s
  }

  /** Enabling twice is enabling once, and so is disabling. */
  lemma TransitionsIdempotent(s: T.PluginState)
    ensures Enabled(Enabled(s)) == Enabled(s)
    ensures Disabled(Disabled(s)) == Disabled(s)
  {
  }

  /** Disabling undoes enabling a disabled instance; enabling undoes
      disabling an enabled one. */
  lemma TransitionsUndo(s: T.PluginState)
    ensures s == T.StateDisabled ==> Disabled(Enabled(s)) == s
    ensures s == T.StateEnabled ==> Enabled(Disabled(s)) == s
    ensures s == T.StateLoaded ==> Disabled(Enabled(s)) == T.StateDisabled
  {
  }

  /** A call reaches the plugin only in the enabled or the loaded state. */
  predicate Callable(s: T.PluginState) {
    s == T.StateEnabled || s == T.StateLoaded
  }

  /** `PluginInstance`: one loaded module, its state and its metrics. */
  class PluginInstance {
    const id: string
    const manifest: Manifest
    var state: T.PluginState
    const loadedAt: nat
    const metrics: PluginMetrics

    constructor (id: string, manifest: Manifest, loadedAt: nat)
      ensures this.id == id && this.manifest == manifest && this.loadedAt == loadedAt
      ensures state == T.StateLoaded && fresh(metrics)
      ensures metrics.eventsProcessed == 0 && metrics.totalProcessingTime == 0 && metrics.errors == 0
    {
      this.id := id;
      this.manifest := manifest;
      this.loadedAt := loadedAt;
      state := T.StateLoaded;
      metrics := new PluginMetrics();
    }

    method Enable()
      modifies this
      ensures state == Enabled(old(state))
    {
      if state == T.StateLoaded || state == T.StateDisabled {
        state := T.StateEnabled;
      }
    }

    method Disable()
      modifies this
      ensures state == Disabled(old(state))
    {
      if state == T.StateEnabled {
        state := T.StateDisabled;
      }
    }

    function IsEnabled(): (r: bool)
      reads this
      ensures r <==> state == T.StateEnabled
    {
      state == T.StateEnabled
    }

    /** `Call`: refused unless the instance is enabled or loaded; otherwise
        `outcome` is how the guest call ended. A timeout or a failing call
        counts an error, a completed call counts a processed event. */
    method Call(name: string, input: Bytes, outcome: CallOutcome, now: nat) returns (r: Result<Bytes, Error>)
      modifies metrics
      ensures !Callable(state) ==>
        && r == Failure(PluginError(id, "call", ErrPluginNotEnabled))
        && metrics.errors == old(metrics.errors) && metrics.eventsProcessed == old(metrics.eventsProcessed)
        && metrics.totalProcessingTime == old(metrics.totalProcessingTime)
        && metrics.lastEventTime == old(metrics.lastEventTime)
      ensures Callable(state) ==>
        && (outcome.TimedOut? ==> r == Failure(PluginError(id, "call", ErrPluginTimeout)))
        && (outcome.Raised? ==> r == Failure(PluginError(id, "call", outcome.err)))
        && (outcome.Completed? ==> r == Success(outcome.output))
        && metrics.errors == old(metrics.errors) + (if outcome.Completed? then 0 else 1)
        && metrics.eventsProcessed == old(metrics.eventsProcessed) + (if outcome.Completed? then 1 else 0)
        && metrics.totalProcessingTime == old(metrics.totalProcessingTime) + (if outcome.Completed? then outcome.elapsed else 0)
        && metrics.lastEventTime == (if outcome.Completed? then now else old(metrics.lastEventTime))
    {
      if state != T.StateEnabled && state != T.StateLoaded {
        return Failure(PluginError(id, "call", ErrPluginNotEnabled));
      }
      match outcome
      case TimedOut =>
        metrics.RecordError();
        r := Failure(PluginError(id, "call", ErrPluginTimeout));
      case Raised(_, err) =>
        metrics.RecordError();
        r := Failure(PluginError(id, "call", err));
      case Completed(d, output) =>
        metrics.RecordSuccess(d, now);
        r := Success(output);
    }
  }

  // ---------------------------------------------------------------------------
  // Loading

  /** A manifest config value: a string, or anything else TOML can hold. */
  datatype ConfigValue = StringValue(text: string) | OtherValue

  /** The config entries handed to the module: the string-valued ones. */
  function StringEntries(config: map<string, ConfigValue>): (r: map<string, string>)
    ensures r.Keys <= config.Keys
  {
    map k | k in config && config[k].StringValue? :: config[k].text
  }

  /** The loop of `LoadPlugin` that copies the string-valued config entries. */
  method CopyConfigStrings(config: map<string, ConfigValue>) returns (strings: map<string, string>)
    ensures forall k :: k in strings <==> k in config && config[k].StringValue?
    ensures forall k :: k in strings ==> config[k] == StringValue(strings[k])
    ensures strings == StringEntries(config)
  {
    strings := map[];
    var pending := config.Keys;
    while pending != {}
      invariant pending <= config.Keys
      invariant forall k :: k in strings <==> k in config && k !in pending && config[k].StringValue?
      invariant forall k :: k in strings ==> config[k] == StringValue(strings[k])
      decreases pending
    {
      var k :| k in pending;
      if config[k].StringValue? {
        strings := strings[k := config[k].text];
      }
      pending := pending - {k};
    }
  }

  /** The exports every plugin module must have, in the order they are checked. */
  const RequiredExports: seq<string> := ["plugin_init", "handle_event"]

  /** The first name of `names` missing from `exports`, if any. */
  function FirstMissing(names: seq<string>, exports: set<string>): (r: Option<string>)
    ensures r.None? <==> forall i :: 0 <= i < |names| ==> names[i] in exports
    ensures r.Some? ==>
      exists i :: (0 <= i < |names| && names[i] == r.value && names[i] !in exports
                   && forall j :: 0 <= j < i ==> names[j] in exports)
  {
    if |names| == 0 then None
    else if names[0] !in exports then Some(names[0])
    else
      var r := FirstMissing(names[1..], exports);
      assert forall i :: 1 <= i < |names| ==> names[i] == names[1..][i - 1];
      if r.Some? then
        var i :| (0 <= i < |names[1..]| && names[1..][i] == r.value && names[1..][i] !in exports
                  && forall j :: 0 <= j < i ==> names[1..][j] in exports);
        assert names[i + 1] == r.value && forall j :: 0 <= j < i + 1 ==> names[j] in exports;
        r
      else r
  }

  /** `verifyExports`: the first required export the module lacks is an error. */
  method VerifyExports(exports: set<string>) returns (err: Option<Error>)
    ensures FirstMissing(RequiredExports, exports).None? ==> err.None?
    ensures FirstMissing(RequiredExports, exports).Some? ==>
      err == Some(Annotated(ErrMissingExport, FirstMissing(RequiredExports, exports).value))
  {
    var i := 0;
    while i < |RequiredExports|
      invariant 0 <= i <= |RequiredExports|
      invariant FirstMissing(RequiredExports, exports) == FirstMissing(RequiredExports[i..], exports)
    {
      if RequiredExports[i] !in exports {
        return Some(Annotated(ErrMissingExport, RequiredExports[i]));
      }
      assert RequiredExports[i..][1..] == RequiredExports[i + 1..];
      i := i + 1;
    }
    return None;
  }

  // ---------------------------------------------------------------------------
  // The registry

  class Runtime {
    var instances: map<string, PluginInstance>

    /** Every instance is filed under its own id. */
    predicate Valid()
      reads this
    {
      forall id :: id in instances ==> instances[id].id == id
    }

    /** The instances, as objects a method may change. */
    ghost function Objects(): set<object>
      reads this
    {
      set id | id in instances :: instances[id] as object
    }

    constructor ()
      ensures Valid() && instances == map[]
    {
      instances := map[];
    }

    /** `LoadPlugin`: an id already registered is refused; otherwise the
        module is created from the string-valued config entries (`create`
        gives the library's error message if that fails), its exports are
        verified, and a fresh loaded instance is registered. Any failure
        leaves the registry as it was. */
    method LoadPlugin(id: string, manifest: Manifest, config: map<string, ConfigValue>,
                      create: map<string, string> -> Option<string>, exports: set<string>, now: nat)
      returns (r: Result<PluginInstance, Error>)
      requires Valid()
      modifies this
      ensures Valid()
      ensures id in old(instances) ==>
        r == Failure(PluginError(id, "load", ErrPluginAlreadyLoaded)) && instances == old(instances)
      ensures id !in old(instances) && create(StringEntries(config)).Some? ==>
        && r == Failure(PluginError(id, "create plugin", Annotated(ErrInvalidWASM, create(StringEntries(config)).value)))
        && instances == old(instances)
      ensures id !in old(instances) && create(StringEntries(config)).None? && FirstMissing(RequiredExports, exports).Some? ==>
        && r == Failure(PluginError(id, "verify exports", Annotated(ErrMissingExport, FirstMissing(RequiredExports, exports).value)))
        && instances == old(instances)
      ensures id !in old(instances) && create(StringEntries(config)).None? && FirstMissing(RequiredExports, exports).None? ==>
        && r.Success? && fresh(r.value) && fresh(r.value.metrics)
        && instances == old(instances)[id := r.value]
        && r.value.id == id && r.value.manifest == manifest && r.value.state == T.StateLoaded
        && r.value.loadedAt == now && r.value.metrics.eventsProcessed == 0 && r.value.metrics.errors == 0
    {
      if id in instances {
        return Failure(PluginError(id, "load", ErrPluginAlreadyLoaded));
      }
      var strings := CopyConfigStrings(config);
      var createErr := create(strings);
      if createErr.Some? {
        return Failure(PluginError(id, "create plugin", Annotated(ErrInvalidWASM, createErr.value)));
      }
      var exportErr := VerifyExports(exports);
      if exportErr.Some? {
        return Failure(PluginError(id, "verify exports", exportErr.value));
      }
      var instance := new PluginInstance(id, manifest, now);
      instances := instances[id := instance];
      r := Success(instance);
    }

    /** `UnloadPlugin`: an unknown id is an error; otherwise the instance
        ends unloaded and only its id leaves the registry. */
    method UnloadPlugin(id: string) returns (err: Option<Error>)
      requires Valid()
      modifies this, Objects()
      ensures Valid()
      ensures id !in old(instances) ==> err == Some(PluginError(id, "unload", ErrPluginNotFound)) && instances == old(instances)
      ensures id in old(instances) ==>
        && err.None? && instances == old(instances) - {id}
        && old(instances)[id].state == T.StateUnloaded
      ensures forall other :: other in instances ==> instances[other].state == old(instances[other].state)
    {
      if id !in instances {
        return Some(PluginError(id, "unload", ErrPluginNotFound));
      }
      var instance := instances[id];
      instance.state := T.StateUnloaded;
      instances := instances - {id};
      err := None;
    }

    /** `CallPlugin`: an unknown id is an error; otherwise the instance's
        `Call`. */
    method CallPlugin(id: string, name: string, input: Bytes, outcome: CallOutcome, now: nat)
      returns (r: Result<Bytes, Error>)
      requires Valid()
      modifies if id in instances then {instances[id].metrics} else {}
      ensures id !in instances ==> r == Failure(PluginError(id, "call", ErrPluginNotFound))
      ensures id in instances && !Callable(instances[id].state) ==>
        r == Failure(PluginError(id, "call", ErrPluginNotEnabled))
      ensures id in instances && Callable(instances[id].state) ==>
        && (outcome.TimedOut? ==> r == Failure(PluginError(id, "call", ErrPluginTimeout)))
        && (outcome.Raised? ==> r == Failure(PluginError(id, "call", outcome.err)))
        && (outcome.Completed? ==> r == Success(outcome.output))
      ensures id in instances ==>
        var m := instances[id].metrics;
        var ok := Callable(instances[id].state) && outcome.Completed?;
        var failed := Callable(instances[id].state) && !outcome.Completed?;
        && m.errors == old(m.errors) + (if failed then 1 else 0)
        && m.eventsProcessed == old(m.eventsProcessed) + (if ok then 1 else 0)
        && m.totalProcessingTime == old(m.totalProcessingTime) + (if ok then outcome.elapsed else 0)
        && m.lastEventTime == (if ok then now else old(m.lastEventTime))
    {
      if id !in instances {
        return Failure(PluginError(id, "call", ErrPluginNotFound));
      }
      r := instances[id].Call(name, input, outcome, now);
    }

    /** `Close`: every instance ends unloaded and the registry ends empty. */
    method Close()
      modifies this, Objects()
      ensures instances == map[]
      ensures forall id :: id in old(instances) ==> old(instances)[id].state == T.StateUnloaded
    {
      while instances != map[]
        invariant instances.Keys <= old(instances).Keys
        invariant forall id :: id in instances ==> instances[id] == old(instances)[id]
        invariant forall id :: id in old(instances) && id !in instances ==> old(instances)[id].state == T.StateUnloaded
        decreases |instances.Keys|
      {
        var id :| id in instances;
        var instance := instances[id];
        instance.state := T.StateUnloaded;
        instances := instances - {id};
      }
    }
  }
}
