/** The plugin manager of `internal/manager/manager.go`: the registry of
    loaded plugins in load order, their lifecycle transitions (enable,
    disable, unload), and the event handler it subscribes for each plugin,
    which gates on the plugin's state, sends the guest an envelope and reads
    back its verdict. The dependency order of `sortByDependencies` is the
    module `DependencySort`.

    Calls into WASM code are inputs: an optional lifecycle export is a
    `Hook`, and the `handle_event` export is a function from the envelope it
    receives to the outcome of the call. Each loaded plugin's record (its
    manifest, state and metrics) is kept as a value in the manager. */
module PluginManager {
  import opened Wrappers
  import opened Text
  import opened Errors
  import opened PluginManifest
  import opened PluginInfo
  import opened Lifecycle
  import opened Guest
  import Types
  import D = Dispatcher

  // ---------------------------------------------------------------------------
  // The load order

  /** `slices.DeleteFunc(loadOrder, func(s) bool { return s == id })`. */
  function Without(s: seq<string>, x: string): (r: seq<string>)
    ensures forall y :: y in r <==> y in s && y != x
    ensures x !in s ==> r == s
    decreases |s|
  {
    if |s| == 0 then []
    else
      var rest := Without(s[..|s| - 1], x);
      assert s == s[..|s| - 1] + [s[|s| - 1]];
      if s[|s| - 1] == x then rest else rest + [s[|s| - 1]]
  }

  /** Deleting keeps the order of what remains: it distributes over
      concatenation. */
  lemma {:induction false} WithoutAppend(a: seq<string>, b: seq<string>, x: string)
    ensures Without(a + b, x) == Without(a, x) + Without(b, x)
    decreases |b|
  {
    if |b| == 0 {
      assert a + b == a;
    } else {
      assert (a + b)[..|a + b| - 1] == a + b[..|b| - 1];
      WithoutAppend(a, b[..|b| - 1], x);
    }
  }

  /** Deleting from a list without repeats leaves a list without repeats. */
  lemma {:induction false} WithoutDistinct(s: seq<string>, x: string)
    requires Types.Distinct(s)
    ensures Types.Distinct(Without(s, x))
    decreases |s|
  {
    if |s| > 0 {
      var init := s[..|s| - 1];
      assert Types.Distinct(init) by {
        forall i, j | 0 <= i < j < |init| ensures init[i] != init[j] {
          assert init[i] == s[i] && init[j] == s[j];
        }
      }
      WithoutDistinct(init, x);
      assert s[|s| - 1] !in init by {
        forall i | 0 <= i < |init| ensures init[i] != s[|s| - 1] {
          assert init[i] == s[i];
        }
      }
    }
  }

  // ---------------------------------------------------------------------------
  // Messages

  function NotFound(id: string): (e: Error)
    ensures var t := Message(e); |t| == |id| + 17 && t[..7] == "plugin " && t[7..|t| - 10] == id
  {
    Sentinel("plugin " + id + " not found")
  }

  function AlreadyLoaded(id: string): (e: Error)
    ensures var t := Message(e); |t| == |id| + 22 && t[..7] == "plugin " && t[7..|t| - 15] == id
  {
    Sentinel("plugin " + id + " already loaded")
  }

  function CannotEnable(id: string, s: State): (e: Error)
    ensures var t := Message(e);
      && |t| == |id| + |StateString(s)| + 35
      && t[..7] == "plugin " && t[7..7 + |id|] == id && t[|t| - |StateString(s)|..] == StateString(s)
  {
    var head := "plugin " + id + " cannot be enabled in state ";
    assert |head| == |id| + 35 && head[..7] == "plugin " && head[7..7 + |id|] == id;
    Sentinel(head + StateString(s))
  }

  function CallbackFailed(err: Error): Error {
    Wrapped("enable callback failed", err)
  }

  function HandlerTimeout(eventType: EventType): (e: Error)
    ensures var t := Message(e); |t| == |eventType| + 20 && t[20..] == eventType
  {
    Sentinel("handler timeout for " + eventType)
  }

  // ---------------------------------------------------------------------------
  // The event handler

  /** The subscriptions `registerEventHandlers` makes for event `e`, in
      manifest order. */
  function SubscriptionsFor(id: string, events: seq<EventSubscription>, e: EventType): seq<D.Subscription>
    decreases |events|
  {
    if |events| == 0 then []
    else
      var last := events[|events| - 1];
      SubscriptionsFor(id, events[..|events| - 1], e)
        + (if last.event == e then [D.Subscription(id, last.priority, last.ignoreCancelled)] else [])
  }

  /** The positions of the manifest entries naming `e`. */
  function Positions(events: seq<EventSubscription>, e: EventType): set<nat> {
    set i | 0 <= i < |events| && events[i].event == e
  }

  /** A plugin gets exactly one subscription per manifest entry naming `e`. */
  lemma {:induction false} SubscriptionsForCount(id: string, events: seq<EventSubscription>, e: EventType)
    ensures |SubscriptionsFor(id, events, e)| == |Positions(events, e)|
    decreases |events|
  {
    if |events| > 0 {
      var n := |events| - 1;
      SubscriptionsForCount(id, events[..n], e);
      PositionsSnoc(events, e);
    }
  }

  lemma PositionsSnoc(events: seq<EventSubscription>, e: EventType)
    requires |events| > 0
    ensures Positions(events, e)
         == Positions(events[..|events| - 1], e) + (if events[|events| - 1].event == e then {|events| - 1} else {})
    ensures |events| - 1 !in Positions(events[..|events| - 1], e)
  {
  }

  /** The manager subscribes a plugin to `e` exactly when its manifest
      subscribes to `e`. */
  lemma SubscribedIff(id: string, events: seq<EventSubscription>, e: EventType)
    ensures SubscriptionsFor(id, events, e) != [] <==> SubscribedTo(events, e)
  {
    SubscriptionsForCount(id, events, e);
    if SubscribedTo(events, e) {
      var i :| 0 <= i < |events| && events[i].event == e;
      assert i in Positions(events, e);
    } else {
      assert Positions(events, e) == {};
    }
  }

  /** The envelope the handler sends: the event type's bytes, a zero byte,
      then the event data. */
  function Envelope(eventType: EventType, data: Bytes): (r: Bytes)
    ensures |r| == |Utf8(eventType)| + 1 + |data|
    ensures r[..|Utf8(eventType)|] == Utf8(eventType) && r[|Utf8(eventType)|] == 0
    ensures r[|Utf8(eventType)| + 1..] == data
  {
    Utf8(eventType) + [0] + data
  }

  /** The handler runs the guest only for an enabled or a loaded plugin. */
  predicate Serves(s: State) {
    s == StateEnabled || s == StateLoaded
  }

  /** What a loaded plugin's record holds: its manifest, lifecycle state and
      metrics. */
  datatype LoadedPlugin = LoadedPlugin(manifest: Manifest, state: State, metrics: MetricsValues)

  /** The metrics after the handler has run the guest with the given outcome;
      `cause` is the message of the timeout context's error. */
  function HandlerMetrics(v: MetricsValues, eventType: EventType, outcome: CallOutcome, cause: string): (r: MetricsValues)
    ensures r.errorCount == v.errorCount + (if outcome.Completed? then 0 else 1)
    ensures r.totalCalls == v.totalCalls + (if outcome.TimedOut? then 0 else 1)
  {
    match outcome
    case TimedOut => ErrorRecorded(v, cause)
    case Raised(d, err) => ErrorRecorded(CallRecorded(v, d), Message(err))
    case Completed(d, out) => EventRecorded(CallRecorded(v, d), eventType, ParseEventResult(out).cancelled)
  }

  /** What the handler returns to the dispatcher for the given outcome. */
  function HandlerResult(eventType: EventType, outcome: CallOutcome): (r: D.HandlerResponse)
    ensures r.HandlerError? <==> !outcome.Completed?
    ensures outcome.Raised? ==> r.err == outcome.err
    ensures outcome.Completed? ==> r.result == Some(ParseEventResult(outcome.output))
  {
    match outcome
    case TimedOut => D.HandlerError(HandlerTimeout(eventType))
    case Raised(_, err) => D.HandlerError(err)
    case Completed(_, out) => D.HandlerOk(Some(ParseEventResult(out)))
  }

  /** Each plugin is filed under its own id, and the load order lists every
      loaded plugin once. */
  ghost predicate Registry(plugins: map<string, LoadedPlugin>, loadOrder: seq<string>) {
    && (forall id :: id in plugins ==> plugins[id].manifest.id == id)
    && Types.Distinct(loadOrder)
    && (forall id :: id in loadOrder <==> id in plugins)
  }

  /** Replacing a record by one with the same manifest keeps the registry. */
  lemma SameManifest(plugins: map<string, LoadedPlugin>, loadOrder: seq<string>, id: string, p: LoadedPlugin)
    requires Registry(plugins, loadOrder) && id in plugins && p.manifest == plugins[id].manifest
    ensures Registry(plugins[id := p], loadOrder)
  {
  }

  /** `EnablePlugin` on a loaded plugin `id` with record `p`: an enabled
      plugin stays as it is without error, only a loaded or disabled plugin
      may be enabled, and a failing `on_enable` leaves it in the error state
      with the error recorded in its metrics. The record and the result. */
  function Enabling(id: string, p: LoadedPlugin, onEnable: Hook): (r: (LoadedPlugin, Option<Error>))
    ensures r.0.manifest == p.manifest
    ensures r.0.state == AfterEnable(p.state, HookFailed(onEnable))
    ensures r.1.None? <==> p.state == StateEnabled || (CanEnable(p.state) && !HookFailed(onEnable))
    ensures p.state != StateEnabled && !CanEnable(p.state) ==> r.1 == Some(CannotEnable(id, p.state))
    ensures CanEnable(p.state) && HookFailed(onEnable) ==>
      && r.1 == Some(CallbackFailed(onEnable.outcome.error))
      && r.0.metrics == ErrorRecorded(p.metrics, Message(onEnable.outcome.error))
    ensures !(CanEnable(p.state) && HookFailed(onEnable)) ==> r.0.metrics == p.metrics
  {
    if p.state == StateEnabled then (p, None)
    else if !CanEnable(p.state) then (p, Some(CannotEnable(id, p.state)))
    else if HookFailed(onEnable) then
      (p.(state := StateError, metrics := ErrorRecorded(p.metrics, Message(onEnable.outcome.error))),
       Some(CallbackFailed(onEnable.outcome.error)))
    else (p.(state := StateEnabled), None)
  }

  lemma UpdateThenRemove(plugins: map<string, LoadedPlugin>, id: string, p: LoadedPlugin)
    ensures plugins[id := p] - {id} == plugins - {id}
  {
  }

  /** Removing a plugin from the records and the load order keeps the
      registry. */
  lemma Removed(plugins: map<string, LoadedPlugin>, loadOrder: seq<string>, id: string)
    requires Registry(plugins, loadOrder)
    ensures Registry(plugins - {id}, Without(loadOrder, id))
  {
    WithoutDistinct(loadOrder, id);
  }

  // ---------------------------------------------------------------------------
  // The manager

  class Manager {
    /** The loaded plugins by id, and the order in which they were loaded. */
    var plugins: map<string, LoadedPlugin>
    var loadOrder: seq<string>
    const dispatcher: D.Dispatcher

    /** Each plugin is filed under its own id, and the load order lists every
        loaded plugin once. */
    ghost predicate Valid()
      reads this, dispatcher
    {
      dispatcher.Valid() && Registry(plugins, loadOrder)
    }

    /** `New`: no plugins and a fresh dispatcher. */
    constructor ()
      ensures Valid() && fresh(dispatcher)
      ensures plugins == map[] && loadOrder == []
      ensures dispatcher.subscriptions == map[]
    {
      plugins := map[];
      loadOrder := [];
      dispatcher := new D.Dispatcher();
    }

    /** The registration at the end of `loadPlugin`: a second plugin with the
        same id is refused; otherwise the plugin is recorded as loaded with
        fresh metrics, appended to the load order, and gets one subscription
        per manifest entry. */
    method Register(manifest: Manifest) returns (err: Option<Error>)
      requires Valid()
      modifies this, dispatcher
      ensures Valid()
      ensures manifest.id in old(plugins) ==>
        && err == Some(AlreadyLoaded(manifest.id))
        && plugins == old(plugins) && loadOrder == old(loadOrder)
        && dispatcher.subscriptions == old(dispatcher.subscriptions)
      ensures manifest.id !in old(plugins) ==>
        && err.None?
        && plugins == old(plugins)[manifest.id := LoadedPlugin(manifest, StateLoaded, ZeroMetrics)]
        && loadOrder == old(loadOrder) + [manifest.id]
        && Added(old(dispatcher.subscriptions), dispatcher.subscriptions, manifest.id, manifest.events)
      ensures dispatcher.eventCount == old(dispatcher.eventCount) && dispatcher.cancelCount == old(dispatcher.cancelCount)
    {
      var id := manifest.id;
      if id in plugins {
        return Some(AlreadyLoaded(id));
      }
      plugins := plugins[id := LoadedPlugin(manifest, StateLoaded, ZeroMetrics)];
      AppendDistinct(loadOrder, id);
      loadOrder := loadOrder + [id];
      RegisterHandlers(id, manifest.events);
      err := None;
    }

    /** `registerEventHandlers`: subscribe the plugin's handler to each event
        its manifest lists. */
    method RegisterHandlers(id: string, events: seq<EventSubscription>)
      requires dispatcher.Valid()
      modifies dispatcher
      ensures dispatcher.Valid()
      ensures Added(old(dispatcher.subscriptions), dispatcher.subscriptions, id, events)
      ensures dispatcher.eventCount == old(dispatcher.eventCount) && dispatcher.cancelCount == old(dispatcher.cancelCount)
    {
      var i := 0;
      while i < |events|
        invariant 0 <= i <= |events|
        invariant dispatcher.Valid()
        invariant Added(old(dispatcher.subscriptions), dispatcher.subscriptions, id, events[..i])
        invariant dispatcher.eventCount == old(dispatcher.eventCount) && dispatcher.cancelCount == old(dispatcher.cancelCount)
      {
        ghost var before := dispatcher.subscriptions;
        label L:
        dispatcher.Subscribe(events[i].event, D.Subscription(id, events[i].priority, events[i].ignoreCancelled));
        forall e | e != events[i].event ensures D.Lookup(dispatcher.subscriptions, e) == D.Lookup(before, e) {
          assert dispatcher.Subscribers(e) == old@L(dispatcher.Subscribers(e));
        }
        AddedStep(old(dispatcher.subscriptions), before, dispatcher.subscriptions, id, events, i);
        i := i + 1;
      }
      assert events[..i] == events;
    }

    /** `EnablePlugin`: an unknown id is an error; otherwise the plugin's
        record and the result are those of `Enabling`. */
    method EnablePlugin(id: string, onEnable: Hook) returns (err: Option<Error>)
      requires Valid()
      modifies this
      ensures Valid()
      ensures loadOrder == old(loadOrder)
      ensures id !in old(plugins) ==> err == Some(NotFound(id)) && plugins == old(plugins)
      ensures id in old(plugins) ==>
        && plugins == old(plugins)[id := plugins[id]]
        && (plugins[id], err) == Enabling(id, old(plugins[id]), onEnable)
    {
      if id !in plugins {
        return Some(NotFound(id));
      }
      var loaded := plugins[id];
      var next: LoadedPlugin;
      next, err := Enabling(id, loaded, onEnable).0, Enabling(id, loaded, onEnable).1;
      SameManifest(plugins, loadOrder, id, next);
      plugins := plugins[id := next];
    }

    /** `DisablePlugin`: an unknown id is an error, a plugin that is not
        enabled stays as it is, and an enabled one ends disabled whatever
        its `on_disable` callback does. */
    method DisablePlugin(id: string, onDisable: Hook) returns (err: Option<Error>)
      requires Valid()
      modifies this
      ensures Valid()
      ensures loadOrder == old(loadOrder)
      ensures id !in old(plugins) ==> err == Some(NotFound(id)) && plugins == old(plugins)
      ensures id in old(plugins) ==>
        && err.None?
        && plugins == old(plugins)[id := old(plugins[id]).(state := AfterDisable(old(plugins[id].state)))]
    {
      if id !in plugins {
        return Some(NotFound(id));
      }
      var loaded := plugins[id];
      if loaded.state != StateEnabled {
        return None;
      }
      plugins := plugins[id := loaded.(state := StateDisabling)];
      plugins := plugins[id := loaded.(state := StateDisabled)];
      err := None;
    }

    /** `UnloadPlugin`: an unknown id is an error; otherwise the plugin is
        disabled if enabled, loses its subscriptions, ends unloaded, and is
        removed from the registry and the load order, the other plugins
        keeping their order. */
    method UnloadPlugin(id: string, onDisable: Hook) returns (err: Option<Error>)
      requires Valid()
      modifies this, dispatcher
      ensures Valid()
      ensures id !in old(plugins) ==>
        && err == Some(NotFound(id))
        && plugins == old(plugins) && loadOrder == old(loadOrder)
        && dispatcher.subscriptions == old(dispatcher.subscriptions)
      ensures id in old(plugins) ==>
        && err.None?
        && plugins == old(plugins) - {id}
        && loadOrder == Without(old(loadOrder), id)
        && dispatcher.subscriptions == D.FilterAll(old(dispatcher.subscriptions), id)
        && forall e :: id !in PluginsOf(dispatcher.Subscribers(e))
    {
      if id !in plugins {
        return Some(NotFound(id));
      }
      ghost var before := plugins;
      if plugins[id].state == StateEnabled {
        // The id is present, so disabling cannot fail here.
        var _ := DisablePlugin(id, onDisable);
        UpdateThenRemove(before, id, plugins[id]);
      }
      dispatcher.Unsubscribe(id);
      UnsubscribedEverywhere(old(dispatcher.subscriptions), id);
      UpdateThenRemove(plugins, id, plugins[id].(state := StateUnloaded));
      plugins := plugins[id := plugins[id].(state := StateUnloaded)];
      Removed(plugins, loadOrder, id);
      plugins := plugins - {id};
      loadOrder := Without(loadOrder, id);
      err := None;
    }

    /** The handler `createEventHandler` builds for plugin `id` and
        `eventType`, run on `data`; `guest` is what the `handle_event` export
        does with the envelope it receives, and `parentErr` the error of the
        dispatcher's context. On a timeout the timed context's error is
        recorded. The handler changes only the plugin's metrics. */
    method HandleEvent(id: string, eventType: EventType, data: Bytes, guest: Bytes -> CallOutcome, parentErr: Option<Error>)
      returns (r: D.HandlerResponse)
      requires Valid() && id in plugins
      modifies this
      ensures Valid() && loadOrder == old(loadOrder)
      ensures !Serves(old(plugins[id].state)) ==> r == D.HandlerOk(None) && plugins == old(plugins)
      ensures Serves(old(plugins[id].state)) ==>
        var outcome := guest(Envelope(eventType, data));
        && r == HandlerResult(eventType, outcome)
        && plugins == old(plugins)[id := old(plugins[id]).(metrics := HandlerMetrics(old(plugins[id].metrics), eventType, outcome, Message(TimeoutCause(parentErr))))]
    {
      var loaded := plugins[id];
      if !Serves(loaded.state) {
        return D.HandlerOk(None);
      }
      var envelope := Envelope(eventType, data);
      var outcome := guest(envelope);
      r := HandlerResult(eventType, outcome);
      plugins := plugins[id := loaded.(metrics := HandlerMetrics(loaded.metrics, eventType, outcome, Message(TimeoutCause(parentErr))))];
    }
  }

  // ---------------------------------------------------------------------------
  // Subscriptions of the manager's plugins

  /** The ids of the plugins holding the subscriptions. */
  function PluginsOf(subs: seq<D.Subscription>): (r: set<string>)
    ensures forall k :: 0 <= k < |subs| ==> subs[k].pluginId in r
    ensures forall x :: x in r ==> exists k :: 0 <= k < |subs| && subs[k].pluginId == x
  {
    set k | 0 <= k < |subs| :: subs[k].pluginId
  }

  /** After `Unsubscribe(id)` no list holds a subscription of `id`. */
  lemma UnsubscribedEverywhere(m: map<EventType, seq<D.Subscription>>, id: string)
    ensures forall e :: id !in PluginsOf(D.Lookup(D.FilterAll(m, id), e))
  {
    forall e ensures id !in PluginsOf(D.Lookup(D.FilterAll(m, id), e)) {
      if e in m {
        D.FilterMembers(m[e], id);
        var f := D.Filter(m[e], id);
        forall k | 0 <= k < |f| ensures f[k].pluginId != id {
          assert f[k] in f;
        }
      }
    }
  }

  /** `after` holds, per event, what `before` held plus the subscriptions
      `registerEventHandlers` makes for `events`. */
  ghost predicate Added(before: map<EventType, seq<D.Subscription>>, after: map<EventType, seq<D.Subscription>>,
                        id: string, events: seq<EventSubscription>)
  {
    forall e :: multiset(D.Lookup(after, e)) == multiset(D.Lookup(before, e)) + multiset(SubscriptionsFor(id, events, e))
  }

  lemma AddedStep(before: map<EventType, seq<D.Subscription>>, mid: map<EventType, seq<D.Subscription>>,
                  after: map<EventType, seq<D.Subscription>>, id: string, events: seq<EventSubscription>, i: nat)
    requires i < |events|
    requires Added(before, mid, id, events[..i])
    requires forall e :: e != events[i].event ==> D.Lookup(after, e) == D.Lookup(mid, e)
    requires multiset(D.Lookup(after, events[i].event))
          == multiset(D.Lookup(mid, events[i].event) + [D.Subscription(id, events[i].priority, events[i].ignoreCancelled)])
    ensures Added(before, after, id, events[..i + 1])
  {
    forall e ensures multiset(D.Lookup(after, e))
      == multiset(D.Lookup(before, e)) + multiset(SubscriptionsFor(id, events[..i + 1], e)) {
      AddedAt(before, mid, after, id, events, i, e);
    }
  }

  lemma AddedAt(before: map<EventType, seq<D.Subscription>>, mid: map<EventType, seq<D.Subscription>>,
                after: map<EventType, seq<D.Subscription>>, id: string, events: seq<EventSubscription>, i: nat, e: EventType)
    requires i < |events|
    requires multiset(D.Lookup(mid, e)) == multiset(D.Lookup(before, e)) + multiset(SubscriptionsFor(id, events[..i], e))
    requires e != events[i].event ==> D.Lookup(after, e) == D.Lookup(mid, e)
    requires e == events[i].event ==>
      multiset(D.Lookup(after, e)) == multiset(D.Lookup(mid, e) + [D.Subscription(id, events[i].priority, events[i].ignoreCancelled)])
    ensures multiset(D.Lookup(after, e)) == multiset(D.Lookup(before, e)) + multiset(SubscriptionsFor(id, events[..i + 1], e))
  {
    var sub := D.Subscription(id, events[i].priority, events[i].ignoreCancelled);
    var prefix := SubscriptionsFor(id, events[..i], e);
    SubscriptionsForSnoc(id, events, i, e);
    if e == events[i].event {
      assert multiset(prefix + [sub]) == multiset(prefix) + multiset{sub};
      assert multiset(D.Lookup(mid, e) + [sub]) == multiset(D.Lookup(mid, e)) + multiset{sub};
    } else {
      assert prefix + [] == prefix;
    }
  }

  lemma SubscriptionsForSnoc(id: string, events: seq<EventSubscription>, i: nat, e: EventType)
    requires i < |events|
    ensures SubscriptionsFor(id, events[..i + 1], e) == SubscriptionsFor(id, events[..i], e)
      + (if events[i].event == e then [D.Subscription(id, events[i].priority, events[i].ignoreCancelled)] else [])
  {
    assert events[..i + 1][..i] == events[..i];
  }

  lemma AppendDistinct(s: seq<string>, x: string)
    requires Types.Distinct(s) && x !in s
    ensures Types.Distinct(s + [x])
  {
    var t := s + [x];
    forall i, j | 0 <= i < j < |t| ensures t[i] != t[j] {
      if j == |s| {
        assert t[i] == s[i];
      } else {
        assert t[i] == s[i] && t[j] == s[j];
      }
    }
  }
}
