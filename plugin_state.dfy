/** The manager's view of a loaded plugin, `pkg/plugin/state.go`: its
    lifecycle state, its metrics counters, and the `Info` record that holds
    both. Durations are whole nanoseconds. */
module PluginInfo {
  import opened Wrappers
  import opened PluginManifest
  import Types

  // ---------------------------------------------------------------------------
  // Lifecycle states (the manager's enumeration, eight values)

  type State = nat

  const StateUnloaded: State := 0
  const StateLoading: State := 1
  const StateLoaded: State := 2
  const StateEnabling: State := 3
  const StateEnabled: State := 4
  const StateDisabling: State := 5
  const StateDisabled: State := 6
  const StateError: State := 7

  const StateNames: seq<string> :=
    ["unloaded", "loading", "loaded", "enabling", "enabled", "disabling", "disabled", "error"]

  /** `State.String`. */
  function StateString(s: State): (r: string)
    ensures s >= |StateNames| <==> r == "unknown"
    ensures s < |StateNames| ==> Types.IndexOfName(StateNames, r) == Some(s)
  {
    assert Types.Distinct(StateNames);
    if s < |StateNames| then Types.NameRoundTrip(StateNames, s); Types.NameAt(StateNames, s)
    else Types.NameAt(StateNames, s)
  }

  // ---------------------------------------------------------------------------
  // Metrics as values: what a snapshot holds, and how each record changes it

  datatype MetricsValues = MetricsValues(
    totalCalls: nat,
    totalExecutionTime: nat,
    averageExecutionTime: nat,
    maxExecutionTime: nat,
    lastExecutionTime: nat,
    memoryUsageBytes: nat,
    peakMemoryBytes: nat,
    eventsHandled: map<EventType, nat>,
    eventsCancelled: map<EventType, nat>,
    errorCount: nat,
    lastError: string)

  const ZeroMetrics := MetricsValues(0, 0, 0, 0, 0, 0, 0, map[], map[], 0, "")

  /** A Go map read: a missing key reads as zero. */
  function Count(m: map<EventType, nat>, e: EventType): nat {
    if e in m then m[e] else 0
  }

  /** `m[e]++` on a Go map. */
  function Increment(m: map<EventType, nat>, e: EventType): (r: map<EventType, nat>)
    ensures Count(r, e) == Count(m, e) + 1
    ensures forall k :: k != e ==> Count(r, k) == Count(m, k)
    ensures r.Keys == m.Keys + {e}
  {
    m[e := Count(m, e) + 1]
  }

  function Max(a: nat, b: nat): nat {
    if a >= b then a else b
  }

  /** The relations every reachable metrics value satisfies. */
  predicate Consistent(v: MetricsValues) {
    && (v.totalCalls == 0 ==> v.totalExecutionTime == 0 && v.averageExecutionTime == 0)
    && (v.totalCalls > 0 ==> v.averageExecutionTime == v.totalExecutionTime / v.totalCalls)
    && v.lastExecutionTime <= v.maxExecutionTime <= v.totalExecutionTime
    && v.memoryUsageBytes <= v.peakMemoryBytes
    && (forall e :: e in v.eventsCancelled ==> v.eventsCancelled[e] <= Count(v.eventsHandled, e))
  }

  /** The effect of `RecordCall(d)`. */
  function CallRecorded(v: MetricsValues, d: nat): (r: MetricsValues)
    ensures r.totalCalls == v.totalCalls + 1 && r.totalExecutionTime == v.totalExecutionTime + d
    ensures r.lastExecutionTime == d
    ensures r.maxExecutionTime >= d && r.maxExecutionTime >= v.maxExecutionTime
    ensures r.maxExecutionTime == d || r.maxExecutionTime == v.maxExecutionTime
    ensures r.averageExecutionTime * r.totalCalls <= r.totalExecutionTime < (r.averageExecutionTime + 1) * r.totalCalls
    ensures r.(totalCalls := v.totalCalls, totalExecutionTime := v.totalExecutionTime, averageExecutionTime := v.averageExecutionTime,
               maxExecutionTime := v.maxExecutionTime, lastExecutionTime := v.lastExecutionTime) == v
  {
    var calls := v.totalCalls + 1;
    var total := v.totalExecutionTime + d;
    v.(totalCalls := calls, totalExecutionTime := total, lastExecutionTime := d,
       maxExecutionTime := Max(v.maxExecutionTime, d), averageExecutionTime := total / calls)
  }

  /** The effect of `RecordEvent(e, cancelled)`. */
  function EventRecorded(v: MetricsValues, e: EventType, cancelled: bool): (r: MetricsValues)
    ensures Count(r.eventsHandled, e) == Count(v.eventsHandled, e) + 1
    ensures Count(r.eventsCancelled, e) == Count(v.eventsCancelled, e) + (if cancelled then 1 else 0)
    ensures forall k :: k != e ==> Count(r.eventsHandled, k) == Count(v.eventsHandled, k)
    ensures forall k :: k != e ==> Count(r.eventsCancelled, k) == Count(v.eventsCancelled, k)
    ensures r.(eventsHandled := v.eventsHandled, eventsCancelled := v.eventsCancelled) == v
  {
    v.(eventsHandled := Increment(v.eventsHandled, e),
       eventsCancelled := if cancelled then Increment(v.eventsCancelled, e) else v.eventsCancelled)
  }

  /** The effect of `RecordError` with an error whose message is `msg`. */
  function ErrorRecorded(v: MetricsValues, msg: string): (r: MetricsValues)
    ensures r.errorCount == v.errorCount + 1 && r.lastError == msg
    ensures r.(errorCount := v.errorCount, lastError := v.lastError) == v
  {
    v.(errorCount := v.errorCount + 1, lastError := msg)
  }

  /** The effect of `RecordMemory(bytes)`. */
  function MemoryRecorded(v: MetricsValues, bytes: nat): (r: MetricsValues)
    ensures r.memoryUsageBytes == bytes
    ensures r.peakMemoryBytes >= bytes && r.peakMemoryBytes >= v.peakMemoryBytes
    ensures r.peakMemoryBytes == bytes || r.peakMemoryBytes == v.peakMemoryBytes
    ensures r.(memoryUsageBytes := v.memoryUsageBytes, peakMemoryBytes := v.peakMemoryBytes) == v
  {
    v.(memoryUsageBytes := bytes, peakMemoryBytes := Max(v.peakMemoryBytes, bytes))
  }

  lemma ZeroConsistent()
    ensures Consistent(ZeroMetrics)
  {
  }

  /** Each record operation keeps the metrics consistent. */
  lemma CallRecordedConsistent(v: MetricsValues, d: nat)
    requires Consistent(v)
    ensures Consistent(CallRecorded(v, d))
    ensures CallRecorded(v, d).maxExecutionTime >= d
  {
  }

  lemma EventRecordedConsistent(v: MetricsValues, e: EventType, cancelled: bool)
    requires Consistent(v)
    ensures Consistent(EventRecorded(v, e, cancelled))
    ensures Count(EventRecorded(v, e, cancelled).eventsHandled, e) == Count(v.eventsHandled, e) + 1
    ensures Count(EventRecorded(v, e, cancelled).eventsCancelled, e)
         == Count(v.eventsCancelled, e) + (if cancelled then 1 else 0)
  {
    var w := EventRecorded(v, e, cancelled);
    forall k | k in w.eventsCancelled ensures w.eventsCancelled[k] <= Count(w.eventsHandled, k) {
      assert Count(w.eventsCancelled, k) == w.eventsCancelled[k];
    }
  }

  lemma MemoryRecordedConsistent(v: MetricsValues, bytes: nat)
    requires Consistent(v)
    ensures Consistent(MemoryRecorded(v, bytes))
    ensures MemoryRecorded(v, bytes).peakMemoryBytes >= v.peakMemoryBytes
  {
  }

  function Sum(ds: seq<nat>): nat {
    if |ds| == 0 then 0 else Sum(ds[..|ds| - 1]) + ds[|ds| - 1]
  }

  function MaxOf(ds: seq<nat>): nat {
    if |ds| == 0 then 0 else Max(MaxOf(ds[..|ds| - 1]), ds[|ds| - 1])
  }

  /** Recording a series of calls, oldest first. */
  function CallsRecorded(v: MetricsValues, ds: seq<nat>): MetricsValues {
    if |ds| == 0 then v else CallRecorded(CallsRecorded(v, ds[..|ds| - 1]), ds[|ds| - 1])
  }

  /** From fresh metrics, a series of calls leaves the call count, the total,
      the largest and the last duration, and the mean rounded down. */
  lemma {:induction false} CallsFromZero(ds: seq<nat>)
    ensures var v := CallsRecorded(ZeroMetrics, ds);
      && v.totalCalls == |ds|
      && v.totalExecutionTime == Sum(ds)
      && v.maxExecutionTime == MaxOf(ds)
      && (|ds| > 0 ==> v.lastExecutionTime == ds[|ds| - 1] && v.averageExecutionTime == Sum(ds) / |ds|)
      && v.errorCount == 0 && v.eventsHandled == map[]
  {
    if |ds| > 0 {
      CallsFromZero(ds[..|ds| - 1]);
    }
  }

  // ---------------------------------------------------------------------------
  // The mutable metrics record

  class Metrics {
    var totalCalls: nat
    var totalExecutionTime: nat
    var averageExecutionTime: nat
    var maxExecutionTime: nat
    var lastExecutionTime: nat
    var memoryUsageBytes: nat
    var peakMemoryBytes: nat
    var eventsHandled: map<EventType, nat>
    var eventsCancelled: map<EventType, nat>
    var errorCount: nat
    var lastError: string

    /** All fields, as a value. */
    function Values(): MetricsValues
      reads this
    {
      MetricsValues(totalCalls, totalExecutionTime, averageExecutionTime, maxExecutionTime,
        lastExecutionTime, memoryUsageBytes, peakMemoryBytes, eventsHandled, eventsCancelled,
        errorCount, lastError)
    }

    predicate Valid()
      reads this
    {
      Consistent(Values())
    }

    /** `NewMetrics`: every counter zero, both event maps empty. */
    constructor ()
      ensures Values() == ZeroMetrics
      ensures Valid()
    {
      totalCalls, totalExecutionTime, averageExecutionTime := 0, 0, 0;
      maxExecutionTime, lastExecutionTime := 0, 0;
      memoryUsageBytes, peakMemoryBytes := 0, 0;
      eventsHandled, eventsCancelled := map[], map[];
      errorCount, lastError := 0, "";
    }

    method RecordCall(duration: nat)
      requires Valid()
      modifies this
      ensures Values() == CallRecorded(old(Values()), duration)
      ensures Valid()
    {
      ghost var before := Values();
      CallRecordedConsistent(before, duration);
      var calls := totalCalls + 1;
      var total := totalExecutionTime + duration;
      totalCalls := calls;
      totalExecutionTime := total;
      lastExecutionTime := duration;
      maxExecutionTime := Max(maxExecutionTime, duration);
      averageExecutionTime := total / calls;
    }

    method RecordEvent(event: EventType, cancelled: bool)
      requires Valid()
      modifies this
      ensures Values() == EventRecorded(old(Values()), event, cancelled)
      ensures Valid()
    {
      eventsHandled := eventsHandled[event := Count(eventsHandled, event) + 1];
      if cancelled {
        eventsCancelled := eventsCancelled[event := Count(eventsCancelled, event) + 1];
      }
      EventRecordedConsistent(old(Values()), event, cancelled);
    }

    /** `RecordError(err)` stores `err.Error()`; the caller passes that message. */
    method RecordError(message: string)
      requires Valid()
      modifies this
      ensures Values() == ErrorRecorded(old(Values()), message)
      ensures Valid()
    {
      errorCount := errorCount + 1;
      lastError := message;
    }

    method RecordMemory(bytes: nat)
      requires Valid()
      modifies this
      ensures Values() == MemoryRecorded(old(Values()), bytes)
      ensures Valid()
    {
      memoryUsageBytes := bytes;
      if bytes > peakMemoryBytes {
        peakMemoryBytes := bytes;
      }
      MemoryRecordedConsistent(old(Values()), bytes);
    }

    /** `Snapshot`: an independent copy; the maps are values, so later records
        on this object cannot reach it. */
    method Snapshot() returns (s: MetricsValues)
      requires Valid()
      ensures s == Values()
      ensures Consistent(s)
    {
      s := MetricsValues(totalCalls, totalExecutionTime, averageExecutionTime, maxExecutionTime,
        lastExecutionTime, memoryUsageBytes, peakMemoryBytes, eventsHandled, eventsCancelled,
        errorCount, lastError);
    }
  }

  // ---------------------------------------------------------------------------
  // The per-plugin record

  class Info {
    const manifest: Manifest
    var state: State
    const metrics: Metrics
    const dataPath: string
    const wasmPath: string

    /** `NewInfo`: a fresh record in state unloaded with zero metrics. */
    constructor (manifest: Manifest, wasmPath: string, dataPath: string)
      ensures this.manifest == manifest && this.wasmPath == wasmPath && this.dataPath == dataPath
      ensures state == StateUnloaded
      ensures fresh(metrics) && metrics.Values() == ZeroMetrics && metrics.Valid()
    {
      this.manifest := manifest;
      this.wasmPath := wasmPath;
      this.dataPath := dataPath;
      state := StateUnloaded;
      metrics := new Metrics();
    }
  }
}
