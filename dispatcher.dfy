/** The event dispatcher of `pkg/events/dispatcher.go`: per-event lists of
    subscriptions kept sorted by priority, the merge of handler results in
    subscriber order, and per-event counters.

    A handler is code in a plugin; the model receives, for each subscriber,
    the response its handler gives when it is invoked. */
module Dispatcher {
  import opened Wrappers
  import opened Errors
  import opened PluginManifest
  import opened PluginInfo

  datatype Subscription = Subscription(pluginId: string, priority: Priority, ignoreCancelled: bool)

  datatype EventResult = EventResult(cancelled: bool, modifications: map<string, string>, error: string)

  /** What one handler invocation returns: an error, or a possibly absent result. */
  datatype HandlerResponse = HandlerError(err: Error) | HandlerOk(result: Option<EventResult>)

  datatype DispatchResult = DispatchResult(
    cancelled: bool, modifications: map<string, string>, handlers: nat, duration: nat, errors: seq<Error>)

  const EmptyResult := DispatchResult(false, map[], 0, 0, [])

  /** Sorted by non-decreasing priority: lower priorities run first. */
  predicate SortedByPriority(s: seq<Subscription>) {
    forall a, b :: 0 <= a < b < |s| ==> s[a].priority <= s[b].priority
  }

  /** `slices.DeleteFunc` with the test "belongs to `pluginId`". */
  function Filter(s: seq<Subscription>, pluginId: string): (r: seq<Subscription>)
    ensures |r| <= |s|
    decreases |s|
  {
    if |s| == 0 then []
    else (if s[0].pluginId == pluginId then [] else [s[0]]) + Filter(s[1..], pluginId)
  }

  /** What remains is exactly the subscriptions of other plugins. */
  lemma {:induction false} FilterMembers(s: seq<Subscription>, pluginId: string)
    ensures forall x :: x in Filter(s, pluginId) <==> x in s && x.pluginId != pluginId
    decreases |s|
  {
    if |s| > 0 {
      FilterMembers(s[1..], pluginId);
      assert s == [s[0]] + s[1..];
    }
  }

  /** Filtering keeps the order of what remains: it distributes over concatenation. */
  lemma {:induction false} FilterAppend(a: seq<Subscription>, b: seq<Subscription>, pluginId: string)
    ensures Filter(a + b, pluginId) == Filter(a, pluginId) + Filter(b, pluginId)
    decreases |a|
  {
    if |a| > 0 {
      assert (a + b)[1..] == a[1..] + b;
      FilterAppend(a[1..], b, pluginId);
    } else {
      assert a + b == b;
    }
  }

  /** A list without the plugin's subscriptions is left as it is. */
  lemma {:induction false} FilterAbsent(s: seq<Subscription>, pluginId: string)
    requires forall k :: 0 <= k < |s| ==> s[k].pluginId != pluginId
    ensures Filter(s, pluginId) == s
    decreases |s|
  {
    if |s| > 0 {
      FilterAbsent(s[1..], pluginId);
      assert [s[0]] + s[1..] == s;
    }
  }

  lemma {:induction false} FilterSorted(s: seq<Subscription>, pluginId: string)
    requires SortedByPriority(s)
    ensures SortedByPriority(Filter(s, pluginId))
    decreases |s|
  {
    if |s| > 0 {
      var rest := Filter(s[1..], pluginId);
      FilterSorted(s[1..], pluginId);
      FilterMembers(s[1..], pluginId);
      forall x | x in rest ensures s[0].priority <= x.priority {
        var k :| 0 <= k < |s[1..]| && s[1..][k] == x;
        assert s[k + 1] == x;
      }
    }
  }

  // ---------------------------------------------------------------------------
  // The merge of handler results, as a left fold over the subscribers

  /** One iteration of the dispatch loop: a subscription that ignores
      cancelled events is skipped once the result is cancelled; otherwise a
      failing handler adds its error, and a succeeding one counts, may cancel
      and has its modifications copied over the earlier ones. */
  function Step(r: DispatchResult, sub: Subscription, resp: HandlerResponse): (s: DispatchResult)
    ensures r.cancelled && sub.ignoreCancelled ==> s == r
    ensures r.cancelled ==> s.cancelled
    ensures !(r.cancelled && sub.ignoreCancelled) && resp.HandlerError? ==>
      s == r.(errors := r.errors + [resp.err])
    ensures !(r.cancelled && sub.ignoreCancelled) && resp.HandlerOk? ==>
      && s.handlers == r.handlers + 1 && s.errors == r.errors
      && (s.cancelled <==> r.cancelled || (resp.result.Some? && resp.result.value.cancelled))
      && (forall k :: k in s.modifications <==>
            k in r.modifications || (resp.result.Some? && k in resp.result.value.modifications))
      && (forall k :: resp.result.Some? && k in resp.result.value.modifications ==>
            s.modifications[k] == resp.result.value.modifications[k])
  {
    if r.cancelled && sub.ignoreCancelled then r
    else match resp
      case HandlerError(e) => r.(errors := r.errors + [e])
      case HandlerOk(None) => r.(handlers := r.handlers + 1)
      case HandlerOk(Some(er)) =>
        r.(handlers := r.handlers + 1,
           cancelled := r.cancelled || er.cancelled,
           modifications := r.modifications + er.modifications)
  }

  /** The result after the first `n` subscribers. */
  function MergedUpTo(subs: seq<Subscription>, resps: seq<HandlerResponse>, n: nat): DispatchResult
    requires |subs| == |resps| && n <= |subs|
  {
    if n == 0 then EmptyResult else Step(MergedUpTo(subs, resps, n - 1), subs[n - 1], resps[n - 1])
  }

  /** Whether subscriber `i`'s handler is invoked at all. */
  predicate Invoked(subs: seq<Subscription>, resps: seq<HandlerResponse>, i: nat)
    requires |subs| == |resps| && i < |subs|
  {
    !(MergedUpTo(subs, resps, i).cancelled && subs[i].ignoreCancelled)
  }

  /** Subscriber `i`'s handler runs and asks for cancellation. */
  predicate CancelsAt(subs: seq<Subscription>, resps: seq<HandlerResponse>, i: nat)
    requires |subs| == |resps| && i < |subs|
  {
    Invoked(subs, resps, i) && resps[i].HandlerOk? && resps[i].result.Some? && resps[i].result.value.cancelled
  }

  /** Subscriber `i`'s handler runs and sets key `k`. */
  predicate WritesAt(subs: seq<Subscription>, resps: seq<HandlerResponse>, i: nat, k: string)
    requires |subs| == |resps| && i < |subs|
  {
    Invoked(subs, resps, i) && resps[i].HandlerOk? && resps[i].result.Some?
    && k in resps[i].result.value.modifications
  }

  /** The result is cancelled exactly when some invoked handler cancelled. */
  lemma {:induction false} CancelledIff(subs: seq<Subscription>, resps: seq<HandlerResponse>, n: nat)
    requires |subs| == |resps| && n <= |subs|
    ensures MergedUpTo(subs, resps, n).cancelled <==> exists i :: 0 <= i < n && CancelsAt(subs, resps, i)
  {
    if n > 0 {
      CancelledIff(subs, resps, n - 1);
      var prev := MergedUpTo(subs, resps, n - 1);
      assert MergedUpTo(subs, resps, n).cancelled == (prev.cancelled || CancelsAt(subs, resps, n - 1));
      if MergedUpTo(subs, resps, n).cancelled {
        if prev.cancelled {
          var i :| 0 <= i < n - 1 && CancelsAt(subs, resps, i);
        } else {
          assert CancelsAt(subs, resps, n - 1);
        }
      }
    }
  }

  /** Once cancelled, the result stays cancelled. */
  lemma CancelStays(subs: seq<Subscription>, resps: seq<HandlerResponse>, j: nat, n: nat)
    requires |subs| == |resps| && j <= n <= |subs|
    requires MergedUpTo(subs, resps, j).cancelled
    ensures MergedUpTo(subs, resps, n).cancelled
  {
    CancelledIff(subs, resps, j);
    CancelledIff(subs, resps, n);
  }

  /** After a handler cancelled, no later subscription that ignores cancelled
      events is invoked. */
  lemma SkippedAfterCancel(subs: seq<Subscription>, resps: seq<HandlerResponse>, j: nat, i: nat)
    requires |subs| == |resps| && j < i < |subs|
    requires CancelsAt(subs, resps, j) && subs[i].ignoreCancelled
    ensures !Invoked(subs, resps, i)
  {
    CancelStays(subs, resps, j + 1, i);
  }

  /** `r[i]` holds when handler `i` ran and succeeded. */
  function OkFlags(subs: seq<Subscription>, resps: seq<HandlerResponse>, n: nat): (r: seq<bool>)
    requires |subs| == |resps| && n <= |subs|
    ensures |r| == n
  {
    if n == 0 then [] else OkFlags(subs, resps, n - 1) + [Invoked(subs, resps, n - 1) && resps[n - 1].HandlerOk?]
  }

  /** `r[i]` holds when handler `i` ran and failed. */
  function ErrorFlags(subs: seq<Subscription>, resps: seq<HandlerResponse>, n: nat): (r: seq<bool>)
    requires |subs| == |resps| && n <= |subs|
    ensures |r| == n
  {
    if n == 0 then [] else ErrorFlags(subs, resps, n - 1) + [Invoked(subs, resps, n - 1) && resps[n - 1].HandlerError?]
  }

  /** The positions a flag sequence marks. */
  function Marked(flags: seq<bool>): set<nat>
  {
    set i: nat | i < |flags| && flags[i]
  }

  /** Appending a flag marks at most the new, previously unmarked position. */
  lemma MarkedSnoc(flags: seq<bool>, b: bool)
    ensures Marked(flags + [b]) == Marked(flags) + (if b then {|flags|} else {})
    ensures |flags| !in Marked(flags)
  {
    var f := flags + [b];
    forall i: nat | i < |flags| ensures f[i] == flags[i] { }
  }

  /** The handlers among the first `n` that ran and succeeded. */
  function OkSet(subs: seq<Subscription>, resps: seq<HandlerResponse>, n: nat): set<nat>
    requires |subs| == |resps| && n <= |subs|
  {
    Marked(OkFlags(subs, resps, n))
  }

  /** The handlers among the first `n` that ran and failed. */
  function ErrorSet(subs: seq<Subscription>, resps: seq<HandlerResponse>, n: nat): set<nat>
    requires |subs| == |resps| && n <= |subs|
  {
    Marked(ErrorFlags(subs, resps, n))
  }

  /** `OkSet` holds exactly the invoked handlers that succeeded. */
  lemma {:induction false} OkSetMembers(subs: seq<Subscription>, resps: seq<HandlerResponse>, n: nat, i: nat)
    requires |subs| == |resps| && n <= |subs|
    ensures i in OkSet(subs, resps, n) <==> i < n && Invoked(subs, resps, i) && resps[i].HandlerOk?
  {
    if n > 0 {
      OkSetMembers(subs, resps, n - 1, i);
      OkSetStep(subs, resps, n);
    }
  }

  /** `ErrorSet` holds exactly the invoked handlers that failed. */
  lemma {:induction false} ErrorSetMembers(subs: seq<Subscription>, resps: seq<HandlerResponse>, n: nat, i: nat)
    requires |subs| == |resps| && n <= |subs|
    ensures i in ErrorSet(subs, resps, n) <==> i < n && Invoked(subs, resps, i) && resps[i].HandlerError?
  {
    if n > 0 {
      ErrorSetMembers(subs, resps, n - 1, i);
      ErrorSetStep(subs, resps, n);
    }
  }

  lemma OkSetStep(subs: seq<Subscription>, resps: seq<HandlerResponse>, n: nat)
    requires |subs| == |resps| && 0 < n <= |subs|
    ensures OkSet(subs, resps, n)
         == OkSet(subs, resps, n - 1) + (if Invoked(subs, resps, n - 1) && resps[n - 1].HandlerOk? then {n - 1} else {})
    ensures n - 1 !in OkSet(subs, resps, n - 1)
  {
    MarkedSnoc(OkFlags(subs, resps, n - 1), Invoked(subs, resps, n - 1) && resps[n - 1].HandlerOk?);
  }

  lemma ErrorSetStep(subs: seq<Subscription>, resps: seq<HandlerResponse>, n: nat)
    requires |subs| == |resps| && 0 < n <= |subs|
    ensures ErrorSet(subs, resps, n)
         == ErrorSet(subs, resps, n - 1) + (if Invoked(subs, resps, n - 1) && resps[n - 1].HandlerError? then {n - 1} else {})
    ensures n - 1 !in ErrorSet(subs, resps, n - 1)
  {
    MarkedSnoc(ErrorFlags(subs, resps, n - 1), Invoked(subs, resps, n - 1) && resps[n - 1].HandlerError?);
  }

  /** How one step changes the counters and the error list. */
  lemma StepCounts(subs: seq<Subscription>, resps: seq<HandlerResponse>, n: nat)
    requires |subs| == |resps| && 0 < n <= |subs|
    ensures MergedUpTo(subs, resps, n).handlers
         == MergedUpTo(subs, resps, n - 1).handlers + (if Invoked(subs, resps, n - 1) && resps[n - 1].HandlerOk? then 1 else 0)
    ensures MergedUpTo(subs, resps, n).errors
         == MergedUpTo(subs, resps, n - 1).errors
            + (if Invoked(subs, resps, n - 1) && resps[n - 1].HandlerError? then [resps[n - 1].err] else [])
  {
  }

  /** `Handlers` counts the invoked handlers that succeeded. */
  lemma {:induction false} HandlersCount(subs: seq<Subscription>, resps: seq<HandlerResponse>, n: nat)
    requires |subs| == |resps| && n <= |subs|
    ensures MergedUpTo(subs, resps, n).handlers == |OkSet(subs, resps, n)|
  {
    if n > 0 {
      HandlersCount(subs, resps, n - 1);
      OkSetStep(subs, resps, n);
      StepCounts(subs, resps, n);
    }
  }

  /** `Errors` holds one entry per invoked handler that failed. */
  lemma {:induction false} ErrorsCount(subs: seq<Subscription>, resps: seq<HandlerResponse>, n: nat)
    requires |subs| == |resps| && n <= |subs|
    ensures |MergedUpTo(subs, resps, n).errors| == |ErrorSet(subs, resps, n)|
  {
    if n > 0 {
      ErrorsCount(subs, resps, n - 1);
      ErrorSetStep(subs, resps, n);
      StepCounts(subs, resps, n);
    }
  }

  /** Each entry of `Errors` is the error of an invoked handler that failed. */
  lemma {:induction false} ErrorsFromHandlers(subs: seq<Subscription>, resps: seq<HandlerResponse>, n: nat)
    requires |subs| == |resps| && n <= |subs|
    ensures forall e :: e in MergedUpTo(subs, resps, n).errors
              ==> exists i :: i in ErrorSet(subs, resps, n) && resps[i] == HandlerError(e)
  {
    if n > 0 {
      ErrorsFromHandlers(subs, resps, n - 1);
      ErrorSetStep(subs, resps, n);
      StepCounts(subs, resps, n);
    }
  }

  /** A key is in the merged modifications exactly when some invoked handler set it. */
  lemma {:induction false} ModifiedIff(subs: seq<Subscription>, resps: seq<HandlerResponse>, n: nat, k: string)
    requires |subs| == |resps| && n <= |subs|
    ensures k in MergedUpTo(subs, resps, n).modifications <==> exists i :: 0 <= i < n && WritesAt(subs, resps, i, k)
  {
    if n > 0 {
      ModifiedIff(subs, resps, n - 1, k);
      var prev := MergedUpTo(subs, resps, n - 1);
      assert k in MergedUpTo(subs, resps, n).modifications <==> k in prev.modifications || WritesAt(subs, resps, n - 1, k);
      if k in prev.modifications {
        var i :| 0 <= i < n - 1 && WritesAt(subs, resps, i, k);
      }
    }
  }

  /** Modifications merge in subscriber order: a key holds the value the last
      invoked handler that set it gave. */
  lemma {:induction false} LastWriterWins(subs: seq<Subscription>, resps: seq<HandlerResponse>, n: nat, k: string, i: nat)
    requires |subs| == |resps| && i < n <= |subs|
    requires WritesAt(subs, resps, i, k)
    requires forall j :: i < j < n ==> !WritesAt(subs, resps, j, k)
    ensures k in MergedUpTo(subs, resps, n).modifications
    ensures MergedUpTo(subs, resps, n).modifications[k] == resps[i].result.value.modifications[k]
  {
    if n - 1 > i {
      LastWriterWins(subs, resps, n - 1, k, i);
      assert !WritesAt(subs, resps, n - 1, k);
    }
  }

  // ---------------------------------------------------------------------------
  // The dispatcher object

  /** A Go map read of a subscription list: a missing key reads as empty. */
  function Lookup(m: map<EventType, seq<Subscription>>, e: EventType): seq<Subscription> {
    if e in m then m[e] else []
  }

  /** `m[e] += d` on a Go map of durations. */
  function AddTo(m: map<EventType, nat>, e: EventType, d: nat): map<EventType, nat> {
    m[e := Count(m, e) + d]
  }

  /** Inserting before the first higher priority keeps a list sorted. */
  lemma InsertKeepsSorted(list: seq<Subscription>, sub: Subscription, i: nat)
    requires SortedByPriority(list) && i <= |list|
    requires forall k :: 0 <= k < i ==> list[k].priority <= sub.priority
    requires i < |list| ==> list[i].priority > sub.priority
    ensures SortedByPriority(list[..i] + [sub] + list[i..])
  {
    var updated := list[..i] + [sub] + list[i..];
    assert forall k :: 0 <= k < i ==> updated[k] == list[k];
    assert updated[i] == sub;
    assert forall k :: i < k < |updated| ==> updated[k] == list[k - 1];
  }

  /** The place a new subscription goes: after every subscription of lower
      or equal priority. */
  method InsertionPoint(list: seq<Subscription>, sub: Subscription) returns (i: nat)
    ensures i <= |list|
    ensures forall k :: 0 <= k < i ==> list[k].priority <= sub.priority
    ensures i < |list| ==> list[i].priority > sub.priority
  {
    i := 0;
    while i < |list| && list[i].priority <= sub.priority
      invariant 0 <= i <= |list|
      invariant forall k :: 0 <= k < i ==> list[k].priority <= sub.priority
    {
      i := i + 1;
    }
  }

  predicate AllSorted(m: map<EventType, seq<Subscription>>) {
    forall e :: e in m ==> SortedByPriority(m[e])
  }

  /** Replacing one event's list by a sorted list keeps every list sorted and
      leaves the other events' lists as they were. */
  lemma ReplaceList(m: map<EventType, seq<Subscription>>, event: EventType, updated: seq<Subscription>)
    requires AllSorted(m)
    requires SortedByPriority(updated)
    ensures AllSorted(m[event := updated])
    ensures forall e :: e != event ==> Lookup(m[event := updated], e) == Lookup(m, e)
    ensures Lookup(m[event := updated], event) == updated
    ensures m[event := updated].Keys == m.Keys + {event}
  {
  }

  /** Inserting adds exactly the one subscription. */
  lemma InsertAddsOne(list: seq<Subscription>, sub: Subscription, i: nat)
    requires i <= |list|
    ensures multiset(list[..i] + [sub] + list[i..]) == multiset(list + [sub])
  {
    assert list == list[..i] + list[i..];
  }

  /** The lists after removing a plugin everywhere. */
  function FilterAll(m: map<EventType, seq<Subscription>>, pluginId: string): (r: map<EventType, seq<Subscription>>)
    ensures r.Keys == m.Keys
    ensures forall e :: e in m ==> r[e] == Filter(m[e], pluginId)
  {
    map e | e in m :: Filter(m[e], pluginId)
  }

  /** Part-way through `Unsubscribe`: the lists of `pending` events are still untouched. */
  function FilteredExcept(m: map<EventType, seq<Subscription>>, pending: set<EventType>, pluginId: string)
    : map<EventType, seq<Subscription>>
  {
    map e | e in m :: if e in pending then m[e] else Filter(m[e], pluginId)
  }

  lemma FilteredExceptStep(m: map<EventType, seq<Subscription>>, pending: set<EventType>, pluginId: string, e: EventType)
    requires e in pending && pending <= m.Keys
    ensures FilteredExcept(m, pending, pluginId)[e := Filter(m[e], pluginId)]
         == FilteredExcept(m, pending - {e}, pluginId)
  {
  }

  lemma FilteredExceptEnds(m: map<EventType, seq<Subscription>>, pluginId: string)
    ensures FilteredExcept(m, m.Keys, pluginId) == m
    ensures FilteredExcept(m, {}, pluginId) == FilterAll(m, pluginId)
  {
  }

  lemma FilterAllSorted(m: map<EventType, seq<Subscription>>, pluginId: string)
    requires forall e :: e in m ==> SortedByPriority(m[e])
    ensures forall e :: e in FilterAll(m, pluginId) ==> SortedByPriority(FilterAll(m, pluginId)[e])
  {
    forall e | e in m ensures SortedByPriority(Filter(m[e], pluginId)) {
      FilterSorted(m[e], pluginId);
    }
  }

  class Dispatcher {
    var subscriptions: map<EventType, seq<Subscription>>
    var eventCount: map<EventType, nat>
    var cancelCount: map<EventType, nat>
    var dispatchTimes: map<EventType, nat>

    /** Every list is sorted, and no event was cancelled more often than dispatched. */
    predicate Valid()
      reads this
    {
      && (forall e :: e in subscriptions ==> SortedByPriority(subscriptions[e]))
      && (forall e :: e in cancelCount ==> cancelCount[e] <= Count(eventCount, e))
    }

    function Subscribers(e: EventType): seq<Subscription>
      reads this
    {
      Lookup(subscriptions, e)
    }

    /** `NewDispatcher`: no subscriptions, no counts. */
    constructor ()
      ensures subscriptions == map[] && eventCount == map[] && cancelCount == map[] && dispatchTimes == map[]
      ensures Valid()
    {
      subscriptions := map[];
      eventCount := map[];
      cancelCount := map[];
      dispatchTimes := map[];
    }

    /** `Subscribe`: appends the subscription and re-sorts by priority. The Go
        sort is not stable, so the order among equal priorities is left open. */
    method Subscribe(event: EventType, sub: Subscription)
      requires Valid()
      modifies this
      ensures Valid()
      ensures subscriptions.Keys == old(subscriptions).Keys + {event}
      ensures forall e :: e != event ==> Subscribers(e) == old(Subscribers(e))
      ensures SortedByPriority(Subscribers(event))
      ensures multiset(Subscribers(event)) == multiset(old(Subscribers(event)) + [sub])
      ensures eventCount == old(eventCount) && cancelCount == old(cancelCount) && dispatchTimes == old(dispatchTimes)
    {
      var list := Subscribers(event);
      var i := InsertionPoint(list, sub);
      var updated := list[..i] + [sub] + list[i..];
      InsertKeepsSorted(list, sub, i);
      InsertAddsOne(list, sub, i);
      ReplaceList(subscriptions, event, updated);
      subscriptions := subscriptions[event := updated];
    }

    /** `Unsubscribe`: removes the plugin's subscriptions from every list. */
    method Unsubscribe(pluginId: string)
      requires Valid()
      modifies this
      ensures Valid()
      ensures subscriptions == FilterAll(old(subscriptions), pluginId)
      ensures eventCount == old(eventCount) && cancelCount == old(cancelCount) && dispatchTimes == old(dispatchTimes)
    {
      var pending := subscriptions.Keys;
      ghost var before := subscriptions;
      FilteredExceptEnds(before, pluginId);
      while pending != {}
        invariant pending <= before.Keys
        invariant subscriptions == FilteredExcept(before, pending, pluginId)
        invariant eventCount == old(eventCount) && cancelCount == old(cancelCount) && dispatchTimes == old(dispatchTimes)
        decreases pending
      {
        var e :| e in pending;
        FilteredExceptStep(before, pending, pluginId, e);
        subscriptions := subscriptions[e := Filter(subscriptions[e], pluginId)];
        pending := pending - {e};
      }
      FilterAllSorted(before, pluginId);
    }

    /** `UnsubscribeEvent`: removes the plugin's subscriptions from one list. */
    method UnsubscribeEvent(pluginId: string, event: EventType)
      requires Valid()
      modifies this
      ensures Valid()
      ensures subscriptions == old(subscriptions)[event := Filter(old(Subscribers(event)), pluginId)]
      ensures eventCount == old(eventCount) && cancelCount == old(cancelCount) && dispatchTimes == old(dispatchTimes)
    {
      FilterSorted(Subscribers(event), pluginId);
      subscriptions := subscriptions[event := Filter(Subscribers(event), pluginId)];
    }

    /** `Dispatch`: `responses[i]` is what subscriber `i`'s handler returns when
        invoked, `elapsed` the measured duration of the loop. */
    method Dispatch(event: EventType, responses: seq<HandlerResponse>, elapsed: nat) returns (r: DispatchResult)
      requires Valid()
      requires |responses| == |Subscribers(event)|
      modifies this
      ensures Valid()
      ensures subscriptions == old(subscriptions)
      ensures |Subscribers(event)| == 0 ==>
        r == EmptyResult && eventCount == old(eventCount) && cancelCount == old(cancelCount) && dispatchTimes == old(dispatchTimes)
      ensures |Subscribers(event)| > 0 ==>
        && r == MergedUpTo(Subscribers(event), responses, |responses|).(duration := elapsed)
        && eventCount == Increment(old(eventCount), event)
        && cancelCount == (if r.cancelled then Increment(old(cancelCount), event) else old(cancelCount))
        && dispatchTimes == AddTo(old(dispatchTimes), event, elapsed)
    {
      var subs := Subscribers(event);
      if |subs| == 0 {
        return EmptyResult;
      }
      r := EmptyResult;
      var i := 0;
      while i < |subs|
        invariant 0 <= i <= |subs|
        invariant r == MergedUpTo(subs, responses, i)
        decreases |subs| - i
      {
        var sub := subs[i];
        if r.cancelled && sub.ignoreCancelled {
          i := i + 1;
          continue;
        }
        match responses[i] {
          case HandlerError(e) =>
            r := r.(errors := r.errors + [e]);
          case HandlerOk(result) =>
            r := r.(handlers := r.handlers + 1);
            if result.Some? {
              if result.value.cancelled {
                r := r.(cancelled := true);
              }
              r := r.(modifications := r.modifications + result.value.modifications);
            }
        }
        i := i + 1;
      }
      r := r.(duration := elapsed);
      eventCount := Increment(eventCount, event);
      if r.cancelled {
        cancelCount := Increment(cancelCount, event);
      }
      dispatchTimes := AddTo(dispatchTimes, event, elapsed);
    }

    function HasSubscribers(event: EventType): (r: bool)
      reads this
      ensures r <==> SubscriberCount(event) > 0
    {
      |Subscribers(event)| > 0
    }

    function SubscriberCount(event: EventType): (n: nat)
      reads this
      ensures n == |Subscribers(event)|
      ensures event !in subscriptions ==> n == 0
    {
      |Subscribers(event)|
    }

    /** `ResetMetrics`: empties the three counter maps, subscriptions untouched. */
    method ResetMetrics()
      requires Valid()
      modifies this
      ensures Valid()
      ensures eventCount == map[] && cancelCount == map[] && dispatchTimes == map[]
      ensures subscriptions == old(subscriptions)
    {
      eventCount := map[];
      cancelCount := map[];
      dispatchTimes := map[];
    }
  }
}
