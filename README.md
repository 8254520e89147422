# dragonfly-wasm plugin framework: a verified model

This project models the core of dragonfly-wasm, a WebAssembly plugin host for
the Dragonfly Minecraft server. It covers both sides of the host/guest
boundary and proves properties about each.

The guest side is the example plugin `block-logger`. It refuses breaks of a
fixed list of valuable blocks and counts each player's broken, placed and
refused blocks. It also sends milestone notices and greets returning players.
The plugin receives events as an envelope, which is the event type, a zero
byte and a JSON payload. It answers with a one-byte cancel verdict.

The host side is the Go framework:

- the event dispatcher, with priority-ordered subscriptions and a merge of handler results;
- the plugin manager: its registry, load order, lifecycle transitions and event-handler gate;
- the two dependency orderings, Kahn's algorithm and a depth-first search;
- the manifest, with version order, ID pattern, validation and subscription lookup;
- the resource-limit policy and the enable/disable filter of the configuration;
- the plugin state and metrics record;
- the per-plugin key-value storage;
- the WASM runtime's instance registry and the runtime instance;
- the shared types and the error values with their messages.

Modules, one per component:

| file | module | component |
|---|---|---|
| `wrappers.dfy` | `Wrappers` | `Option`, `Result`, `Outcome` |
| `text.dfy` | `Text` | ASCII case mapping, substring tests, `split`, decimal printing and parsing, byte order of strings, UTF-8 |
| `types.dfy` | `Types` | `pkg/types/types.go` |
| `errors.dfy` | `Errors` | `pkg/types/errors.go` |
| `manifest.dfy` | `PluginManifest` | `pkg/plugin/manifest.go` |
| `config.dfy` | `Config` | `pkg/config/config.go` |
| `plugin_state.dfy` | `PluginInfo` | `pkg/plugin/state.go` |
| `dispatcher.dfy` | `Dispatcher` | `pkg/events/dispatcher.go` |
| `storage.dfy` | `Storage` | `internal/manager/storage.go` |
| `dependency_graph.dfy` | `DependencyGraph` | what the two dependency orderings share |
| `dependency_sort.dfy` | `DependencySort` | `sortByDependencies` in `internal/manager/manager.go` |
| `loader.dfy` | `Loader` | `internal/manager/loader.go` |
| `lifecycle.dfy` | `Lifecycle` | the enable/disable transitions that the manager and the runtime instance share |
| `guest.dfy` | `Guest` | how the host reads a guest call: its outcome, `parseEventResult`, and the timed context's error |
| `manager.dfy` | `PluginManager` | `internal/manager/manager.go` (registry, lifecycle, event handler) |
| `runtime.dfy` | `Runtime` | `internal/runtime/runtime.go` |
| `instance.dfy` | `RuntimeInstance` | `internal/runtime/instance.go` |
| `block_logger.dfy` | `BlockLogger` | `examples/plugins/block-logger/src/lib.rs` |
| `wire.dfy` | `Wire` | the envelope and verdict that pass between the manager and the block logger |

Objects whose fields the source updates in place are classes, with
`modifies` frames on their methods. These are the dispatcher, the
block logger's statistics map, the metrics record, the storages, the
manager, the runtime registry and its instances, and the validation-error
list. Each such method is proved against a specification function on
values. The properties are lemmas about those functions.

Everything outside the model is a parameter:

- how a call into WASM code ends, and whether an optional export exists;
- the JSON decoding of a payload;
- the clock;
- the outcome of a disk write.

## Model

| member | source | states |
|---|---|---|
| BlockLogger.AnyMatchIff | examples/plugins/block-logger/src/lib.rs:128 | `any` over the denylist from index k holds iff some entry at or after k matches |
| BlockLogger.IsProtected | examples/plugins/block-logger/src/lib.rs:126-129 | a block type is protected iff some denylist entry matches its lowercased form |
| BlockLogger.ProtectedNamesTrimmed | examples/plugins/block-logger/src/lib.rs:10-15 | trimming `minecraft:` from each of the four entries leaves the bare names diamond_ore, deepslate_diamond_ore, ancient_debris, spawner |
| BlockLogger.ProtectedIff | examples/plugins/block-logger/src/lib.rs:126-129 | protected iff the lowercased type contains an entry or ends with an entry minus its `minecraft:` prefix |
| BlockLogger.ProtectedIgnoresCase | examples/plugins/block-logger/src/lib.rs:127 | upper- or lower-casing the block type does not change the verdict |
| BlockLogger.ProtectedAnyNamespace | examples/plugins/block-logger/src/lib.rs:128 | any type, of any namespace, whose lowercased form ends with a protected name is protected |
| BlockLogger.OtherModDebrisProtected | examples/plugins/block-logger/src/lib.rs:128 | `othermod:ancient_debris` is protected |
| BlockLogger.ShortNotProtected | examples/plugins/block-logger/src/lib.rs:126-129 | a type shorter than seven characters (such as `stone`) is never protected |
| BlockLogger.ExtractBlockName | examples/plugins/block-logger/src/lib.rs:227-229 | the result is a `:`-free suffix of the input that follows a `:` when there is one, and the whole input otherwise |
| BlockLogger.ExtractNamespaced | examples/plugins/block-logger/src/lib.rs:227-229 | `namespace:name` gives back `name` |
| BlockLogger.StatsUpdated | examples/plugins/block-logger/src/lib.rs:118-124 | the player's record is created if absent and only its chosen counter moves by one; every other player's record is unchanged |
| BlockLogger.StatsOf | examples/plugins/block-logger/src/lib.rs:114-116 | a player's stored record, or all three counters zero for a player never seen |
| BlockLogger.MilestoneMod | examples/plugins/block-logger/src/lib.rs:189-204 | the milestone test is exactly divisibility by 50 |
| BlockLogger.NoticesToAppend | examples/plugins/block-logger/src/lib.rs:104-112 | notices to a player add up over concatenated host-call logs |
| BlockLogger.BreakOutcome | examples/plugins/block-logger/src/lib.rs:172-195 | protected: denied +1, a protection notice then a warn log, result cancelled; otherwise broken +1, a milestone notice iff the new count is a multiple of 50, a debug log, default result; other players untouched |
| BlockLogger.BreakEffect | examples/plugins/block-logger/src/lib.rs:172-195 | the break is cancelled iff the block is protected, without modifications; it counts once for that player, as denied exactly when protected and as broken otherwise; other players are untouched |
| BlockLogger.PlaceEffect | examples/plugins/block-logger/src/lib.rs:197-210 | placed +1, milestone notice iff the new count is a multiple of 50, debug log, default result, other players untouched |
| BlockLogger.JoinEffect | examples/plugins/block-logger/src/lib.rs:212-225 | statistics unchanged; a welcome notice iff broken > 0 or placed > 0, then an info log; default result |
| BlockLogger.WelcomeIff | examples/plugins/block-logger/src/lib.rs:216-221 | a join sends the player exactly one notice iff they broke or placed a block, and never more than one |
| BlockLogger.RunsAgree | examples/plugins/block-logger/src/lib.rs:176-194 | a run of breaks over unprotected blocks takes the unprotected branch every time |
| BlockLogger.BreakNotices | examples/plugins/block-logger/src/lib.rs:186-191 | one unprotected break raises broken to n and sends one notice iff n is a multiple of 50 |
| BlockLogger.MilestonesAfterCount | examples/plugins/block-logger/src/lib.rs:189 | the multiples of 50 in b+1..b+n number (b+n)/50 - b/50 |
| BlockLogger.MilestoneStep | examples/plugins/block-logger/src/lib.rs:189 | one more block passes a multiple of 50 exactly when the new count is one |
| BlockLogger.RunCount | examples/plugins/block-logger/src/lib.rs:186 | k unprotected breaks raise the player's broken count by k |
| BlockLogger.RunMilestones | examples/plugins/block-logger/src/lib.rs:186-191 | k unprotected breaks send one notice per multiple of 50 reached |
| BlockLogger.FreshBreakMilestones | examples/plugins/block-logger/src/lib.rs:186-191 | from a player with no record, N unprotected breaks leave broken = N and send exactly N/50 milestone notices |
| BlockLogger.FirstZero | examples/plugins/block-logger/src/lib.rs:151 | the index of the first zero byte, or the length when there is none |
| BlockLogger.SplitEnvelope | examples/plugins/block-logger/src/lib.rs:151-153 | the tag holds no zero byte; with a zero the envelope is tag + [0] + payload; without one the tag is the whole envelope and the payload is empty |
| BlockLogger.DecodeTag | examples/plugins/block-logger/src/lib.rs:152 | an ASCII tag decodes byte for byte; a tag with a byte of 128 or more becomes "" |
| BlockLogger.EncodeResult | examples/plugins/block-logger/src/lib.rs:162-169 | the first byte is 1 iff cancelled and 0 otherwise; without modifications the output is that one byte |
| BlockLogger.HandleEffect | examples/plugins/block-logger/src/lib.rs:155-162 | no modifications ever; cancelled only for `block_break`; an unknown tag changes nothing and emits nothing |
| BlockLogger.OutputIsOneByte | examples/plugins/block-logger/src/lib.rs:150-170 | the output of `handle_event` is always exactly one byte, 1 iff cancelled |
| BlockLogger.FirstZeroIs | examples/plugins/block-logger/src/lib.rs:151 | the scan for the separator stops at the first zero byte, or at the end |
| BlockLogger.BlockLogger.constructor | examples/plugins/block-logger/src/lib.rs:6-8 | statistics start empty and no host call has been made |
| BlockLogger.BlockLogger.GetStats | examples/plugins/block-logger/src/lib.rs:114-116 | the stored record, or a zero record for a player never updated |
| BlockLogger.BlockLogger.UpdateStats | examples/plugins/block-logger/src/lib.rs:118-124 | the statistics become `StatsUpdated` of the old ones; no host call |
| BlockLogger.BlockLogger.Log | examples/plugins/block-logger/src/lib.rs:97-102 | appends one log call; statistics unchanged |
| BlockLogger.BlockLogger.Notify | examples/plugins/block-logger/src/lib.rs:104-112 | appends one send-message call; statistics unchanged |
| BlockLogger.BlockLogger.PluginInit | examples/plugins/block-logger/src/lib.rs:131-135 | logs "block protection initialized" at info |
| BlockLogger.BlockLogger.OnEnable | examples/plugins/block-logger/src/lib.rs:137-141 | logs "block protection enabled" at info |
| BlockLogger.BlockLogger.OnDisable | examples/plugins/block-logger/src/lib.rs:143-147 | logs "block protection disabled" at info |
| BlockLogger.BlockLogger.OnBlockBreak | examples/plugins/block-logger/src/lib.rs:172-195 | a payload that does not decode changes nothing; otherwise statistics, host calls and result are those of `BreakEffect` |
| BlockLogger.BlockLogger.OnBlockPlace | examples/plugins/block-logger/src/lib.rs:197-210 | a payload that does not decode changes nothing; otherwise the effect is `PlaceEffect` |
| BlockLogger.BlockLogger.OnPlayerJoin | examples/plugins/block-logger/src/lib.rs:212-225 | a payload that does not decode changes nothing; otherwise the effect is `JoinEffect` |
| BlockLogger.BlockLogger.HandleEvent | examples/plugins/block-logger/src/lib.rs:149-170 | statistics and host calls follow `HandleEffect`, and the output is `EncodeResult` of its result |
| Dispatcher.Filter | pkg/events/dispatcher.go:63-65 | removing a plugin's subscriptions never lengthens a list |
| Dispatcher.FilterMembers | pkg/events/dispatcher.go:63-65 | what remains is exactly the subscriptions of other plugins |
| Dispatcher.FilterAppend | pkg/events/dispatcher.go:63-65 | the removal keeps the relative order of the rest (it distributes over concatenation) |
| Dispatcher.FilterAbsent | pkg/events/dispatcher.go:63-65 | a list without the plugin's subscriptions is left as it is |
| Dispatcher.FilterSorted | pkg/events/dispatcher.go:63-65 | the removal keeps a list sorted by priority |
| Dispatcher.CancelledIff | pkg/events/dispatcher.go:103-128 | the merged result is cancelled iff some invoked handler returned a cancelled result |
| Dispatcher.CancelStays | pkg/events/dispatcher.go:121-123 | once the result is cancelled it stays cancelled |
| Dispatcher.SkippedAfterCancel | pkg/events/dispatcher.go:104-106 | after a handler cancelled, a later subscription with IgnoreCancelled is not invoked |
| Dispatcher.Step | pkg/events/dispatcher.go:103-127 | a skipped subscription leaves the result as it is; a failure appends its error; a success counts one handler, cancels if it asks to, and copies its modifications over earlier values |
| Dispatcher.StepCounts | pkg/events/dispatcher.go:108-119 | one step adds one to Handlers for a success, or appends the error for a failure, and nothing for a skipped subscription |
| Dispatcher.OkSetMembers | pkg/events/dispatcher.go:103-119 | a subscriber is counted as a success exactly when its handler ran and returned without error |
| Dispatcher.ErrorSetMembers | pkg/events/dispatcher.go:103-117 | a subscriber is counted as a failure exactly when its handler ran and returned an error |
| Dispatcher.HandlersCount | pkg/events/dispatcher.go:119 | Handlers equals the number of invoked handlers that succeeded |
| Dispatcher.ErrorsCount | pkg/events/dispatcher.go:109-117 | Errors has one entry per invoked handler that failed |
| Dispatcher.ErrorsFromHandlers | pkg/events/dispatcher.go:109-110 | every entry of Errors is the error of an invoked failing handler |
| Dispatcher.ModifiedIff | pkg/events/dispatcher.go:124-126 | a key is in the merged modifications iff some invoked successful handler set it |
| Dispatcher.LastWriterWins | pkg/events/dispatcher.go:124-126 | a key holds the value of the last invoked handler that set it |
| Dispatcher.InsertKeepsSorted | pkg/events/dispatcher.go:52-55 | inserting before the first higher priority keeps a list sorted |
| Dispatcher.InsertAddsOne | pkg/events/dispatcher.go:52 | the insertion adds exactly the one subscription |
| Dispatcher.FilterAll | pkg/events/dispatcher.go:62-66 | every event keeps its key and its list loses exactly the plugin's subscriptions |
| Dispatcher.FilterAllSorted | pkg/events/dispatcher.go:62-66 | removing a plugin everywhere keeps every list sorted |
| Dispatcher.Dispatcher.constructor | pkg/events/dispatcher.go:38-46 | no subscriptions and empty counter maps |
| Dispatcher.Dispatcher.Subscribe | pkg/events/dispatcher.go:48-56 | the event's list becomes the old list plus the subscription (as a multiset), sorted by non-decreasing priority; other lists and the counters are unchanged |
| Dispatcher.Dispatcher.Unsubscribe | pkg/events/dispatcher.go:58-67 | every list loses exactly the plugin's subscriptions, in order; counters unchanged |
| Dispatcher.Dispatcher.UnsubscribeEvent | pkg/events/dispatcher.go:69-76 | only the named event's list loses the plugin's subscriptions |
| Dispatcher.Dispatcher.Dispatch | pkg/events/dispatcher.go:90-141 | with no subscribers, an empty result and no counter change; otherwise the result is the in-order merge of the handler responses, eventCount[e] +1, cancelCount[e] +1 iff cancelled, the duration added; cancelCount <= eventCount is kept |
| Dispatcher.Dispatcher.HasSubscribers | pkg/events/dispatcher.go:156-160 | true iff the subscriber count is positive |
| Dispatcher.Dispatcher.SubscriberCount | pkg/events/dispatcher.go:162-166 | the length of the event's list, 0 for an event never subscribed |
| Dispatcher.Dispatcher.ResetMetrics | pkg/events/dispatcher.go:191-198 | the three counter maps become empty; subscriptions unchanged |
| PluginManager.Without | internal/manager/manager.go:434 | deleting an id from the load order keeps exactly the other ids, and leaves a list without it unchanged |
| PluginManager.WithoutAppend | internal/manager/manager.go:434 | the deletion keeps the relative order of the remaining ids |
| PluginManager.WithoutDistinct | internal/manager/manager.go:434 | the deletion keeps a load order without repeats |
| PluginManager.SubscriptionsForCount | internal/manager/manager.go:281-290 | a plugin gets exactly one subscription to an event per manifest entry naming it |
| PluginManager.SubscribedIff | internal/manager/manager.go:281-290 | the manager subscribes a plugin to an event iff its manifest lists that event |
| PluginManager.Envelope | internal/manager/manager.go:306-307 | the envelope is the event type's bytes, one zero byte, then the data |
| PluginManager.HandlerMetrics | internal/manager/manager.go:322-335 | a timeout or a failing call counts one error; every call that came back counts one call |
| PluginManager.HandlerResult | internal/manager/manager.go:322-337 | the handler fails iff the call did not complete, with the guest's own error when it raised one; a completed call yields the parsed verdict |
| PluginManager.NotFound | internal/manager/manager.go:355 | "plugin <id> not found", from which the ID reads back |
| PluginManager.AlreadyLoaded | internal/manager/manager.go:219 | "plugin <id> already loaded", from which the ID reads back |
| PluginManager.CannotEnable | internal/manager/manager.go:366 | "plugin <id> cannot be enabled in state <state>", naming the ID and ending with the state's name |
| PluginManager.HandlerTimeout | internal/manager/manager.go:325 | "handler timeout for <event>", ending with the event type |
| PluginManager.Enabling | internal/manager/manager.go:361-382 | an enabled plugin is left alone with no error; only Loaded or Disabled may be enabled, any other state reports "cannot be enabled"; a failing on_enable ends in Error, records the error and reports "enable callback failed" |
| PluginManager.Removed | internal/manager/manager.go:433-434 | deleting an id from the records and the load order keeps the registry invariant |
| PluginManager.Manager.constructor | internal/manager/manager.go:68-81 | no plugins, an empty load order and a dispatcher with no subscriptions |
| PluginManager.Manager.Register | internal/manager/manager.go:218-275 | an id already loaded is an error that changes nothing; otherwise the plugin is recorded as Loaded with zero metrics, appended to the load order, and its manifest's subscriptions added to the dispatcher |
| PluginManager.Manager.RegisterHandlers | internal/manager/manager.go:281-290 | each event's list gains exactly the plugin's subscriptions for it (as a multiset) and stays sorted; counters unchanged |
| PluginManager.Manager.EnablePlugin | internal/manager/manager.go:349-383 | an unknown id is "not found"; otherwise only that record changes, as `Enabling` says |
| PluginManager.Manager.DisablePlugin | internal/manager/manager.go:385-411 | an unknown id is "not found"; otherwise no error, Enabled becomes Disabled whatever on_disable does, any other state is kept |
| PluginManager.Manager.UnloadPlugin | internal/manager/manager.go:413-439 | an unknown id is "not found" and changes nothing; otherwise the record is removed, the id deleted from the load order keeping the others' order, and no subscription of the plugin remains on any event |
| PluginManager.Manager.HandleEvent | internal/manager/manager.go:292-339 | a plugin neither Enabled nor Loaded is skipped with no result; otherwise the guest gets the envelope, the result is `HandlerResult` and only that plugin's metrics change, as `HandlerMetrics` says with the timed context's error |
| PluginManager.UnsubscribedEverywhere | internal/manager/manager.go:429 | after the plugin is unsubscribed, no event's list holds a subscription of it |
| Loader.LoadErrorMessage | internal/manager/loader.go:22-24 | the message is "failed to load plugin <id> from <path>: " followed by the cause's message, and nothing else |
| Loader.Unwrap | internal/manager/loader.go:26 | the cause is what the message ends with |
| Loader.ById | internal/manager/loader.go:130-133 | the map's keys are exactly the input IDs, and each maps to an input plugin with that ID |
| Loader.ByIdLast | internal/manager/loader.go:131-133 | a later plugin with the same ID replaces an earlier one |
| Loader.ByIdDistinct | internal/manager/loader.go:131-133 | with distinct IDs each plugin is the one its ID maps to |
| Loader.IndexPlugins | internal/manager/loader.go:130-133 | the loop builds exactly `ById` of the input |
| Loader.MissingIn | internal/manager/loader.go:136-140 | the first non-optional dependency absent from the map, if any |
| Loader.MissingMessage | internal/manager/loader.go:138 | "plugin <id> requires missing dependency: <dep>", naming the plugin and ending with the dependency |
| Loader.CheckMissing | internal/manager/loader.go:135-141 | the first plugin, in input order, with a missing required dependency, and that dependency |
| Loader.PrereqsOf | internal/manager/loader.go:156-173 | what a plugin must follow names only discovered plugins; absent optional dependencies and absent LoadAfter IDs are skipped |
| Loader.CycleRefutes | internal/manager/loader.go:152-154 | a set of plugins each naming another member contradicts acyclicity |
| Loader.CycleMessage | internal/manager/loader.go:153 | "circular dependency detected involving: <id>", ending with the ID |
| Loader.ResolvedAcyclic | internal/manager/loader.go:163-177 | an order placing every plugin after everything it names exists only when there is no cycle |
| Loader.ResolvedPermutation | internal/manager/loader.go:149-185 | with distinct IDs a resolution has the input's length and exactly its plugins |
| Loader.ClosePath | internal/manager/loader.go:152-154 | meeting an ID that is still being visited closes a cycle through it |
| Loader.PrereqsDone | internal/manager/loader.go:163-173 | once both loops finish, every present dependency and LoadAfter ID is finished |
| Loader.Push | internal/manager/loader.go:161 | marking a named plugin as visiting extends the chain of calls in progress |
| Loader.Append | internal/manager/loader.go:175-177 | appending a plugin whose prerequisites are finished keeps the output distinct, as mapped, and dependencies first |
| Loader.Resolver.constructor | internal/manager/loader.go:143-145 | no plugin visited or visiting, empty output |
| Loader.Resolver.Visit | internal/manager/loader.go:148-179 | on success the plugin is finished and the output still lists each finished plugin once after its prerequisites; on failure the error names a plugin on a genuine cycle, "circular dependency detected involving: <id>" |
| Loader.Resolver.VisitDependencies | internal/manager/loader.go:163-167 | every present dependency ends finished, or a cycle is reported |
| Loader.Resolver.VisitLoadAfter | internal/manager/loader.go:169-173 | every present LoadAfter ID ends finished, or a cycle is reported |
| Loader.Resolver.VisitAll | internal/manager/loader.go:181-185 | every discovered plugin ends finished, or a cycle is reported |
| Loader.AllFinished | internal/manager/loader.go:181-185 | visiting each input plugin finishes every mapped ID |
| Loader.ResolveDependencies | internal/manager/loader.go:129-188 | a missing required dependency fails first with its message; otherwise success iff the plugins have no dependency cycle, the result lists each plugin once, as discovered, after every present dependency and LoadAfter target; failure names a plugin on a cycle |
| DependencyGraph.Ids | internal/manager/manager.go:152-155 | the IDs of the manifests, position by position |
| DependencyGraph.ElemsBound | internal/manager/manager.go:208 | a list of IDs has no more distinct IDs than entries |
| DependencyGraph.DistinctSeqCard | internal/manager/manager.go:208 | a list of IDs has no repeats iff its set of IDs is as large as the list |
| DependencyGraph.IdSetIsElems | internal/manager/manager.go:152-155 | the ID set is the set of the ID list, and distinct manifests give a list without repeats and back |
| DependencyGraph.IdSetCard | internal/manager/manager.go:152-155 | plugin IDs are distinct iff there are as many IDs as manifests |
| DependencyGraph.DepIds | internal/manager/manager.go:171-174 | the present dependencies, in order; all of them present |
| DependencyGraph.AfterIds | internal/manager/manager.go:177-182 | the present LoadAfter IDs, in order; all of them present |
| DependencyGraph.PrereqIds | internal/manager/manager.go:165-182 | everything a manifest must follow names a present plugin |
| DependencyGraph.DepIdsMembers | internal/manager/manager.go:171-174 | an ID is a present dependency iff it is present and some dependency names it; optional and required alike |
| DependencyGraph.AfterIdsMembers | internal/manager/manager.go:177-182 | an ID is a present LoadAfter target iff it is present and listed; absent ones are skipped |
| DependencyGraph.MissingDep | internal/manager/manager.go:165-170 | none iff every required dependency is present; otherwise the first required dependency that is absent |
| DependencyGraph.FirstMissing | internal/manager/manager.go:160-170 | none iff no manifest has a missing required dependency; otherwise the first such manifest, in input order, with its first missing dependency |
| DependencyGraph.NoneMissingStep | internal/manager/manager.go:165-170 | one more dependency either is the first missing one or extends the checked prefix |
| DependencyGraph.NoPluginMissingStep | internal/manager/manager.go:160-170 | one more manifest either holds the first missing dependency or extends the checked prefix |
| DependencyGraph.FirstIn | internal/manager/manager.go:193-206 | when some member of a set occurs in an order there is a first one |
| DependencyGraph.InsertSorted | internal/manager/manager.go:202-203 | appending a new ID and sorting gives a strictly sorted queue holding exactly the old IDs and the new one |
| DependencyGraph.SortedHead | internal/manager/manager.go:195 | the head of a sorted queue is lexicographically below every other entry |
| DependencyGraph.SortedDistinct | internal/manager/manager.go:191 | a strictly sorted queue has no repeats |
| DependencySort.EdgesTo | internal/manager/manager.go:172-180 | one edge from each prerequisite to the plugin, in order |
| DependencySort.EdgesOf | internal/manager/manager.go:160-183 | every edge runs from a present plugin to an input plugin |
| DependencySort.EdgesOfMembers | internal/manager/manager.go:160-183 | an edge p -> x exists iff x names p as a present dependency or LoadAfter ID |
| DependencySort.PendingZero | internal/manager/manager.go:186-201 | a plugin's pending in-degree is zero iff every edge into it comes from an emitted plugin |
| DependencySort.OccAppend | internal/manager/manager.go:199-200 | occurrences in a list of dependents add up over concatenation |
| DependencySort.Release | internal/manager/manager.go:199-200 | emitting d lowers each in-degree by exactly the number of edges from d |
| DependencySort.TargetsWithin | internal/manager/manager.go:199 | every dependent listed for a plugin is an input plugin |
| DependencySort.InDegrees | internal/manager/manager.go:157-183 | the in-degree map has exactly the input IDs as keys |
| DependencySort.InDegreesCount | internal/manager/manager.go:160-183 | each in-degree counts the edges into that plugin |
| DependencySort.DependentsTargets | internal/manager/manager.go:173-180 | the dependents list of d is the targets of d's edges, in edge order |
| DependencySort.InDegreesAddKey | internal/manager/manager.go:161-163 | a new ID with no edge into it starts at zero |
| DependencySort.TracksAddKey | internal/manager/manager.go:161-163 | an ID already seen keeps its count; a new one starts at zero |
| DependencySort.TracksAddEdge | internal/manager/manager.go:172-180 | incrementing the in-degree and appending the dependent counts one more edge |
| DependencySort.CycleRefutes | internal/manager/manager.go:208-210 | a set of plugins each following another member contradicts acyclicity |
| DependencySort.OrderedAcyclic | internal/manager/manager.go:193-210 | an order that puts every prerequisite first rules out every cycle |
| DependencySort.DependenciesFirst | internal/manager/manager.go:171-210 | in a successful ordering every present dependency and LoadAfter target comes before the plugin naming it |
| DependencySort.SubsetCard | internal/manager/manager.go:208 | a subset of the IDs that is as large as the set is the whole set |
| DependencySort.AddEdge | internal/manager/manager.go:172-173 | in-degrees and dependents count one more edge |
| DependencySort.AddDependencyEdges | internal/manager/manager.go:165-175 | fails on the first missing required dependency; otherwise counts an edge for each present dependency |
| DependencySort.AddLoadAfterEdges | internal/manager/manager.go:177-182 | counts an edge for each present LoadAfter ID |
| DependencySort.AddPluginEdges | internal/manager/manager.go:165-182 | a plugin's dependency edges, then its LoadAfter edges, or its first missing dependency |
| DependencySort.CountPlugin | internal/manager/manager.go:160-183 | one plugin of the counting loop: an in-degree entry and its edges, or its missing dependency |
| DependencySort.BuildGraph | internal/manager/manager.go:157-183 | the first missing dependency in input order, or in-degrees and dependents that count exactly the graph's edges |
| DependencySort.InitialQueue | internal/manager/manager.go:185-191 | the first queue is strictly sorted and holds exactly the plugins of in-degree zero |
| DependencySort.ReleaseDependents | internal/manager/manager.go:199-205 | after releasing the emitted plugin's dependents, the in-degrees count only edges from unemitted plugins and the queue is sorted and holds exactly the unemitted ready plugins |
| DependencySort.PopStep | internal/manager/manager.go:194-197 | the queue's head is an unemitted plugin and the smallest ready one; emitting it keeps the loop invariant |
| DependencySort.KahnStuck | internal/manager/manager.go:208-210 | when the queue runs dry early, the unemitted plugins form a cycle |
| DependencySort.IndexById | internal/manager/manager.go:152-155 | the map's keys are exactly the input IDs, each mapped to an input manifest with that ID |
| DependencySort.KahnShort | internal/manager/manager.go:208-210 | emitting fewer plugins than manifests means duplicate IDs or a cycle |
| DependencySort.SortByDependencies | internal/manager/manager.go:151-212 | a missing required dependency fails first with its message; otherwise success iff IDs are distinct and there is no cycle, failure is "circular dependency detected", and the result is every manifest once, prerequisites first, each the smallest ready plugin when emitted |
| DependencySort.Through | internal/manager/manager.go:197 | the result lists the manifests of the emitted IDs in emission order |
| DependencySort.KahnLoop | internal/manager/manager.go:193-206 | the emitted plugins are distinct, each the smallest ready one when emitted, and the queue ends empty |
| DependencySort.KahnStart | internal/manager/manager.go:185-191 | the initial queue and in-degrees satisfy the loop invariant |
| DependencySort.KahnDone | internal/manager/manager.go:208-211 | when every manifest was emitted the IDs are distinct, the result is a Kahn ordering and no cycle exists |
| DependencySort.LeastReadyHead | internal/manager/manager.go:194-195 | the head of the sorted queue is the lexicographically smallest ready plugin |
| PluginManifest.CompareInt | pkg/plugin/manifest.go:21-27 | -1, 0 or 1 exactly as the first integer is below, equal to or above the second |
| PluginManifest.Compare | pkg/plugin/manifest.go:20-28 | -1, 0 or 1 exactly as the version sorts before, equals or sorts after the other, lexicographically on (major, minor, patch) |
| PluginManifest.CompareAntisymmetric | pkg/plugin/manifest.go:20-28 | comparing the other way flips the sign, and a version compares equal to itself |
| PluginManifest.CompareTransitive | pkg/plugin/manifest.go:20-28 | the order is transitive |
| PluginManifest.VersionString | pkg/plugin/manifest.go:16-18 | "Major.Minor.Patch" in decimal, which reads back as the same version |
| PluginManifest.VersionStringSplits | pkg/plugin/manifest.go:16-18 | the printed version splits at its dots into exactly the three printed numbers |
| PluginManifest.SubscribedTo | pkg/plugin/manifest.go:139-146 | true iff some subscription names the event |
| PluginManifest.GetEventPriority | pkg/plugin/manifest.go:148-155 | the priority of the first subscription naming the event, or PriorityNormal (0) when none does |
| PluginManifest.ScanCorrect | pkg/plugin/manifest.go:121 | each state of the character-by-character matcher accepts exactly what its description says |
| PluginManifest.ScanMatchesPattern | pkg/plugin/manifest.go:121 | the matcher accepts exactly the IDs of at least two dot-separated segments, each a lowercase letter followed by lowercase letters, digits or underscores |
| PluginManifest.IsValidId | pkg/plugin/manifest.go:121-127 | the ID test is exactly the pattern |
| PluginManifest.QuoteChar | pkg/plugin/manifest.go:128 | `%q`'s escape of one character: copied as it is exactly when it needs no escape |
| PluginManifest.Quote | pkg/plugin/manifest.go:128 | `%q` wraps the escaped text in double quotes |
| PluginManifest.QuotePlain | pkg/plugin/manifest.go:128 | a string with nothing to escape is quoted as it is |
| PluginManifest.UnescapeQuote | pkg/plugin/manifest.go:128 | the quoted text reads back as the original, so the message names the rejected ID exactly |
| PluginManifest.QuoteEscapesQuote | pkg/plugin/manifest.go:128 | an ID holding a double quote gets it backslash-escaped, as Go prints it |
| PluginManifest.Validate | pkg/plugin/manifest.go:123-137 | passes iff the ID is non-empty and matches the pattern and the name and entry point are non-empty; otherwise the first failing check's message, in order, the rejected ID quoted as `%q` quotes it |
| PluginManifest.ValidIdShape | pkg/plugin/manifest.go:121 | an accepted ID has at least three characters, starts with a lowercase letter, holds a dot and does not end with one |
| PluginManifest.JoinFacts | pkg/plugin/manifest.go:121 | joining two or more segments with dots gives such a shape |
| Config.IsPluginEnabled | pkg/config/config.go:127-135 | a disabled-listed plugin is never enabled (disabled wins); otherwise an empty enabled list admits every plugin and a non-empty one exactly its members |
| Config.GetEffectiveLimits | pkg/config/config.go:137-153 | each field is at most its global limit; an unset (zero) field takes the default, capped; a set field within the global limit is kept; one above it becomes the global limit |
| Config.EffectiveLimitsIdempotent | pkg/config/config.go:137-153 | with positive defaults and global limits, applying the policy twice equals applying it once |
| Config.DefaultConfig | pkg/config/config.go:67-93 | default limits are the manifest defaults, global limits are {256, 1000, 10_000_000}, a manifest with no limits runs with exactly the manifest defaults, and every plugin is enabled |
| Config.DefaultRuntimeConfig | pkg/config/config.go:59-65 | 64 MiB of memory, a 100 ms event timeout, a fuel budget of one million, fuel metering off |
| PluginInfo.StateString | pkg/plugin/state.go:22-28 | "unknown" exactly for values past the last state; every other state gets its own name from the list, which reads back as that state |
| PluginInfo.Increment | pkg/plugin/state.go:70-72 | a Go map increment: the key's count (zero when absent) rises by one and no other count changes |
| PluginInfo.CallRecorded | pkg/plugin/state.go:53-64 | calls +1, the duration added and kept as the last, max the larger of the old max and the duration, average the floor of total/calls; every other field unchanged |
| PluginInfo.EventRecorded | pkg/plugin/state.go:66-74 | the event's handled count +1, its cancelled count +1 only when cancelled, every other event and field unchanged |
| PluginInfo.ErrorRecorded | pkg/plugin/state.go:76-83 | error count +1 and the message kept as the last error; nothing else changes |
| PluginInfo.MemoryRecorded | pkg/plugin/state.go:85-93 | usage = bytes, peak the larger of the old peak and bytes; nothing else changes |
| PluginInfo.ZeroConsistent | pkg/plugin/state.go:46-51 | fresh metrics satisfy the metrics invariant |
| PluginInfo.CallRecordedConsistent | pkg/plugin/state.go:53-64 | recording a call keeps the invariant (average = total / calls, last <= max <= total) and the maximum is at least the new duration |
| PluginInfo.EventRecordedConsistent | pkg/plugin/state.go:66-74 | recording an event adds one to its handled count and one to its cancelled count iff cancelled, so cancelled <= handled per event is kept |
| PluginInfo.MemoryRecordedConsistent | pkg/plugin/state.go:85-93 | recording memory keeps usage <= peak and never lowers the peak |
| PluginInfo.CallsFromZero | pkg/plugin/state.go:53-64 | from fresh metrics, n calls leave the count n, the total their sum, the largest and the last duration, and the mean rounded down |
| PluginInfo.Metrics.constructor | pkg/plugin/state.go:46-51 | every counter zero and both event maps empty |
| PluginInfo.Metrics.RecordCall | pkg/plugin/state.go:53-64 | calls +1, the duration added to the total, last = duration, max = max(old, duration), average = total / calls; nothing else changes; invariant kept |
| PluginInfo.Metrics.RecordEvent | pkg/plugin/state.go:66-74 | handled[e] +1, cancelled[e] +1 only when cancelled, other keys unchanged; invariant kept |
| PluginInfo.Metrics.RecordError | pkg/plugin/state.go:76-83 | error count +1 and the message stored as the last error |
| PluginInfo.Metrics.RecordMemory | pkg/plugin/state.go:85-93 | usage = bytes, peak = max(peak, bytes) |
| PluginInfo.Metrics.Snapshot | pkg/plugin/state.go:95-113 | a copy equal to the current values, which satisfies the invariant |
| PluginInfo.Info.constructor | pkg/plugin/state.go:126-134 | the given manifest and paths, state unloaded, fresh zero metrics |
| Storage.Stored | internal/manager/storage.go:155-164 | after a set the key reads back as the value, and the plugin has a map |
| Storage.Deleted | internal/manager/storage.go:166-174 | after a delete the key is absent, and no plugin map appears or disappears |
| Storage.Cleared | internal/manager/storage.go:176-182 | after a clear no key of the plugin is found and its map is gone |
| Storage.StoredFrame | internal/manager/storage.go:155-164 | a set changes no other (plugin, key) entry |
| Storage.DeletedFrame | internal/manager/storage.go:166-174 | a delete changes no other (plugin, key) entry |
| Storage.DeletedAbsent | internal/manager/storage.go:170-173 | deleting an absent key, or from an absent plugin, changes nothing |
| Storage.ClearedFrame | internal/manager/storage.go:176-182 | a clear leaves every other plugin's data as it was |
| Storage.SetThenDelete | internal/manager/storage.go:155-174 | setting a key and deleting it leaves every entry but that key as it was, and the key absent |
| Storage.MemoryStorage.constructor | internal/manager/storage.go:140-142 | no data |
| Storage.MemoryStorage.Get | internal/manager/storage.go:144-153 | found iff both plugin and key are present, then with the stored value; an absent plugin or key gives no value and no error |
| Storage.MemoryStorage.Set | internal/manager/storage.go:155-164 | the data becomes `Stored`; never an error |
| Storage.MemoryStorage.Delete | internal/manager/storage.go:166-174 | the data becomes `Deleted`; never an error |
| Storage.MemoryStorage.Clear | internal/manager/storage.go:176-182 | the data becomes `Cleared`; never an error |
| Storage.MemoryStorage.Close | internal/manager/storage.go:184 | never an error |
| Storage.FileStorage.constructor | internal/manager/storage.go:25-35 | the base path, no data and no disk write |
| Storage.FileStorage.Get | internal/manager/storage.go:69-78 | as the memory store's Get |
| Storage.FileStorage.Set | internal/manager/storage.go:80-89 | the map changes as `Stored`, then the plugin's whole map is written and the write's error returned |
| Storage.FileStorage.Delete | internal/manager/storage.go:91-100 | the map changes as `Deleted`; it is written only when the plugin already had data, otherwise no write and no error |
| Storage.FileStorage.Clear | internal/manager/storage.go:102-108 | the map changes as `Cleared` and the plugin's directory is removed, that removal's error returned |
| Types.IsCancellable | pkg/types/types.go:47-58 | the declared event types outside the cancellable list are not cancellable |
| Types.CancellableExactly | pkg/types/types.go:47-58 | an event type is cancellable iff it is one of the twenty listed; every other string is not |
| Types.IndexOfName | pkg/types/types.go:75-81 | finding a display name gives an in-range index holding it; not finding it means the name is not in the list |
| Types.NameRoundTrip | pkg/types/types.go:75-81 | with distinct names every in-range value is recovered from its name |
| Types.PluginStateString | pkg/types/types.go:75-81 | "unknown" exactly past the six states; each state's name reads back as that state |
| Types.LogLevelString | pkg/types/types.go:150-156 | "unknown" exactly past the four levels; each level's name reads back as that level |
| Errors.PluginErrorMessage | pkg/types/errors.go:35-40 | "op: err" when the plugin id is empty; otherwise "plugin <id>: " followed by "op: err" |
| Errors.Unwrap | pkg/types/errors.go:42-59 | plugin errors, event errors and `%w` wrappings give back the error one level down, which is smaller; sentinels give nothing |
| Errors.IsThroughPluginError | pkg/types/errors.go:42 | wrapping in a plugin error keeps `errors.Is` true for every error the inner one matches |
| Errors.EventErrorMessage | pkg/types/errors.go:55-59 | "event <id> (<type>) plugin <plugin>: " followed by the cause's message, and the cause unwraps back |
| Errors.ValidationMessage | pkg/types/errors.go:70-72 | "validation: <field>: <message>" |
| Errors.ValidationErrorsMessage | pkg/types/errors.go:76-88 | "no validation errors" for none, the entry's own message for one, and a count header first for several |
| Errors.BulletTexts | pkg/types/errors.go:84-86 | one bullet line per entry, "  - " then its message |
| Errors.BulletLines | pkg/types/errors.go:83-87 | splitting the built message at newlines gives the first line and then one bullet per entry, in order |
| Errors.ValidationErrorsLines | pkg/types/errors.go:83-87 | a message for several errors splits into the count header and one line per entry, in the order they were added |
| Errors.HeaderNoNewline | pkg/types/errors.go:83 | the count header is a single line |
| Errors.ValidationErrors.constructor | pkg/types/errors.go:74 | an empty list |
| Errors.ValidationErrors.Add | pkg/types/errors.go:90-92 | appends exactly the one entry |
| Errors.ValidationErrors.Error | pkg/types/errors.go:76-88 | the loop builds exactly `ValidationErrorsMessage` of the list |
| Text.ToLower | examples/plugins/block-logger/src/lib.rs:127 | same length, and each character is its lower-case form (ASCII letters only) |
| Text.LowerIdempotent | examples/plugins/block-logger/src/lib.rs:127 | lowercasing an already normalized block type changes nothing |
| Text.LowerOfUpper | examples/plugins/block-logger/src/lib.rs:127 | lowercasing forgets any earlier change of case |
| Text.ContainsIff | examples/plugins/block-logger/src/lib.rs:128 | `contains` holds exactly when the needle occurs at some index |
| Text.Contains | examples/plugins/block-logger/src/lib.rs:128 | a needle longer than the text never occurs in it, and a prefix always does |
| Text.EndsWith | examples/plugins/block-logger/src/lib.rs:128 | `ends_with` holds iff the suffix fits and matches the text character by character at its end |
| Text.TrimStartMatches | examples/plugins/block-logger/src/lib.rs:128 | the result is a suffix of the input that no longer starts with the (non-empty) prefix |
| Text.Split | examples/plugins/block-logger/src/lib.rs:228 | at least one piece, and no piece holds the separator |
| Text.JoinSplit | examples/plugins/block-logger/src/lib.rs:228 | joining the pieces with the separator gives the string back |
| Text.SplitConcat | examples/plugins/block-logger/src/lib.rs:228 | splitting two strings joined by the separator gives the pieces of each, in order |
| Text.SplitLast | examples/plugins/block-logger/src/lib.rs:228 | the last piece is the text after the last separator, or the whole string when there is none |
| Text.NatRoundTrip | pkg/types/errors.go:83 | a count printed in decimal parses back to the same number |
| Text.IntRoundTrip | examples/plugins/block-logger/src/lib.rs:182 | a coordinate printed in decimal parses back to the same integer |
| Text.Utf8Char | internal/manager/manager.go:306 | one to four bytes; one byte, equal to the code, exactly for ASCII; every byte of a longer encoding is at least 0x80 |
| Text.Utf8Zero | internal/manager/manager.go:306 | the bytes of an event type hold a zero byte exactly when the type holds NUL |
| Text.Utf8Ascii | internal/manager/manager.go:306 | an ASCII event type is one byte per character, each its code |
| Text.LexIrreflexive | internal/manager/manager.go:191 | the byte order `sort.Strings` uses is irreflexive |
| Text.LexTransitive | internal/manager/manager.go:191 | the byte order `sort.Strings` uses is transitive |
| Text.LexTotal | internal/manager/manager.go:191 | the byte order `sort.Strings` uses is total, so the sorted ready queue is well defined |
| Guest.ParseEventResult | internal/manager/manager.go:341-347 | cancelled exactly when the output is non-empty and its first byte is 1; no modifications and no error are read back |
| Guest.TimedContextErr | internal/manager/manager.go:302 | a timed context reports its parent's error if the parent ended, the deadline's once it passed, and none while neither happened |
| Guest.TimeoutCause | internal/manager/manager.go:322-324 | the error recorded on a handler timeout always exists: the parent's error if any, otherwise the deadline's |
| Lifecycle.AfterEnable | internal/manager/manager.go:361-379 | only a loaded or disabled plugin moves: to enabled when `on_enable` succeeds or is absent, to error when it fails |
| Lifecycle.AfterDisable | internal/manager/manager.go:397-407 | only an enabled plugin moves, and it always ends disabled; a disabled plugin is never left enabled |
| Wire.EnvelopeSplits | internal/manager/manager.go:306-307 | the guest's split of the host's envelope gives back the event type's bytes and the data exactly when the type holds no NUL |
| Wire.TagRoundTrip | examples/plugins/block-logger/src/lib.rs:152 | an ASCII event type sent as bytes decodes to the same type |
| Wire.VerdictRoundTrip | examples/plugins/block-logger/src/lib.rs:162-169 | the host's `parseEventResult` reads back the cancellation the guest encoded, whatever follows the first byte |
| Wire.BlockLoggerVerdict | examples/plugins/block-logger/src/lib.rs:149-195 | an event dispatched to the block logger comes back cancelled exactly when it is a block break whose payload decodes and whose block is protected |
| Runtime.PluginMetrics.constructor | internal/runtime/runtime.go:85 | all counters start at zero |
| Runtime.PluginMetrics.RecordSuccess | internal/runtime/runtime.go:229-235 | one more processed event, its duration added to the total, the time stamped, errors untouched |
| Runtime.PluginMetrics.RecordError | internal/runtime/runtime.go:237-241 | one more error and nothing else |
| Runtime.PluginMetrics.AverageProcessingTime | internal/runtime/runtime.go:243-250 | zero before any event, otherwise the mean duration rounded down |
| Runtime.Enabled | internal/runtime/runtime.go:196-202 | a loaded or disabled instance becomes enabled; any other state is kept |
| Runtime.Disabled | internal/runtime/runtime.go:204-210 | only an enabled instance becomes disabled |
| Runtime.TransitionsIdempotent | internal/runtime/runtime.go:196-210 | enabling twice is enabling once, and so is disabling |
| Runtime.TransitionsUndo | internal/runtime/runtime.go:196-210 | disabling undoes enabling a disabled instance, enabling undoes disabling an enabled one |
| Runtime.PluginInstance.constructor | internal/runtime/runtime.go:79-86 | a fresh instance in the loaded state with zeroed metrics |
| Runtime.PluginInstance.Enable | internal/runtime/runtime.go:196-202 | the new state is `Enabled` of the old |
| Runtime.PluginInstance.Disable | internal/runtime/runtime.go:204-210 | the new state is `Disabled` of the old |
| Runtime.PluginInstance.IsEnabled | internal/runtime/runtime.go:212-216 | true exactly in the enabled state |
| Runtime.PluginInstance.Call | internal/runtime/runtime.go:157-194 | refused with "not enabled" and no metrics change unless enabled or loaded; otherwise a timeout or failure is wrapped in a plugin error and counts an error with the last event time kept, and a completed call returns its output, counts one event with its duration and stamps the last event time |
| Runtime.StringEntries | internal/runtime/runtime.go:56-61 | only keys of the manifest config are handed on |
| Runtime.CopyConfigStrings | internal/runtime/runtime.go:56-61 | the copied map holds exactly the string-valued config entries, each with its own text |
| Runtime.FirstMissing | internal/runtime/runtime.go:135-139 | none exactly when every required export exists; otherwise the first missing one in order |
| Runtime.VerifyExports | internal/runtime/runtime.go:134-141 | no error when every required export exists; otherwise "missing required WASM export: <first missing>" |
| Runtime.Runtime.constructor | internal/runtime/runtime.go:40-46 | an empty registry |
| Runtime.Runtime.LoadPlugin | internal/runtime/runtime.go:48-89 | an id already loaded, a module that fails to build, or a missing export is a plugin error naming the step, and leaves the registry as it was; otherwise exactly one fresh loaded instance is filed under the id |
| Runtime.Runtime.UnloadPlugin | internal/runtime/runtime.go:91-106 | an unknown id is a "not found" plugin error; otherwise the instance ends unloaded and only its id leaves the registry, every other instance keeping its state |
| Runtime.Runtime.CallPlugin | internal/runtime/runtime.go:126-132 | an unknown id is a "not found" plugin error; otherwise the instance's gated `Call`, with the same result and the same updates to that instance's errors, events, total time and last event time |
| Runtime.Runtime.Close | internal/runtime/runtime.go:143-155 | every instance ends unloaded and the registry ends empty |
| RuntimeInstance.TimeoutCauseAsWritten | internal/runtime/instance.go:82-84 | as written, the error recorded on a timeout is nil exactly when the caller's context is live |
| RuntimeInstance.TimeoutCauseAsWrittenIsNil | internal/runtime/instance.go:82-84 | when the call's own deadline fires first, the timed context has an error but the one recorded is nil |
| RuntimeInstance.CallMetrics | internal/runtime/instance.go:81-93 | a timeout counts an error only, a failing call a call and an error, a completed call a call only; event counters are untouched |
| RuntimeInstance.HandlerExport | internal/runtime/instance.go:102 | the export is "on_" followed by the event type |
| RuntimeInstance.TimedOutError | internal/runtime/instance.go:85 | "plugin call timed out after <timeout>", ending with the limit |
| RuntimeInstance.CannotEnableError | internal/runtime/instance.go:117 | "cannot enable plugin in state: <state>", ending with the state's name |
| RuntimeInstance.CannotDisableError | internal/runtime/instance.go:139 | "cannot disable plugin in state: <state>", ending with the state's name |
| RuntimeInstance.Instance.constructor | internal/runtime/instance.go:32-52 | no calls and no errors yet, and the last-call time at Go's zero time |
| RuntimeInstance.Instance.Call | internal/runtime/instance.go:56-95 | every call is counted and stamped; a timeout returns "plugin call timed out", a failing call its own error, both counting an error; the metrics become `CallMetrics` of the old ones |
| RuntimeInstance.Instance.HandleEvent | internal/runtime/instance.go:97-110 | an unsubscribed event returns nothing and changes nothing, the last-call time included; otherwise `on_<event>` is called, counted and stamped, a timeout or failure counts an error, its error is returned, or its output parsed as the verdict and recorded as a handled (and possibly cancelled) event |
| RuntimeInstance.Instance.Enable | internal/runtime/instance.go:112-132 | the state becomes `AfterEnable` of the old one; a state other than loaded or disabled is refused, and a failing `on_enable` returns its error wrapped |
| RuntimeInstance.Instance.Disable | internal/runtime/instance.go:134-153 | the state becomes `AfterDisable` of the old one; only an enabled plugin is accepted |
| RuntimeInstance.Instance.Close | internal/runtime/instance.go:155-170 | every plugin ends unloaded |
| RuntimeInstance.Instance.IsEnabled | internal/runtime/instance.go:172-176 | true exactly in the enabled state |

## Left out

- Concurrency: mutexes, goroutines, channels and the `select` on a deadline are not modelled. Every operation is sequential. A call's outcome (timed out, raised an error, or completed with output after a given duration) is an input.
- `internal/runtime/pool.go` is not part of this model. It is a channel-backed instance pool whose whole point is concurrent acquire and release.
- Extism and WASM are not modelled: module creation, `FunctionExists` and `Call`. Whether module creation fails, which exports exist and how a call ends are all inputs.
- JSON encoding and decoding are not modelled. A payload decoder is a given function from bytes to an already decoded event, with `None` standing for a parse error. The modifications JSON the block logger appends is an opaque byte string.
- `host_log` and `host_send_message` are recorded as an appended list of commands. Their results are ignored, as in the source.
- File-system and other I/O is not modelled:
  - manager `LoadAll`, `loadManifest` and the directory and WASM steps of `loadPlugin`;
  - loader `Discover`, `loadFromDirectory` and `LoadWASM`;
  - storage `NewFileStorage`, `loadAll`, `Close` and the contents of `persist`;
  - config `Load`, `LoadOrDefault` and `Save`.

  `FileStorage` keeps the in-memory map effects. It records each `persist` as a command whose outcome is given.
- `loadPlugin`'s call of `plugin_init` under its tenfold timeout is not modelled. `PluginManager.Manager.Register` models only the registration that follows a successful initialisation.
- The server bindings (`internal/handler`, `internal/adapter`, `pkg/events/converter.go`) and the host-function glue (`pkg/host`, `internal/manager/hostfuncs.go`) are not part of this model.
- Wall-clock values are integer parameters where a method stores them (`lastCall`, `LoadedAt`, `LastEventTime`). `EnabledAt`, `DisabledAt` and `LastErrorTime` are not kept. The timeout duration that an error message prints is a given string.
- Accessors that only return what they are given are not modelled. These are manager `GetPlugin`, `GetAllPlugins` and `GetMetrics`, and runtime `GetInstance`, `GetAllInstances`, `GetMetrics` and `Instance.State`.
- Manager `EnableAll`, `DisableAll` and `Close` are not modelled. Each is a loop over `EnablePlugin` or `DisablePlugin` / `UnloadPlugin`, which are modelled.
- PluginManager.Manager: the manager keeps each plugin's record (manifest, state, metrics) as a value. The model does not capture that the `*plugin.Info` pointer `GetPlugin` hands out aliases the manager's record. The states `Enabling` and `Disabling` are written and then overwritten under one lock, so the manager's methods never expose them.
- PluginManager.Manager: the metrics invariant of `PluginInfo` (average = total / calls and the others) is proved for `PluginInfo.Metrics` but is not part of the manager's invariant.
- PluginManager.Manager.UnloadPlugin: the source releases the plugin's lock while the instance closes and then takes it again. The model treats the unload as one step.
- Runtime.Runtime.LoadPlugin: the manifest's `Config` table is passed separately as `config`, because the manifest datatype does not carry it.
- The host's zap logging is not modelled. This covers the error `Dispatch` logs for every failing handler, the instance's informational and warning messages (a failed `on_disable` is logged and otherwise ignored) and the manager's lifecycle messages. Only the guest's `host_log` calls are modelled, as commands.
- PluginInfo.StateString: `State` is a Go `int` modelled as `nat`, and so are the `PluginState` and `LogLevel` of Types.PluginStateString and Types.LogLevelString. Each `String` method guards only with `int(s) < len(names)`, so a negative value would index the table out of range and panic instead of returning "unknown". The model cannot express a negative value. Every value the program assigns is one of the named constants.
- PluginManifest.Quote: escapes the double quote, the backslash, the C0 controls, DEL and the C1 controls exactly as `strconv.Quote` does, and copies every other character. Go also escapes, as `\uNNNN` or `\UNNNNNNNN`, the other non-ASCII characters `strconv.IsPrint` rejects (non-ASCII spaces, format characters, unassigned code points). The model copies those unchanged, because it does not carry the Unicode category tables.
- Integer widths are not modelled: counters are unbounded, so `u64`/`uint64` wrap-around after 2^64 events is not modelled. Go's `int64` durations are whole nanoseconds without overflow.
- Text.ToLower: Rust's `to_lowercase` is modelled as ASCII lowercasing. Non-ASCII letters are kept as they are.
- BlockLogger.DecodeTag: `from_utf8` is modelled for ASCII tags. Any tag with a byte of 0x80 or more decodes to the empty tag. Every real tag is ASCII, and the empty tag routes like any other unknown tag.
- Text.LexLess: `sort.Strings` compares strings by their UTF-8 bytes. The model compares characters, which orders ASCII IDs (all that the manifest ID pattern admits) the same way.
- Loader.ResolveDependencies: after an error the DFS marks left behind are not stated, because the caller discards them.
- BlockLogger.ShortNotProtected: `stone` is not protected, but this is stated through the general lemma on types shorter than seven characters rather than on the literal.
- BlockLogger.Milestone: is defined by repeated subtraction of 50. `BlockLogger.MilestoneMod` proves it is the source's `% 50 == 0`.
- Errors.ValidationErrors.HasErrors: is a plain predicate, `|items| > 0`, with no contract of its own.
- PluginManifest.DefaultResourceLimits and Types.EventType are a constant and a type synonym. Their values are stated by `Config.DefaultConfig` and by the type itself (`EventType.String` is the identity).

## Findings

| source | as written | input that shows it | evidently intended | confidence | as-written member | corrected member |
|---|---|---|---|---|---|---|
| internal/runtime/instance.go:84 | when the call's timed context is done, the timeout branch records `ctx.Err()`, the error of the caller's context | the caller's context is live (`ctx.Err()` is nil) and the call's own deadline fires: `RecordError(nil)` then takes the message of a nil error and panics | record `callCtx.Err()`, the timed context's error (context deadline exceeded, or the caller's cancellation), as `createEventHandler` in `internal/manager/manager.go:324` does with its shadowed `ctx` | not executed | `RuntimeInstance.TimeoutCauseAsWritten` (with `RuntimeInstance.TimeoutCauseAsWrittenIsNil`) | `Guest.TimeoutCause`, used by `RuntimeInstance.Instance.Call` |
