# DataStore plugin lifecycle — a Dafny model

This project models the lifecycle state machine of the AWS DataStore category plugin, as the plugin's lifecycle tests (`AWSDataStorePluginTests`) pin it down:

- the plugin builds its storage-engine handle lazily. The handle is absent after `configure`, present after `start` or `query`, kept by `stop` and dropped by `clear`;
- the plugin drives the engine's `startSync`, `stopSync`, `clear` and `query` operations. The mock engine records each call, and the tests count and order them;
- a terminal event on the engine's sync stream, `.finished` or `.failure`, makes the plugin stop sync;
- the mutation-event publisher outlives every lifecycle transition. It never finishes because of `stop` or `clear`, and it delivers events sent after them;
- the tests' `expect` helper is an ordering counter: an expectation is met only when its responder fires as the n-th counted call.

Every operation is atomic, and its completion runs synchronously in call order. A call made inside a completion is therefore simply the next call.

Layout:

- `types.dfy` (`DataStoreTypes`): engine handles (`EngineId`, the number of the engine the factory built), the engine operations, the call log, mutation events, completions.
- `lifecycle.dfy` (`Lifecycle`): the plugin and publisher state as values, with one step function per operation. `Step` and `Run` execute whole command sequences. `PluginInv` is the invariant and `PhaseOf` gives the phase: NotConfigured, Configured, Started or Stopped. An engine counts as Started when the last StartSync/StopSync call it received was StartSync.
- `lifecycle_properties.dfy` (`LifecycleProperties`): lemmas over all command sequences.
- `expect_counter.dfy` (`ExpectCounter`): the `expect` helper and its ordering lemmas.
- `plugin.dfy` (`DataStorePlugin`): the classes `DataStorePublisher` and `AWSDataStorePlugin`. Their methods update fields in place. Each method's postcondition ties the new state to the step function that specifies it. The lifecycle methods modify only the plugin, never the publisher object.
- `plugin_tests.dfy` (`PluginTests`): one client method per test. Each method drives the objects as its test does and promises what the test asserts.

Decisions where the design description and the tests differ, or where the tests are silent:

- `start` and `clear` work on a plugin that was never configured. The tests do this at lines 532-555 and 557-614. The design's `NotConfiguredError` for lifecycle calls is therefore kept only for `query`, which the tests never call unconfigured.
- A second `configure` fails with `ConfigurationError` and changes nothing, as the design describes. The tests configure only once.
- `clear` without an engine builds a transient engine, runs only its clear and keeps no handle. The counts at lines 101-136 (clear is count 1, startSync is count 2) rule out a StartSync before the clear. They would not rule out one after it, because the nested start's StartSync would then simply fulfil nothing. That `clear` starts no sync at all follows the design's description of the transient engine as built solely to run its clear. The tests do not force this reading.
- The terminal-event subscription is created with the engine and renewed by `start`. Receiving a terminal completion spends it, and `clear` drops it. A started plugin always holds it.
- `InitStorageEngine` is the internal "ensure engine" step shared by `start`, `query` and `clear`. Taken alone, it leaves an engine that has received no sync call, and `PhaseOf` reads that as Stopped. Every operation follows it at once with a StartSync or a ClearStorage. `HandleFollowsCommands` proves that no state reached through the operations holds an engine without a sync call.
- The test factory returns the same mock object every time. The model numbers the engines the factory builds, so that "the handle is reused after stop" and "a fresh handle after clear" can be stated.

## Model

| member | source | states |
|---|---|---|
| `Lifecycle.EnsureEngine` | AmplifyPlugins/DataStore/AWSDataStoreCategoryPluginTests/Core/AWSDataStorePluginTests.swift:23-31 | an existing handle is reused unchanged; otherwise the factory builds an engine that no earlier call targeted, the plugin subscribes to its terminal events, and the invariant holds |
| `Lifecycle.ConfigureState` | AmplifyPlugins/DataStore/AWSDataStoreCategoryPluginTests/Core/AWSDataStorePluginTests.swift:16-38 | configure leaves the call log, the handle and the subscription untouched, so it never dispatches StartSync and a handle absent before stays absent |
| `Lifecycle.ConfigureReply` | AmplifyPlugins/DataStore/AWSDataStoreCategoryPluginTests/Core/AWSDataStorePluginTests.swift:32-36 | configure fails exactly when the plugin is already configured; the first configure succeeds |
| `Lifecycle.StartState` | AmplifyPlugins/DataStore/AWSDataStoreCategoryPluginTests/Core/AWSDataStorePluginTests.swift:40-62 | start leaves a handle present, reuses an existing one without building an engine, appends exactly one StartSync to that engine, and ends in phase Started |
| `Lifecycle.StopState` | AmplifyPlugins/DataStore/AWSDataStoreCategoryPluginTests/Core/AWSDataStorePluginTests.swift:64-99 | without an engine, stop changes nothing (no StopSync); with one, it appends one StopSync, keeps the handle and subscription, and ends Stopped |
| `Lifecycle.ClearState` | AmplifyPlugins/DataStore/AWSDataStoreCategoryPluginTests/Core/AWSDataStorePluginTests.swift:532-555 | clear always ends with no handle and no subscription and appends exactly one ClearStorage: to the current engine, or to a transient engine built for it |
| `Lifecycle.QueryState` | AmplifyPlugins/DataStore/AWSDataStoreCategoryPluginTests/Core/AWSDataStorePluginTests.swift:138-160 | once configured, a query without an engine does an implicit start then queries; with an engine it only queries, keeping handle and phase (a stopped engine stays stopped); before configure nothing happens |
| `Lifecycle.QueryReply` | AmplifyPlugins/DataStore/AWSDataStoreCategoryPluginTests/Core/AWSDataStorePluginTests.swift:153-158 | a query fails exactly when the plugin is not configured |
| `Lifecycle.TerminalState` | AmplifyPlugins/DataStore/AWSDataStoreCategoryPluginTests/Core/AWSDataStorePluginTests.swift:557-584 | a terminal event received through the subscription behaves as stop and spends the subscription; with none it changes nothing; the invariant holds |
| `Lifecycle.SendState` | AmplifyPlugins/DataStore/AWSDataStoreCategoryPluginTests/Core/AWSDataStorePluginTests.swift:442-445 | a sent event is appended, as sent, to what the subscriber received iff there is a subscriber; finished and subscription are untouched |
| `Lifecycle.Step` | AmplifyPlugins/DataStore/AWSDataStoreCategoryPluginTests/Core/AWSDataStorePluginTests.swift:189-219 | every operation preserves the plugin invariant and keeps the publisher unfinished |
| `LifecycleProperties.RunKeepsInv` | AmplifyPlugins/DataStore/AWSDataStoreCategoryPluginTests/Core/AWSDataStorePluginTests.swift:185-226 | any command sequence preserves the invariant: handles and calls refer to built engines, a started engine is listened to, and the publisher is open |
| `LifecycleProperties.PublisherNeverFinishes` | AmplifyPlugins/DataStore/AWSDataStoreCategoryPluginTests/Core/AWSDataStorePluginTests.swift:255-293 | from a new plugin, no sequence of start, stop, clear, query, terminal events or sends ever finishes the publisher |
| `LifecycleProperties.StepAppends` | AmplifyPlugins/DataStore/AWSDataStoreCategoryPluginTests/Core/AWSDataStorePluginTests.swift:221-225 | each step only appends to the engine-call log, and what it appends holds one StartSync for start or an engine-building query and none otherwise |
| `LifecycleProperties.LogsAreAppendOnly` | AmplifyPlugins/DataStore/AWSDataStoreCategoryPluginTests/Core/AWSDataStorePluginTests.swift:288-292 | over any command sequence, the old call log is a prefix of the new one and the delivered events a prefix of the new ones |
| `LifecycleProperties.LifecycleLeavesPublisher` | AmplifyPlugins/DataStore/AWSDataStoreCategoryPluginTests/Core/AWSDataStorePluginTests.swift:202-219 | any sequence of lifecycle operations leaves the publisher exactly as it was: present, unfinished, same subscriber, same deliveries |
| `LifecycleProperties.SendAfterLifecycle` | AmplifyPlugins/DataStore/AWSDataStoreCategoryPluginTests/Core/AWSDataStorePluginTests.swift:483-521 | after any lifecycle operations, an event sent to a subscribed publisher is delivered exactly as sent, and the publisher is still open |
| `LifecycleProperties.StartSyncDispatch` | AmplifyPlugins/DataStore/AWSDataStoreCategoryPluginTests/Core/AWSDataStorePluginTests.swift:101-136 | the StartSync count rises by exactly one on start or on a configured query without an engine, and by zero for every other operation (configure, stop, clear, terminal events, sends) |
| `LifecycleProperties.StopThenStartReusesHandle` | AmplifyPlugins/DataStore/AWSDataStoreCategoryPluginTests/Core/AWSDataStorePluginTests.swift:202-219 | with an engine, stop keeps the handle, and the next start reuses it without building an engine; the log gains StopSync then StartSync on that engine |
| `LifecycleProperties.ClearThenStartBuildsFreshHandle` | AmplifyPlugins/DataStore/AWSDataStoreCategoryPluginTests/Core/AWSDataStorePluginTests.swift:272-286 | clear leaves no handle; the next start makes one that differs from the old handle and that no earlier call targeted; the log gains ClearStorage then StartSync |
| `LifecycleProperties.PhaseTransitions` | AmplifyPlugins/DataStore/AWSDataStoreCategoryPluginTests/Core/AWSDataStorePluginTests.swift:162-231 | the state machine: configure goes NotConfigured to Configured; start ends Started; stop ends Stopped with an engine and is a no-op without; clear returns to the engine-less phase; query starts a missing engine and leaves a stopped one stopped, without StartSync |
| `LifecycleProperties.TerminalEventStopsSync` | AmplifyPlugins/DataStore/AWSDataStoreCategoryPluginTests/Core/AWSDataStorePluginTests.swift:586-614 | in any valid Started state, a finished or failed terminal event dispatches exactly one StopSync to the engine, keeps the handle, ends Stopped and leaves the publisher alone |
| `LifecycleProperties.StepKeepsEngineSynced` | AmplifyPlugins/DataStore/AWSDataStoreCategoryPluginTests/Core/AWSDataStorePluginTests.swift:202-219 | no operation leaves the plugin holding an engine that never received a StartSync or StopSync |
| `LifecycleProperties.HandleFollowsCommands` | AmplifyPlugins/DataStore/AWSDataStoreCategoryPluginTests/Core/AWSDataStorePluginTests.swift:88-90 | for any command sequence on a new plugin: the plugin is configured iff a configure was issued; it holds a handle iff the last start, or the last query issued once configured, comes after the last clear (a reference computed from the commands alone); a held engine has been synced |
| `LifecycleProperties.ReachableHandlePresence` | AmplifyPlugins/DataStore/AWSDataStoreCategoryPluginTests/Core/AWSDataStorePluginTests.swift:88-90 | in every reachable state a configure leaves handle presence as it was, so there is no handle right after configure when none was held; a started plugin listens to its engine; a held engine is Started or Stopped by its own sync calls |
| `ExpectCounter.Expect` | AmplifyPlugins/DataStore/AWSDataStoreCategoryPluginTests/Core/AWSDataStorePluginTests.swift:371-377 | one step advances the count by one and fulfils iff the new count is the expected one |
| `ExpectCounter.Tally` | AmplifyPlugins/DataStore/AWSDataStoreCategoryPluginTests/Core/AWSDataStorePluginTests.swift:104-113 | firing responders in turn through the counter yields one flag per firing, and the i-th firing fulfils its expectation iff it expects count + i + 1 |
| `ExpectCounter.AllFulfilledIffInOrder` | AmplifyPlugins/DataStore/AWSDataStoreCategoryPluginTests/Core/AWSDataStorePluginTests.swift:304-312 | from zero, all expectations are met iff the responders fired in the order 1, 2, 3, ... of their expected counts (both directions) |
| `ExpectCounter.Responded` | AmplifyPlugins/DataStore/AWSDataStoreCategoryPluginTests/Core/AWSDataStorePluginTests.swift:106-113 | at most one counted firing per call, each carrying a responder's expected count; when every call hits a responder, the i-th firing carries the count of the i-th call's responder; when none does, nothing is counted |
| `ExpectCounter.RespondedOne` | AmplifyPlugins/DataStore/AWSDataStoreCategoryPluginTests/Core/AWSDataStorePluginTests.swift:106-113 | a single call counts its responder's expected number if it has a responder, and nothing otherwise |
| `ExpectCounter.RespondedAppend` | AmplifyPlugins/DataStore/AWSDataStoreCategoryPluginTests/Core/AWSDataStorePluginTests.swift:355-358 | the counted firings of two runs of calls are those of the first followed by those of the second, which splits the count at the responder swap |
| `DataStorePlugin.DataStorePublisher.constructor` | AmplifyPlugins/DataStore/AWSDataStoreCategoryPluginTests/Core/AWSDataStorePluginTests.swift:26 | a new publisher is open, has no subscriber and has delivered nothing |
| `DataStorePlugin.DataStorePublisher.Subscribe` | AmplifyPlugins/DataStore/AWSDataStoreCategoryPluginTests/Core/AWSDataStorePluginTests.swift:193-200 | the sink becomes the subscriber; nothing is delivered and nothing finishes |
| `DataStorePlugin.DataStorePublisher.Cancel` | AmplifyPlugins/DataStore/AWSDataStoreCategoryPluginTests/Core/AWSDataStorePluginTests.swift:227 | the sink stops receiving; deliveries so far and the finished flag are kept |
| `DataStorePlugin.DataStorePublisher.Send` | AmplifyPlugins/DataStore/AWSDataStoreCategoryPluginTests/Core/AWSDataStorePluginTests.swift:515-518 | the event reaches the subscriber as sent, is dropped with none, and the publisher stays as open as it was |
| `DataStorePlugin.AWSDataStorePlugin.constructor` | AmplifyPlugins/DataStore/AWSDataStoreCategoryPluginTests/Core/AWSDataStorePluginTests.swift:27-31 | a new plugin holds the given publisher, no handle and no calls, and is unconfigured |
| `DataStorePlugin.AWSDataStorePlugin.Configure` | AmplifyPlugins/DataStore/AWSDataStoreCategoryPluginTests/Core/AWSDataStorePluginTests.swift:32-36 | new state is ConfigureState of the old, and the reply is ConfigureReply; handle and log unchanged; publisher untouched |
| `DataStorePlugin.AWSDataStorePlugin.InitStorageEngine` | AmplifyPlugins/DataStore/AWSDataStoreCategoryPluginTests/Core/AWSDataStorePluginTests.swift:23-25 | new state is EnsureEngine of the old: a handle is present and no engine call is made |
| `DataStorePlugin.AWSDataStorePlugin.Start` | AmplifyPlugins/DataStore/AWSDataStoreCategoryPluginTests/Core/AWSDataStorePluginTests.swift:40-62 | new state is StartState of the old: handle present (the old one if any), one StartSync appended, success; publisher untouched |
| `DataStorePlugin.AWSDataStorePlugin.Stop` | AmplifyPlugins/DataStore/AWSDataStoreCategoryPluginTests/Core/AWSDataStorePluginTests.swift:64-99 | new state is StopState of the old: handle unchanged, StopSync appended only when there is an engine, success; publisher untouched |
| `DataStorePlugin.AWSDataStorePlugin.Clear` | AmplifyPlugins/DataStore/AWSDataStoreCategoryPluginTests/Core/AWSDataStorePluginTests.swift:532-555 | new state is ClearState of the old: handle absent, exactly one ClearStorage appended, success even unconfigured; publisher untouched |
| `DataStorePlugin.AWSDataStorePlugin.Query` | AmplifyPlugins/DataStore/AWSDataStoreCategoryPluginTests/Core/AWSDataStorePluginTests.swift:138-160 | new state is QueryState of the old and the reply QueryReply; once configured, a handle is present and the last call is the query on it |
| `DataStorePlugin.AWSDataStorePlugin.OnSyncTerminal` | AmplifyPlugins/DataStore/AWSDataStoreCategoryPluginTests/Core/AWSDataStorePluginTests.swift:557-614 | new state is TerminalState of the old: handle kept, stop dispatched while subscribed; publisher untouched |
| `PluginTests.StorageEngineDoesNotStartOnConfigure` | AmplifyPlugins/DataStore/AWSDataStoreCategoryPluginTests/Core/AWSDataStorePluginTests.swift:16-38 | configure alone makes no engine call and leaves no handle |
| `PluginTests.StorageEngineStartsOnPluginStart` | AmplifyPlugins/DataStore/AWSDataStoreCategoryPluginTests/Core/AWSDataStorePluginTests.swift:40-62 | configure then start dispatches exactly StartSync |
| `PluginTests.StorageEngineStartsOnPluginStopStart` | AmplifyPlugins/DataStore/AWSDataStoreCategoryPluginTests/Core/AWSDataStorePluginTests.swift:64-99 | no handle after configure; stop without an engine dispatches nothing, and the start in its completion dispatches StartSync |
| `PluginTests.StorageEngineStartsOnPluginClearStart` | AmplifyPlugins/DataStore/AWSDataStoreCategoryPluginTests/Core/AWSDataStorePluginTests.swift:101-136 | clear then start logs ClearStorage then StartSync, and the counter fulfils both expectations (clear is 1, startSync is 2) |
| `PluginTests.StorageEngineStartsOnQuery` | AmplifyPlugins/DataStore/AWSDataStoreCategoryPluginTests/Core/AWSDataStorePluginTests.swift:138-160 | a query on a configured plugin without engine dispatches StartSync then the query, and succeeds |
| `PluginTests.StorageEngineStartStopStart` | AmplifyPlugins/DataStore/AWSDataStoreCategoryPluginTests/Core/AWSDataStorePluginTests.swift:162-231 | the engine sees StartSync, StopSync, StartSync in that order; the same handle is present after each step; the publisher does not finish |
| `PluginTests.StorageEngineStartClearStart` | AmplifyPlugins/DataStore/AWSDataStoreCategoryPluginTests/Core/AWSDataStorePluginTests.swift:233-298 | the engine sees StartSync, ClearStorage, StartSync in that order; handle present, absent after clear, present again (a new one); the publisher does not finish |
| `PluginTests.StorageEngineQueryClearQuery` | AmplifyPlugins/DataStore/AWSDataStoreCategoryPluginTests/Core/AWSDataStorePluginTests.swift:300-369 | the log is StartSync, query, clear, StartSync, query; query/clear/query fulfil counts 1, 2, 3 across the responder swap; handle present, absent, present; publisher open |
| `PluginTests.QueryClearQueryCounts` | AmplifyPlugins/DataStore/AWSDataStoreCategoryPluginTests/Core/AWSDataStorePluginTests.swift:304-312 | with the responders before and after the swap at line 355, the counter fulfils all three expectations |
| `PluginTests.StorageEngineStartClearSend` | AmplifyPlugins/DataStore/AWSDataStoreCategoryPluginTests/Core/AWSDataStorePluginTests.swift:386-453 | after start and clear, the subscriber receives exactly one event, a create of model "12345", and the publisher does not finish |
| `PluginTests.StorageEngineStartStopSend` | AmplifyPlugins/DataStore/AWSDataStoreCategoryPluginTests/Core/AWSDataStorePluginTests.swift:461-526 | after start and stop, the subscriber receives exactly the create of model "12345", and the publisher does not finish |
| `PluginTests.ClearStorageWhenEngineIsNotStarted` | AmplifyPlugins/DataStore/AWSDataStoreCategoryPluginTests/Core/AWSDataStorePluginTests.swift:532-555 | clear on a never-configured plugin still runs the engine's clear and completes with success |
| `PluginTests.TerminalEventStops` | AmplifyPlugins/DataStore/AWSDataStoreCategoryPluginTests/Core/AWSDataStorePluginTests.swift:573-583 | for any terminal event after start, the engine sees StartSync then StopSync, the handle stays and the publisher is open |
| `PluginTests.StopStorageEngineOnTerminalEvent` | AmplifyPlugins/DataStore/AWSDataStoreCategoryPluginTests/Core/AWSDataStorePluginTests.swift:557-584 | a `.finished` terminal event after start dispatches StopSync and keeps the handle |
| `PluginTests.StopStorageEngineOnTerminalFailureEvent` | AmplifyPlugins/DataStore/AWSDataStoreCategoryPluginTests/Core/AWSDataStorePluginTests.swift:586-614 | a `.failure` terminal event after start dispatches StopSync and keeps the handle |

## Left out

- The plugin's own implementation file and the mock engine's source are not part of this model. Behaviour comes from the tests' assertions.
- Concurrency and the operation gate (queuing of requests issued during a transition) are left out. Operations are atomic sequential calls, and a call nested in a completion runs right after its operation.
- XCTest timing, inverted expectations, `DispatchSemaphore` waits and `enforceOrder` are left out. An inverted expectation is modelled as the operation being absent from the call log, and an enforced order as the order of the log.
- Combine internals are left out. The publisher has a single subscriber slot rather than a list of subscribers.
- Full plugin teardown is left out, so nothing in the model ever sets the publisher's finished flag.
- Engine construction failures are left out: the test factory never throws. `EngineConstructionError` is therefore not modelled.
- Engine operation failures are left out: the mock answers every operation with success, so every lifecycle completion is a success.
- Query predicates, sorting and results are left out: the mock answers `.success([])`. `Query` reports only a completion.
- Model payloads and schemas of mutation events are reduced to a model id, a model name and the mutation type.
- The S3 storage test base, the S3 remove task and the Cognito action record are not part of this model: they are network I/O or foreign SDK calls.
