/** The plugin's lifecycle tests as client methods: each builds a publisher and a
    plugin, drives them as the test does (a completion's nested call runs right
    after the operation it is nested in), and promises what the test asserts about
    the engine calls, the handle and the publisher. */
module PluginTests {
  import opened DataStoreTypes
  import opened Lifecycle
  import opened ExpectCounter
  import opened DataStorePlugin

  const MockModelId := "12345"
  const CreateMock := MutationEvent(MockModelId, "MockSynced", Create)

  method NewPlugin() returns (plugin: AWSDataStorePlugin)
    ensures fresh(plugin) && fresh(plugin.dataStorePublisher)
    ensures plugin.Valid() && plugin.State() == InitialPlugin
    ensures plugin.dataStorePublisher.State() == InitialPublisher
  {
    var publisher := new DataStorePublisher();
    plugin := new AWSDataStorePlugin(publisher);
  }

  /** The operations of short concrete logs, computed where nothing else is in scope. */
  lemma OpsOfTwo(a: Call, b: Call)
    ensures Ops([a, b]) == [a.op, b.op]
  {
  }

  lemma OpsOfThree(a: Call, b: Call, c: Call)
    ensures Ops([a, b, c]) == [a.op, b.op, c.op]
  {
  }

  /** configure alone: no StartSync, and no handle. */
  method StorageEngineDoesNotStartOnConfigure() returns (ops: seq<EngineOp>, hasEngine: bool)
    ensures ops == [] && !hasEngine
  {
    var plugin := NewPlugin();
    var r := plugin.Configure();
    assert r == Success;
    ops, hasEngine := Ops(plugin.calls), plugin.storageEngine.Some?;
  }

  /** configure; start: StartSync is dispatched. */
  method StorageEngineStartsOnPluginStart() returns (ops: seq<EngineOp>)
    ensures ops == [StartSync]
  {
    var plugin := NewPlugin();
    var _ := plugin.Configure();
    var _ := plugin.Start();
    ops := Ops(plugin.calls);
  }

  /** configure; stop, with start in its completion: no handle after configure,
      no StopSync (there is no engine to stop), then StartSync. */
  method StorageEngineStartsOnPluginStopStart() returns (ops: seq<EngineOp>, hasEngineAfterConfigure: bool)
    ensures ops == [StartSync] && !hasEngineAfterConfigure
  {
    var plugin := NewPlugin();
    var _ := plugin.Configure();
    hasEngineAfterConfigure := plugin.storageEngine.Some?;
    var _ := plugin.Stop();
    var _ := plugin.Start();
    ops := Ops(plugin.calls);
  }

  /** configure; clear, with start in its completion: the clear responder counts 1
      and the StartSync responder counts 2, so both expectations are fulfilled. */
  method StorageEngineStartsOnPluginClearStart() returns (ops: seq<EngineOp>, fulfilled: seq<bool>)
    ensures ops == [ClearStorage, StartSync]
    ensures fulfilled == [true, true]
  {
    var plugin := NewPlugin();
    var _ := plugin.Configure();
    var _ := plugin.Clear();
    var _ := plugin.Start();
    ops := Ops(plugin.calls);
    var responders := map[ClearStorage := 1, StartSync := 2];
    var counted := Responded(ops, responders);
    assert counted == [1, 2] by {
      assert ops == [ClearStorage] + [StartSync];
      RespondedAppend([ClearStorage], [StartSync], responders);
      RespondedOne(ClearStorage, responders);
      RespondedOne(StartSync, responders);
    }
    fulfilled := Tally(counted, 0);
    AllFulfilledIffInOrder(counted);
  }

  /** configure; query: the query builds the engine and dispatches StartSync. */
  method StorageEngineStartsOnQuery() returns (ops: seq<EngineOp>, r: Completion)
    ensures ops == [StartSync, QueryStorage] && r == Success
  {
    var plugin := NewPlugin();
    var _ := plugin.Configure();
    r := plugin.Query();
    ops := Ops(plugin.calls);
  }

  /** configure; start, then stop in its completion, then start in that one: the
      engine sees StartSync, StopSync, StartSync in that order, the same handle is
      present after every step, and the publisher never finishes. */
  method StorageEngineStartStopStart() returns (ops: seq<EngineOp>, handles: seq<Option<EngineId>>, finished: bool)
    ensures ops == [StartSync, StopSync, StartSync]
    ensures |handles| == 3 && handles[0].Some? && handles[1] == handles[0] && handles[2] == handles[0]
    ensures !finished
  {
    var plugin := NewPlugin();
    var publisher := plugin.dataStorePublisher;
    var _ := plugin.Configure();
    publisher.Subscribe();
    var _ := plugin.Start();
    assert plugin.calls == [Call(StartSync, 0)];
    handles := [plugin.storageEngine];
    var _ := plugin.Stop();
    assert plugin.calls == [Call(StartSync, 0), Call(StopSync, 0)];
    handles := handles + [plugin.storageEngine];
    var _ := plugin.Start();
    assert plugin.calls == [Call(StartSync, 0), Call(StopSync, 0), Call(StartSync, 0)];
    OpsOfThree(Call(StartSync, 0), Call(StopSync, 0), Call(StartSync, 0));
    handles := handles + [plugin.storageEngine];
    publisher.Cancel();
    ops, finished := Ops(plugin.calls), publisher.finished;
  }

  /** configure; start, then clear in its completion, then start in that one: the
      engine sees StartSync, ClearStorage, StartSync in that order; the handle is
      absent right after clear and a new one is present after the second start; the
      publisher never finishes. */
  method StorageEngineStartClearStart() returns (ops: seq<EngineOp>, handles: seq<Option<EngineId>>, finished: bool)
    ensures ops == [StartSync, ClearStorage, StartSync]
    ensures |handles| == 3 && handles[0].Some? && handles[1].None? && handles[2].Some?
    ensures handles[2] != handles[0]
    ensures !finished
  {
    var plugin := NewPlugin();
    var publisher := plugin.dataStorePublisher;
    var _ := plugin.Configure();
    publisher.Subscribe();
    var _ := plugin.Start();
    handles := [plugin.storageEngine];
    var _ := plugin.Clear();
    handles := handles + [plugin.storageEngine];
    var _ := plugin.Start();
    handles := handles + [plugin.storageEngine];
    publisher.Cancel();
    ops, finished := Ops(plugin.calls), publisher.finished;
  }

  /** configure; query; clear; then, with the query responder replaced to expect
      count 3, query again: query, clear and query fire as counts 1, 2, 3 so all three
      expectations are fulfilled; the handle is present after each query and absent
      after clear; the publisher never finishes. */
  method StorageEngineQueryClearQuery() returns (ops: seq<EngineOp>, fulfilled: seq<bool>, handles: seq<Option<EngineId>>, finished: bool)
    ensures ops == [StartSync, QueryStorage, ClearStorage, StartSync, QueryStorage]
    ensures fulfilled == [true, true, true]
    ensures |handles| == 3 && handles[0].Some? && handles[1].None? && handles[2].Some?
    ensures !finished
  {
    var plugin := NewPlugin();
    var publisher := plugin.dataStorePublisher;
    var _ := plugin.Configure();
    publisher.Subscribe();
    var _ := plugin.Query();
    assert plugin.calls == [Call(StartSync, 0), Call(QueryStorage, 0)];
    handles := [plugin.storageEngine];
    var _ := plugin.Clear();
    var log := plugin.calls;
    assert log == [Call(StartSync, 0), Call(QueryStorage, 0), Call(ClearStorage, 0)];
    handles := handles + [plugin.storageEngine];
    var _ := plugin.Query();
    assert plugin.calls == log + [Call(StartSync, 1), Call(QueryStorage, 1)];
    handles := handles + [plugin.storageEngine];
    publisher.Cancel();
    var later := [Call(StartSync, 1), Call(QueryStorage, 1)];
    OpsOfThree(Call(StartSync, 0), Call(QueryStorage, 0), Call(ClearStorage, 0));
    OpsOfTwo(later[0], later[1]);
    OpsAppend(log, later);
    var beforeSwap, afterSwap := Ops(log), Ops(later);
    ops, finished := Ops(plugin.calls), publisher.finished;
    fulfilled := Tally(Responded(beforeSwap, map[QueryStorage := 1, ClearStorage := 2])
      + Responded(afterSwap, map[QueryStorage := 3, ClearStorage := 2]), 0);
    QueryClearQueryCounts();
  }

  /** The counts of the query-clear-query test: the first query and the clear hit
      responders expecting 1 and 2; after the swap the second query's responder
      expects 3. StartSync has no counting responder there. */
  lemma QueryClearQueryCounts()
    ensures Tally(Responded([StartSync, QueryStorage, ClearStorage], map[QueryStorage := 1, ClearStorage := 2])
      + Responded([StartSync, QueryStorage], map[QueryStorage := 3, ClearStorage := 2]), 0) == [true, true, true]
  {
    var before, after := map[QueryStorage := 1, ClearStorage := 2], map[QueryStorage := 3, ClearStorage := 2];
    var first := Responded([StartSync, QueryStorage, ClearStorage], before);
    var second := Responded([StartSync, QueryStorage], after);
    assert first == [1, 2] by {
      assert [StartSync, QueryStorage, ClearStorage] == [StartSync] + [QueryStorage] + [ClearStorage];
      RespondedAppend([StartSync] + [QueryStorage], [ClearStorage], before);
      RespondedAppend([StartSync], [QueryStorage], before);
      RespondedOne(StartSync, before);
      RespondedOne(QueryStorage, before);
      RespondedOne(ClearStorage, before);
    }
    assert second == [3] by {
      assert [StartSync, QueryStorage] == [StartSync] + [QueryStorage];
      RespondedAppend([StartSync], [QueryStorage], after);
      RespondedOne(StartSync, after);
      RespondedOne(QueryStorage, after);
    }
    assert first + second == [1, 2, 3];
    AllFulfilledIffInOrder(first + second);
  }

  /** configure; start, then clear; then a create of model "12345" is sent: the
      subscriber receives exactly that event and the publisher never finishes. */
  method StorageEngineStartClearSend() returns (ops: seq<EngineOp>, received: seq<MutationEvent>, finished: bool)
    ensures ops == [StartSync, ClearStorage]
    ensures |received| == 1 && received[0].modelId == "12345" && received[0].mutationType == Create
    ensures !finished
  {
    var plugin := NewPlugin();
    var publisher := plugin.dataStorePublisher;
    var _ := plugin.Configure();
    publisher.Subscribe();
    var _ := plugin.Start();
    var _ := plugin.Clear();
    publisher.Send(CreateMock);
    received, finished := publisher.delivered, publisher.finished;
    publisher.Cancel();
    ops := Ops(plugin.calls);
  }

  /** configure; start, then stop; then a create of model "12345" is sent: the
      subscriber receives exactly that event and the publisher never finishes. */
  method StorageEngineStartStopSend() returns (ops: seq<EngineOp>, received: seq<MutationEvent>, finished: bool)
    ensures ops == [StartSync, StopSync]
    ensures |received| == 1 && received[0].modelId == "12345" && received[0].mutationType == Create
    ensures !finished
  {
    var plugin := NewPlugin();
    var publisher := plugin.dataStorePublisher;
    var _ := plugin.Configure();
    publisher.Subscribe();
    var _ := plugin.Start();
    var _ := plugin.Stop();
    publisher.Send(CreateMock);
    received, finished := publisher.delivered, publisher.finished;
    publisher.Cancel();
    ops := Ops(plugin.calls);
  }

  /** clear on a plugin that was never configured nor started: the engine's clear
      still runs and the completion reports success. */
  method ClearStorageWhenEngineIsNotStarted() returns (ops: seq<EngineOp>, r: Completion)
    ensures ops == [ClearStorage] && r == Success
  {
    var plugin := NewPlugin();
    r := plugin.Clear();
    ops := Ops(plugin.calls);
  }

  /** start, then the engine's sync stream completes with the given terminal event:
      the plugin dispatches StopSync and keeps its handle. */
  method TerminalEventStops(terminal: SyncCompletion) returns (ops: seq<EngineOp>, hasEngine: bool, finished: bool)
    ensures ops == [StartSync, StopSync] && hasEngine && !finished
  {
    var plugin := NewPlugin();
    var _ := plugin.Start();
    plugin.OnSyncTerminal(terminal);
    ops, hasEngine := Ops(plugin.calls), plugin.storageEngine.Some?;
    finished := plugin.dataStorePublisher.finished;
  }

  /** The `.finished` terminal event. */
  method StopStorageEngineOnTerminalEvent() returns (ops: seq<EngineOp>, hasEngine: bool)
    ensures ops == [StartSync, StopSync] && hasEngine
  {
    var finished;
    ops, hasEngine, finished := TerminalEventStops(Finished);
  }

  /** The `.failure` terminal event. */
  method StopStorageEngineOnTerminalFailureEvent() returns (ops: seq<EngineOp>, hasEngine: bool)
    ensures ops == [StartSync, StopSync] && hasEngine
  {
    var finished;
    ops, hasEngine, finished := TerminalEventStops(Failure(""));
  }
}
