/** The DataStore plugin and its mutation-event publisher as objects whose fields
    the operations update in place. Each method is tied to the step function of the
    lifecycle model that specifies it; the properties of those functions are proved
    in LifecycleProperties. */
module DataStorePlugin {
  import opened DataStoreTypes
  import opened Lifecycle

  /** The long-lived broadcast point for mutation events, created once and handed to
      the plugin; it has one subscriber slot (the client's sink). */
  class DataStorePublisher {
    var finished: bool
    var subscribed: bool
    var delivered: seq<MutationEvent>

    function State(): PublisherState
      reads this
    {
      PublisherState(finished, subscribed, delivered)
    }

    constructor ()
      ensures State() == InitialPublisher
    {
      finished, subscribed, delivered := false, false, [];
    }

    /** A sink subscribes: it receives the events sent from now on, none before. */
    method Subscribe()
      modifies this
      ensures State() == SubscribeState(old(State()))
      ensures subscribed && finished == old(finished) && delivered == old(delivered)
    {
      subscribed := true;
    }

    /** The sink is cancelled: later events go nowhere. */
    method Cancel()
      modifies this
      ensures State() == CancelState(old(State()))
      ensures !subscribed && finished == old(finished) && delivered == old(delivered)
    {
      subscribed := false;
    }

    /** `send(input:)`: the event reaches the subscriber unchanged; with no
        subscriber it is dropped, not buffered. The publisher never finishes here. */
    method Send(ev: MutationEvent)
      modifies this
      ensures State() == SendState(old(State()), ev)
      ensures delivered == old(delivered) + (if old(subscribed) then [ev] else [])
      ensures finished == old(finished) && subscribed == old(subscribed)
    {
      if subscribed {
        delivered := delivered + [ev];
      }
    }
  }

  /** The plugin: a lazily built storage-engine handle, the subscription to that
      engine's terminal events, the count of engines the factory has built, and the
      log of every call made on an engine. The publisher is a separate object the
      lifecycle methods never modify. */
  class AWSDataStorePlugin {
    const dataStorePublisher: DataStorePublisher
    var configured: bool
    var storageEngine: Option<EngineId>
    var storageEngineSink: Option<EngineId>
    var enginesBuilt: nat
    var calls: seq<Call>

    function State(): PluginState
      reads this
    {
      PluginState(configured, storageEngine, storageEngineSink, enginesBuilt, calls)
    }

    ghost predicate Valid()
      reads this
    {
      PluginInv(State())
    }

    constructor (publisher: DataStorePublisher)
      ensures Valid() && State() == InitialPlugin
      ensures dataStorePublisher == publisher
    {
      dataStorePublisher := publisher;
      configured, storageEngine, storageEngineSink, enginesBuilt, calls := false, None, None, 0, [];
    }

    /** `configure(using:)`: records the configuration; builds and starts nothing. */
    method Configure() returns (r: Completion)
      requires Valid()
      modifies this
      ensures Valid() && State() == ConfigureState(old(State()))
      ensures r == ConfigureReply(old(State()))
      ensures configured && storageEngine == old(storageEngine) && calls == old(calls)
      ensures unchanged(dataStorePublisher)
    {
      if configured {
        r := Failed(ConfigurationError);
      } else {
        configured := true;
        r := Success;
      }
    }

    /** Reuses the handle when there is one; otherwise asks the factory for a new
        engine and subscribes to its terminal events. */
    method InitStorageEngine()
      requires Valid()
      modifies this
      ensures Valid() && State() == EnsureEngine(old(State()))
      ensures storageEngine.Some? && calls == old(calls)
    {
      if storageEngine.None? {
        var e := enginesBuilt;
        storageEngine, storageEngineSink, enginesBuilt := Some(e), Some(e), e + 1;
      }
    }

    /** `start`: dispatches StartSync to the (possibly new) engine and completes. */
    method Start() returns (r: Completion)
      requires Valid()
      modifies this
      ensures Valid() && State() == StartState(old(State())) && r == Success
      ensures storageEngine.Some? && calls == old(calls) + [Call(StartSync, storageEngine.value)]
      ensures old(storageEngine).Some? ==> storageEngine == old(storageEngine)
      ensures unchanged(dataStorePublisher)
    {
      InitStorageEngine();
      storageEngineSink := storageEngine;
      calls := calls + [Call(StartSync, storageEngine.value)];
      r := Success;
    }

    /** `stop`: completes at once without an engine; otherwise dispatches StopSync
        and keeps the handle. */
    method Stop() returns (r: Completion)
      requires Valid()
      modifies this
      ensures Valid() && State() == StopState(old(State())) && r == Success
      ensures storageEngine == old(storageEngine)
      ensures calls == old(calls) + (if storageEngine.Some? then [Call(StopSync, storageEngine.value)] else [])
      ensures unchanged(dataStorePublisher)
    {
      if storageEngine.Some? {
        calls := calls + [Call(StopSync, storageEngine.value)];
      }
      r := Success;
    }

    /** `clear`: runs the engine's clear (building an engine first if there is none),
        then drops the handle and the terminal subscription. */
    method Clear() returns (r: Completion)
      requires Valid()
      modifies this
      ensures Valid() && State() == ClearState(old(State())) && r == Success
      ensures storageEngine.None? && |calls| == |old(calls)| + 1 && calls[..|old(calls)|] == old(calls)
      ensures calls[|old(calls)|].op == ClearStorage
      ensures unchanged(dataStorePublisher)
    {
      InitStorageEngine();
      calls := calls + [Call(ClearStorage, storageEngine.value)];
      storageEngine, storageEngineSink := None, None;
      r := Success;
    }

    /** `query`: fails before `configure`; otherwise starts a missing engine and
        queries it. */
    method Query() returns (r: Completion)
      requires Valid()
      modifies this
      ensures Valid() && State() == QueryState(old(State())) && r == QueryReply(old(State()))
      ensures configured ==> storageEngine.Some? && calls[|calls| - 1] == Call(QueryStorage, storageEngine.value)
      ensures unchanged(dataStorePublisher)
    {
      if !configured {
        r := Failed(NotConfiguredError);
        return;
      }
      if storageEngine.None? {
        var _ := Start();
      }
      calls := calls + [Call(QueryStorage, storageEngine.value)];
      r := Success;
    }

    /** The engine's sync stream ended (finished or failed): while subscribed, the
        plugin stops sync as `stop` would; the subscription is then spent. The
        publisher is not told. */
    method OnSyncTerminal(c: SyncCompletion)
      requires Valid()
      modifies this
      ensures Valid() && State() == TerminalState(old(State()), c)
      ensures storageEngine == old(storageEngine)
      ensures unchanged(dataStorePublisher)
    {
      if storageEngineSink.Some? {
        var _ := Stop();
        storageEngineSink := None;
      }
    }
  }
}
