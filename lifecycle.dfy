/** The plugin's lifecycle as values: the state the plugin keeps, one step function
    per operation, and runs of whole command sequences. Operations are atomic and
    their completions run synchronously, in call order. */
module Lifecycle {
  import opened DataStoreTypes

  /** What the plugin holds: whether `configure` ran, the lazily built engine handle,
      the subscription to that engine's terminal-event stream, how many engines the
      factory has built, and every call the plugin has made on an engine. */
  datatype PluginState = PluginState(
    configured: bool,
    engine: Option<EngineId>,
    sink: Option<EngineId>,
    enginesBuilt: nat,
    calls: seq<Call>)

  /** The mutation-event publisher with its one subscriber. */
  datatype PublisherState = PublisherState(finished: bool, subscribed: bool, delivered: seq<MutationEvent>)

  datatype System = System(plugin: PluginState, publisher: PublisherState)

  datatype Phase = NotConfigured | Configured | Started | Stopped

  datatype Command =
    | Configure
    | Start
    | Stop
    | Clear
    | Query
    | SyncTerminal(completion: SyncCompletion)
    | Subscribe
    | Cancel
    | Send(event: MutationEvent)

  const InitialPlugin := PluginState(false, None, None, 0, [])
  const InitialPublisher := PublisherState(false, false, [])
  const Initial := System(InitialPlugin, InitialPublisher)

  predicate IsSyncOp(op: EngineOp) {
    op == StartSync || op == StopSync
  }

  /** The last StartSync or StopSync the log sent to engine `e`, if any. */
  function LastSync(calls: seq<Call>, e: EngineId): Option<EngineOp> {
    if calls == [] then None
    else
      var c := calls[|calls| - 1];
      if c.target == e && IsSyncOp(c.op) then Some(c.op)
      else LastSync(calls[..|calls| - 1], e)
  }

  /** The phase of the lifecycle state machine: an engine is started when the last
      sync call sent to it was StartSync. */
  function PhaseOf(p: PluginState): Phase {
    match p.engine
    case None => if p.configured then Configured else NotConfigured
    case Some(e) => if LastSync(p.calls, e) == Some(StartSync) then Started else Stopped
  }

  /** The plugin's invariant: the handle and every call refer to an engine the factory
      built, the terminal subscription belongs to the current engine, and a started
      engine is always being listened to. */
  predicate PluginInv(p: PluginState) {
    && (p.engine.Some? ==> p.engine.value < p.enginesBuilt)
    && (p.sink.Some? ==> p.sink == p.engine)
    && (forall i :: 0 <= i < |p.calls| ==> p.calls[i].target < p.enginesBuilt)
    && (PhaseOf(p) == Started ==> p.sink.Some?)
  }

  predicate Inv(s: System) {
    PluginInv(s.plugin) && !s.publisher.finished
  }

  lemma {:induction false} LastSyncAppend(calls: seq<Call>, c: Call, e: EngineId)
    ensures LastSync(calls + [c], e)
      == if c.target == e && IsSyncOp(c.op) then Some(c.op) else LastSync(calls, e)
  {
    assert (calls + [c])[..|calls|] == calls;
  }

  lemma {:induction false} LastSyncUnused(calls: seq<Call>, e: EngineId)
    requires forall i :: 0 <= i < |calls| ==> calls[i].target != e
    ensures LastSync(calls, e) == None
  {
    if calls != [] {
      var init := calls[..|calls| - 1];
      assert forall i :: 0 <= i < |init| ==> init[i] == calls[i];
      LastSyncUnused(init, e);
    }
  }

  /** The shared "ensure engine" step of `start` and `query`: reuse the handle when
      there is one, otherwise build an engine never used before and subscribe to its
      terminal events. */
  function EnsureEngine(p: PluginState): (r: PluginState)
    requires PluginInv(p)
    ensures r.engine.Some? && r.calls == p.calls && r.configured == p.configured
    ensures p.engine.Some? ==> r == p
    ensures p.engine.None? ==> (r.sink == r.engine && r.enginesBuilt == p.enginesBuilt + 1
      && forall i :: 0 <= i < |p.calls| ==> p.calls[i].target != r.engine.value)
    ensures PluginInv(r) && r.engine.value < r.enginesBuilt
  {
    if p.engine.Some? then p
    else
      var e := p.enginesBuilt;
      LastSyncUnused(p.calls, e);
      p.(engine := Some(e), sink := Some(e), enginesBuilt := e + 1)
  }

  /** `configure`: marks the plugin configured and neither builds nor starts an engine;
      a second `configure` is refused and changes nothing. */
  function ConfigureState(p: PluginState): (r: PluginState)
    ensures r.calls == p.calls && r.engine == p.engine && r.sink == p.sink
    ensures r.enginesBuilt == p.enginesBuilt && r.configured
    ensures PluginInv(p) ==> PluginInv(r)
  {
    if p.configured then p else p.(configured := true)
  }

  function ConfigureReply(p: PluginState): (r: Completion)
    ensures r.Failed? <==> p.configured
  {
    if p.configured then Failed(ConfigurationError) else Success
  }

  /** `start`: ensures an engine, subscribes to its terminal events if not subscribed,
      and dispatches exactly one StartSync to it. */
  function StartState(p: PluginState): (r: PluginState)
    requires PluginInv(p)
    ensures r.engine.Some? && r.sink == r.engine && r.configured == p.configured
    ensures p.engine.Some? ==> r.engine == p.engine && r.enginesBuilt == p.enginesBuilt
    ensures r.calls == p.calls + [Call(StartSync, r.engine.value)]
    ensures PluginInv(r) && PhaseOf(r) == Started
  {
    var q := EnsureEngine(p);
    var e := q.engine.value;
    LastSyncAppend(q.calls, Call(StartSync, e), e);
    q.(sink := Some(e), calls := q.calls + [Call(StartSync, e)])
  }

  /** `stop`: a no-op without an engine; otherwise one StopSync to the engine, whose
      handle and terminal subscription are kept. */
  function StopState(p: PluginState): (r: PluginState)
    requires PluginInv(p)
    ensures p.engine.None? ==> r == p
    ensures p.engine.Some? ==> (r.engine == p.engine && r.sink == p.sink
      && r.calls == p.calls + [Call(StopSync, p.engine.value)] && PhaseOf(r) == Stopped)
    ensures r.configured == p.configured && r.enginesBuilt == p.enginesBuilt
    ensures PluginInv(r)
  {
    if p.engine.None? then p
    else
      var e := p.engine.value;
      LastSyncAppend(p.calls, Call(StopSync, e), e);
      p.(calls := p.calls + [Call(StopSync, e)])
  }

  /** `clear`: the engine's clear runs on the current engine, or on a transient one
      built just for it; either way the plugin ends with no handle and no terminal
      subscription, and no sync is started or stopped. */
  function ClearState(p: PluginState): (r: PluginState)
    requires PluginInv(p)
    ensures r.engine.None? && r.sink.None? && r.configured == p.configured
    ensures p.engine.Some? ==> (r.enginesBuilt == p.enginesBuilt
      && r.calls == p.calls + [Call(ClearStorage, p.engine.value)])
    ensures p.engine.None? ==> (r.enginesBuilt == p.enginesBuilt + 1
      && r.calls == p.calls + [Call(ClearStorage, p.enginesBuilt)])
    ensures PluginInv(r)
  {
    var q := EnsureEngine(p);
    var e := q.engine.value;
    q.(engine := None, sink := None, calls := q.calls + [Call(ClearStorage, e)])
  }

  /** `query`: refused before `configure`; otherwise it runs against the current
      engine, first doing an implicit start when there is none. A stopped engine is
      queried as it is, without starting sync. */
  function QueryState(p: PluginState): (r: PluginState)
    requires PluginInv(p)
    ensures !p.configured ==> r == p
    ensures p.configured ==> r.engine.Some? && r.configured
    ensures p.configured && p.engine.None? ==> (r.engine == StartState(p).engine
      && r.calls == StartState(p).calls + [Call(QueryStorage, r.engine.value)] && PhaseOf(r) == Started)
    ensures p.configured && p.engine.Some? ==> (r.engine == p.engine && r.sink == p.sink
      && r.calls == p.calls + [Call(QueryStorage, p.engine.value)] && PhaseOf(r) == PhaseOf(p))
    ensures PluginInv(r)
  {
    if !p.configured then p
    else if p.engine.None? then
      var q := StartState(p);
      var e := q.engine.value;
      LastSyncAppend(q.calls, Call(QueryStorage, e), e);
      q.(calls := q.calls + [Call(QueryStorage, e)])
    else
      var e := p.engine.value;
      LastSyncAppend(p.calls, Call(QueryStorage, e), e);
      p.(calls := p.calls + [Call(QueryStorage, e)])
  }

  function QueryReply(p: PluginState): (r: Completion)
    ensures r.Failed? <==> !p.configured
  {
    if p.configured then Success else Failed(NotConfiguredError)
  }

  /** A terminal event (finished or failed) on the engine's sync stream: while the
      plugin listens, it stops sync exactly as `stop` does and the subscription,
      having received its completion, ends. Without a subscription nothing happens. */
  function TerminalState(p: PluginState, c: SyncCompletion): (r: PluginState)
    requires PluginInv(p)
    ensures p.sink.None? ==> r == p
    ensures p.sink.Some? ==> r == StopState(p).(sink := None)
    ensures PluginInv(r)
  {
    if p.sink.None? then p else StopState(p).(sink := None)
  }

  function SubscribeState(u: PublisherState): PublisherState {
    u.(subscribed := true)
  }

  function CancelState(u: PublisherState): PublisherState {
    u.(subscribed := false)
  }

  /** `send`: the subscriber, if there is one, receives the event; with none it is dropped. */
  function SendState(u: PublisherState, ev: MutationEvent): (r: PublisherState)
    ensures r.finished == u.finished && r.subscribed == u.subscribed
    ensures r.delivered == u.delivered + (if u.subscribed then [ev] else [])
  {
    if u.subscribed then u.(delivered := u.delivered + [ev]) else u
  }

  /** One command applied to the whole system. */
  function Step(s: System, c: Command): (r: System)
    requires Inv(s)
    ensures Inv(r)
  {
    match c
    case Configure => s.(plugin := ConfigureState(s.plugin))
    case Start => s.(plugin := StartState(s.plugin))
    case Stop => s.(plugin := StopState(s.plugin))
    case Clear => s.(plugin := ClearState(s.plugin))
    case Query => s.(plugin := QueryState(s.plugin))
    case SyncTerminal(t) => s.(plugin := TerminalState(s.plugin, t))
    case Subscribe => s.(publisher := SubscribeState(s.publisher))
    case Cancel => s.(publisher := CancelState(s.publisher))
    case Send(ev) => s.(publisher := SendState(s.publisher, ev))
  }

  /** The commands in order, each issued after the previous one completed. */
  function Run(s: System, cmds: seq<Command>): System
    requires Inv(s)
    decreases |cmds|
  {
    if cmds == [] then s else Run(Step(s, cmds[0]), cmds[1..])
  }

  /** The plugin operations, as opposed to the publisher's own. */
  predicate IsLifecycle(c: Command) {
    !(c.Subscribe? || c.Cancel? || c.Send?)
  }
}
