/** Properties of the lifecycle model over whole command sequences. */
module LifecycleProperties {
  import opened DataStoreTypes
  import opened Lifecycle

  /** Running commands one after another keeps the plugin's invariant and leaves the
      publisher open. */
  lemma {:induction false} RunKeepsInv(s: System, cmds: seq<Command>)
    requires Inv(s)
    ensures Inv(Run(s, cmds))
    decreases |cmds|
  {
    if cmds != [] {
      RunKeepsInv(Step(s, cmds[0]), cmds[1..]);
    }
  }

  lemma {:induction false} RunAppend(s: System, a: seq<Command>, b: seq<Command>)
    requires Inv(s)
    ensures Inv(Run(s, a)) && Run(s, a + b) == Run(Run(s, a), b)
    decreases |a|
  {
    RunKeepsInv(s, a);
    if a == [] {
      assert a + b == b;
    } else {
      assert (a + b)[1..] == a[1..] + b;
      RunAppend(Step(s, a[0]), a[1..], b);
    }
  }

  /** No sequence of operations issued to a new plugin ever finishes its publisher,
      whatever stop, clear or terminal sync events it contains. */
  lemma PublisherNeverFinishes(cmds: seq<Command>)
    ensures !Run(Initial, cmds).publisher.finished
    ensures PluginInv(Run(Initial, cmds).plugin)
  {
    RunKeepsInv(Initial, cmds);
  }

  /** What one step appends to the engine-call log; only `start` and a `query` that
      builds its engine dispatch StartSync. */
  lemma StepAppends(s: System, c: Command) returns (more: seq<Call>)
    requires Inv(s)
    ensures Step(s, c).plugin.calls == s.plugin.calls + more
    ensures Count(more, StartSync)
      == if c.Start? || (c.Query? && s.plugin.configured && s.plugin.engine.None?) then 1 else 0
  {
    var p := s.plugin;
    match c
    case Configure => more := [];
    case Start => more := [Call(StartSync, StartState(p).engine.value)];
    case Stop => more := if p.engine.Some? then [Call(StopSync, p.engine.value)] else [];
    case Clear => more := [Call(ClearStorage, EnsureEngine(p).engine.value)];
    case Query =>
      if !p.configured {
        more := [];
      } else if p.engine.None? {
        var e := StartState(p).engine.value;
        more := [Call(StartSync, e), Call(QueryStorage, e)];
      } else {
        more := [Call(QueryStorage, p.engine.value)];
      }
    case SyncTerminal(_) => more := if p.sink.Some? then [Call(StopSync, p.engine.value)] else [];
    case Subscribe => more := [];
    case Cancel => more := [];
    case Send(_) => more := [];
  }

  /** The engine-call log and the subscriber's received events only ever grow. */
  lemma {:induction false} LogsAreAppendOnly(s: System, cmds: seq<Command>)
    requires Inv(s)
    ensures s.plugin.calls <= Run(s, cmds).plugin.calls
    ensures s.publisher.delivered <= Run(s, cmds).publisher.delivered
    decreases |cmds|
  {
    if cmds != [] {
      var t := Step(s, cmds[0]);
      var more := StepAppends(s, cmds[0]);
      assert s.publisher.delivered <= t.publisher.delivered;
      LogsAreAppendOnly(t, cmds[1..]);
    }
  }

  /** Lifecycle operations (configure, start, stop, clear, query, terminal sync
      events) never touch the publisher: it stays, unfinished, with its subscriber
      and everything already delivered. */
  lemma {:induction false} LifecycleLeavesPublisher(s: System, cmds: seq<Command>)
    requires Inv(s)
    requires forall i :: 0 <= i < |cmds| ==> IsLifecycle(cmds[i])
    ensures Run(s, cmds).publisher == s.publisher
    decreases |cmds|
  {
    if cmds != [] {
      LifecycleLeavesPublisher(Step(s, cmds[0]), cmds[1..]);
    }
  }

  /** An event sent after any sequence of lifecycle operations reaches the subscriber
      exactly as sent, and the publisher is still open. */
  lemma SendAfterLifecycle(s: System, cmds: seq<Command>, ev: MutationEvent)
    requires Inv(s) && s.publisher.subscribed
    requires forall i :: 0 <= i < |cmds| ==> IsLifecycle(cmds[i])
    ensures Run(s, cmds + [Send(ev)]).publisher.delivered == s.publisher.delivered + [ev]
    ensures !Run(s, cmds + [Send(ev)]).publisher.finished
  {
    RunAppend(s, cmds, [Send(ev)]);
    LifecycleLeavesPublisher(s, cmds);
  }

  /** StartSync is dispatched by exactly one step kind each: every `start` dispatches
      it once, a `query` dispatches it once when it has to build the engine, and no
      other operation (configure, stop, clear, terminal events) ever dispatches it. */
  lemma StartSyncDispatch(s: System, c: Command)
    requires Inv(s)
    ensures Count(Step(s, c).plugin.calls, StartSync) == Count(s.plugin.calls, StartSync)
      + (if c.Start? || (c.Query? && s.plugin.configured && s.plugin.engine.None?) then 1 else 0)
  {
    var more := StepAppends(s, c);
    OpsAppend(s.plugin.calls, more);
  }

  /** `stop` keeps the handle, and the `start` that follows reuses it: no engine is
      built, and the engine sees StopSync then StartSync. */
  lemma StopThenStartReusesHandle(s: System)
    requires Inv(s) && s.plugin.engine.Some?
    ensures Run(s, [Stop]).plugin.engine == s.plugin.engine
    ensures Run(s, [Stop, Start]).plugin.engine == s.plugin.engine
    ensures Run(s, [Stop, Start]).plugin.enginesBuilt == s.plugin.enginesBuilt
    ensures Run(s, [Stop, Start]).plugin.calls
      == s.plugin.calls + [Call(StopSync, s.plugin.engine.value), Call(StartSync, s.plugin.engine.value)]
  {
    assert [Stop, Start][1..] == [Start];
  }

  lemma RunTwo(s: System, c: Command, d: Command)
    requires Inv(s)
    ensures Run(s, [c]) == Step(s, c)
    ensures Run(s, [c, d]) == Step(Step(s, c), d)
  {
    assert [c][1..] == [] && [c, d][1..] == [d];
    assert Run(Step(s, c), [d]) == Step(Step(s, c), d) by {
      assert [d][1..] == [];
    }
  }

  lemma ClearThenStartLog(p: PluginState)
    requires PluginInv(p)
    ensures Ops(StartState(ClearState(p)).calls) == Ops(p.calls) + [ClearStorage, StartSync]
  {
    var mid := ClearState(p);
    var x := mid.calls[|p.calls|];
    var y := Call(StartSync, StartState(mid).engine.value);
    assert mid.calls == p.calls + [x];
    assert StartState(mid).calls == p.calls + [x, y];
    OpsAppend(p.calls, [x, y]);
    assert [x, y][..1] == [x];
  }

  /** `clear` drops the handle, and the `start` that follows builds an engine never
      used before: the log gains ClearStorage then StartSync, and the new handle is
      the target of no earlier call. */
  lemma ClearThenStartBuildsFreshHandle(s: System)
    requires Inv(s)
    ensures Run(s, [Clear]).plugin.engine.None?
    ensures Run(s, [Clear, Start]).plugin.engine.Some?
    ensures Ops(Run(s, [Clear, Start]).plugin.calls) == Ops(s.plugin.calls) + [ClearStorage, StartSync]
    ensures var e := Run(s, [Clear, Start]).plugin.engine.value;
      && s.plugin.engine != Some(e)
      && forall i :: 0 <= i < |s.plugin.calls| ==> s.plugin.calls[i].target != e
  {
    RunTwo(s, Clear, Start);
    ClearThenStartLog(s.plugin);
  }

  /** The lifecycle state machine: configure leads from NotConfigured to Configured,
      start always ends Started, stop ends Stopped when there is an engine, clear
      returns to the engine-less phase, and a query starts a missing engine but
      leaves a stopped one stopped. */
  lemma PhaseTransitions(s: System)
    requires Inv(s)
    ensures PhaseOf(s.plugin) == NotConfigured ==> PhaseOf(Step(s, Configure).plugin) == Configured
    ensures PhaseOf(Step(s, Start).plugin) == Started
    ensures s.plugin.engine.Some? ==> PhaseOf(Step(s, Stop).plugin) == Stopped
    ensures s.plugin.engine.None? ==> Step(s, Stop) == s
    ensures PhaseOf(Step(s, Clear).plugin) == (if s.plugin.configured then Configured else NotConfigured)
    ensures PhaseOf(s.plugin) == Configured ==> PhaseOf(Step(s, Query).plugin) == Started
    ensures PhaseOf(s.plugin) == Stopped && s.plugin.configured ==>
      PhaseOf(Step(s, Query).plugin) == Stopped
      && Count(Step(s, Query).plugin.calls, StartSync) == Count(s.plugin.calls, StartSync)
  {
    StartSyncDispatch(s, Query);
  }

  /** A terminal sync event, finished or failed, on a started plugin: the plugin
      dispatches exactly one StopSync to its engine, keeps the handle, ends Stopped,
      and leaves the publisher as it was. */
  lemma TerminalEventStopsSync(s: System, c: SyncCompletion)
    requires Inv(s) && PhaseOf(s.plugin) == Started
    ensures Step(s, SyncTerminal(c)).plugin.calls == s.plugin.calls + [Call(StopSync, s.plugin.engine.value)]
    ensures Step(s, SyncTerminal(c)).plugin.engine == s.plugin.engine
    ensures PhaseOf(Step(s, SyncTerminal(c)).plugin) == Stopped
    ensures Step(s, SyncTerminal(c)).publisher == s.publisher
  {
  }

  /** Whether a `configure` is among the commands. */
  predicate ConfiguredBy(cmds: seq<Command>)
    decreases |cmds|
  {
    cmds != [] && (cmds[|cmds| - 1].Configure? || ConfiguredBy(cmds[..|cmds| - 1]))
  }

  /** Whether the commands leave a handle, read off the commands alone: the last
      `start`, or the last `query` issued once configured, comes after the last
      `clear`. */
  predicate HoldsHandle(cmds: seq<Command>)
    decreases |cmds|
  {
    if cmds == [] then false
    else
      var before := cmds[..|cmds| - 1];
      match cmds[|cmds| - 1]
      case Start => true
      case Clear => false
      case Query => ConfiguredBy(before) || HoldsHandle(before)
      case _ => HoldsHandle(before)
  }

  /** A held engine has received a StartSync or StopSync: no operation leaves the
      plugin holding an engine that was built but never synced. */
  predicate EngineSynced(p: PluginState) {
    p.engine.Some? ==> LastSync(p.calls, p.engine.value).Some?
  }

  lemma StepKeepsEngineSynced(s: System, c: Command)
    requires Inv(s) && EngineSynced(s.plugin)
    ensures EngineSynced(Step(s, c).plugin)
  {
    var p := s.plugin;
    match c
    case Query =>
      if p.configured && p.engine.Some? {
        assert PhaseOf(Step(s, c).plugin) == PhaseOf(p);
      }
    case SyncTerminal(t) =>
      if p.sink.Some? {
        assert PhaseOf(StopState(p)) == Stopped;
      }
    case _ =>
  }

  /** Over any command sequence run on a new plugin: the plugin is configured
      exactly when a `configure` was issued, holds a handle exactly when the
      commands say so, and never holds an engine that was not synced. */
  lemma {:induction false} HandleFollowsCommands(cmds: seq<Command>)
    ensures Inv(Run(Initial, cmds))
    ensures Run(Initial, cmds).plugin.configured == ConfiguredBy(cmds)
    ensures Run(Initial, cmds).plugin.engine.Some? == HoldsHandle(cmds)
    ensures EngineSynced(Run(Initial, cmds).plugin)
    decreases |cmds|
  {
    RunKeepsInv(Initial, cmds);
    if cmds != [] {
      var before, c := cmds[..|cmds| - 1], cmds[|cmds| - 1];
      assert cmds == before + [c];
      HandleFollowsCommands(before);
      RunAppend(Initial, before, [c]);
      RunTwo(Run(Initial, before), c, c);
      StepKeepsEngineSynced(Run(Initial, before), c);
    }
  }

  /** Every state a new plugin reaches: a `configure` never changes whether a handle
      is held (so there is none right after the first one), a started plugin listens
      to its engine, and a held engine is Started or Stopped by its own sync calls. */
  lemma ReachableHandlePresence(cmds: seq<Command>)
    ensures Run(Initial, cmds + [Configure]).plugin.engine.Some?
      == Run(Initial, cmds).plugin.engine.Some?
    ensures !HoldsHandle(cmds) ==> Run(Initial, cmds + [Configure]).plugin.engine.None?
    ensures var p := Run(Initial, cmds).plugin;
      (PhaseOf(p) == Started ==> p.sink == p.engine)
      && (p.engine.Some? ==> LastSync(p.calls, p.engine.value).Some?)
  {
    HandleFollowsCommands(cmds);
    HandleFollowsCommands(cmds + [Configure]);
    assert (cmds + [Configure])[..|cmds|] == cmds;
  }
}
