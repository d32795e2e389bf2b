/** Values shared by the DataStore plugin model: engine handles, the calls the
    plugin makes on its storage engine, mutation events and completion results. */
module DataStoreTypes {

  datatype Option<+T> = None | Some(value: T)

  /** Opaque handle of a storage engine: the n-th engine the engine factory built. */
  type EngineId = nat

  /** The storage-engine operations the plugin drives, one per mock responder key
      (`.startSync`, `.stopSync`, `.clear`, `.query`). */
  datatype EngineOp = StartSync | StopSync | ClearStorage | QueryStorage

  /** One call the plugin made on a storage engine, in the order it was made. */
  datatype Call = Call(op: EngineOp, target: EngineId)

  datatype MutationType = Create | Update | Delete

  /** A create, update or delete of one model instance, forwarded verbatim by the publisher. */
  datatype MutationEvent = MutationEvent(modelId: string, modelName: string, mutationType: MutationType)

  /** The one terminal signal of a sync session on the engine's own event stream. */
  datatype SyncCompletion = Finished | Failure(reason: string)

  datatype DataStoreError = ConfigurationError | NotConfiguredError

  /** What a plugin operation reports to its completion callback. */
  datatype Completion = Success | Failed(error: DataStoreError)

  /** The operations of a call log, in call order. */
  function Ops(calls: seq<Call>): (ops: seq<EngineOp>)
    ensures |ops| == |calls|
    ensures forall i :: 0 <= i < |calls| ==> ops[i] == calls[i].op
  {
    if calls == [] then [] else Ops(calls[..|calls| - 1]) + [calls[|calls| - 1].op]
  }

  /** How many calls of the log are `op`. */
  function Count(calls: seq<Call>, op: EngineOp): nat {
    multiset(Ops(calls))[op]
  }

  lemma OpsAppend(calls: seq<Call>, more: seq<Call>)
    ensures Ops(calls + more) == Ops(calls) + Ops(more)
  {
    assert Ops(calls + more) == Ops(calls) + Ops(more) by {
      var l, r := Ops(calls + more), Ops(calls) + Ops(more);
      assert |l| == |r|;
      forall i | 0 <= i < |l| ensures l[i] == r[i] {
        if i < |calls| { assert (calls + more)[i] == calls[i]; } else { assert (calls + more)[i] == more[i - |calls|]; }
      }
    }
  }
}
