/**
 * The table of named operations the host dispatches to the engine, each
 * tagged as a mutation or a view, and runs of several invocations in turn.
 */
module Dispatch {
  import opened Wrappers
  import opened Events
  import opened Responses
  import K = KvStoreLogic

  datatype Op =
    | Set(arg: K.SetArg)
    | Get(key: string)
    | GetUnchecked(key: string)
    | GetResult(key: string)
    | Remove(key: string)
    | Clear
    | Entries
    | Len

  /** `set`, `remove` and `clear` change the store; the other entry points are views. */
  predicate IsMutation(op: Op) {
    op.Set? || op.Remove? || op.Clear?
  }

  /** What an invocation returns: nothing (`set`, `clear`) or an encoded payload. */
  datatype Reply = Ack | Payload(response: Response)

  /** One invocation: the new state and the reply, or the error it throws. */
  function Step(s: K.KvStore, op: Op): Result<(K.KvStore, Reply), K.Thrown> {
    match op
    case Set(arg) => Success((K.Set(s, arg), Ack))
    case Get(key) => Success((s, Payload(K.Get(s, key))))
    case GetUnchecked(key) =>
      (match K.GetUnchecked(s, key)
       case Success(r) => Success((s, Payload(r)))
       case Failure(e) => Failure(e))
    case GetResult(key) => Success((s, Payload(K.GetResult(s, key))))
    case Remove(key) =>
      var (s', r) := K.Remove(s, key);
      Success((s', Payload(r)))
    case Clear => Success((K.Clear(s), Ack))
    case Entries => Success((s, Payload(K.Entries(s))))
    case Len => Success((s, Payload(K.Len(s))))
  }

  /** The state after one invocation; one that throws leaves the state as it was. */
  function After(s: K.KvStore, op: Op): K.KvStore {
    match Step(s, op)
    case Success(p) => p.0
    case Failure(_) => s
  }

  /** The state after a sequence of invocations, one at a time. */
  function Run(s: K.KvStore, ops: seq<Op>): K.KvStore
    decreases |ops|
  {
    if ops == [] then s else Run(After(s, ops[0]), ops[1..])
  }

  /** The number of mutations among `ops`. */
  function MutationCount(ops: seq<Op>): nat
    decreases |ops|
  {
    if ops == [] then 0 else (if IsMutation(ops[0]) then 1 else 0) + MutationCount(ops[1..])
  }

  /** The event a mutation is expected to emit, given the state it runs on. */
  predicate EmitsFor(s: K.KvStore, op: Op, e: Event)
    requires IsMutation(op)
  {
    match op
    case Set(arg) =>
      e == (if K.SetKey(arg) in s.items then Updated(K.SetKey(arg), K.SetValue(arg))
            else Inserted(K.SetKey(arg), K.SetValue(arg)))
    case Remove(key) => e == Removed(key)
    case Clear => e == Cleared
  }

  /** Only `get_unchecked` can fail, and only on a missing key. */
  lemma StepFailsOnlyOnMissingKey(s: K.KvStore, op: Op)
    ensures Step(s, op).Failure? <==> op.GetUnchecked? && op.key !in s.items
  {
  }

  /** A view returns a payload and leaves the store, event log included, as it was. */
  lemma ViewLeavesStore(s: K.KvStore, op: Op)
    requires !IsMutation(op)
    ensures Step(s, op).Success? ==> Step(s, op).value.0 == s && Step(s, op).value.1.Payload?
    ensures After(s, op) == s
  {
  }

  /**
   * A mutation never fails and appends exactly one event, the one its kind calls
   * for; `set` and `clear` return nothing, `remove` returns a payload.
   */
  lemma MutationEmitsOneEvent(s: K.KvStore, op: Op)
    requires IsMutation(op)
    ensures Step(s, op).Success?
    ensures Step(s, op).value.1.Ack? <==> !op.Remove?
    ensures var s' := After(s, op);
      |s'.log| == |s.log| + 1 && s'.log[..|s.log|] == s.log && EmitsFor(s, op, K.LastEvent(s'))
  {
  }

  /** Over a run, the log grows by one event per mutation and by none per view. */
  lemma {:induction false} LogCountsMutations(s: K.KvStore, ops: seq<Op>)
    ensures |Run(s, ops).log| == |s.log| + MutationCount(ops)
    decreases |ops|
  {
    if ops != [] {
      if IsMutation(ops[0]) {
        MutationEmitsOneEvent(s, ops[0]);
      } else {
        ViewLeavesStore(s, ops[0]);
      }
      LogCountsMutations(After(s, ops[0]), ops[1..]);
    }
  }

  /** Replaying the events of one invocation tracks the change it makes to the mapping. */
  lemma StepKeepsReplay(m0: map<string, string>, s: K.KvStore, op: Op)
    requires Replay(m0, s.log) == s.items
    ensures Replay(m0, After(s, op).log) == After(s, op).items
  {
    if IsMutation(op) {
      var e := K.LastEvent(After(s, op));
      MutationEmitsOneEvent(s, op);
      assert After(s, op).log == s.log + [e];
      ReplayAppend(m0, s.log, e);
    }
  }

  /** Replaying the event log from the start reproduces the current mapping after any run. */
  lemma {:induction false} RunKeepsReplay(m0: map<string, string>, s: K.KvStore, ops: seq<Op>)
    requires Replay(m0, s.log) == s.items
    ensures Replay(m0, Run(s, ops).log) == Run(s, ops).items
    decreases |ops|
  {
    if ops != [] {
      StepKeepsReplay(m0, s, ops[0]);
      RunKeepsReplay(m0, After(s, ops[0]), ops[1..]);
    }
  }

  /**
   * From `init`, `entries` returns exactly the pairs the emitted `Inserted`,
   * `Updated`, `Removed` and `Cleared` events establish, and the log holds one
   * event per mutation.
   */
  lemma {:induction false} EntriesAreReplayOfEvents(ops: seq<Op>)
    ensures K.Entries(Run(K.Init(), ops)) == Obj(Replay(map[], Run(K.Init(), ops).log))
    ensures |Run(K.Init(), ops).log| == MutationCount(ops)
  {
    RunKeepsReplay(map[], K.Init(), ops);
    LogCountsMutations(K.Init(), ops);
  }

  /** `set("a","1")`, `set("b","2")`, `remove("a")`: `entries` is `{"b":"2"}` and `len` is 1. */
  lemma ScenarioSetSetRemove()
    ensures var s := Run(K.Init(), [Set(K.Entry("a", "1")), Set(K.Entry("b", "2")), Remove("a")]);
      && K.Entries(s) == Obj(map["b" := "2"])
      && K.Len(s) == Int(1)
      && s.log == [Inserted("a", "1"), Inserted("b", "2"), Removed("a")]
  {
  }
}
