/** The four typed events a mutation of the store emits, and what each one records. */
module Events {

  datatype Event =
    | Inserted(key: string, value: string)
    | Updated(key: string, value: string)
    | Removed(key: string)
    | Cleared

  /** The state change an event describes, applied to a key/value mapping. */
  function Apply(m: map<string, string>, e: Event): map<string, string> {
    match e
    case Inserted(k, v) => m[k := v]
    case Updated(k, v) => m[k := v]
    case Removed(k) => m - {k}
    case Cleared => map[]
  }

  /** Applies a log of events to `m`, oldest first. */
  function Replay(m: map<string, string>, log: seq<Event>): map<string, string>
    decreases |log|
  {
    if log == [] then m else Apply(Replay(m, log[..|log| - 1]), log[|log| - 1])
  }

  /** Replaying one more event is applying it to the replay of the log before it. */
  lemma ReplayAppend(m: map<string, string>, log: seq<Event>, e: Event)
    ensures Replay(m, log + [e]) == Apply(Replay(m, log), e)
  {
  }
}
