/**
 * The KvStore engine: a mapping from string keys to string values, three
 * mutations that each emit one event and then change the mapping, and the
 * views that read it.
 */
module KvStoreLogic {
  import opened Wrappers
  import opened Events
  import opened Responses
  import opened HostMap

  /**
   * The engine's state: the `items` map, and the events emitted so far, oldest
   * first. The event log stands in for the host's event channel.
   */
  datatype KvStore = KvStore(items: map<string, string>, log: seq<Event>)

  /** The two call shapes `set` accepts: a `{key, value}` record or positional arguments. */
  datatype SetArg =
    | Entry(key: string, value: string)
    | Positional(key: string, maybeValue: Option<string>)

  /** The error `get_unchecked` throws, with its message. */
  datatype Thrown = Thrown(message: string)

  /** What the host map holds for `key`: `undefined` becomes `None`. */
  function Lookup(s: KvStore, key: string): Option<string> {
    if key in s.items then Some(s.items[key]) else None
  }

  /** The last event emitted. */
  function LastEvent(s: KvStore): Event
    requires |s.log| > 0
  {
    s.log[|s.log| - 1]
  }

  /** Hands one event to its handler; the handlers only log, so this records it. */
  function Emit(s: KvStore, e: Event): (s': KvStore)
    ensures s'.items == s.items
    ensures |s'.log| == |s.log| + 1 && s'.log[..|s.log|] == s.log && LastEvent(s') == e
  {
    s.(log := s.log + [e])
  }

  /** `init`: the single starting state. */
  function Init(): (s: KvStore)
    ensures forall k :: Lookup(s, k) == None
    ensures s.log == []
  {
    KvStore(map[], [])
  }

  /** The key a `set` call names. */
  function SetKey(arg: SetArg): string {
    arg.key
  }

  /** The value a `set` call stores; a positional call without a value stores "". */
  function SetValue(arg: SetArg): (v: string)
    ensures arg.Positional? && arg.maybeValue.None? ==> v == ""
    ensures arg.Positional? && arg.maybeValue.Some? ==> v == arg.maybeValue.value
    ensures arg.Entry? ==> v == arg.value
  {
    match arg
    case Entry(_, value) => value
    case Positional(_, maybeValue) => maybeValue.GetOr("")
  }

  /**
   * `set`: emits `Updated` when the key was present and `Inserted` otherwise,
   * then maps the key to the value.
   */
  function Set(s: KvStore, arg: SetArg): (s': KvStore)
    ensures Lookup(s', SetKey(arg)) == Some(SetValue(arg))
    ensures forall k :: k != SetKey(arg) ==> Lookup(s', k) == Lookup(s, k)
    ensures |s'.log| == |s.log| + 1 && s'.log[..|s.log|] == s.log
    ensures LastEvent(s').Updated? <==> SetKey(arg) in s.items
    ensures LastEvent(s') == if SetKey(arg) in s.items then Updated(SetKey(arg), SetValue(arg))
                             else Inserted(SetKey(arg), SetValue(arg))
    ensures |s'.items| == if LastEvent(s').Inserted? then |s.items| + 1 else |s.items|
  {
    var key, value := SetKey(arg), SetValue(arg);
    var present := key in s.items;
    var emitted := Emit(s, if present then Updated(key, value) else Inserted(key, value));
    emitted.(items := emitted.items[key := value])
  }

  /** `entries`: the whole mapping as a JSON object. */
  function Entries(s: KvStore): Response {
    Obj(s.items)
  }

  /** `len`: the number of entries. */
  function Len(s: KvStore): Response {
    Int(|s.items|)
  }

  /** The response for a possibly missing value: `value ?? null`. */
  function OrNull(value: Option<string>): Response {
    match value
    case Some(v) => Str(v)
    case None => Null
  }

  /** `get`: the stored value, or `null` when the key is absent; it never fails. */
  function Get(s: KvStore, key: string): (r: Response)
    ensures r.Str? <==> key in s.items
    ensures r.Str? ==> r.text == s.items[key]
    ensures !r.Str? ==> r == Null
  {
    OrNull(Lookup(s, key))
  }

  /** `get_unchecked`: the stored value; throws `key not found: <key>` when the key is absent. */
  function GetUnchecked(s: KvStore, key: string): (r: Result<Response, Thrown>)
    ensures r.Failure? <==> key !in s.items
    ensures r.Success? ==> r.value == Str(s.items[key])
    ensures r.Failure? ==> r.error == Thrown("key not found: " + key)
  {
    match Lookup(s, key)
    case None => Failure(Thrown("key not found: " + key))
    case Some(value) => Success(Str(value))
  }

  /**
   * `get_result`: the stored value, or the in-band error
   * `{error: {kind: "NotFound", data: key}}` when the key is absent; it never fails.
   */
  function GetResult(s: KvStore, key: string): (r: Response)
    ensures r.Err? <==> key !in s.items
    ensures r.Err? ==> r.kind == NotFoundKind && r.data == key
    ensures !r.Err? ==> r == Str(s.items[key])
  {
    match Lookup(s, key)
    case None => Err(NotFoundKind, key)
    case Some(value) => Str(value)
  }

  /**
   * `remove`: reads the previous value, emits `Removed` whether or not the key
   * was present, deletes the key, and returns the previous value or `null`.
   */
  function Remove(s: KvStore, key: string): (res: (KvStore, Response))
    ensures Lookup(res.0, key) == None
    ensures forall k :: k != key ==> Lookup(res.0, k) == Lookup(s, k)
    ensures key !in s.items ==> res.0.items == s.items
    ensures |res.0.log| == |s.log| + 1 && res.0.log[..|s.log|] == s.log
    ensures LastEvent(res.0) == Removed(key)
    ensures res.1 == Get(s, key)
  {
    var previous := Lookup(s, key);
    var emitted := Emit(s, Removed(key));
    (emitted.(items := emitted.items - {key}), OrNull(previous))
  }

  /** `clear`: emits `Cleared` once, then removes every entry. */
  function Clear(s: KvStore): (s': KvStore)
    ensures forall k :: Lookup(s', k) == None
    ensures |s'.log| == |s.log| + 1 && s'.log[..|s.log|] == s.log
    ensures LastEvent(s') == Cleared
  {
    Emit(s, Cleared).(items := map[])
  }

  /**
   * The loop of `entries`: copies each pair the host map enumerates into a
   * fresh record, which ends up holding exactly the store's mapping.
   */
  method CollectEntries(s: KvStore, pairs: seq<(string, string)>) returns (r: Response)
    requires Enumerates(pairs, s.items)
    ensures r == Entries(s)
  {
    var result: map<string, string> := map[];
    var i := 0;
    while i < |pairs|
      invariant 0 <= i <= |pairs|
      invariant forall j :: 0 <= j < i ==> pairs[j].0 in result
      invariant forall k :: k in result ==> k in s.items && result[k] == s.items[k]
    {
      result := result[pairs[i].0 := pairs[i].1];
      i := i + 1;
    }
    r := Obj(result);
  }

  /**
   * The body of `clear`: after emitting `Cleared`, removes each key of the
   * host's entry snapshot in turn, which leaves no entry behind.
   */
  method ClearEach(s: KvStore, pairs: seq<(string, string)>) returns (s': KvStore)
    requires Enumerates(pairs, s.items)
    ensures s' == Clear(s)
  {
    s' := Emit(s, Cleared);
    var i := 0;
    while i < |pairs|
      invariant 0 <= i <= |pairs|
      invariant s'.log == s.log + [Cleared]
      invariant s'.items.Keys <= s.items.Keys
      invariant forall j :: 0 <= j < i ==> pairs[j].0 !in s'.items
    {
      s' := s'.(items := s'.items - {pairs[i].0});
      i := i + 1;
    }
  }

  /** `len` counts the host's entry array; that count is the number of keys. */
  lemma LenCountsEntries(s: KvStore, pairs: seq<(string, string)>)
    requires Enumerates(pairs, s.items)
    ensures Len(s) == Int(|pairs|)
  {
    EnumerationLength(pairs, s.items);
  }
}
