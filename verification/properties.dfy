/** Properties of the engine's operations, stated through the views a caller sees. */
module KvStoreProperties {
  import opened Wrappers
  import opened Events
  import opened Responses
  import opened KvStoreLogic

  /** A fresh store has no entries: `len` is 0, `entries` is `{}`, every lookup misses. */
  lemma InitIsEmpty(k: string)
    ensures Len(Init()) == Int(0)
    ensures Entries(Init()) == Obj(map[])
    ensures Get(Init(), k) == Null
    ensures GetUnchecked(Init(), k) == Failure(Thrown("key not found: " + k))
    ensures GetResult(Init(), k) == Err("NotFound", k)
  {
  }

  /** The three `get` variants agree: one hits exactly when the others do, with the same value. */
  lemma GetVariantsAgree(s: KvStore, k: string)
    ensures Get(s, k).Str? <==> GetUnchecked(s, k).Success?
    ensures Get(s, k).Str? <==> !GetResult(s, k).Err?
    ensures GetUnchecked(s, k).Success? ==> GetUnchecked(s, k).value == Get(s, k) == GetResult(s, k)
  {
  }

  /** `entries` and `get` agree on every key, and `len` is the number of keys `entries` lists. */
  lemma ViewsAgree(s: KvStore, k: string)
    ensures k in Entries(s).fields <==> Get(s, k).Str?
    ensures k in Entries(s).fields ==> Get(s, k) == Str(Entries(s).fields[k])
    ensures Len(s) == Int(|Entries(s).fields|)
  {
  }

  /** After `set(k, v)`, `get(k)` is `v` and every other key reads as before. */
  lemma SetThenGet(s: KvStore, k: string, v: string, other: string)
    requires other != k
    ensures Get(Set(s, Entry(k, v)), k) == Str(v)
    ensures Get(Set(s, Entry(k, v)), other) == Get(s, other)
  {
  }

  /** `len` grows by one exactly when `set` emitted `Inserted`, and is unchanged on `Updated`. */
  lemma SetLenFollowsEvent(s: KvStore, arg: SetArg)
    ensures LastEvent(Set(s, arg)).Inserted? <==> Len(Set(s, arg)) == Int(|s.items| + 1)
    ensures LastEvent(Set(s, arg)).Updated? <==> Len(Set(s, arg)) == Len(s)
  {
  }

  /** Setting a key twice: the second call emits `Updated`, and the latest value wins. */
  lemma SetTwiceLastWriteWins(s: KvStore, k: string, v1: string, v2: string)
    ensures LastEvent(Set(Set(s, Entry(k, v1)), Entry(k, v2))) == Updated(k, v2)
    ensures Get(Set(Set(s, Entry(k, v1)), Entry(k, v2)), k) == Str(v2)
    ensures Set(Set(s, Entry(k, v1)), Entry(k, v2)).items == Set(s, Entry(k, v2)).items
  {
  }

  /** The positional call `set(k)` without a value stores the empty string. */
  lemma PositionalSetStoresEmpty(s: KvStore, k: string)
    ensures Get(Set(s, Positional(k, None)), k) == Str("")
    ensures Set(s, Positional(k, None)) == Set(s, Entry(k, ""))
  {
  }

  /** Both call shapes of `set` with the same key and value have the same effect. */
  lemma SetCallShapesAgree(s: KvStore, k: string, v: string)
    ensures Set(s, Positional(k, Some(v))) == Set(s, Entry(k, v))
  {
  }

  /** `remove` on a missing key: no error, `null` returned, store unchanged, `Removed` still emitted. */
  lemma RemoveMissingKey(s: KvStore, k: string)
    requires k !in s.items
    ensures Remove(s, k).1 == Null
    ensures Remove(s, k).0.items == s.items
    ensures Remove(s, k).0.log == s.log + [Removed(k)]
  {
  }

  /** `set` then `remove` returns the value just set and leaves the other keys as they were. */
  lemma SetThenRemove(s: KvStore, k: string, v: string)
    ensures Remove(Set(s, Entry(k, v)), k).1 == Str(v)
    ensures Remove(Set(s, Entry(k, v)), k).0.items == s.items - {k}
  {
  }

  /** After `clear`, whatever the store held, `len` is 0 and `entries` is `{}`. */
  lemma ClearEmpties(s: KvStore, k: string)
    ensures Len(Clear(s)) == Int(0)
    ensures Entries(Clear(s)) == Obj(map[])
    ensures Get(Clear(s), k) == Null
  {
  }
}
