# KvStore engine, modelled in Dafny

This project models the KvStore engine of the key-value store application. The engine holds
`items`, a mapping from string keys to string values. It offers three mutations, `set`,
`remove` and `clear`. Each mutation first emits one typed event (`Inserted`, `Updated`,
`Removed` or `Cleared`) and then changes the mapping. It also offers the views `get`,
`get_unchecked`, `get_result`, `entries` and `len`. These read the mapping and return an
encoded response.

Files:

- `wrappers.dfy` (`Wrappers`): `Option` for TypeScript's `undefined`, and `Result` for an
  invocation that returns or throws.
- `events.dfy` (`Events`): the four event variants. `Apply` gives the state change each one
  describes, and `Replay` folds a log of events over a mapping.
- `responses.dfy` (`Responses`): the payloads handed to the JSON encoder. These are `null`, a
  string, a count, an object of string fields, and the in-band error
  `{error: {kind, data}}`.
- `host_map.dfy` (`HostMap`): what the engine relies on from the host's unordered map.
  `entries()` lists every pair exactly once, in an order the host chooses.
- `kv_store.dfy` (`KvStoreLogic`): the state `KvStore(items, log)`, `init`, every operation as a
  pure function, and the `entries` and `clear` loops as methods over the host's enumeration.
- `dispatch.dfy` (`Dispatch`): the table of named entry points, each tagged as a mutation or a
  view. It also holds one invocation (`Step`), runs of several invocations (`Run`), and the
  lemmas about runs.
- `properties.dfy` (`KvStoreProperties`): per-operation properties, stated through the views.

The state is immutable. Each operation maps the old `KvStore` to a new one. The event log is
an ordinary field of the state, because the emitted events are an output the host sees.
It stands in for the host's event channel. Every handler only writes a log line, so the
only observable effect of emitting an event is the event itself, appended to the log.

Two points about `set`:

- `set` does not check that a key is non-empty, so any string is a key.
- `set` accepts both the `{key, value}` record and positional arguments. `SetArg` models both,
  and a positional call without a value stores `""`.

`Entries`, `Len` and `Dispatch.Step` carry no contract of their own. Their meaning is given by
the members that relate them to the source: `CollectEntries` and `ViewsAgree` for `Entries`,
`LenCountsEntries` for `Len`, and `StepFailsOnlyOnMissingKey`, `ViewLeavesStore` and
`MutationEmitsOneEvent` for `Step`.

## Model

| member | source | states |
|---|---|---|
| KvStoreLogic.Init | logic/src/index.ts:41-45 | the initial store maps no key and has emitted no event |
| KvStoreLogic.Emit | logic/src/index.ts:59-125 | each of the four `emitWithHandler` calls (lines 59, 61, 118 and 125) leaves the mapping alone and appends exactly that one event to the log |
| KvStoreLogic.SetValue | logic/src/index.ts:51-52 | a record call stores its `value`; a positional call stores its second argument, or `""` when it is missing |
| KvStoreLogic.Set | logic/src/index.ts:47-65 | afterwards the key reads as the new value and every other key reads as before; exactly one event is appended: `Updated(k, v)` if the key was present, else `Inserted(k, v)`; the size grows by one exactly on `Inserted` |
| KvStoreLogic.Get | logic/src/index.ts:83-88 | returns a string exactly when the key is present, and then it is the stored value; otherwise `null`; never fails |
| KvStoreLogic.GetUnchecked | logic/src/index.ts:90-98 | fails exactly when the key is absent, with the message `key not found: <key>`; otherwise returns the stored value |
| KvStoreLogic.GetResult | logic/src/index.ts:100-113 | never fails; returns the in-band error with kind `NotFound` and data the key exactly when the key is absent, otherwise the stored value |
| KvStoreLogic.Remove | logic/src/index.ts:115-121 | afterwards the key is absent and every other key reads as before; on an absent key the mapping is unchanged; exactly one `Removed(key)` is appended, present or not; the response is what `get` returned before |
| KvStoreLogic.Clear | logic/src/index.ts:123-129 | afterwards no key is present, and exactly one `Cleared` is appended |
| KvStoreLogic.CollectEntries | logic/src/index.ts:67-75 | copying each enumerated pair into a fresh record yields exactly the store's mapping, which is what `Entries` returns |
| KvStoreLogic.ClearEach | logic/src/index.ts:123-129 | emitting `Cleared` and then removing each key of the entry snapshot gives the same state as `Clear` |
| KvStoreLogic.LenCountsEntries | logic/src/index.ts:77-81 | the length of the host's entry list, which `len` returns, is the number of keys that `Len` reports |
| HostMap.SomeEnumeration | logic/src/index.ts:71 | every mapping has an enumeration listing each key once, so the iterating views can always run |
| HostMap.EnumerationLength | logic/src/index.ts:80 | an enumeration that lists each key once has exactly as many pairs as the map has keys |
| Dispatch.StepFailsOnlyOnMissingKey | logic/src/index.ts:90-98 | `Step`, the host's dispatch of a named entry point, fails exactly when the entry point is `get_unchecked` on an absent key |
| Dispatch.ViewLeavesStore | logic/src/index.ts:67-113 | under `Step`, every view returns a payload and leaves the mapping and the event log unchanged |
| Dispatch.MutationEmitsOneEvent | logic/src/index.ts:56-64 | under `Step`, every mutation succeeds and appends exactly one event, the one its kind and the prior state call for; `set` and `clear` return nothing and `remove` returns a payload |
| Dispatch.LogCountsMutations | logic/src/index.ts:47-129 | over any run, the log grows by exactly one event per mutation and none per view |
| Dispatch.StepKeepsReplay | logic/src/index.ts:12-28 | if replaying the log gives the mapping before an invocation, it still does after it |
| Dispatch.RunKeepsReplay | logic/src/index.ts:12-28 | replaying the event log reproduces the mapping after any run of invocations |
| Dispatch.EntriesAreReplayOfEvents | logic/src/index.ts:67-75 | from `init`, `entries` returns exactly the pairs the emitted events establish, and the log holds one event per mutation |
| Dispatch.ScenarioSetSetRemove | logic/src/index.ts:47-121 | `set("a","1")`, `set("b","2")`, `remove("a")` leaves `entries` = `{"b":"2"}`, `len` = 1, and the log `Inserted`, `Inserted`, `Removed` |
| KvStoreProperties.InitIsEmpty | logic/src/index.ts:34-36 | a fresh store has `len` 0 and `entries` `{}`; every `get` is `null`, every `get_unchecked` fails and every `get_result` is `NotFound` |
| KvStoreProperties.GetVariantsAgree | logic/src/index.ts:83-113 | the three `get` variants hit on the same keys and return the same value when they hit |
| KvStoreProperties.ViewsAgree | logic/src/index.ts:67-88 | `entries` lists a key exactly when `get` finds it, with the same value; `len` is the number of keys in `entries` |
| KvStoreProperties.SetThenGet | logic/src/index.ts:47-65 | after `set(k, v)`, `get(k)` is `v` and `get` of any other key is as before |
| KvStoreProperties.SetLenFollowsEvent | logic/src/index.ts:56-64 | `len` grows by one exactly when `set` emitted `Inserted`, and stays the same exactly when it emitted `Updated` |
| KvStoreProperties.SetTwiceLastWriteWins | logic/src/index.ts:56-64 | a second `set` of the same key emits `Updated` and the latest value wins; the mapping is as if only the second `set` happened |
| KvStoreProperties.PositionalSetStoresEmpty | logic/src/index.ts:51-52 | the positional `set(k)` without a value stores `""` |
| KvStoreProperties.SetCallShapesAgree | logic/src/index.ts:47-53 | the positional and the record call shapes with the same key and value have the same effect |
| KvStoreProperties.RemoveMissingKey | logic/src/index.ts:115-121 | `remove` of an absent key returns `null`, leaves the mapping unchanged, and still emits `Removed` |
| KvStoreProperties.SetThenRemove | logic/src/index.ts:115-121 | `remove` right after `set(k, v)` returns `v`, and the mapping is the original one without `k` |
| KvStoreProperties.ClearEmpties | logic/src/index.ts:123-129 | after `clear`, whatever the prior contents, `len` is 0, `entries` is `{}` and every `get` is `null` |

## Left out

- `env.log` calls and the bodies of the event handlers (lines 136-150) are host logging. They are modelled only as the event appended to the log.
- The decorators (`@State`, `@Logic`, `@Init`, `@View`, `@Event`) and `emitWithHandler`'s dispatch by handler name are SDK plumbing that the model cannot see. `Emit` appends the event directly, and `Dispatch.IsMutation` stands for the `@View` tags.
- The JSON text that `respond` produces through `JSON.stringify` (lines 131-133) comes from a foreign library. Views return the structured `Response` value that would be serialised, and nothing about the text encoding or its parsing is proved.
- The iteration order of the host's `UnorderedMap` is not modelled. `entries` and `clear` iterate over any enumeration that lists each pair once. `clear` is modelled as iterating a snapshot of the entries taken before the loop.
- The host's persistence, its transport, and any abort of an invocation are not modelled. An invocation that throws leaves the state as it was.
- Keys and values are Dafny strings, which cannot hold the lone UTF-16 surrogates a TypeScript string can. The core only compares and concatenates strings, so nothing depends on this.
- The React UI, routing and authentication in app/src/App.tsx and app/src/pages/home/index.tsx are not part of this model. Neither is the lint configuration.
