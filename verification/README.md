# Query cache model

A Dafny model of the query cache in `src/App.tsx` of a small React/MobX demo.
The cache has two parts.

- A `Query` wraps one asynchronous producer. It exposes three observable
  fields, `isLoading`, `data` and `error`. It also keeps a private pending
  promise, so overlapping `run` calls share one producer invocation.
- A `QueryClient` is a registry from string keys to queries. `getQuery` is
  get-or-create, and the first producer offered for a key wins. `setQueryData`
  is `getQuery` with a constant producer, followed by `run`.

Asynchrony is made explicit as events on a single-threaded event loop:

- `Run` is the synchronous part of `run` for a producer that returns its
  promise. It either joins the pending operation or invokes the producer once
  and records a new operation. A producer that throws synchronously settles
  inside the same `run` call; the model writes that as `Run` followed at once
  by `Settle` with a failure.
- `Settle` is the producer's promise settling. Inside the inner `execute()`,
  the `runInAction` block writes all three fields in one step, and
  `execute()` returns the value it wrote into `data`. The operation records
  that value as `Executed(x)`.
- `Finally` is the later `finally` handler. It forgets the pending operation.
  The promise that `run` hands out is the one `.finally(...)` returns, so it
  fulfils with `x` only after this step. Every awaiter therefore resumes
  after the pending operation is gone, and `await run(); run()` always starts
  a new invocation.

The window between `Settle` and `Finally` is kept. A `run` inside it joins
the operation whose `execute()` has finished; the promise it receives is
still pending and fulfils with `x` after `Finally`.

Modules:

- `Values`: the value vocabulary.
  - `Slot` is `data`'s three states: undefined, null or a value.
  - `Outcome` is how the producer settled.
  - `Params` is `run`'s argument, which defaults to an empty object.
  - `Producer` is an opaque fetcher or the constant producer `async () => data`.
- `Queries`: the `Query` class as an immutable record with pure transitions.
  `calls` records the parameters of every producer invocation.
- `QueryClients`: the registry as a `map<string, Query>`.
- `Traces`: the whole client as an event system, with the invariant `Wf`
  proved for every state reachable from the empty registry.

The model follows the code, which differs from what a query cache is often
expected to do:

- `isLoading` is never set to `true`. It starts `false` and is only ever
  assigned `false`, so there is no observable loading state (`Wf`).
- A failure writes `null` into `data`. A value from an earlier success is not
  kept while the run fails.
- A success writes `undefined` into `error`.
- `setQueryData` on a key that already exists discards the value. It re-runs
  the existing producer or joins its pending operation.
- Even for a new key, the value appears in `data` only when the run settles,
  not synchronously.

## Model

| member | source | states |
|---|---|---|
| Queries.NewQuery | src/App.tsx:9-21 | A new query is bound to the given producer, has `isLoading` false, `data` and `error` undefined, nothing pending and no producer invocations |
| Queries.Run | src/App.tsx:23-49 | While an operation is pending, `run` returns that same operation and changes nothing, ignoring its parameters. Otherwise it invokes the producer exactly once with its parameters and records and returns a new in-flight operation. No observable field changes, so `isLoading` stays as it was (a producer that throws synchronously is settled inside the same call in the source; the model writes that as `Run` then `Settle`) |
| Queries.RunAll | src/App.tsx:23-24 | Any number of `run` calls before settlement all return one and the same operation. Only the first call's parameters reach the producer, and only when nothing was pending |
| Queries.RunAllInvokesOnce | src/App.tsx:23-31 | Repeated `run` calls before settlement invoke the producer exactly once when nothing was pending, and not at all otherwise |
| Queries.Settle | src/App.tsx:26-42 | Success `v` sets `data = v`, `error = undefined` and `isLoading = false`. Failure `e` sets `error = e`, `data = null` and `isLoading = false`. The operation records that `execute()` returned the value written into `data`, null after a failure; its promise fulfils with that value after `Finally` and never rejects. Producer and invocations are unchanged |
| Queries.Finally | src/App.tsx:45-47 | The `finally` handler clears the executed pending operation, whose promise then fulfils, and leaves every field unchanged. An operation still in flight is kept |
| Queries.Complete | src/App.tsx:36-47 | After settlement and the `finally` handler, nothing is pending and the fields hold the outcome |
| Traces.RunBeforeFinallyJoins | src/App.tsx:36-47 | A `run` after settlement but before the `finally` handler joins the executed operation without invoking the producer; its still-pending promise will fulfil with the value already in `data` |
| Queries.RunAfterCompleteStartsFresh | src/App.tsx:45-49 | Once the pending operation has been cleared, the next `run` invokes the producer again with its own parameters, as a new operation |
| Queries.JoinersShareResult | src/App.tsx:24-42 | All callers that joined one operation, whether their burst started it or joined it while in flight, hold the same operation, which records the value written into `data`; that is what each of their promises fulfils with after `Finally` |
| QueryClients.GetQuery | src/App.tsx:57-63 | For a present key, `getQuery` returns the stored query, leaves the registry unchanged and discards the callback. For an absent key, it inserts exactly one new query bound to the callback and leaves every other key untouched |
| QueryClients.FirstWriterWins | src/App.tsx:57-62 | However many later `getQuery` calls offer other producers for a key, each returns the query the first call stored, bound to the first producer, and the registry does not change |
| QueryClients.SetQueryData | src/App.tsx:65-68 | For an absent key, `setQueryData` stores a query bound to the constant producer with one invocation in flight and `data` still undefined. For a present key, it keeps the producer and fields and invokes that producer again or joins its pending operation. Other keys are untouched |
| Traces.Step | src/App.tsx:23-68 | Events never remove a key or rebind a producer. A settlement is possible exactly when an operation is in flight and the producer can yield that outcome. A `finally` is possible exactly after `execute()` has finished |
| Traces.StepKeepsWf | src/App.tsx:12-47 | Every event keeps every query well formed |
| Traces.ApplyKeepsWf | src/App.tsx:12-47 | Every sequence of events keeps every query well formed |
| Traces.ReachableIsWf | src/App.tsx:12-40 | In every state reachable from the empty registry, `isLoading` is false. A pending operation is the latest invocation. For payloads that are not null, undefined or thenables, `data` is null exactly when `error` is set, `data` is undefined exactly until the first settlement, and a seeded query never fails |
| Traces.ApplyKeepsProducers | src/App.tsx:55-62 | No sequence of events removes a key or changes the producer a key was first bound to |
| Traces.SeededKeySettlesToValue | src/App.tsx:65-67 | After `setQueryData(k, d)` on an absent key, `data` is still undefined. For a `d` that is not a thenable, the only possible settlement is success with `d`, after which `data == d` and `error` is undefined |
| QueryClients.SetQueryDataIgnoresValue | src/App.tsx:57-68 | On a present key, `setQueryData(k, d1)` and `setQueryData(k, d2)` leave the registry in the same state for every `d1` and `d2`: the offered value is discarded |
| Traces.SetQueryDataOnFetcherKeySettlesFreely | src/App.tsx:58-67 | After `setQueryData(k, d)` on a key bound to an opaque producer, the run may settle with any value or fail |
| Traces.ReseedKeepsFirstValue | src/App.tsx:58-67 | After a settled `setQueryData(k, d1)`, a second `setQueryData(k, d2)` re-runs the producer of `d1`, so the only settlement is success with `d1` and `data` stays `d1` |
| Traces.ThreeConsumersShareOneInvocation | src/App.tsx:23-62 | Three `getQuery` calls for one key with different producers, then three `run` calls, invoke only the first producer, exactly once |

## Left out

- `useQuery` (src/App.tsx:74-92) is left out. It is glue between React's `useReducer`/`useEffect` lifecycle and MobX `reaction` subscription and disposal.
- `DummyComponent` and `App` (src/App.tsx:95-145) are left out. They only render.
- The module-level `queryClient` singleton (src/App.tsx:71) is left out. The model passes the registry explicitly and starts from `EmptyRegistry`.
- `src/CoinApi.ts` is left out. It is an HTTP `fetch` plus JSON parsing, modelled only as an opaque `Fetcher` producer.
- Promise and microtask scheduling are left out. They are replaced by the explicit `Run`, `Settle` and `Finally` events, and a producer that never settles is simply a trace without a `Settle` event.
- MobX `makeObservable`/`runInAction` and observer notification are left out. The model keeps only the fact that the three field writes happen in one step.
- The unchecked generic cast at src/App.tsx:58 is left out. One registry holds a single payload type `V` and error type `E`.
- A producer that rejects with `undefined` is not modelled. In the source this leaves `error` undefined while `data` becomes null; here every failure carries an error value.
- Parameter objects are opaque tags. The fresh `{}` default of `run` is the single value `EmptyObject`.
- Traces.ReachableIsWf: the payload type `V` leaves out `null`, `undefined` and thenables, so its `data`/`error` conjuncts are proved only for payloads that are none of these. In the source, a producer that resolves to `null` or `undefined` (`this.data = data`, src/App.tsx:31,38) leaves `data` null or undefined with `error` undefined. A thenable passed to `setQueryData` is adopted by `async () => data` and may reject, so a seeded query can fail there.
- Traces.SeededKeySettlesToValue: "the only settlement is success with `d`" relies on `V` leaving out thenables. In the source, `async () => data` (src/App.tsx:66) adopts a thenable `d`, which may reject or fulfil with another value. A nullish `d` is stored as null or undefined rather than as a value.
- Re-entrant `run` from inside the producer is not modelled; `Run` is one atomic step. In the source the producer is invoked inside `execute()` (src/App.tsx:31) before `this.pendingPromise` is assigned (src/App.tsx:45). So a producer that synchronously calls `run` on its own query, directly or through a reaction, is not de-duplicated: it starts a second invocation, and line 45 then overwrites the inner pending promise.
- Traces.ReseedKeepsFirstValue: "the only settlement is success with `d1`" and "`data` stays `d1`" rely on `V` leaving out thenables and nullish values. In the source, `async () => d1` (src/App.tsx:66) adopts a thenable `d1`, which may reject or fulfil with another value, and a nullish `d1` is stored as null or undefined.
- A producer that throws synchronously, before returning its promise, is not settled inside `Run`. In the source `execute()` runs lines 31-40 before its first suspension, so the throw is caught and `data = null`, `error = e` are written before `run` returns (src/App.tsx:26-45). The model writes this as `Run` immediately followed by `Settle` with `Failure(e)`. MobX reactions that fire at the end of that `runInAction` block run while `pendingPromise` is still unset, so a `run` they issue is not de-duplicated; that interleaving is not modelled.
