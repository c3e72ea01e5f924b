# MsSqlUtil in Dafny

A model of the core of MsSqlUtil, a thin coordination layer over the `mssql`
driver, with proofs of what that core promises. The core has three parts:

- **Promise queue** (`PromiseQueue`, promise_queue.dfy). This is an ordered list of
  `(alias, producer)` entries. After `start()` the queue runs the producers strictly
  one after another. Each fulfilled value is stored under its alias in a shared result
  object. The first rejection discards the rest of the queue and rejects with that
  exact error. Otherwise the queue resolves with the whole result object.
- **Connection registry** (`Connections`, connections.dfy). This is the module-level
  `state`: `pools`, `connections`, `configurations` and `aliases`. The registry also
  covers `addConnection`, `getConnection`, `_connect`, `_getName` and `_getAlias`,
  including the close and error listeners and the settling of `pool.connect()`.
- **Request context** (`RequestContext`, request_context.dfy). A context is a queue bound to
  one connection. `step` accepts either a configuration object or a function, `query`
  starts the queue, and `_executeSql` turns a query configuration into the calls made
  on one driver request.

Everything is modelled by immutable values and transition functions. The JavaScript
event loop is replaced by explicit sequences:

- The queue receives the outcomes its producers settle with as an input sequence.
- `RequestContext.Run` computes those outcomes by applying the producers to the live
  result object. It is proved to be the same as `PromiseQueue.Drain`.
- The registry is driven by a sequence of events: `addConnection` calls, `connect()`
  settlements, and `close` / `error` events of pools.

The database driver is a parameter:

- For queries, it is a function from the recorded request to the rows or the error.
- For connections, it is the connect outcome carried by an event.

Settling is tracked by a counter of `onComplete`/`onError` calls, so "settles exactly
once" is a stated property, not an assumption.

Where the intended design of the registry and its code differ, the model follows the code:

- **Alias resolution never happens for an unnamed configuration.** Alias keys are meant to let
  `getConnection` fall back from an unnamed configuration to its alias key when a
  default connection exists. The code instead tests `state.configurations['default']`,
  and nothing ever writes `state.configurations`. `Connections.Inv` proves
  `configurations` stays empty, so an unnamed configuration always resolves to
  `"default"` (`Connections.UnnamedConfigIsDefault`,
  `Connections.UnnamedLookupIgnoresEndpoint`). So "register `c1` under `n1`, then look up
  an unnamed `c2` with the same alias key and get `n1`'s pool" does not hold. Alias keys
  are still bound by `addConnection`, and a caller can still pass an alias key
  explicitly as a name string.
- **Failure does not always leave the registry untouched.** A failed registration is meant
  to leave no partial state. In the code:
  - The alias binding made by `addConnection` survives a connect failure.
  - A failed reconnect under an existing name removes the working connection already
    stored under that name (`Connections.FailedReconnectEvictsLive`).
- **Listeners capture only the name.** A close event from an older pool therefore evicts
  a newer pool registered under the same name (`Connections.StaleCloseEvictsReplacement`).
- **Alias keys can collide.** An alias key is the five fields joined with `-`. It
  identifies the endpoint only when no field contains `-`
  (`Connections.AliasIdentifiesEndpoint`). Otherwise two endpoints can share a key
  (`Connections.AliasCollision`).

## Model

| member | source | states |
|---|---|---|
| PromiseQueue.Empty | src/promise-queue.js:5-11 | a new queue has no entries, an empty result object, has invoked nothing and has not started |
| PromiseQueue.Add | src/promise-queue.js:13-18 | `add` appends exactly one entry at the end; the entries already queued keep their order, and nothing runs or settles |
| PromiseQueue.AddAllAppends | src/promise-queue.js:13-18 | adding entries one by one queues exactly them, in call order, after the existing ones |
| PromiseQueue.Start | src/promise-queue.js:20-29 | `start` only arms the queue: no producer is invoked inside the call and nothing has settled yet |
| PromiseQueue.Dequeue | src/promise-queue.js:31-45 | one `_dequeue` invokes exactly the head producer. A fulfilment stores its value under the head's alias and completes the queue exactly when that head was the last entry; otherwise the queue keeps draining and nothing settles. A rejection empties the queue and fails with that error, and the result object is unchanged |
| PromiseQueue.Drain | src/promise-queue.js:31-45 | repeated `_dequeue` keeps the queue in a reachable state, never un-invokes a producer, invokes at most one producer per outcome, and never decreases the settlement count |
| PromiseQueue.Accumulate | src/promise-queue.js:34-35 | writing step values into the result object yields exactly the old keys plus the step aliases, and a key no step writes keeps its value |
| PromiseQueue.LastWriterWins | src/promise-queue.js:35 | when two steps share an alias, the final value under it is the value of the last step carrying it |
| PromiseQueue.DrainFails | src/promise-queue.js:41-44 | if producer k is the first to reject: producers 0..k ran and no later ones; the queue is emptied; it fails with the k-th error unchanged; the result holds what steps before k wrote; and it settled exactly once |
| PromiseQueue.DrainCompletes | src/promise-queue.js:34-40 | if every queued producer fulfils: each ran once, in insertion order; the result holds each value under its alias; and the queue completed exactly once, with that result |
| PromiseQueue.DrainPartial | src/promise-queue.js:34-40 | while only fulfilments have been seen and entries remain, the queue is still draining, the invoked producers are exactly a prefix of the entries, and nothing has settled |
| PromiseQueue.QueueCompletes | src/promise-queue.js:13-45 | a built and started queue whose producers all fulfil completes once, ran every entry in order, has one key per step alias, and each alias's value is its last writer's value |
| PromiseQueue.QueueFailsAtFirstError | src/promise-queue.js:13-45 | a built and started queue whose producer k rejects first fails once with exactly that error, runs producers 0..k only, and holds only the aliases of steps before k |
| PromiseQueue.SettledDrain | src/promise-queue.js:31-45 | a started queue that has settled after consuming all its outcomes settled once: on the first rejection if it falls within the entries (k + 1 outcomes consumed), otherwise on the last entry's fulfilment |
| PromiseQueue.SettledIsFinal | src/promise-queue.js:37-43 | once `onComplete` or `onError` has fired, no further outcome changes the queue |
| Connections.GetAlias | src/connections.js:99-101 | an alias key always contains the separator `-`, so it can never equal a separator-free name |
| Connections.AliasRoundTrip | src/connections.js:99-101 | splitting an alias key at `-` gives back host-or-server, user, database, domain and port when none contains `-` |
| Connections.AliasIdentifiesEndpoint | src/connections.js:99-101 | two separator-free configurations share an alias key if and only if they agree on all five fields |
| Connections.AliasCollision | src/connections.js:99-101 | host `a-b` with user `c` and host `a` with user `b-c` share an alias key although their fields differ |
| Connections.GetName | src/connections.js:79-93 | the name is `"default"` for no argument, the string itself for a string, a truthy `name` field, and otherwise the alias key if a `default` configuration is stored, else `"default"` |
| Connections.NormalizeHost | src/connections.js:26-28 | a truthy `host` is copied into `server`; anything else is passed through unchanged |
| Connections.NormalizePreservesIdentity | src/connections.js:17-31 | the host rewrite changes neither the name nor the alias key derived from the configuration, and the server the driver sees is the host when one is given |
| Connections.AddConnection | src/connections.js:17-31 | `addConnection` stores a fresh pool under the derived name, attaches listeners and starts connecting under that name, and leaves `connections` alone. It binds the alias key to the name only when the key is unbound and differs from the name (first writer wins) |
| Connections.OnConnect | src/connections.js:63-76 | a connect promise settles once, and settling it touches no other pool's pending connect or the next pool identity. Success stores the pool in `connections` under the captured name and resolves with it. Failure detaches the listeners, removes the name from `connections` and `pools`, and rejects with the driver's own error. Aliases are kept either way |
| Connections.Terminate | src/connections.js:48-61 | a close or error event of a listening pool removes the captured name from `connections` and `pools`, detaches that pool only (every other pool keeps the name its listeners captured), and changes nothing else; for a detached pool the registry is unchanged |
| Connections.TerminateIdempotent | src/connections.js:48-61 | handling a close or error event twice is the same as handling it once |
| Connections.GetConnection | src/connections.js:33-42 | lookup follows at most one alias and succeeds if and only if a connection is stored under the resolved name; otherwise it fails with `Connection with name "<name>" does not exist.` |
| Connections.AliasOneLevel | src/connections.js:35-37 | an alias whose target is itself an alias is resolved to the first target only |
| Connections.ApplyPreservesInv | src/connections.js:17-76 | every registry event keeps the registry invariant: `configurations` is empty, alias keys contain `-`, and every stored pool still listens under its own name |
| Connections.TerminatePreservesInv | src/connections.js:48-61 | close and error events keep the registry invariant |
| Connections.RunPreservesInv | src/connections.js:5-76 | every registry reachable by any sequence of events satisfies the invariant |
| Connections.InitInv | src/connections.js:5-10 | the registry at module load satisfies the invariant |
| Connections.AliasesAreStable | src/connections.js:23-25 | once an alias key is bound, no sequence of later events rebinds or removes it |
| Connections.UnnamedConfigIsDefault | src/connections.js:84-93 | in any reachable registry an unnamed configuration object resolves to the name `"default"` |
| Connections.UnnamedLookupIgnoresEndpoint | src/connections.js:33-42 | in any reachable registry, looking up an unnamed configuration is looking up the default connection, whatever its endpoint fields |
| Connections.AddThenGet | src/connections.js:17-42 | registering a configuration whose name has no `-` and letting it connect makes `getConnection` of that configuration return the new pool |
| Connections.StaleCloseEvictsReplacement | src/connections.js:48-54 | a close event of an older pool removes the newer pool connected under the same name, while the newer pool's listeners stay attached |
| Connections.FailedReconnectEvictsLive | src/connections.js:69-75 | a failed connect under a name that already holds a live connection removes that live connection |
| RequestContext.NewContext | src/request-context.js:16-19 | a new context is bound to the given connection and holds an empty, unstarted queue |
| RequestContext.Step | src/request-context.js:37-52 | `step` queues exactly one entry at the end, carrying the alias and the producer derived from the action, on the same context; nothing runs |
| RequestContext.Entries | src/request-context.js:37-52 | chained steps yield one queue entry per step, in order, with the step's alias and the step's producer |
| RequestContext.Steps | src/request-context.js:37-52 | chained `step` calls append exactly their entries, in call order, after those already queued; nothing is invoked or settled |
| RequestContext.AsProducer | src/request-context.js:38-47 | a function step's producer is the function itself; a configuration step's producer asks for that configuration to be executed, whatever the results so far |
| RequestContext.ConfigStepIsExecuteStep | src/request-context.js:38-43 | a configuration-object step behaves exactly like the function step `execute => execute(config)`, whatever the results so far |
| RequestContext.BindParam | src/request-context.js:75-86 | a parameter binds under its key; with an explicit type if and only if it is an object with a truthy `type`; the bound value is the scalar or the object's `value` |
| RequestContext.BindAll | src/request-context.js:74-87 | each parameter key yields one input call, in key order, bound as `BindParam` says |
| RequestContext.ExecuteSql | src/request-context.js:72-97 | the request is created on the context's connection, and every parameter is bound first, in key order. The query text, literal or deferred, is then issued and the driver's answer returned. A deferred query that rejects is never issued, and its error is returned |
| RequestContext.IsQueryFromFile | src/request-context.js:67-70 | a query is read from a file exactly when it is a promise-like value rather than literal text; what that decides is stated by `QueryFromFileDecidesIssue` |
| RequestContext.QueryFromFileDecidesIssue | src/request-context.js:89-96 | a request issues no query if and only if its query is read from a file and reading fails; a literal query is issued as given, a query from a file with the text it resolved to |
| RequestContext.ParamBinding | src/request-context.js:74-87 | the i-th call of an executed request is the binding of the i-th parameter, distinguishing non-object, untyped-object and typed-object parameters |
| RequestContext.OneQueryPerRequest | src/request-context.js:89-96 | every issued request has exactly one query call, and it comes after all input calls |
| RequestContext.Invoke | src/request-context.js:45-47 | a producer is invoked with the live result object. When it settles by itself, no request is made and its outcome is the one it chose. When it runs a query configuration, the request is exactly the one `_executeSql` makes on the context's connection, and the outcome is that request's |
| RequestContext.StartQuery | src/request-context.js:62-64 | `query` starts the queue and invokes nothing |
| RequestContext.Run | src/request-context.js:45-47 | running a started context settles it exactly once, on the same connection, with one logged invocation per invoked producer |
| RequestContext.RunIsDrain | src/request-context.js:45-47 | running a context is draining its queue with the outcomes its producers settle with. The `i`-th invocation runs the `i`-th pending entry's producer, and that producer saw the result object as the queue held it just before |
| RequestContext.RunInvokesEntries | src/promise-queue.js:31-34 | the `i`-th logged invocation is the `i`-th pending entry's producer invoked on the context's connection: entries are taken from the front, in insertion order |
| RequestContext.RunInvokesPending | src/promise-queue.js:31-34 | there are no more invocations than pending entries, and each one runs the entry at its own position |
| RequestContext.RunSettles | src/request-context.js:62-64 | a started context settles once: with the first rejecting step's error after steps 0..k only, or after every step with one result key per alias |
| RequestContext.RunSeen | src/request-context.js:45-47 | each producer of a started context saw exactly what the steps before it wrote |
| RequestContext.QueryOutcome | src/request-context.js:37-64 | a built and queried request settles once. It rejects with the first rejecting step's own error after running steps 0..k only, or resolves after all steps with one key per alias. The `i`-th invocation is step `i`'s own producer, and every step saw exactly the results of the steps before it |
| RequestContext.QuerySettles | src/request-context.js:37-64 | the settlement and seen-results half of `QueryOutcome` |
| RequestContext.QueryInvokesSteps | src/request-context.js:37-52 | each invocation of a built and queried request runs the producer of the step at the same position, on the request's connection, and there are no more invocations than steps |
| RequestContext.SeenIsPrior | src/promise-queue.js:34-39 | while a queue is still draining, its result object is what the entries invoked so far wrote |

## Left out

- The `mssql` driver is a parameter: the rows or error a request settles with, and the outcome of `pool.connect()`. Its wire types and connection pooling are not modelled.
- `process.nextTick`, bluebird promises and the event loop are replaced by explicit sequences of outcomes and events; interleavings beyond those sequences are not modelled.
- `debug` logging is not modelled, because it does not affect behaviour.
- src/main.js is not part of this model. It is the public entry point: it wraps `addConnection`, and builds request contexts from `getConnection`. Its `execute` shuffles its arguments, builds a one-step request with the step alias `'results'` and calls `query()`. Every step of that is composed from modelled operations.
- `Object.keys` order is taken as the order of the given parameter list. JavaScript's rule that integer-like keys come first is not modelled.
- Inherited object keys such as `constructor` are not modelled: `aliases` and `connections` lookups see only keys that were written.
- Connections.AddConnection: requires an argument; `addConnection(null)` throws inside `_getAlias`, and that exception is not modelled.
- A step action that is neither an object nor a function, a `null` action, and a `null` query have no counterpart in the datatypes. In the source none of them throws from `step` or `query`. The `TypeError` is raised inside the step's producer, which `Promise.try` turns into a rejection once the earlier steps have run. That behaviour is what a `FunctionStep` settling with `Err` describes. A falsy `params` is modelled: it binds nothing.
- `port` is modelled as the text `join` prints for it, not as a number.
- Producers that add steps to a queue that is already draining are not modelled.
- PromiseQueue.Start: requires a queue that has entries and has not been started. The source reads the queue only when the next tick fires. Steps added after `start()` in the same tick therefore still run; only a queue still empty at that tick throws and never settles. Neither that call order nor a second `start` is modelled.
- RequestContext.StartQuery: requires a non-empty, unstarted queue, so `query()` followed by `step()` in the same tick is not modelled, for the same reason as `Start`.
- RequestContext.Invoke: a function step is modelled by what it decides from the results so far: one call of the executor, or settling by itself. Steps that call the executor several times, or whose result the caller later mutates, are not modelled.
- The result object handed to a function step is the live object; the model gives each producer the value it held at invocation and does not model later mutation by the step.
- Connections.Terminate: leaves the registry unchanged for a pool whose listeners were removed. Node's `EventEmitter` throws when such a pool emits `'error'`, and that throw is not modelled.
- RequestContext.Step: a configuration step captures the configuration's value when `step` is called. The source keeps a reference to the caller's object and reads `params` and `query` only when the step runs. Mutating that object between `step()` and execution, by the caller or an earlier function step, is not modelled.
- Connections.NormalizeHost: returns a rewritten copy. The source writes `server` into the caller's own configuration object, so the caller observes that change, and this is not modelled.
- RequestContext.IsQueryFromFile: a query is either literal text or a promise-like value. A query that is neither a string nor has a `then` is passed to `request.query` unchanged by the source, and cannot be represented here.
- Numbers in rows and parameters are modelled as integers; floating point is not modelled.
- RequestContext.BindParam: a `null` parameter value and a typed parameter whose `value` is not a scalar (a `Date`, a `Buffer`) have no `Param`. In the source a `null` parameter throws when `param.type` is read inside the producer, after the request was created and the earlier keys were bound, so the step rejects; that path is not modelled.
