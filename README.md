# Puppeteer binding calls and p-selector preparation, in Dafny

This project models two small sequencing components of puppeteer-core and
proves properties of them.

**`Binding.call`** runs when a page calls a function that the controller
exposed under a name. It does five things:

- It fetches a handle to the page's argument array for the call's sequence
  number.
- It replaces every argument that is a DOM node with the node's handle.
- It invokes the bound function and resolves the page's callback with the
  result, deleting the callback entry.
- It disposes every handle it acquired.
- On failure it either drops the error (protocol errors) or rejects the
  callback with it.

**`PQueryHandler`** is the query handler for puppeteer's own selector
syntax. Before every `queryAll`, `queryOne` and `waitFor` it prepares the
owning page, then delegates to the base query handler. Preparing means two
things:

- exposing the ARIA all-matches function as `customQuerySelectorAll_aria`;
- registering, for every custom query handler, a new-document script that
  installs the window global `customQuerySelectorAll_<name>`.

Every failure during preparation is ignored.

Files:

- `wrappers.dfy`: `Option`.
- `remote_context.dfy` (module `RemoteContext`): the abstract remote page
  state a binding call works against. Class `ExecutionContext` holds:
  - the keys of the page's `callbacks` tables (`pending`);
  - the log of `resolve`/`reject` calls made on their promise pairs
    (`settled`);
  - the live handles, and the disposed handles in order.

  Its methods are proved against pure transitions of a `Snapshot` of that
  state.
- `binding.dfy` (module `Bindings`): class `Binding` and its `Call`. `Call`
  is proved against the specification function `CallEffect`, which is
  built from four parts:
  - `Attempt`: the try block with its two finally blocks;
  - `Catch`: the catch block;
  - `Substitute`: the argument loop;
  - `DisposeAll`: the disposal loop.

  The module also holds the lemmas about `CallEffect`.
- `pquery_handler.dfy` (module `PQueryHandlers`): class `Page` holds:
  - the exposed binding names;
  - the new-document scripts;
  - the log of requests made of the page.

  The module also holds `Prepare`, `QueryAll`, `QueryOne` and `WaitFor`
  (proved against `Prepared` and `Delegated`), the in-page functions
  `QuerySelectorAll` and `QuerySelector` (plain delegations), and the lemmas about the globals
  that the scripts give a new document (`Globals`).

The foreign steps of a call may succeed or throw, as the `Transport` value
passed to `Call` says:

- `evaluateHandle`;
- `getProperties`, which also says what it enumerates;
- the resolve write-back;
- the reject write-back.

In the same way, a `Faults` value passed to `Prepare` says which
`exposeFunction` and `evaluateOnNewDocument` requests fail. The bound
function is a total Dafny function from the argument list to a normal or
thrown completion.

Behaviour of the code worth noting, which the model keeps:

- The reject write-back in the catch block (Binding.ts:74-99) has no guard
  of its own. If it fails, that failure leaves `call`, even when it is a
  protocol error. Only failures inside the try block are dropped.
  `EscapesOnlyFromReject` states this.
- On the success path the resolve write-back runs before the handles are
  disposed. `await this.#fn(...args)` and the write-back sit inside the
  inner try and the finally blocks run after it (Binding.ts:44-63). On the
  failure path the rejection is written after disposal.
- When the callbacks table has no entry for the sequence number, the
  write-back script fails with a `TypeError`, before its `delete`. That
  error is not a protocol error, so a resolve that finds no entry leads to
  a reject attempt, which fails the same way and leaves `call`. The model
  writes this error as `MissingCallback`.

## Model

| member | source | states |
|---|---|---|
| `Bindings.Binding.constructor` | packages/puppeteer-core/src/common/Binding.ts:10-13 | the binding keeps the given name and function |
| `Bindings.Binding.Call` | packages/puppeteer-core/src/common/Binding.ts:15-102 | the new remote state, the rewritten `args` array and the value `call` throws are exactly those of `CallEffect` for the old state and the old arguments; the context's invariant is kept |
| `Bindings.SubstituteNodes` | packages/puppeteer-core/src/common/Binding.ts:32-42 | the in-place loop leaves `args` equal to `Substitute` of its old contents and the enumerated properties |
| `Bindings.Substitute` | packages/puppeteer-core/src/common/Binding.ts:32-42 | the substitution loop keeps the length of `args` |
| `Bindings.SubstitutedPositions` | packages/puppeteer-core/src/common/Binding.ts:32-42 | for distinct property keys: a position holds the property's handle when that property is a node at an index of `args`, and a position that no node property names keeps its old value |
| `Bindings.SubstituteIgnoresOthers` | packages/puppeteer-core/src/common/Binding.ts:35-40 | properties whose key is not an index of `args`, or whose subtype is not `node`, write nothing |
| `Bindings.IncludesIff` | packages/puppeteer-core/src/common/Binding.ts:71 | `message.includes(text)` holds exactly when `text` occurs at some position of `message` |
| `Bindings.Classify` | packages/puppeteer-core/src/common/Binding.ts:64-101 | a thrown value is dropped exactly when it is error-like and its message contains `Protocol error`; another error-like value is rejected with its message and stack; a non-error value is rejected as it is |
| `Bindings.Invoke` | packages/puppeteer-core/src/common/Binding.ts:44-55 | calling the bound function and writing back its result acquires and disposes no handle |
| `Bindings.DisposeEach` | packages/puppeteer-core/src/common/Binding.ts:56-60 | the disposal loop leaves the context in the state `DisposeAll` gives |
| `Bindings.DisposeAllKeeps` | packages/puppeteer-core/src/common/Binding.ts:57-59 | disposing handles leaves the callbacks table, the settlement log and the handle counter alone |
| `Bindings.DisposeAllEffect` | packages/puppeteer-core/src/common/Binding.ts:57-59 | disposing distinct live handles appends them to the disposal log in list order and removes exactly them from the live set |
| `Bindings.AttemptOutcome` | packages/puppeteer-core/src/common/Binding.ts:20-63 | the try block hands nothing to the catch block exactly when every step through the resolve write-back completes; it then has resolved `seq` with the function's result on the substituted arguments and deleted only that entry; otherwise the table and the log are untouched |
| `Bindings.ResolvePath` | packages/puppeteer-core/src/common/Binding.ts:44-55 | on success the function gets the substituted arguments, `callbacks[seq]` is resolved with its return value and deleted, other entries stay, and `call` throws nothing |
| `Bindings.ProtocolErrorDropped` | packages/puppeteer-core/src/common/Binding.ts:65-73 | an error-like failure whose message contains `Protocol error` ends the call with no write to the callbacks table and nothing thrown |
| `Bindings.ErrorRejected` | packages/puppeteer-core/src/common/Binding.ts:74-87 | any other error-like failure rejects `callbacks[seq]` with an error of the same message and stack and deletes the entry; if that write-back fails, nothing is written and its failure is thrown |
| `Bindings.ValueRejected` | packages/puppeteer-core/src/common/Binding.ts:88-100 | a non-error thrown value rejects `callbacks[seq]` with that very value and deletes the entry; if that write-back fails, nothing is written and its failure is thrown |
| `Bindings.SettlesAtMostOnce` | packages/puppeteer-core/src/common/Binding.ts:44-101 | one call either writes nothing or removes the pending `seq` entry and appends exactly one settlement for it; that settlement is a resolution exactly when the resolve write-back completed, so a call never both resolves and rejects |
| `Bindings.SettlesOnlyPending` | packages/puppeteer-core/src/common/Binding.ts:49-50 | a call whose `seq` has no callbacks entry writes nothing |
| `Bindings.RepeatedCallSettlesOnce` | packages/puppeteer-core/src/common/Binding.ts:15-102 | two calls for the same name and `seq` append at most one settlement in all, and only for that call |
| `Bindings.EscapesOnlyFromReject` | packages/puppeteer-core/src/common/Binding.ts:74-99 | when `call` throws, a failure was caught and classified for rejection, and what `call` throws is the reject write-back's own failure |
| `Bindings.DisposesEveryHandle` | packages/puppeteer-core/src/common/Binding.ts:30-63 | on every path, including failures of `getProperties`, of the function and of the write-back, the call disposes every per-index handle in order and then the outer handle, each exactly once, and leaves exactly the handles that were live before it |
| `Bindings.DisposalOrderFresh` | packages/puppeteer-core/src/common/Binding.ts:30-63 | the handles one call disposes are distinct and none of them was disposed before the call |
| `Bindings.DisposeInvoked` | packages/puppeteer-core/src/common/Binding.ts:56-63 | after the function has run, the two finally blocks dispose the per-index handles and then the outer one, and nothing acquired stays live |
| `Bindings.SumScenario` | packages/puppeteer-core/src/common/Binding.ts:44-55 | `sum` called with 2 and 3 under sequence number 7 resolves that callback with 5 and disposes both property handles and then the outer one |
| `Bindings.NodeScenario` | packages/puppeteer-core/src/common/Binding.ts:36-39 | an argument whose remote object is a node reaches the function as that object's handle |
| `Bindings.BoomScenario` | packages/puppeteer-core/src/common/Binding.ts:74-87 | a function throwing `Error("boom")` gets its callback rejected with message `boom` and the same stack |
| `Bindings.TornDownScenario` | packages/puppeteer-core/src/common/Binding.ts:65-73 | a protocol error from the resolve write-back ends the call without a write and without throwing |
| `Bindings.CallEffect` | packages/puppeteer-core/src/common/Binding.ts:15-102 | definition of one whole call: the try block with its finally blocks (`Attempt`), then the catch block (`Catch`) when something was caught; its properties are stated by `AttemptOutcome`, `SettlesAtMostOnce`, `RepeatedCallSettlesOnce`, `EscapesOnlyFromReject` and `DisposesEveryHandle` |
| `Bindings.Attempt` | packages/puppeteer-core/src/common/Binding.ts:20-63 | definition of the try block: fetch the arguments, enumerate them, substitute, invoke and resolve, then the two finally blocks; its outcome is stated by `AttemptOutcome` and `ResolvePath`, its disposals by `DisposesEveryHandle` |
| `Bindings.Catch` | packages/puppeteer-core/src/common/Binding.ts:64-101 | the catch block never acquires or disposes a handle; what it writes is stated by `ProtocolErrorDropped`, `ErrorRejected` and `ValueRejected` |
| `Bindings.DisposeAll` | packages/puppeteer-core/src/common/Binding.ts:57-59 | definition of the disposal loop; its effect is stated by `DisposeAllKeeps` and `DisposeAllEffect` |
| `Bindings.SubstituteOne` | packages/puppeteer-core/src/common/Binding.ts:35-40 | definition of one turn of the substitution loop; the loop's meaning is stated by `SubstitutedPositions` and `SubstituteIgnoresOthers` |
| `Bindings.Includes` | packages/puppeteer-core/src/common/Binding.ts:71 | definition of `message.includes(text)`; its meaning is stated by `IncludesIff` |
| `RemoteContext.MissingCallback` | packages/puppeteer-core/src/common/Binding.ts:49 | the `TypeError` a write-back script throws when `callbacks.get(seq)` is undefined; `WriteBack` reports it exactly when the entry is missing and the transport does not fail |
| `RemoteContext.IdSeq` | packages/puppeteer-core/src/common/Binding.ts:56-63 | the block of handle ids the disposal loop releases, in strictly increasing order; `InIdSeq` states that it holds exactly the ids of `IdRange` |
| `RemoteContext.InIdSeq` | packages/puppeteer-core/src/common/Binding.ts:56-63 | the ordered block `IdSeq` and the set `IdRange` hold the same handle ids |
| `RemoteContext.ExecutionContext.EvaluateHandle` | packages/puppeteer-core/src/common/Binding.ts:22-29 | fetching the argument array yields one fresh handle that was not live before |
| `RemoteContext.ExecutionContext.GetProperties` | packages/puppeteer-core/src/common/Binding.ts:31 | enumerating the array yields one fresh handle per property, in order |
| `RemoteContext.ExecutionContext.Dispose` | packages/puppeteer-core/src/common/Binding.ts:58 | disposing moves a live handle from the live set to the end of the disposal log; disposing it again does nothing |
| `RemoteContext.ExecutionContext.Settle` | packages/puppeteer-core/src/common/Binding.ts:45-55 | a write-back script settles and deletes exactly the `seq` entry when it exists and the transport does not fail, and otherwise changes nothing and reports what it threw |
| `RemoteContext.Allocate` | packages/puppeteer-core/src/common/Binding.ts:22-31 | acquired handles are exactly the old live ones plus the next `n` ids, with the counter advanced past them |
| `RemoteContext.Materialize` | packages/puppeteer-core/src/common/Binding.ts:31 | `getProperties` gives one property per enumerated entry, and their handles are exactly the block of ids from the first free one, in increasing order (their freshness comes from `Allocate` in `GetProperties`) |
| `RemoteContext.Release` | packages/puppeteer-core/src/common/Binding.ts:58-62 | disposal releases a live handle once and appends it to the log; the callbacks table is untouched |
| `RemoteContext.WriteBack` | packages/puppeteer-core/src/common/Binding.ts:74-99 | the write-back resolves or rejects the entry and deletes it exactly when the entry exists and the transport does not fail; a failed write-back changes nothing |
| `PQueryHandlers.GlobalName` | packages/puppeteer-core/src/common/PQueryHandler.ts:83 | definition of the naming rule `customQuerySelectorAll_<name>`; stated injective by `GlobalNameInjective` |
| `PQueryHandlers.Globals` | packages/puppeteer-core/src/common/PQueryHandler.ts:82-86 | definition of the globals a new document gets from its installer scripts; stated by `GlobalsConcat`, `GlobalsWellNamed`, `GlobalsNamed` and `GlobalsAbsorb` |
| `PQueryHandlers.Expose` | packages/puppeteer-core/src/common/PQueryHandler.ts:75-77 | definition of the `exposeFunction` transition; `Page.ExposeFunction` is proved against it and `PrepareBindings` states its effect in `#prepare` |
| `PQueryHandlers.Inject` | packages/puppeteer-core/src/common/PQueryHandler.ts:79-91 | definition of the `evaluateOnNewDocument` transition; `Page.EvaluateOnNewDocument` is proved against it |
| `PQueryHandlers.InjectAll` | packages/puppeteer-core/src/common/PQueryHandler.ts:78-92 | definition of the installer loop; stated by `InjectAllRequests`, `InjectAllScripts` and `SurvivorGlobals` |
| `PQueryHandlers.Prepared` | packages/puppeteer-core/src/common/PQueryHandler.ts:74-93 | definition of `#prepare`; `Prepare` is proved against it and it is stated by `PrepareRequests`, `PrepareBindings`, `PrepareGlobals` and `PrepareIdempotent` |
| `PQueryHandlers.Delegated` | packages/puppeteer-core/src/common/PQueryHandler.ts:47-60 | definition of prepare-then-delegate; `QueryAll`, `QueryOne` and `WaitFor` are proved against it and `PreparedBeforeDelegation` states its order |
| `PQueryHandlers.OwningPage` | packages/puppeteer-core/src/common/PQueryHandler.ts:66-70 | the page `waitFor` prepares: the frame's page, or the page of the element's frame; `WaitFor` modifies only that page |
| `PQueryHandlers.QueryAll` | packages/puppeteer-core/src/common/PQueryHandler.ts:47-53 | the element's page ends in `Delegated`: the whole of `#prepare`, then the base `queryAll` with the same element and selector |
| `PQueryHandlers.QueryOne` | packages/puppeteer-core/src/common/PQueryHandler.ts:54-60 | the element's page ends in `Delegated`: the whole of `#prepare`, then the base `queryOne` with the same element and selector |
| `PQueryHandlers.WaitFor` | packages/puppeteer-core/src/common/PQueryHandler.ts:61-72 | the frame's page, or the page of the element's frame, is prepared and then the base `waitFor` gets the same target, selector and options; no other page changes |
| `PQueryHandlers.PreparedBeforeDelegation` | packages/puppeteer-core/src/common/PQueryHandler.ts:47-72 | the delegated query is the last request, after the ARIA expose and every installer, and it runs against the prepared bindings and scripts |
| `PQueryHandlers.Prepare` | packages/puppeteer-core/src/common/PQueryHandler.ts:74-93 | the page ends in `Prepared`: the ARIA expose, then the installer loop over the registry with each failure ignored |
| `PQueryHandlers.Page.ExposeFunction` | packages/puppeteer-core/src/common/PQueryHandler.ts:75-77 | exposing succeeds exactly when the name is not yet exposed and the transport does not fail; the request is recorded either way |
| `PQueryHandlers.Page.EvaluateOnNewDocument` | packages/puppeteer-core/src/common/PQueryHandler.ts:79-91 | the script is registered exactly when the transport does not fail; the request is recorded either way |
| `PQueryHandlers.Page.RunBaseQuery` | packages/puppeteer-core/src/common/PQueryHandler.ts:52 | the base handler's query is recorded as the page's latest request, and nothing else changes |
| `PQueryHandlers.PrepareRequests` | packages/puppeteer-core/src/common/PQueryHandler.ts:74-93 | whatever fails, `#prepare` first requests the ARIA expose and then one installer per registered handler, in registry order, and never stops early |
| `PQueryHandlers.PrepareBindings` | packages/puppeteer-core/src/common/PQueryHandler.ts:75-77 | afterwards `customQuerySelectorAll_aria` is exposed exactly when it already was or the expose did not fail; no other binding changes |
| `PQueryHandlers.InjectAllRequests` | packages/puppeteer-core/src/common/PQueryHandler.ts:78-92 | the installer loop requests every handler's installer in order and does not touch the bindings |
| `PQueryHandlers.InjectAllScripts` | packages/puppeteer-core/src/common/PQueryHandler.ts:78-92 | the installer loop appends exactly the installers whose injection did not fail, in registry order |
| `PQueryHandlers.SurvivorGlobals` | packages/puppeteer-core/src/common/PQueryHandler.ts:78-92 | the surviving installers set `customQuerySelectorAll_<name>` for every handler whose injection did not fail, and no other global |
| `PQueryHandlers.PrepareGlobals` | packages/puppeteer-core/src/common/PQueryHandler.ts:78-92 | after `#prepare` a new document holds, under `customQuerySelectorAll_<name>`, the engine of every handler whose injection did not fail; its only other globals are the ones it held before |
| `PQueryHandlers.SurvivorsAll` | packages/puppeteer-core/src/common/PQueryHandler.ts:78-92 | with no failing injection, one installer per handler is appended, in registry order |
| `PQueryHandlers.PrepareIdempotent` | packages/puppeteer-core/src/common/PQueryHandler.ts:74-93 | preparing a page again gives a new document the same globals, provided no injection that failed the first time succeeds the second time; the bindings are unchanged once the ARIA function is exposed; the script list grows by the second run's installers |
| `PQueryHandlers.PrepareTwiceWithoutFaults` | packages/puppeteer-core/src/common/PQueryHandler.ts:74-93 | two fault-free runs give the same globals and bindings as one run, and one more script per handler |
| `PQueryHandlers.GlobalsConcat` | packages/puppeteer-core/src/common/PQueryHandler.ts:82-86 | running two lists of installers in turn gives the union of their globals, the later one winning on a shared key (`Object.assign` overwrites) |
| `PQueryHandlers.GlobalsWellNamed` | packages/puppeteer-core/src/common/PQueryHandler.ts:82-86 | every installed global is `customQuerySelectorAll_` plus a handler name, and holds that handler's engine |
| `PQueryHandlers.GlobalsNamed` | packages/puppeteer-core/src/common/PQueryHandler.ts:82-86 | the global of a handler, when present, holds that handler's engine |
| `PQueryHandlers.GlobalsAbsorb` | packages/puppeteer-core/src/common/PQueryHandler.ts:82-86 | installers that only set globals the document already holds change none of them |
| `PQueryHandlers.GlobalNameInjective` | packages/puppeteer-core/src/common/PQueryHandler.ts:83 | two handler names give the same global exactly when they are the same name |
| `PQueryHandlers.AriaFollowsNamingRule` | packages/puppeteer-core/src/common/PQueryHandler.ts:76 | the ARIA binding name is the global name the naming rule gives to `aria` |

## Left out

- QuerySelectorAll: only the one-line delegation to `pQuerySelectorAll` is modelled, by its definition; the matching itself is not modelled, so there is nothing more to state.
- QuerySelector: only the one-line delegation to `pQuerySelector` is modelled, by its definition; the matching itself is not modelled, so there is nothing more to state.
- The remote-evaluation transport, `ExecutionContext` and `JSHandle` internals are not modelled. Each foreign step succeeds or throws as the `Transport` or `Faults` argument says. `getProperties` enumerates what `Transport.properties` lists.
- Structured cloning of arguments and results is not modelled. `Value` is a small datatype.
- What a node remote object is: not modelled. A subtype is an opaque string compared with `node`.
- `isErrorLike` is not part of this model. The `ErrorLike | Other` split of `Thrown` stands for it.
- The content of stack traces: not modelled. A stack is an opaque string that is passed through.
- Bound functions that touch the page or mutate `args` are not modelled. The bound function is a pure function of its arguments.
- A write-back that takes effect in the page but reports failure to the controller is not modelled. Write-backs are atomic: they either take effect and report success, or change nothing.
- Failures of `JSHandle.dispose` are not modelled: puppeteer's handle release swallows them. Disposing an already disposed handle does nothing, as in puppeteer.
- Sparse JavaScript arrays are not modelled. `index in args` is modelled as `0 <= index < args.Length`. A non-numeric key is an integer outside that range.
- `ARIAQueryHandler.queryAll` is not modelled. The base `QueryHandler` query and wait logic, the real `pQuerySelector`/`pQuerySelectorAll` matching and the results of queries are not modelled either. A delegation is a request recorded on the page, carrying the same arguments. The in-page functions are parameters.
- `new Function(...)` and `Function.prototype.toString()` are not modelled. The installed global is `Engine(name)`, an opaque value tagged by the handler name.
- What `exposeFunction` itself does once it succeeds is not modelled: it installs the binding in frames and documents. Only the set of exposed names is kept.
- Async interleaving of concurrent calls, navigation and the page lifecycle are not modelled. Each operation is one sequential run.
- `QueryAll` does not model the laziness of the async generator. The model prepares and delegates when the method is called. The source does both when iteration starts.

