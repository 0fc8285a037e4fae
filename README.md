# Advice chain engine of kaop-ts, modelled in Dafny

kaop-ts wraps a decorated method in a replacement function (`bootstrap`).
On each call the wrapper builds a fresh metadata record (`scope`, `target`,
`propertyKey`, `rawMethod`, `args`, `result`). It then assembles a call stack
`before ++ [null] ++ after`, where `null` marks the place where the raw method
runs, and constructs a `CallStackIterator` over that stack. Its return value
is `metadata.result` as it stands when that construction returns. The
iterator walks the stack by index:

- at an advice entry it calls the advice with injected parameters;
- at the sentinel it applies the raw method to `scope` and the current `args`.

An advice may just return, in which case the chain goes on by itself. It may
defer and call `this.next()` later, in which case the chain resumes at the
following entry. It may call `this.next()` before it returns, in which case
the rest of the chain runs inside that call, still within the construction.
Or it may call `this.stop()`, after which nothing else runs.

The project has these modules:

- `Values` (values.dfy): JavaScript values as the chain observes them (`undefined`, strings, numbers, callbacks).
- `Advices` (advice.dfy): stack entries and advices. An advice carries its `$$meta` slot, its `$$params` mapping, a self-driving flag and its synchronous body: its edits of the metadata and how it ends (by returning, by calling `next()`, or by calling `stop()`). `Inject` builds the parameter list. `ErrorAdvice` is the error-advice table entry: undefined, `null`, or an advice.
- `Chain` (chain.dfy): the executor's contract as a pure state machine with phases Running / Paused / Stopped / Done. `Step` runs one entry and `RunFrom` runs until the chain settles; `Resume` models `next()` and `Halt` models `stop()`. It also holds the invariant `Inv`, which every execution keeps, and the safety lemmas.
- `Executor` (executor.dfy): the live objects. `Scope` (the caller's `this`, with its `name`), `Metadata` (the shared record, `args` a mutable sequence) and `CallStackIterator`. The iterator's constructor runs the chain synchronously. Its `Resume` and `Halt` methods are proved equal to the `Chain` functions on the combined state `View()`.
- `Bootstrap` (bootstrap.dfy): stack assembly, the wrapper object `FnRef` with its three metadata-table entries, one wrapper call (`Invoke`) and `BuildReflectionProperties`.
- `AdvicePool` (advice_pool.dfy): the inert `next`/`stop` control surface.
- `Scenarios` (scenarios.dfy): the executor and wrapper scenarios of test/core.spec.ts, as methods whose contracts state what each test expects.

`CallStackIterator.ts` is not part of this model. The executor's behaviour is
fixed only by the scenarios in test/core.spec.ts. The comment at
src/core/bootstrapFn.ts:37-38 speaks of advices calling `this.next`. The test
at test/core.spec.ts:62-74 shows that an advice that just returns lets the
chain proceed. The model follows the tests: an entry whose self-driving flag
is off advances automatically.

The spies of the tests become a trace of events (`AdviceRan` with the
parameters passed, `MainRan` with the arguments used). "Called n times"
becomes a count over that trace. Deferred callbacks (`setTimeout`) become
actions from outside, applied after the synchronous run: an edit of the
metadata (`Mutate`), `next()` (`Next`) or `stop()` (`Stop`).

## Model

| member | source | states |
|---|---|---|
| `Advices.Inject` | test/core.spec.ts:113-124 | the advice receives the metadata object if and only if it carries `$$meta`, in that slot and nowhere else; a slot that `$$params` maps to entry argument k gets that argument (`undefined` past the end); every other slot is `undefined`; the list is as long as the slots the annotations name |
| `Chain.StepRule` | test/core.spec.ts:50-130 | what one step does. Past the last entry, the chain is done and nothing else changes. At the sentinel, the raw method runs on the current args: its return becomes the result, the name it sets becomes `scope.name`, and the chain moves to the next entry. At an advice, the advice runs on its injected parameters and its edits apply to args and result. The chain then stops if and only if the advice called `stop()`. It waits if and only if the advice is self-driving and returned without calling `next()`. Otherwise it moves to the next entry. |
| `Chain.Start` | test/core.spec.ts:55 | constructing the executor runs the chain at once until it waits, stops or is done, and the invariant holds. A chain run to the end ran the raw method once per sentinel. |
| `Chain.RunFrom` | test/core.spec.ts:50-60 | the synchronous run always settles (paused, stopped or done) and never moves the index backwards |
| `Chain.Resume` | test/core.spec.ts:101-110 | `next()` on a paused chain continues strictly past the paused entry and settles again; a settled chain stays settled, and the index never moves backwards |
| `Chain.Halt` | test/core.spec.ts:121-129 | `stop()` turns a paused chain into a stopped one and changes nothing else |
| `Chain.ExecKeepsInv` | test/core.spec.ts:33-131 | for every sequence of deferred actions, the call keeps the invariant: the trace lists the executed entries one by one in stack order, the raw method ran exactly at the sentinels passed, and the chain is never left mid-run |
| `Chain.EntriesRunOnceInOrder` | test/core.spec.ts:88-111 | in any execution, event k of the trace is the run of stack entry k, so each entry runs at most once and in order; a raw-method run is at a sentinel, after every entry before it |
| `Chain.MainRunsBounded` | test/core.spec.ts:88-111 | the raw method has run exactly as often as there are sentinels among the executed entries, and at most as often as the stack has sentinels |
| `Chain.StoppedBeforeSentinel` | test/core.spec.ts:113-130 | a chain stopped by an advice in front of the first sentinel never ran the raw method |
| `Chain.NothingRunsAfterTermination` | test/core.spec.ts:121-130 | after stop or completion no further `next()`, `stop()` or edit runs anything: trace, phase and `scope.name` stay as they are |
| `Chain.PassThrough` | test/core.spec.ts:50-60 | the stack `[null]` runs the raw method exactly once on the original args; `result` and `scope.name` become what it returns and sets, and the chain is done |
| `Chain.RunsPastProceeding` | test/core.spec.ts:62-74 | the run crosses, in a row, the sentinel and every advice that neither stops nor waits. Such an advice either is plain and returns, or calls `next()` before returning. |
| `Scenarios.PushThenNext` | test/core.spec.ts:101-102 | the deferred callback of the two-deferral test pushes a value onto `metadata.args` and calls `this.next()`: the live executor ends in exactly `Chain.Resume` of the state with the value pushed |
| `Executor.Metadata.Edit` | test/core.spec.ts:65 | `args.pop()` drops the last argument (nothing when there is none), `args.push(v)` appends `v`, and an assignment sets `result` |
| `Executor.CallStackIterator.constructor` | test/core.spec.ts:55 | construction keeps the metadata, stack and error advice it is given and runs the chain at once, ending in exactly the state `Chain.Start` gives, never mid-run |
| `Executor.CallStackIterator.StepOnce` | test/core.spec.ts:50-74 | one entry is executed in place on the shared metadata exactly as `Chain.Step` says |
| `Executor.CallStackIterator.Drive` | test/core.spec.ts:50-87 | the in-place walk over the stack ends in the state `Chain.RunFrom` gives |
| `Executor.CallStackIterator.Resume` | test/core.spec.ts:101-102 | `this.next()` on the live executor has exactly the effect of `Chain.Resume` on executor and metadata |
| `Executor.CallStackIterator.Halt` | test/core.spec.ts:121 | `this.stop()` on the live executor has exactly the effect of `Chain.Halt` |
| `Bootstrap.AssembleStack` | src/core/bootstrapFn.ts:31-35 | the stack is the before-advices in stored order, one `null`, then the after-advices in stored order |
| `Bootstrap.SentinelOnce` | src/core/bootstrapFn.ts:31-35 | with `null`-free advice lists, the sentinel is at index `|before|` and nowhere else, and it occurs once |
| `Bootstrap.FnRef.constructor` | src/core/bootstrapFn.ts:16-18 | the wrapper remembers target, property key, raw method and the optional initial result (`undefined` when omitted); no metadata-table entry is defined yet |
| `Bootstrap.FnRef.Invoke` | src/core/bootstrapFn.ts:18-42 | each call builds a fresh metadata record (scope = caller's `this`, target, key and raw method from bootstrap, args = the call's args, result = the initial result), runs an executor over the assembled stack with the stored error advice passed unchanged, and returns `metadata.result` as it stands when construction returns |
| `Bootstrap.BuildReflectionProperties` | src/core/bootstrapFn.ts:50-54 | the before and after lists become empty and the error advice `null`, so the assembled stack is exactly `[null]` |
| `Bootstrap.DefaultWrapperIsPassThrough` | src/core/bootstrapFn.ts:18-42 | with the default configuration a call returns exactly what the raw method returns on the original args |
| `Bootstrap.RawMethodAtMostOnce` | src/core/bootstrapFn.ts:31-41 | whatever happens after the synchronous run, the raw method runs at most once per wrapper call |
| `Bootstrap.PlainBeforeAdvicesReachMain` | src/core/bootstrapFn.ts:31-40 | when no before-advice stops or waits, construction alone runs the raw method exactly once |
| `AdvicePool.Next` | test/core.spec.ts:13 | `AdvicePool.next()` returns `undefined` |
| `AdvicePool.Stop` | test/core.spec.ts:14 | `AdvicePool.stop()` returns `undefined` |
| `Scenarios.SetName` | test/core.spec.ts:52 | the raw method of most tests sets `scope.name` to its first argument and returns it; both are undefined when there is no argument; it invokes no callback |
| `Scenarios.Combine` | test/core.spec.ts:100 | the raw method of the deferred test sets `scope.name` to the concatenation of its first two string arguments, invokes its third argument, and returns undefined |
| `Scenarios.Plus` | test/core.spec.ts:100 | `+` concatenates two strings and adds two numbers; the result is a string exactly when both operands are strings and a number exactly when both are numbers |
| `Scenarios.Fixture` | test/core.spec.ts:37-48 | the test metadata: scope name "Jon", args `["Peter"]`, result undefined |
| `Scenarios.ImmediateRun` | test/core.spec.ts:50-60 | stack `[null]`: the raw method runs once at construction; result and `scope.name` are "Peter" |
| `Scenarios.PopBeforeMain` | test/core.spec.ts:62-74 | an advice with `$$meta = 0` receives exactly the metadata; its pop removes the only argument; the chain proceeds without `next()`, and the trace shows the advice, then exactly one raw-method run on no arguments; result and `scope.name` are undefined |
| `Scenarios.AfterMain` | test/core.spec.ts:76-87 | the after-advice runs only after the raw method, which ran once; result and `scope.name` are "Peter" |
| `Scenarios.DeferredFirstPause` | test/core.spec.ts:101-110 | construction invokes the first self-driving advice with the metadata and pauses there, before the raw method |
| `Scenarios.DeferredSecondPause` | test/core.spec.ts:101-110 | the first callback pushes "someFakeString" and calls `next()`: the second advice is invoked with the metadata and the chain pauses again, with args `["Peter", "someFakeString"]` |
| `Scenarios.DeferredFinish` | test/core.spec.ts:100-110 | the second callback pushes the callback and calls `next()`: the chain runs the raw method once on `["Peter", "someFakeString", callback]`: `scope.name` becomes "PetersomeFakeString", the callback is invoked, result is undefined and the chain is done |
| `Scenarios.TwoDeferredAdvices` | test/core.spec.ts:88-111 | the raw method has not run while paused; after both resumptions both advices ran once each, then the raw method ran once with the pushed args in advice order and invoked the callback; `scope.name` is "PetersomeFakeString" and result undefined |
| `Scenarios.ParamsThenStop` | test/core.spec.ts:113-130 | with `$$params = [undefined, 0]` and entry args `[3]` the advice gets `undefined` and 3; its `stop()` means the raw method never runs and result stays undefined |
| `Scenarios.DefaultWrapper` | src/core/bootstrapFn.ts:18-54 | a wrapper with freshly built reflection properties returns "Peter" and sets `scope.name` to it |
| `Scenarios.SynchronousNext` | src/core/bootstrapFn.ts:37-41 | a self-driving before-advice that calls `next()` before returning lets the whole chain run inside construction, so the wrapper returns "Peter" and the chain is done |
| `Scenarios.DeferredResultNotReturned` | src/core/bootstrapFn.ts:40-41 | the wrapper returns the result as it stands at construction (undefined while a before-advice is pending); a later `next()` that runs the raw method sets `metadata.result` to "Peter" without changing what was returned |

## Left out

- Error handling: the raw method cannot throw in this model. The metadata record has an `exception` field (the test fixture sets it to `null` at test/core.spec.ts:44; the record built at src/core/bootstrapFn.ts:21-28 leaves it unset). The model's `Metadata` has no such field: the executor's writes to it and its routing of errors to the error advice are not modelled. The error advice is kept as an opaque value that the wrapper passes through (src/core/bootstrapFn.ts:40). That value distinguishes an undefined entry, a `null` entry and an advice.
- An advice that throws (for example a TypeError from popping through a parameter that is not the metadata) is not modelled. An advice's effect is given as a list of metadata edits, which cannot fail. The edits are limited to three kinds: `args.pop()`, `args.push(v)` and an assignment to `result`. No advice or deferred callback can write `args[i]`, replace `metadata.args`, or write `scope` or any other metadata field. So `scope.name` changes only when the raw method runs, and `Chain.NothingRunsAfterTermination`'s claim that `scope.name` stays the same rests partly on that restriction.
- How the executor decides that an advice is self-driving is not modelled; the model fixes the executor's behaviour only from the tests. Each advice carries a flag instead.
- An advice that calls `next()` synchronously is modelled only where that call is its last statement (ending `CallsNext`). The chain then goes on within the same synchronous run, as the nested JavaScript call does. Statements after a synchronous `next()` are not modelled: in JavaScript they run after the rest of the chain, but in the model all of an advice's edits happen before the chain moves on. The nested call stack itself is not modelled either.
- `next()` or `stop()` called from a deferred callback while the chain is stopped or done does nothing in this model. The tests never do this, and the executor's own behaviour there is not modelled; the model fixes it only from the tests. A `stop()` or `next()` called synchronously by a running advice is its ending `CallsStop` or `CallsNext`.
- An advice that is not self-driving but still ends by calling `next()` moves the chain on by exactly one entry in this model. Whether the executor would also advance by itself after such an advice, skipping an entry, is not modelled; the tests do not fix it, and this is a model choice.
- Parameter injection when the `$$meta` slot is also a `$$params` slot: the model gives that slot the metadata. Without `$$params`, the model passes no entry arguments. The tests fix neither case.
- Reflect-metadata storage (`getMetadata`/`defineMetadata`, `MetadataKey`) is a foreign library. The three table entries are fields of `FnRef`. An undefined advice list is `None`. The error entry is `NoEntry` when undefined and `NullEntry` when `null`.
- Bootstrap.FnRef.Invoke: requires both advice lists to be defined. With an undefined list the source's `concat` would insert `undefined` entries into the stack; that case is not modelled.
- Bootstrap.FnRef.constructor: a `null` or `undefined` target is not modelled. `fnref.prototype = target.prototype` (src/core/bootstrapFn.ts:45) reads a property of the target, so `bootstrap` throws a TypeError there when the target is `null` or `undefined`. That is the static-method case the doc comment at src/core/bootstrapFn.ts:11 announces, and also the call `bootstrap(null, null, null)` at test/core.spec.ts:23. In the model `target` is a name that is always present, so construction always succeeds. The prototype link itself is not modelled.
- The bootstrap test at test/core.spec.ts:20-31 expects `$$before`, `$$after` and `$$error` properties that the code never sets. It is stale and not modelled.
- `setTimeout`, jest's `done` and the spies: there is no time. Deferral is a Paused phase ended by an outside `Next` or `Stop`, and the spies become the event trace. A callback the raw method invokes is recorded in the trace; its own effects are not modelled.
- The scope is modelled only by the `name` field the tests observe.
- `Num(n)` stands for a JavaScript number as an unbounded integer. Floating point, `NaN` and fractional values are not modelled, and `Scenarios.Plus` adds numbers as integers.
- Scenarios.Combine: on fewer than two arguments the model names `undefined`, where JavaScript would give `"Peterundefined"` or `NaN`. On fewer than three it records an invocation of `undefined`, where JavaScript's `cbk()` would throw a TypeError. Raw-method exceptions are not modelled (see above), and `+` follows `Scenarios.Plus`.
- Scenarios.Plus: JavaScript's `+` is modelled only for two strings and for two numbers. For any other pair of operands the model gives `undefined` instead of JavaScript's coercions. The tests use only strings.
- Registering advices, decorator sugar and concurrency between different calls are outside this model.
