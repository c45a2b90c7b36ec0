# use-context-selector: the subscription bookkeeping, in Dafny

use-context-selector lets many React components read slices of one shared
context value while re-rendering only the components whose slice changed.
This project models the bookkeeping under the hooks as small state machines.
React's render, layout-effect and notify steps become ordinary methods that
a caller invokes. There are three variants:

- **Listener set with selector bail-out** (`src/index.js`, and the built
  `dist/index.js`). A context owns a set of listeners. Each consumer keeps a
  record `{selector, value, selected}` of its last render. Its listener
  forces an update unless the announced value is the recorded one, or the
  selector returns the recorded slice for it. A selector that throws inside
  the listener is swallowed, and the update is still forced.
  - `src/index.js` notifies while the Provider renders.
  - `dist/index.js` notifies from a layout effect keyed on `[value]`, and
    stores the new value in the record before forcing the update.
- **Versioned two-slot cell** (`src/index.ts`). A Provider's cell holds a
  version, a primary and a secondary slot, and listeners. A commit bumps
  the version, writes the one slot chosen by the renderer's flag, and calls
  every listener. A snapshot selects from the slot chosen by the same flag.
  Function-valued selections are boxed in a memoized wrapper and unboxed by
  `useContext`.
- **Sentinel guard** (`src/createProviderFromHook.ts`): a context whose
  default is the `MISSING_PROVIDER` sentinel, and a `useSelector` that
  throws on it.

The example reducers (`examples/02_person/src/state.ts` and
`examples/01_minimal/src/index.js`) are modelled as pure functions.

Modules:

- `Js`: `Option`, and `Outcome` (a call that returns a value or throws an
  Error with a message).
- `JsSet`: a JavaScript `Set` as a duplicate-free, insertion-ordered
  sequence.
- `Selection`: the consumer record and the listener's bail-out rule, which
  both listener-set variants share. Also `forcedReducer` and the
  render-time result of `useContextSelector` / `useContext`.
- `ListenerContext`: `src/index.js`, as classes.
- `ListenerContextDist`: `dist/index.js`, as classes.
- `VersionedSource`: `src/index.ts`.
- `ProviderFromHook`: `src/createProviderFromHook.ts`.
- `PersonState`: `examples/02_person/src/state.ts`.
- `MinimalState`: `examples/01_minimal/src/index.js`.

Modelling choices:

- `===` and `Object.is` are both Dafny equality, an abstract identity.
- React's renderer is the caller. What `React.useContext` returns (the
  nearest Provider's value, else the default) is a parameter. Both
  listener-set variants render through `Selection.UseContextSelector`. The flag
  `_workInProgressVersionSecondary !== null` is the boolean `secondary`.
  `process.env.NODE_ENV === 'production'` is the boolean `production`.
- A listener of a listener-set context is identified with its consumer
  object. The subscribing effect re-runs only when `forceUpdate` or the
  context's listener set changes. `forceUpdate` is stable, and a consumer
  here stays on one context, so it has one callback per mount.
- The forceUpdate state is an integer counter, `renderRequests`.
- In `src/index.ts` the listeners are the renderer's own callbacks and are
  opaque. A commit returns the sequence of listeners it called.
- A listener-set selector returns a slice of the same type `V` as the
  context value, because one context holds consumers with different
  selectors. A caller whose slices differ in type from the value encodes
  both in one sum type.
- The `functionMap` WeakMap is an ordinary map from functions to `Wrapper`
  objects. The wrappers are objects, so their identity is the box's
  identity.

## Model

| member | source | states |
|---|---|---|
| `JsSet.Add` | src/index.js:63 | adding makes `x` a member, keeps every old member in its place and order, adds nothing else, and keeps the set duplicate-free |
| `JsSet.Delete` | src/index.js:64-66 | deleting removes `x`, keeps every other member, adds nothing, and keeps the set duplicate-free |
| `JsSet.DeleteAbsent` | src/index.ts:126 | deleting a callback that is not subscribed leaves the set unchanged |
| `JsSet.DeleteAt` | src/index.js:65 | deleting the member at index `i` removes exactly that position; the others stay in their order |
| `JsSet.DeleteAfterAdd` | src/index.js:63-66 | subscribing a new callback and then running its cleanup restores the listener set exactly |
| `Selection.ForcedReducer` | src/index.js:5-6 | each `forceUpdate` dispatch makes the counter strictly larger |
| `Selection.Identity` | src/index.js:10 | the identity selector never throws and returns its argument |
| `Selection.TryBlock` | src/index.js:53-60 | the `try` block returns early on an identical value; it ends in the `catch` exactly when the record is null or the selector throws on a different value; it runs off its end only when the selector returned a slice different from the recorded one |
| `Selection.ShouldForceUpdate` | src/index.js:52-62 | the listener forces an update exactly when the value is a different one and the selector does not return the recorded slice (a different slice or a throw); a null record also forces, because the TypeError is caught |
| `Selection.IdenticalValueSkipsSelector` | src/index.js:54-56 | an identical value bails out whatever the selector is, so the selector is not consulted |
| `Selection.ThrowingSelectorForcesUpdate` | src/index.js:53-61 | a throwing selector's exception is caught, and the update is still forced |
| `Selection.UseContextSelector` | src/index.js:39-46 | a context without the listener marker throws "useContextSelector requires special context"; otherwise the hook returns the selector's result for the context value, throws included |
| `Selection.UseContext` | src/index.js:73 | `useContext` returns the context value unchanged on a marked context, and throws the marker error otherwise |
| `ListenerContext.Context.CreateContext` | src/index.js:25-35 | a new context carries the marker and an empty listener set |
| `ListenerContext.Context.Foreign` | src/index.js:40-43 | a context made without this library has no marker |
| `ListenerContext.Context.RenderProvider` | src/index.js:14-21 | rendering the Provider calls every listener in the set with the new value: each consumer's counter moves as the bail-out rule says, no record or subscription changes, and the value is published unchanged |
| `ListenerContext.Consumer.Mount` | src/index.js:40-47 | a consumer mounts only on a context with the listener marker, and starts with a null record, a zero counter and no subscription |
| `ListenerContext.Consumer.CommitLayoutEffects` | src/index.js:46-67 | for a render whose selector returned its slice, the record effect runs before the subscribing effect: the record is set, the consumer joins the set on mount only, and every subscribed listener finds a populated record |
| `ListenerContext.Consumer.Unmount` | src/index.js:64-66 | the cleanup removes exactly this consumer's listener, and the invariants are kept |
| `ListenerContext.Consumer.Callback` | src/index.js:52-62 | the listener bumps the counter exactly when the bail-out rule says to force, and changes nothing else |
| `ListenerContext.RepeatedValueForcesEveryTime` | src/index.js:15-19 | listeners run in render and never update the record, so a value announced `n` times forces `n` updates or none |
| `ListenerContextDist.RecordAfterNotify` | dist/index.js:89-98 | a listener records the new value exactly when it forces an update; selector and slice are kept |
| `ListenerContextDist.NotifyIdempotent` | dist/index.js:91-98 | after one notification with a value, a second one with the same value bails out and leaves the record as it is |
| `ListenerContextDist.BailingValueStaysQuiet` | dist/index.js:91-93 | a value the listener bails out on forces nothing and changes nothing, however often it is announced |
| `ListenerContextDist.RepeatedValueForcesAtMostOnce` | dist/index.js:89-98 | the same value announced any number of times forces at most one update: one exactly when the first announcement forces |
| `ListenerContextDist.Context.CreateContext` | dist/index.js:49-60 | a new context carries the marker and an empty listener set |
| `ListenerContextDist.Context.Foreign` | dist/index.js:66-70 | a context made without this library has no marker |
| `ListenerContextDist.Context.NotifyAll` | dist/index.js:37-39 | every listener handles the value: its record and counter move as the rule says, and every listener's record stays populated |
| `ListenerContextDist.Provider.Mount` | dist/index.js:32-40 | a mounted Provider has not yet committed a value |
| `ListenerContextDist.Provider.Commit` | dist/index.js:36-40 | listeners are notified exactly when the committed value differs from the last committed one; otherwise no record or counter changes; no subscription changes either way |
| `ListenerContextDist.Consumer.Mount` | dist/index.js:66-78 | a consumer mounts only on a context with the listener marker, and starts with a null record, a zero counter and no subscription |
| `ListenerContextDist.Consumer.CommitLayoutEffects` | dist/index.js:76-105 | for a render whose selector returned its slice, the record is set before the listener joins the set, on mount only, and every subscribed listener finds a populated record |
| `ListenerContextDist.Consumer.Unmount` | dist/index.js:102-104 | the cleanup removes exactly this consumer's listener |
| `ListenerContextDist.Consumer.Callback` | dist/index.js:89-99 | the listener records the new value and bumps the counter exactly when the rule says to force |
| `VersionedSource.Cell.ForProvider` | src/index.ts:60-65 | a Provider's cell starts at version 0, with both slots holding the initial value and no listeners |
| `VersionedSource.Cell.ForDefault` | src/index.ts:87-96 | the default source starts at version -1, with both slots holding the default value and no listeners |
| `VersionedSource.Cell.Slot` | src/index.ts:164 | a read takes the secondary slot exactly when the renderer's secondary flag is set, and the primary slot otherwise |
| `VersionedSource.Cell.CommitProvider` | src/index.ts:69-79 | a commit raises the version by exactly one, writes the value into the slot the flag chooses, leaves the other slot alone, and calls every listener in insertion order |
| `VersionedSource.Cell.Subscribe` | src/index.ts:120-127 | subscribing adds the callback and returns a remover bound to it |
| `VersionedSource.Cell.Remove` | src/index.ts:126 | the remover deletes exactly its callback and reports whether it was present |
| `VersionedSource.Wrapper.constructor` | src/index.ts:170 | a wrapper boxes the given function |
| `VersionedSource.FunctionMap.constructor` | src/index.ts:39 | the memo starts empty |
| `VersionedSource.GetSnapshot` | src/index.ts:162-177 | the snapshot unboxes to the selector's result for the flag's slot; plain data passes through and leaves the memo alone; a function gets its memoized box, the same box as before if it had one, otherwise a fresh box, which is then recorded; other memo entries are kept |
| `VersionedSource.Unwrap` | src/index.ts:179-182 | a box unwraps to the function it holds; any other snapshot passes through as data |
| `VersionedSource.UseContext` | src/index.ts:150-183 | a null or undefined context value throws at the destructuring in every mode; a value without a source throws the guard's message outside production and throws in production; with a source, the hook returns exactly the selector's result for the flag's slot, function or not |
| `ProviderFromHook.ContextDefault` | src/createProviderFromHook.ts:8-10 | the default is the sentinel exactly when the argument is left out or `undefined`, otherwise the given value |
| `ProviderFromHook.ProviderValue` | src/createProviderFromHook.ts:12-16 | the Provider publishes the hook's result unchanged |
| `ProviderFromHook.GuardedSelector` | src/createProviderFromHook.ts:19-21 | the wrapped selector throws "Cannot use this hook without a Provider" on the sentinel and returns `selector(value)` otherwise |
| `ProviderFromHook.UseSelector` | src/createProviderFromHook.ts:18-22 | through `useContextSelector`, the hook throws on the sentinel and returns `selector(value)` for any other value |
| `ProviderFromHook.UnderProvider` | src/createProviderFromHook.ts:12-22 | under a Provider, `useSelector` returns the selector applied to the hook's result |
| `ProviderFromHook.WithoutProvider` | src/createProviderFromHook.ts:8-22 | with no Provider, an omitted or `undefined` default throws, and any other given default is selected from |
| `PersonState.Reduce` | examples/02_person/src/state.ts:25-64 | the counter moves by +1/-1 on increment/decrement only; each person field takes its setter's payload and keeps its value under every other action; an unknown type throws "unknown action type" |
| `PersonState.IncrementThenDecrement` | examples/02_person/src/state.ts:27-36 | decrement after increment restores the state |
| `PersonState.ReduceAllCount` | examples/02_person/src/state.ts:25-36 | a run of known actions never throws and moves the counter by increments minus decrements |
| `PersonState.CountingLeavesPerson` | examples/02_person/src/state.ts:27-36 | increments and decrements never change the person record |
| `MinimalState.Reduce` | examples/01_minimal/src/index.js:14-21 | the counter moves by +1/-1 on increment/decrement only; the text takes setText's payload and is kept otherwise; any other type throws with the type in its message |
| `MinimalState.IncrementDecrementInverse` | examples/01_minimal/src/index.js:16-17 | increment and decrement undo each other in either order |
| `MinimalState.SetTextOverwrites` | examples/01_minimal/src/index.js:18 | a second setText wins over the first |

The initial states are the constants `PersonState.InitialState` (count 0,
age 0, empty names; examples/02_person/src/state.ts:5-12) and
`MinimalState.InitialState` (`{count: 0, text: 'hello'}`;
examples/01_minimal/src/index.js:9-12).

## Left out

- React's render/commit/effect scheduling is left out. That covers StrictMode double rendering, `React.memo` on the Provider, and the tearing guarantees, which depend on the renderer. The caller decides when render, commit and notification happen.
- `useMutableSource` / `createMutableSource` internals are left out: when the renderer calls `getSnapshot` and `subscribe`, and how it compares versions. The model gives the cell and the functions the renderer is handed.
- `runWithPriority` and `wrapCallbackWithPriority` (src/index.ts:76, src/index.ts:198-203) are left out. They are a foreign scheduler; the commit calls the listeners in order.
- `isClient` and `useIsomorphicLayoutEffect` (src/index.ts:28-33) are left out. They inspect the environment.
- src/batchedUpdates.js is not part of this model. It only picks react-dom or react-native.
- dist/index.umd.js is a generated copy of the dist/index.js logic and is modelled once, through dist/index.js.
- `calculateChangedBits` (always 0) and the deletion of `context.Consumer` are React-facing settings with no state of their own.
- `Object.is` corner cases (NaN, ±0) are left out: identity is Dafny equality. WeakMap garbage collection is left out: the memo is an ordinary map.
- `useContextUpdate`, `BridgeProvider` and `useBridgeValue` appear only in tests; no source here implements them.
- `VersionedSource.UseContext`: in production with no source, the model says only that the call throws. The renderer's own error for the undefined source, and the exact TypeError text of destructuring a null or undefined context value, are placeholders here.
- `VersionedSource.GetSnapshot`: selectors are total here. A selector that throws in `getSnapshot` propagates into the renderer, which is not modelled.
- `VersionedSource.UseContext`: the default `identity` selector is not given separately. It is `useContext` with the selector `x => x`, where a function value comes back unboxed.
- `Selection.ForcedReducer`: the counter is an unbounded integer. A JavaScript number stops growing at 2^53, where `state + 1 === state`; the model does not capture that limit.
- `VersionedSource.Cell.CommitProvider`: the version `v` is an unbounded integer. At 2^53 a JavaScript `v += 1` leaves `v` unchanged; the model does not capture that limit.
- A consumer stays on one context. When the hook is called with a different context, the source's subscribing effect re-runs: the old set loses the callback and the new set gains it. This switch is not modelled.
- No pending-version reducer, update thunk or bridge exists in these source files, so none is modelled.
- `PersonState.Reduce`: `count` and `age` are JavaScript numbers. They are unbounded integers here, with no floating point or 2^53 limit.
- `MinimalState.Reduce`: `count` is unbounded, as above.
- The `Unknown(actionType)` action stands for any `type` tag other than the handled ones. A tag that spells a handled type is always the handled constructor.
- The example UI components, the Suspense examples and the test harnesses are UI and asynchronous I/O, and are left out.
