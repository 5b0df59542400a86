# A verified model of a from-scratch Redux store engine

This project models the store engine of `redux.js`: `createStore` with its
`getState`, `subscribe` and `dispatch` closures, `combineReducers`,
`compose`, `applyMiddleware`, `bindActionCreator` and `bindActionCreators`.
It proves in Dafny what the engine promises about those operations.

Layout, one module per component:

- `js.dfy` (`Js`): `undefined`-able values (`Opt`), actions (the literal `{}`
  that `createStore` uses, or an application action), the two exceptions
  the engine raises and their messages, and `Result`.
- `compose.dfy` (`Compose`): `compose` as `Array.prototype.reduce` without
  an initial value (`FoldCompose`), and the reference meaning `ApplyAll`, a
  right-to-left application `f1(f2(... fn(x)))`.
- `combine.dfy` (`Combine`): the reducer value that `combineReducers`
  returns, as a map comprehension (`CombineReducers`), and as the loop of
  redux.js:66-72 filling an accumulator (`CombinedReduce`), proved equal.
  `CombinedStoreReducer` is the same reducer typed as a store's reducer, so
  `createStore(combineReducers(...))` can be written.
- `bind.dfy` (`Bind`): the single-function and keyed forms of
  `bindActionCreators`. The keyed form is a loop over the keys.
- `store.dfy` (`Store`): the closure variables of one `createStore` call
  are a class `StoreCell`. Its fields are `state` and `listeners`, plus a
  `notified` log that records each listener call as the listener's id. The
  returned object `{getState, subscribe, dispatch}` is the datatype
  `Store(cell, dispatch)`. `applyMiddleware` replaces the `dispatch` and
  keeps the `cell`.
- `scenarios.dfy` (`Scenarios`): a counter store driven end to end,
  logging middlewares, a bound action creator, duplicate subscriptions and
  two `combineReducers` examples.

How calls that run application code are represented:

- A dispatch function is a value `Action<P> -> seq<Effect<P>>`. It lists
  what one call does, in order: `Emit(name)` for an event a middleware
  produces, `Reduce(action)` for a call of the base store's `dispatch`.
- The base store's dispatch is `a => [Reduce(a)]`. A middleware is
  `Store -> (Dispatch -> Dispatch)`.
- `RunDispatch` and `Perform` carry such a list out on the cell. So "the
  first middleware is outermost" becomes a statement about the order of
  the list.
- The optional arguments of `createStore` are the datatype `Arg`:
  `UndefinedArg`, `FunctionArg(enhancer)` or `ValueArg(value)`. This mirrors the
  `typeof` tests in `createStore`.
- `Construct(cell, preloadedState, enhancer)` describes the store that
  `createStore` returns, given the one state cell that gets allocated.
  `Throws` describes the exception it raises, if any. The `CreateStore`
  method is proved against both.

Where the code differs from what a Redux user might expect, the model
follows the code:

- Without an enhancer, the initial state is `reducer(undefined, {})`. A
  preloaded state is ignored (redux.js:32).
- The base `dispatch` returns nothing, not the action (redux.js:43-46).
- A reducer may return `undefined`. That value is committed as it is, and
  the next call receives `undefined` again (redux.js:44). The state is
  therefore `Opt<S>` throughout, and so is each slice of a combined state.
- `compose()` with no functions throws "Reduce of empty array with no
  initial value", so `applyMiddleware()` with no middleware throws when the
  store is built. It does not fall back to the base dispatch (redux.js:81,
  96).
- Unsubscribing removes every entry equal to the listener, including
  duplicates subscribed separately (redux.js:39).
- Notification walks the listener list as it stands when notification
  starts (redux.js:45).

## Model

| member | source | states |
|---|---|---|
| `Js.Message` | redux.js:27 | the message of each exception the engine raises: the enhancer check here, and the empty `reduce` reached through `compose` at redux.js:81; no contract of its own, `Store.EnhancerMustBeFunction` states the enhancer message |
| `Compose.Compose` | redux.js:76-82 | throws `ReduceOfEmptyArray` exactly when given no function; one function is returned itself |
| `Compose.ApplyAll` | redux.js:76-82 | the reference meaning of composition, `f1(f2(... fn(x)))`; no contract of its own, its properties are `ApplyAllAppend` and `LastIsInnermost`, and `ComposeApplies` ties `Compose` to it |
| `Compose.FoldCompose` | redux.js:81 | the reduce with no initial value, continued from an accumulator; no contract of its own, its meaning is stated by `FoldComposeApplies` |
| `Compose.ComposeApplies` | redux.js:76-82 | for every non-empty list, the composite maps `x` to `f1(f2(... fn(x)))` |
| `Compose.FoldComposeApplies` | redux.js:81 | the reduce accumulator, continued over the remaining functions, applies them innermost-last under the accumulator |
| `Compose.ApplyAllAppend` | redux.js:81 | composing `fs + gs` applies `gs` first, then `fs` to its result |
| `Compose.LastIsInnermost` | redux.js:81 | the last function of the list is the one applied directly to the argument |
| `Combine.Slice` | redux.js:68 | `state[reducerKey]`, `undefined` when the key has no own entry; no contract of its own, used by `CombinedShape` |
| `Combine.StateOrEmpty` | redux.js:65 | the default parameter `state = {}`; no contract of its own, its meaning is stated by `UndefinedIsEmpty` |
| `Combine.CombinedReduce` | redux.js:65-72 | the accumulator loop over the reducer keys builds exactly the combined reducer's result |
| `Combine.CombineReducers` | redux.js:64-73 | the reducer `combineReducers(reducers)` returns, as a map comprehension over the reducer keys; no contract of its own, its meaning is stated by `CombinedShape`, `UndefinedIsEmpty` and `StaleKeysDropped`, and `CombinedReduce` is its loop form |
| `Combine.CombinedStoreReducer` | redux.js:64-73 | the combined reducer as `createStore` receives it, always returning a defined object; no contract of its own, `Scenarios.CombinedCounterStore` drives a store with it |
| `Combine.CombinedShape` | redux.js:66-72 | the result's key set is exactly the reducer keys (prototype property names aside, see "## Left out"), and `result[k] == reducers[k](state[k], action)` |
| `Combine.UndefinedIsEmpty` | redux.js:65 | an `undefined` state acts as `{}`, so each sub-reducer receives `undefined` |
| `Combine.StaleKeysDropped` | redux.js:66-72 | state keys without a sub-reducer are absent from the result and do not influence it |
| `Bind.BindActionCreator` | redux.js:111-115 | `args => dispatch(actionCreator(args))`; no contract of its own, its meaning is stated by `BoundDispatchesCreated` |
| `Bind.BoundDispatchesCreated` | redux.js:111-115 | the bound function maps `args` to `dispatch(actionCreator(args))` |
| `Bind.BindActionCreators` | redux.js:117-130 | a function is bound directly; an object gives an object with the same keys, each bound to the same dispatch |
| `Store.StoreCell.constructor` | redux.js:32-33 | the state starts as `reducer(undefined, {})`, and the listener list and call log start empty |
| `Store.StoreCell.GetState` | redux.js:35 | returns the committed state and reads nothing else |
| `Store.StoreCell.Subscribe` | redux.js:36-38 | appends exactly `l` after the existing entries, and leaves the state and log alone |
| `Store.StoreCell.Dispatch` | redux.js:43-46 | the new state is `reducer(old state, action)`; each listener of the list present when notification starts is called once, in order; the list is unchanged; nothing is returned |
| `Store.BaseDispatch` | redux.js:43-46 | the base store's `dispatch` as a dispatch value, `a => [Reduce(a)]`; no contract of its own, its meaning is stated by `BaseDispatchOnce` and `BaseDispatchTwice` |
| `Store.Without` | redux.js:39 | an entry is kept exactly when it differs from `l` |
| `Store.WithoutAppend` | redux.js:39 | filtering distributes over concatenation, so the kept entries stay in their original order |
| `Store.WithoutCounts` | redux.js:39 | every occurrence of `l` is removed, and every other id keeps its number of occurrences |
| `Store.WithoutIdempotent` | redux.js:38-40 | filtering a second time by the same listener changes nothing |
| `Store.Unsubscribe` | redux.js:38-40 | the listener list becomes the old list without `l`; the state and log are unchanged |
| `Store.Chain` | redux.js:95 | the chain has one element per middleware, and element `i` is middleware `i` applied to the base store |
| `Store.ApplyMiddlewareTo` | redux.js:93-101 | throws exactly when there is no middleware; otherwise the new store keeps the base store's cell, so its `getState` and `subscribe` |
| `Store.MiddlewareOrder` | redux.js:95-96 | the new dispatch is the chain applied right to left to the base dispatch: the first middleware is outermost and the last wraps the base dispatch |
| `Store.Resolve` | redux.js:20-30 | a function second argument with no third becomes the enhancer and the preloaded state becomes `undefined`; a defined non-function enhancer throws; otherwise a function enhancer is used as given, or the store is built when there is none |
| `Store.Construct` | redux.js:19-30 | the store `createStore` returns over a given cell; every store it returns has that cell, so the base store's `getState` and `subscribe`; its error cases are stated by `ThrowsAgrees` and the lemmas after it |
| `Store.Enhanced` | redux.js:92-102 | what `applyMiddleware(...)(createStore)(reducer, preloadedState)` returns; any store it returns keeps the cell of the store it was built over |
| `Store.Throws` | redux.js:19-30 | the exception `createStore` raises, if any, computed without a cell, including the `ReduceOfEmptyArray` of `compose(...chain)` over no middleware (redux.js:81, redux.js:96); no contract of its own, `ThrowsAgrees` proves it matches `Construct` and `MiddlewareThrowsOnlyWhenEmpty` evaluates it for `applyMiddleware` |
| `Store.ThrowsAgrees` | redux.js:19-30 | the store description throws exactly when `Throws` says so, with the same exception, whatever cell is used |
| `Store.FunctionSecondArgIsEnhancer` | redux.js:20-23 | `createStore(r, f)` is `createStore(r, undefined, f)` |
| `Store.EnhancerMustBeFunction` | redux.js:25-28 | a defined enhancer that is not a function throws `EnhancerNotFunction`, whose message is "Expected the enhancer to be a function" |
| `Store.EnhancerResultReturned` | redux.js:29 | with a function enhancer the result is exactly `enhancer(createStore)(reducer, preloadedState)` |
| `Store.PreloadedStateIgnored` | redux.js:32 | without an enhancer the result is the base store over the new cell, whatever the preloaded state |
| `Store.NoMiddlewareFails` | redux.js:81 | an `applyMiddleware()` enhancer with no middleware always throws `ReduceOfEmptyArray` |
| `Store.MiddlewareOverBaseStore` | redux.js:93-101 | `createStore(reducer, applyMiddleware(...mws))` is `applyMiddleware` run over the base store of the new cell |
| `Store.MiddlewareThrowsOnlyWhenEmpty` | redux.js:93-101 | `createStore(reducer, applyMiddleware(...mws))` throws `ReduceOfEmptyArray` when there is no middleware and nothing otherwise |
| `Store.CreateStore` | redux.js:19-53 | the result is `Construct` over a fresh cell whose state is `reducer(undefined, {})` with no listeners, and it throws exactly as `Throws` says |
| `Store.RunEnhancer` | redux.js:92-102 | builds the base store with `createStore(reducer, preloadedState)` and wraps its dispatch; the result is the enhanced description over a fresh cell |
| `Store.Perform` | redux.js:44-45 | carrying out effects applies the reducer once per base-dispatch call, in order, and notifies the whole list once per call |
| `Store.RunDispatch` | redux.js:43-46 | `store.dispatch(action)` performs exactly the effects that the store's dispatch function lists |
| `Store.Replay` | redux.js:44 | the state after a run of effects, one reducer step per `Reduce`; a run of `Emit`s only leaves the state unchanged |
| `Store.Notifications` | redux.js:45 | the listener calls of a run of effects, the whole list once per `Reduce`; only listeners in the list are ever called |
| `Store.BaseDispatchOnce` | redux.js:43-46 | one base dispatch is one reducer step followed by one notification of every listener |
| `Store.ReplayAppend` | redux.js:44 | replaying two runs of effects one after the other equals replaying their concatenation |
| `Store.NotificationsAppend` | redux.js:45 | the listener calls of two runs of effects, one after the other, are those of their concatenation |
| `Store.BaseDispatchTwice` | redux.js:44 | two dispatches of `a` from `s0` leave `reducer(reducer(s0, a), a)` and notify every listener twice |
| `Scenarios.CounterStore` | redux.js:19-53 | the counter store starts at 0, reaches 2 after two "INC" dispatches, and its listener was called twice |
| `Scenarios.ResetThenIncrement` | redux.js:32-46 | a reducer's `undefined` result is committed and handed back to the next call, so RESET then INC from 1 leaves 1 |
| `Scenarios.PreloadedIgnored` | redux.js:32 | a preloaded 41 without an enhancer still gives the initial state 0 |
| `Scenarios.EmptyMiddlewareThrows` | redux.js:81 | `createStore(counter, applyMiddleware())` throws `ReduceOfEmptyArray` |
| `Scenarios.LoggersInOrder` | redux.js:95-96 | with loggers A then B, one dispatch emits A, then B, then calls the base dispatch |
| `Scenarios.LoggedCounter` | redux.js:91-102 | through `createStore(counter, applyMiddleware(A, B))` one dispatch emits A and B, then moves the counter once |
| `Scenarios.BoundIncrement` | redux.js:117-119 | calling the bound `inc` moves the counter as `dispatch(inc())` does |
| `Scenarios.DuplicateSubscriptions` | redux.js:36-40 | unsubscribing a listener subscribed twice removes both entries, a second unsubscribe changes nothing, and only the remaining listener is notified |
| `Scenarios.CombineIdentity` | redux.js:64-73 | `combineReducers({x, y})(undefined, {})` is `{x: x(undefined, {}), y: y(undefined, {})}` |
| `Scenarios.CombinePrunesStale` | redux.js:64-73 | `combineReducers({x: counter})({x: 1, stale: 99}, INC)` is `{x: 2}` |
| `Scenarios.CombinedCounterStore` | redux.js:19-73 | `createStore(combineReducers({x: counter}))` starts at `{x: 0}` and one "INC" leaves `{x: 1}` |

## Left out

- react-redux.js is not part of this model. It is the React binding
  (`Provider`, `connect`), a consumer of the store's public contract.
- index.js only re-exports, so it has nothing to model.
- Listener bodies are left out. A listener call is the listener's id
  appended to `notified`. Side effects of listeners are out of scope,
  including `dispatch` or `subscribe` called again from inside one.
- Enhancers are only those that `applyMiddleware` builds. An arbitrary
  enhancer is arbitrary code around `createStore` and has no
  representation here.
- Middleware code is modelled only through the effects it lists. A
  middleware that reads `getState()` in the middle of a dispatch is not
  modelled, and neither is a value computed from that read.
- Store.RunDispatch: returns the effect list, not the JavaScript value a
  middleware-built dispatch returns. The model does not track what a
  middleware returns to its caller.
- The JavaScript `this` binding and the `arguments` object are not
  modelled. The arguments of a bound action creator are a single abstract
  value.
- Prototype properties are not modelled. In JavaScript, reading a missing
  key such as "toString" from a state object returns the inherited
  property (redux.js:68), and writing the key "__proto__" (redux.js:67,
  126) sets the object's prototype instead of adding a key. The model reads
  a missing key as `undefined` and always adds the key, so the key-set
  statements of `Combine.CombinedShape` and `Bind.BindActionCreators` hold
  for ordinary keys only.
- JavaScript object key order is not modelled. Objects keyed by strings
  are `map<string, _>`, and neither `combineReducers` nor
  `bindActionCreators` depends on the order.
- `combineReducers` uses one slice type for every key. Nested combined
  reducers, whose slices have other types, are not modelled.
- Argument values the datatypes cannot express are not modelled: a `null`
  state passed to a combined reducer, or an action-creator argument that
  is neither a function nor an object.
- An exception thrown by a reducer, middleware or action creator is not
  modelled. Those are application functions, here total.
