/** Uses of the store engine: a counter store driven end to end, a reducer
    that returns `undefined`, logging middlewares, a bound action creator,
    duplicate subscriptions and combined reducers, one of them driving a
    store. */
module Scenarios {
  import opened Js
  import opened Store
  import Compose
  import Combine
  import Bind

  /** `counter(state = 0, action)`: "INC" adds one, "DEC" takes one away,
      anything else (the initial `{}` among them) leaves the state. */
  function Counter(state: Opt<int>, action: Action<string>): (next: Opt<int>)
  {
    var s := if state.Undefined? then 0 else state.value;
    if action == Action("INC") then Defined(s + 1)
    else if action == Action("DEC") then Defined(s - 1)
    else Defined(s)
  }

  /** `(s = 0, a) => a.type === "RESET" ? undefined : s + 1`. */
  function Resettable(state: Opt<int>, action: Action<string>): (next: Opt<int>)
  {
    var s := if state.Undefined? then 0 else state.value;
    if action == Action("RESET") then Undefined else Defined(s + 1)
  }

  /** A reducer that returns `undefined` has that value committed, and its
      next call receives `undefined` again, so its default applies: from
      the initial 1, "RESET" then "INC" leaves 1. */
  method ResetThenIncrement() returns (initial: Opt<int>, afterReset: Opt<int>, final: Opt<int>)
    ensures initial == Defined(1) && afterReset == Undefined && final == Defined(1)
  {
    var created := CreateStore(Resettable, UndefinedArg, UndefinedArg);
    assert created.Ok?;
    var store := created.value;
    initial := store.cell.GetState();
    var _ := RunDispatch(store, Action("RESET"));
    BaseDispatchOnce(Resettable, Defined(1), [], Action("RESET"));
    afterReset := store.cell.GetState();
    var _ := RunDispatch(store, Action("INC"));
    BaseDispatchOnce(Resettable, Undefined, [], Action("INC"));
    final := store.cell.GetState();
  }

  /** A store built from `Counter` starts at 0; two "INC" dispatches leave
      2, and a listener subscribed before them has been called twice. */
  method CounterStore() returns (initial: Opt<int>, final: Opt<int>, calls: seq<ListenerId>)
    ensures initial == Defined(0) && final == Defined(2) && calls == [1, 1]
  {
    var created := CreateStore(Counter, UndefinedArg, UndefinedArg);
    assert created.Ok?;
    var store := created.value;
    initial := store.cell.GetState();
    var _ := store.cell.Subscribe(1);
    var effects := RunDispatch(store, Action("INC"));
    BaseDispatchOnce(Counter, Defined(0), [1], Action("INC"));
    effects := RunDispatch(store, Action("INC"));
    BaseDispatchOnce(Counter, Defined(1), [1], Action("INC"));
    final := store.cell.GetState();
    calls := store.cell.notified;
  }

  /** A preloaded state passed without an enhancer is not used. */
  method PreloadedIgnored() returns (initial: Opt<int>)
    ensures initial == Defined(0)
  {
    var created := CreateStore(Counter, ValueArg(41), UndefinedArg);
    assert created.Ok?;
    initial := created.value.cell.GetState();
  }

  /** A store built with `applyMiddleware()` and no middleware throws. */
  method EmptyMiddlewareThrows() returns (error: Option<Error>)
    ensures error == Some(ReduceOfEmptyArray)
  {
    var created := CreateStore(Counter, FunctionArg(ApplyMiddleware([])), UndefinedArg);
    error := if created.Err? then Some(created.error) else None;
  }

  /** A middleware that emits its name, then hands the action on. */
  function Logger<S, P>(name: string): (logger: Middleware<S, P>)
  {
    (store: Store<S, P>) => (next: Dispatch<P>) => (action: Action<P>) => [Emit(name)] + next(action)
  }

  /** With loggers "A" then "B" in front of the base dispatch, "A" is
      emitted, then "B", then the base dispatch runs. */
  lemma LoggersInOrder<S, P>(base: Store<S, P>, action: Action<P>)
    requires base.dispatch == BaseDispatch()
    ensures ApplyMiddlewareTo([Logger("A"), Logger("B")], base).Ok?
    ensures ApplyMiddlewareTo([Logger("A"), Logger("B")], base).value.dispatch(action)
         == [Emit("A"), Emit("B"), Reduce(action)]
  {
    var middlewares: seq<Middleware<S, P>> := [Logger("A"), Logger("B")];
    var chain := Chain(middlewares, base);
    MiddlewareOrder(middlewares, base);
    assert chain[1..][1..] == [];
    assert Compose.ApplyAll(chain[1..], base.dispatch) == Logger("B")(base)(base.dispatch);
  }

  /** The effects of one logged "INC" move the counter from 0 to 1. */
  lemma LoggedReplay()
    ensures Replay(Counter, Defined(0), [Emit("A"), Emit("B"), Reduce(Action("INC"))]) == Defined(1)
  {
    var pre: seq<Effect<string>> := [Emit("A"), Emit("B")];
    ReplayAppend(Counter, Defined(0), pre, [Reduce(Action("INC"))]);
    assert pre + [Reduce(Action("INC"))] == [Emit("A"), Emit("B"), Reduce(Action("INC"))];
    assert pre[..1][..0] == [] && pre[..1] == [Emit("A")];
    BaseDispatchOnce(Counter, Defined(0), [], Action("INC"));
  }

  /** The same order seen through `createStore(counter, applyMiddleware(A, B))`:
      one dispatch emits "A", "B" and reaches the reducer once. */
  method LoggedCounter() returns (effects: seq<Effect<string>>, final: Opt<int>)
    ensures effects == [Emit("A"), Emit("B"), Reduce(Action("INC"))]
    ensures final == Defined(1)
  {
    var middlewares: seq<Middleware<int, string>> := [Logger("A"), Logger("B")];
    var created := CreateStore(Counter, UndefinedArg, FunctionArg(ApplyMiddleware(middlewares)));
    MiddlewareThrowsOnlyWhenEmpty(middlewares);
    var store := created.value;
    MiddlewareOverBaseStore(store.cell, middlewares);
    LoggersInOrder(Store(store.cell, BaseDispatch()), Action("INC"));
    effects := RunDispatch(store, Action("INC"));
    LoggedReplay();
    final := store.cell.GetState();
  }

  /** `inc() => ({type: "INC"})`. */
  function Increment(args: ()): (action: Action<string>)
  {
    Action("INC")
  }

  /** Calling the bound `inc` moves the counter exactly as dispatching
      `inc()` does. */
  method BoundIncrement() returns (viaBound: Opt<int>, viaDispatch: Opt<int>)
    ensures viaBound == viaDispatch == Defined(1)
  {
    var first := CreateStore(Counter, UndefinedArg, UndefinedArg);
    var second := CreateStore(Counter, UndefinedArg, UndefinedArg);
    assert first.Ok? && second.Ok?;
    var bound := Bind.BindActionCreators(Bind.Creator(Increment), first.value.dispatch);
    Perform(first.value.cell, bound.call(()));
    var _ := RunDispatch(second.value, Increment(()));
    BaseDispatchOnce(Counter, Defined(0), [], Action("INC"));
    viaBound := first.value.cell.GetState();
    viaDispatch := second.value.cell.GetState();
  }

  /** Subscribing 1 twice and 2 once, then calling 1's unsubscribe twice,
      leaves only 2, and a dispatch then notifies only 2. */
  method DuplicateSubscriptions() returns (listeners: seq<ListenerId>, calls: seq<ListenerId>)
    ensures listeners == [2] && calls == [2]
  {
    var created := CreateStore(Counter, UndefinedArg, UndefinedArg);
    assert created.Ok?;
    var store := created.value;
    var unsubscribe := store.cell.Subscribe(1);
    var _ := store.cell.Subscribe(1);
    var _ := store.cell.Subscribe(2);
    var registered: seq<ListenerId> := [1, 1, 2];
    assert store.cell.listeners == registered;
    assert registered[1..][1..][1..] == [];
    Unsubscribe(unsubscribe);
    assert store.cell.listeners == [2];
    Unsubscribe(unsubscribe);
    listeners := store.cell.listeners;
    var _ := RunDispatch(store, Action("DEC"));
    BaseDispatchOnce(Counter, Defined(0), [2], Action("DEC"));
    calls := store.cell.notified;
  }

  /** `combineReducers({x: rx, y: ry})(undefined, {})` is
      `{x: rx(undefined, {}), y: ry(undefined, {})}`. */
  lemma CombineIdentity<V>(rx: Combine.SubReducer<V, Action<string>>, ry: Combine.SubReducer<V, Action<string>>)
    ensures Combine.CombineReducers(map["x" := rx, "y" := ry])(Undefined, EmptyObject)
         == map["x" := rx(Undefined, EmptyObject), "y" := ry(Undefined, EmptyObject)]
  {
    var reducers := map["x" := rx, "y" := ry];
    Combine.UndefinedIsEmpty(reducers, EmptyObject);
    Combine.CombinedShape(reducers, Undefined, EmptyObject);
  }

  /** `combineReducers({x: counter})({x: 1, stale: 99}, inc)` is `{x: 2}`. */
  lemma CombinePrunesStale()
    ensures Combine.CombineReducers(map["x" := Counter])(Defined(map["x" := Defined(1), "stale" := Defined(99)]), Action("INC"))
         == map["x" := Defined(2)]
  {
    var reducers := map["x" := Counter];
    Combine.CombinedShape(reducers, Defined(map["x" := Defined(1), "stale" := Defined(99)]), Action("INC"));
  }

  /** `createStore(combineReducers({x: counter}))`: the state starts as
      `{x: 0}`, and one "INC" leaves `{x: 1}`. */
  method CombinedCounterStore() returns (initial: Opt<Combine.KeyedState<int>>, final: Opt<Combine.KeyedState<int>>)
    ensures initial == Defined(map["x" := Defined(0)])
    ensures final == Defined(map["x" := Defined(1)])
  {
    var reducers := map["x" := Counter];
    var reducer := Combine.CombinedStoreReducer(reducers);
    var created := CreateStore(reducer, UndefinedArg, UndefinedArg);
    assert created.Ok?;
    var store := created.value;
    Combine.UndefinedIsEmpty(reducers, EmptyObject);
    Combine.CombinedShape(reducers, Undefined, EmptyObject);
    initial := store.cell.GetState();
    assert initial.value == map["x" := Defined(0)];
    var _ := RunDispatch(store, Action("INC"));
    BaseDispatchOnce(reducer, initial, [], Action("INC"));
    Combine.CombinedShape(reducers, initial, Action("INC"));
    assert Combine.Slice(initial.value, "x") == Defined(0);
    final := store.cell.GetState();
    assert final.value == map["x" := Defined(1)];
  }
}
