/** `createStore` and `applyMiddleware`: the state cell shared by the
    `getState`, `subscribe` and `dispatch` closures, the store object that
    exposes them, and the enhancer that replaces its `dispatch` with a
    middleware chain. */
module Store {
  import opened Js
  import Compose

  /** A reducer: the current state, `undefined` before the first call, and
      an action give the next state, which may itself be `undefined`. */
  type Reducer<!S, !P> = (Opt<S>, Action<P>) -> Opt<S>

  /** A listener callback, identified by an id; calling it is recorded by
      appending its id to the cell's `notified` log. */
  type ListenerId = nat

  /** What running a dispatch function does, in order: a middleware emits a
      named event, or the base store's `dispatch` is called with an action. */
  datatype Effect<P> = Emit(name: string) | Reduce(action: Action<P>)

  /** A dispatch function, described by the effects one call performs. */
  type Dispatch<!P> = Action<P> -> seq<Effect<P>>

  /** The base store's `dispatch`: one call to the reducer-and-notify step. */
  function BaseDispatch<P>(): (dispatch: Dispatch<P>)
  {
    action => [Reduce(action)]
  }

  /** The variables `state` and `listeners` that the closures of one
      `createStore` call share, with the `dispatch` closure's reducer. */
  class StoreCell<S, P> {
    const reducer: Reducer<S, P>
    /** The committed state, kept as the reducer returned it. */
    var state: Opt<S>
    var listeners: seq<ListenerId>
    /** Every listener call so far, in call order. */
    var notified: seq<ListenerId>

    /** The state starts as the reducer's answer to an `undefined` state and
        the empty action; the listener list starts empty. */
    constructor (reducer: Reducer<S, P>)
      ensures Initial(reducer)
    {
      this.reducer := reducer;
      state := reducer(Undefined, EmptyObject);
      listeners := [];
      notified := [];
    }

    /** The cell as a fresh `createStore` leaves it. */
    ghost predicate Initial(reducer: Reducer<S, P>)
      reads this
    {
      && this.reducer == reducer
      && state == reducer(Undefined, EmptyObject)
      && listeners == []
      && notified == []
    }

    /** `getState`: the committed state, read without side effects. */
    function GetState(): (s: Opt<S>)
      reads this
      ensures s == state
    {
      state
    }

    /** `subscribe(l)`: appends `l`, even when it is already registered,
        and hands back the unsubscribe closure for it. */
    method Subscribe(l: ListenerId) returns (unsubscribe: Unsubscriber<S, P>)
      modifies this
      ensures listeners == old(listeners) + [l]
      ensures state == old(state) && notified == old(notified)
      ensures unsubscribe == Unsubscriber(this, l)
    {
      listeners := listeners + [l];
      unsubscribe := Unsubscriber(this, l);
    }

    /** `dispatch(action)`: commit `reducer(state, action)`, then call each
        listener of the list as it stands, once, in subscription order.
        Like the closure it models, it returns nothing. */
    method Dispatch(action: Action<P>)
      modifies this
      ensures state == reducer(old(state), action)
      ensures listeners == old(listeners)
      ensures notified == old(notified) + old(listeners)
    {
      state := reducer(state, action);
      var snapshot := listeners;
      var i := 0;
      while i < |snapshot|
        invariant 0 <= i <= |snapshot|
        invariant listeners == snapshot
        invariant state == reducer(old(state), action)
        invariant notified == old(notified) + snapshot[..i]
      {
        assert snapshot[..i + 1] == snapshot[..i] + [snapshot[i]];
        notified := notified + [snapshot[i]];
        i := i + 1;
      }
      assert snapshot[..i] == snapshot;
    }
  }

  /** The closure returned by `subscribe(l)`, bound to its own store. */
  datatype Unsubscriber<S, P> = Unsubscriber(cell: StoreCell<S, P>, listener: ListenerId)

  /** The listener list with every entry equal to `l` filtered out. */
  function Without(listeners: seq<ListenerId>, l: ListenerId): (r: seq<ListenerId>)
    ensures forall x :: x in r <==> x in listeners && x != l
    ensures |r| <= |listeners|
    decreases |listeners|
  {
    if listeners == [] then []
    else if listeners[0] == l then Without(listeners[1..], l)
    else [listeners[0]] + Without(listeners[1..], l)
  }

  /** Filtering distributes over concatenation, so the entries kept stay in
      their original order. */
  lemma {:induction false} WithoutAppend(xs: seq<ListenerId>, ys: seq<ListenerId>, l: ListenerId)
    ensures Without(xs + ys, l) == Without(xs, l) + Without(ys, l)
    decreases |xs|
  {
    if xs == [] {
      assert xs + ys == ys;
    } else {
      assert (xs + ys)[1..] == xs[1..] + ys;
      WithoutAppend(xs[1..], ys, l);
    }
  }

  /** Every occurrence of `l` is removed, and every other entry keeps its
      number of occurrences. */
  lemma {:induction false} WithoutCounts(listeners: seq<ListenerId>, l: ListenerId, x: ListenerId)
    ensures multiset(Without(listeners, l))[x] == if x == l then 0 else multiset(listeners)[x]
    decreases |listeners|
  {
    if listeners != [] {
      WithoutCounts(listeners[1..], l, x);
      assert listeners == [listeners[0]] + listeners[1..];
    }
  }

  /** A second filtering by the same listener changes nothing. */
  lemma {:induction false} WithoutIdempotent(listeners: seq<ListenerId>, l: ListenerId)
    ensures Without(Without(listeners, l), l) == Without(listeners, l)
    decreases |listeners|
  {
    if listeners != [] {
      WithoutIdempotent(listeners[1..], l);
    }
  }

  /** Calling the closure returned by `subscribe(l)`: reassign `listeners`
      to the list without any entry equal to `l`. */
  method Unsubscribe<S, P>(unsubscribe: Unsubscriber<S, P>)
    modifies unsubscribe.cell
    ensures unsubscribe.cell.listeners == Without(old(unsubscribe.cell.listeners), unsubscribe.listener)
    ensures unsubscribe.cell.state == old(unsubscribe.cell.state)
    ensures unsubscribe.cell.notified == old(unsubscribe.cell.notified)
  {
    unsubscribe.cell.listeners := Without(unsubscribe.cell.listeners, unsubscribe.listener);
  }

  /** The object `{getState, subscribe, dispatch}` that `createStore`
      returns: `getState` and `subscribe` are those of `cell`. */
  datatype Store<S, !P> = Store(cell: StoreCell<S, P>, dispatch: Dispatch<P>)

  /** `store => next => action => ...`. */
  type Middleware<!S, !P> = Store<S, P> -> (Dispatch<P> -> Dispatch<P>)

  /** An enhancer `createStore => (...args) => store`, as `applyMiddleware`
      builds it. */
  datatype Enhancer<!S, !P> = ApplyMiddleware(middlewares: seq<Middleware<S, P>>)

  /** Every middleware applied to the base store, in the given order. */
  function Chain<S, P>(middlewares: seq<Middleware<S, P>>, store: Store<S, P>): (chain: seq<Dispatch<P> -> Dispatch<P>>)
    ensures |chain| == |middlewares|
    ensures forall i :: 0 <= i < |chain| ==> chain[i] == middlewares[i](store)
    decreases |middlewares|
  {
    if middlewares == [] then [] else [middlewares[0](store)] + Chain(middlewares[1..], store)
  }

  /** The body of `applyMiddleware(...middlewares)(createStore)(...args)`
      once `store` has been created: the chain is composed around the
      base `dispatch`, and the result is `{...store, dispatch}`. */
  function ApplyMiddlewareTo<S, P>(middlewares: seq<Middleware<S, P>>, store: Store<S, P>): (r: Result<Store<S, P>>)
    ensures r.Ok? <==> |middlewares| > 0
    ensures r.Err? ==> r.error == ReduceOfEmptyArray
    ensures r.Ok? ==> r.value.cell == store.cell
  {
    match Compose.Compose(Chain(middlewares, store))
    case Err(e) => Err(e)
    case Ok(composed) => Ok(Store(store.cell, composed(store.dispatch)))
  }

  /** The new dispatch is the chain applied right to left to the base
      dispatch: the first middleware is outermost and the last one wraps
      the base dispatch directly. */
  lemma MiddlewareOrder<S, P>(middlewares: seq<Middleware<S, P>>, store: Store<S, P>)
    requires |middlewares| > 0
    ensures ApplyMiddlewareTo(middlewares, store).Ok?
    ensures ApplyMiddlewareTo(middlewares, store).value.dispatch
         == Compose.ApplyAll(Chain(middlewares, store), store.dispatch)
    ensures ApplyMiddlewareTo(middlewares, store).value.dispatch
         == middlewares[0](store)(Compose.ApplyAll(Chain(middlewares, store)[1..], store.dispatch))
    ensures ApplyMiddlewareTo(middlewares, store).value.dispatch
         == Compose.ApplyAll(Chain(middlewares, store)[..|middlewares| - 1],
                             middlewares[|middlewares| - 1](store)(store.dispatch))
  {
    var chain := Chain(middlewares, store);
    Compose.ComposeApplies(chain, store.dispatch);
    Compose.LastIsInnermost(chain, store.dispatch);
  }

  /** The optional arguments of `createStore`, told apart by `typeof`:
      "undefined", "function", or any other type. `ValueArg` stands only
      for a value whose `typeof` is neither "function" nor "undefined". */
  datatype Arg<!S, !P> = UndefinedArg | FunctionArg(enhancer: Enhancer<S, P>) | ValueArg(value: S)

  /** Number of arguments that are functions; bounds the depth of nested
      `createStore` calls. */
  function Weight<S, P>(a: Arg<S, P>): (w: nat)
  {
    if a.FunctionArg? then 1 else 0
  }

  /** Which path `createStore` takes once its arguments are sorted out:
      build the base store itself, or hand over to an enhancer. */
  datatype Plan<!S, !P> = Build | Delegate(enhancer: Enhancer<S, P>, preloadedState: Arg<S, P>)

  /** Lines 20-30 of `createStore`: the positional overload, then the check
      on the enhancer. */
  function Resolve<S, P>(preloadedState: Arg<S, P>, enhancer: Arg<S, P>): (r: Result<Plan<S, P>>)
    ensures enhancer.UndefinedArg? && preloadedState.FunctionArg? ==>
      r == Ok(Delegate(preloadedState.enhancer, UndefinedArg))
    ensures enhancer.UndefinedArg? && !preloadedState.FunctionArg? ==> r == Ok(Build)
    ensures enhancer.ValueArg? ==> r == Err(EnhancerNotFunction)
    ensures enhancer.FunctionArg? ==> r == Ok(Delegate(enhancer.enhancer, preloadedState))
    ensures r.Ok? && r.value.Delegate? ==> Weight(r.value.preloadedState) < Weight(preloadedState) + Weight(enhancer)
  {
    var (p, e) := if preloadedState.FunctionArg? && enhancer.UndefinedArg?
                  then (UndefinedArg, preloadedState)
                  else (preloadedState, enhancer);
    if e.UndefinedArg? then Ok(Build)
    else if !e.FunctionArg? then Err(EnhancerNotFunction)
    else Ok(Delegate(e.enhancer, p))
  }

  /** What `createStore(reducer, preloadedState, enhancer)` returns, given
      the one state cell that the call, or the nested call an enhancer
      makes, allocates. */
  function Construct<S, P>(cell: StoreCell<S, P>, preloadedState: Arg<S, P>, enhancer: Arg<S, P>): (r: Result<Store<S, P>>)
    ensures r.Ok? ==> r.value.cell == cell
    decreases Weight(preloadedState) + Weight(enhancer), 1
  {
    match Resolve(preloadedState, enhancer)
    case Err(e) => Err(e)
    case Ok(Build) => Ok(Store(cell, BaseDispatch()))
    case Ok(Delegate(en, p)) => Enhanced(cell, en, p)
  }

  /** What `enhancer(createStore)(reducer, preloadedState)` returns. */
  function Enhanced<S, P>(cell: StoreCell<S, P>, enhancer: Enhancer<S, P>, preloadedState: Arg<S, P>): (r: Result<Store<S, P>>)
    ensures r.Ok? ==> r.value.cell == cell
    decreases Weight(preloadedState), 2
  {
    match Construct(cell, preloadedState, UndefinedArg)
    case Err(e) => Err(e)
    case Ok(store) => ApplyMiddlewareTo(enhancer.middlewares, store)
  }

  /** The exception `createStore(reducer, preloadedState, enhancer)` throws,
      if any: a non-function enhancer, or an empty middleware list reached
      on the way. */
  function Throws<S, P>(preloadedState: Arg<S, P>, enhancer: Arg<S, P>): (thrown: Option<Error>)
    decreases Weight(preloadedState) + Weight(enhancer)
  {
    match Resolve(preloadedState, enhancer)
    case Err(e) => Some(e)
    case Ok(Build) => None
    case Ok(Delegate(en, p)) =>
      match Throws(p, UndefinedArg)
      case Some(e) => Some(e)
      case None => if en.middlewares == [] then Some(ReduceOfEmptyArray) else None
  }

  /** The store description throws exactly when `Throws` says so, with the
      same exception, whichever cell is allocated. */
  lemma {:induction false} ThrowsAgrees<S, P>(cell: StoreCell<S, P>, preloadedState: Arg<S, P>, enhancer: Arg<S, P>)
    ensures Construct(cell, preloadedState, enhancer).Err? <==> Throws(preloadedState, enhancer).Some?
    ensures Construct(cell, preloadedState, enhancer).Err? ==>
      Construct(cell, preloadedState, enhancer).error == Throws(preloadedState, enhancer).value
    decreases Weight(preloadedState) + Weight(enhancer)
  {
    match Resolve(preloadedState, enhancer)
    case Err(e) =>
    case Ok(Build) =>
    case Ok(Delegate(en, p)) =>
      ThrowsAgrees(cell, p, UndefinedArg);
  }

  /** A function passed as the second argument, with no third, is taken as
      the enhancer, and the preloaded state becomes `undefined`. */
  lemma FunctionSecondArgIsEnhancer<S, P>(cell: StoreCell<S, P>, enhancer: Enhancer<S, P>)
    ensures Construct(cell, FunctionArg(enhancer), UndefinedArg) == Construct(cell, UndefinedArg, FunctionArg(enhancer))
    ensures Construct(cell, FunctionArg(enhancer), UndefinedArg) == Enhanced(cell, enhancer, UndefinedArg)
  {
  }

  /** A defined enhancer that is not a function throws, whatever the
      preloaded state. */
  lemma EnhancerMustBeFunction<S, P>(cell: StoreCell<S, P>, preloadedState: Arg<S, P>, notAFunction: S)
    ensures Construct(cell, preloadedState, ValueArg(notAFunction)) == Err(EnhancerNotFunction)
    ensures Message(Construct(cell, preloadedState, ValueArg(notAFunction)).error)
         == "Expected the enhancer to be a function"
  {
  }

  /** A function enhancer receives `createStore` and the call's own
      `(reducer, preloadedState)`; its result is returned as it is. */
  lemma EnhancerResultReturned<S, P>(cell: StoreCell<S, P>, preloadedState: Arg<S, P>, enhancer: Enhancer<S, P>)
    ensures Construct(cell, preloadedState, FunctionArg(enhancer)) == Enhanced(cell, enhancer, preloadedState)
  {
  }

  /** Without an enhancer the store is the base store over the new cell,
      and a preloaded state has no effect: the cell starts from
      `reducer(undefined, {})`. */
  lemma PreloadedStateIgnored<S, P>(cell: StoreCell<S, P>, preloadedState: S)
    ensures Construct(cell, ValueArg(preloadedState), UndefinedArg) == Ok(Store(cell, BaseDispatch()))
    ensures Construct(cell, UndefinedArg, UndefinedArg) == Ok(Store(cell, BaseDispatch()))
  {
  }

  /** `applyMiddleware()` with no middleware throws once the store is built,
      whatever the preloaded state. */
  lemma {:induction false} NoMiddlewareFails<S, P>(cell: StoreCell<S, P>, preloadedState: Arg<S, P>)
    ensures Construct(cell, preloadedState, FunctionArg(ApplyMiddleware([]))) == Err(ReduceOfEmptyArray)
  {
    var inner := Construct(cell, preloadedState, UndefinedArg);
    if preloadedState.FunctionArg? {
      assert inner == Enhanced(cell, preloadedState.enhancer, UndefinedArg);
      assert Construct(cell, UndefinedArg, UndefinedArg) == Ok(Store(cell, BaseDispatch()));
    }
  }

  /** `createStore(reducer, applyMiddleware(...middlewares))` is the base
      store over the new cell with its dispatch wrapped by the chain. */
  lemma MiddlewareOverBaseStore<S, P>(cell: StoreCell<S, P>, middlewares: seq<Middleware<S, P>>)
    ensures Construct(cell, UndefinedArg, FunctionArg(ApplyMiddleware(middlewares)))
         == ApplyMiddlewareTo(middlewares, Store(cell, BaseDispatch()))
  {
    assert Construct(cell, UndefinedArg, UndefinedArg) == Ok(Store(cell, BaseDispatch()));
  }

  /** `createStore(reducer, applyMiddleware(...middlewares))` throws
      exactly when there is no middleware. */
  lemma MiddlewareThrowsOnlyWhenEmpty<S, P>(middlewares: seq<Middleware<S, P>>)
    ensures Throws(UndefinedArg, FunctionArg(ApplyMiddleware(middlewares)))
         == if middlewares == [] then Some(ReduceOfEmptyArray) else None
  {
    assert Throws<S, P>(UndefinedArg, UndefinedArg) == None;
  }

  /** `createStore(reducer, preloadedState, enhancer)`. */
  method CreateStore<S, P>(reducer: Reducer<S, P>, preloadedState: Arg<S, P>, enhancer: Arg<S, P>)
    returns (r: Result<Store<S, P>>)
    ensures r.Ok? ==> fresh(r.value.cell) && r.value.cell.Initial(reducer)
    ensures r.Ok? ==> r == Construct(r.value.cell, preloadedState, enhancer)
    ensures r.Err? <==> Throws(preloadedState, enhancer).Some?
    ensures r.Err? ==> r.error == Throws(preloadedState, enhancer).value
    decreases Weight(preloadedState) + Weight(enhancer), 1
  {
    var p, e := preloadedState, enhancer;
    if p.FunctionArg? && e.UndefinedArg? {
      e := p;
      p := UndefinedArg;
    }
    if !e.UndefinedArg? {
      if !e.FunctionArg? {
        return Err(EnhancerNotFunction);
      }
      r := RunEnhancer(e.enhancer, reducer, p);
      return;
    }
    var cell := new StoreCell(reducer);
    r := Ok(Store(cell, BaseDispatch()));
  }

  /** `applyMiddleware(...middlewares)(createStore)(reducer, preloadedState)`. */
  method RunEnhancer<S, P>(enhancer: Enhancer<S, P>, reducer: Reducer<S, P>, preloadedState: Arg<S, P>)
    returns (r: Result<Store<S, P>>)
    ensures r.Ok? ==> fresh(r.value.cell) && r.value.cell.Initial(reducer)
    ensures r.Ok? ==> r == Enhanced(r.value.cell, enhancer, preloadedState)
    ensures r.Err? <==> Throws(preloadedState, FunctionArg(enhancer)).Some?
    ensures r.Err? ==> r.error == Throws(preloadedState, FunctionArg(enhancer)).value
    decreases Weight(preloadedState), 2
  {
    var store := CreateStore(reducer, preloadedState, UndefinedArg);
    if store.Err? {
      return Err(store.error);
    }
    r := ApplyMiddlewareTo(enhancer.middlewares, store.value);
  }

  /** The state after a run of effects: each `Reduce` applies the reducer
      to the state left by the effects before it. */
  function Replay<S, P>(reducer: Reducer<S, P>, state: Opt<S>, effects: seq<Effect<P>>): (after: Opt<S>)
    ensures (forall i :: 0 <= i < |effects| ==> effects[i].Emit?) ==> after == state
    decreases |effects|
  {
    if effects == [] then state
    else
      var before := Replay(reducer, state, effects[..|effects| - 1]);
      match effects[|effects| - 1]
      case Reduce(action) => reducer(before, action)
      case Emit(_) => before
  }

  /** The listener calls of a run of effects: the whole listener list once
      per `Reduce`. */
  function Notifications<P>(listeners: seq<ListenerId>, effects: seq<Effect<P>>): (calls: seq<ListenerId>)
    ensures forall x :: x in calls ==> x in listeners
    decreases |effects|
  {
    if effects == [] then []
    else
      Notifications(listeners, effects[..|effects| - 1])
      + (if effects[|effects| - 1].Reduce? then listeners else [])
  }

  /** Carry out a run of effects on a state cell: each `Reduce` is one
      call of the base `dispatch`, in order. */
  method Perform<S, P>(cell: StoreCell<S, P>, effects: seq<Effect<P>>)
    modifies cell
    ensures cell.state == Replay(cell.reducer, old(cell.state), effects)
    ensures cell.notified == old(cell.notified) + Notifications(old(cell.listeners), effects)
    ensures cell.listeners == old(cell.listeners)
  {
    var i := 0;
    while i < |effects|
      invariant 0 <= i <= |effects|
      invariant cell.listeners == old(cell.listeners)
      invariant cell.state == Replay(cell.reducer, old(cell.state), effects[..i])
      invariant cell.notified == old(cell.notified) + Notifications(old(cell.listeners), effects[..i])
    {
      assert effects[..i + 1][..i] == effects[..i];
      if effects[i].Reduce? {
        cell.Dispatch(effects[i].action);
      }
      i := i + 1;
    }
    assert effects[..i] == effects;
  }

  /** `store.dispatch(action)` on a store object: run its dispatch function
      and carry out what it does. */
  method RunDispatch<S, P>(store: Store<S, P>, action: Action<P>) returns (effects: seq<Effect<P>>)
    modifies store.cell
    ensures effects == store.dispatch(action)
    ensures store.cell.state == Replay(store.cell.reducer, old(store.cell.state), effects)
    ensures store.cell.notified == old(store.cell.notified) + Notifications(old(store.cell.listeners), effects)
    ensures store.cell.listeners == old(store.cell.listeners)
  {
    effects := store.dispatch(action);
    Perform(store.cell, effects);
  }

  /** One base dispatch is one reducer step and one notification of every
      listener. */
  lemma BaseDispatchOnce<S, P>(reducer: Reducer<S, P>, s0: Opt<S>, listeners: seq<ListenerId>, a: Action<P>)
    ensures Replay(reducer, s0, BaseDispatch()(a)) == reducer(s0, a)
    ensures Notifications(listeners, BaseDispatch()(a)) == listeners
  {
    var once: seq<Effect<P>> := [Reduce(a)];
    assert BaseDispatch()(a) == once;
    assert once[..0] == [];
  }

  /** Replaying two runs of effects one after the other is replaying their
      concatenation. */
  lemma {:induction false} ReplayAppend<S, P>(reducer: Reducer<S, P>, s0: Opt<S>,
                                            first: seq<Effect<P>>, second: seq<Effect<P>>)
    ensures Replay(reducer, s0, first + second) == Replay(reducer, Replay(reducer, s0, first), second)
    decreases |second|
  {
    if second == [] {
      assert first + second == first;
    } else {
      var both := first + second;
      var n := |second| - 1;
      assert both[..|both| - 1] == first + second[..n];
      assert both[|both| - 1] == second[n];
      ReplayAppend(reducer, s0, first, second[..n]);
      var mid := Replay(reducer, s0, first);
      assert Replay(reducer, s0, both[..|both| - 1]) == Replay(reducer, mid, second[..n]);
    }
  }

  /** The listener calls of two runs of effects, one after the other, are
      those of their concatenation. */
  lemma {:induction false} NotificationsAppend<P>(listeners: seq<ListenerId>, first: seq<Effect<P>>, second: seq<Effect<P>>)
    ensures Notifications(listeners, first + second) == Notifications(listeners, first) + Notifications(listeners, second)
    decreases |second|
  {
    if second == [] {
      assert first + second == first;
    } else {
      var both := first + second;
      var n := |second| - 1;
      assert both[..|both| - 1] == first + second[..n];
      assert both[|both| - 1] == second[n];
      NotificationsAppend(listeners, first, second[..n]);
    }
  }

  /** Two base dispatches of the same action from `s0` leave
      `reducer(reducer(s0, a), a)` and notify every listener twice. */
  lemma BaseDispatchTwice<S, P>(reducer: Reducer<S, P>, s0: Opt<S>, listeners: seq<ListenerId>, a: Action<P>)
    ensures Replay(reducer, s0, BaseDispatch()(a) + BaseDispatch()(a))
         == reducer(reducer(s0, a), a)
    ensures Notifications(listeners, BaseDispatch()(a) + BaseDispatch()(a)) == listeners + listeners
  {
    ReplayAppend(reducer, s0, BaseDispatch()(a), BaseDispatch()(a));
    NotificationsAppend(listeners, BaseDispatch()(a), BaseDispatch()(a));
    BaseDispatchOnce(reducer, s0, listeners, a);
    BaseDispatchOnce(reducer, reducer(s0, a), listeners, a);
  }
}
