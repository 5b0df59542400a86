/** `combineReducers`: one reducer over a keyed state built from a map of
    keyed sub-reducers. */
module Combine {
  import opened Js

  /** A sub-reducer: receives its slice of state (possibly `undefined`) and
      the action, and returns the new slice (possibly `undefined`). */
  type SubReducer<!V, -A> = (Opt<V>, A) -> Opt<V>

  /** A keyed state object; the value under a key may be `undefined`. */
  type KeyedState<V> = map<string, Opt<V>>

  /** `state[key]`: the slice stored under `key`, `undefined` when it has
      no own entry (inherited properties are not modelled). */
  function Slice<V>(state: KeyedState<V>, key: string): (slice: Opt<V>)
  {
    if key in state then state[key] else Undefined
  }

  /** The default parameter `state = {}`. */
  function StateOrEmpty<V>(state: Opt<KeyedState<V>>): (s: KeyedState<V>)
  {
    if state.Undefined? then map[] else state.value
  }

  /** The reducer returned by `combineReducers(reducers)`. */
  function CombineReducers<V, A>(reducers: map<string, SubReducer<V, A>>): (combined: (Opt<KeyedState<V>>, A) -> KeyedState<V>)
  {
    (state: Opt<KeyedState<V>>, action: A) =>
      var s := StateOrEmpty(state);
      map key | key in reducers :: reducers[key](Slice(s, key), action)
  }

  /** The combined reducer as `createStore` receives it: the object it
      builds is always defined, never `undefined`. */
  function CombinedStoreReducer<V, A>(reducers: map<string, SubReducer<V, A>>): (reducer: (Opt<KeyedState<V>>, A) -> Opt<KeyedState<V>>)
  {
    (state: Opt<KeyedState<V>>, action: A) => Defined(CombineReducers(reducers)(state, action))
  }

  /** The combined reducer as the reduce over the reducer keys runs it: an
      accumulator object, initially `{}`, receives one key per sub-reducer. */
  method CombinedReduce<V, A>(reducers: map<string, SubReducer<V, A>>, state: Opt<KeyedState<V>>, action: A)
    returns (acc: KeyedState<V>)
    ensures acc == CombineReducers(reducers)(state, action)
  {
    var s := StateOrEmpty(state);
    acc := map[];
    var remaining := reducers.Keys;
    while remaining != {}
      invariant remaining <= reducers.Keys
      invariant acc.Keys == reducers.Keys - remaining
      invariant forall key :: key in acc ==> acc[key] == reducers[key](Slice(s, key), action)
      decreases remaining
    {
      var key :| key in remaining;
      acc := acc[key := reducers[key](Slice(s, key), action)];
      remaining := remaining - {key};
    }
  }

  /** The result has exactly the keys of `reducers`, and each slice is that
      key's sub-reducer applied to the old slice and the action. */
  lemma CombinedShape<V, A>(reducers: map<string, SubReducer<V, A>>, state: Opt<KeyedState<V>>, action: A)
    ensures CombineReducers(reducers)(state, action).Keys == reducers.Keys
    ensures forall key :: key in reducers ==>
      CombineReducers(reducers)(state, action)[key] == reducers[key](Slice(StateOrEmpty(state), key), action)
  {
  }

  /** An `undefined` state is read as `{}`, so every sub-reducer receives
      `undefined` and produces its own default. */
  lemma UndefinedIsEmpty<V, A>(reducers: map<string, SubReducer<V, A>>, action: A)
    ensures CombineReducers(reducers)(Undefined, action) == CombineReducers(reducers)(Defined(map[]), action)
    ensures forall key :: key in reducers ==>
      CombineReducers(reducers)(Undefined, action)[key] == reducers[key](Undefined, action)
  {
    var empty: KeyedState<V> := map[];
    forall key | key in reducers ensures Slice(empty, key) == Undefined {
    }
  }

  /** Keys of the input state without a sub-reducer are dropped from the
      result and have no influence on it. */
  lemma StaleKeysDropped<V, A>(reducers: map<string, SubReducer<V, A>>, state: KeyedState<V>, action: A)
    ensures forall key :: key in state && key !in reducers ==> key !in CombineReducers(reducers)(Defined(state), action)
    ensures CombineReducers(reducers)(Defined(state), action)
         == CombineReducers(reducers)(Defined(state - (state.Keys - reducers.Keys)), action)
  {
    var pruned := state - (state.Keys - reducers.Keys);
    forall key | key in reducers ensures Slice(state, key) == Slice(pruned, key) {
    }
  }
}
