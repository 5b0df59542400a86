/** `bindActionCreator` / `bindActionCreators`: action creators wrapped so
    that calling them dispatches the action they create. */
module Bind {

  /** What `bindActionCreators` accepts: a single action creator (a value
      whose `typeof` is "function") or an object whose values are action
      creators. `X` is the arguments of a call, `A` the action. */
  datatype Creators<!X, A> = Creator(create: X -> A) | CreatorMap(creators: map<string, X -> A>)

  /** What `bindActionCreators` returns: one bound function, or an object
      with a bound function per key. `R` is what dispatch returns. */
  datatype Bound<!X, R> = BoundCreator(call: X -> R) | BoundMap(calls: map<string, X -> R>)

  /** `bindActionCreator(actionCreator, dispatch)`. */
  function BindActionCreator<X, A, R>(actionCreator: X -> A, dispatch: A -> R): (bound: X -> R)
  {
    args => dispatch(actionCreator(args))
  }

  /** Calling a bound creator is dispatching what the creator returns for
      the same arguments. */
  lemma BoundDispatchesCreated<X, A, R>(actionCreator: X -> A, dispatch: A -> R, args: X)
    ensures BindActionCreator(actionCreator, dispatch)(args) == dispatch(actionCreator(args))
  {
  }

  /** `bindActionCreators(actionCreators, dispatch)`: a function is bound
      directly; an object is copied key by key into `boundActionCreators`. */
  method BindActionCreators<X, A, R>(actionCreators: Creators<X, A>, dispatch: A -> R) returns (r: Bound<X, R>)
    ensures actionCreators.Creator? ==> r == BoundCreator(BindActionCreator(actionCreators.create, dispatch))
    ensures actionCreators.CreatorMap? ==>
      && r.BoundMap?
      && r.calls.Keys == actionCreators.creators.Keys
      && forall key :: key in r.calls ==> r.calls[key] == BindActionCreator(actionCreators.creators[key], dispatch)
  {
    if actionCreators.Creator? {
      return BoundCreator(BindActionCreator(actionCreators.create, dispatch));
    }
    var creators := actionCreators.creators;
    var boundActionCreators: map<string, X -> R> := map[];
    var remaining := creators.Keys;
    while remaining != {}
      invariant remaining <= creators.Keys
      invariant boundActionCreators.Keys == creators.Keys - remaining
      invariant forall key :: key in boundActionCreators ==>
        boundActionCreators[key] == BindActionCreator(creators[key], dispatch)
      decreases remaining
    {
      var key :| key in remaining;
      boundActionCreators := boundActionCreators[key := BindActionCreator(creators[key], dispatch)];
      remaining := remaining - {key};
    }
    r := BoundMap(boundActionCreators);
  }
}
