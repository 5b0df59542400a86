/** Values of the JavaScript host that the store engine relies on. */
module Js {

  /** A value that may be `undefined`. */
  datatype Opt<T> = Undefined | Defined(value: T)

  /** An action as the engine sees it: the empty object literal `{}` that
      `createStore` uses to obtain the initial state, or an application
      action carrying its own payload (its `type` and any other fields). */
  datatype Action<P> = EmptyObject | Action(payload: P)

  /** The exceptions the engine itself raises. */
  datatype Error =
    | EnhancerNotFunction   // thrown by createStore
    | ReduceOfEmptyArray    // TypeError of Array.prototype.reduce, reached through compose

  /** The message carried by each exception. */
  function Message(e: Error): (m: string)
  {
    match e
    case EnhancerNotFunction => "Expected the enhancer to be a function"
    case ReduceOfEmptyArray => "Reduce of empty array with no initial value"
  }

  /** Presence or absence of a value on the model's side (not a JavaScript
      value). */
  datatype Option<T> = None | Some(value: T)

  /** A computation that either returns a value or throws. */
  datatype Result<T> = Ok(value: T) | Err(error: Error)
}
