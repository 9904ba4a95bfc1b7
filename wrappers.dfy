/** Optional values and the outcomes of awaited remote calls. */
module Wrappers {

  datatype Option<+T> = None | Some(value: T) {
    function GetOr(default: T): T {
      match this
      case Some(v) => v
      case None => default
    }
  }

  /** An awaited backend read: the promise resolved (with a row, or with `null`),
      or it was rejected and control went to the surrounding `catch`. */
  datatype Response<+T> = Resolved(data: Option<T>) | Rejected

  /** An awaited call that yields a value, or throws. */
  datatype Attempt<+T> = Done(value: T) | Raised

  /** An awaited call whose resolved value the caller ignores. */
  datatype Settled = Fulfilled | Thrown

  /** JavaScript truthiness of an optional string: `null`, `undefined` and `""` are falsy. */
  predicate Truthy(s: Option<string>) {
    s.Some? && s.value != ""
  }
}
