/** Optional values, Python truthiness, and the outcome of a call into code outside the model. */
module Wrappers {

  /** A value that may be absent: a dictionary key that is not there, a JavaScript `undefined`. */
  datatype Option<+T> = None | Some(value: T) {

    /** The value, or `default` when absent (Python's `d.get(key, default)`). */
    function GetOr(default: T): T {
      match this
      case Some(v) => v
      case None => default
    }
  }

  /** Python truthiness of an optional string: present and not empty. */
  predicate Truthy(s: Option<string>) {
    s.Some? && s.value != ""
  }

  /** What a call into a provider library or the network gave back: its value, or the message of the exception it raised. */
  datatype Reply<+T> = Returned(value: T) | Raised(message: string)
}
