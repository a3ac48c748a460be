/** Optional values and results shared by every module of the model. */
module Wrappers {

  /** A value that may be missing: a dictionary key that is absent, or a `None`. */
  datatype Option<T> = None | Some(value: T) {
    /** `d.get(key, default)`: the value when present, the default otherwise. */
    function GetOr(default: T): T {
      if Some? then value else default
    }
  }

  /** A text key of a dictionary: missing, present with a null value, or present with text. */
  datatype Entry = Absent | Null | Text(text: string) {
    /** `d.get(key, default)`: the default only when the key is missing, a null kept as `None`. */
    function Get(default: string): Option<string> {
      match this
      case Absent => Some(default)
      case Null => None
      case Text(t) => Some(t)
    }
  }

  /** The outcome of a call that may raise: the returned value or the exception's message. */
  datatype Result<T> = Ok(value: T) | Failure(error: string)
}
