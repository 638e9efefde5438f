/** Option, and the three states a key can be in inside a decoded JSON object or a database row. */
module Wrappers {

  datatype Option<+T> = None | Some(value: T) {

    /** The value, or `default` when there is none. */
    function GetOr(default: T): T {
      match this
      case Some(v) => v
      case None => default
    }
  }

  /** A key of a Python dict as the ETL reads it: missing, present with `null`, or present with a value. */
  datatype Slot<+T> = Absent | Null | Present(value: T) {

    /** `d.get(key, default)`: the default only when the key is missing; a `null` stays `None`. */
    function Get(default: T): (r: Option<T>)
      ensures r.None? <==> Null?
      ensures Absent? ==> r == Some(default)
    {
      match this
      case Absent => Some(default)
      case Null => None
      case Present(v) => Some(v)
    }

    /** `d.get(key)`: `None` for a missing key and for a `null`. */
    function ToOption(): Option<T> {
      if Present? then Some(value) else None
    }
  }
}
