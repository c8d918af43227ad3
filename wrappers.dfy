/** Optional values: a JSON field that may be absent, or a Python `None`. */
module Wrappers {

  datatype Option<+T> = None | Some(value: T) {

    /** The value, or `default` when absent (Python's `d.get(key, default)`). */
    function GetOr(default: T): T {
      match this
      case Some(v) => v
      case None => default
    }
  }

  /** A string-valued field of a JSON object: missing, `null`, or a string. */
  datatype Field = Absent | Null | Str(value: string) {

    /** `f"{obj.get(key, default)}"`: the default when missing, and "None" for `null`. */
    function Show(default: string): string {
      match this
      case Absent => default
      case Null => "None"
      case Str(v) => v
    }
  }
}
