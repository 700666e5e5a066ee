/** The optional value used wherever the source has a field that may be absent. */
module Wrappers {

  datatype Option<+T> = None | Some(value: T) {

    /** The value, or `default` when absent. */
    function GetOr(default: T): T {
      match this
      case Some(v) => v
      case None => default
    }
  }

  /** JavaScript's `value || fallback` on an optional string: absent and empty both fall back. */
  function OrElse(o: Option<string>, fallback: string): string {
    if o.Some? && o.value != "" then o.value else fallback
  }
}
