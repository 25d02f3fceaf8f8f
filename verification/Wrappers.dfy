/** Values that may be absent (None in the source's Python). */
module Wrappers {
  datatype Option<+T> = None | Some(value: T) {
    function GetOr(default: T): T {
      if Some? then value else default
    }
  }

  /** The source's `s or default`: an empty string counts as absent. */
  function OrElse(s: Option<string>, default: string): string {
    if s.Some? && s.value != "" then s.value else default
  }
}
