/** The optional values the tie-breaker passes around: an empty input field, an
    unrecorded coin toss, a team with no winner yet. */
module Wrappers {

  datatype Option<+T> = None | Some(value: T) {

    /** The value, or `default` when there is none. */
    function GetOr(default: T): T {
      match this
      case Some(v) => v
      case None => default
    }
  }
}
