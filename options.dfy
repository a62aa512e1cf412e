/** The optional value used wherever the bot reads a field that may be
    absent (`undefined` in JavaScript) or a search that may find nothing. */
module Options {

  datatype Option<+T> = None | Some(value: T) {

    /** The value, or `default` when absent. */
    function GetOr(default: T): T {
      match this
      case Some(v) => v
      case None => default
    }
  }
}
