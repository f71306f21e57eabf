/** The optional value used across the project for nullable columns and absent keys. */
module Options {
  datatype Option<+T> = None | Some(value: T) {
    function UnwrapOr(fallback: T): T {
      match this
      case Some(v) => v
      case None => fallback
    }
  }
}
