/** The optional value used wherever the source has `undefined`, `None` or a
    call that may throw. */
module Options {

  datatype Option<+T> = None | Some(value: T) {

    /** The value, or `default` when there is none (the `x || d` and
        `d.get(k, default)` idioms). */
    function GetOr(default: T): T {
      match this
      case Some(v) => v
      case None => default
    }
  }
}
