/** An optional value: `None` stands for a JavaScript `undefined` argument or field. */
module Options {

  datatype Option<+T> = None | Some(value: T) {

    /** The value, or `default` when absent: a JavaScript default parameter. */
    function GetOr(default: T): T {
      match this
      case Some(v) => v
      case None => default
    }
  }
}
