/** Option type shared by the whole model: `None` stands for a JavaScript
    `null`/`undefined`, `Some` for a present value. */
module Wrappers {
  datatype Option<+T> = None | Some(value: T) {
    function GetOr(default: T): T {
      match this
      case Some(v) => v
      case None => default
    }
  }
}
