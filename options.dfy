/** The optional value that `URLSearchParams.get` and the URL constructor
    produce: a value, or nothing (`null`, or a thrown error). */
module Options {
  datatype Option<T> = None | Some(value: T) {
    function GetOr(default: T): T {
      match this
      case Some(v) => v
      case None => default
    }
  }
}
