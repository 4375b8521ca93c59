/** JavaScript's `null`/`undefined` alternatives, as a value that may be absent. */
module Optional {

  datatype Option<+T> = None | Some(value: T) {

    /** `x ?? fallback`, and a default parameter: the value when present, else the
        fallback. It is also `x || fallback` when no present value is falsy, as for an
        array; a string, where "" is falsy, needs its own test. */
    function GetOr(fallback: T): T {
      match this
      case Some(v) => v
      case None => fallback
    }
  }
}
