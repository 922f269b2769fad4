/** The optional value shared by every module: JavaScript's `null`/`undefined` or a value. */
module Wrappers {

  datatype Option<+T> = None | Some(value: T)

  /** `x || fallback` for a value that is either missing or an (always truthy) object. */
  function OrElse<T>(o: Option<T>, fallback: T): T
  {
    match o
    case Some(v) => v
    case None => fallback
  }
}
