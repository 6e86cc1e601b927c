/** Option and Result in the shape of Rust's std types, used for every
    fallible value that crosses the kernel boundary. */
module Wrappers {

  datatype Option<+T> = None | Some(value: T)

  datatype Result<+T, +E> = Ok(value: T) | Err(error: E) {

    /** Rust's `Result::ok`: keeps the success value, forgets the error. */
    function ToOption(): (o: Option<T>)
      ensures o.Some? <==> Ok?
      ensures o.Some? ==> o.value == value
    {
      match this
      case Ok(v) => Some(v)
      case Err(_) => None
    }
  }
}
