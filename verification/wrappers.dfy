/** Failure-carrying values standing for Rust's `Option`, `anyhow::Result`
    and `Result<(), E>`. */
module Wrappers {

  /** Rust's `Option`. */
  datatype Option<+T> = None | Some(value: T)

  /** `anyhow::Result`. `Err` carries the outermost error context, which is
      what the error's `Display` shows. */
  datatype Result<+T> = Ok(value: T) | Err(error: string) {

    /** `Result::ok`: keeps the value and drops the error. */
    function ToOption(): (o: Option<T>)
      ensures o.Some? <==> Ok?
      ensures o.Some? ==> o.value == value
    {
      match this
      case Ok(v) => Some(v)
      case Err(_) => None
    }
  }

  /** The outcome of an effect that yields nothing on success
      (`std::io::Result<()>`). */
  datatype Outcome = Pass | Fail(error: string)
}
