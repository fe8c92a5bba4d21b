/** Rust's `Result<T, E>`, the return type of every fallible operation of the client. */
module Results {

  datatype Result<+T, +E> = Ok(value: T) | Err(error: E)
  {
    /** `Result::map`: transforms a success value with `f` and passes an error through unchanged. */
    function Map<U>(f: T -> U): (r: Result<U, E>)
      ensures r.Ok? <==> this.Ok?
      ensures r.Ok? ==> r.value == f(this.value)
      ensures r.Err? ==> r.error == this.error
    {
      match this
      case Ok(v) => Ok(f(v))
      case Err(e) => Err(e)
    }
  }
}
