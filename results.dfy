/** Optional values and Swift's `Result`, with the two combinators the loader uses. */
module Results {

  /** Swift's `Optional`: a value or nothing. */
  datatype Option<+T> = None | Some(value: T)

  /** Swift's `Result<Success, Failure>`. */
  datatype Result<+R, +E> = Success(value: R) | Failure(error: E) {

    /** Swift's `mapError`: rewrites the error of a failure, passes a success through. */
    function MapError<F>(f: E -> F): Result<R, F>
    {
      match this
      case Success(v) => Success(v)
      case Failure(e) => Failure(f(e))
    }

    /** Swift's `flatMap`: feeds a success value to `f`, passes a failure through. */
    function FlatMap<U>(f: R -> Result<U, E>): Result<U, E>
    {
      match this
      case Success(v) => f(v)
      case Failure(e) => Failure(e)
    }
  }
}
