/** Option and Result values for the pipeline's "undefined" values and error returns. */
module Results {

  datatype Option<+T> = None | Some(value: T)

  /** Either a value or the error the source raises; usable with `:-`. */
  datatype Result<+T, +E> = Success(value: T) | Failure(error: E) {

    predicate IsFailure() {
      Failure?
    }

    function PropagateFailure<U>(): Result<U, E>
      requires Failure?
    {
      Failure(error)
    }

    function Extract(): T
      requires Success?
    {
      value
    }
  }
}
