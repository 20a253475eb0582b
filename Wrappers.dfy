/** Results and options shared by every module: an operation of the library either
  * produces a value or raises one of the exceptions listed in `Error`. */
module Wrappers {

  /** The kinds of exception the modelled code raises, named after the .NET exception
    * types it throws or triggers. */
  datatype Error =
    | ArgumentOutOfRange   // a size, count or index outside its range (also the matrix library's range checks)
    | Argument             // an explicit ArgumentException of the library's own guards
    | InvalidOperation     // an explicit InvalidOperationException
    | InvalidCast          // a tensor that cannot be viewed as a matrix
    | ArgumentNull         // a null argument rejected by a guard
    | NullReference        // a member access on a null value
    | IndexOutOfRange      // an array index outside the array
    | DivideByZero         // an integer division or remainder by zero
    | DimensionMismatch    // the matrix library rejecting operands of different shapes
    | NonPositiveStride    // a convolution stride below 1, outside what the model describes

  datatype Option<+T> = None | Some(value: T)

  datatype Result<+T> = Success(value: T) | Failure(error: Error)
  {
    predicate IsFailure() { Failure? }
    function PropagateFailure<U>(): Result<U> requires Failure? { Failure(error) }
    function Extract(): T requires Success? { value }
  }

  /** The outcome of an operation that returns nothing. */
  datatype Outcome = Pass | Fail(error: Error)
  {
    predicate IsFailure() { Fail? }
    function PropagateFailure(): Outcome requires Fail? { this }
    function ToResult(): Result<()> { if Pass? then Success(()) else Failure(error) }
  }
}
