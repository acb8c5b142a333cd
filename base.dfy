/** Shared value types of the model: Java's nullable references as `Option`, its
    checked outcomes as `Result`/`Outcome`, the exceptions the widget can raise,
    Java's 32-bit `int`, and nullable strings. */
module Base {

  /** A nullable reference: `None` stands for Java's `null`. */
  datatype Option<+T> = None | Some(value: T)

  /** A value, or the exception that was thrown instead of producing it. */
  datatype Result<+T, +E> = Success(value: T) | Failure(error: E) {
    predicate IsFailure() { Failure? }
    function PropagateFailure<U>(): Result<U, E> requires Failure? { Failure(error) }
    function Extract(): T requires Success? { value }
  }

  /** A call that returns normally (`Pass`) or throws (`Fail`). */
  datatype Outcome<+E> = Pass | Fail(error: E)

  /** The runtime exceptions that can escape the widget's operations. */
  datatype Exception =
    | IllegalStateException
    | IllegalArgumentException
    | NullPointerException
    | IndexOutOfBoundsException
    | BadParcelableException

  /** Java's `int`. */
  newtype int32 = x: int | -0x8000_0000 <= x < 0x8000_0000

  /** Java's `String`, which may be `null`. */
  type JString = Option<string>
}
