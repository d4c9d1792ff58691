/** Values shared by every part of the model: Go's `nil`-able results, its
    `error` values and `time.Duration`. */
module Base {

  /** A Go pointer or interface value that may be `nil`. */
  datatype Option<+T> = None | Some(value: T)

  /** A Go `(value, error)` pair in which exactly one side is meaningful. */
  datatype Result<+T> = Success(value: T) | Failure(error: Error)

  /** A Go `error`; errors created with `errors.New` are told apart by their text. */
  datatype Error = Error(message: string)

  /** `time.Duration`: a count of nanoseconds. */
  type Duration = int

  const Nanosecond: Duration := 1
  const Millisecond: Duration := 1_000_000 * Nanosecond
  const Second: Duration := 1000 * Millisecond
  const Minute: Duration := 60 * Second
}
