/** Outcomes of the sensor operations: the value an operation returns, or the
    exception that ends it. */
module Results {

  /** The exceptions the modelled code can raise. */
  datatype Error =
    | InvalidLiteral   // int() given a token that is not a decimal literal
    | DivisionByZero   // `//` or `/` with a zero divisor

  datatype Result<T> = Success(value: T) | Failure(error: Error)

  datatype Option<T> = None | Some(value: T)
}
