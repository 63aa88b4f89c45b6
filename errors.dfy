/** The exceptions the mapping code can raise, and a result type carrying them. */
module Errors {

  /** The Python exceptions that reach the caller of the mappers. */
  datatype Error =
    | ZeroDivision        // ZeroDivisionError: a division by a zero length or a zero pitch
    | InvalidLiteral      // ValueError from int(): an empty digit string
    | NonIntegerArgument  // ValueError from random.randint: a bound that is not integral
    | EmptyRange          // ValueError from random.randint: upper bound below lower bound

  datatype Option<+T> = None | Some(value: T)

  datatype Result<+T> = Ok(value: T) | Err(error: Error)
}
