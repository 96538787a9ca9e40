/** The exceptions the engine throws, each with its message and, where the
  * source chains one, its cause. */
module Errors {
  import opened Wrappers

  datatype Error =
    | IllegalNumberOfBoxes(message: string)
    | IllegalNumberOfDraws(message: string, cause: Option<Error>)
    | DrawsOutOfBounds(message: string, cause: Option<Error>)
    | ValueInBounds(message: string, cause: Option<Error>)
    | ValueOutOfBounds(message: string, cause: Option<Error>)
    | IllegalInformation(message: string, cause: Option<Error>)
    | IllegalBoxesList(message: string, cause: Option<Error>)
    | IllegalBox(message: string, cause: Option<Error>)
    | IllegalBoxId(message: string)
    | IllegalNumberOfBalls(message: string)
    | NullPointer(message: string)
    | EmptyString(message: string)
    | BlankString(message: string)
    | EmptyBoxesList(message: string)
    | IllegalArgument(message: string)
    | Arithmetic(message: string)
    | Runtime(message: string)
    | ArrayIndexOutOfBounds(index: int)
    | AlreadyMadeLoop(message: string)
    | CannotComputeIndex(message: string)

  /** The message of the `ArithmeticException` thrown by `Math.addExact`
    * and `Math.incrementExact` on overflow. */
  const INTEGER_OVERFLOW: string := "integer overflow"
}
