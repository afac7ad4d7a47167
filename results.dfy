/** Values shared by every stage of the calculator: an optional value, the
    errors each stage can raise, and a result that is either a value or one
    of those errors (the C# code throws an exception instead). */
module Results {

  datatype Option<+T> = None | Some(value: T)

  /** One variant per exception the pipeline throws, tagged by its cause. */
  datatype Error =
    | LexError(ch: char, pos: nat)            // unexpected character at a position
    | UnknownOperator(sym: string)            // symbol missing from the parser's table
    | MismatchedParentheses
    | InvalidNumber(text: string)             // number text the evaluator cannot parse
    | UnknownOp(sym: string)                  // symbol missing from the operation registry
    | MissingOperand(sym: string)             // too few values on the evaluation stack
    | UnexpectedToken                         // a parenthesis or `=` reached the evaluator
    | InvalidExpression                       // not exactly one value left at the end
    | ArgumentCount(expected: nat, got: nat)  // an operation applied to the wrong number of arguments
    | DivideByZero
    | DomainError                             // sqrt, ln, log or factorial outside its domain
    | Overflow                                // factorial of a number above 170

  datatype Result<+T> = Ok(value: T) | Err(error: Error) {
    predicate IsFailure() {
      Err?
    }

    function PropagateFailure<U>(): Result<U>
      requires Err?
    {
      Err(error)
    }

    function Extract(): T
      requires Ok?
    {
      value
    }
  }
}
