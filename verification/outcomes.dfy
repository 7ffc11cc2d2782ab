/** Failure-carrying results shared by every stage of the dice engine.
    The original program signals every failure by throwing (mostly a
    FormatException); here each cause is a distinct `Fault`. */
module Outcomes {

  /** Why an evaluation was abandoned. */
  datatype Fault =
    | FunctionNameUnterminated   // lexer: a `z…` name with no following `(`
    | UnbalancedGrouping         // converter: `)` or `,` without an open `(`, or a `(` left open
    | UnknownSymbol              // evaluator: a word that is not in the grammar table
    | TooFewOperands             // evaluator: fewer stack values than the symbol's arity
    | NothingToRepeat            // evaluator: `r` found no operands or no next instruction
    | DivisionByZero
    | UnsupportedPower           // `^` with a non-integral exponent, or zero to a negative power
    | BadRollParameters          // dice count outside [1,1000], faces <= 1, or drop > dice count
    | UnsupportedRollMode        // roll letter other than d, e, f, g
    | DrawsExhausted             // the supplied random draws ran out
    | WrongFinalStackSize        // evaluation ended with a stack size other than one
    | OutOfFuel                  // the step budget of the model ran out

  datatype Result<+T> = Ok(value: T) | Err(fault: Fault) {

    predicate IsFailure() {
      Err?
    }

    function PropagateFailure<U>(): Result<U>
      requires Err?
    {
      Err(fault)
    }

    function Extract(): T
      requires Ok?
    {
      value
    }
  }

  datatype Option<+T> = None | Some(value: T)
}
