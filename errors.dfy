/**
 * The error type of the evaluator (src/ast/parser.rs) and the outcome of
 * every stage: a value, a returned `ParseError`, or a panic of the Rust
 * program (an `unwrap` on nothing, an `unreachable!`, an index out of
 * bounds). A panic is an outcome of its own so that no crash is assumed away.
 */
module Errors {
  import opened Tokens

  datatype ParseError =
    | MissingExpression
    | ParensMismatch
    | ExpressionEmpty
    | DivisionByZero
    | UnexpectedOperator(kind: TokenKind)

  /** Where the Rust program would panic. */
  datatype PanicSite =
    | LiteralParse       // `str::parse::<f32>().unwrap()` on a malformed literal
    | EmptyStackUnwrap   // `number_stack.pop().unwrap()` on an empty stack
    | Unreachable        // an `unreachable!` arm
    | EmptyOperatorStack // `operator_stack[operator_stack.len() - 1]` on an empty stack

  /** Result of a stage; failure-compatible, so `:-` plays the part of `?`. */
  datatype Outcome<+T> = Ok(value: T) | Err(error: ParseError) | Panic(site: PanicSite) {

    predicate IsFailure() {
      !Ok?
    }

    function PropagateFailure<U>(): (r: Outcome<U>)
      requires !Ok?
      ensures r.Err? == Err? && r.Panic? == Panic?
    {
      match this
      case Err(e) => Err(e)
      case Panic(p) => Panic(p)
    }

    function Extract(): T
      requires Ok?
    {
      value
    }
  }
}
