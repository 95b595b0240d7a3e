/**
 * `Interpreter::interpret` (src/ast/interpreter.rs): an empty expression is
 * rejected, otherwise the expression is lexed, parsed and executed, the
 * first failure ending the evaluation.
 */
module Interpreting {
  import opened Tokens
  import opened Errors
  import opened Numerics
  import opened Lexing
  import opened LexerProperties
  import opened ShuntingYard
  import opened ParserProperties
  import opened Evaluator
  import opened EvaluatorProperties

  /** What `interpret` returns for `expression`. */
  function InterpretSpec(m: Maths, expression: string): Outcome<real> {
    if |expression| == 0 then Err(ExpressionEmpty)
    else
      var tokenStream :- Tokenize(m, expression);
      var tokenQueue :- ParseTokens(tokenStream);
      Evaluate(m, tokenQueue)
  }

  /** The interpreter owns the lexer whose position it reuses between calls. */
  class Interpreter {
    const lexer: Lexer

    constructor ()
      ensures fresh(lexer) && lexer.currentPos == 0 && lexer.len == 0
    {
      lexer := new Lexer();
    }

    /** Between calls the lexer is back at position zero. */
    ghost predicate Valid()
      reads this, lexer
    {
      lexer.currentPos == 0
    }

    method Interpret(m: Maths, expression: string) returns (r: Outcome<real>)
      requires Valid()
      modifies lexer
      ensures r == InterpretSpec(m, expression)
      ensures !r.Panic? ==> Valid()
    {
      if |expression| == 0 {
        return Err(ExpressionEmpty);
      }
      var tokenStream :- lexer.Lex(m, expression);
      var tokenQueue :- Parse(tokenStream);
      r := Execute(m, tokenQueue);
    }
  }

  /**
   * `ExpressionEmpty` is returned exactly for the empty expression: no
   * later stage produces it.
   */
  lemma ExpressionEmptyExactly(m: Maths, expression: string)
    ensures InterpretSpec(m, expression) == Err(ExpressionEmpty) <==> |expression| == 0
  {
    if |expression| > 0 {
      InterpretOutcomes(m, expression);
    }
  }

  /**
   * Every outcome of `interpret`: the returned errors, and each panic tied
   * to the stage that raises it. A literal panic comes from the lexer, an
   * indexing panic from `parse`, an `unreachable!` or empty-stack `unwrap`
   * from `execute`.
   */
  lemma InterpretOutcomes(m: Maths, expression: string)
    requires |expression| > 0
    ensures var r := InterpretSpec(m, expression);
      var tokens := Tokenize(m, expression);
      var queue := if tokens.Ok? then ParseTokens(tokens.value) else Ok([]);
      && (r.Err? ==> r.error in {MissingExpression, UnexpectedOperator(Plus), DivisionByZero})
      && (r == Panic(LiteralParse) <==> tokens.Panic?)
      && (r == Panic(EmptyOperatorStack) <==> tokens.Ok? && queue.Panic?)
      && (r == Panic(Unreachable) || r == Panic(EmptyStackUnwrap) <==>
            tokens.Ok? && queue.Ok? && Evaluate(m, queue.value).Panic?)
  {
    LexNeverErrs(m, expression, 0);
    var tokenStream := Tokenize(m, expression);
    if tokenStream.Ok? {
      ParseOutcomes(tokenStream.value);
      var tokenQueue := ParseTokens(tokenStream.value);
      if tokenQueue.Ok? {
        ExecRunOutcomes(m, tokenQueue.value, []);
      }
    }
  }
}
