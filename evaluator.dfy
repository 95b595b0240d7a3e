/**
 * `Parser::execute` (src/ast/parser.rs): evaluation of the output queue of
 * the shunting-yard conversion. The queue is consumed from the back; the
 * number stack is a sequence whose last element is the top.
 */
module Evaluator {
  import opened Tokens
  import opened Errors
  import opened Numerics

  /** The built-in function a function token applies. */
  function Unary(m: Maths, tok: TokenKind, x: real): real
    requires IsFunction(tok)
  {
    match tok
    case Sin => m.sin(x)
    case Cos => m.cos(x)
    case Tan => m.tan(x)
    case Log => m.log10(x)
  }

  /** The five binary operators of `execute`. */
  predicate IsBinary(tok: TokenKind) {
    tok.Plus? || tok.Asterix? || tok.Minus? || tok.Power? || tok.Slash?
  }

  /**
   * A binary operator applied to `lhs`, the value popped first (the top),
   * and `rhs`, the value below it: `+` and `*` combine them, `-` and `/`
   * take `rhs - lhs` and `rhs / lhs`, `^` raises `rhs` to `lhs`.
   */
  function Binary(m: Maths, tok: TokenKind, lhs: real, rhs: real): real
    requires IsBinary(tok)
    requires tok.Slash? ==> lhs != 0.0
  {
    match tok
    case Plus => lhs + rhs
    case Asterix => lhs * rhs
    case Minus => rhs - lhs
    case Power => m.pow(rhs, lhs)
    case Slash => rhs / lhs
  }

  /** One token taken from the back of the queue. */
  function ExecStep(m: Maths, tok: TokenKind, stack: seq<real>): Outcome<seq<real>> {
    match tok
    case Pi => Ok(stack + [m.pi])
    case Number(v) => Ok(stack + [v])
    case Identifier(_) => Ok(stack)
    case Sin | Cos | Tan | Log =>
      if |stack| == 0 then Panic(EmptyStackUnwrap)
      else Ok(stack[..|stack| - 1] + [Unary(m, tok, stack[|stack| - 1])])
    case Plus | Asterix | Minus | Power | Slash =>
      if |stack| < 2 then Err(MissingExpression)
      else
        var lhs := stack[|stack| - 1];
        var rhs := stack[|stack| - 2];
        if tok.Slash? && lhs == 0.0 then Err(DivisionByZero)
        else Ok(stack[..|stack| - 2] + [Binary(m, tok, lhs, rhs)])
    case OpenParen | CloseParen => Panic(Unreachable)
  }

  /** The whole queue, back to front. */
  function ExecRun(m: Maths, queue: seq<TokenKind>, stack: seq<real>): Outcome<seq<real>>
    decreases |queue|
  {
    if |queue| == 0 then Ok(stack)
    else
      var stack' :- ExecStep(m, queue[|queue| - 1], stack);
      ExecRun(m, queue[..|queue| - 1], stack')
  }

  /** The result is the top of the final number stack, or `0.0` when it is empty. */
  function Evaluate(m: Maths, queue: seq<TokenKind>): Outcome<real> {
    var stack :- ExecRun(m, queue, []);
    Ok(if |stack| > 0 then stack[|stack| - 1] else 0.0)
  }

  method Execute(m: Maths, tokens: seq<TokenKind>) returns (r: Outcome<real>)
    ensures r == Evaluate(m, tokens)
  {
    var queue := tokens;
    var numberStack: seq<real> := [];
    while |queue| > 0
      invariant ExecRun(m, tokens, []) == ExecRun(m, queue, numberStack)
      decreases |queue|
    {
      var token := queue[|queue| - 1];
      ghost var before := numberStack;
      queue := queue[..|queue| - 1];
      if token.Pi? {
        numberStack := numberStack + [m.pi];
        continue;
      }
      if IsNumber(token) {
        numberStack := numberStack + [token.value];
      } else {
        var isDiv := false;
        match token {
          case Identifier(_) =>
            continue;
          case Plus =>
          case Asterix =>
          case Minus =>
          case Power =>
          case Slash =>
            isDiv := true;
          case Sin | Cos | Tan | Log =>
            if |numberStack| == 0 {
              return Panic(EmptyStackUnwrap);
            }
            var rhs := numberStack[|numberStack| - 1];
            numberStack := numberStack[..|numberStack| - 1];
            numberStack := numberStack + [Unary(m, token, rhs)];
            assert ExecStep(m, token, before) == Ok(numberStack);
            continue;
          case OpenParen | CloseParen =>
            return Panic(Unreachable);
        }
        var lhs: Option<real> := None;
        if |numberStack| > 0 {
          lhs := Some(numberStack[|numberStack| - 1]);
          numberStack := numberStack[..|numberStack| - 1];
        }
        var rhs: Option<real> := None;
        if |numberStack| > 0 {
          rhs := Some(numberStack[|numberStack| - 1]);
          numberStack := numberStack[..|numberStack| - 1];
        }
        if lhs.None? || rhs.None? {
          return Err(MissingExpression);
        }
        assert |before| >= 2 && lhs.value == before[|before| - 1] && rhs.value == before[|before| - 2];
        assert numberStack == before[..|before| - 2];
        if isDiv && lhs.value == 0.0 {
          return Err(DivisionByZero);
        }
        numberStack := numberStack + [Binary(m, token, lhs.value, rhs.value)];
        assert ExecStep(m, token, before) == Ok(numberStack);
      }
    }
    return Ok(if |numberStack| > 0 then numberStack[|numberStack| - 1] else 0.0);
  }
}
