/**
 * Token kinds of the arithmetic evaluator and their classification
 * predicates (src/ast/lexer.rs). The source wraps a kind in a one-field
 * `Token` struct with no behaviour of its own; the model uses the kind
 * directly as the token.
 */
module Tokens {

  /** The kinds a token can have; `Number` carries the value of its literal. */
  datatype TokenKind =
    | Number(value: real)
    | Plus
    | Asterix
    | Minus
    | Slash
    | Power
    | Sin
    | Cos
    | Tan
    | Pi
    | Log
    | Identifier(name: string)
    | OpenParen
    | CloseParen

  predicate IsNumber(k: TokenKind) {
    k.Number?
  }

  /** The ten kinds the shunting-yard pass treats as operators (`Pi` included). */
  predicate IsOperator(k: TokenKind) {
    k.Asterix? || k.Minus? || k.Plus? || k.Slash? || k.Sin? || k.Cos? || k.Pi? || k.Tan? || k.Power? || k.Log?
  }

  predicate IsOpenParen(k: TokenKind) {
    k.OpenParen?
  }

  predicate IsCloseParen(k: TokenKind) {
    k.CloseParen?
  }

  /** The unary functions that `insert_parenthesis` wraps and `execute` applies. */
  predicate IsFunction(k: TokenKind) {
    k.Sin? || k.Cos? || k.Tan? || k.Log?
  }

  /** The two sign operators that `balance_operators` collapses. */
  predicate IsSign(k: TokenKind) {
    k.Plus? || k.Minus?
  }

  /**
   * Precedence class of an operator or parenthesis. `None` stands for the
   * `unreachable!` panic the source raises for every other kind.
   */
  function Precedence(k: TokenKind): (p: Option<nat>)
    ensures p.Some? <==> IsOperator(k) || IsOpenParen(k) || IsCloseParen(k)
    ensures p.Some? ==> 1 <= p.value <= 5
  {
    match k
    case Plus | Minus => Some(1)
    case Slash | Asterix => Some(2)
    case OpenParen | CloseParen | Power => Some(3)
    case Sin | Cos | Tan | Log => Some(4)
    case Pi => Some(5)
    case _ => None
  }

  datatype Option<+T> = None | Some(value: T)

  /** The levels of `Precedence`, one class at a time, and their order. */
  lemma PrecedenceLevels(k: TokenKind)
    ensures IsSign(k) ==> Precedence(k) == Some(1)
    ensures (k.Asterix? || k.Slash?) ==> Precedence(k) == Some(2)
    ensures (k.Power? || IsOpenParen(k) || IsCloseParen(k)) ==> Precedence(k) == Some(3)
    ensures IsFunction(k) ==> Precedence(k) == Some(4)
    ensures k.Pi? ==> Precedence(k) == Some(5)
    ensures IsNumber(k) || k.Identifier? ==> Precedence(k) == None
  {
  }

  /** Operators are disjoint from numbers, identifiers and parentheses. */
  lemma OperatorClasses(k: TokenKind)
    ensures IsOperator(k) ==> !IsNumber(k) && !k.Identifier? && !IsOpenParen(k) && !IsCloseParen(k)
    ensures IsOperator(k) <==> IsSign(k) || IsFunction(k) || k.Asterix? || k.Slash? || k.Power? || k.Pi?
  {
  }
}
