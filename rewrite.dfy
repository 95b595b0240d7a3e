/**
 * The two rewrite passes that `parse` runs before the shunting-yard
 * conversion (src/ast/parser.rs): `insert_parenthesis` wraps unary
 * functions and powers in explicit parentheses, `balance_operators`
 * collapses sign pairs. Both are index loops over the token vector under a
 * `skip_next` flag; each loop is specified by a function that continues it
 * from a given index and state.
 */
module Rewrite {
  import opened Tokens
  import opened Errors

  // ---------------------------------------------------------------------
  // insert_parenthesis
  // ---------------------------------------------------------------------

  /**
   * `insert_parenthesis` from index `i` with output `out` and flag `skip`.
   * A function `f` followed by `x` appends `( f x )` and sets the flag; a
   * power appends `( t[i-1] ^ x )` after removing `out[i - 1]`, an index
   * into the input used on the output, and sets the flag; any other token
   * is appended unless the flag is set, which it clears. The precondition
   * on `|out|` is an invariant of the loop: it makes `out.remove(i - 1)`
   * always in range, so that `Vec::remove` never panics.
   */
  function InsertFrom(t: seq<TokenKind>, i: nat, out: seq<TokenKind>, skip: bool): Outcome<seq<TokenKind>>
    requires i <= |t| && i + (if skip then 1 else 0) <= |out|
    decreases |t| - i
  {
    if i == |t| then Ok(out)
    else
      var tok := t[i];
      if IsFunction(tok) then
        if i + 1 < |t| then InsertFrom(t, i + 1, out + [OpenParen, tok, t[i + 1], CloseParen], true)
        else Err(MissingExpression)
      else if tok.Power? then
        if i == 0 then Err(MissingExpression)
        else if i + 1 < |t| then
          InsertFrom(t, i + 1, out[..i - 1] + out[i..] + [OpenParen, t[i - 1], Power, t[i + 1], CloseParen], true)
        else Err(MissingExpression)
      else if skip then InsertFrom(t, i + 1, out, false)
      else InsertFrom(t, i + 1, out + [tok], false)
  }

  function InsertParens(t: seq<TokenKind>): Outcome<seq<TokenKind>> {
    InsertFrom(t, 0, [], false)
  }

  method InsertParenthesis(tokens: seq<TokenKind>) returns (r: Outcome<seq<TokenKind>>)
    ensures r == InsertParens(tokens)
  {
    var out := [];
    var skipNext := false;
    for index := 0 to |tokens|
      invariant index + (if skipNext then 1 else 0) <= |out|
      invariant InsertParens(tokens) == InsertFrom(tokens, index, out, skipNext)
    {
      var token := tokens[index];
      match token {
        case Cos | Sin | Tan | Log =>
          ghost var before := out;
          out := out + [OpenParen, token];
          if index + 1 >= |tokens| {
            return Err(MissingExpression);
          }
          out := out + [tokens[index + 1], CloseParen];
          assert out == before + [OpenParen, token, tokens[index + 1], CloseParen];
          skipNext := true;
        case Power =>
          if index == 0 {
            return Err(MissingExpression);
          }
          out := out[..index - 1] + out[index..];
          ghost var removed := out;
          out := out + [OpenParen, tokens[index - 1], token];
          if index + 1 >= |tokens| {
            return Err(MissingExpression);
          }
          out := out + [tokens[index + 1], CloseParen];
          assert out == removed + [OpenParen, tokens[index - 1], Power, tokens[index + 1], CloseParen];
          skipNext := true;
        case _ =>
          if skipNext {
            skipNext := false;
            continue;
          }
          out := out + [token];
      }
    }
    return Ok(out);
  }

  // ---------------------------------------------------------------------
  // balance_operators
  // ---------------------------------------------------------------------

  /** The sign a pair `tok -` collapses to: `- -` gives `+`, `+ -` gives `-`. */
  function Collapsed(tok: TokenKind): TokenKind {
    if tok.Minus? then Plus else Minus
  }

  /**
   * `balance_operators` from index `i` with output `out` and flag `skip`.
   * A sign looks at the next token: a `-` appends the collapsed sign and
   * sets the flag, a `+` is an error, and the sign itself is appended only
   * while the flag is clear. Nothing ever clears the flag again.
   */
  function BalanceFrom(t: seq<TokenKind>, i: nat, out: seq<TokenKind>, skip: bool): Outcome<seq<TokenKind>>
    requires i <= |t|
    decreases |t| - i
  {
    if i == |t| then Ok(out)
    else
      var tok := t[i];
      if IsSign(tok) then
        if i + 1 == |t| then Err(MissingExpression)
        else
          var next := t[i + 1];
          var out', skip' := if next.Minus? then out + [Collapsed(tok)] else out, skip || next.Minus?;
          if next.Plus? then Err(UnexpectedOperator(Plus))
          else BalanceFrom(t, i + 1, if skip' then out' else out' + [tok], skip')
      else BalanceFrom(t, i + 1, out + [tok], skip)
  }

  function Balance(t: seq<TokenKind>): Outcome<seq<TokenKind>> {
    BalanceFrom(t, 0, [], false)
  }

  method BalanceOperators(tokens: seq<TokenKind>) returns (r: Outcome<seq<TokenKind>>)
    ensures r == Balance(tokens)
  {
    var out := [];
    var skipNext := false;
    for index := 0 to |tokens|
      invariant Balance(tokens) == BalanceFrom(tokens, index, out, skipNext)
    {
      var token := tokens[index];
      match token {
        case Minus =>
          if index + 1 >= |tokens| {
            return Err(MissingExpression);
          }
          var next := tokens[index + 1];
          if next.Minus? {
            skipNext := true;
            out := out + [Plus];
          }
          if next.Plus? {
            return Err(UnexpectedOperator(Plus));
          }
          if !skipNext {
            skipNext := false;
            out := out + [token];
          }
        case Plus =>
          if index + 1 >= |tokens| {
            return Err(MissingExpression);
          }
          var next := tokens[index + 1];
          if next.Minus? {
            skipNext := true;
            out := out + [Minus];
          }
          if next.Plus? {
            return Err(UnexpectedOperator(Plus));
          }
          if !skipNext {
            skipNext := false;
            out := out + [token];
          }
        case _ =>
          out := out + [token];
      }
    }
    return Ok(out);
  }
}
