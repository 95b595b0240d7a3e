/**
 * A reference semantics for fully parenthesised arithmetic: an expression
 * tree over `+ - * /`, its standard value, its rendering as tokens with a
 * pair of parentheses around every operation, and the postfix queue the
 * shunting-yard conversion should give for it. The theorems tie `parse`
 * followed by `execute` to the standard value.
 */
module Reference {
  import opened Tokens
  import opened Errors
  import opened Numerics
  import opened Rewrite
  import opened RewriteProperties
  import opened ShuntingYard
  import opened ParserProperties
  import opened Evaluator
  import opened EvaluatorProperties

  datatype BinOp = Add | Sub | Mul | Div

  datatype Expr = Num(value: real) | Bin(op: BinOp, left: Expr, right: Expr)

  function OpToken(op: BinOp): TokenKind {
    match op
    case Add => Plus
    case Sub => Minus
    case Mul => Asterix
    case Div => Slash
  }

  /** Standard evaluation, left operand first; dividing by zero is an error. */
  function Eval(e: Expr): Outcome<real> {
    match e
    case Num(v) => Ok(v)
    case Bin(op, l, r) =>
      var x :- Eval(l);
      var y :- Eval(r);
      Combine(op, x, y)
  }

  function Combine(op: BinOp, x: real, y: real): Outcome<real> {
    match op
    case Add => Ok(x + y)
    case Sub => Ok(x - y)
    case Mul => Ok(x * y)
    case Div => if y == 0.0 then Err(DivisionByZero) else Ok(x / y)
  }

  /** The tokens of `e` with every operation in parentheses. */
  function Render(e: Expr): (t: seq<TokenKind>)
    ensures |t| > 0
  {
    match e
    case Num(v) => [Number(v)]
    case Bin(op, l, r) => [OpenParen] + Render(l) + [OpToken(op)] + Render(r) + [CloseParen]
  }

  /**
   * The expected output queue: read back to front it is the postfix form
   * of `e`, the left operand's, then the right operand's, then the operator.
   */
  function Postfix(e: Expr): seq<TokenKind> {
    match e
    case Num(v) => [Number(v)]
    case Bin(op, l, r) => [OpToken(op)] + Postfix(r) + Postfix(l)
  }

  lemma RunOne(tok: TokenKind, st: State)
    ensures Run([tok], st) == Step(tok, st)
  {
    assert [tok][1..] == [];
  }

  lemma RunThen(a: seq<TokenKind>, b: seq<TokenKind>, st: State, mid: State)
    requires Run(a, st) == Ok(mid)
    ensures Run(a + b, st) == Run(b, mid)
  {
    RunAppend(a, b, st);
  }

  /** An operator arriving on a `(` is pushed without popping. */
  lemma OperatorOnOpen(tok: TokenKind, stack: seq<TokenKind>, output: seq<TokenKind>)
    requires IsOperator(tok)
    ensures Run([tok], State(stack + [OpenParen], output)) == Ok(State(stack + [OpenParen] + [tok], output))
  {
    RunOne(tok, State(stack + [OpenParen], output));
    var s1 := stack + [OpenParen];
    assert s1[|s1| - 1] == OpenParen && Precedence(OpenParen) == Some(3);
    assert Precedence(tok).Some?;
    assert PopToParen(stack + [OpenParen], output) == State(stack + [OpenParen], output);
  }

  /** A `)` arriving on an operator above a `(` emits the operator and pops the `(`. */
  lemma CloseOnOperator(tok: TokenKind, stack: seq<TokenKind>, output: seq<TokenKind>)
    requires IsOperator(tok)
    ensures Run([CloseParen], State(stack + [OpenParen] + [tok], output)) == Ok(State(stack, [tok] + output))
  {
    RunOne(CloseParen, State(stack + [OpenParen] + [tok], output));
    var s3 := stack + [OpenParen] + [tok];
    var s1 := stack + [OpenParen];
    assert s3[|s3| - 1] == tok && !IsOpenParen(tok);
    assert s3[..|s3| - 1] == s1;
    assert CloseStep(s3, output) == CloseStep(s1, [tok] + output);
    assert s1[|s1| - 1] == OpenParen && s1[..|s1| - 1] == stack;
    assert CloseStep(s1, [tok] + output) == Ok(State(stack, [tok] + output));
  }

  /** `( L`: the `(` is pushed and `L` runs above it. */
  lemma RunOpenThen(L: seq<TokenKind>, st: State, mid: State)
    requires Run(L, State(st.stack + [OpenParen], st.output)) == Ok(mid)
    ensures Run([OpenParen] + L, st) == Ok(mid)
  {
    RunOne(OpenParen, st);
    RunThen([OpenParen], L, st, State(st.stack + [OpenParen], st.output));
  }

  /** `pre tok R`: after `pre` leaves a `(` on top, `tok` is pushed and `R` runs above it. */
  lemma RunOperatorThen(pre: seq<TokenKind>, tok: TokenKind, R: seq<TokenKind>, st: State, stack: seq<TokenKind>, out: seq<TokenKind>, mid: State)
    requires IsOperator(tok)
    requires Run(pre, st) == Ok(State(stack + [OpenParen], out))
    requires Run(R, State(stack + [OpenParen] + [tok], out)) == Ok(mid)
    ensures Run(pre + [tok] + R, st) == Ok(mid)
  {
    OperatorOnOpen(tok, stack, out);
    RunThen(pre, [tok], st, State(stack + [OpenParen], out));
    RunThen(pre + [tok], R, st, State(stack + [OpenParen] + [tok], out));
  }

  /** `pre )`: after `pre` leaves an operator above a `(`, the `)` emits it and removes the `(`. */
  lemma RunCloseThen(pre: seq<TokenKind>, tok: TokenKind, st: State, stack: seq<TokenKind>, out: seq<TokenKind>)
    requires IsOperator(tok)
    requires Run(pre, st) == Ok(State(stack + [OpenParen] + [tok], out))
    ensures Run(pre + [CloseParen], st) == Ok(State(stack, [tok] + out))
  {
    CloseOnOperator(tok, stack, out);
    RunThen(pre, [CloseParen], st, State(stack + [OpenParen] + [tok], out));
  }

  /**
   * Converting the rendering of `e` leaves the stack as it was and puts
   * the postfix queue of `e` in front of the output.
   */
  lemma {:induction false} RunRender(e: Expr, st: State)
    ensures Run(Render(e), st) == Ok(State(st.stack, Postfix(e) + st.output))
    decreases e
  {
    match e
    case Num(v) =>
      RunOne(Number(v), st);
    case Bin(op, l, r) =>
      var tok := OpToken(op);
      var s1 := State(st.stack + [OpenParen], st.output);
      RunRender(l, s1);
      var s3 := State(s1.stack + [tok], Postfix(l) + st.output);
      RunRender(r, s3);
      var s2 := State(s1.stack, Postfix(l) + st.output);
      var s4 := State(s3.stack, Postfix(r) + s2.output);
      RunOpenThen(Render(l), st, s2);
      RunOperatorThen([OpenParen] + Render(l), tok, Render(r), st, st.stack, s2.output, s4);
      RunCloseThen([OpenParen] + Render(l) + [tok] + Render(r), tok, st, st.stack, s4.output);
      assert Render(e) == [OpenParen] + Render(l) + [tok] + Render(r) + [CloseParen];
      assert [tok] + s4.output == Postfix(e) + st.output;
  }

  lemma ExecThen(m: Maths, a: seq<TokenKind>, b: seq<TokenKind>, stack: seq<real>, mid: seq<real>)
    requires ExecRun(m, b, stack) == Ok(mid)
    ensures ExecRun(m, a + b, stack) == ExecRun(m, a, mid)
  {
    ExecRunAppend(m, a, b, stack);
  }

  lemma ExecFails(m: Maths, a: seq<TokenKind>, b: seq<TokenKind>, stack: seq<real>)
    requires !ExecRun(m, b, stack).Ok?
    ensures ExecRun(m, a + b, stack) == ExecRun(m, b, stack)
  {
    ExecRunAppend(m, a, b, stack);
  }

  /** The operator token of `op` on two values computes `Combine`, the right value on top. */
  lemma ApplyOp(m: Maths, op: BinOp, stack: seq<real>, x: real, y: real)
    ensures ExecRun(m, [OpToken(op)], stack + [x] + [y]) == (var v :- Combine(op, x, y); Ok(stack + [v]))
  {
    var s2 := stack + [x] + [y];
    ExecLast(m, [], OpToken(op), s2);
    assert [] + [OpToken(op)] == [OpToken(op)];
    assert s2[..|s2| - 2] == stack && s2[|s2| - 1] == y && s2[|s2| - 2] == x;
    if op.Mul? {
      assert y * x == x * y;
    }
  }

  /**
   * Executing the postfix queue of `e` on a stack pushes the standard
   * value of `e`, or fails with the error the standard evaluation gives.
   */
  lemma {:induction false} ExecPostfix(m: Maths, e: Expr, stack: seq<real>)
    ensures ExecRun(m, Postfix(e), stack) == (var v :- Eval(e); Ok(stack + [v]))
    decreases e
  {
    match e
    case Num(v) =>
      ExecLast(m, [], Number(v), stack);
      assert [] + [Number(v)] == [Number(v)];
    case Bin(op, l, r) =>
      var tok := OpToken(op);
      assert Postfix(e) == ([tok] + Postfix(r)) + Postfix(l);
      ExecPostfix(m, l, stack);
      if Eval(l).Ok? {
        var x := Eval(l).value;
        var s1 := stack + [x];
        ExecThen(m, [tok] + Postfix(r), Postfix(l), stack, s1);
        ExecPostfix(m, r, s1);
        if Eval(r).Ok? {
          var y := Eval(r).value;
          ExecThen(m, [tok], Postfix(r), s1, s1 + [y]);
          ApplyOp(m, op, stack, x, y);
        } else {
          ExecFails(m, [tok], Postfix(r), s1);
        }
      } else {
        ExecFails(m, [tok] + Postfix(r), Postfix(l), stack);
      }
  }

  /** A bracketed operation rewrites nothing when its operands do not. */
  lemma NoRewritesBracketed(tok: TokenKind, L: seq<TokenKind>, R: seq<TokenKind>)
    requires !IsFunction(tok) && !tok.Power?
    requires NoRewrites(L) && NoRewrites(R)
    ensures NoRewrites([OpenParen] + L + [tok] + R + [CloseParen])
  {
    var t := [OpenParen] + L + [tok] + R + [CloseParen];
    assert forall k :: 1 <= k <= |L| ==> t[k] == L[k - 1];
    assert forall k :: |L| + 2 <= k < |L| + 2 + |R| ==> t[k] == R[k - |L| - 2];
  }

  /**
   * In a bracketed operation whose operands keep their signs apart and
   * start and end with a number or a parenthesis, no two signs meet.
   */
  lemma SignsBracketed(tok: TokenKind, L: seq<TokenKind>, R: seq<TokenKind>)
    requires SignsSeparated(L) && SignsSeparated(R) && |L| > 0 && |R| > 0
    requires !IsSign(L[|L| - 1]) && !IsSign(R[0])
    ensures SignsSeparated([OpenParen] + L + [tok] + R + [CloseParen])
  {
    var t := [OpenParen] + L + [tok] + R + [CloseParen];
    assert forall k :: 1 <= k <= |L| ==> t[k] == L[k - 1];
    assert forall k :: |L| + 2 <= k < |L| + 2 + |R| ==> t[k] == R[k - |L| - 2];
    forall j | 0 <= j < |t| && IsSign(t[j])
      ensures j + 1 < |t| && !IsSign(t[j + 1])
    {
      if 1 <= j < |L| {
        assert IsSign(L[j - 1]);
      } else if |L| + 2 <= j < |L| + 1 + |R| {
        assert IsSign(R[j - |L| - 2]);
      }
    }
  }

  /** Every sign of a rendering is followed by a number or `(`. */
  lemma {:induction false} RenderShape(e: Expr)
    ensures var t := Render(e);
      && NoRewrites(t)
      && SignsSeparated(t)
      && (IsNumber(t[0]) || IsOpenParen(t[0]))
      && (IsNumber(t[|t| - 1]) || IsCloseParen(t[|t| - 1]))
    decreases e
  {
    match e
    case Num(v) =>
    case Bin(op, l, r) =>
      RenderShape(l);
      RenderShape(r);
      var tok := OpToken(op);
      var t := [OpenParen] + Render(l) + [tok] + Render(r) + [CloseParen];
      assert Render(e) == t;
      NoRewritesBracketed(tok, Render(l), Render(r));
      SignsBracketed(tok, Render(l), Render(r));
      assert t[0] == OpenParen && t[|t| - 1] == CloseParen;
  }

  /**
   * For a fully parenthesised expression, `parse` gives its postfix
   * queue and `execute` of that queue gives its standard value (or the
   * division by zero the standard evaluation meets).
   */
  lemma ParenthesisedMatchesEval(m: Maths, e: Expr)
    ensures ParseTokens(Render(e)) == Ok(Postfix(e))
    ensures Evaluate(m, Postfix(e)) == Eval(e)
  {
    var t := Render(e);
    RenderShape(e);
    InsertParensPlain(t);
    BalanceSeparated(t);
    RunRender(e, State([], []));
    assert [] + (Postfix(e) + []) == Postfix(e);
    ExecPostfix(m, e, []);
    if Eval(e).Ok? {
      assert [] + [Eval(e).value] == [Eval(e).value];
    }
  }
}
