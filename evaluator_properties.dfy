/** Properties of the evaluation of a postfix queue. */
module EvaluatorProperties {
  import opened Tokens
  import opened Errors
  import opened Numerics
  import opened Evaluator

  /** The queue is consumed from the back: evaluating `a + b` evaluates `b` and then `a`. */
  lemma {:induction false} ExecRunAppend(m: Maths, a: seq<TokenKind>, b: seq<TokenKind>, stack: seq<real>)
    ensures ExecRun(m, a + b, stack) == (var mid :- ExecRun(m, b, stack); ExecRun(m, a, mid))
    decreases |b|
  {
    if b == [] {
      assert a + b == a;
    } else {
      var ab := a + b;
      assert ab[|ab| - 1] == b[|b| - 1] && ab[..|ab| - 1] == a + b[..|b| - 1];
      var next := ExecStep(m, b[|b| - 1], stack);
      if next.Ok? {
        ExecRunAppend(m, a, b[..|b| - 1], next.value);
      }
    }
  }

  /** An identifier anywhere in the queue is skipped. */
  lemma IdentifierSkipped(m: Maths, a: seq<TokenKind>, name: string, b: seq<TokenKind>, stack: seq<real>)
    ensures ExecRun(m, a + [Identifier(name)] + b, stack) == ExecRun(m, a + b, stack)
  {
    ExecRunAppend(m, a + [Identifier(name)], b, stack);
    ExecRunAppend(m, a, [Identifier(name)], stack);
    ExecRunAppend(m, a, b, stack);
    var mid := ExecRun(m, b, stack);
    if mid.Ok? {
      assert [Identifier(name)][..0] == [];
      assert ExecRun(m, [Identifier(name)], mid.value) == Ok(mid.value);
    }
  }

  predicate HasParen(q: seq<TokenKind>) {
    exists k :: 0 <= k < |q| && (IsOpenParen(q[k]) || IsCloseParen(q[k]))
  }

  predicate HasFunction(q: seq<TokenKind>) {
    exists k :: 0 <= k < |q| && IsFunction(q[k])
  }

  /**
   * The outcomes of evaluation: the errors are `MissingExpression` (an
   * operator with fewer than two values below it) and `DivisionByZero`; the
   * `unreachable!` arm is reached only through a parenthesis and the
   * `unwrap` on an empty stack only through a function.
   */
  lemma {:induction false} ExecRunOutcomes(m: Maths, q: seq<TokenKind>, stack: seq<real>)
    ensures var r := ExecRun(m, q, stack);
      && (r.Err? ==> r.error == MissingExpression || r.error == DivisionByZero)
      && (r.Panic? && r.site == Unreachable ==> HasParen(q))
      && (r.Panic? && r.site == EmptyStackUnwrap ==> HasFunction(q))
      && (r.Panic? ==> r.site == Unreachable || r.site == EmptyStackUnwrap)
    decreases |q|
  {
    if |q| > 0 {
      var last := q[|q| - 1];
      var next := ExecStep(m, last, stack);
      if next.Ok? {
        ExecRunOutcomes(m, q[..|q| - 1], next.value);
        var r := ExecRun(m, q[..|q| - 1], next.value);
        if r.Panic? && r.site == Unreachable {
          var k :| 0 <= k < |q| - 1 && (IsOpenParen(q[..|q| - 1][k]) || IsCloseParen(q[..|q| - 1][k]));
          assert q[k] == q[..|q| - 1][k];
        }
        if r.Panic? && r.site == EmptyStackUnwrap {
          var k :| 0 <= k < |q| - 1 && IsFunction(q[..|q| - 1][k]);
          assert q[k] == q[..|q| - 1][k];
        }
      } else {
        assert next.Panic? && next.site == Unreachable ==> IsOpenParen(q[|q| - 1]) || IsCloseParen(q[|q| - 1]);
        assert next.Panic? && next.site == EmptyStackUnwrap ==> IsFunction(q[|q| - 1]);
      }
    }
  }

  /** Unfolds the step for the back of a queue. */
  lemma ExecLast(m: Maths, q: seq<TokenKind>, tok: TokenKind, stack: seq<real>)
    ensures ExecRun(m, q + [tok], stack) == (var next :- ExecStep(m, tok, stack); ExecRun(m, q, next))
  {
    assert (q + [tok])[..|q|] == q;
  }

  /** The values `a` then `b` pushed, then `tok` applied to them. */
  lemma TwoValuesThen(m: Maths, tok: TokenKind, a: real, b: real)
    ensures ExecRun(m, [tok, Number(b), Number(a)], []) == (var next :- ExecStep(m, tok, [a, b]); Ok(next))
  {
    assert [tok, Number(b), Number(a)] == [tok, Number(b)] + [Number(a)];
    ExecLast(m, [tok, Number(b)], Number(a), []);
    assert [] + [a] == [a];
    assert [tok, Number(b)] == [tok] + [Number(b)];
    ExecLast(m, [tok], Number(b), [a]);
    assert [a] + [b] == [a, b];
    assert [tok] == [] + [tok];
    ExecLast(m, [], tok, [a, b]);
  }

  /**
   * An operator takes the value on top of the stack as its left operand
   * and the one below as its right: the queue `op b a`, read back to front
   * as the postfix `a b op`, computes `a op b`.
   */
  lemma BinaryOrder(m: Maths, a: real, b: real)
    ensures Evaluate(m, [Plus, Number(b), Number(a)]) == Ok(a + b)
    ensures Evaluate(m, [Asterix, Number(b), Number(a)]) == Ok(a * b)
    ensures Evaluate(m, [Minus, Number(b), Number(a)]) == Ok(a - b)
    ensures Evaluate(m, [Power, Number(b), Number(a)]) == Ok(m.pow(a, b))
    ensures Evaluate(m, [Slash, Number(b), Number(a)]) == if b == 0.0 then Err(DivisionByZero) else Ok(a / b)
  {
    assert [a, b][..0] == [];
    TwoValuesThen(m, Plus, a, b);
    assert [] + [b + a] == [b + a];
    TwoValuesThen(m, Asterix, a, b);
    assert Binary(m, Asterix, b, a) == b * a;
    assert [a, b][..0] + [b * a] == [b * a];
    assert ExecStep(m, Asterix, [a, b]) == Ok([b * a]);
    assert b * a == a * b;
    TwoValuesThen(m, Minus, a, b);
    assert [] + [a - b] == [a - b];
    TwoValuesThen(m, Power, a, b);
    assert [] + [m.pow(a, b)] == [m.pow(a, b)];
    TwoValuesThen(m, Slash, a, b);
    if b != 0.0 {
      assert Binary(m, Slash, b, a) == a / b;
      assert [a, b][..0] + [a / b] == [a / b];
      assert ExecStep(m, Slash, [a, b]) == Ok([a / b]);
    } else {
      assert ExecStep(m, Slash, [a, b]) == Err(DivisionByZero);
    }
  }

  /**
   * A binary operator reached with fewer than two values on the stack is
   * `MissingExpression`, whatever the queue still holds in front of it.
   */
  lemma MissingOperand(m: Maths, a: seq<TokenKind>, tok: TokenKind, stack: seq<real>)
    requires IsBinary(tok) && |stack| < 2
    ensures ExecRun(m, a + [tok], stack) == Err(MissingExpression)
  {
    ExecLast(m, a, tok, stack);
  }

  /**
   * The result is the top of the final stack: values left below it are
   * ignored, and an empty stack gives `0.0`.
   */
  lemma ResultIsTop(m: Maths, a: real, b: real)
    ensures Evaluate(m, [Number(b), Number(a)]) == Ok(b)
    ensures Evaluate(m, []) == Ok(0.0)
    ensures Evaluate(m, [Identifier("x")]) == Ok(0.0)
  {
    assert [Number(b), Number(a)] == [Number(b)] + [Number(a)];
    ExecLast(m, [Number(b)], Number(a), []);
    assert [] + [a] == [a];
    assert [Number(b)] == [] + [Number(b)];
    ExecLast(m, [], Number(b), [a]);
    assert [Identifier("x")] == [] + [Identifier("x")];
    ExecLast(m, [], Identifier("x"), []);
  }

  /**
   * A function token replaces the top value by its image and leaves the
   * values below it alone; on an empty stack its `unwrap` panics.
   */
  lemma FunctionApplied(m: Maths, a: seq<TokenKind>, tok: TokenKind, stack: seq<real>, x: real)
    requires IsFunction(tok)
    ensures ExecRun(m, a + [tok], stack + [x]) == ExecRun(m, a, stack + [
      if tok.Sin? then m.sin(x) else if tok.Cos? then m.cos(x) else if tok.Tan? then m.tan(x) else m.log10(x)])
    ensures ExecRun(m, a + [tok], []) == Panic(EmptyStackUnwrap)
  {
    ExecLast(m, a, tok, stack + [x]);
    assert (stack + [x])[..|stack|] == stack;
    ExecLast(m, a, tok, []);
  }

  /**
   * A parenthesis reached by evaluation hits the `unreachable!` arm,
   * whatever the queue holds in front of it and whatever the stack holds.
   */
  lemma ParenUnreachable(m: Maths, a: seq<TokenKind>, tok: TokenKind, stack: seq<real>)
    requires IsOpenParen(tok) || IsCloseParen(tok)
    ensures ExecRun(m, a + [tok], stack) == Panic(Unreachable)
  {
    ExecLast(m, a, tok, stack);
  }
}
