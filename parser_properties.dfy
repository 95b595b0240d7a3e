/** Properties of the shunting-yard conversion and of `parse` as a whole. */
module ParserProperties {
  import opened Tokens
  import opened Errors
  import opened Rewrite
  import opened RewriteProperties
  import opened ShuntingYard

  /** Running two token sequences one after the other is running their concatenation. */
  lemma {:induction false} RunAppend(a: seq<TokenKind>, b: seq<TokenKind>, st: State)
    ensures Run(a + b, st) == (var mid :- Run(a, st); Run(b, mid))
    decreases |a|
  {
    if a == [] {
      assert a + b == b;
    } else {
      assert (a + b)[0] == a[0] && (a + b)[1..] == a[1..] + b;
      var next := Step(a[0], st);
      if next.Ok? {
        RunAppend(a[1..], b, next.value);
      }
    }
  }

  /** An identifier anywhere in the stream leaves the conversion as if it were absent. */
  lemma IdentifierIgnored(a: seq<TokenKind>, name: string, b: seq<TokenKind>, st: State)
    ensures Run(a + [Identifier(name)] + b, st) == Run(a + b, st)
  {
    RunAppend(a + [Identifier(name)], b, st);
    RunAppend(a, [Identifier(name)], st);
    RunAppend(a, b, st);
    var mid := Run(a, st);
    if mid.Ok? {
      assert [Identifier(name)][1..] == [];
      assert Run([Identifier(name)], mid.value) == Ok(mid.value);
    }
  }

  /**
   * Height of the stack up to and including its topmost `(`; zero when the
   * stack holds no `(`.
   */
  function OpenBoundary(stack: seq<TokenKind>): (q: nat)
    ensures q <= |stack|
    ensures q > 0 ==> IsOpenParen(stack[q - 1])
    ensures forall k :: q <= k < |stack| ==> !IsOpenParen(stack[k])
    decreases |stack|
  {
    if |stack| == 0 then 0
    else if IsOpenParen(stack[|stack| - 1]) then |stack|
    else OpenBoundary(stack[..|stack| - 1])
  }

  /**
   * The pop loop of an operator moves every token above the topmost `(`
   * into the output, keeping their stack order, and leaves the `(` and all
   * below it on the stack.
   */
  lemma {:induction false} PopToParenForm(stack: seq<TokenKind>, output: seq<TokenKind>)
    ensures var q := OpenBoundary(stack);
      PopToParen(stack, output) == State(stack[..q], stack[q..] + output)
    decreases |stack|
  {
    var q := OpenBoundary(stack);
    if |stack| == 0 || IsOpenParen(stack[|stack| - 1]) {
      assert stack[..q] == stack && stack[q..] + output == output;
    } else {
      var rest := stack[..|stack| - 1];
      var x := stack[|stack| - 1];
      PopToParenForm(rest, [x] + output);
      assert OpenBoundary(rest) == q && q <= |rest|;
      assert rest[..q] == stack[..q];
      assert stack[q..] == rest[q..] + [x];
      assert rest[q..] + ([x] + output) == (rest[q..] + [x]) + output;
    }
  }

  /**
   * A `)` moves every token above the topmost `(` into the output and
   * discards that `(`; with no `(` on the stack it panics reading the top
   * of the emptied stack.
   */
  lemma {:induction false} CloseStepForm(stack: seq<TokenKind>, output: seq<TokenKind>)
    ensures var q := OpenBoundary(stack);
      CloseStep(stack, output) ==
        if q == 0 then Panic(EmptyOperatorStack)
        else Ok(State(stack[..q - 1], stack[q..] + output))
    decreases |stack|
  {
    var q := OpenBoundary(stack);
    if |stack| == 0 {
    } else if IsOpenParen(stack[|stack| - 1]) {
      assert stack[q..] + output == output;
    } else {
      var rest := stack[..|stack| - 1];
      var x := stack[|stack| - 1];
      CloseStepForm(rest, [x] + output);
      assert OpenBoundary(rest) == q && q <= |rest|;
      if q > 0 {
        assert rest[..q - 1] == stack[..q - 1];
        assert stack[q..] == rest[q..] + [x];
        assert rest[q..] + ([x] + output) == (rest[q..] + [x]) + output;
      }
    }
  }

  /** What may sit on the operator stack: operators and `(`. */
  predicate StackTokens(s: seq<TokenKind>) {
    forall k :: 0 <= k < |s| ==> IsOperator(s[k]) || IsOpenParen(s[k])
  }

  /** What the loop emits into the output: numbers and operators. */
  predicate OutputTokens(s: seq<TokenKind>) {
    forall k :: 0 <= k < |s| ==> IsNumber(s[k]) || IsOperator(s[k])
  }

  /** The numbers of a sequence, in order. */
  function Operands(s: seq<TokenKind>): (r: seq<TokenKind>)
    ensures |r| <= |s|
    ensures forall k :: 0 <= k < |r| ==> IsNumber(r[k])
  {
    if s == [] then [] else (if IsNumber(s[0]) then [s[0]] else []) + Operands(s[1..])
  }

  function Reversed(s: seq<TokenKind>): (r: seq<TokenKind>)
    ensures |r| == |s|
    ensures forall k :: 0 <= k < |s| ==> r[k] == s[|s| - 1 - k]
  {
    if s == [] then [] else Reversed(s[1..]) + [s[0]]
  }

  lemma {:induction false} OperandsAppend(a: seq<TokenKind>, b: seq<TokenKind>)
    ensures Operands(a + b) == Operands(a) + Operands(b)
    decreases |a|
  {
    if a == [] {
      assert a + b == b;
    } else {
      assert (a + b)[0] == a[0] && (a + b)[1..] == a[1..] + b;
      OperandsAppend(a[1..], b);
    }
  }

  lemma {:induction false} NoOperands(s: seq<TokenKind>)
    requires forall k :: 0 <= k < |s| ==> !IsNumber(s[k])
    ensures Operands(s) == []
    decreases |s|
  {
    if s != [] {
      NoOperands(s[1..]);
    }
  }

  /** An operator pushed after the pop loop: the loop moved only operators. */
  lemma OperatorStepKeeps(tok: TokenKind, st: State)
    requires IsOperator(tok) && StackTokens(st.stack) && OutputTokens(st.output)
    ensures var r := OperatorStep(tok, st);
      r.Ok? && StackTokens(r.value.stack) && OutputTokens(r.value.output)
      && Operands(r.value.output) == Operands(st.output)
  {
    var stack := st.stack;
    if |stack| > 0 {
      var top := stack[|stack| - 1];
      assert IsOperator(top) || IsOpenParen(top);
      if Precedence(top).value >= Precedence(tok).value {
        var q := OpenBoundary(stack);
        PopToParenForm(stack, st.output);
        PoppedKeeps(stack, q, st.output, tok);
      } else {
        PushKeeps(stack, tok);
      }
    }
  }

  lemma PushKeeps(stack: seq<TokenKind>, tok: TokenKind)
    requires StackTokens(stack) && (IsOperator(tok) || IsOpenParen(tok))
    ensures StackTokens(stack + [tok])
  {
  }

  lemma PoppedKeeps(stack: seq<TokenKind>, q: nat, output: seq<TokenKind>, tok: TokenKind)
    requires q <= |stack| && StackTokens(stack) && OutputTokens(output) && IsOperator(tok)
    requires forall k :: q <= k < |stack| ==> !IsOpenParen(stack[k])
    ensures StackTokens(stack[..q] + [tok]) && OutputTokens(stack[q..] + output)
    ensures Operands(stack[q..] + output) == Operands(output)
  {
    OperandsAppend(stack[q..], output);
    NoOperands(stack[q..]);
    PushKeeps(stack[..q], tok);
  }

  lemma CloseStepKeeps(st: State)
    requires StackTokens(st.stack) && OutputTokens(st.output)
    ensures var r := CloseStep(st.stack, st.output);
      && (r.Panic? ==> r.site == EmptyOperatorStack && OpenBoundary(st.stack) == 0)
      && (r.Ok? ==> StackTokens(r.value.stack) && OutputTokens(r.value.output)
                    && Operands(r.value.output) == Operands(st.output))
      && !r.Err?
  {
    var stack := st.stack;
    var q := OpenBoundary(stack);
    CloseStepForm(stack, st.output);
    if q > 0 {
      PoppedKeeps(stack, q, st.output, Plus);
    }
  }

  /**
   * One step keeps the stack holding only operators and `(` and the output
   * only numbers and operators, adds the token's number (if it is one) to
   * the numbers already emitted, never returns an error, and can panic
   * only on a `)` with no `(` below it.
   */
  lemma StepKeeps(tok: TokenKind, st: State)
    requires StackTokens(st.stack) && OutputTokens(st.output)
    ensures var r := Step(tok, st);
      && !r.Err?
      && (r.Panic? ==> r.site == EmptyOperatorStack && IsCloseParen(tok) && OpenBoundary(st.stack) == 0)
      && (r.Ok? ==> StackTokens(r.value.stack) && OutputTokens(r.value.output)
                    && Operands(r.value.output) == Operands([tok]) + Operands(st.output))
  {
    if IsNumber(tok) {
      OperandsAppend([tok], st.output);
    } else {
      NoOperands([tok]);
      assert Operands([tok]) + Operands(st.output) == Operands(st.output);
      if IsOperator(tok) {
        OperatorStepKeeps(tok, st);
      } else if IsOpenParen(tok) {
        assert StackTokens(st.stack + [tok]);
      } else if IsCloseParen(tok) {
        CloseStepKeeps(st);
      }
    }
  }

  /**
   * The conversion loop in full, from a stack of operators and `(` and an
   * output of numbers and operators: never an error, a panic only at an
   * unmatched `)`, and every number of the input is emitted in input order
   * (the output is read back to front).
   */
  lemma {:induction false} RunKeeps(ts: seq<TokenKind>, st: State)
    requires StackTokens(st.stack) && OutputTokens(st.output)
    ensures var r := Run(ts, st);
      && !r.Err?
      && (r.Panic? ==> r.site == EmptyOperatorStack)
      && (r.Ok? ==> StackTokens(r.value.stack) && OutputTokens(r.value.output)
                    && Operands(r.value.output) == Reversed(Operands(ts)) + Operands(st.output))
    decreases |ts|
  {
    if ts != [] {
      StepKeeps(ts[0], st);
      var next := Step(ts[0], st);
      if next.Ok? {
        RunKeeps(ts[1..], next.value);
        ReversedOperandsFront(ts);
      }
    }
  }

  /** The numbers of `ts` read back to front end with the number at its front, if any. */
  lemma ReversedOperandsFront(ts: seq<TokenKind>)
    requires ts != []
    ensures Reversed(Operands(ts)) == Reversed(Operands(ts[1..])) + Operands([ts[0]])
  {
    var h := if IsNumber(ts[0]) then [ts[0]] else [];
    var rest := Operands(ts[1..]);
    assert [ts[0]][1..] == [];
    assert Operands([ts[0]]) == h + [];
    assert Operands(ts) == h + rest;
    if h == [] {
      assert h + rest == rest;
    } else {
      assert (h + rest)[1..] == rest;
    }
  }

  /**
   * The conversion never returns an error, can panic only at an unmatched
   * `)`, never reaches the `unreachable!` of `precedence`, emits no `)` and
   * no identifier, and emits the numbers of its input in input order.
   */
  lemma ShuntOutcomes(ts: seq<TokenKind>)
    ensures var r := Shunt(ts);
      && !r.Err?
      && (r.Panic? ==> r.site == EmptyOperatorStack)
      && (r.Ok? ==> (forall k :: 0 <= k < |r.value| ==> IsNumber(r.value[k]) || IsOperator(r.value[k]) || IsOpenParen(r.value[k]))
                    && Operands(r.value) == Reversed(Operands(ts)))
  {
    RunKeeps(ts, State([], []));
    var run := Run(ts, State([], []));
    if run.Ok? {
      var st := run.value;
      OperandsAppend(st.stack, st.output);
      NoOperands(st.stack);
      assert Reversed(Operands(ts)) + Operands([]) == Reversed(Operands(ts));
    }
  }

  /**
   * The outcomes of `parse`: the errors are those of the rewrite passes
   * (`MissingExpression` or `UnexpectedOperator(Plus)`); `ParensMismatch`
   * is never returned; a panic is a read of the top of an empty operator
   * stack.
   */
  lemma ParseOutcomes(ts: seq<TokenKind>)
    ensures var r := ParseTokens(ts);
      && (r.Err? ==> r.error == MissingExpression || r.error == UnexpectedOperator(Plus))
      && (r.Panic? ==> r.site == EmptyOperatorStack)
  {
    InsertParensFails(ts);
    var withParens := InsertParens(ts);
    if withParens.Ok? {
      BalanceCharacterised(withParens.value);
      var balanced := Balance(withParens.value);
      if balanced.Ok? {
        ShuntOutcomes(balanced.value);
      }
    }
  }

  lemma {:induction false} OpenBoundaryAbove(below: seq<TokenKind>, popped: seq<TokenKind>)
    requires |below| == 0 || IsOpenParen(below[|below| - 1])
    requires forall k :: 0 <= k < |popped| ==> !IsOpenParen(popped[k])
    ensures OpenBoundary(below + popped) == |below|
    decreases |popped|
  {
    if popped == [] {
      assert below + popped == below;
    } else {
      var rest := popped[..|popped| - 1];
      OpenBoundaryAbove(below, rest);
      assert (below + popped)[..|below + popped| - 1] == below + rest;
    }
  }

  /**
   * An operator arriving on an empty stack, on a `(`, or on an operator
   * that binds less tightly is pushed and nothing is emitted.
   */
  lemma OperatorPushed(tok: TokenKind, stack: seq<TokenKind>, output: seq<TokenKind>)
    requires IsOperator(tok)
    requires |stack| == 0 || IsOpenParen(stack[|stack| - 1])
      || (IsOperator(stack[|stack| - 1]) && Precedence(stack[|stack| - 1]).value < Precedence(tok).value)
    ensures Step(tok, State(stack, output)) == Ok(State(stack + [tok], output))
  {
    if |stack| == 0 {
      assert stack + [tok] == [tok];
    } else if IsOpenParen(stack[|stack| - 1]) {
      assert PopToParen(stack, output) == State(stack, output);
    }
  }

  /**
   * An operator arriving on an operator that binds at least as tightly
   * emits every operator down to the nearest `(` (or the bottom), whatever
   * their precedence, and is then pushed.
   */
  lemma OperatorPopsToParen(tok: TokenKind, below: seq<TokenKind>, popped: seq<TokenKind>, output: seq<TokenKind>)
    requires IsOperator(tok) && |popped| > 0
    requires |below| == 0 || IsOpenParen(below[|below| - 1])
    requires forall k :: 0 <= k < |popped| ==> IsOperator(popped[k])
    requires Precedence(popped[|popped| - 1]).value >= Precedence(tok).value
    ensures Step(tok, State(below + popped, output)) == Ok(State(below + [tok], popped + output))
  {
    var stack := below + popped;
    assert stack[|stack| - 1] == popped[|popped| - 1];
    OpenBoundaryAbove(below, popped);
    PopToParenForm(stack, output);
    assert stack[..|below|] == below && stack[|below|..] == popped;
  }

  /** A `)` emits every operator above the nearest `(` and removes that `(`. */
  lemma CloseParenPops(below: seq<TokenKind>, popped: seq<TokenKind>, output: seq<TokenKind>)
    requires forall k :: 0 <= k < |popped| ==> IsOperator(popped[k])
    ensures Step(CloseParen, State(below + [OpenParen] + popped, output)) == Ok(State(below, popped + output))
  {
    var stack := below + [OpenParen] + popped;
    OpenBoundaryAbove(below + [OpenParen], popped);
    CloseStepForm(stack, output);
    assert stack[..|below|] == below && stack[|below| + 1..] == popped;
  }

  /**
   * Precedence is compared against the stack top only once: once an
   * operator starts popping, it pops down to the nearest `(` even past
   * operators that bind less tightly than itself. Here `*` pops both the
   * `*` and the `+` below it.
   */
  lemma PopsPastLowerPrecedence(x: TokenKind)
    ensures OperatorStep(Asterix, State([OpenParen, Plus, Asterix], [x])) ==
      Ok(State([OpenParen, Asterix], [Plus, Asterix, x]))
  {
    var stack := [OpenParen, Plus, Asterix];
    assert Precedence(Asterix) == Some(2);
    assert stack[..2] == [OpenParen, Plus];
    assert [OpenParen, Plus][..1] == [OpenParen];
    assert PopToParen([OpenParen], [Plus, Asterix, x]) == State([OpenParen], [Plus, Asterix, x]);
    assert PopToParen(stack, [x]) == State([OpenParen], [Plus, Asterix, x]);
    assert [OpenParen] + [Asterix] == [OpenParen, Asterix];
  }
}
