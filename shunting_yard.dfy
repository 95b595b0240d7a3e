/**
 * `Parser::parse` (src/ast/parser.rs): the two rewrite passes followed by
 * the shunting-yard conversion. The operator stack is a sequence whose last
 * element is the top; the output queue is a sequence built with
 * `push_front`, so its last element is the first token emitted and reading
 * it back to front gives emission order.
 */
module ShuntingYard {
  import opened Tokens
  import opened Errors
  import opened Rewrite

  datatype State = State(stack: seq<TokenKind>, output: seq<TokenKind>)

  /** Moves stack tops to the front of the output until the top is `(` or the stack is empty. */
  function PopToParen(stack: seq<TokenKind>, output: seq<TokenKind>): State
    decreases |stack|
  {
    if |stack| == 0 || IsOpenParen(stack[|stack| - 1]) then State(stack, output)
    else PopToParen(stack[..|stack| - 1], [stack[|stack| - 1]] + output)
  }

  /**
   * An incoming operator. On a non-empty stack the precedences of the
   * operator and of the stack top are read once, before the pop loop, so
   * when the top does not bind less tightly than the operator the loop pops
   * everything down to the nearest `(`, whatever the precedence of the
   * later tops. The operator is then pushed.
   */
  function OperatorStep(tok: TokenKind, st: State): Outcome<State> {
    if |st.stack| == 0 then Ok(State([tok], st.output))
    else
      var tokenPrecedence := Precedence(tok);
      var topPrecedence := Precedence(st.stack[|st.stack| - 1]);
      if tokenPrecedence.None? || topPrecedence.None? then Panic(Unreachable)
      else
        var popped := if topPrecedence.value >= tokenPrecedence.value then PopToParen(st.stack, st.output) else st;
        Ok(State(popped.stack + [tok], popped.output))
  }

  /**
   * A `)`: moves operators to the output down to the nearest `(`, which is
   * discarded. Reading the top of an empty stack panics: `len() - 1`
   * overflows (or, wrapped, the index is out of bounds).
   */
  function CloseStep(stack: seq<TokenKind>, output: seq<TokenKind>): Outcome<State>
    decreases |stack|
  {
    if |stack| == 0 then Panic(EmptyOperatorStack)
    else if IsOpenParen(stack[|stack| - 1]) then Ok(State(stack[..|stack| - 1], output))
    else CloseStep(stack[..|stack| - 1], [stack[|stack| - 1]] + output)
  }

  /** One token of the conversion loop; a token of no class (an identifier) is dropped. */
  function Step(tok: TokenKind, st: State): Outcome<State> {
    if IsNumber(tok) then Ok(State(st.stack, [tok] + st.output))
    else if IsOperator(tok) then OperatorStep(tok, st)
    else if IsOpenParen(tok) then Ok(State(st.stack + [tok], st.output))
    else if IsCloseParen(tok) then CloseStep(st.stack, st.output)
    else Ok(st)
  }

  function Run(ts: seq<TokenKind>, st: State): Outcome<State>
    decreases |ts|
  {
    if ts == [] then Ok(st)
    else
      var st' :- Step(ts[0], st);
      Run(ts[1..], st')
  }

  /**
   * The conversion of a token sequence. At the end the stack is drained
   * into the front of the output, top first: the result is the stack
   * followed by the output.
   */
  function Shunt(ts: seq<TokenKind>): Outcome<seq<TokenKind>> {
    var st :- Run(ts, State([], []));
    Ok(st.stack + st.output)
  }

  /** What `parse` returns for a token stream. */
  function ParseTokens(ts: seq<TokenKind>): Outcome<seq<TokenKind>> {
    var withParens :- InsertParens(ts);
    var balanced :- Balance(withParens);
    Shunt(balanced)
  }

  method Parse(stream: seq<TokenKind>) returns (r: Outcome<seq<TokenKind>>)
    ensures r == ParseTokens(stream)
  {
    var withParens :- InsertParenthesis(stream);
    var balanced :- BalanceOperators(withParens);
    var outputQueue := [];
    var operatorStack := [];
    for i := 0 to |balanced|
      invariant Run(balanced, State([], [])) == Run(balanced[i..], State(operatorStack, outputQueue))
    {
      var token := balanced[i];
      assert balanced[i..][0] == token && balanced[i..][1..] == balanced[i + 1..];
      ghost var before := State(operatorStack, outputQueue);
      if IsNumber(token) {
        outputQueue := [token] + outputQueue;
      }
      if IsOperator(token) {
        if |operatorStack| > 0 {
          var top := operatorStack[|operatorStack| - 1];
          var tokenPrecedence := Precedence(token);
          var topTokenPrecedence := Precedence(top);
          if tokenPrecedence.None? || topTokenPrecedence.None? {
            return Panic(Unreachable);
          }
          while !IsOpenParen(top) && topTokenPrecedence.value >= tokenPrecedence.value
            invariant |operatorStack| > 0 && top == operatorStack[|operatorStack| - 1]
            invariant topTokenPrecedence.value >= tokenPrecedence.value ==>
              PopToParen(before.stack, before.output) == PopToParen(operatorStack, outputQueue)
            invariant topTokenPrecedence.value < tokenPrecedence.value ==> State(operatorStack, outputQueue) == before
            decreases |operatorStack|
          {
            outputQueue := [operatorStack[|operatorStack| - 1]] + outputQueue;
            operatorStack := operatorStack[..|operatorStack| - 1];
            if |operatorStack| > 0 {
              top := operatorStack[|operatorStack| - 1];
            } else {
              break;
            }
          }
        }
        operatorStack := operatorStack + [token];
      }
      if IsOpenParen(token) {
        operatorStack := operatorStack + [token];
      }
      if IsCloseParen(token) {
        if |operatorStack| == 0 {
          return Panic(EmptyOperatorStack);
        }
        var top := operatorStack[|operatorStack| - 1];
        while !IsOpenParen(top)
          invariant |operatorStack| > 0 && top == operatorStack[|operatorStack| - 1]
          invariant CloseStep(before.stack, before.output) == CloseStep(operatorStack, outputQueue)
          decreases |operatorStack|
        {
          outputQueue := [operatorStack[|operatorStack| - 1]] + outputQueue;
          operatorStack := operatorStack[..|operatorStack| - 1];
          if |operatorStack| == 0 {
            return Panic(EmptyOperatorStack);
          }
          top := operatorStack[|operatorStack| - 1];
        }
        operatorStack := operatorStack[..|operatorStack| - 1];
      }
    }
    assert balanced[|balanced|..] == [];
    ghost var drained := operatorStack + outputQueue;
    assert Shunt(balanced) == Ok(drained);
    while |operatorStack| > 0
      invariant operatorStack + outputQueue == drained
      decreases |operatorStack|
    {
      assert operatorStack[..|operatorStack| - 1] + ([operatorStack[|operatorStack| - 1]] + outputQueue) == operatorStack + outputQueue;
      outputQueue := [operatorStack[|operatorStack| - 1]] + outputQueue;
      operatorStack := operatorStack[..|operatorStack| - 1];
    }
    assert operatorStack + outputQueue == outputQueue;
    return Ok(outputQueue);
  }
}
