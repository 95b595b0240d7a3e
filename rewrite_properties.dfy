/**
 * What the two rewrite passes compute, stated without their loop state:
 * when they fail and with which error, and what they emit for each input
 * token.
 */
module RewriteProperties {
  import opened Tokens
  import opened Errors
  import opened Rewrite

  // ---------------------------------------------------------------------
  // insert_parenthesis
  // ---------------------------------------------------------------------

  /** The last token is a function or a power, so it has no argument. */
  predicate LastLacksOperand(t: seq<TokenKind>) {
    |t| > 0 && (IsFunction(t[|t| - 1]) || t[|t| - 1].Power?)
  }

  /** No token that `insert_parenthesis` rewrites. */
  predicate NoRewrites(t: seq<TokenKind>) {
    forall k :: 0 <= k < |t| ==> !IsFunction(t[k]) && !t[k].Power?
  }

  lemma {:induction false} InsertFromFails(t: seq<TokenKind>, i: nat, out: seq<TokenKind>, skip: bool)
    requires i <= |t| && i + (if skip then 1 else 0) <= |out|
    ensures var r := InsertFrom(t, i, out, skip);
      && !r.Panic?
      && (r.Err? ==> r.error == MissingExpression)
      && (r.Err? <==> (i == 0 && |t| > 0 && t[0].Power?) || (i < |t| && LastLacksOperand(t)))
    decreases |t| - i
  {
    if i < |t| {
      var tok := t[i];
      if IsFunction(tok) {
        if i + 1 < |t| {
          InsertFromFails(t, i + 1, out + [OpenParen, tok, t[i + 1], CloseParen], true);
        }
      } else if tok.Power? {
        if 0 < i && i + 1 < |t| {
          InsertFromFails(t, i + 1, out[..i - 1] + out[i..] + [OpenParen, t[i - 1], Power, t[i + 1], CloseParen], true);
        }
      } else if skip {
        InsertFromFails(t, i + 1, out, false);
      } else {
        InsertFromFails(t, i + 1, out + [tok], false);
      }
    }
  }

  /**
   * `insert_parenthesis` fails exactly when the input starts with `^` or
   * ends with a function or `^`, and then always with `MissingExpression`.
   */
  lemma InsertParensFails(t: seq<TokenKind>)
    ensures !InsertParens(t).Panic?
    ensures InsertParens(t).Err? ==> InsertParens(t).error == MissingExpression
    ensures InsertParens(t).Err? <==> (|t| > 0 && t[0].Power?) || LastLacksOperand(t)
  {
    InsertFromFails(t, 0, [], false);
  }

  lemma {:induction false} InsertFromPlain(t: seq<TokenKind>, i: nat, out: seq<TokenKind>)
    requires i <= |t| && i <= |out| && NoRewrites(t)
    ensures InsertFrom(t, i, out, false) == Ok(out + t[i..])
    decreases |t| - i
  {
    if i < |t| {
      InsertFromPlain(t, i + 1, out + [t[i]]);
      assert out + [t[i]] + t[i + 1..] == out + t[i..];
    } else {
      assert out + t[i..] == out;
    }
  }

  /** Without functions and powers, `insert_parenthesis` changes nothing. */
  /** `NoRewrites` built one token at a time from the front. */
  lemma NoRewritesCons(tok: TokenKind, t: seq<TokenKind>)
    requires !IsFunction(tok) && !tok.Power? && NoRewrites(t)
    ensures NoRewrites([tok] + t)
  {
    var u := [tok] + t;
    assert forall k :: 1 <= k < |u| ==> u[k] == t[k - 1];
  }

  lemma InsertParensPlain(t: seq<TokenKind>)
    requires NoRewrites(t)
    ensures InsertParens(t) == Ok(t)
  {
    InsertFromPlain(t, 0, []);
    assert [] + t[0..] == t;
  }

  /**
   * Reference output for inputs without powers: a function `f` followed by
   * `x` becomes `( f x )`; a token that follows a function was its argument
   * and is not emitted again; every other token is copied.
   */
  ghost function Wrapped(t: seq<TokenKind>, i: nat): seq<TokenKind>
    requires i <= |t|
    decreases |t| - i
  {
    if i == |t| then []
    else
      var emitted :=
        if IsFunction(t[i]) then (if i + 1 < |t| then [OpenParen, t[i], t[i + 1], CloseParen] else [])
        else if i > 0 && IsFunction(t[i - 1]) then []
        else [t[i]];
      emitted + Wrapped(t, i + 1)
  }

  lemma {:induction false} InsertFromFunctions(t: seq<TokenKind>, i: nat, out: seq<TokenKind>)
    requires i <= |t| && !LastLacksOperand(t)
    requires forall k :: 0 <= k < |t| ==> !t[k].Power?
    requires i + (if i > 0 && IsFunction(t[i - 1]) then 1 else 0) <= |out|
    ensures InsertFrom(t, i, out, i > 0 && IsFunction(t[i - 1])) == Ok(out + Wrapped(t, i))
    decreases |t| - i
  {
    if i < |t| {
      var skip := i > 0 && IsFunction(t[i - 1]);
      var tok := t[i];
      if IsFunction(tok) {
        var out' := out + [OpenParen, tok, t[i + 1], CloseParen];
        InsertFromFunctions(t, i + 1, out');
        assert out' + Wrapped(t, i + 1) == out + Wrapped(t, i);
      } else if skip {
        InsertFromFunctions(t, i + 1, out);
        assert out + Wrapped(t, i + 1) == out + Wrapped(t, i);
      } else {
        InsertFromFunctions(t, i + 1, out + [tok]);
        assert out + [tok] + Wrapped(t, i + 1) == out + Wrapped(t, i);
      }
    } else {
      assert out + Wrapped(t, i) == out;
    }
  }

  /**
   * With no power in the input and no function at its end, the output of
   * `insert_parenthesis` is `Wrapped`: each function with its argument in
   * parentheses, the argument not repeated.
   */
  lemma InsertParensFunctions(t: seq<TokenKind>)
    requires forall k :: 0 <= k < |t| ==> !t[k].Power?
    requires !LastLacksOperand(t)
    ensures InsertParens(t) == Ok(Wrapped(t, 0))
  {
    InsertFromFunctions(t, 0, []);
    assert [] + Wrapped(t, 0) == Wrapped(t, 0);
  }

  lemma {:induction false} InsertFromPlainPrefix(t: seq<TokenKind>, j: nat, i: nat)
    requires j <= i <= |t|
    requires forall k :: 0 <= k < i ==> !IsFunction(t[k]) && !t[k].Power?
    ensures InsertFrom(t, j, t[..j], false) == InsertFrom(t, i, t[..i], false)
    decreases i - j
  {
    if j < i {
      assert t[..j] + [t[j]] == t[..j + 1];
      InsertFromPlainPrefix(t, j + 1, i);
    }
  }

  /**
   * The first rewrite of the input, when it is a power `b ^ x`, replaces the
   * base `b` by `( b ^ x )` and leaves the exponent to be skipped.
   */
  lemma PowerAfterPlainPrefix(t: seq<TokenKind>, i: nat)
    requires 0 < i && i + 1 < |t| && t[i].Power?
    requires forall k :: 0 <= k < i ==> !IsFunction(t[k]) && !t[k].Power?
    ensures InsertParens(t) == InsertFrom(t, i + 1, t[..i - 1] + [OpenParen, t[i - 1], Power, t[i + 1], CloseParen], true)
  {
    InsertFromPlainPrefix(t, 0, i);
    assert t[..i][..i - 1] + t[..i][i..] == t[..i - 1];
  }

  /**
   * After an earlier rewrite the input index no longer points at the base:
   * in `sin 1 + 2 ^ 2` the power removes the `)` that closes `( sin 1 )`
   * and the base `2` stays in the output as well as inside `( 2 ^ 2 )`.
   */
  lemma PowerRemovesByInputIndex()
    ensures InsertParens([Sin, Number(1.0), Plus, Number(2.0), Power, Number(2.0)])
         == Ok([OpenParen, Sin, Number(1.0), Plus, Number(2.0), OpenParen, Number(2.0), Power, Number(2.0), CloseParen])
  {
    var t := [Sin, Number(1.0), Plus, Number(2.0), Power, Number(2.0)];
    var o1 := [OpenParen, Sin, Number(1.0), CloseParen];
    assert [] + [OpenParen, Sin, t[1], CloseParen] == o1;
    assert InsertFrom(t, 0, [], false) == InsertFrom(t, 1, o1, true);
    assert InsertFrom(t, 1, o1, true) == InsertFrom(t, 2, o1, false);
    var o3 := o1 + [Plus];
    assert InsertFrom(t, 2, o1, false) == InsertFrom(t, 3, o3, false);
    var o4 := o3 + [Number(2.0)];
    assert InsertFrom(t, 3, o3, false) == InsertFrom(t, 4, o4, false);
    var o5 := o4[..3] + o4[4..] + [OpenParen, t[3], Power, t[5], CloseParen];
    assert o5 == [OpenParen, Sin, Number(1.0), Plus, Number(2.0), OpenParen, Number(2.0), Power, Number(2.0), CloseParen];
    assert InsertFrom(t, 4, o4, false) == InsertFrom(t, 5, o5, true);
    assert InsertFrom(t, 5, o5, true) == InsertFrom(t, 6, o5, false);
  }

  // ---------------------------------------------------------------------
  // balance_operators
  // ---------------------------------------------------------------------

  /** A sign at `j` followed by `-`: the pair collapses. */
  predicate CollapsesAt(t: seq<TokenKind>, j: int) {
    0 <= j && j + 1 < |t| && IsSign(t[j]) && t[j + 1].Minus?
  }

  /** A sign at `j` followed by `+`: rejected. */
  predicate RejectsAt(t: seq<TokenKind>, j: int) {
    0 <= j && j + 1 < |t| && IsSign(t[j]) && t[j + 1].Plus?
  }

  /**
   * Reference output: a non-sign is copied; a sign followed by `-` becomes
   * its collapsed sign; any other sign is copied only if no pair has
   * collapsed before it.
   */
  ghost function Balanced(t: seq<TokenKind>, i: nat): seq<TokenKind>
    requires i <= |t|
    decreases |t| - i
  {
    if i == |t| then []
    else
      var emitted :=
        if !IsSign(t[i]) then [t[i]]
        else if CollapsesAt(t, i) then [Collapsed(t[i])]
        else if exists j :: 0 <= j < i && CollapsesAt(t, j) then []
        else [t[i]];
      emitted + Balanced(t, i + 1)
  }

  lemma {:induction false} BalanceFromCharacterised(t: seq<TokenKind>, i: nat, out: seq<TokenKind>)
    requires i <= |t|
    ensures var skip := exists j :: 0 <= j < i && CollapsesAt(t, j);
      BalanceFrom(t, i, out, skip) ==
        if exists j :: i <= j && RejectsAt(t, j) then Err(UnexpectedOperator(Plus))
        else if i < |t| && IsSign(t[|t| - 1]) then Err(MissingExpression)
        else Ok(out + Balanced(t, i))
    decreases |t| - i
  {
    var skip := exists j :: 0 <= j < i && CollapsesAt(t, j);
    if i < |t| {
      var tok := t[i];
      var skip' := exists j :: 0 <= j < i + 1 && CollapsesAt(t, j);
      assert skip' == (skip || CollapsesAt(t, i));
      assert (exists j :: i <= j && RejectsAt(t, j)) == (RejectsAt(t, i) || exists j :: i + 1 <= j && RejectsAt(t, j));
      if IsSign(tok) {
        if i + 1 < |t| && !t[i + 1].Plus? {
          var out' := if t[i + 1].Minus? then out + [Collapsed(tok)] else out;
          var out'' := if skip' then out' else out' + [tok];
          BalanceFromCharacterised(t, i + 1, out'');
          assert out'' + Balanced(t, i + 1) == out + Balanced(t, i);
        }
      } else {
        BalanceFromCharacterised(t, i + 1, out + [tok]);
        assert out + [tok] + Balanced(t, i + 1) == out + Balanced(t, i);
      }
    } else {
      assert out + Balanced(t, i) == out;
    }
  }

  /**
   * `balance_operators` in full: a sign followed by `+` anywhere is
   * `UnexpectedOperator(Plus)`; otherwise a sign as the last token is
   * `MissingExpression`; otherwise the output is `Balanced`.
   */
  lemma BalanceCharacterised(t: seq<TokenKind>)
    ensures Balance(t) ==
      if exists j :: RejectsAt(t, j) then Err(UnexpectedOperator(Plus))
      else if |t| > 0 && IsSign(t[|t| - 1]) then Err(MissingExpression)
      else Ok(Balanced(t, 0))
  {
    BalanceFromCharacterised(t, 0, []);
    assert (exists j :: 0 <= j && RejectsAt(t, j)) == (exists j :: RejectsAt(t, j));
    assert (exists j :: 0 <= j < 0 && CollapsesAt(t, j)) == false;
    assert [] + Balanced(t, 0) == Balanced(t, 0);
  }

  /** Every sign is followed by a token that is not a sign. */
  predicate SignsSeparated(t: seq<TokenKind>) {
    forall j :: 0 <= j < |t| && IsSign(t[j]) ==> j + 1 < |t| && !IsSign(t[j + 1])
  }

  lemma {:induction false} BalancedCopies(t: seq<TokenKind>, i: nat)
    requires i <= |t| && SignsSeparated(t)
    ensures Balanced(t, i) == t[i..]
    decreases |t| - i
  {
    if i < |t| {
      BalancedCopies(t, i + 1);
      assert !CollapsesAt(t, i);
      assert [t[i]] + t[i + 1..] == t[i..];
    }
  }

  /** When every sign is followed by a non-sign, `balance_operators` changes nothing. */
  /** `SignsSeparated` built one token at a time from the front. */
  lemma SignsSeparatedCons(tok: TokenKind, t: seq<TokenKind>)
    requires SignsSeparated(t)
    requires IsSign(tok) ==> |t| > 0 && !IsSign(t[0])
    ensures SignsSeparated([tok] + t)
  {
    var u := [tok] + t;
    forall j | 0 <= j < |u| && IsSign(u[j])
      ensures j + 1 < |u| && !IsSign(u[j + 1])
    {
      if j > 0 {
        assert u[j] == t[j - 1];
      }
    }
  }

  lemma BalanceSeparated(t: seq<TokenKind>)
    requires SignsSeparated(t)
    ensures Balance(t) == Ok(t)
  {
    BalanceCharacterised(t);
    BalancedCopies(t, 0);
    assert !exists j :: RejectsAt(t, j);
  }

  /**
   * `skip_next` is never cleared: in `1 - - 2 - 3` the first pair becomes
   * `+` and the later `-` is dropped.
   */
  lemma SkipNeverCleared(a: real, b: real, c: real)
    ensures Balance([Number(a), Minus, Minus, Number(b), Minus, Number(c)])
         == Ok([Number(a), Plus, Number(b), Number(c)])
  {
    var t := [Number(a), Minus, Minus, Number(b), Minus, Number(c)];
    var o1 := [] + [t[0]];
    var o2 := o1 + [Plus];
    var o4 := o2 + [t[3]];
    var o6 := o4 + [t[5]];
    assert o6 == [Number(a), Plus, Number(b), Number(c)];
    assert BalanceFrom(t, 0, [], false) == BalanceFrom(t, 1, o1, false);
    assert BalanceFrom(t, 1, o1, false) == BalanceFrom(t, 2, o2, true);
    assert BalanceFrom(t, 2, o2, true) == BalanceFrom(t, 3, o2, true);
    assert BalanceFrom(t, 3, o2, true) == BalanceFrom(t, 4, o4, true);
    assert BalanceFrom(t, 4, o4, true) == BalanceFrom(t, 5, o4, true);
    assert BalanceFrom(t, 5, o4, true) == BalanceFrom(t, 6, o6, true);
  }
}
