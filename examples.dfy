/**
 * Concrete evaluations: the test cases of src/lib.rs and the behaviours in
 * which the program departs from standard arithmetic. Number literals are
 * read by `m.literal`; each end-to-end lemma names the values it needs.
 * Every lemma is proved one token at a time: a lexing step, a shunting
 * step and an execution step per token.
 */
module Examples {
  import opened Tokens
  import opened Errors
  import opened Numerics
  import opened Lexing
  import opened LexerProperties
  import opened Rewrite
  import opened RewriteProperties
  import opened ShuntingYard
  import opened ParserProperties
  import opened Evaluator
  import opened EvaluatorProperties
  import opened Interpreting

  // ---------------------------------------------------------------------
  // Step helpers
  // ---------------------------------------------------------------------

  lemma {:induction false} NoDots(w: string)
    requires forall k :: 0 <= k < |w| ==> IsDigit(w[k])
    ensures DotCount(w) == 0
    decreases |w|
  {
    if w != [] {
      NoDots(w[1..]);
    }
  }

  /** A maximal run of digits at `j` is one number token ending at `k`. */
  lemma ScanLiteral(m: Maths, s: string, j: nat, k: nat)
    requires j < k <= |s| && (forall x :: j <= x < k ==> IsDigit(s[x]))
    requires k == |s| || NumberStop(s[k])
    ensures Scan(m, s, j) == Ok(Some((Number(m.literal(s[j..k])), k)))
  {
    ScanNumber(m, s, j);
    RunEndUnique(s, j + 1, NumberStop, k);
    NoDots(s[j..k]);
  }

  /** After the spaces from `i` to `j`, the token scanned at `j` is the next token. */
  lemma ScanAfter(m: Maths, s: string, i: nat, j: nat, t: TokenKind, k: nat)
    requires i <= j < |s| && (forall x :: i <= x < j ==> s[x] == ' ')
    requires Scan(m, s, j) == Ok(Some((t, k)))
    ensures LexFrom(m, s, i) == Prefixed([t], LexFrom(m, s, k))
  {
    SpacesSkipped(m, s, i, j);
    LexStep(m, s, j, t, k);
  }

  lemma RunCons(t: TokenKind, ts: seq<TokenKind>, st: State, st': State)
    requires Step(t, st) == Ok(st')
    ensures Run([t] + ts, st) == Run(ts, st')
  {
    assert ([t] + ts)[0] == t && ([t] + ts)[1..] == ts;
  }

  lemma RunConsFails(t: TokenKind, ts: seq<TokenKind>, st: State)
    requires !Step(t, st).Ok?
    ensures Run([t] + ts, st) == Step(t, st)
  {
    assert ([t] + ts)[0] == t;
  }

  lemma ExecSnoc(m: Maths, q: seq<TokenKind>, t: TokenKind, stack: seq<real>, stack': seq<real>)
    requires ExecStep(m, t, stack) == Ok(stack')
    ensures ExecRun(m, q + [t], stack) == ExecRun(m, q, stack')
  {
    ExecLast(m, q, t, stack);
  }


  // ---------------------------------------------------------------------
  // "1 + 1" and "1+1" (src/lib.rs:8-12, 44-48)
  // ---------------------------------------------------------------------

  /** The characters of `1 + 1`. */
  predicate OnePlusOneText(s: string) {
    |s| == 5 && s[0] == '1' && s[1] == ' ' && s[2] == '+' && s[3] == ' ' && s[4] == '1'
  }

  lemma OnePlusOneTextChars()
    ensures OnePlusOneText("1 + 1")
  {
  }

  lemma LexOnePlusOneFrom5(m: Maths, s: string)
    requires OnePlusOneText(s)
    ensures LexFrom(m, s, 5) == Ok([])
  {
    assert Scan(m, s, 5) == Ok(None);
  }

  lemma LexOnePlusOneFrom3(m: Maths, s: string)
    requires OnePlusOneText(s)
    ensures LexFrom(m, s, 3) == Ok([Number(m.literal("1"))] + [])
  {
    LexOnePlusOneFrom5(m, s);
    ScanLiteral(m, s, 4, 5);
    assert s[4..5] == "1";
    ScanAfter(m, s, 3, 4, Number(m.literal("1")), 5);
  }

  lemma LexOnePlusOneFrom1(m: Maths, s: string)
    requires OnePlusOneText(s)
    ensures LexFrom(m, s, 1) == Ok([Plus] + ([Number(m.literal("1"))] + []))
  {
    LexOnePlusOneFrom3(m, s);
    ScanSymbol(m, s, 2);
    ScanAfter(m, s, 1, 2, Plus, 3);
  }

  lemma LexOnePlusOneFrom0(m: Maths, s: string)
    requires OnePlusOneText(s)
    ensures LexFrom(m, s, 0) == Ok([Number(m.literal("1"))] + ([Plus] + ([Number(m.literal("1"))] + [])))
  {
    LexOnePlusOneFrom1(m, s);
    ScanLiteral(m, s, 0, 1);
    assert s[0..1] == "1";
    ScanAfter(m, s, 0, 0, Number(m.literal("1")), 1);
  }

  lemma LexOnePlusOne(m: Maths)
    ensures Tokenize(m, "1 + 1") == Ok([Number(m.literal("1"))] + ([Plus] + ([Number(m.literal("1"))] + [])))
  {
    OnePlusOneTextChars();
    LexOnePlusOneFrom0(m, "1 + 1");
  }

  /** The characters of `1+1`. */
  predicate OnePlusOneTightText(s: string) {
    |s| == 3 && s[0] == '1' && s[1] == '+' && s[2] == '1'
  }

  lemma OnePlusOneTightTextChars()
    ensures OnePlusOneTightText("1+1")
  {
  }

  lemma LexOnePlusOneTightFrom3(m: Maths, s: string)
    requires OnePlusOneTightText(s)
    ensures LexFrom(m, s, 3) == Ok([])
  {
    assert Scan(m, s, 3) == Ok(None);
  }

  lemma LexOnePlusOneTightFrom2(m: Maths, s: string)
    requires OnePlusOneTightText(s)
    ensures LexFrom(m, s, 2) == Ok([Number(m.literal("1"))] + [])
  {
    LexOnePlusOneTightFrom3(m, s);
    ScanLiteral(m, s, 2, 3);
    assert s[2..3] == "1";
    ScanAfter(m, s, 2, 2, Number(m.literal("1")), 3);
  }

  lemma LexOnePlusOneTightFrom1(m: Maths, s: string)
    requires OnePlusOneTightText(s)
    ensures LexFrom(m, s, 1) == Ok([Plus] + ([Number(m.literal("1"))] + []))
  {
    LexOnePlusOneTightFrom2(m, s);
    ScanSymbol(m, s, 1);
    ScanAfter(m, s, 1, 1, Plus, 2);
  }

  lemma LexOnePlusOneTightFrom0(m: Maths, s: string)
    requires OnePlusOneTightText(s)
    ensures LexFrom(m, s, 0) == Ok([Number(m.literal("1"))] + ([Plus] + ([Number(m.literal("1"))] + [])))
  {
    LexOnePlusOneTightFrom1(m, s);
    ScanLiteral(m, s, 0, 1);
    assert s[0..1] == "1";
    ScanAfter(m, s, 0, 0, Number(m.literal("1")), 1);
  }

  lemma LexOnePlusOneTight(m: Maths)
    ensures Tokenize(m, "1+1") == Ok([Number(m.literal("1"))] + ([Plus] + ([Number(m.literal("1"))] + [])))
  {
    OnePlusOneTightTextChars();
    LexOnePlusOneTightFrom0(m, "1+1");
  }

  lemma ParseOnePlusOneFrom2(one: real)
    ensures Run([Number(one)] + [], State([Plus], [Number(one)])) == Ok(State([Plus], [Number(one), Number(one)]))
  {
    assert [Number(one)] + [Number(one)] == [Number(one), Number(one)];
    RunCons(Number(one), [], State([Plus], [Number(one)]), State([Plus], [Number(one), Number(one)]));
  }

  lemma ParseOnePlusOneFrom1(one: real)
    ensures Run([Plus] + ([Number(one)] + []), State([], [Number(one)])) == Ok(State([Plus], [Number(one), Number(one)]))
  {
    ParseOnePlusOneFrom2(one);
    OperatorPushed(Plus, [], [Number(one)]);
    assert [] + [Plus] == [Plus];
    RunCons(Plus, [Number(one)] + [], State([], [Number(one)]), State([Plus], [Number(one)]));
  }

  lemma ParseOnePlusOneFrom0(one: real)
    ensures Run([Number(one)] + ([Plus] + ([Number(one)] + [])), State([], [])) == Ok(State([Plus], [Number(one), Number(one)]))
  {
    ParseOnePlusOneFrom1(one);
    assert [Number(one)] + [] == [Number(one)];
    RunCons(Number(one), [Plus] + ([Number(one)] + []), State([], []), State([], [Number(one)]));
  }

  lemma ParseOnePlusOneShape2(one: real)
    ensures NoRewrites([Number(one)] + []) && SignsSeparated([Number(one)] + [])
  {
    NoRewritesCons(Number(one), []);
    SignsSeparatedCons(Number(one), []);
  }

  lemma ParseOnePlusOneShape1(one: real)
    ensures NoRewrites([Plus] + ([Number(one)] + [])) && SignsSeparated([Plus] + ([Number(one)] + []))
  {
    ParseOnePlusOneShape2(one);
    NoRewritesCons(Plus, [Number(one)] + []);
    SignsSeparatedCons(Plus, [Number(one)] + []);
  }

  lemma ParseOnePlusOneShape0(one: real)
    ensures NoRewrites([Number(one)] + ([Plus] + ([Number(one)] + []))) && SignsSeparated([Number(one)] + ([Plus] + ([Number(one)] + [])))
  {
    ParseOnePlusOneShape1(one);
    NoRewritesCons(Number(one), [Plus] + ([Number(one)] + []));
    SignsSeparatedCons(Number(one), [Plus] + ([Number(one)] + []));
  }

  lemma ParseOnePlusOne(one: real)
    ensures ParseTokens([Number(one)] + ([Plus] + ([Number(one)] + []))) == Ok([Plus, Number(one), Number(one)])
  {
    var t := [Number(one)] + ([Plus] + ([Number(one)] + []));
    ParseOnePlusOneShape0(one);
    InsertParensPlain(t);
    BalanceSeparated(t);
    ParseOnePlusOneFrom0(one);
    assert [Plus] + [Number(one), Number(one)] == [Plus, Number(one), Number(one)];
  }

  lemma ExecuteOnePlusOneFrom2(m: Maths)
    ensures ExecRun(m, [Plus], [1.0, 1.0]) == Ok([2.0])
  {
    assert [1.0, 1.0][..0] + [2.0] == [2.0];
    assert ExecStep(m, Plus, [1.0, 1.0]) == Ok([2.0]);
    ExecSnoc(m, [], Plus, [1.0, 1.0], [2.0]);
    assert [] + [Plus] == [Plus];
  }

  lemma ExecuteOnePlusOneFrom1(m: Maths)
    ensures ExecRun(m, [Plus, Number(1.0)], [1.0]) == Ok([2.0])
  {
    ExecuteOnePlusOneFrom2(m);
    assert [1.0] + [1.0] == [1.0, 1.0];
    assert ExecStep(m, Number(1.0), [1.0]) == Ok([1.0, 1.0]);
    ExecSnoc(m, [Plus], Number(1.0), [1.0], [1.0, 1.0]);
    assert [Plus] + [Number(1.0)] == [Plus, Number(1.0)];
  }

  lemma ExecuteOnePlusOneFrom0(m: Maths)
    ensures ExecRun(m, [Plus, Number(1.0), Number(1.0)], []) == Ok([2.0])
  {
    ExecuteOnePlusOneFrom1(m);
    assert [] + [1.0] == [1.0];
    assert ExecStep(m, Number(1.0), []) == Ok([1.0]);
    ExecSnoc(m, [Plus, Number(1.0)], Number(1.0), [], [1.0]);
    assert [Plus, Number(1.0)] + [Number(1.0)] == [Plus, Number(1.0), Number(1.0)];
  }

  lemma ExecuteOnePlusOne(m: Maths)
    ensures Evaluate(m, [Plus, Number(1.0), Number(1.0)]) == Ok(2.0)
  {
    ExecuteOnePlusOneFrom0(m);
  }

  /** `1 + 1` and `1+1` give `2`. */
  lemma OnePlusOne(m: Maths)
    requires m.literal("1") == 1.0
    ensures InterpretSpec(m, "1 + 1") == Ok(2.0)
    ensures InterpretSpec(m, "1+1") == Ok(2.0)
  {
    LexOnePlusOne(m);
    LexOnePlusOneTight(m);
    ParseOnePlusOne(1.0);
    ExecuteOnePlusOne(m);
  }

  // ---------------------------------------------------------------------
  // "10 * 10 - 1" and "10*10-1" (src/lib.rs:15-19, 51-55)
  // ---------------------------------------------------------------------

  /** The characters of `10 * 10 - 1`. */
  predicate TenTimesTenMinusOneText(s: string) {
    |s| == 11 && s[0] == '1' && s[1] == '0' && s[2] == ' ' && s[3] == '*' && s[4] == ' ' && s[5] == '1' && s[6] == '0' && s[7] == ' ' && s[8] == '-' && s[9] == ' ' && s[10] == '1'
  }

  lemma TenTimesTenMinusOneTextChars()
    ensures TenTimesTenMinusOneText("10 * 10 - 1")
  {
  }

  lemma LexTenTimesTenMinusOneFrom11(m: Maths, s: string)
    requires TenTimesTenMinusOneText(s)
    ensures LexFrom(m, s, 11) == Ok([])
  {
    assert Scan(m, s, 11) == Ok(None);
  }

  lemma LexTenTimesTenMinusOneFrom9(m: Maths, s: string)
    requires TenTimesTenMinusOneText(s)
    ensures LexFrom(m, s, 9) == Ok([Number(m.literal("1"))] + [])
  {
    LexTenTimesTenMinusOneFrom11(m, s);
    ScanLiteral(m, s, 10, 11);
    assert s[10..11] == "1";
    ScanAfter(m, s, 9, 10, Number(m.literal("1")), 11);
  }

  lemma LexTenTimesTenMinusOneFrom7(m: Maths, s: string)
    requires TenTimesTenMinusOneText(s)
    ensures LexFrom(m, s, 7) == Ok([Minus] + ([Number(m.literal("1"))] + []))
  {
    LexTenTimesTenMinusOneFrom9(m, s);
    ScanSymbol(m, s, 8);
    ScanAfter(m, s, 7, 8, Minus, 9);
  }

  lemma LexTenTimesTenMinusOneFrom4(m: Maths, s: string)
    requires TenTimesTenMinusOneText(s)
    ensures LexFrom(m, s, 4) == Ok([Number(m.literal("10"))] + ([Minus] + ([Number(m.literal("1"))] + [])))
  {
    LexTenTimesTenMinusOneFrom7(m, s);
    ScanLiteral(m, s, 5, 7);
    assert s[5..7] == "10";
    ScanAfter(m, s, 4, 5, Number(m.literal("10")), 7);
  }

  lemma LexTenTimesTenMinusOneFrom2(m: Maths, s: string)
    requires TenTimesTenMinusOneText(s)
    ensures LexFrom(m, s, 2) == Ok([Asterix] + ([Number(m.literal("10"))] + ([Minus] + ([Number(m.literal("1"))] + []))))
  {
    LexTenTimesTenMinusOneFrom4(m, s);
    ScanSymbol(m, s, 3);
    ScanAfter(m, s, 2, 3, Asterix, 4);
  }

  lemma LexTenTimesTenMinusOneFrom0(m: Maths, s: string)
    requires TenTimesTenMinusOneText(s)
    ensures LexFrom(m, s, 0) == Ok([Number(m.literal("10"))] + ([Asterix] + ([Number(m.literal("10"))] + ([Minus] + ([Number(m.literal("1"))] + [])))))
  {
    LexTenTimesTenMinusOneFrom2(m, s);
    ScanLiteral(m, s, 0, 2);
    assert s[0..2] == "10";
    ScanAfter(m, s, 0, 0, Number(m.literal("10")), 2);
  }

  lemma LexTenTimesTenMinusOne(m: Maths)
    ensures Tokenize(m, "10 * 10 - 1") == Ok([Number(m.literal("10"))] + ([Asterix] + ([Number(m.literal("10"))] + ([Minus] + ([Number(m.literal("1"))] + [])))))
  {
    TenTimesTenMinusOneTextChars();
    LexTenTimesTenMinusOneFrom0(m, "10 * 10 - 1");
  }

  /** The characters of `10*10-1`. */
  predicate TenTimesTenMinusOneTightText(s: string) {
    |s| == 7 && s[0] == '1' && s[1] == '0' && s[2] == '*' && s[3] == '1' && s[4] == '0' && s[5] == '-' && s[6] == '1'
  }

  lemma TenTimesTenMinusOneTightTextChars()
    ensures TenTimesTenMinusOneTightText("10*10-1")
  {
  }

  lemma LexTenTimesTenMinusOneTightFrom7(m: Maths, s: string)
    requires TenTimesTenMinusOneTightText(s)
    ensures LexFrom(m, s, 7) == Ok([])
  {
    assert Scan(m, s, 7) == Ok(None);
  }

  lemma LexTenTimesTenMinusOneTightFrom6(m: Maths, s: string)
    requires TenTimesTenMinusOneTightText(s)
    ensures LexFrom(m, s, 6) == Ok([Number(m.literal("1"))] + [])
  {
    LexTenTimesTenMinusOneTightFrom7(m, s);
    ScanLiteral(m, s, 6, 7);
    assert s[6..7] == "1";
    ScanAfter(m, s, 6, 6, Number(m.literal("1")), 7);
  }

  lemma LexTenTimesTenMinusOneTightFrom5(m: Maths, s: string)
    requires TenTimesTenMinusOneTightText(s)
    ensures LexFrom(m, s, 5) == Ok([Minus] + ([Number(m.literal("1"))] + []))
  {
    LexTenTimesTenMinusOneTightFrom6(m, s);
    ScanSymbol(m, s, 5);
    ScanAfter(m, s, 5, 5, Minus, 6);
  }

  lemma LexTenTimesTenMinusOneTightFrom3(m: Maths, s: string)
    requires TenTimesTenMinusOneTightText(s)
    ensures LexFrom(m, s, 3) == Ok([Number(m.literal("10"))] + ([Minus] + ([Number(m.literal("1"))] + [])))
  {
    LexTenTimesTenMinusOneTightFrom5(m, s);
    ScanLiteral(m, s, 3, 5);
    assert s[3..5] == "10";
    ScanAfter(m, s, 3, 3, Number(m.literal("10")), 5);
  }

  lemma LexTenTimesTenMinusOneTightFrom2(m: Maths, s: string)
    requires TenTimesTenMinusOneTightText(s)
    ensures LexFrom(m, s, 2) == Ok([Asterix] + ([Number(m.literal("10"))] + ([Minus] + ([Number(m.literal("1"))] + []))))
  {
    LexTenTimesTenMinusOneTightFrom3(m, s);
    ScanSymbol(m, s, 2);
    ScanAfter(m, s, 2, 2, Asterix, 3);
  }

  lemma LexTenTimesTenMinusOneTightFrom0(m: Maths, s: string)
    requires TenTimesTenMinusOneTightText(s)
    ensures LexFrom(m, s, 0) == Ok([Number(m.literal("10"))] + ([Asterix] + ([Number(m.literal("10"))] + ([Minus] + ([Number(m.literal("1"))] + [])))))
  {
    LexTenTimesTenMinusOneTightFrom2(m, s);
    ScanLiteral(m, s, 0, 2);
    assert s[0..2] == "10";
    ScanAfter(m, s, 0, 0, Number(m.literal("10")), 2);
  }

  lemma LexTenTimesTenMinusOneTight(m: Maths)
    ensures Tokenize(m, "10*10-1") == Ok([Number(m.literal("10"))] + ([Asterix] + ([Number(m.literal("10"))] + ([Minus] + ([Number(m.literal("1"))] + [])))))
  {
    TenTimesTenMinusOneTightTextChars();
    LexTenTimesTenMinusOneTightFrom0(m, "10*10-1");
  }

  lemma ParseTenTimesTenMinusOneFrom4(one: real, ten: real)
    ensures Run([Number(one)] + [], State([Minus], [Asterix, Number(ten), Number(ten)])) == Ok(State([Minus], [Number(one), Asterix, Number(ten), Number(ten)]))
  {
    assert [Number(one)] + [Asterix, Number(ten), Number(ten)] == [Number(one), Asterix, Number(ten), Number(ten)];
    RunCons(Number(one), [], State([Minus], [Asterix, Number(ten), Number(ten)]), State([Minus], [Number(one), Asterix, Number(ten), Number(ten)]));
  }

  lemma ParseTenTimesTenMinusOneFrom3(one: real, ten: real)
    ensures Run([Minus] + ([Number(one)] + []), State([Asterix], [Number(ten), Number(ten)])) == Ok(State([Minus], [Number(one), Asterix, Number(ten), Number(ten)]))
  {
    ParseTenTimesTenMinusOneFrom4(one, ten);
    OperatorPopsToParen(Minus, [], [Asterix], [Number(ten), Number(ten)]);
    assert [] + [Asterix] == [Asterix];
    assert [] + [Minus] == [Minus];
    assert [Asterix] + [Number(ten), Number(ten)] == [Asterix, Number(ten), Number(ten)];
    RunCons(Minus, [Number(one)] + [], State([Asterix], [Number(ten), Number(ten)]), State([Minus], [Asterix, Number(ten), Number(ten)]));
  }

  lemma ParseTenTimesTenMinusOneFrom2(ten: real, one: real)
    ensures Run([Number(ten)] + ([Minus] + ([Number(one)] + [])), State([Asterix], [Number(ten)])) == Ok(State([Minus], [Number(one), Asterix, Number(ten), Number(ten)]))
  {
    ParseTenTimesTenMinusOneFrom3(one, ten);
    assert [Number(ten)] + [Number(ten)] == [Number(ten), Number(ten)];
    RunCons(Number(ten), [Minus] + ([Number(one)] + []), State([Asterix], [Number(ten)]), State([Asterix], [Number(ten), Number(ten)]));
  }

  lemma ParseTenTimesTenMinusOneFrom1(ten: real, one: real)
    ensures Run([Asterix] + ([Number(ten)] + ([Minus] + ([Number(one)] + []))), State([], [Number(ten)])) == Ok(State([Minus], [Number(one), Asterix, Number(ten), Number(ten)]))
  {
    ParseTenTimesTenMinusOneFrom2(ten, one);
    OperatorPushed(Asterix, [], [Number(ten)]);
    assert [] + [Asterix] == [Asterix];
    RunCons(Asterix, [Number(ten)] + ([Minus] + ([Number(one)] + [])), State([], [Number(ten)]), State([Asterix], [Number(ten)]));
  }

  lemma ParseTenTimesTenMinusOneFrom0(ten: real, one: real)
    ensures Run([Number(ten)] + ([Asterix] + ([Number(ten)] + ([Minus] + ([Number(one)] + [])))), State([], [])) == Ok(State([Minus], [Number(one), Asterix, Number(ten), Number(ten)]))
  {
    ParseTenTimesTenMinusOneFrom1(ten, one);
    assert [Number(ten)] + [] == [Number(ten)];
    RunCons(Number(ten), [Asterix] + ([Number(ten)] + ([Minus] + ([Number(one)] + []))), State([], []), State([], [Number(ten)]));
  }

  lemma ParseTenTimesTenMinusOneShape3(one: real)
    ensures NoRewrites([Minus] + ([Number(one)] + [])) && SignsSeparated([Minus] + ([Number(one)] + []))
  {
    ParseOnePlusOneShape2(one);
    NoRewritesCons(Minus, [Number(one)] + []);
    SignsSeparatedCons(Minus, [Number(one)] + []);
  }

  lemma ParseTenTimesTenMinusOneShape2(ten: real, one: real)
    ensures NoRewrites([Number(ten)] + ([Minus] + ([Number(one)] + []))) && SignsSeparated([Number(ten)] + ([Minus] + ([Number(one)] + [])))
  {
    ParseTenTimesTenMinusOneShape3(one);
    NoRewritesCons(Number(ten), [Minus] + ([Number(one)] + []));
    SignsSeparatedCons(Number(ten), [Minus] + ([Number(one)] + []));
  }

  lemma ParseTenTimesTenMinusOneShape1(ten: real, one: real)
    ensures NoRewrites([Asterix] + ([Number(ten)] + ([Minus] + ([Number(one)] + [])))) && SignsSeparated([Asterix] + ([Number(ten)] + ([Minus] + ([Number(one)] + []))))
  {
    ParseTenTimesTenMinusOneShape2(ten, one);
    NoRewritesCons(Asterix, [Number(ten)] + ([Minus] + ([Number(one)] + [])));
    SignsSeparatedCons(Asterix, [Number(ten)] + ([Minus] + ([Number(one)] + [])));
  }

  lemma ParseTenTimesTenMinusOneShape0(ten: real, one: real)
    ensures NoRewrites([Number(ten)] + ([Asterix] + ([Number(ten)] + ([Minus] + ([Number(one)] + []))))) && SignsSeparated([Number(ten)] + ([Asterix] + ([Number(ten)] + ([Minus] + ([Number(one)] + [])))))
  {
    ParseTenTimesTenMinusOneShape1(ten, one);
    NoRewritesCons(Number(ten), [Asterix] + ([Number(ten)] + ([Minus] + ([Number(one)] + []))));
    SignsSeparatedCons(Number(ten), [Asterix] + ([Number(ten)] + ([Minus] + ([Number(one)] + []))));
  }

  lemma ParseTenTimesTenMinusOne(one: real, ten: real)
    ensures ParseTokens([Number(ten)] + ([Asterix] + ([Number(ten)] + ([Minus] + ([Number(one)] + []))))) == Ok([Minus, Number(one), Asterix, Number(ten), Number(ten)])
  {
    var t := [Number(ten)] + ([Asterix] + ([Number(ten)] + ([Minus] + ([Number(one)] + []))));
    ParseTenTimesTenMinusOneShape0(ten, one);
    InsertParensPlain(t);
    BalanceSeparated(t);
    ParseTenTimesTenMinusOneFrom0(ten, one);
    assert [Minus] + [Number(one), Asterix, Number(ten), Number(ten)] == [Minus, Number(one), Asterix, Number(ten), Number(ten)];
  }

  lemma ExecuteTenTimesTenMinusOneFrom4(m: Maths)
    ensures ExecRun(m, [Minus], [100.0, 1.0]) == Ok([99.0])
  {
    assert [100.0, 1.0][..0] + [99.0] == [99.0];
    assert ExecStep(m, Minus, [100.0, 1.0]) == Ok([99.0]);
    ExecSnoc(m, [], Minus, [100.0, 1.0], [99.0]);
    assert [] + [Minus] == [Minus];
  }

  lemma ExecuteTenTimesTenMinusOneFrom3(m: Maths)
    ensures ExecRun(m, [Minus, Number(1.0)], [100.0]) == Ok([99.0])
  {
    ExecuteTenTimesTenMinusOneFrom4(m);
    assert [100.0] + [1.0] == [100.0, 1.0];
    assert ExecStep(m, Number(1.0), [100.0]) == Ok([100.0, 1.0]);
    ExecSnoc(m, [Minus], Number(1.0), [100.0], [100.0, 1.0]);
    assert [Minus] + [Number(1.0)] == [Minus, Number(1.0)];
  }

  lemma ExecuteTenTimesTenMinusOneFrom2(m: Maths)
    ensures ExecRun(m, [Minus, Number(1.0), Asterix], [10.0, 10.0]) == Ok([99.0])
  {
    ExecuteTenTimesTenMinusOneFrom3(m);
    assert [10.0, 10.0][..0] + [100.0] == [100.0];
    assert ExecStep(m, Asterix, [10.0, 10.0]) == Ok([100.0]);
    ExecSnoc(m, [Minus, Number(1.0)], Asterix, [10.0, 10.0], [100.0]);
    assert [Minus, Number(1.0)] + [Asterix] == [Minus, Number(1.0), Asterix];
  }

  lemma ExecuteTenTimesTenMinusOneFrom1(m: Maths)
    ensures ExecRun(m, [Minus, Number(1.0), Asterix, Number(10.0)], [10.0]) == Ok([99.0])
  {
    ExecuteTenTimesTenMinusOneFrom2(m);
    assert [10.0] + [10.0] == [10.0, 10.0];
    assert ExecStep(m, Number(10.0), [10.0]) == Ok([10.0, 10.0]);
    ExecSnoc(m, [Minus, Number(1.0), Asterix], Number(10.0), [10.0], [10.0, 10.0]);
    assert [Minus, Number(1.0), Asterix] + [Number(10.0)] == [Minus, Number(1.0), Asterix, Number(10.0)];
  }

  lemma ExecuteTenTimesTenMinusOneFrom0(m: Maths)
    ensures ExecRun(m, [Minus, Number(1.0), Asterix, Number(10.0), Number(10.0)], []) == Ok([99.0])
  {
    ExecuteTenTimesTenMinusOneFrom1(m);
    assert [] + [10.0] == [10.0];
    assert ExecStep(m, Number(10.0), []) == Ok([10.0]);
    ExecSnoc(m, [Minus, Number(1.0), Asterix, Number(10.0)], Number(10.0), [], [10.0]);
    assert [Minus, Number(1.0), Asterix, Number(10.0)] + [Number(10.0)] == [Minus, Number(1.0), Asterix, Number(10.0), Number(10.0)];
  }

  lemma ExecuteTenTimesTenMinusOne(m: Maths)
    ensures Evaluate(m, [Minus, Number(1.0), Asterix, Number(10.0), Number(10.0)]) == Ok(99.0)
  {
    ExecuteTenTimesTenMinusOneFrom0(m);
  }

  /** `10 * 10 - 1` and `10*10-1` give `99`. */
  lemma TenTimesTenMinusOne(m: Maths)
    requires m.literal("1") == 1.0 && m.literal("10") == 10.0
    ensures InterpretSpec(m, "10 * 10 - 1") == Ok(99.0)
    ensures InterpretSpec(m, "10*10-1") == Ok(99.0)
  {
    LexTenTimesTenMinusOne(m);
    LexTenTimesTenMinusOneTight(m);
    ParseTenTimesTenMinusOne(1.0, 10.0);
    ExecuteTenTimesTenMinusOne(m);
  }

  // ---------------------------------------------------------------------
  // "10 * (10 + 1)" and "10*(10+1)" (src/lib.rs:22-29, 58-62)
  // ---------------------------------------------------------------------

  /** The characters of `10 * (10 + 1)`. */
  predicate TenTimesElevenText(s: string) {
    |s| == 13 && s[0] == '1' && s[1] == '0' && s[2] == ' ' && s[3] == '*' && s[4] == ' ' && s[5] == '(' && s[6] == '1' && s[7] == '0' && s[8] == ' ' && s[9] == '+' && s[10] == ' ' && s[11] == '1' && s[12] == ')'
  }

  lemma TenTimesElevenTextChars()
    ensures TenTimesElevenText("10 * (10 + 1)")
  {
  }

  lemma LexTenTimesElevenFrom13(m: Maths, s: string)
    requires TenTimesElevenText(s)
    ensures LexFrom(m, s, 13) == Ok([])
  {
    assert Scan(m, s, 13) == Ok(None);
  }

  lemma LexTenTimesElevenFrom12(m: Maths, s: string)
    requires TenTimesElevenText(s)
    ensures LexFrom(m, s, 12) == Ok([CloseParen] + [])
  {
    LexTenTimesElevenFrom13(m, s);
    ScanSymbol(m, s, 12);
    ScanAfter(m, s, 12, 12, CloseParen, 13);
  }

  lemma LexTenTimesElevenFrom10(m: Maths, s: string)
    requires TenTimesElevenText(s)
    ensures LexFrom(m, s, 10) == Ok([Number(m.literal("1"))] + ([CloseParen] + []))
  {
    LexTenTimesElevenFrom12(m, s);
    ScanLiteral(m, s, 11, 12);
    assert s[11..12] == "1";
    ScanAfter(m, s, 10, 11, Number(m.literal("1")), 12);
  }

  lemma LexTenTimesElevenFrom8(m: Maths, s: string)
    requires TenTimesElevenText(s)
    ensures LexFrom(m, s, 8) == Ok([Plus] + ([Number(m.literal("1"))] + ([CloseParen] + [])))
  {
    LexTenTimesElevenFrom10(m, s);
    ScanSymbol(m, s, 9);
    ScanAfter(m, s, 8, 9, Plus, 10);
  }

  lemma LexTenTimesElevenFrom6(m: Maths, s: string)
    requires TenTimesElevenText(s)
    ensures LexFrom(m, s, 6) == Ok([Number(m.literal("10"))] + ([Plus] + ([Number(m.literal("1"))] + ([CloseParen] + []))))
  {
    LexTenTimesElevenFrom8(m, s);
    ScanLiteral(m, s, 6, 8);
    assert s[6..8] == "10";
    ScanAfter(m, s, 6, 6, Number(m.literal("10")), 8);
  }

  lemma LexTenTimesElevenFrom4(m: Maths, s: string)
    requires TenTimesElevenText(s)
    ensures LexFrom(m, s, 4) == Ok([OpenParen] + ([Number(m.literal("10"))] + ([Plus] + ([Number(m.literal("1"))] + ([CloseParen] + [])))))
  {
    LexTenTimesElevenFrom6(m, s);
    ScanSymbol(m, s, 5);
    ScanAfter(m, s, 4, 5, OpenParen, 6);
  }

  lemma LexTenTimesElevenFrom2(m: Maths, s: string)
    requires TenTimesElevenText(s)
    ensures LexFrom(m, s, 2) == Ok([Asterix] + ([OpenParen] + ([Number(m.literal("10"))] + ([Plus] + ([Number(m.literal("1"))] + ([CloseParen] + []))))))
  {
    LexTenTimesElevenFrom4(m, s);
    ScanSymbol(m, s, 3);
    ScanAfter(m, s, 2, 3, Asterix, 4);
  }

  lemma LexTenTimesElevenFrom0(m: Maths, s: string)
    requires TenTimesElevenText(s)
    ensures LexFrom(m, s, 0) == Ok([Number(m.literal("10"))] + ([Asterix] + ([OpenParen] + ([Number(m.literal("10"))] + ([Plus] + ([Number(m.literal("1"))] + ([CloseParen] + [])))))))
  {
    LexTenTimesElevenFrom2(m, s);
    ScanLiteral(m, s, 0, 2);
    assert s[0..2] == "10";
    ScanAfter(m, s, 0, 0, Number(m.literal("10")), 2);
  }

  lemma LexTenTimesEleven(m: Maths)
    ensures Tokenize(m, "10 * (10 + 1)") == Ok([Number(m.literal("10"))] + ([Asterix] + ([OpenParen] + ([Number(m.literal("10"))] + ([Plus] + ([Number(m.literal("1"))] + ([CloseParen] + [])))))))
  {
    TenTimesElevenTextChars();
    LexTenTimesElevenFrom0(m, "10 * (10 + 1)");
  }

  /** The characters of `10*(10+1)`. */
  predicate TenTimesElevenTightText(s: string) {
    |s| == 9 && s[0] == '1' && s[1] == '0' && s[2] == '*' && s[3] == '(' && s[4] == '1' && s[5] == '0' && s[6] == '+' && s[7] == '1' && s[8] == ')'
  }

  lemma TenTimesElevenTightTextChars()
    ensures TenTimesElevenTightText("10*(10+1)")
  {
  }

  lemma LexTenTimesElevenTightFrom9(m: Maths, s: string)
    requires TenTimesElevenTightText(s)
    ensures LexFrom(m, s, 9) == Ok([])
  {
    assert Scan(m, s, 9) == Ok(None);
  }

  lemma LexTenTimesElevenTightFrom8(m: Maths, s: string)
    requires TenTimesElevenTightText(s)
    ensures LexFrom(m, s, 8) == Ok([CloseParen] + [])
  {
    LexTenTimesElevenTightFrom9(m, s);
    ScanSymbol(m, s, 8);
    ScanAfter(m, s, 8, 8, CloseParen, 9);
  }

  lemma LexTenTimesElevenTightFrom7(m: Maths, s: string)
    requires TenTimesElevenTightText(s)
    ensures LexFrom(m, s, 7) == Ok([Number(m.literal("1"))] + ([CloseParen] + []))
  {
    LexTenTimesElevenTightFrom8(m, s);
    ScanLiteral(m, s, 7, 8);
    assert s[7..8] == "1";
    ScanAfter(m, s, 7, 7, Number(m.literal("1")), 8);
  }

  lemma LexTenTimesElevenTightFrom6(m: Maths, s: string)
    requires TenTimesElevenTightText(s)
    ensures LexFrom(m, s, 6) == Ok([Plus] + ([Number(m.literal("1"))] + ([CloseParen] + [])))
  {
    LexTenTimesElevenTightFrom7(m, s);
    ScanSymbol(m, s, 6);
    ScanAfter(m, s, 6, 6, Plus, 7);
  }

  lemma LexTenTimesElevenTightFrom4(m: Maths, s: string)
    requires TenTimesElevenTightText(s)
    ensures LexFrom(m, s, 4) == Ok([Number(m.literal("10"))] + ([Plus] + ([Number(m.literal("1"))] + ([CloseParen] + []))))
  {
    LexTenTimesElevenTightFrom6(m, s);
    ScanLiteral(m, s, 4, 6);
    assert s[4..6] == "10";
    ScanAfter(m, s, 4, 4, Number(m.literal("10")), 6);
  }

  lemma LexTenTimesElevenTightFrom3(m: Maths, s: string)
    requires TenTimesElevenTightText(s)
    ensures LexFrom(m, s, 3) == Ok([OpenParen] + ([Number(m.literal("10"))] + ([Plus] + ([Number(m.literal("1"))] + ([CloseParen] + [])))))
  {
    LexTenTimesElevenTightFrom4(m, s);
    ScanSymbol(m, s, 3);
    ScanAfter(m, s, 3, 3, OpenParen, 4);
  }

  lemma LexTenTimesElevenTightFrom2(m: Maths, s: string)
    requires TenTimesElevenTightText(s)
    ensures LexFrom(m, s, 2) == Ok([Asterix] + ([OpenParen] + ([Number(m.literal("10"))] + ([Plus] + ([Number(m.literal("1"))] + ([CloseParen] + []))))))
  {
    LexTenTimesElevenTightFrom3(m, s);
    ScanSymbol(m, s, 2);
    ScanAfter(m, s, 2, 2, Asterix, 3);
  }

  lemma LexTenTimesElevenTightFrom0(m: Maths, s: string)
    requires TenTimesElevenTightText(s)
    ensures LexFrom(m, s, 0) == Ok([Number(m.literal("10"))] + ([Asterix] + ([OpenParen] + ([Number(m.literal("10"))] + ([Plus] + ([Number(m.literal("1"))] + ([CloseParen] + [])))))))
  {
    LexTenTimesElevenTightFrom2(m, s);
    ScanLiteral(m, s, 0, 2);
    assert s[0..2] == "10";
    ScanAfter(m, s, 0, 0, Number(m.literal("10")), 2);
  }

  lemma LexTenTimesElevenTight(m: Maths)
    ensures Tokenize(m, "10*(10+1)") == Ok([Number(m.literal("10"))] + ([Asterix] + ([OpenParen] + ([Number(m.literal("10"))] + ([Plus] + ([Number(m.literal("1"))] + ([CloseParen] + [])))))))
  {
    TenTimesElevenTightTextChars();
    LexTenTimesElevenTightFrom0(m, "10*(10+1)");
  }

  lemma ParseTenTimesElevenFrom6(one: real, ten: real)
    ensures Run([CloseParen] + [], State([Asterix, OpenParen, Plus], [Number(one), Number(ten), Number(ten)])) == Ok(State([Asterix], [Plus, Number(one), Number(ten), Number(ten)]))
  {
    CloseParenPops([Asterix], [Plus], [Number(one), Number(ten), Number(ten)]);
    assert [Asterix] + [OpenParen] + [Plus] == [Asterix, OpenParen, Plus];
    assert [Plus] + [Number(one), Number(ten), Number(ten)] == [Plus, Number(one), Number(ten), Number(ten)];
    RunCons(CloseParen, [], State([Asterix, OpenParen, Plus], [Number(one), Number(ten), Number(ten)]), State([Asterix], [Plus, Number(one), Number(ten), Number(ten)]));
  }

  lemma ParseTenTimesElevenFrom5(one: real, ten: real)
    ensures Run([Number(one)] + ([CloseParen] + []), State([Asterix, OpenParen, Plus], [Number(ten), Number(ten)])) == Ok(State([Asterix], [Plus, Number(one), Number(ten), Number(ten)]))
  {
    ParseTenTimesElevenFrom6(one, ten);
    assert [Number(one)] + [Number(ten), Number(ten)] == [Number(one), Number(ten), Number(ten)];
    RunCons(Number(one), [CloseParen] + [], State([Asterix, OpenParen, Plus], [Number(ten), Number(ten)]), State([Asterix, OpenParen, Plus], [Number(one), Number(ten), Number(ten)]));
  }

  lemma ParseTenTimesElevenFrom4(one: real, ten: real)
    ensures Run([Plus] + ([Number(one)] + ([CloseParen] + [])), State([Asterix, OpenParen], [Number(ten), Number(ten)])) == Ok(State([Asterix], [Plus, Number(one), Number(ten), Number(ten)]))
  {
    ParseTenTimesElevenFrom5(one, ten);
    OperatorPushed(Plus, [Asterix, OpenParen], [Number(ten), Number(ten)]);
    assert [Asterix, OpenParen] + [Plus] == [Asterix, OpenParen, Plus];
    RunCons(Plus, [Number(one)] + ([CloseParen] + []), State([Asterix, OpenParen], [Number(ten), Number(ten)]), State([Asterix, OpenParen, Plus], [Number(ten), Number(ten)]));
  }

  lemma ParseTenTimesElevenFrom3(ten: real, one: real)
    ensures Run([Number(ten)] + ([Plus] + ([Number(one)] + ([CloseParen] + []))), State([Asterix, OpenParen], [Number(ten)])) == Ok(State([Asterix], [Plus, Number(one), Number(ten), Number(ten)]))
  {
    ParseTenTimesElevenFrom4(one, ten);
    assert [Number(ten)] + [Number(ten)] == [Number(ten), Number(ten)];
    RunCons(Number(ten), [Plus] + ([Number(one)] + ([CloseParen] + [])), State([Asterix, OpenParen], [Number(ten)]), State([Asterix, OpenParen], [Number(ten), Number(ten)]));
  }

  lemma ParseTenTimesElevenFrom2(ten: real, one: real)
    ensures Run([OpenParen] + ([Number(ten)] + ([Plus] + ([Number(one)] + ([CloseParen] + [])))), State([Asterix], [Number(ten)])) == Ok(State([Asterix], [Plus, Number(one), Number(ten), Number(ten)]))
  {
    ParseTenTimesElevenFrom3(ten, one);
    assert [Asterix] + [OpenParen] == [Asterix, OpenParen];
    RunCons(OpenParen, [Number(ten)] + ([Plus] + ([Number(one)] + ([CloseParen] + []))), State([Asterix], [Number(ten)]), State([Asterix, OpenParen], [Number(ten)]));
  }

  lemma ParseTenTimesElevenFrom1(ten: real, one: real)
    ensures Run([Asterix] + ([OpenParen] + ([Number(ten)] + ([Plus] + ([Number(one)] + ([CloseParen] + []))))), State([], [Number(ten)])) == Ok(State([Asterix], [Plus, Number(one), Number(ten), Number(ten)]))
  {
    ParseTenTimesElevenFrom2(ten, one);
    OperatorPushed(Asterix, [], [Number(ten)]);
    assert [] + [Asterix] == [Asterix];
    RunCons(Asterix, [OpenParen] + ([Number(ten)] + ([Plus] + ([Number(one)] + ([CloseParen] + [])))), State([], [Number(ten)]), State([Asterix], [Number(ten)]));
  }

  lemma ParseTenTimesElevenFrom0(ten: real, one: real)
    ensures Run([Number(ten)] + ([Asterix] + ([OpenParen] + ([Number(ten)] + ([Plus] + ([Number(one)] + ([CloseParen] + [])))))), State([], [])) == Ok(State([Asterix], [Plus, Number(one), Number(ten), Number(ten)]))
  {
    ParseTenTimesElevenFrom1(ten, one);
    assert [Number(ten)] + [] == [Number(ten)];
    RunCons(Number(ten), [Asterix] + ([OpenParen] + ([Number(ten)] + ([Plus] + ([Number(one)] + ([CloseParen] + []))))), State([], []), State([], [Number(ten)]));
  }

  lemma ParseTenTimesElevenShape6()
    ensures NoRewrites([CloseParen] + []) && SignsSeparated([CloseParen] + [])
  {
    NoRewritesCons(CloseParen, []);
    SignsSeparatedCons(CloseParen, []);
  }

  lemma ParseTenTimesElevenShape5(one: real)
    ensures NoRewrites([Number(one)] + ([CloseParen] + [])) && SignsSeparated([Number(one)] + ([CloseParen] + []))
  {
    ParseTenTimesElevenShape6();
    NoRewritesCons(Number(one), [CloseParen] + []);
    SignsSeparatedCons(Number(one), [CloseParen] + []);
  }

  lemma ParseTenTimesElevenShape4(one: real)
    ensures NoRewrites([Plus] + ([Number(one)] + ([CloseParen] + []))) && SignsSeparated([Plus] + ([Number(one)] + ([CloseParen] + [])))
  {
    ParseTenTimesElevenShape5(one);
    NoRewritesCons(Plus, [Number(one)] + ([CloseParen] + []));
    SignsSeparatedCons(Plus, [Number(one)] + ([CloseParen] + []));
  }

  lemma ParseTenTimesElevenShape3(ten: real, one: real)
    ensures NoRewrites([Number(ten)] + ([Plus] + ([Number(one)] + ([CloseParen] + [])))) && SignsSeparated([Number(ten)] + ([Plus] + ([Number(one)] + ([CloseParen] + []))))
  {
    ParseTenTimesElevenShape4(one);
    NoRewritesCons(Number(ten), [Plus] + ([Number(one)] + ([CloseParen] + [])));
    SignsSeparatedCons(Number(ten), [Plus] + ([Number(one)] + ([CloseParen] + [])));
  }

  lemma ParseTenTimesElevenShape2(ten: real, one: real)
    ensures NoRewrites([OpenParen] + ([Number(ten)] + ([Plus] + ([Number(one)] + ([CloseParen] + []))))) && SignsSeparated([OpenParen] + ([Number(ten)] + ([Plus] + ([Number(one)] + ([CloseParen] + [])))))
  {
    ParseTenTimesElevenShape3(ten, one);
    NoRewritesCons(OpenParen, [Number(ten)] + ([Plus] + ([Number(one)] + ([CloseParen] + []))));
    SignsSeparatedCons(OpenParen, [Number(ten)] + ([Plus] + ([Number(one)] + ([CloseParen] + []))));
  }

  lemma ParseTenTimesElevenShape1(ten: real, one: real)
    ensures NoRewrites([Asterix] + ([OpenParen] + ([Number(ten)] + ([Plus] + ([Number(one)] + ([CloseParen] + [])))))) && SignsSeparated([Asterix] + ([OpenParen] + ([Number(ten)] + ([Plus] + ([Number(one)] + ([CloseParen] + []))))))
  {
    ParseTenTimesElevenShape2(ten, one);
    NoRewritesCons(Asterix, [OpenParen] + ([Number(ten)] + ([Plus] + ([Number(one)] + ([CloseParen] + [])))));
    SignsSeparatedCons(Asterix, [OpenParen] + ([Number(ten)] + ([Plus] + ([Number(one)] + ([CloseParen] + [])))));
  }

  lemma ParseTenTimesElevenShape0(ten: real, one: real)
    ensures NoRewrites([Number(ten)] + ([Asterix] + ([OpenParen] + ([Number(ten)] + ([Plus] + ([Number(one)] + ([CloseParen] + []))))))) && SignsSeparated([Number(ten)] + ([Asterix] + ([OpenParen] + ([Number(ten)] + ([Plus] + ([Number(one)] + ([CloseParen] + [])))))))
  {
    ParseTenTimesElevenShape1(ten, one);
    NoRewritesCons(Number(ten), [Asterix] + ([OpenParen] + ([Number(ten)] + ([Plus] + ([Number(one)] + ([CloseParen] + []))))));
    SignsSeparatedCons(Number(ten), [Asterix] + ([OpenParen] + ([Number(ten)] + ([Plus] + ([Number(one)] + ([CloseParen] + []))))));
  }

  lemma ParseTenTimesEleven(one: real, ten: real)
    ensures ParseTokens([Number(ten)] + ([Asterix] + ([OpenParen] + ([Number(ten)] + ([Plus] + ([Number(one)] + ([CloseParen] + []))))))) == Ok([Asterix, Plus, Number(one), Number(ten), Number(ten)])
  {
    var t := [Number(ten)] + ([Asterix] + ([OpenParen] + ([Number(ten)] + ([Plus] + ([Number(one)] + ([CloseParen] + []))))));
    ParseTenTimesElevenShape0(ten, one);
    InsertParensPlain(t);
    BalanceSeparated(t);
    ParseTenTimesElevenFrom0(ten, one);
    assert [Asterix] + [Plus, Number(one), Number(ten), Number(ten)] == [Asterix, Plus, Number(one), Number(ten), Number(ten)];
  }

  lemma ExecuteTenTimesElevenFrom4(m: Maths)
    ensures ExecRun(m, [Asterix], [10.0, 11.0]) == Ok([110.0])
  {
    assert [10.0, 11.0][..0] + [110.0] == [110.0];
    assert ExecStep(m, Asterix, [10.0, 11.0]) == Ok([110.0]);
    ExecSnoc(m, [], Asterix, [10.0, 11.0], [110.0]);
    assert [] + [Asterix] == [Asterix];
  }

  lemma ExecuteTenTimesElevenFrom3(m: Maths)
    ensures ExecRun(m, [Asterix, Plus], [10.0, 10.0, 1.0]) == Ok([110.0])
  {
    ExecuteTenTimesElevenFrom4(m);
    assert [10.0, 10.0, 1.0][..1] + [11.0] == [10.0, 11.0];
    assert ExecStep(m, Plus, [10.0, 10.0, 1.0]) == Ok([10.0, 11.0]);
    ExecSnoc(m, [Asterix], Plus, [10.0, 10.0, 1.0], [10.0, 11.0]);
    assert [Asterix] + [Plus] == [Asterix, Plus];
  }

  lemma ExecuteTenTimesElevenFrom2(m: Maths)
    ensures ExecRun(m, [Asterix, Plus, Number(1.0)], [10.0, 10.0]) == Ok([110.0])
  {
    ExecuteTenTimesElevenFrom3(m);
    assert [10.0, 10.0] + [1.0] == [10.0, 10.0, 1.0];
    assert ExecStep(m, Number(1.0), [10.0, 10.0]) == Ok([10.0, 10.0, 1.0]);
    ExecSnoc(m, [Asterix, Plus], Number(1.0), [10.0, 10.0], [10.0, 10.0, 1.0]);
    assert [Asterix, Plus] + [Number(1.0)] == [Asterix, Plus, Number(1.0)];
  }

  lemma ExecuteTenTimesElevenFrom1(m: Maths)
    ensures ExecRun(m, [Asterix, Plus, Number(1.0), Number(10.0)], [10.0]) == Ok([110.0])
  {
    ExecuteTenTimesElevenFrom2(m);
    assert [10.0] + [10.0] == [10.0, 10.0];
    assert ExecStep(m, Number(10.0), [10.0]) == Ok([10.0, 10.0]);
    ExecSnoc(m, [Asterix, Plus, Number(1.0)], Number(10.0), [10.0], [10.0, 10.0]);
    assert [Asterix, Plus, Number(1.0)] + [Number(10.0)] == [Asterix, Plus, Number(1.0), Number(10.0)];
  }

  lemma ExecuteTenTimesElevenFrom0(m: Maths)
    ensures ExecRun(m, [Asterix, Plus, Number(1.0), Number(10.0), Number(10.0)], []) == Ok([110.0])
  {
    ExecuteTenTimesElevenFrom1(m);
    assert [] + [10.0] == [10.0];
    assert ExecStep(m, Number(10.0), []) == Ok([10.0]);
    ExecSnoc(m, [Asterix, Plus, Number(1.0), Number(10.0)], Number(10.0), [], [10.0]);
    assert [Asterix, Plus, Number(1.0), Number(10.0)] + [Number(10.0)] == [Asterix, Plus, Number(1.0), Number(10.0), Number(10.0)];
  }

  lemma ExecuteTenTimesEleven(m: Maths)
    ensures Evaluate(m, [Asterix, Plus, Number(1.0), Number(10.0), Number(10.0)]) == Ok(110.0)
  {
    ExecuteTenTimesElevenFrom0(m);
  }

  /** `10 * (10 + 1)` and `10*(10+1)` give `110`. */
  lemma TenTimesEleven(m: Maths)
    requires m.literal("1") == 1.0 && m.literal("10") == 10.0
    ensures InterpretSpec(m, "10 * (10 + 1)") == Ok(110.0)
    ensures InterpretSpec(m, "10*(10+1)") == Ok(110.0)
  {
    LexTenTimesEleven(m);
    LexTenTimesElevenTight(m);
    ParseTenTimesEleven(1.0, 10.0);
    ExecuteTenTimesEleven(m);
  }

  // ---------------------------------------------------------------------
  // "33 * 10 - (10 / 2 / 2 + 1) * 3 - 1" (src/lib.rs:32-41)
  // ---------------------------------------------------------------------

  /** The characters of `33 * 10 - (10 / 2 / 2 + 1) * 3 - 1`. */
  predicate MixedExpressionText(s: string) {
    |s| == 34 && s[0] == '3' && s[1] == '3' && s[2] == ' ' && s[3] == '*' && s[4] == ' ' && s[5] == '1' && s[6] == '0' && s[7] == ' ' && s[8] == '-' && s[9] == ' ' && s[10] == '(' && s[11] == '1' && s[12] == '0' && s[13] == ' ' && s[14] == '/' && s[15] == ' ' && s[16] == '2' && s[17] == ' ' && s[18] == '/' && s[19] == ' ' && s[20] == '2' && s[21] == ' ' && s[22] == '+' && s[23] == ' ' && s[24] == '1' && s[25] == ')' && s[26] == ' ' && s[27] == '*' && s[28] == ' ' && s[29] == '3' && s[30] == ' ' && s[31] == '-' && s[32] == ' ' && s[33] == '1'
  }

  lemma MixedExpressionTextChars0(s: string)
    requires s == "33 * 10 - (10 / 2 / 2 + 1) * 3 - 1"
    ensures s[0] == '3' && s[1] == '3' && s[2] == ' '
  {
  }

  lemma MixedExpressionTextChars3(s: string)
    requires s == "33 * 10 - (10 / 2 / 2 + 1) * 3 - 1"
    ensures s[3] == '*' && s[4] == ' ' && s[5] == '1' && s[6] == '0'
  {
  }

  lemma MixedExpressionTextChars7(s: string)
    requires s == "33 * 10 - (10 / 2 / 2 + 1) * 3 - 1"
    ensures s[7] == ' ' && s[8] == '-' && s[9] == ' ' && s[10] == '('
  {
  }

  lemma MixedExpressionTextChars11(s: string)
    requires s == "33 * 10 - (10 / 2 / 2 + 1) * 3 - 1"
    ensures s[11] == '1' && s[12] == '0' && s[13] == ' ' && s[14] == '/' && s[15] == ' '
  {
  }

  lemma MixedExpressionTextChars16(s: string)
    requires s == "33 * 10 - (10 / 2 / 2 + 1) * 3 - 1"
    ensures s[16] == '2' && s[17] == ' ' && s[18] == '/' && s[19] == ' ' && s[20] == '2' && s[21] == ' ' && s[22] == '+' && s[23] == ' '
  {
  }

  lemma MixedExpressionTextChars24(s: string)
    requires s == "33 * 10 - (10 / 2 / 2 + 1) * 3 - 1"
    ensures s[24] == '1' && s[25] == ')' && s[26] == ' ' && s[27] == '*' && s[28] == ' ' && s[29] == '3' && s[30] == ' ' && s[31] == '-' && s[32] == ' ' && s[33] == '1'
  {
  }

  lemma MixedExpressionTextChars()
    ensures MixedExpressionText("33 * 10 - (10 / 2 / 2 + 1) * 3 - 1")
  {
    MixedExpressionTextChars0("33 * 10 - (10 / 2 / 2 + 1) * 3 - 1");
    MixedExpressionTextChars3("33 * 10 - (10 / 2 / 2 + 1) * 3 - 1");
    MixedExpressionTextChars7("33 * 10 - (10 / 2 / 2 + 1) * 3 - 1");
    MixedExpressionTextChars11("33 * 10 - (10 / 2 / 2 + 1) * 3 - 1");
    MixedExpressionTextChars16("33 * 10 - (10 / 2 / 2 + 1) * 3 - 1");
    MixedExpressionTextChars24("33 * 10 - (10 / 2 / 2 + 1) * 3 - 1");
  }

  lemma LexMixedExpressionFrom34(m: Maths, s: string)
    requires MixedExpressionText(s)
    ensures LexFrom(m, s, 34) == Ok([])
  {
    assert Scan(m, s, 34) == Ok(None);
  }

  lemma LexMixedExpressionFrom32(m: Maths, s: string)
    requires MixedExpressionText(s)
    ensures LexFrom(m, s, 32) == Ok([Number(m.literal("1"))] + [])
  {
    LexMixedExpressionFrom34(m, s);
    ScanLiteral(m, s, 33, 34);
    assert s[33..34] == "1";
    ScanAfter(m, s, 32, 33, Number(m.literal("1")), 34);
  }

  lemma LexMixedExpressionFrom30(m: Maths, s: string)
    requires MixedExpressionText(s)
    ensures LexFrom(m, s, 30) == Ok([Minus] + ([Number(m.literal("1"))] + []))
  {
    LexMixedExpressionFrom32(m, s);
    ScanSymbol(m, s, 31);
    ScanAfter(m, s, 30, 31, Minus, 32);
  }

  lemma LexMixedExpressionFrom28(m: Maths, s: string)
    requires MixedExpressionText(s)
    ensures LexFrom(m, s, 28) == Ok([Number(m.literal("3"))] + ([Minus] + ([Number(m.literal("1"))] + [])))
  {
    LexMixedExpressionFrom30(m, s);
    ScanLiteral(m, s, 29, 30);
    assert s[29..30] == "3";
    ScanAfter(m, s, 28, 29, Number(m.literal("3")), 30);
  }

  lemma LexMixedExpressionFrom26(m: Maths, s: string)
    requires MixedExpressionText(s)
    ensures LexFrom(m, s, 26) == Ok([Asterix] + ([Number(m.literal("3"))] + ([Minus] + ([Number(m.literal("1"))] + []))))
  {
    LexMixedExpressionFrom28(m, s);
    ScanSymbol(m, s, 27);
    ScanAfter(m, s, 26, 27, Asterix, 28);
  }

  lemma LexMixedExpressionFrom25(m: Maths, s: string)
    requires MixedExpressionText(s)
    ensures LexFrom(m, s, 25) == Ok([CloseParen] + ([Asterix] + ([Number(m.literal("3"))] + ([Minus] + ([Number(m.literal("1"))] + [])))))
  {
    LexMixedExpressionFrom26(m, s);
    ScanSymbol(m, s, 25);
    ScanAfter(m, s, 25, 25, CloseParen, 26);
  }

  lemma LexMixedExpressionFrom23(m: Maths, s: string)
    requires MixedExpressionText(s)
    ensures LexFrom(m, s, 23) == Ok([Number(m.literal("1"))] + ([CloseParen] + ([Asterix] + ([Number(m.literal("3"))] + ([Minus] + ([Number(m.literal("1"))] + []))))))
  {
    LexMixedExpressionFrom25(m, s);
    ScanLiteral(m, s, 24, 25);
    assert s[24..25] == "1";
    ScanAfter(m, s, 23, 24, Number(m.literal("1")), 25);
  }

  lemma LexMixedExpressionFrom21(m: Maths, s: string)
    requires MixedExpressionText(s)
    ensures LexFrom(m, s, 21) == Ok([Plus] + ([Number(m.literal("1"))] + ([CloseParen] + ([Asterix] + ([Number(m.literal("3"))] + ([Minus] + ([Number(m.literal("1"))] + [])))))))
  {
    LexMixedExpressionFrom23(m, s);
    ScanSymbol(m, s, 22);
    ScanAfter(m, s, 21, 22, Plus, 23);
  }

  lemma LexMixedExpressionFrom19(m: Maths, s: string)
    requires MixedExpressionText(s)
    ensures LexFrom(m, s, 19) == Ok([Number(m.literal("2"))] + ([Plus] + ([Number(m.literal("1"))] + ([CloseParen] + ([Asterix] + ([Number(m.literal("3"))] + ([Minus] + ([Number(m.literal("1"))] + []))))))))
  {
    LexMixedExpressionFrom21(m, s);
    ScanLiteral(m, s, 20, 21);
    assert s[20..21] == "2";
    ScanAfter(m, s, 19, 20, Number(m.literal("2")), 21);
  }

  lemma LexMixedExpressionFrom17(m: Maths, s: string)
    requires MixedExpressionText(s)
    ensures LexFrom(m, s, 17) == Ok([Slash] + ([Number(m.literal("2"))] + ([Plus] + ([Number(m.literal("1"))] + ([CloseParen] + ([Asterix] + ([Number(m.literal("3"))] + ([Minus] + ([Number(m.literal("1"))] + [])))))))))
  {
    LexMixedExpressionFrom19(m, s);
    ScanSymbol(m, s, 18);
    ScanAfter(m, s, 17, 18, Slash, 19);
  }

  lemma LexMixedExpressionFrom15(m: Maths, s: string)
    requires MixedExpressionText(s)
    ensures LexFrom(m, s, 15) == Ok([Number(m.literal("2"))] + ([Slash] + ([Number(m.literal("2"))] + ([Plus] + ([Number(m.literal("1"))] + ([CloseParen] + ([Asterix] + ([Number(m.literal("3"))] + ([Minus] + ([Number(m.literal("1"))] + []))))))))))
  {
    LexMixedExpressionFrom17(m, s);
    ScanLiteral(m, s, 16, 17);
    assert s[16..17] == "2";
    ScanAfter(m, s, 15, 16, Number(m.literal("2")), 17);
  }

  lemma LexMixedExpressionFrom13(m: Maths, s: string)
    requires MixedExpressionText(s)
    ensures LexFrom(m, s, 13) == Ok([Slash] + ([Number(m.literal("2"))] + ([Slash] + ([Number(m.literal("2"))] + ([Plus] + ([Number(m.literal("1"))] + ([CloseParen] + ([Asterix] + ([Number(m.literal("3"))] + ([Minus] + ([Number(m.literal("1"))] + [])))))))))))
  {
    LexMixedExpressionFrom15(m, s);
    ScanSymbol(m, s, 14);
    ScanAfter(m, s, 13, 14, Slash, 15);
  }

  lemma LexMixedExpressionFrom11(m: Maths, s: string)
    requires MixedExpressionText(s)
    ensures LexFrom(m, s, 11) == Ok([Number(m.literal("10"))] + ([Slash] + ([Number(m.literal("2"))] + ([Slash] + ([Number(m.literal("2"))] + ([Plus] + ([Number(m.literal("1"))] + ([CloseParen] + ([Asterix] + ([Number(m.literal("3"))] + ([Minus] + ([Number(m.literal("1"))] + []))))))))))))
  {
    LexMixedExpressionFrom13(m, s);
    ScanLiteral(m, s, 11, 13);
    assert s[11..13] == "10";
    ScanAfter(m, s, 11, 11, Number(m.literal("10")), 13);
  }

  lemma LexMixedExpressionFrom9(m: Maths, s: string)
    requires MixedExpressionText(s)
    ensures LexFrom(m, s, 9) == Ok([OpenParen] + ([Number(m.literal("10"))] + ([Slash] + ([Number(m.literal("2"))] + ([Slash] + ([Number(m.literal("2"))] + ([Plus] + ([Number(m.literal("1"))] + ([CloseParen] + ([Asterix] + ([Number(m.literal("3"))] + ([Minus] + ([Number(m.literal("1"))] + [])))))))))))))
  {
    LexMixedExpressionFrom11(m, s);
    ScanSymbol(m, s, 10);
    ScanAfter(m, s, 9, 10, OpenParen, 11);
  }

  lemma LexMixedExpressionFrom7(m: Maths, s: string)
    requires MixedExpressionText(s)
    ensures LexFrom(m, s, 7) == Ok([Minus] + ([OpenParen] + ([Number(m.literal("10"))] + ([Slash] + ([Number(m.literal("2"))] + ([Slash] + ([Number(m.literal("2"))] + ([Plus] + ([Number(m.literal("1"))] + ([CloseParen] + ([Asterix] + ([Number(m.literal("3"))] + ([Minus] + ([Number(m.literal("1"))] + []))))))))))))))
  {
    LexMixedExpressionFrom9(m, s);
    ScanSymbol(m, s, 8);
    ScanAfter(m, s, 7, 8, Minus, 9);
  }

  lemma LexMixedExpressionFrom4(m: Maths, s: string)
    requires MixedExpressionText(s)
    ensures LexFrom(m, s, 4) == Ok([Number(m.literal("10"))] + ([Minus] + ([OpenParen] + ([Number(m.literal("10"))] + ([Slash] + ([Number(m.literal("2"))] + ([Slash] + ([Number(m.literal("2"))] + ([Plus] + ([Number(m.literal("1"))] + ([CloseParen] + ([Asterix] + ([Number(m.literal("3"))] + ([Minus] + ([Number(m.literal("1"))] + [])))))))))))))))
  {
    LexMixedExpressionFrom7(m, s);
    ScanLiteral(m, s, 5, 7);
    assert s[5..7] == "10";
    ScanAfter(m, s, 4, 5, Number(m.literal("10")), 7);
  }

  lemma LexMixedExpressionFrom2(m: Maths, s: string)
    requires MixedExpressionText(s)
    ensures LexFrom(m, s, 2) == Ok([Asterix] + ([Number(m.literal("10"))] + ([Minus] + ([OpenParen] + ([Number(m.literal("10"))] + ([Slash] + ([Number(m.literal("2"))] + ([Slash] + ([Number(m.literal("2"))] + ([Plus] + ([Number(m.literal("1"))] + ([CloseParen] + ([Asterix] + ([Number(m.literal("3"))] + ([Minus] + ([Number(m.literal("1"))] + []))))))))))))))))
  {
    LexMixedExpressionFrom4(m, s);
    ScanSymbol(m, s, 3);
    ScanAfter(m, s, 2, 3, Asterix, 4);
  }

  lemma LexMixedExpressionFrom0(m: Maths, s: string)
    requires MixedExpressionText(s)
    ensures LexFrom(m, s, 0) == Ok([Number(m.literal("33"))] + ([Asterix] + ([Number(m.literal("10"))] + ([Minus] + ([OpenParen] + ([Number(m.literal("10"))] + ([Slash] + ([Number(m.literal("2"))] + ([Slash] + ([Number(m.literal("2"))] + ([Plus] + ([Number(m.literal("1"))] + ([CloseParen] + ([Asterix] + ([Number(m.literal("3"))] + ([Minus] + ([Number(m.literal("1"))] + [])))))))))))))))))
  {
    LexMixedExpressionFrom2(m, s);
    ScanLiteral(m, s, 0, 2);
    assert s[0..2] == "33";
    ScanAfter(m, s, 0, 0, Number(m.literal("33")), 2);
  }

  lemma LexMixedExpression(m: Maths)
    ensures Tokenize(m, "33 * 10 - (10 / 2 / 2 + 1) * 3 - 1") == Ok([Number(m.literal("33"))] + ([Asterix] + ([Number(m.literal("10"))] + ([Minus] + ([OpenParen] + ([Number(m.literal("10"))] + ([Slash] + ([Number(m.literal("2"))] + ([Slash] + ([Number(m.literal("2"))] + ([Plus] + ([Number(m.literal("1"))] + ([CloseParen] + ([Asterix] + ([Number(m.literal("3"))] + ([Minus] + ([Number(m.literal("1"))] + [])))))))))))))))))
  {
    MixedExpressionTextChars();
    LexMixedExpressionFrom0(m, "33 * 10 - (10 / 2 / 2 + 1) * 3 - 1");
  }

  lemma ParseMixedExpressionFrom16(one: real, three: real, two: real, ten: real, thirtyThree: real)
    ensures Run([Number(one)] + [], State([Minus], [Minus, Asterix, Number(three), Plus, Number(one), Slash, Number(two), Slash, Number(two), Number(ten), Asterix, Number(ten), Number(thirtyThree)])) == Ok(State([Minus], [Number(one), Minus, Asterix, Number(three), Plus, Number(one), Slash, Number(two), Slash, Number(two), Number(ten), Asterix, Number(ten), Number(thirtyThree)]))
  {
    assert [Number(one)] + [Minus, Asterix, Number(three), Plus, Number(one), Slash, Number(two), Slash, Number(two), Number(ten), Asterix, Number(ten), Number(thirtyThree)] == [Number(one), Minus, Asterix, Number(three), Plus, Number(one), Slash, Number(two), Slash, Number(two), Number(ten), Asterix, Number(ten), Number(thirtyThree)];
    RunCons(Number(one), [], State([Minus], [Minus, Asterix, Number(three), Plus, Number(one), Slash, Number(two), Slash, Number(two), Number(ten), Asterix, Number(ten), Number(thirtyThree)]), State([Minus], [Number(one), Minus, Asterix, Number(three), Plus, Number(one), Slash, Number(two), Slash, Number(two), Number(ten), Asterix, Number(ten), Number(thirtyThree)]));
  }

  lemma ParseMixedExpressionFrom15(one: real, three: real, two: real, ten: real, thirtyThree: real)
    ensures Run([Minus] + ([Number(one)] + []), State([Minus, Asterix], [Number(three), Plus, Number(one), Slash, Number(two), Slash, Number(two), Number(ten), Asterix, Number(ten), Number(thirtyThree)])) == Ok(State([Minus], [Number(one), Minus, Asterix, Number(three), Plus, Number(one), Slash, Number(two), Slash, Number(two), Number(ten), Asterix, Number(ten), Number(thirtyThree)]))
  {
    ParseMixedExpressionFrom16(one, three, two, ten, thirtyThree);
    OperatorPopsToParen(Minus, [], [Minus, Asterix], [Number(three), Plus, Number(one), Slash, Number(two), Slash, Number(two), Number(ten), Asterix, Number(ten), Number(thirtyThree)]);
    assert [] + [Minus, Asterix] == [Minus, Asterix];
    assert [] + [Minus] == [Minus];
    assert [Minus, Asterix] + [Number(three), Plus, Number(one), Slash, Number(two), Slash, Number(two), Number(ten), Asterix, Number(ten), Number(thirtyThree)] == [Minus, Asterix, Number(three), Plus, Number(one), Slash, Number(two), Slash, Number(two), Number(ten), Asterix, Number(ten), Number(thirtyThree)];
    RunCons(Minus, [Number(one)] + [], State([Minus, Asterix], [Number(three), Plus, Number(one), Slash, Number(two), Slash, Number(two), Number(ten), Asterix, Number(ten), Number(thirtyThree)]), State([Minus], [Minus, Asterix, Number(three), Plus, Number(one), Slash, Number(two), Slash, Number(two), Number(ten), Asterix, Number(ten), Number(thirtyThree)]));
  }

  lemma ParseMixedExpressionFrom14(three: real, one: real, two: real, ten: real, thirtyThree: real)
    ensures Run([Number(three)] + ([Minus] + ([Number(one)] + [])), State([Minus, Asterix], [Plus, Number(one), Slash, Number(two), Slash, Number(two), Number(ten), Asterix, Number(ten), Number(thirtyThree)])) == Ok(State([Minus], [Number(one), Minus, Asterix, Number(three), Plus, Number(one), Slash, Number(two), Slash, Number(two), Number(ten), Asterix, Number(ten), Number(thirtyThree)]))
  {
    ParseMixedExpressionFrom15(one, three, two, ten, thirtyThree);
    assert [Number(three)] + [Plus, Number(one), Slash, Number(two), Slash, Number(two), Number(ten), Asterix, Number(ten), Number(thirtyThree)] == [Number(three), Plus, Number(one), Slash, Number(two), Slash, Number(two), Number(ten), Asterix, Number(ten), Number(thirtyThree)];
    RunCons(Number(three), [Minus] + ([Number(one)] + []), State([Minus, Asterix], [Plus, Number(one), Slash, Number(two), Slash, Number(two), Number(ten), Asterix, Number(ten), Number(thirtyThree)]), State([Minus, Asterix], [Number(three), Plus, Number(one), Slash, Number(two), Slash, Number(two), Number(ten), Asterix, Number(ten), Number(thirtyThree)]));
  }

  lemma ParseMixedExpressionFrom13(three: real, one: real, two: real, ten: real, thirtyThree: real)
    ensures Run([Asterix] + ([Number(three)] + ([Minus] + ([Number(one)] + []))), State([Minus], [Plus, Number(one), Slash, Number(two), Slash, Number(two), Number(ten), Asterix, Number(ten), Number(thirtyThree)])) == Ok(State([Minus], [Number(one), Minus, Asterix, Number(three), Plus, Number(one), Slash, Number(two), Slash, Number(two), Number(ten), Asterix, Number(ten), Number(thirtyThree)]))
  {
    ParseMixedExpressionFrom14(three, one, two, ten, thirtyThree);
    OperatorPushed(Asterix, [Minus], [Plus, Number(one), Slash, Number(two), Slash, Number(two), Number(ten), Asterix, Number(ten), Number(thirtyThree)]);
    assert [Minus] + [Asterix] == [Minus, Asterix];
    RunCons(Asterix, [Number(three)] + ([Minus] + ([Number(one)] + [])), State([Minus], [Plus, Number(one), Slash, Number(two), Slash, Number(two), Number(ten), Asterix, Number(ten), Number(thirtyThree)]), State([Minus, Asterix], [Plus, Number(one), Slash, Number(two), Slash, Number(two), Number(ten), Asterix, Number(ten), Number(thirtyThree)]));
  }

  lemma ParseMixedExpressionFrom12(three: real, one: real, two: real, ten: real, thirtyThree: real)
    ensures Run([CloseParen] + ([Asterix] + ([Number(three)] + ([Minus] + ([Number(one)] + [])))), State([Minus, OpenParen, Plus], [Number(one), Slash, Number(two), Slash, Number(two), Number(ten), Asterix, Number(ten), Number(thirtyThree)])) == Ok(State([Minus], [Number(one), Minus, Asterix, Number(three), Plus, Number(one), Slash, Number(two), Slash, Number(two), Number(ten), Asterix, Number(ten), Number(thirtyThree)]))
  {
    ParseMixedExpressionFrom13(three, one, two, ten, thirtyThree);
    CloseParenPops([Minus], [Plus], [Number(one), Slash, Number(two), Slash, Number(two), Number(ten), Asterix, Number(ten), Number(thirtyThree)]);
    assert [Minus] + [OpenParen] + [Plus] == [Minus, OpenParen, Plus];
    assert [Plus] + [Number(one), Slash, Number(two), Slash, Number(two), Number(ten), Asterix, Number(ten), Number(thirtyThree)] == [Plus, Number(one), Slash, Number(two), Slash, Number(two), Number(ten), Asterix, Number(ten), Number(thirtyThree)];
    RunCons(CloseParen, [Asterix] + ([Number(three)] + ([Minus] + ([Number(one)] + []))), State([Minus, OpenParen, Plus], [Number(one), Slash, Number(two), Slash, Number(two), Number(ten), Asterix, Number(ten), Number(thirtyThree)]), State([Minus], [Plus, Number(one), Slash, Number(two), Slash, Number(two), Number(ten), Asterix, Number(ten), Number(thirtyThree)]));
  }

  lemma ParseMixedExpressionFrom11(one: real, three: real, two: real, ten: real, thirtyThree: real)
    ensures Run([Number(one)] + ([CloseParen] + ([Asterix] + ([Number(three)] + ([Minus] + ([Number(one)] + []))))), State([Minus, OpenParen, Plus], [Slash, Number(two), Slash, Number(two), Number(ten), Asterix, Number(ten), Number(thirtyThree)])) == Ok(State([Minus], [Number(one), Minus, Asterix, Number(three), Plus, Number(one), Slash, Number(two), Slash, Number(two), Number(ten), Asterix, Number(ten), Number(thirtyThree)]))
  {
    ParseMixedExpressionFrom12(three, one, two, ten, thirtyThree);
    assert [Number(one)] + [Slash, Number(two), Slash, Number(two), Number(ten), Asterix, Number(ten), Number(thirtyThree)] == [Number(one), Slash, Number(two), Slash, Number(two), Number(ten), Asterix, Number(ten), Number(thirtyThree)];
    RunCons(Number(one), [CloseParen] + ([Asterix] + ([Number(three)] + ([Minus] + ([Number(one)] + [])))), State([Minus, OpenParen, Plus], [Slash, Number(two), Slash, Number(two), Number(ten), Asterix, Number(ten), Number(thirtyThree)]), State([Minus, OpenParen, Plus], [Number(one), Slash, Number(two), Slash, Number(two), Number(ten), Asterix, Number(ten), Number(thirtyThree)]));
  }

  lemma ParseMixedExpressionFrom10(one: real, three: real, two: real, ten: real, thirtyThree: real)
    ensures Run([Plus] + ([Number(one)] + ([CloseParen] + ([Asterix] + ([Number(three)] + ([Minus] + ([Number(one)] + [])))))), State([Minus, OpenParen, Slash], [Number(two), Slash, Number(two), Number(ten), Asterix, Number(ten), Number(thirtyThree)])) == Ok(State([Minus], [Number(one), Minus, Asterix, Number(three), Plus, Number(one), Slash, Number(two), Slash, Number(two), Number(ten), Asterix, Number(ten), Number(thirtyThree)]))
  {
    ParseMixedExpressionFrom11(one, three, two, ten, thirtyThree);
    OperatorPopsToParen(Plus, [Minus, OpenParen], [Slash], [Number(two), Slash, Number(two), Number(ten), Asterix, Number(ten), Number(thirtyThree)]);
    assert [Minus, OpenParen] + [Slash] == [Minus, OpenParen, Slash];
    assert [Minus, OpenParen] + [Plus] == [Minus, OpenParen, Plus];
    assert [Slash] + [Number(two), Slash, Number(two), Number(ten), Asterix, Number(ten), Number(thirtyThree)] == [Slash, Number(two), Slash, Number(two), Number(ten), Asterix, Number(ten), Number(thirtyThree)];
    RunCons(Plus, [Number(one)] + ([CloseParen] + ([Asterix] + ([Number(three)] + ([Minus] + ([Number(one)] + []))))), State([Minus, OpenParen, Slash], [Number(two), Slash, Number(two), Number(ten), Asterix, Number(ten), Number(thirtyThree)]), State([Minus, OpenParen, Plus], [Slash, Number(two), Slash, Number(two), Number(ten), Asterix, Number(ten), Number(thirtyThree)]));
  }

  lemma ParseMixedExpressionFrom9(two: real, one: real, three: real, ten: real, thirtyThree: real)
    ensures Run([Number(two)] + ([Plus] + ([Number(one)] + ([CloseParen] + ([Asterix] + ([Number(three)] + ([Minus] + ([Number(one)] + []))))))), State([Minus, OpenParen, Slash], [Slash, Number(two), Number(ten), Asterix, Number(ten), Number(thirtyThree)])) == Ok(State([Minus], [Number(one), Minus, Asterix, Number(three), Plus, Number(one), Slash, Number(two), Slash, Number(two), Number(ten), Asterix, Number(ten), Number(thirtyThree)]))
  {
    ParseMixedExpressionFrom10(one, three, two, ten, thirtyThree);
    assert [Number(two)] + [Slash, Number(two), Number(ten), Asterix, Number(ten), Number(thirtyThree)] == [Number(two), Slash, Number(two), Number(ten), Asterix, Number(ten), Number(thirtyThree)];
    RunCons(Number(two), [Plus] + ([Number(one)] + ([CloseParen] + ([Asterix] + ([Number(three)] + ([Minus] + ([Number(one)] + [])))))), State([Minus, OpenParen, Slash], [Slash, Number(two), Number(ten), Asterix, Number(ten), Number(thirtyThree)]), State([Minus, OpenParen, Slash], [Number(two), Slash, Number(two), Number(ten), Asterix, Number(ten), Number(thirtyThree)]));
  }

  lemma ParseMixedExpressionFrom8(two: real, one: real, three: real, ten: real, thirtyThree: real)
    ensures Run([Slash] + ([Number(two)] + ([Plus] + ([Number(one)] + ([CloseParen] + ([Asterix] + ([Number(three)] + ([Minus] + ([Number(one)] + [])))))))), State([Minus, OpenParen, Slash], [Number(two), Number(ten), Asterix, Number(ten), Number(thirtyThree)])) == Ok(State([Minus], [Number(one), Minus, Asterix, Number(three), Plus, Number(one), Slash, Number(two), Slash, Number(two), Number(ten), Asterix, Number(ten), Number(thirtyThree)]))
  {
    ParseMixedExpressionFrom9(two, one, three, ten, thirtyThree);
    OperatorPopsToParen(Slash, [Minus, OpenParen], [Slash], [Number(two), Number(ten), Asterix, Number(ten), Number(thirtyThree)]);
    assert [Minus, OpenParen] + [Slash] == [Minus, OpenParen, Slash];
    assert [Minus, OpenParen] + [Slash] == [Minus, OpenParen, Slash];
    assert [Slash] + [Number(two), Number(ten), Asterix, Number(ten), Number(thirtyThree)] == [Slash, Number(two), Number(ten), Asterix, Number(ten), Number(thirtyThree)];
    RunCons(Slash, [Number(two)] + ([Plus] + ([Number(one)] + ([CloseParen] + ([Asterix] + ([Number(three)] + ([Minus] + ([Number(one)] + []))))))), State([Minus, OpenParen, Slash], [Number(two), Number(ten), Asterix, Number(ten), Number(thirtyThree)]), State([Minus, OpenParen, Slash], [Slash, Number(two), Number(ten), Asterix, Number(ten), Number(thirtyThree)]));
  }

  lemma ParseMixedExpressionFrom7(two: real, one: real, three: real, ten: real, thirtyThree: real)
    ensures Run([Number(two)] + ([Slash] + ([Number(two)] + ([Plus] + ([Number(one)] + ([CloseParen] + ([Asterix] + ([Number(three)] + ([Minus] + ([Number(one)] + []))))))))), State([Minus, OpenParen, Slash], [Number(ten), Asterix, Number(ten), Number(thirtyThree)])) == Ok(State([Minus], [Number(one), Minus, Asterix, Number(three), Plus, Number(one), Slash, Number(two), Slash, Number(two), Number(ten), Asterix, Number(ten), Number(thirtyThree)]))
  {
    ParseMixedExpressionFrom8(two, one, three, ten, thirtyThree);
    assert [Number(two)] + [Number(ten), Asterix, Number(ten), Number(thirtyThree)] == [Number(two), Number(ten), Asterix, Number(ten), Number(thirtyThree)];
    RunCons(Number(two), [Slash] + ([Number(two)] + ([Plus] + ([Number(one)] + ([CloseParen] + ([Asterix] + ([Number(three)] + ([Minus] + ([Number(one)] + [])))))))), State([Minus, OpenParen, Slash], [Number(ten), Asterix, Number(ten), Number(thirtyThree)]), State([Minus, OpenParen, Slash], [Number(two), Number(ten), Asterix, Number(ten), Number(thirtyThree)]));
  }

  lemma ParseMixedExpressionFrom6(two: real, one: real, three: real, ten: real, thirtyThree: real)
    ensures Run([Slash] + ([Number(two)] + ([Slash] + ([Number(two)] + ([Plus] + ([Number(one)] + ([CloseParen] + ([Asterix] + ([Number(three)] + ([Minus] + ([Number(one)] + [])))))))))), State([Minus, OpenParen], [Number(ten), Asterix, Number(ten), Number(thirtyThree)])) == Ok(State([Minus], [Number(one), Minus, Asterix, Number(three), Plus, Number(one), Slash, Number(two), Slash, Number(two), Number(ten), Asterix, Number(ten), Number(thirtyThree)]))
  {
    ParseMixedExpressionFrom7(two, one, three, ten, thirtyThree);
    OperatorPushed(Slash, [Minus, OpenParen], [Number(ten), Asterix, Number(ten), Number(thirtyThree)]);
    assert [Minus, OpenParen] + [Slash] == [Minus, OpenParen, Slash];
    RunCons(Slash, [Number(two)] + ([Slash] + ([Number(two)] + ([Plus] + ([Number(one)] + ([CloseParen] + ([Asterix] + ([Number(three)] + ([Minus] + ([Number(one)] + []))))))))), State([Minus, OpenParen], [Number(ten), Asterix, Number(ten), Number(thirtyThree)]), State([Minus, OpenParen, Slash], [Number(ten), Asterix, Number(ten), Number(thirtyThree)]));
  }

  lemma ParseMixedExpressionFrom5(ten: real, two: real, one: real, three: real, thirtyThree: real)
    ensures Run([Number(ten)] + ([Slash] + ([Number(two)] + ([Slash] + ([Number(two)] + ([Plus] + ([Number(one)] + ([CloseParen] + ([Asterix] + ([Number(three)] + ([Minus] + ([Number(one)] + []))))))))))), State([Minus, OpenParen], [Asterix, Number(ten), Number(thirtyThree)])) == Ok(State([Minus], [Number(one), Minus, Asterix, Number(three), Plus, Number(one), Slash, Number(two), Slash, Number(two), Number(ten), Asterix, Number(ten), Number(thirtyThree)]))
  {
    ParseMixedExpressionFrom6(two, one, three, ten, thirtyThree);
    assert [Number(ten)] + [Asterix, Number(ten), Number(thirtyThree)] == [Number(ten), Asterix, Number(ten), Number(thirtyThree)];
    RunCons(Number(ten), [Slash] + ([Number(two)] + ([Slash] + ([Number(two)] + ([Plus] + ([Number(one)] + ([CloseParen] + ([Asterix] + ([Number(three)] + ([Minus] + ([Number(one)] + [])))))))))), State([Minus, OpenParen], [Asterix, Number(ten), Number(thirtyThree)]), State([Minus, OpenParen], [Number(ten), Asterix, Number(ten), Number(thirtyThree)]));
  }

  lemma ParseMixedExpressionFrom4(ten: real, two: real, one: real, three: real, thirtyThree: real)
    ensures Run([OpenParen] + ([Number(ten)] + ([Slash] + ([Number(two)] + ([Slash] + ([Number(two)] + ([Plus] + ([Number(one)] + ([CloseParen] + ([Asterix] + ([Number(three)] + ([Minus] + ([Number(one)] + [])))))))))))), State([Minus], [Asterix, Number(ten), Number(thirtyThree)])) == Ok(State([Minus], [Number(one), Minus, Asterix, Number(three), Plus, Number(one), Slash, Number(two), Slash, Number(two), Number(ten), Asterix, Number(ten), Number(thirtyThree)]))
  {
    ParseMixedExpressionFrom5(ten, two, one, three, thirtyThree);
    assert [Minus] + [OpenParen] == [Minus, OpenParen];
    RunCons(OpenParen, [Number(ten)] + ([Slash] + ([Number(two)] + ([Slash] + ([Number(two)] + ([Plus] + ([Number(one)] + ([CloseParen] + ([Asterix] + ([Number(three)] + ([Minus] + ([Number(one)] + []))))))))))), State([Minus], [Asterix, Number(ten), Number(thirtyThree)]), State([Minus, OpenParen], [Asterix, Number(ten), Number(thirtyThree)]));
  }

  lemma ParseMixedExpressionFrom3(ten: real, two: real, one: real, three: real, thirtyThree: real)
    ensures Run([Minus] + ([OpenParen] + ([Number(ten)] + ([Slash] + ([Number(two)] + ([Slash] + ([Number(two)] + ([Plus] + ([Number(one)] + ([CloseParen] + ([Asterix] + ([Number(three)] + ([Minus] + ([Number(one)] + []))))))))))))), State([Asterix], [Number(ten), Number(thirtyThree)])) == Ok(State([Minus], [Number(one), Minus, Asterix, Number(three), Plus, Number(one), Slash, Number(two), Slash, Number(two), Number(ten), Asterix, Number(ten), Number(thirtyThree)]))
  {
    ParseMixedExpressionFrom4(ten, two, one, three, thirtyThree);
    OperatorPopsToParen(Minus, [], [Asterix], [Number(ten), Number(thirtyThree)]);
    assert [] + [Asterix] == [Asterix];
    assert [] + [Minus] == [Minus];
    assert [Asterix] + [Number(ten), Number(thirtyThree)] == [Asterix, Number(ten), Number(thirtyThree)];
    RunCons(Minus, [OpenParen] + ([Number(ten)] + ([Slash] + ([Number(two)] + ([Slash] + ([Number(two)] + ([Plus] + ([Number(one)] + ([CloseParen] + ([Asterix] + ([Number(three)] + ([Minus] + ([Number(one)] + [])))))))))))), State([Asterix], [Number(ten), Number(thirtyThree)]), State([Minus], [Asterix, Number(ten), Number(thirtyThree)]));
  }

  lemma ParseMixedExpressionFrom2(ten: real, two: real, one: real, three: real, thirtyThree: real)
    ensures Run([Number(ten)] + ([Minus] + ([OpenParen] + ([Number(ten)] + ([Slash] + ([Number(two)] + ([Slash] + ([Number(two)] + ([Plus] + ([Number(one)] + ([CloseParen] + ([Asterix] + ([Number(three)] + ([Minus] + ([Number(one)] + [])))))))))))))), State([Asterix], [Number(thirtyThree)])) == Ok(State([Minus], [Number(one), Minus, Asterix, Number(three), Plus, Number(one), Slash, Number(two), Slash, Number(two), Number(ten), Asterix, Number(ten), Number(thirtyThree)]))
  {
    ParseMixedExpressionFrom3(ten, two, one, three, thirtyThree);
    assert [Number(ten)] + [Number(thirtyThree)] == [Number(ten), Number(thirtyThree)];
    RunCons(Number(ten), [Minus] + ([OpenParen] + ([Number(ten)] + ([Slash] + ([Number(two)] + ([Slash] + ([Number(two)] + ([Plus] + ([Number(one)] + ([CloseParen] + ([Asterix] + ([Number(three)] + ([Minus] + ([Number(one)] + []))))))))))))), State([Asterix], [Number(thirtyThree)]), State([Asterix], [Number(ten), Number(thirtyThree)]));
  }

  lemma ParseMixedExpressionFrom1(ten: real, two: real, one: real, three: real, thirtyThree: real)
    ensures Run([Asterix] + ([Number(ten)] + ([Minus] + ([OpenParen] + ([Number(ten)] + ([Slash] + ([Number(two)] + ([Slash] + ([Number(two)] + ([Plus] + ([Number(one)] + ([CloseParen] + ([Asterix] + ([Number(three)] + ([Minus] + ([Number(one)] + []))))))))))))))), State([], [Number(thirtyThree)])) == Ok(State([Minus], [Number(one), Minus, Asterix, Number(three), Plus, Number(one), Slash, Number(two), Slash, Number(two), Number(ten), Asterix, Number(ten), Number(thirtyThree)]))
  {
    ParseMixedExpressionFrom2(ten, two, one, three, thirtyThree);
    OperatorPushed(Asterix, [], [Number(thirtyThree)]);
    assert [] + [Asterix] == [Asterix];
    RunCons(Asterix, [Number(ten)] + ([Minus] + ([OpenParen] + ([Number(ten)] + ([Slash] + ([Number(two)] + ([Slash] + ([Number(two)] + ([Plus] + ([Number(one)] + ([CloseParen] + ([Asterix] + ([Number(three)] + ([Minus] + ([Number(one)] + [])))))))))))))), State([], [Number(thirtyThree)]), State([Asterix], [Number(thirtyThree)]));
  }

  lemma ParseMixedExpressionFrom0(thirtyThree: real, ten: real, two: real, one: real, three: real)
    ensures Run([Number(thirtyThree)] + ([Asterix] + ([Number(ten)] + ([Minus] + ([OpenParen] + ([Number(ten)] + ([Slash] + ([Number(two)] + ([Slash] + ([Number(two)] + ([Plus] + ([Number(one)] + ([CloseParen] + ([Asterix] + ([Number(three)] + ([Minus] + ([Number(one)] + [])))))))))))))))), State([], [])) == Ok(State([Minus], [Number(one), Minus, Asterix, Number(three), Plus, Number(one), Slash, Number(two), Slash, Number(two), Number(ten), Asterix, Number(ten), Number(thirtyThree)]))
  {
    ParseMixedExpressionFrom1(ten, two, one, three, thirtyThree);
    assert [Number(thirtyThree)] + [] == [Number(thirtyThree)];
    RunCons(Number(thirtyThree), [Asterix] + ([Number(ten)] + ([Minus] + ([OpenParen] + ([Number(ten)] + ([Slash] + ([Number(two)] + ([Slash] + ([Number(two)] + ([Plus] + ([Number(one)] + ([CloseParen] + ([Asterix] + ([Number(three)] + ([Minus] + ([Number(one)] + []))))))))))))))), State([], []), State([], [Number(thirtyThree)]));
  }

  lemma ParseMixedExpressionShape12(three: real, one: real)
    ensures NoRewrites([CloseParen] + ([Asterix] + ([Number(three)] + ([Minus] + ([Number(one)] + []))))) && SignsSeparated([CloseParen] + ([Asterix] + ([Number(three)] + ([Minus] + ([Number(one)] + [])))))
  {
    ParseTenTimesTenMinusOneShape1(three, one);
    NoRewritesCons(CloseParen, [Asterix] + ([Number(three)] + ([Minus] + ([Number(one)] + []))));
    SignsSeparatedCons(CloseParen, [Asterix] + ([Number(three)] + ([Minus] + ([Number(one)] + []))));
  }

  lemma ParseMixedExpressionShape11(one: real, three: real)
    ensures NoRewrites([Number(one)] + ([CloseParen] + ([Asterix] + ([Number(three)] + ([Minus] + ([Number(one)] + [])))))) && SignsSeparated([Number(one)] + ([CloseParen] + ([Asterix] + ([Number(three)] + ([Minus] + ([Number(one)] + []))))))
  {
    ParseMixedExpressionShape12(three, one);
    NoRewritesCons(Number(one), [CloseParen] + ([Asterix] + ([Number(three)] + ([Minus] + ([Number(one)] + [])))));
    SignsSeparatedCons(Number(one), [CloseParen] + ([Asterix] + ([Number(three)] + ([Minus] + ([Number(one)] + [])))));
  }

  lemma ParseMixedExpressionShape10(one: real, three: real)
    ensures NoRewrites([Plus] + ([Number(one)] + ([CloseParen] + ([Asterix] + ([Number(three)] + ([Minus] + ([Number(one)] + []))))))) && SignsSeparated([Plus] + ([Number(one)] + ([CloseParen] + ([Asterix] + ([Number(three)] + ([Minus] + ([Number(one)] + [])))))))
  {
    ParseMixedExpressionShape11(one, three);
    NoRewritesCons(Plus, [Number(one)] + ([CloseParen] + ([Asterix] + ([Number(three)] + ([Minus] + ([Number(one)] + []))))));
    SignsSeparatedCons(Plus, [Number(one)] + ([CloseParen] + ([Asterix] + ([Number(three)] + ([Minus] + ([Number(one)] + []))))));
  }

  lemma ParseMixedExpressionShape9(two: real, one: real, three: real)
    ensures NoRewrites([Number(two)] + ([Plus] + ([Number(one)] + ([CloseParen] + ([Asterix] + ([Number(three)] + ([Minus] + ([Number(one)] + [])))))))) && SignsSeparated([Number(two)] + ([Plus] + ([Number(one)] + ([CloseParen] + ([Asterix] + ([Number(three)] + ([Minus] + ([Number(one)] + []))))))))
  {
    ParseMixedExpressionShape10(one, three);
    NoRewritesCons(Number(two), [Plus] + ([Number(one)] + ([CloseParen] + ([Asterix] + ([Number(three)] + ([Minus] + ([Number(one)] + [])))))));
    SignsSeparatedCons(Number(two), [Plus] + ([Number(one)] + ([CloseParen] + ([Asterix] + ([Number(three)] + ([Minus] + ([Number(one)] + [])))))));
  }

  lemma ParseMixedExpressionShape8(two: real, one: real, three: real)
    ensures NoRewrites([Slash] + ([Number(two)] + ([Plus] + ([Number(one)] + ([CloseParen] + ([Asterix] + ([Number(three)] + ([Minus] + ([Number(one)] + []))))))))) && SignsSeparated([Slash] + ([Number(two)] + ([Plus] + ([Number(one)] + ([CloseParen] + ([Asterix] + ([Number(three)] + ([Minus] + ([Number(one)] + [])))))))))
  {
    ParseMixedExpressionShape9(two, one, three);
    NoRewritesCons(Slash, [Number(two)] + ([Plus] + ([Number(one)] + ([CloseParen] + ([Asterix] + ([Number(three)] + ([Minus] + ([Number(one)] + []))))))));
    SignsSeparatedCons(Slash, [Number(two)] + ([Plus] + ([Number(one)] + ([CloseParen] + ([Asterix] + ([Number(three)] + ([Minus] + ([Number(one)] + []))))))));
  }

  lemma ParseMixedExpressionShape7(two: real, one: real, three: real)
    ensures NoRewrites([Number(two)] + ([Slash] + ([Number(two)] + ([Plus] + ([Number(one)] + ([CloseParen] + ([Asterix] + ([Number(three)] + ([Minus] + ([Number(one)] + [])))))))))) && SignsSeparated([Number(two)] + ([Slash] + ([Number(two)] + ([Plus] + ([Number(one)] + ([CloseParen] + ([Asterix] + ([Number(three)] + ([Minus] + ([Number(one)] + []))))))))))
  {
    ParseMixedExpressionShape8(two, one, three);
    NoRewritesCons(Number(two), [Slash] + ([Number(two)] + ([Plus] + ([Number(one)] + ([CloseParen] + ([Asterix] + ([Number(three)] + ([Minus] + ([Number(one)] + [])))))))));
    SignsSeparatedCons(Number(two), [Slash] + ([Number(two)] + ([Plus] + ([Number(one)] + ([CloseParen] + ([Asterix] + ([Number(three)] + ([Minus] + ([Number(one)] + [])))))))));
  }

  lemma ParseMixedExpressionShape6(two: real, one: real, three: real)
    ensures NoRewrites([Slash] + ([Number(two)] + ([Slash] + ([Number(two)] + ([Plus] + ([Number(one)] + ([CloseParen] + ([Asterix] + ([Number(three)] + ([Minus] + ([Number(one)] + []))))))))))) && SignsSeparated([Slash] + ([Number(two)] + ([Slash] + ([Number(two)] + ([Plus] + ([Number(one)] + ([CloseParen] + ([Asterix] + ([Number(three)] + ([Minus] + ([Number(one)] + [])))))))))))
  {
    ParseMixedExpressionShape7(two, one, three);
    NoRewritesCons(Slash, [Number(two)] + ([Slash] + ([Number(two)] + ([Plus] + ([Number(one)] + ([CloseParen] + ([Asterix] + ([Number(three)] + ([Minus] + ([Number(one)] + []))))))))));
    SignsSeparatedCons(Slash, [Number(two)] + ([Slash] + ([Number(two)] + ([Plus] + ([Number(one)] + ([CloseParen] + ([Asterix] + ([Number(three)] + ([Minus] + ([Number(one)] + []))))))))));
  }

  lemma ParseMixedExpressionShape5(ten: real, two: real, one: real, three: real)
    ensures NoRewrites([Number(ten)] + ([Slash] + ([Number(two)] + ([Slash] + ([Number(two)] + ([Plus] + ([Number(one)] + ([CloseParen] + ([Asterix] + ([Number(three)] + ([Minus] + ([Number(one)] + [])))))))))))) && SignsSeparated([Number(ten)] + ([Slash] + ([Number(two)] + ([Slash] + ([Number(two)] + ([Plus] + ([Number(one)] + ([CloseParen] + ([Asterix] + ([Number(three)] + ([Minus] + ([Number(one)] + []))))))))))))
  {
    ParseMixedExpressionShape6(two, one, three);
    NoRewritesCons(Number(ten), [Slash] + ([Number(two)] + ([Slash] + ([Number(two)] + ([Plus] + ([Number(one)] + ([CloseParen] + ([Asterix] + ([Number(three)] + ([Minus] + ([Number(one)] + [])))))))))));
    SignsSeparatedCons(Number(ten), [Slash] + ([Number(two)] + ([Slash] + ([Number(two)] + ([Plus] + ([Number(one)] + ([CloseParen] + ([Asterix] + ([Number(three)] + ([Minus] + ([Number(one)] + [])))))))))));
  }

  lemma ParseMixedExpressionShape4(ten: real, two: real, one: real, three: real)
    ensures NoRewrites([OpenParen] + ([Number(ten)] + ([Slash] + ([Number(two)] + ([Slash] + ([Number(two)] + ([Plus] + ([Number(one)] + ([CloseParen] + ([Asterix] + ([Number(three)] + ([Minus] + ([Number(one)] + []))))))))))))) && SignsSeparated([OpenParen] + ([Number(ten)] + ([Slash] + ([Number(two)] + ([Slash] + ([Number(two)] + ([Plus] + ([Number(one)] + ([CloseParen] + ([Asterix] + ([Number(three)] + ([Minus] + ([Number(one)] + [])))))))))))))
  {
    ParseMixedExpressionShape5(ten, two, one, three);
    NoRewritesCons(OpenParen, [Number(ten)] + ([Slash] + ([Number(two)] + ([Slash] + ([Number(two)] + ([Plus] + ([Number(one)] + ([CloseParen] + ([Asterix] + ([Number(three)] + ([Minus] + ([Number(one)] + []))))))))))));
    SignsSeparatedCons(OpenParen, [Number(ten)] + ([Slash] + ([Number(two)] + ([Slash] + ([Number(two)] + ([Plus] + ([Number(one)] + ([CloseParen] + ([Asterix] + ([Number(three)] + ([Minus] + ([Number(one)] + []))))))))))));
  }

  lemma ParseMixedExpressionShape3(ten: real, two: real, one: real, three: real)
    ensures NoRewrites([Minus] + ([OpenParen] + ([Number(ten)] + ([Slash] + ([Number(two)] + ([Slash] + ([Number(two)] + ([Plus] + ([Number(one)] + ([CloseParen] + ([Asterix] + ([Number(three)] + ([Minus] + ([Number(one)] + [])))))))))))))) && SignsSeparated([Minus] + ([OpenParen] + ([Number(ten)] + ([Slash] + ([Number(two)] + ([Slash] + ([Number(two)] + ([Plus] + ([Number(one)] + ([CloseParen] + ([Asterix] + ([Number(three)] + ([Minus] + ([Number(one)] + []))))))))))))))
  {
    ParseMixedExpressionShape4(ten, two, one, three);
    NoRewritesCons(Minus, [OpenParen] + ([Number(ten)] + ([Slash] + ([Number(two)] + ([Slash] + ([Number(two)] + ([Plus] + ([Number(one)] + ([CloseParen] + ([Asterix] + ([Number(three)] + ([Minus] + ([Number(one)] + [])))))))))))));
    SignsSeparatedCons(Minus, [OpenParen] + ([Number(ten)] + ([Slash] + ([Number(two)] + ([Slash] + ([Number(two)] + ([Plus] + ([Number(one)] + ([CloseParen] + ([Asterix] + ([Number(three)] + ([Minus] + ([Number(one)] + [])))))))))))));
  }

  lemma ParseMixedExpressionShape2(ten: real, two: real, one: real, three: real)
    ensures NoRewrites([Number(ten)] + ([Minus] + ([OpenParen] + ([Number(ten)] + ([Slash] + ([Number(two)] + ([Slash] + ([Number(two)] + ([Plus] + ([Number(one)] + ([CloseParen] + ([Asterix] + ([Number(three)] + ([Minus] + ([Number(one)] + []))))))))))))))) && SignsSeparated([Number(ten)] + ([Minus] + ([OpenParen] + ([Number(ten)] + ([Slash] + ([Number(two)] + ([Slash] + ([Number(two)] + ([Plus] + ([Number(one)] + ([CloseParen] + ([Asterix] + ([Number(three)] + ([Minus] + ([Number(one)] + [])))))))))))))))
  {
    ParseMixedExpressionShape3(ten, two, one, three);
    NoRewritesCons(Number(ten), [Minus] + ([OpenParen] + ([Number(ten)] + ([Slash] + ([Number(two)] + ([Slash] + ([Number(two)] + ([Plus] + ([Number(one)] + ([CloseParen] + ([Asterix] + ([Number(three)] + ([Minus] + ([Number(one)] + []))))))))))))));
    SignsSeparatedCons(Number(ten), [Minus] + ([OpenParen] + ([Number(ten)] + ([Slash] + ([Number(two)] + ([Slash] + ([Number(two)] + ([Plus] + ([Number(one)] + ([CloseParen] + ([Asterix] + ([Number(three)] + ([Minus] + ([Number(one)] + []))))))))))))));
  }

  lemma ParseMixedExpressionShape1(ten: real, two: real, one: real, three: real)
    ensures NoRewrites([Asterix] + ([Number(ten)] + ([Minus] + ([OpenParen] + ([Number(ten)] + ([Slash] + ([Number(two)] + ([Slash] + ([Number(two)] + ([Plus] + ([Number(one)] + ([CloseParen] + ([Asterix] + ([Number(three)] + ([Minus] + ([Number(one)] + [])))))))))))))))) && SignsSeparated([Asterix] + ([Number(ten)] + ([Minus] + ([OpenParen] + ([Number(ten)] + ([Slash] + ([Number(two)] + ([Slash] + ([Number(two)] + ([Plus] + ([Number(one)] + ([CloseParen] + ([Asterix] + ([Number(three)] + ([Minus] + ([Number(one)] + []))))))))))))))))
  {
    ParseMixedExpressionShape2(ten, two, one, three);
    NoRewritesCons(Asterix, [Number(ten)] + ([Minus] + ([OpenParen] + ([Number(ten)] + ([Slash] + ([Number(two)] + ([Slash] + ([Number(two)] + ([Plus] + ([Number(one)] + ([CloseParen] + ([Asterix] + ([Number(three)] + ([Minus] + ([Number(one)] + [])))))))))))))));
    SignsSeparatedCons(Asterix, [Number(ten)] + ([Minus] + ([OpenParen] + ([Number(ten)] + ([Slash] + ([Number(two)] + ([Slash] + ([Number(two)] + ([Plus] + ([Number(one)] + ([CloseParen] + ([Asterix] + ([Number(three)] + ([Minus] + ([Number(one)] + [])))))))))))))));
  }

  lemma ParseMixedExpressionShape0(thirtyThree: real, ten: real, two: real, one: real, three: real)
    ensures NoRewrites([Number(thirtyThree)] + ([Asterix] + ([Number(ten)] + ([Minus] + ([OpenParen] + ([Number(ten)] + ([Slash] + ([Number(two)] + ([Slash] + ([Number(two)] + ([Plus] + ([Number(one)] + ([CloseParen] + ([Asterix] + ([Number(three)] + ([Minus] + ([Number(one)] + []))))))))))))))))) && SignsSeparated([Number(thirtyThree)] + ([Asterix] + ([Number(ten)] + ([Minus] + ([OpenParen] + ([Number(ten)] + ([Slash] + ([Number(two)] + ([Slash] + ([Number(two)] + ([Plus] + ([Number(one)] + ([CloseParen] + ([Asterix] + ([Number(three)] + ([Minus] + ([Number(one)] + [])))))))))))))))))
  {
    ParseMixedExpressionShape1(ten, two, one, three);
    NoRewritesCons(Number(thirtyThree), [Asterix] + ([Number(ten)] + ([Minus] + ([OpenParen] + ([Number(ten)] + ([Slash] + ([Number(two)] + ([Slash] + ([Number(two)] + ([Plus] + ([Number(one)] + ([CloseParen] + ([Asterix] + ([Number(three)] + ([Minus] + ([Number(one)] + []))))))))))))))));
    SignsSeparatedCons(Number(thirtyThree), [Asterix] + ([Number(ten)] + ([Minus] + ([OpenParen] + ([Number(ten)] + ([Slash] + ([Number(two)] + ([Slash] + ([Number(two)] + ([Plus] + ([Number(one)] + ([CloseParen] + ([Asterix] + ([Number(three)] + ([Minus] + ([Number(one)] + []))))))))))))))));
  }

  lemma ParseMixedExpression(one: real, two: real, three: real, ten: real, thirtyThree: real)
    ensures ParseTokens([Number(thirtyThree)] + ([Asterix] + ([Number(ten)] + ([Minus] + ([OpenParen] + ([Number(ten)] + ([Slash] + ([Number(two)] + ([Slash] + ([Number(two)] + ([Plus] + ([Number(one)] + ([CloseParen] + ([Asterix] + ([Number(three)] + ([Minus] + ([Number(one)] + []))))))))))))))))) == Ok([Minus, Number(one), Minus, Asterix, Number(three), Plus, Number(one), Slash, Number(two), Slash, Number(two), Number(ten), Asterix, Number(ten), Number(thirtyThree)])
  {
    var t := [Number(thirtyThree)] + ([Asterix] + ([Number(ten)] + ([Minus] + ([OpenParen] + ([Number(ten)] + ([Slash] + ([Number(two)] + ([Slash] + ([Number(two)] + ([Plus] + ([Number(one)] + ([CloseParen] + ([Asterix] + ([Number(three)] + ([Minus] + ([Number(one)] + []))))))))))))))));
    ParseMixedExpressionShape0(thirtyThree, ten, two, one, three);
    InsertParensPlain(t);
    BalanceSeparated(t);
    ParseMixedExpressionFrom0(thirtyThree, ten, two, one, three);
    assert [Minus] + [Number(one), Minus, Asterix, Number(three), Plus, Number(one), Slash, Number(two), Slash, Number(two), Number(ten), Asterix, Number(ten), Number(thirtyThree)] == [Minus, Number(one), Minus, Asterix, Number(three), Plus, Number(one), Slash, Number(two), Slash, Number(two), Number(ten), Asterix, Number(ten), Number(thirtyThree)];
  }

  lemma ExecuteMixedExpressionFrom14(m: Maths)
    ensures ExecRun(m, [Minus], [319.5, 1.0]) == Ok([318.5])
  {
    assert [319.5, 1.0][..0] + [318.5] == [318.5];
    assert ExecStep(m, Minus, [319.5, 1.0]) == Ok([318.5]);
    ExecSnoc(m, [], Minus, [319.5, 1.0], [318.5]);
    assert [] + [Minus] == [Minus];
  }

  lemma ExecuteMixedExpressionFrom13(m: Maths)
    ensures ExecRun(m, [Minus, Number(1.0)], [319.5]) == Ok([318.5])
  {
    ExecuteMixedExpressionFrom14(m);
    assert [319.5] + [1.0] == [319.5, 1.0];
    assert ExecStep(m, Number(1.0), [319.5]) == Ok([319.5, 1.0]);
    ExecSnoc(m, [Minus], Number(1.0), [319.5], [319.5, 1.0]);
    assert [Minus] + [Number(1.0)] == [Minus, Number(1.0)];
  }

  lemma ExecuteMixedExpressionFrom12(m: Maths)
    ensures ExecRun(m, [Minus, Number(1.0), Minus], [330.0, 10.5]) == Ok([318.5])
  {
    ExecuteMixedExpressionFrom13(m);
    assert [330.0, 10.5][..0] + [319.5] == [319.5];
    assert ExecStep(m, Minus, [330.0, 10.5]) == Ok([319.5]);
    ExecSnoc(m, [Minus, Number(1.0)], Minus, [330.0, 10.5], [319.5]);
    assert [Minus, Number(1.0)] + [Minus] == [Minus, Number(1.0), Minus];
  }

  lemma ExecuteMixedExpressionFrom11(m: Maths)
    ensures ExecRun(m, [Minus, Number(1.0), Minus, Asterix], [330.0, 3.5, 3.0]) == Ok([318.5])
  {
    ExecuteMixedExpressionFrom12(m);
    assert [330.0, 3.5, 3.0][..1] + [10.5] == [330.0, 10.5];
    assert ExecStep(m, Asterix, [330.0, 3.5, 3.0]) == Ok([330.0, 10.5]);
    ExecSnoc(m, [Minus, Number(1.0), Minus], Asterix, [330.0, 3.5, 3.0], [330.0, 10.5]);
    assert [Minus, Number(1.0), Minus] + [Asterix] == [Minus, Number(1.0), Minus, Asterix];
  }

  lemma ExecuteMixedExpressionFrom10(m: Maths)
    ensures ExecRun(m, [Minus, Number(1.0), Minus, Asterix, Number(3.0)], [330.0, 3.5]) == Ok([318.5])
  {
    ExecuteMixedExpressionFrom11(m);
    assert [330.0, 3.5] + [3.0] == [330.0, 3.5, 3.0];
    assert ExecStep(m, Number(3.0), [330.0, 3.5]) == Ok([330.0, 3.5, 3.0]);
    ExecSnoc(m, [Minus, Number(1.0), Minus, Asterix], Number(3.0), [330.0, 3.5], [330.0, 3.5, 3.0]);
    assert [Minus, Number(1.0), Minus, Asterix] + [Number(3.0)] == [Minus, Number(1.0), Minus, Asterix, Number(3.0)];
  }

  lemma ExecuteMixedExpressionFrom9(m: Maths)
    ensures ExecRun(m, [Minus, Number(1.0), Minus, Asterix, Number(3.0), Plus], [330.0, 2.5, 1.0]) == Ok([318.5])
  {
    ExecuteMixedExpressionFrom10(m);
    assert [330.0, 2.5, 1.0][..1] + [3.5] == [330.0, 3.5];
    assert ExecStep(m, Plus, [330.0, 2.5, 1.0]) == Ok([330.0, 3.5]);
    ExecSnoc(m, [Minus, Number(1.0), Minus, Asterix, Number(3.0)], Plus, [330.0, 2.5, 1.0], [330.0, 3.5]);
    assert [Minus, Number(1.0), Minus, Asterix, Number(3.0)] + [Plus] == [Minus, Number(1.0), Minus, Asterix, Number(3.0), Plus];
  }

  lemma ExecuteMixedExpressionFrom8(m: Maths)
    ensures ExecRun(m, [Minus, Number(1.0), Minus, Asterix, Number(3.0), Plus, Number(1.0)], [330.0, 2.5]) == Ok([318.5])
  {
    ExecuteMixedExpressionFrom9(m);
    assert [330.0, 2.5] + [1.0] == [330.0, 2.5, 1.0];
    assert ExecStep(m, Number(1.0), [330.0, 2.5]) == Ok([330.0, 2.5, 1.0]);
    ExecSnoc(m, [Minus, Number(1.0), Minus, Asterix, Number(3.0), Plus], Number(1.0), [330.0, 2.5], [330.0, 2.5, 1.0]);
    assert [Minus, Number(1.0), Minus, Asterix, Number(3.0), Plus] + [Number(1.0)] == [Minus, Number(1.0), Minus, Asterix, Number(3.0), Plus, Number(1.0)];
  }

  lemma ExecuteMixedExpressionFrom7(m: Maths)
    ensures ExecRun(m, [Minus, Number(1.0), Minus, Asterix, Number(3.0), Plus, Number(1.0), Slash], [330.0, 5.0, 2.0]) == Ok([318.5])
  {
    ExecuteMixedExpressionFrom8(m);
    assert [330.0, 5.0, 2.0][..1] + [2.5] == [330.0, 2.5];
    assert ExecStep(m, Slash, [330.0, 5.0, 2.0]) == Ok([330.0, 2.5]);
    ExecSnoc(m, [Minus, Number(1.0), Minus, Asterix, Number(3.0), Plus, Number(1.0)], Slash, [330.0, 5.0, 2.0], [330.0, 2.5]);
    assert [Minus, Number(1.0), Minus, Asterix, Number(3.0), Plus, Number(1.0)] + [Slash] == [Minus, Number(1.0), Minus, Asterix, Number(3.0), Plus, Number(1.0), Slash];
  }

  lemma ExecuteMixedExpressionFrom6(m: Maths)
    ensures ExecRun(m, [Minus, Number(1.0), Minus, Asterix, Number(3.0), Plus, Number(1.0), Slash, Number(2.0)], [330.0, 5.0]) == Ok([318.5])
  {
    ExecuteMixedExpressionFrom7(m);
    assert [330.0, 5.0] + [2.0] == [330.0, 5.0, 2.0];
    assert ExecStep(m, Number(2.0), [330.0, 5.0]) == Ok([330.0, 5.0, 2.0]);
    ExecSnoc(m, [Minus, Number(1.0), Minus, Asterix, Number(3.0), Plus, Number(1.0), Slash], Number(2.0), [330.0, 5.0], [330.0, 5.0, 2.0]);
    assert [Minus, Number(1.0), Minus, Asterix, Number(3.0), Plus, Number(1.0), Slash] + [Number(2.0)] == [Minus, Number(1.0), Minus, Asterix, Number(3.0), Plus, Number(1.0), Slash, Number(2.0)];
  }

  lemma ExecuteMixedExpressionFrom5(m: Maths)
    ensures ExecRun(m, [Minus, Number(1.0), Minus, Asterix, Number(3.0), Plus, Number(1.0), Slash, Number(2.0), Slash], [330.0, 10.0, 2.0]) == Ok([318.5])
  {
    ExecuteMixedExpressionFrom6(m);
    assert [330.0, 10.0, 2.0][..1] + [5.0] == [330.0, 5.0];
    assert ExecStep(m, Slash, [330.0, 10.0, 2.0]) == Ok([330.0, 5.0]);
    ExecSnoc(m, [Minus, Number(1.0), Minus, Asterix, Number(3.0), Plus, Number(1.0), Slash, Number(2.0)], Slash, [330.0, 10.0, 2.0], [330.0, 5.0]);
    assert [Minus, Number(1.0), Minus, Asterix, Number(3.0), Plus, Number(1.0), Slash, Number(2.0)] + [Slash] == [Minus, Number(1.0), Minus, Asterix, Number(3.0), Plus, Number(1.0), Slash, Number(2.0), Slash];
  }

  lemma ExecuteMixedExpressionFrom4(m: Maths)
    ensures ExecRun(m, [Minus, Number(1.0), Minus, Asterix, Number(3.0), Plus, Number(1.0), Slash, Number(2.0), Slash, Number(2.0)], [330.0, 10.0]) == Ok([318.5])
  {
    ExecuteMixedExpressionFrom5(m);
    assert [330.0, 10.0] + [2.0] == [330.0, 10.0, 2.0];
    assert ExecStep(m, Number(2.0), [330.0, 10.0]) == Ok([330.0, 10.0, 2.0]);
    ExecSnoc(m, [Minus, Number(1.0), Minus, Asterix, Number(3.0), Plus, Number(1.0), Slash, Number(2.0), Slash], Number(2.0), [330.0, 10.0], [330.0, 10.0, 2.0]);
    assert [Minus, Number(1.0), Minus, Asterix, Number(3.0), Plus, Number(1.0), Slash, Number(2.0), Slash] + [Number(2.0)] == [Minus, Number(1.0), Minus, Asterix, Number(3.0), Plus, Number(1.0), Slash, Number(2.0), Slash, Number(2.0)];
  }

  lemma ExecuteMixedExpressionFrom3(m: Maths)
    ensures ExecRun(m, [Minus, Number(1.0), Minus, Asterix, Number(3.0), Plus, Number(1.0), Slash, Number(2.0), Slash, Number(2.0), Number(10.0)], [330.0]) == Ok([318.5])
  {
    ExecuteMixedExpressionFrom4(m);
    assert [330.0] + [10.0] == [330.0, 10.0];
    assert ExecStep(m, Number(10.0), [330.0]) == Ok([330.0, 10.0]);
    ExecSnoc(m, [Minus, Number(1.0), Minus, Asterix, Number(3.0), Plus, Number(1.0), Slash, Number(2.0), Slash, Number(2.0)], Number(10.0), [330.0], [330.0, 10.0]);
    assert [Minus, Number(1.0), Minus, Asterix, Number(3.0), Plus, Number(1.0), Slash, Number(2.0), Slash, Number(2.0)] + [Number(10.0)] == [Minus, Number(1.0), Minus, Asterix, Number(3.0), Plus, Number(1.0), Slash, Number(2.0), Slash, Number(2.0), Number(10.0)];
  }

  lemma ExecuteMixedExpressionFrom2(m: Maths)
    ensures ExecRun(m, [Minus, Number(1.0), Minus, Asterix, Number(3.0), Plus, Number(1.0), Slash, Number(2.0), Slash, Number(2.0), Number(10.0), Asterix], [33.0, 10.0]) == Ok([318.5])
  {
    ExecuteMixedExpressionFrom3(m);
    assert [33.0, 10.0][..0] + [330.0] == [330.0];
    assert ExecStep(m, Asterix, [33.0, 10.0]) == Ok([330.0]);
    ExecSnoc(m, [Minus, Number(1.0), Minus, Asterix, Number(3.0), Plus, Number(1.0), Slash, Number(2.0), Slash, Number(2.0), Number(10.0)], Asterix, [33.0, 10.0], [330.0]);
    assert [Minus, Number(1.0), Minus, Asterix, Number(3.0), Plus, Number(1.0), Slash, Number(2.0), Slash, Number(2.0), Number(10.0)] + [Asterix] == [Minus, Number(1.0), Minus, Asterix, Number(3.0), Plus, Number(1.0), Slash, Number(2.0), Slash, Number(2.0), Number(10.0), Asterix];
  }

  lemma ExecuteMixedExpressionFrom1(m: Maths)
    ensures ExecRun(m, [Minus, Number(1.0), Minus, Asterix, Number(3.0), Plus, Number(1.0), Slash, Number(2.0), Slash, Number(2.0), Number(10.0), Asterix, Number(10.0)], [33.0]) == Ok([318.5])
  {
    ExecuteMixedExpressionFrom2(m);
    assert [33.0] + [10.0] == [33.0, 10.0];
    assert ExecStep(m, Number(10.0), [33.0]) == Ok([33.0, 10.0]);
    ExecSnoc(m, [Minus, Number(1.0), Minus, Asterix, Number(3.0), Plus, Number(1.0), Slash, Number(2.0), Slash, Number(2.0), Number(10.0), Asterix], Number(10.0), [33.0], [33.0, 10.0]);
    assert [Minus, Number(1.0), Minus, Asterix, Number(3.0), Plus, Number(1.0), Slash, Number(2.0), Slash, Number(2.0), Number(10.0), Asterix] + [Number(10.0)] == [Minus, Number(1.0), Minus, Asterix, Number(3.0), Plus, Number(1.0), Slash, Number(2.0), Slash, Number(2.0), Number(10.0), Asterix, Number(10.0)];
  }

  lemma ExecuteMixedExpressionFrom0(m: Maths)
    ensures ExecRun(m, [Minus, Number(1.0), Minus, Asterix, Number(3.0), Plus, Number(1.0), Slash, Number(2.0), Slash, Number(2.0), Number(10.0), Asterix, Number(10.0), Number(33.0)], []) == Ok([318.5])
  {
    ExecuteMixedExpressionFrom1(m);
    assert [] + [33.0] == [33.0];
    assert ExecStep(m, Number(33.0), []) == Ok([33.0]);
    ExecSnoc(m, [Minus, Number(1.0), Minus, Asterix, Number(3.0), Plus, Number(1.0), Slash, Number(2.0), Slash, Number(2.0), Number(10.0), Asterix, Number(10.0)], Number(33.0), [], [33.0]);
    assert [Minus, Number(1.0), Minus, Asterix, Number(3.0), Plus, Number(1.0), Slash, Number(2.0), Slash, Number(2.0), Number(10.0), Asterix, Number(10.0)] + [Number(33.0)] == [Minus, Number(1.0), Minus, Asterix, Number(3.0), Plus, Number(1.0), Slash, Number(2.0), Slash, Number(2.0), Number(10.0), Asterix, Number(10.0), Number(33.0)];
  }

  lemma ExecuteMixedExpression(m: Maths)
    ensures Evaluate(m, [Minus, Number(1.0), Minus, Asterix, Number(3.0), Plus, Number(1.0), Slash, Number(2.0), Slash, Number(2.0), Number(10.0), Asterix, Number(10.0), Number(33.0)]) == Ok(318.5)
  {
    ExecuteMixedExpressionFrom0(m);
  }

  /** `33 * 10 - (10 / 2 / 2 + 1) * 3 - 1` gives `318.5`, the standard value. */
  lemma MixedExpression(m: Maths)
    requires m.literal("1") == 1.0 && m.literal("2") == 2.0 && m.literal("3") == 3.0 && m.literal("10") == 10.0 && m.literal("33") == 33.0
    ensures InterpretSpec(m, "33 * 10 - (10 / 2 / 2 + 1) * 3 - 1") == Ok(318.5)
  {
    LexMixedExpression(m);
    ParseMixedExpression(1.0, 2.0, 3.0, 10.0, 33.0);
    ExecuteMixedExpression(m);
  }

  // ---------------------------------------------------------------------
  // "(33*10-(10/2/2+1)*3-1)" (src/lib.rs:65-72)
  // ---------------------------------------------------------------------

  /** The characters of `(33*10-(10/2/2+1)*3-1)`. */
  predicate MixedExpressionEnclosedText(s: string) {
    |s| == 22 && s[0] == '(' && s[1] == '3' && s[2] == '3' && s[3] == '*' && s[4] == '1' && s[5] == '0' && s[6] == '-' && s[7] == '(' && s[8] == '1' && s[9] == '0' && s[10] == '/' && s[11] == '2' && s[12] == '/' && s[13] == '2' && s[14] == '+' && s[15] == '1' && s[16] == ')' && s[17] == '*' && s[18] == '3' && s[19] == '-' && s[20] == '1' && s[21] == ')'
  }

  lemma MixedExpressionEnclosedTextChars0(s: string)
    requires s == "(33*10-(10/2/2+1)*3-1)"
    ensures s[0] == '(' && s[1] == '3' && s[2] == '3' && s[3] == '*' && s[4] == '1' && s[5] == '0'
  {
  }

  lemma MixedExpressionEnclosedTextChars6(s: string)
    requires s == "(33*10-(10/2/2+1)*3-1)"
    ensures s[6] == '-' && s[7] == '(' && s[8] == '1' && s[9] == '0' && s[10] == '/' && s[11] == '2' && s[12] == '/' && s[13] == '2' && s[14] == '+' && s[15] == '1'
  {
  }

  lemma MixedExpressionEnclosedTextChars16(s: string)
    requires s == "(33*10-(10/2/2+1)*3-1)"
    ensures s[16] == ')' && s[17] == '*' && s[18] == '3' && s[19] == '-' && s[20] == '1' && s[21] == ')'
  {
  }

  lemma MixedExpressionEnclosedTextChars()
    ensures MixedExpressionEnclosedText("(33*10-(10/2/2+1)*3-1)")
  {
    MixedExpressionEnclosedTextChars0("(33*10-(10/2/2+1)*3-1)");
    MixedExpressionEnclosedTextChars6("(33*10-(10/2/2+1)*3-1)");
    MixedExpressionEnclosedTextChars16("(33*10-(10/2/2+1)*3-1)");
  }

  lemma LexMixedExpressionEnclosedFrom22(m: Maths, s: string)
    requires MixedExpressionEnclosedText(s)
    ensures LexFrom(m, s, 22) == Ok([])
  {
    assert Scan(m, s, 22) == Ok(None);
  }

  lemma LexMixedExpressionEnclosedFrom21(m: Maths, s: string)
    requires MixedExpressionEnclosedText(s)
    ensures LexFrom(m, s, 21) == Ok([CloseParen] + [])
  {
    LexMixedExpressionEnclosedFrom22(m, s);
    ScanSymbol(m, s, 21);
    ScanAfter(m, s, 21, 21, CloseParen, 22);
  }

  lemma LexMixedExpressionEnclosedFrom20(m: Maths, s: string)
    requires MixedExpressionEnclosedText(s)
    ensures LexFrom(m, s, 20) == Ok([Number(m.literal("1"))] + ([CloseParen] + []))
  {
    LexMixedExpressionEnclosedFrom21(m, s);
    ScanLiteral(m, s, 20, 21);
    assert s[20..21] == "1";
    ScanAfter(m, s, 20, 20, Number(m.literal("1")), 21);
  }

  lemma LexMixedExpressionEnclosedFrom19(m: Maths, s: string)
    requires MixedExpressionEnclosedText(s)
    ensures LexFrom(m, s, 19) == Ok([Minus] + ([Number(m.literal("1"))] + ([CloseParen] + [])))
  {
    LexMixedExpressionEnclosedFrom20(m, s);
    ScanSymbol(m, s, 19);
    ScanAfter(m, s, 19, 19, Minus, 20);
  }

  lemma LexMixedExpressionEnclosedFrom18(m: Maths, s: string)
    requires MixedExpressionEnclosedText(s)
    ensures LexFrom(m, s, 18) == Ok([Number(m.literal("3"))] + ([Minus] + ([Number(m.literal("1"))] + ([CloseParen] + []))))
  {
    LexMixedExpressionEnclosedFrom19(m, s);
    ScanLiteral(m, s, 18, 19);
    assert s[18..19] == "3";
    ScanAfter(m, s, 18, 18, Number(m.literal("3")), 19);
  }

  lemma LexMixedExpressionEnclosedFrom17(m: Maths, s: string)
    requires MixedExpressionEnclosedText(s)
    ensures LexFrom(m, s, 17) == Ok([Asterix] + ([Number(m.literal("3"))] + ([Minus] + ([Number(m.literal("1"))] + ([CloseParen] + [])))))
  {
    LexMixedExpressionEnclosedFrom18(m, s);
    ScanSymbol(m, s, 17);
    ScanAfter(m, s, 17, 17, Asterix, 18);
  }

  lemma LexMixedExpressionEnclosedFrom16(m: Maths, s: string)
    requires MixedExpressionEnclosedText(s)
    ensures LexFrom(m, s, 16) == Ok([CloseParen] + ([Asterix] + ([Number(m.literal("3"))] + ([Minus] + ([Number(m.literal("1"))] + ([CloseParen] + []))))))
  {
    LexMixedExpressionEnclosedFrom17(m, s);
    ScanSymbol(m, s, 16);
    ScanAfter(m, s, 16, 16, CloseParen, 17);
  }

  lemma LexMixedExpressionEnclosedFrom15(m: Maths, s: string)
    requires MixedExpressionEnclosedText(s)
    ensures LexFrom(m, s, 15) == Ok([Number(m.literal("1"))] + ([CloseParen] + ([Asterix] + ([Number(m.literal("3"))] + ([Minus] + ([Number(m.literal("1"))] + ([CloseParen] + [])))))))
  {
    LexMixedExpressionEnclosedFrom16(m, s);
    ScanLiteral(m, s, 15, 16);
    assert s[15..16] == "1";
    ScanAfter(m, s, 15, 15, Number(m.literal("1")), 16);
  }

  lemma LexMixedExpressionEnclosedFrom14(m: Maths, s: string)
    requires MixedExpressionEnclosedText(s)
    ensures LexFrom(m, s, 14) == Ok([Plus] + ([Number(m.literal("1"))] + ([CloseParen] + ([Asterix] + ([Number(m.literal("3"))] + ([Minus] + ([Number(m.literal("1"))] + ([CloseParen] + []))))))))
  {
    LexMixedExpressionEnclosedFrom15(m, s);
    ScanSymbol(m, s, 14);
    ScanAfter(m, s, 14, 14, Plus, 15);
  }

  lemma LexMixedExpressionEnclosedFrom13(m: Maths, s: string)
    requires MixedExpressionEnclosedText(s)
    ensures LexFrom(m, s, 13) == Ok([Number(m.literal("2"))] + ([Plus] + ([Number(m.literal("1"))] + ([CloseParen] + ([Asterix] + ([Number(m.literal("3"))] + ([Minus] + ([Number(m.literal("1"))] + ([CloseParen] + [])))))))))
  {
    LexMixedExpressionEnclosedFrom14(m, s);
    ScanLiteral(m, s, 13, 14);
    assert s[13..14] == "2";
    ScanAfter(m, s, 13, 13, Number(m.literal("2")), 14);
  }

  lemma LexMixedExpressionEnclosedFrom12(m: Maths, s: string)
    requires MixedExpressionEnclosedText(s)
    ensures LexFrom(m, s, 12) == Ok([Slash] + ([Number(m.literal("2"))] + ([Plus] + ([Number(m.literal("1"))] + ([CloseParen] + ([Asterix] + ([Number(m.literal("3"))] + ([Minus] + ([Number(m.literal("1"))] + ([CloseParen] + []))))))))))
  {
    LexMixedExpressionEnclosedFrom13(m, s);
    ScanSymbol(m, s, 12);
    ScanAfter(m, s, 12, 12, Slash, 13);
  }

  lemma LexMixedExpressionEnclosedFrom11(m: Maths, s: string)
    requires MixedExpressionEnclosedText(s)
    ensures LexFrom(m, s, 11) == Ok([Number(m.literal("2"))] + ([Slash] + ([Number(m.literal("2"))] + ([Plus] + ([Number(m.literal("1"))] + ([CloseParen] + ([Asterix] + ([Number(m.literal("3"))] + ([Minus] + ([Number(m.literal("1"))] + ([CloseParen] + [])))))))))))
  {
    LexMixedExpressionEnclosedFrom12(m, s);
    ScanLiteral(m, s, 11, 12);
    assert s[11..12] == "2";
    ScanAfter(m, s, 11, 11, Number(m.literal("2")), 12);
  }

  lemma LexMixedExpressionEnclosedFrom10(m: Maths, s: string)
    requires MixedExpressionEnclosedText(s)
    ensures LexFrom(m, s, 10) == Ok([Slash] + ([Number(m.literal("2"))] + ([Slash] + ([Number(m.literal("2"))] + ([Plus] + ([Number(m.literal("1"))] + ([CloseParen] + ([Asterix] + ([Number(m.literal("3"))] + ([Minus] + ([Number(m.literal("1"))] + ([CloseParen] + []))))))))))))
  {
    LexMixedExpressionEnclosedFrom11(m, s);
    ScanSymbol(m, s, 10);
    ScanAfter(m, s, 10, 10, Slash, 11);
  }

  lemma LexMixedExpressionEnclosedFrom8(m: Maths, s: string)
    requires MixedExpressionEnclosedText(s)
    ensures LexFrom(m, s, 8) == Ok([Number(m.literal("10"))] + ([Slash] + ([Number(m.literal("2"))] + ([Slash] + ([Number(m.literal("2"))] + ([Plus] + ([Number(m.literal("1"))] + ([CloseParen] + ([Asterix] + ([Number(m.literal("3"))] + ([Minus] + ([Number(m.literal("1"))] + ([CloseParen] + [])))))))))))))
  {
    LexMixedExpressionEnclosedFrom10(m, s);
    ScanLiteral(m, s, 8, 10);
    assert s[8..10] == "10";
    ScanAfter(m, s, 8, 8, Number(m.literal("10")), 10);
  }

  lemma LexMixedExpressionEnclosedFrom7(m: Maths, s: string)
    requires MixedExpressionEnclosedText(s)
    ensures LexFrom(m, s, 7) == Ok([OpenParen] + ([Number(m.literal("10"))] + ([Slash] + ([Number(m.literal("2"))] + ([Slash] + ([Number(m.literal("2"))] + ([Plus] + ([Number(m.literal("1"))] + ([CloseParen] + ([Asterix] + ([Number(m.literal("3"))] + ([Minus] + ([Number(m.literal("1"))] + ([CloseParen] + []))))))))))))))
  {
    LexMixedExpressionEnclosedFrom8(m, s);
    ScanSymbol(m, s, 7);
    ScanAfter(m, s, 7, 7, OpenParen, 8);
  }

  lemma LexMixedExpressionEnclosedFrom6(m: Maths, s: string)
    requires MixedExpressionEnclosedText(s)
    ensures LexFrom(m, s, 6) == Ok([Minus] + ([OpenParen] + ([Number(m.literal("10"))] + ([Slash] + ([Number(m.literal("2"))] + ([Slash] + ([Number(m.literal("2"))] + ([Plus] + ([Number(m.literal("1"))] + ([CloseParen] + ([Asterix] + ([Number(m.literal("3"))] + ([Minus] + ([Number(m.literal("1"))] + ([CloseParen] + [])))))))))))))))
  {
    LexMixedExpressionEnclosedFrom7(m, s);
    ScanSymbol(m, s, 6);
    ScanAfter(m, s, 6, 6, Minus, 7);
  }

  lemma LexMixedExpressionEnclosedFrom4(m: Maths, s: string)
    requires MixedExpressionEnclosedText(s)
    ensures LexFrom(m, s, 4) == Ok([Number(m.literal("10"))] + ([Minus] + ([OpenParen] + ([Number(m.literal("10"))] + ([Slash] + ([Number(m.literal("2"))] + ([Slash] + ([Number(m.literal("2"))] + ([Plus] + ([Number(m.literal("1"))] + ([CloseParen] + ([Asterix] + ([Number(m.literal("3"))] + ([Minus] + ([Number(m.literal("1"))] + ([CloseParen] + []))))))))))))))))
  {
    LexMixedExpressionEnclosedFrom6(m, s);
    ScanLiteral(m, s, 4, 6);
    assert s[4..6] == "10";
    ScanAfter(m, s, 4, 4, Number(m.literal("10")), 6);
  }

  lemma LexMixedExpressionEnclosedFrom3(m: Maths, s: string)
    requires MixedExpressionEnclosedText(s)
    ensures LexFrom(m, s, 3) == Ok([Asterix] + ([Number(m.literal("10"))] + ([Minus] + ([OpenParen] + ([Number(m.literal("10"))] + ([Slash] + ([Number(m.literal("2"))] + ([Slash] + ([Number(m.literal("2"))] + ([Plus] + ([Number(m.literal("1"))] + ([CloseParen] + ([Asterix] + ([Number(m.literal("3"))] + ([Minus] + ([Number(m.literal("1"))] + ([CloseParen] + [])))))))))))))))))
  {
    LexMixedExpressionEnclosedFrom4(m, s);
    ScanSymbol(m, s, 3);
    ScanAfter(m, s, 3, 3, Asterix, 4);
  }

  lemma LexMixedExpressionEnclosedFrom1(m: Maths, s: string)
    requires MixedExpressionEnclosedText(s)
    ensures LexFrom(m, s, 1) == Ok([Number(m.literal("33"))] + ([Asterix] + ([Number(m.literal("10"))] + ([Minus] + ([OpenParen] + ([Number(m.literal("10"))] + ([Slash] + ([Number(m.literal("2"))] + ([Slash] + ([Number(m.literal("2"))] + ([Plus] + ([Number(m.literal("1"))] + ([CloseParen] + ([Asterix] + ([Number(m.literal("3"))] + ([Minus] + ([Number(m.literal("1"))] + ([CloseParen] + []))))))))))))))))))
  {
    LexMixedExpressionEnclosedFrom3(m, s);
    ScanLiteral(m, s, 1, 3);
    assert s[1..3] == "33";
    ScanAfter(m, s, 1, 1, Number(m.literal("33")), 3);
  }

  lemma LexMixedExpressionEnclosedFrom0(m: Maths, s: string)
    requires MixedExpressionEnclosedText(s)
    ensures LexFrom(m, s, 0) == Ok([OpenParen] + ([Number(m.literal("33"))] + ([Asterix] + ([Number(m.literal("10"))] + ([Minus] + ([OpenParen] + ([Number(m.literal("10"))] + ([Slash] + ([Number(m.literal("2"))] + ([Slash] + ([Number(m.literal("2"))] + ([Plus] + ([Number(m.literal("1"))] + ([CloseParen] + ([Asterix] + ([Number(m.literal("3"))] + ([Minus] + ([Number(m.literal("1"))] + ([CloseParen] + [])))))))))))))))))))
  {
    LexMixedExpressionEnclosedFrom1(m, s);
    ScanSymbol(m, s, 0);
    ScanAfter(m, s, 0, 0, OpenParen, 1);
  }

  lemma LexMixedExpressionEnclosed(m: Maths)
    ensures Tokenize(m, "(33*10-(10/2/2+1)*3-1)") == Ok([OpenParen] + ([Number(m.literal("33"))] + ([Asterix] + ([Number(m.literal("10"))] + ([Minus] + ([OpenParen] + ([Number(m.literal("10"))] + ([Slash] + ([Number(m.literal("2"))] + ([Slash] + ([Number(m.literal("2"))] + ([Plus] + ([Number(m.literal("1"))] + ([CloseParen] + ([Asterix] + ([Number(m.literal("3"))] + ([Minus] + ([Number(m.literal("1"))] + ([CloseParen] + [])))))))))))))))))))
  {
    MixedExpressionEnclosedTextChars();
    LexMixedExpressionEnclosedFrom0(m, "(33*10-(10/2/2+1)*3-1)");
  }

  lemma ParseMixedExpressionEnclosedFrom18(one: real, three: real, two: real, ten: real, thirtyThree: real)
    ensures Run([CloseParen] + [], State([OpenParen, Minus], [Number(one), Minus, Asterix, Number(three), Plus, Number(one), Slash, Number(two), Slash, Number(two), Number(ten), Asterix, Number(ten), Number(thirtyThree)])) == Ok(State([], [Minus, Number(one), Minus, Asterix, Number(three), Plus, Number(one), Slash, Number(two), Slash, Number(two), Number(ten), Asterix, Number(ten), Number(thirtyThree)]))
  {
    CloseParenPops([], [Minus], [Number(one), Minus, Asterix, Number(three), Plus, Number(one), Slash, Number(two), Slash, Number(two), Number(ten), Asterix, Number(ten), Number(thirtyThree)]);
    assert [] + [OpenParen] + [Minus] == [OpenParen, Minus];
    assert [Minus] + [Number(one), Minus, Asterix, Number(three), Plus, Number(one), Slash, Number(two), Slash, Number(two), Number(ten), Asterix, Number(ten), Number(thirtyThree)] == [Minus, Number(one), Minus, Asterix, Number(three), Plus, Number(one), Slash, Number(two), Slash, Number(two), Number(ten), Asterix, Number(ten), Number(thirtyThree)];
    RunCons(CloseParen, [], State([OpenParen, Minus], [Number(one), Minus, Asterix, Number(three), Plus, Number(one), Slash, Number(two), Slash, Number(two), Number(ten), Asterix, Number(ten), Number(thirtyThree)]), State([], [Minus, Number(one), Minus, Asterix, Number(three), Plus, Number(one), Slash, Number(two), Slash, Number(two), Number(ten), Asterix, Number(ten), Number(thirtyThree)]));
  }

  lemma ParseMixedExpressionEnclosedFrom17(one: real, three: real, two: real, ten: real, thirtyThree: real)
    ensures Run([Number(one)] + ([CloseParen] + []), State([OpenParen, Minus], [Minus, Asterix, Number(three), Plus, Number(one), Slash, Number(two), Slash, Number(two), Number(ten), Asterix, Number(ten), Number(thirtyThree)])) == Ok(State([], [Minus, Number(one), Minus, Asterix, Number(three), Plus, Number(one), Slash, Number(two), Slash, Number(two), Number(ten), Asterix, Number(ten), Number(thirtyThree)]))
  {
    ParseMixedExpressionEnclosedFrom18(one, three, two, ten, thirtyThree);
    assert [Number(one)] + [Minus, Asterix, Number(three), Plus, Number(one), Slash, Number(two), Slash, Number(two), Number(ten), Asterix, Number(ten), Number(thirtyThree)] == [Number(one), Minus, Asterix, Number(three), Plus, Number(one), Slash, Number(two), Slash, Number(two), Number(ten), Asterix, Number(ten), Number(thirtyThree)];
    RunCons(Number(one), [CloseParen] + [], State([OpenParen, Minus], [Minus, Asterix, Number(three), Plus, Number(one), Slash, Number(two), Slash, Number(two), Number(ten), Asterix, Number(ten), Number(thirtyThree)]), State([OpenParen, Minus], [Number(one), Minus, Asterix, Number(three), Plus, Number(one), Slash, Number(two), Slash, Number(two), Number(ten), Asterix, Number(ten), Number(thirtyThree)]));
  }

  lemma ParseMixedExpressionEnclosedFrom16(one: real, three: real, two: real, ten: real, thirtyThree: real)
    ensures Run([Minus] + ([Number(one)] + ([CloseParen] + [])), State([OpenParen, Minus, Asterix], [Number(three), Plus, Number(one), Slash, Number(two), Slash, Number(two), Number(ten), Asterix, Number(ten), Number(thirtyThree)])) == Ok(State([], [Minus, Number(one), Minus, Asterix, Number(three), Plus, Number(one), Slash, Number(two), Slash, Number(two), Number(ten), Asterix, Number(ten), Number(thirtyThree)]))
  {
    ParseMixedExpressionEnclosedFrom17(one, three, two, ten, thirtyThree);
    OperatorPopsToParen(Minus, [OpenParen], [Minus, Asterix], [Number(three), Plus, Number(one), Slash, Number(two), Slash, Number(two), Number(ten), Asterix, Number(ten), Number(thirtyThree)]);
    assert [OpenParen] + [Minus, Asterix] == [OpenParen, Minus, Asterix];
    assert [OpenParen] + [Minus] == [OpenParen, Minus];
    assert [Minus, Asterix] + [Number(three), Plus, Number(one), Slash, Number(two), Slash, Number(two), Number(ten), Asterix, Number(ten), Number(thirtyThree)] == [Minus, Asterix, Number(three), Plus, Number(one), Slash, Number(two), Slash, Number(two), Number(ten), Asterix, Number(ten), Number(thirtyThree)];
    RunCons(Minus, [Number(one)] + ([CloseParen] + []), State([OpenParen, Minus, Asterix], [Number(three), Plus, Number(one), Slash, Number(two), Slash, Number(two), Number(ten), Asterix, Number(ten), Number(thirtyThree)]), State([OpenParen, Minus], [Minus, Asterix, Number(three), Plus, Number(one), Slash, Number(two), Slash, Number(two), Number(ten), Asterix, Number(ten), Number(thirtyThree)]));
  }

  lemma ParseMixedExpressionEnclosedFrom15(three: real, one: real, two: real, ten: real, thirtyThree: real)
    ensures Run([Number(three)] + ([Minus] + ([Number(one)] + ([CloseParen] + []))), State([OpenParen, Minus, Asterix], [Plus, Number(one), Slash, Number(two), Slash, Number(two), Number(ten), Asterix, Number(ten), Number(thirtyThree)])) == Ok(State([], [Minus, Number(one), Minus, Asterix, Number(three), Plus, Number(one), Slash, Number(two), Slash, Number(two), Number(ten), Asterix, Number(ten), Number(thirtyThree)]))
  {
    ParseMixedExpressionEnclosedFrom16(one, three, two, ten, thirtyThree);
    assert [Number(three)] + [Plus, Number(one), Slash, Number(two), Slash, Number(two), Number(ten), Asterix, Number(ten), Number(thirtyThree)] == [Number(three), Plus, Number(one), Slash, Number(two), Slash, Number(two), Number(ten), Asterix, Number(ten), Number(thirtyThree)];
    RunCons(Number(three), [Minus] + ([Number(one)] + ([CloseParen] + [])), State([OpenParen, Minus, Asterix], [Plus, Number(one), Slash, Number(two), Slash, Number(two), Number(ten), Asterix, Number(ten), Number(thirtyThree)]), State([OpenParen, Minus, Asterix], [Number(three), Plus, Number(one), Slash, Number(two), Slash, Number(two), Number(ten), Asterix, Number(ten), Number(thirtyThree)]));
  }

  lemma ParseMixedExpressionEnclosedFrom14(three: real, one: real, two: real, ten: real, thirtyThree: real)
    ensures Run([Asterix] + ([Number(three)] + ([Minus] + ([Number(one)] + ([CloseParen] + [])))), State([OpenParen, Minus], [Plus, Number(one), Slash, Number(two), Slash, Number(two), Number(ten), Asterix, Number(ten), Number(thirtyThree)])) == Ok(State([], [Minus, Number(one), Minus, Asterix, Number(three), Plus, Number(one), Slash, Number(two), Slash, Number(two), Number(ten), Asterix, Number(ten), Number(thirtyThree)]))
  {
    ParseMixedExpressionEnclosedFrom15(three, one, two, ten, thirtyThree);
    OperatorPushed(Asterix, [OpenParen, Minus], [Plus, Number(one), Slash, Number(two), Slash, Number(two), Number(ten), Asterix, Number(ten), Number(thirtyThree)]);
    assert [OpenParen, Minus] + [Asterix] == [OpenParen, Minus, Asterix];
    RunCons(Asterix, [Number(three)] + ([Minus] + ([Number(one)] + ([CloseParen] + []))), State([OpenParen, Minus], [Plus, Number(one), Slash, Number(two), Slash, Number(two), Number(ten), Asterix, Number(ten), Number(thirtyThree)]), State([OpenParen, Minus, Asterix], [Plus, Number(one), Slash, Number(two), Slash, Number(two), Number(ten), Asterix, Number(ten), Number(thirtyThree)]));
  }

  lemma ParseMixedExpressionEnclosedFrom13(three: real, one: real, two: real, ten: real, thirtyThree: real)
    ensures Run([CloseParen] + ([Asterix] + ([Number(three)] + ([Minus] + ([Number(one)] + ([CloseParen] + []))))), State([OpenParen, Minus, OpenParen, Plus], [Number(one), Slash, Number(two), Slash, Number(two), Number(ten), Asterix, Number(ten), Number(thirtyThree)])) == Ok(State([], [Minus, Number(one), Minus, Asterix, Number(three), Plus, Number(one), Slash, Number(two), Slash, Number(two), Number(ten), Asterix, Number(ten), Number(thirtyThree)]))
  {
    ParseMixedExpressionEnclosedFrom14(three, one, two, ten, thirtyThree);
    CloseParenPops([OpenParen, Minus], [Plus], [Number(one), Slash, Number(two), Slash, Number(two), Number(ten), Asterix, Number(ten), Number(thirtyThree)]);
    assert [OpenParen, Minus] + [OpenParen] + [Plus] == [OpenParen, Minus, OpenParen, Plus];
    assert [Plus] + [Number(one), Slash, Number(two), Slash, Number(two), Number(ten), Asterix, Number(ten), Number(thirtyThree)] == [Plus, Number(one), Slash, Number(two), Slash, Number(two), Number(ten), Asterix, Number(ten), Number(thirtyThree)];
    RunCons(CloseParen, [Asterix] + ([Number(three)] + ([Minus] + ([Number(one)] + ([CloseParen] + [])))), State([OpenParen, Minus, OpenParen, Plus], [Number(one), Slash, Number(two), Slash, Number(two), Number(ten), Asterix, Number(ten), Number(thirtyThree)]), State([OpenParen, Minus], [Plus, Number(one), Slash, Number(two), Slash, Number(two), Number(ten), Asterix, Number(ten), Number(thirtyThree)]));
  }

  lemma ParseMixedExpressionEnclosedFrom12(one: real, three: real, two: real, ten: real, thirtyThree: real)
    ensures Run([Number(one)] + ([CloseParen] + ([Asterix] + ([Number(three)] + ([Minus] + ([Number(one)] + ([CloseParen] + [])))))), State([OpenParen, Minus, OpenParen, Plus], [Slash, Number(two), Slash, Number(two), Number(ten), Asterix, Number(ten), Number(thirtyThree)])) == Ok(State([], [Minus, Number(one), Minus, Asterix, Number(three), Plus, Number(one), Slash, Number(two), Slash, Number(two), Number(ten), Asterix, Number(ten), Number(thirtyThree)]))
  {
    ParseMixedExpressionEnclosedFrom13(three, one, two, ten, thirtyThree);
    assert [Number(one)] + [Slash, Number(two), Slash, Number(two), Number(ten), Asterix, Number(ten), Number(thirtyThree)] == [Number(one), Slash, Number(two), Slash, Number(two), Number(ten), Asterix, Number(ten), Number(thirtyThree)];
    RunCons(Number(one), [CloseParen] + ([Asterix] + ([Number(three)] + ([Minus] + ([Number(one)] + ([CloseParen] + []))))), State([OpenParen, Minus, OpenParen, Plus], [Slash, Number(two), Slash, Number(two), Number(ten), Asterix, Number(ten), Number(thirtyThree)]), State([OpenParen, Minus, OpenParen, Plus], [Number(one), Slash, Number(two), Slash, Number(two), Number(ten), Asterix, Number(ten), Number(thirtyThree)]));
  }

  lemma ParseMixedExpressionEnclosedFrom11(one: real, three: real, two: real, ten: real, thirtyThree: real)
    ensures Run([Plus] + ([Number(one)] + ([CloseParen] + ([Asterix] + ([Number(three)] + ([Minus] + ([Number(one)] + ([CloseParen] + []))))))), State([OpenParen, Minus, OpenParen, Slash], [Number(two), Slash, Number(two), Number(ten), Asterix, Number(ten), Number(thirtyThree)])) == Ok(State([], [Minus, Number(one), Minus, Asterix, Number(three), Plus, Number(one), Slash, Number(two), Slash, Number(two), Number(ten), Asterix, Number(ten), Number(thirtyThree)]))
  {
    ParseMixedExpressionEnclosedFrom12(one, three, two, ten, thirtyThree);
    OperatorPopsToParen(Plus, [OpenParen, Minus, OpenParen], [Slash], [Number(two), Slash, Number(two), Number(ten), Asterix, Number(ten), Number(thirtyThree)]);
    assert [OpenParen, Minus, OpenParen] + [Slash] == [OpenParen, Minus, OpenParen, Slash];
    assert [OpenParen, Minus, OpenParen] + [Plus] == [OpenParen, Minus, OpenParen, Plus];
    assert [Slash] + [Number(two), Slash, Number(two), Number(ten), Asterix, Number(ten), Number(thirtyThree)] == [Slash, Number(two), Slash, Number(two), Number(ten), Asterix, Number(ten), Number(thirtyThree)];
    RunCons(Plus, [Number(one)] + ([CloseParen] + ([Asterix] + ([Number(three)] + ([Minus] + ([Number(one)] + ([CloseParen] + [])))))), State([OpenParen, Minus, OpenParen, Slash], [Number(two), Slash, Number(two), Number(ten), Asterix, Number(ten), Number(thirtyThree)]), State([OpenParen, Minus, OpenParen, Plus], [Slash, Number(two), Slash, Number(two), Number(ten), Asterix, Number(ten), Number(thirtyThree)]));
  }

  lemma ParseMixedExpressionEnclosedFrom10(two: real, one: real, three: real, ten: real, thirtyThree: real)
    ensures Run([Number(two)] + ([Plus] + ([Number(one)] + ([CloseParen] + ([Asterix] + ([Number(three)] + ([Minus] + ([Number(one)] + ([CloseParen] + [])))))))), State([OpenParen, Minus, OpenParen, Slash], [Slash, Number(two), Number(ten), Asterix, Number(ten), Number(thirtyThree)])) == Ok(State([], [Minus, Number(one), Minus, Asterix, Number(three), Plus, Number(one), Slash, Number(two), Slash, Number(two), Number(ten), Asterix, Number(ten), Number(thirtyThree)]))
  {
    ParseMixedExpressionEnclosedFrom11(one, three, two, ten, thirtyThree);
    assert [Number(two)] + [Slash, Number(two), Number(ten), Asterix, Number(ten), Number(thirtyThree)] == [Number(two), Slash, Number(two), Number(ten), Asterix, Number(ten), Number(thirtyThree)];
    RunCons(Number(two), [Plus] + ([Number(one)] + ([CloseParen] + ([Asterix] + ([Number(three)] + ([Minus] + ([Number(one)] + ([CloseParen] + []))))))), State([OpenParen, Minus, OpenParen, Slash], [Slash, Number(two), Number(ten), Asterix, Number(ten), Number(thirtyThree)]), State([OpenParen, Minus, OpenParen, Slash], [Number(two), Slash, Number(two), Number(ten), Asterix, Number(ten), Number(thirtyThree)]));
  }

  lemma ParseMixedExpressionEnclosedFrom9(two: real, one: real, three: real, ten: real, thirtyThree: real)
    ensures Run([Slash] + ([Number(two)] + ([Plus] + ([Number(one)] + ([CloseParen] + ([Asterix] + ([Number(three)] + ([Minus] + ([Number(one)] + ([CloseParen] + []))))))))), State([OpenParen, Minus, OpenParen, Slash], [Number(two), Number(ten), Asterix, Number(ten), Number(thirtyThree)])) == Ok(State([], [Minus, Number(one), Minus, Asterix, Number(three), Plus, Number(one), Slash, Number(two), Slash, Number(two), Number(ten), Asterix, Number(ten), Number(thirtyThree)]))
  {
    ParseMixedExpressionEnclosedFrom10(two, one, three, ten, thirtyThree);
    OperatorPopsToParen(Slash, [OpenParen, Minus, OpenParen], [Slash], [Number(two), Number(ten), Asterix, Number(ten), Number(thirtyThree)]);
    assert [OpenParen, Minus, OpenParen] + [Slash] == [OpenParen, Minus, OpenParen, Slash];
    assert [OpenParen, Minus, OpenParen] + [Slash] == [OpenParen, Minus, OpenParen, Slash];
    assert [Slash] + [Number(two), Number(ten), Asterix, Number(ten), Number(thirtyThree)] == [Slash, Number(two), Number(ten), Asterix, Number(ten), Number(thirtyThree)];
    RunCons(Slash, [Number(two)] + ([Plus] + ([Number(one)] + ([CloseParen] + ([Asterix] + ([Number(three)] + ([Minus] + ([Number(one)] + ([CloseParen] + [])))))))), State([OpenParen, Minus, OpenParen, Slash], [Number(two), Number(ten), Asterix, Number(ten), Number(thirtyThree)]), State([OpenParen, Minus, OpenParen, Slash], [Slash, Number(two), Number(ten), Asterix, Number(ten), Number(thirtyThree)]));
  }

  lemma ParseMixedExpressionEnclosedFrom8(two: real, one: real, three: real, ten: real, thirtyThree: real)
    ensures Run([Number(two)] + ([Slash] + ([Number(two)] + ([Plus] + ([Number(one)] + ([CloseParen] + ([Asterix] + ([Number(three)] + ([Minus] + ([Number(one)] + ([CloseParen] + [])))))))))), State([OpenParen, Minus, OpenParen, Slash], [Number(ten), Asterix, Number(ten), Number(thirtyThree)])) == Ok(State([], [Minus, Number(one), Minus, Asterix, Number(three), Plus, Number(one), Slash, Number(two), Slash, Number(two), Number(ten), Asterix, Number(ten), Number(thirtyThree)]))
  {
    ParseMixedExpressionEnclosedFrom9(two, one, three, ten, thirtyThree);
    assert [Number(two)] + [Number(ten), Asterix, Number(ten), Number(thirtyThree)] == [Number(two), Number(ten), Asterix, Number(ten), Number(thirtyThree)];
    RunCons(Number(two), [Slash] + ([Number(two)] + ([Plus] + ([Number(one)] + ([CloseParen] + ([Asterix] + ([Number(three)] + ([Minus] + ([Number(one)] + ([CloseParen] + []))))))))), State([OpenParen, Minus, OpenParen, Slash], [Number(ten), Asterix, Number(ten), Number(thirtyThree)]), State([OpenParen, Minus, OpenParen, Slash], [Number(two), Number(ten), Asterix, Number(ten), Number(thirtyThree)]));
  }

  lemma ParseMixedExpressionEnclosedFrom7(two: real, one: real, three: real, ten: real, thirtyThree: real)
    ensures Run([Slash] + ([Number(two)] + ([Slash] + ([Number(two)] + ([Plus] + ([Number(one)] + ([CloseParen] + ([Asterix] + ([Number(three)] + ([Minus] + ([Number(one)] + ([CloseParen] + []))))))))))), State([OpenParen, Minus, OpenParen], [Number(ten), Asterix, Number(ten), Number(thirtyThree)])) == Ok(State([], [Minus, Number(one), Minus, Asterix, Number(three), Plus, Number(one), Slash, Number(two), Slash, Number(two), Number(ten), Asterix, Number(ten), Number(thirtyThree)]))
  {
    ParseMixedExpressionEnclosedFrom8(two, one, three, ten, thirtyThree);
    OperatorPushed(Slash, [OpenParen, Minus, OpenParen], [Number(ten), Asterix, Number(ten), Number(thirtyThree)]);
    assert [OpenParen, Minus, OpenParen] + [Slash] == [OpenParen, Minus, OpenParen, Slash];
    RunCons(Slash, [Number(two)] + ([Slash] + ([Number(two)] + ([Plus] + ([Number(one)] + ([CloseParen] + ([Asterix] + ([Number(three)] + ([Minus] + ([Number(one)] + ([CloseParen] + [])))))))))), State([OpenParen, Minus, OpenParen], [Number(ten), Asterix, Number(ten), Number(thirtyThree)]), State([OpenParen, Minus, OpenParen, Slash], [Number(ten), Asterix, Number(ten), Number(thirtyThree)]));
  }

  lemma ParseMixedExpressionEnclosedFrom6(ten: real, two: real, one: real, three: real, thirtyThree: real)
    ensures Run([Number(ten)] + ([Slash] + ([Number(two)] + ([Slash] + ([Number(two)] + ([Plus] + ([Number(one)] + ([CloseParen] + ([Asterix] + ([Number(three)] + ([Minus] + ([Number(one)] + ([CloseParen] + [])))))))))))), State([OpenParen, Minus, OpenParen], [Asterix, Number(ten), Number(thirtyThree)])) == Ok(State([], [Minus, Number(one), Minus, Asterix, Number(three), Plus, Number(one), Slash, Number(two), Slash, Number(two), Number(ten), Asterix, Number(ten), Number(thirtyThree)]))
  {
    ParseMixedExpressionEnclosedFrom7(two, one, three, ten, thirtyThree);
    assert [Number(ten)] + [Asterix, Number(ten), Number(thirtyThree)] == [Number(ten), Asterix, Number(ten), Number(thirtyThree)];
    RunCons(Number(ten), [Slash] + ([Number(two)] + ([Slash] + ([Number(two)] + ([Plus] + ([Number(one)] + ([CloseParen] + ([Asterix] + ([Number(three)] + ([Minus] + ([Number(one)] + ([CloseParen] + []))))))))))), State([OpenParen, Minus, OpenParen], [Asterix, Number(ten), Number(thirtyThree)]), State([OpenParen, Minus, OpenParen], [Number(ten), Asterix, Number(ten), Number(thirtyThree)]));
  }

  lemma ParseMixedExpressionEnclosedFrom5(ten: real, two: real, one: real, three: real, thirtyThree: real)
    ensures Run([OpenParen] + ([Number(ten)] + ([Slash] + ([Number(two)] + ([Slash] + ([Number(two)] + ([Plus] + ([Number(one)] + ([CloseParen] + ([Asterix] + ([Number(three)] + ([Minus] + ([Number(one)] + ([CloseParen] + []))))))))))))), State([OpenParen, Minus], [Asterix, Number(ten), Number(thirtyThree)])) == Ok(State([], [Minus, Number(one), Minus, Asterix, Number(three), Plus, Number(one), Slash, Number(two), Slash, Number(two), Number(ten), Asterix, Number(ten), Number(thirtyThree)]))
  {
    ParseMixedExpressionEnclosedFrom6(ten, two, one, three, thirtyThree);
    assert [OpenParen, Minus] + [OpenParen] == [OpenParen, Minus, OpenParen];
    RunCons(OpenParen, [Number(ten)] + ([Slash] + ([Number(two)] + ([Slash] + ([Number(two)] + ([Plus] + ([Number(one)] + ([CloseParen] + ([Asterix] + ([Number(three)] + ([Minus] + ([Number(one)] + ([CloseParen] + [])))))))))))), State([OpenParen, Minus], [Asterix, Number(ten), Number(thirtyThree)]), State([OpenParen, Minus, OpenParen], [Asterix, Number(ten), Number(thirtyThree)]));
  }

  lemma ParseMixedExpressionEnclosedFrom4(ten: real, two: real, one: real, three: real, thirtyThree: real)
    ensures Run([Minus] + ([OpenParen] + ([Number(ten)] + ([Slash] + ([Number(two)] + ([Slash] + ([Number(two)] + ([Plus] + ([Number(one)] + ([CloseParen] + ([Asterix] + ([Number(three)] + ([Minus] + ([Number(one)] + ([CloseParen] + [])))))))))))))), State([OpenParen, Asterix], [Number(ten), Number(thirtyThree)])) == Ok(State([], [Minus, Number(one), Minus, Asterix, Number(three), Plus, Number(one), Slash, Number(two), Slash, Number(two), Number(ten), Asterix, Number(ten), Number(thirtyThree)]))
  {
    ParseMixedExpressionEnclosedFrom5(ten, two, one, three, thirtyThree);
    OperatorPopsToParen(Minus, [OpenParen], [Asterix], [Number(ten), Number(thirtyThree)]);
    assert [OpenParen] + [Asterix] == [OpenParen, Asterix];
    assert [OpenParen] + [Minus] == [OpenParen, Minus];
    assert [Asterix] + [Number(ten), Number(thirtyThree)] == [Asterix, Number(ten), Number(thirtyThree)];
    RunCons(Minus, [OpenParen] + ([Number(ten)] + ([Slash] + ([Number(two)] + ([Slash] + ([Number(two)] + ([Plus] + ([Number(one)] + ([CloseParen] + ([Asterix] + ([Number(three)] + ([Minus] + ([Number(one)] + ([CloseParen] + []))))))))))))), State([OpenParen, Asterix], [Number(ten), Number(thirtyThree)]), State([OpenParen, Minus], [Asterix, Number(ten), Number(thirtyThree)]));
  }

  lemma ParseMixedExpressionEnclosedFrom3(ten: real, two: real, one: real, three: real, thirtyThree: real)
    ensures Run([Number(ten)] + ([Minus] + ([OpenParen] + ([Number(ten)] + ([Slash] + ([Number(two)] + ([Slash] + ([Number(two)] + ([Plus] + ([Number(one)] + ([CloseParen] + ([Asterix] + ([Number(three)] + ([Minus] + ([Number(one)] + ([CloseParen] + []))))))))))))))), State([OpenParen, Asterix], [Number(thirtyThree)])) == Ok(State([], [Minus, Number(one), Minus, Asterix, Number(three), Plus, Number(one), Slash, Number(two), Slash, Number(two), Number(ten), Asterix, Number(ten), Number(thirtyThree)]))
  {
    ParseMixedExpressionEnclosedFrom4(ten, two, one, three, thirtyThree);
    assert [Number(ten)] + [Number(thirtyThree)] == [Number(ten), Number(thirtyThree)];
    RunCons(Number(ten), [Minus] + ([OpenParen] + ([Number(ten)] + ([Slash] + ([Number(two)] + ([Slash] + ([Number(two)] + ([Plus] + ([Number(one)] + ([CloseParen] + ([Asterix] + ([Number(three)] + ([Minus] + ([Number(one)] + ([CloseParen] + [])))))))))))))), State([OpenParen, Asterix], [Number(thirtyThree)]), State([OpenParen, Asterix], [Number(ten), Number(thirtyThree)]));
  }

  lemma ParseMixedExpressionEnclosedFrom2(ten: real, two: real, one: real, three: real, thirtyThree: real)
    ensures Run([Asterix] + ([Number(ten)] + ([Minus] + ([OpenParen] + ([Number(ten)] + ([Slash] + ([Number(two)] + ([Slash] + ([Number(two)] + ([Plus] + ([Number(one)] + ([CloseParen] + ([Asterix] + ([Number(three)] + ([Minus] + ([Number(one)] + ([CloseParen] + [])))))))))))))))), State([OpenParen], [Number(thirtyThree)])) == Ok(State([], [Minus, Number(one), Minus, Asterix, Number(three), Plus, Number(one), Slash, Number(two), Slash, Number(two), Number(ten), Asterix, Number(ten), Number(thirtyThree)]))
  {
    ParseMixedExpressionEnclosedFrom3(ten, two, one, three, thirtyThree);
    OperatorPushed(Asterix, [OpenParen], [Number(thirtyThree)]);
    assert [OpenParen] + [Asterix] == [OpenParen, Asterix];
    RunCons(Asterix, [Number(ten)] + ([Minus] + ([OpenParen] + ([Number(ten)] + ([Slash] + ([Number(two)] + ([Slash] + ([Number(two)] + ([Plus] + ([Number(one)] + ([CloseParen] + ([Asterix] + ([Number(three)] + ([Minus] + ([Number(one)] + ([CloseParen] + []))))))))))))))), State([OpenParen], [Number(thirtyThree)]), State([OpenParen, Asterix], [Number(thirtyThree)]));
  }

  lemma ParseMixedExpressionEnclosedFrom1(thirtyThree: real, ten: real, two: real, one: real, three: real)
    ensures Run([Number(thirtyThree)] + ([Asterix] + ([Number(ten)] + ([Minus] + ([OpenParen] + ([Number(ten)] + ([Slash] + ([Number(two)] + ([Slash] + ([Number(two)] + ([Plus] + ([Number(one)] + ([CloseParen] + ([Asterix] + ([Number(three)] + ([Minus] + ([Number(one)] + ([CloseParen] + []))))))))))))))))), State([OpenParen], [])) == Ok(State([], [Minus, Number(one), Minus, Asterix, Number(three), Plus, Number(one), Slash, Number(two), Slash, Number(two), Number(ten), Asterix, Number(ten), Number(thirtyThree)]))
  {
    ParseMixedExpressionEnclosedFrom2(ten, two, one, three, thirtyThree);
    assert [Number(thirtyThree)] + [] == [Number(thirtyThree)];
    RunCons(Number(thirtyThree), [Asterix] + ([Number(ten)] + ([Minus] + ([OpenParen] + ([Number(ten)] + ([Slash] + ([Number(two)] + ([Slash] + ([Number(two)] + ([Plus] + ([Number(one)] + ([CloseParen] + ([Asterix] + ([Number(three)] + ([Minus] + ([Number(one)] + ([CloseParen] + [])))))))))))))))), State([OpenParen], []), State([OpenParen], [Number(thirtyThree)]));
  }

  lemma ParseMixedExpressionEnclosedFrom0(thirtyThree: real, ten: real, two: real, one: real, three: real)
    ensures Run([OpenParen] + ([Number(thirtyThree)] + ([Asterix] + ([Number(ten)] + ([Minus] + ([OpenParen] + ([Number(ten)] + ([Slash] + ([Number(two)] + ([Slash] + ([Number(two)] + ([Plus] + ([Number(one)] + ([CloseParen] + ([Asterix] + ([Number(three)] + ([Minus] + ([Number(one)] + ([CloseParen] + [])))))))))))))))))), State([], [])) == Ok(State([], [Minus, Number(one), Minus, Asterix, Number(three), Plus, Number(one), Slash, Number(two), Slash, Number(two), Number(ten), Asterix, Number(ten), Number(thirtyThree)]))
  {
    ParseMixedExpressionEnclosedFrom1(thirtyThree, ten, two, one, three);
    assert [] + [OpenParen] == [OpenParen];
    RunCons(OpenParen, [Number(thirtyThree)] + ([Asterix] + ([Number(ten)] + ([Minus] + ([OpenParen] + ([Number(ten)] + ([Slash] + ([Number(two)] + ([Slash] + ([Number(two)] + ([Plus] + ([Number(one)] + ([CloseParen] + ([Asterix] + ([Number(three)] + ([Minus] + ([Number(one)] + ([CloseParen] + []))))))))))))))))), State([], []), State([OpenParen], []));
  }

  lemma ParseMixedExpressionEnclosedShape16(one: real)
    ensures NoRewrites([Minus] + ([Number(one)] + ([CloseParen] + []))) && SignsSeparated([Minus] + ([Number(one)] + ([CloseParen] + [])))
  {
    ParseTenTimesElevenShape5(one);
    NoRewritesCons(Minus, [Number(one)] + ([CloseParen] + []));
    SignsSeparatedCons(Minus, [Number(one)] + ([CloseParen] + []));
  }

  lemma ParseMixedExpressionEnclosedShape15(three: real, one: real)
    ensures NoRewrites([Number(three)] + ([Minus] + ([Number(one)] + ([CloseParen] + [])))) && SignsSeparated([Number(three)] + ([Minus] + ([Number(one)] + ([CloseParen] + []))))
  {
    ParseMixedExpressionEnclosedShape16(one);
    NoRewritesCons(Number(three), [Minus] + ([Number(one)] + ([CloseParen] + [])));
    SignsSeparatedCons(Number(three), [Minus] + ([Number(one)] + ([CloseParen] + [])));
  }

  lemma ParseMixedExpressionEnclosedShape14(three: real, one: real)
    ensures NoRewrites([Asterix] + ([Number(three)] + ([Minus] + ([Number(one)] + ([CloseParen] + []))))) && SignsSeparated([Asterix] + ([Number(three)] + ([Minus] + ([Number(one)] + ([CloseParen] + [])))))
  {
    ParseMixedExpressionEnclosedShape15(three, one);
    NoRewritesCons(Asterix, [Number(three)] + ([Minus] + ([Number(one)] + ([CloseParen] + []))));
    SignsSeparatedCons(Asterix, [Number(three)] + ([Minus] + ([Number(one)] + ([CloseParen] + []))));
  }

  lemma ParseMixedExpressionEnclosedShape13(three: real, one: real)
    ensures NoRewrites([CloseParen] + ([Asterix] + ([Number(three)] + ([Minus] + ([Number(one)] + ([CloseParen] + [])))))) && SignsSeparated([CloseParen] + ([Asterix] + ([Number(three)] + ([Minus] + ([Number(one)] + ([CloseParen] + []))))))
  {
    ParseMixedExpressionEnclosedShape14(three, one);
    NoRewritesCons(CloseParen, [Asterix] + ([Number(three)] + ([Minus] + ([Number(one)] + ([CloseParen] + [])))));
    SignsSeparatedCons(CloseParen, [Asterix] + ([Number(three)] + ([Minus] + ([Number(one)] + ([CloseParen] + [])))));
  }

  lemma ParseMixedExpressionEnclosedShape12(one: real, three: real)
    ensures NoRewrites([Number(one)] + ([CloseParen] + ([Asterix] + ([Number(three)] + ([Minus] + ([Number(one)] + ([CloseParen] + []))))))) && SignsSeparated([Number(one)] + ([CloseParen] + ([Asterix] + ([Number(three)] + ([Minus] + ([Number(one)] + ([CloseParen] + [])))))))
  {
    ParseMixedExpressionEnclosedShape13(three, one);
    NoRewritesCons(Number(one), [CloseParen] + ([Asterix] + ([Number(three)] + ([Minus] + ([Number(one)] + ([CloseParen] + []))))));
    SignsSeparatedCons(Number(one), [CloseParen] + ([Asterix] + ([Number(three)] + ([Minus] + ([Number(one)] + ([CloseParen] + []))))));
  }

  lemma ParseMixedExpressionEnclosedShape11(one: real, three: real)
    ensures NoRewrites([Plus] + ([Number(one)] + ([CloseParen] + ([Asterix] + ([Number(three)] + ([Minus] + ([Number(one)] + ([CloseParen] + [])))))))) && SignsSeparated([Plus] + ([Number(one)] + ([CloseParen] + ([Asterix] + ([Number(three)] + ([Minus] + ([Number(one)] + ([CloseParen] + []))))))))
  {
    ParseMixedExpressionEnclosedShape12(one, three);
    NoRewritesCons(Plus, [Number(one)] + ([CloseParen] + ([Asterix] + ([Number(three)] + ([Minus] + ([Number(one)] + ([CloseParen] + [])))))));
    SignsSeparatedCons(Plus, [Number(one)] + ([CloseParen] + ([Asterix] + ([Number(three)] + ([Minus] + ([Number(one)] + ([CloseParen] + [])))))));
  }

  lemma ParseMixedExpressionEnclosedShape10(two: real, one: real, three: real)
    ensures NoRewrites([Number(two)] + ([Plus] + ([Number(one)] + ([CloseParen] + ([Asterix] + ([Number(three)] + ([Minus] + ([Number(one)] + ([CloseParen] + []))))))))) && SignsSeparated([Number(two)] + ([Plus] + ([Number(one)] + ([CloseParen] + ([Asterix] + ([Number(three)] + ([Minus] + ([Number(one)] + ([CloseParen] + [])))))))))
  {
    ParseMixedExpressionEnclosedShape11(one, three);
    NoRewritesCons(Number(two), [Plus] + ([Number(one)] + ([CloseParen] + ([Asterix] + ([Number(three)] + ([Minus] + ([Number(one)] + ([CloseParen] + []))))))));
    SignsSeparatedCons(Number(two), [Plus] + ([Number(one)] + ([CloseParen] + ([Asterix] + ([Number(three)] + ([Minus] + ([Number(one)] + ([CloseParen] + []))))))));
  }

  lemma ParseMixedExpressionEnclosedShape9(two: real, one: real, three: real)
    ensures NoRewrites([Slash] + ([Number(two)] + ([Plus] + ([Number(one)] + ([CloseParen] + ([Asterix] + ([Number(three)] + ([Minus] + ([Number(one)] + ([CloseParen] + [])))))))))) && SignsSeparated([Slash] + ([Number(two)] + ([Plus] + ([Number(one)] + ([CloseParen] + ([Asterix] + ([Number(three)] + ([Minus] + ([Number(one)] + ([CloseParen] + []))))))))))
  {
    ParseMixedExpressionEnclosedShape10(two, one, three);
    NoRewritesCons(Slash, [Number(two)] + ([Plus] + ([Number(one)] + ([CloseParen] + ([Asterix] + ([Number(three)] + ([Minus] + ([Number(one)] + ([CloseParen] + [])))))))));
    SignsSeparatedCons(Slash, [Number(two)] + ([Plus] + ([Number(one)] + ([CloseParen] + ([Asterix] + ([Number(three)] + ([Minus] + ([Number(one)] + ([CloseParen] + [])))))))));
  }

  lemma ParseMixedExpressionEnclosedShape8(two: real, one: real, three: real)
    ensures NoRewrites([Number(two)] + ([Slash] + ([Number(two)] + ([Plus] + ([Number(one)] + ([CloseParen] + ([Asterix] + ([Number(three)] + ([Minus] + ([Number(one)] + ([CloseParen] + []))))))))))) && SignsSeparated([Number(two)] + ([Slash] + ([Number(two)] + ([Plus] + ([Number(one)] + ([CloseParen] + ([Asterix] + ([Number(three)] + ([Minus] + ([Number(one)] + ([CloseParen] + [])))))))))))
  {
    ParseMixedExpressionEnclosedShape9(two, one, three);
    NoRewritesCons(Number(two), [Slash] + ([Number(two)] + ([Plus] + ([Number(one)] + ([CloseParen] + ([Asterix] + ([Number(three)] + ([Minus] + ([Number(one)] + ([CloseParen] + []))))))))));
    SignsSeparatedCons(Number(two), [Slash] + ([Number(two)] + ([Plus] + ([Number(one)] + ([CloseParen] + ([Asterix] + ([Number(three)] + ([Minus] + ([Number(one)] + ([CloseParen] + []))))))))));
  }

  lemma ParseMixedExpressionEnclosedShape7(two: real, one: real, three: real)
    ensures NoRewrites([Slash] + ([Number(two)] + ([Slash] + ([Number(two)] + ([Plus] + ([Number(one)] + ([CloseParen] + ([Asterix] + ([Number(three)] + ([Minus] + ([Number(one)] + ([CloseParen] + [])))))))))))) && SignsSeparated([Slash] + ([Number(two)] + ([Slash] + ([Number(two)] + ([Plus] + ([Number(one)] + ([CloseParen] + ([Asterix] + ([Number(three)] + ([Minus] + ([Number(one)] + ([CloseParen] + []))))))))))))
  {
    ParseMixedExpressionEnclosedShape8(two, one, three);
    NoRewritesCons(Slash, [Number(two)] + ([Slash] + ([Number(two)] + ([Plus] + ([Number(one)] + ([CloseParen] + ([Asterix] + ([Number(three)] + ([Minus] + ([Number(one)] + ([CloseParen] + [])))))))))));
    SignsSeparatedCons(Slash, [Number(two)] + ([Slash] + ([Number(two)] + ([Plus] + ([Number(one)] + ([CloseParen] + ([Asterix] + ([Number(three)] + ([Minus] + ([Number(one)] + ([CloseParen] + [])))))))))));
  }

  lemma ParseMixedExpressionEnclosedShape6(ten: real, two: real, one: real, three: real)
    ensures NoRewrites([Number(ten)] + ([Slash] + ([Number(two)] + ([Slash] + ([Number(two)] + ([Plus] + ([Number(one)] + ([CloseParen] + ([Asterix] + ([Number(three)] + ([Minus] + ([Number(one)] + ([CloseParen] + []))))))))))))) && SignsSeparated([Number(ten)] + ([Slash] + ([Number(two)] + ([Slash] + ([Number(two)] + ([Plus] + ([Number(one)] + ([CloseParen] + ([Asterix] + ([Number(three)] + ([Minus] + ([Number(one)] + ([CloseParen] + [])))))))))))))
  {
    ParseMixedExpressionEnclosedShape7(two, one, three);
    NoRewritesCons(Number(ten), [Slash] + ([Number(two)] + ([Slash] + ([Number(two)] + ([Plus] + ([Number(one)] + ([CloseParen] + ([Asterix] + ([Number(three)] + ([Minus] + ([Number(one)] + ([CloseParen] + []))))))))))));
    SignsSeparatedCons(Number(ten), [Slash] + ([Number(two)] + ([Slash] + ([Number(two)] + ([Plus] + ([Number(one)] + ([CloseParen] + ([Asterix] + ([Number(three)] + ([Minus] + ([Number(one)] + ([CloseParen] + []))))))))))));
  }

  lemma ParseMixedExpressionEnclosedShape5(ten: real, two: real, one: real, three: real)
    ensures NoRewrites([OpenParen] + ([Number(ten)] + ([Slash] + ([Number(two)] + ([Slash] + ([Number(two)] + ([Plus] + ([Number(one)] + ([CloseParen] + ([Asterix] + ([Number(three)] + ([Minus] + ([Number(one)] + ([CloseParen] + [])))))))))))))) && SignsSeparated([OpenParen] + ([Number(ten)] + ([Slash] + ([Number(two)] + ([Slash] + ([Number(two)] + ([Plus] + ([Number(one)] + ([CloseParen] + ([Asterix] + ([Number(three)] + ([Minus] + ([Number(one)] + ([CloseParen] + []))))))))))))))
  {
    ParseMixedExpressionEnclosedShape6(ten, two, one, three);
    NoRewritesCons(OpenParen, [Number(ten)] + ([Slash] + ([Number(two)] + ([Slash] + ([Number(two)] + ([Plus] + ([Number(one)] + ([CloseParen] + ([Asterix] + ([Number(three)] + ([Minus] + ([Number(one)] + ([CloseParen] + [])))))))))))));
    SignsSeparatedCons(OpenParen, [Number(ten)] + ([Slash] + ([Number(two)] + ([Slash] + ([Number(two)] + ([Plus] + ([Number(one)] + ([CloseParen] + ([Asterix] + ([Number(three)] + ([Minus] + ([Number(one)] + ([CloseParen] + [])))))))))))));
  }

  lemma ParseMixedExpressionEnclosedShape4(ten: real, two: real, one: real, three: real)
    ensures NoRewrites([Minus] + ([OpenParen] + ([Number(ten)] + ([Slash] + ([Number(two)] + ([Slash] + ([Number(two)] + ([Plus] + ([Number(one)] + ([CloseParen] + ([Asterix] + ([Number(three)] + ([Minus] + ([Number(one)] + ([CloseParen] + []))))))))))))))) && SignsSeparated([Minus] + ([OpenParen] + ([Number(ten)] + ([Slash] + ([Number(two)] + ([Slash] + ([Number(two)] + ([Plus] + ([Number(one)] + ([CloseParen] + ([Asterix] + ([Number(three)] + ([Minus] + ([Number(one)] + ([CloseParen] + [])))))))))))))))
  {
    ParseMixedExpressionEnclosedShape5(ten, two, one, three);
    NoRewritesCons(Minus, [OpenParen] + ([Number(ten)] + ([Slash] + ([Number(two)] + ([Slash] + ([Number(two)] + ([Plus] + ([Number(one)] + ([CloseParen] + ([Asterix] + ([Number(three)] + ([Minus] + ([Number(one)] + ([CloseParen] + []))))))))))))));
    SignsSeparatedCons(Minus, [OpenParen] + ([Number(ten)] + ([Slash] + ([Number(two)] + ([Slash] + ([Number(two)] + ([Plus] + ([Number(one)] + ([CloseParen] + ([Asterix] + ([Number(three)] + ([Minus] + ([Number(one)] + ([CloseParen] + []))))))))))))));
  }

  lemma ParseMixedExpressionEnclosedShape3(ten: real, two: real, one: real, three: real)
    ensures NoRewrites([Number(ten)] + ([Minus] + ([OpenParen] + ([Number(ten)] + ([Slash] + ([Number(two)] + ([Slash] + ([Number(two)] + ([Plus] + ([Number(one)] + ([CloseParen] + ([Asterix] + ([Number(three)] + ([Minus] + ([Number(one)] + ([CloseParen] + [])))))))))))))))) && SignsSeparated([Number(ten)] + ([Minus] + ([OpenParen] + ([Number(ten)] + ([Slash] + ([Number(two)] + ([Slash] + ([Number(two)] + ([Plus] + ([Number(one)] + ([CloseParen] + ([Asterix] + ([Number(three)] + ([Minus] + ([Number(one)] + ([CloseParen] + []))))))))))))))))
  {
    ParseMixedExpressionEnclosedShape4(ten, two, one, three);
    NoRewritesCons(Number(ten), [Minus] + ([OpenParen] + ([Number(ten)] + ([Slash] + ([Number(two)] + ([Slash] + ([Number(two)] + ([Plus] + ([Number(one)] + ([CloseParen] + ([Asterix] + ([Number(three)] + ([Minus] + ([Number(one)] + ([CloseParen] + [])))))))))))))));
    SignsSeparatedCons(Number(ten), [Minus] + ([OpenParen] + ([Number(ten)] + ([Slash] + ([Number(two)] + ([Slash] + ([Number(two)] + ([Plus] + ([Number(one)] + ([CloseParen] + ([Asterix] + ([Number(three)] + ([Minus] + ([Number(one)] + ([CloseParen] + [])))))))))))))));
  }

  lemma ParseMixedExpressionEnclosedShape2(ten: real, two: real, one: real, three: real)
    ensures NoRewrites([Asterix] + ([Number(ten)] + ([Minus] + ([OpenParen] + ([Number(ten)] + ([Slash] + ([Number(two)] + ([Slash] + ([Number(two)] + ([Plus] + ([Number(one)] + ([CloseParen] + ([Asterix] + ([Number(three)] + ([Minus] + ([Number(one)] + ([CloseParen] + []))))))))))))))))) && SignsSeparated([Asterix] + ([Number(ten)] + ([Minus] + ([OpenParen] + ([Number(ten)] + ([Slash] + ([Number(two)] + ([Slash] + ([Number(two)] + ([Plus] + ([Number(one)] + ([CloseParen] + ([Asterix] + ([Number(three)] + ([Minus] + ([Number(one)] + ([CloseParen] + [])))))))))))))))))
  {
    ParseMixedExpressionEnclosedShape3(ten, two, one, three);
    NoRewritesCons(Asterix, [Number(ten)] + ([Minus] + ([OpenParen] + ([Number(ten)] + ([Slash] + ([Number(two)] + ([Slash] + ([Number(two)] + ([Plus] + ([Number(one)] + ([CloseParen] + ([Asterix] + ([Number(three)] + ([Minus] + ([Number(one)] + ([CloseParen] + []))))))))))))))));
    SignsSeparatedCons(Asterix, [Number(ten)] + ([Minus] + ([OpenParen] + ([Number(ten)] + ([Slash] + ([Number(two)] + ([Slash] + ([Number(two)] + ([Plus] + ([Number(one)] + ([CloseParen] + ([Asterix] + ([Number(three)] + ([Minus] + ([Number(one)] + ([CloseParen] + []))))))))))))))));
  }

  lemma ParseMixedExpressionEnclosedShape1(thirtyThree: real, ten: real, two: real, one: real, three: real)
    ensures NoRewrites([Number(thirtyThree)] + ([Asterix] + ([Number(ten)] + ([Minus] + ([OpenParen] + ([Number(ten)] + ([Slash] + ([Number(two)] + ([Slash] + ([Number(two)] + ([Plus] + ([Number(one)] + ([CloseParen] + ([Asterix] + ([Number(three)] + ([Minus] + ([Number(one)] + ([CloseParen] + [])))))))))))))))))) && SignsSeparated([Number(thirtyThree)] + ([Asterix] + ([Number(ten)] + ([Minus] + ([OpenParen] + ([Number(ten)] + ([Slash] + ([Number(two)] + ([Slash] + ([Number(two)] + ([Plus] + ([Number(one)] + ([CloseParen] + ([Asterix] + ([Number(three)] + ([Minus] + ([Number(one)] + ([CloseParen] + []))))))))))))))))))
  {
    ParseMixedExpressionEnclosedShape2(ten, two, one, three);
    NoRewritesCons(Number(thirtyThree), [Asterix] + ([Number(ten)] + ([Minus] + ([OpenParen] + ([Number(ten)] + ([Slash] + ([Number(two)] + ([Slash] + ([Number(two)] + ([Plus] + ([Number(one)] + ([CloseParen] + ([Asterix] + ([Number(three)] + ([Minus] + ([Number(one)] + ([CloseParen] + [])))))))))))))))));
    SignsSeparatedCons(Number(thirtyThree), [Asterix] + ([Number(ten)] + ([Minus] + ([OpenParen] + ([Number(ten)] + ([Slash] + ([Number(two)] + ([Slash] + ([Number(two)] + ([Plus] + ([Number(one)] + ([CloseParen] + ([Asterix] + ([Number(three)] + ([Minus] + ([Number(one)] + ([CloseParen] + [])))))))))))))))));
  }

  lemma ParseMixedExpressionEnclosedShape0(thirtyThree: real, ten: real, two: real, one: real, three: real)
    ensures NoRewrites([OpenParen] + ([Number(thirtyThree)] + ([Asterix] + ([Number(ten)] + ([Minus] + ([OpenParen] + ([Number(ten)] + ([Slash] + ([Number(two)] + ([Slash] + ([Number(two)] + ([Plus] + ([Number(one)] + ([CloseParen] + ([Asterix] + ([Number(three)] + ([Minus] + ([Number(one)] + ([CloseParen] + []))))))))))))))))))) && SignsSeparated([OpenParen] + ([Number(thirtyThree)] + ([Asterix] + ([Number(ten)] + ([Minus] + ([OpenParen] + ([Number(ten)] + ([Slash] + ([Number(two)] + ([Slash] + ([Number(two)] + ([Plus] + ([Number(one)] + ([CloseParen] + ([Asterix] + ([Number(three)] + ([Minus] + ([Number(one)] + ([CloseParen] + [])))))))))))))))))))
  {
    ParseMixedExpressionEnclosedShape1(thirtyThree, ten, two, one, three);
    NoRewritesCons(OpenParen, [Number(thirtyThree)] + ([Asterix] + ([Number(ten)] + ([Minus] + ([OpenParen] + ([Number(ten)] + ([Slash] + ([Number(two)] + ([Slash] + ([Number(two)] + ([Plus] + ([Number(one)] + ([CloseParen] + ([Asterix] + ([Number(three)] + ([Minus] + ([Number(one)] + ([CloseParen] + []))))))))))))))))));
    SignsSeparatedCons(OpenParen, [Number(thirtyThree)] + ([Asterix] + ([Number(ten)] + ([Minus] + ([OpenParen] + ([Number(ten)] + ([Slash] + ([Number(two)] + ([Slash] + ([Number(two)] + ([Plus] + ([Number(one)] + ([CloseParen] + ([Asterix] + ([Number(three)] + ([Minus] + ([Number(one)] + ([CloseParen] + []))))))))))))))))));
  }

  lemma ParseMixedExpressionEnclosed(one: real, two: real, three: real, ten: real, thirtyThree: real)
    ensures ParseTokens([OpenParen] + ([Number(thirtyThree)] + ([Asterix] + ([Number(ten)] + ([Minus] + ([OpenParen] + ([Number(ten)] + ([Slash] + ([Number(two)] + ([Slash] + ([Number(two)] + ([Plus] + ([Number(one)] + ([CloseParen] + ([Asterix] + ([Number(three)] + ([Minus] + ([Number(one)] + ([CloseParen] + []))))))))))))))))))) == Ok([Minus, Number(one), Minus, Asterix, Number(three), Plus, Number(one), Slash, Number(two), Slash, Number(two), Number(ten), Asterix, Number(ten), Number(thirtyThree)])
  {
    var t := [OpenParen] + ([Number(thirtyThree)] + ([Asterix] + ([Number(ten)] + ([Minus] + ([OpenParen] + ([Number(ten)] + ([Slash] + ([Number(two)] + ([Slash] + ([Number(two)] + ([Plus] + ([Number(one)] + ([CloseParen] + ([Asterix] + ([Number(three)] + ([Minus] + ([Number(one)] + ([CloseParen] + []))))))))))))))))));
    ParseMixedExpressionEnclosedShape0(thirtyThree, ten, two, one, three);
    InsertParensPlain(t);
    BalanceSeparated(t);
    ParseMixedExpressionEnclosedFrom0(thirtyThree, ten, two, one, three);
    assert [] + [Minus, Number(one), Minus, Asterix, Number(three), Plus, Number(one), Slash, Number(two), Slash, Number(two), Number(ten), Asterix, Number(ten), Number(thirtyThree)] == [Minus, Number(one), Minus, Asterix, Number(three), Plus, Number(one), Slash, Number(two), Slash, Number(two), Number(ten), Asterix, Number(ten), Number(thirtyThree)];
  }

  /** `(33*10-(10/2/2+1)*3-1)` gives `318.5`, the standard value. */
  lemma MixedExpressionEnclosed(m: Maths)
    requires m.literal("1") == 1.0 && m.literal("2") == 2.0 && m.literal("3") == 3.0 && m.literal("10") == 10.0 && m.literal("33") == 33.0
    ensures InterpretSpec(m, "(33*10-(10/2/2+1)*3-1)") == Ok(318.5)
  {
    LexMixedExpressionEnclosed(m);
    ParseMixedExpressionEnclosed(1.0, 2.0, 3.0, 10.0, 33.0);
    ExecuteMixedExpression(m);
  }

  // ---------------------------------------------------------------------
  // "1 + 2 * 3 * 4": precedence read once
  // ---------------------------------------------------------------------

  /** The characters of `1 + 2 * 3 * 4`. */
  predicate PrecedenceReadOnceText(s: string) {
    |s| == 13 && s[0] == '1' && s[1] == ' ' && s[2] == '+' && s[3] == ' ' && s[4] == '2' && s[5] == ' ' && s[6] == '*' && s[7] == ' ' && s[8] == '3' && s[9] == ' ' && s[10] == '*' && s[11] == ' ' && s[12] == '4'
  }

  lemma PrecedenceReadOnceTextChars()
    ensures PrecedenceReadOnceText("1 + 2 * 3 * 4")
  {
  }

  lemma LexPrecedenceReadOnceFrom13(m: Maths, s: string)
    requires PrecedenceReadOnceText(s)
    ensures LexFrom(m, s, 13) == Ok([])
  {
    assert Scan(m, s, 13) == Ok(None);
  }

  lemma LexPrecedenceReadOnceFrom11(m: Maths, s: string)
    requires PrecedenceReadOnceText(s)
    ensures LexFrom(m, s, 11) == Ok([Number(m.literal("4"))] + [])
  {
    LexPrecedenceReadOnceFrom13(m, s);
    ScanLiteral(m, s, 12, 13);
    assert s[12..13] == "4";
    ScanAfter(m, s, 11, 12, Number(m.literal("4")), 13);
  }

  lemma LexPrecedenceReadOnceFrom9(m: Maths, s: string)
    requires PrecedenceReadOnceText(s)
    ensures LexFrom(m, s, 9) == Ok([Asterix] + ([Number(m.literal("4"))] + []))
  {
    LexPrecedenceReadOnceFrom11(m, s);
    ScanSymbol(m, s, 10);
    ScanAfter(m, s, 9, 10, Asterix, 11);
  }

  lemma LexPrecedenceReadOnceFrom7(m: Maths, s: string)
    requires PrecedenceReadOnceText(s)
    ensures LexFrom(m, s, 7) == Ok([Number(m.literal("3"))] + ([Asterix] + ([Number(m.literal("4"))] + [])))
  {
    LexPrecedenceReadOnceFrom9(m, s);
    ScanLiteral(m, s, 8, 9);
    assert s[8..9] == "3";
    ScanAfter(m, s, 7, 8, Number(m.literal("3")), 9);
  }

  lemma LexPrecedenceReadOnceFrom5(m: Maths, s: string)
    requires PrecedenceReadOnceText(s)
    ensures LexFrom(m, s, 5) == Ok([Asterix] + ([Number(m.literal("3"))] + ([Asterix] + ([Number(m.literal("4"))] + []))))
  {
    LexPrecedenceReadOnceFrom7(m, s);
    ScanSymbol(m, s, 6);
    ScanAfter(m, s, 5, 6, Asterix, 7);
  }

  lemma LexPrecedenceReadOnceFrom3(m: Maths, s: string)
    requires PrecedenceReadOnceText(s)
    ensures LexFrom(m, s, 3) == Ok([Number(m.literal("2"))] + ([Asterix] + ([Number(m.literal("3"))] + ([Asterix] + ([Number(m.literal("4"))] + [])))))
  {
    LexPrecedenceReadOnceFrom5(m, s);
    ScanLiteral(m, s, 4, 5);
    assert s[4..5] == "2";
    ScanAfter(m, s, 3, 4, Number(m.literal("2")), 5);
  }

  lemma LexPrecedenceReadOnceFrom1(m: Maths, s: string)
    requires PrecedenceReadOnceText(s)
    ensures LexFrom(m, s, 1) == Ok([Plus] + ([Number(m.literal("2"))] + ([Asterix] + ([Number(m.literal("3"))] + ([Asterix] + ([Number(m.literal("4"))] + []))))))
  {
    LexPrecedenceReadOnceFrom3(m, s);
    ScanSymbol(m, s, 2);
    ScanAfter(m, s, 1, 2, Plus, 3);
  }

  lemma LexPrecedenceReadOnceFrom0(m: Maths, s: string)
    requires PrecedenceReadOnceText(s)
    ensures LexFrom(m, s, 0) == Ok([Number(m.literal("1"))] + ([Plus] + ([Number(m.literal("2"))] + ([Asterix] + ([Number(m.literal("3"))] + ([Asterix] + ([Number(m.literal("4"))] + [])))))))
  {
    LexPrecedenceReadOnceFrom1(m, s);
    ScanLiteral(m, s, 0, 1);
    assert s[0..1] == "1";
    ScanAfter(m, s, 0, 0, Number(m.literal("1")), 1);
  }

  lemma LexPrecedenceReadOnce(m: Maths)
    ensures Tokenize(m, "1 + 2 * 3 * 4") == Ok([Number(m.literal("1"))] + ([Plus] + ([Number(m.literal("2"))] + ([Asterix] + ([Number(m.literal("3"))] + ([Asterix] + ([Number(m.literal("4"))] + [])))))))
  {
    PrecedenceReadOnceTextChars();
    LexPrecedenceReadOnceFrom0(m, "1 + 2 * 3 * 4");
  }

  lemma ParsePrecedenceReadOnceFrom6(four: real, three: real, two: real, one: real)
    ensures Run([Number(four)] + [], State([Asterix], [Plus, Asterix, Number(three), Number(two), Number(one)])) == Ok(State([Asterix], [Number(four), Plus, Asterix, Number(three), Number(two), Number(one)]))
  {
    assert [Number(four)] + [Plus, Asterix, Number(three), Number(two), Number(one)] == [Number(four), Plus, Asterix, Number(three), Number(two), Number(one)];
    RunCons(Number(four), [], State([Asterix], [Plus, Asterix, Number(three), Number(two), Number(one)]), State([Asterix], [Number(four), Plus, Asterix, Number(three), Number(two), Number(one)]));
  }

  lemma ParsePrecedenceReadOnceFrom5(four: real, three: real, two: real, one: real)
    ensures Run([Asterix] + ([Number(four)] + []), State([Plus, Asterix], [Number(three), Number(two), Number(one)])) == Ok(State([Asterix], [Number(four), Plus, Asterix, Number(three), Number(two), Number(one)]))
  {
    ParsePrecedenceReadOnceFrom6(four, three, two, one);
    OperatorPopsToParen(Asterix, [], [Plus, Asterix], [Number(three), Number(two), Number(one)]);
    assert [] + [Plus, Asterix] == [Plus, Asterix];
    assert [] + [Asterix] == [Asterix];
    assert [Plus, Asterix] + [Number(three), Number(two), Number(one)] == [Plus, Asterix, Number(three), Number(two), Number(one)];
    RunCons(Asterix, [Number(four)] + [], State([Plus, Asterix], [Number(three), Number(two), Number(one)]), State([Asterix], [Plus, Asterix, Number(three), Number(two), Number(one)]));
  }

  lemma ParsePrecedenceReadOnceFrom4(three: real, four: real, two: real, one: real)
    ensures Run([Number(three)] + ([Asterix] + ([Number(four)] + [])), State([Plus, Asterix], [Number(two), Number(one)])) == Ok(State([Asterix], [Number(four), Plus, Asterix, Number(three), Number(two), Number(one)]))
  {
    ParsePrecedenceReadOnceFrom5(four, three, two, one);
    assert [Number(three)] + [Number(two), Number(one)] == [Number(three), Number(two), Number(one)];
    RunCons(Number(three), [Asterix] + ([Number(four)] + []), State([Plus, Asterix], [Number(two), Number(one)]), State([Plus, Asterix], [Number(three), Number(two), Number(one)]));
  }

  lemma ParsePrecedenceReadOnceFrom3(three: real, four: real, two: real, one: real)
    ensures Run([Asterix] + ([Number(three)] + ([Asterix] + ([Number(four)] + []))), State([Plus], [Number(two), Number(one)])) == Ok(State([Asterix], [Number(four), Plus, Asterix, Number(three), Number(two), Number(one)]))
  {
    ParsePrecedenceReadOnceFrom4(three, four, two, one);
    OperatorPushed(Asterix, [Plus], [Number(two), Number(one)]);
    assert [Plus] + [Asterix] == [Plus, Asterix];
    RunCons(Asterix, [Number(three)] + ([Asterix] + ([Number(four)] + [])), State([Plus], [Number(two), Number(one)]), State([Plus, Asterix], [Number(two), Number(one)]));
  }

  lemma ParsePrecedenceReadOnceFrom2(two: real, three: real, four: real, one: real)
    ensures Run([Number(two)] + ([Asterix] + ([Number(three)] + ([Asterix] + ([Number(four)] + [])))), State([Plus], [Number(one)])) == Ok(State([Asterix], [Number(four), Plus, Asterix, Number(three), Number(two), Number(one)]))
  {
    ParsePrecedenceReadOnceFrom3(three, four, two, one);
    assert [Number(two)] + [Number(one)] == [Number(two), Number(one)];
    RunCons(Number(two), [Asterix] + ([Number(three)] + ([Asterix] + ([Number(four)] + []))), State([Plus], [Number(one)]), State([Plus], [Number(two), Number(one)]));
  }

  lemma ParsePrecedenceReadOnceFrom1(two: real, three: real, four: real, one: real)
    ensures Run([Plus] + ([Number(two)] + ([Asterix] + ([Number(three)] + ([Asterix] + ([Number(four)] + []))))), State([], [Number(one)])) == Ok(State([Asterix], [Number(four), Plus, Asterix, Number(three), Number(two), Number(one)]))
  {
    ParsePrecedenceReadOnceFrom2(two, three, four, one);
    OperatorPushed(Plus, [], [Number(one)]);
    assert [] + [Plus] == [Plus];
    RunCons(Plus, [Number(two)] + ([Asterix] + ([Number(three)] + ([Asterix] + ([Number(four)] + [])))), State([], [Number(one)]), State([Plus], [Number(one)]));
  }

  lemma ParsePrecedenceReadOnceFrom0(one: real, two: real, three: real, four: real)
    ensures Run([Number(one)] + ([Plus] + ([Number(two)] + ([Asterix] + ([Number(three)] + ([Asterix] + ([Number(four)] + [])))))), State([], [])) == Ok(State([Asterix], [Number(four), Plus, Asterix, Number(three), Number(two), Number(one)]))
  {
    ParsePrecedenceReadOnceFrom1(two, three, four, one);
    assert [Number(one)] + [] == [Number(one)];
    RunCons(Number(one), [Plus] + ([Number(two)] + ([Asterix] + ([Number(three)] + ([Asterix] + ([Number(four)] + []))))), State([], []), State([], [Number(one)]));
  }

  lemma ParsePrecedenceReadOnceShape5(four: real)
    ensures NoRewrites([Asterix] + ([Number(four)] + [])) && SignsSeparated([Asterix] + ([Number(four)] + []))
  {
    ParseOnePlusOneShape2(four);
    NoRewritesCons(Asterix, [Number(four)] + []);
    SignsSeparatedCons(Asterix, [Number(four)] + []);
  }

  lemma ParsePrecedenceReadOnceShape4(three: real, four: real)
    ensures NoRewrites([Number(three)] + ([Asterix] + ([Number(four)] + []))) && SignsSeparated([Number(three)] + ([Asterix] + ([Number(four)] + [])))
  {
    ParsePrecedenceReadOnceShape5(four);
    NoRewritesCons(Number(three), [Asterix] + ([Number(four)] + []));
    SignsSeparatedCons(Number(three), [Asterix] + ([Number(four)] + []));
  }

  lemma ParsePrecedenceReadOnceShape3(three: real, four: real)
    ensures NoRewrites([Asterix] + ([Number(three)] + ([Asterix] + ([Number(four)] + [])))) && SignsSeparated([Asterix] + ([Number(three)] + ([Asterix] + ([Number(four)] + []))))
  {
    ParsePrecedenceReadOnceShape4(three, four);
    NoRewritesCons(Asterix, [Number(three)] + ([Asterix] + ([Number(four)] + [])));
    SignsSeparatedCons(Asterix, [Number(three)] + ([Asterix] + ([Number(four)] + [])));
  }

  lemma ParsePrecedenceReadOnceShape2(two: real, three: real, four: real)
    ensures NoRewrites([Number(two)] + ([Asterix] + ([Number(three)] + ([Asterix] + ([Number(four)] + []))))) && SignsSeparated([Number(two)] + ([Asterix] + ([Number(three)] + ([Asterix] + ([Number(four)] + [])))))
  {
    ParsePrecedenceReadOnceShape3(three, four);
    NoRewritesCons(Number(two), [Asterix] + ([Number(three)] + ([Asterix] + ([Number(four)] + []))));
    SignsSeparatedCons(Number(two), [Asterix] + ([Number(three)] + ([Asterix] + ([Number(four)] + []))));
  }

  lemma ParsePrecedenceReadOnceShape1(two: real, three: real, four: real)
    ensures NoRewrites([Plus] + ([Number(two)] + ([Asterix] + ([Number(three)] + ([Asterix] + ([Number(four)] + [])))))) && SignsSeparated([Plus] + ([Number(two)] + ([Asterix] + ([Number(three)] + ([Asterix] + ([Number(four)] + []))))))
  {
    ParsePrecedenceReadOnceShape2(two, three, four);
    NoRewritesCons(Plus, [Number(two)] + ([Asterix] + ([Number(three)] + ([Asterix] + ([Number(four)] + [])))));
    SignsSeparatedCons(Plus, [Number(two)] + ([Asterix] + ([Number(three)] + ([Asterix] + ([Number(four)] + [])))));
  }

  lemma ParsePrecedenceReadOnceShape0(one: real, two: real, three: real, four: real)
    ensures NoRewrites([Number(one)] + ([Plus] + ([Number(two)] + ([Asterix] + ([Number(three)] + ([Asterix] + ([Number(four)] + []))))))) && SignsSeparated([Number(one)] + ([Plus] + ([Number(two)] + ([Asterix] + ([Number(three)] + ([Asterix] + ([Number(four)] + [])))))))
  {
    ParsePrecedenceReadOnceShape1(two, three, four);
    NoRewritesCons(Number(one), [Plus] + ([Number(two)] + ([Asterix] + ([Number(three)] + ([Asterix] + ([Number(four)] + []))))));
    SignsSeparatedCons(Number(one), [Plus] + ([Number(two)] + ([Asterix] + ([Number(three)] + ([Asterix] + ([Number(four)] + []))))));
  }

  lemma ParsePrecedenceReadOnce(one: real, two: real, three: real, four: real)
    ensures ParseTokens([Number(one)] + ([Plus] + ([Number(two)] + ([Asterix] + ([Number(three)] + ([Asterix] + ([Number(four)] + []))))))) == Ok([Asterix, Number(four), Plus, Asterix, Number(three), Number(two), Number(one)])
  {
    var t := [Number(one)] + ([Plus] + ([Number(two)] + ([Asterix] + ([Number(three)] + ([Asterix] + ([Number(four)] + []))))));
    ParsePrecedenceReadOnceShape0(one, two, three, four);
    InsertParensPlain(t);
    BalanceSeparated(t);
    ParsePrecedenceReadOnceFrom0(one, two, three, four);
    assert [Asterix] + [Number(four), Plus, Asterix, Number(three), Number(two), Number(one)] == [Asterix, Number(four), Plus, Asterix, Number(three), Number(two), Number(one)];
  }

  lemma ExecutePrecedenceReadOnceFrom6(m: Maths)
    ensures ExecRun(m, [Asterix], [7.0, 4.0]) == Ok([28.0])
  {
    assert [7.0, 4.0][..0] + [28.0] == [28.0];
    assert ExecStep(m, Asterix, [7.0, 4.0]) == Ok([28.0]);
    ExecSnoc(m, [], Asterix, [7.0, 4.0], [28.0]);
    assert [] + [Asterix] == [Asterix];
  }

  lemma ExecutePrecedenceReadOnceFrom5(m: Maths)
    ensures ExecRun(m, [Asterix, Number(4.0)], [7.0]) == Ok([28.0])
  {
    ExecutePrecedenceReadOnceFrom6(m);
    assert [7.0] + [4.0] == [7.0, 4.0];
    assert ExecStep(m, Number(4.0), [7.0]) == Ok([7.0, 4.0]);
    ExecSnoc(m, [Asterix], Number(4.0), [7.0], [7.0, 4.0]);
    assert [Asterix] + [Number(4.0)] == [Asterix, Number(4.0)];
  }

  lemma ExecutePrecedenceReadOnceFrom4(m: Maths)
    ensures ExecRun(m, [Asterix, Number(4.0), Plus], [1.0, 6.0]) == Ok([28.0])
  {
    ExecutePrecedenceReadOnceFrom5(m);
    assert [1.0, 6.0][..0] + [7.0] == [7.0];
    assert ExecStep(m, Plus, [1.0, 6.0]) == Ok([7.0]);
    ExecSnoc(m, [Asterix, Number(4.0)], Plus, [1.0, 6.0], [7.0]);
    assert [Asterix, Number(4.0)] + [Plus] == [Asterix, Number(4.0), Plus];
  }

  lemma ExecutePrecedenceReadOnceFrom3(m: Maths)
    ensures ExecRun(m, [Asterix, Number(4.0), Plus, Asterix], [1.0, 2.0, 3.0]) == Ok([28.0])
  {
    ExecutePrecedenceReadOnceFrom4(m);
    assert [1.0, 2.0, 3.0][..1] + [6.0] == [1.0, 6.0];
    assert ExecStep(m, Asterix, [1.0, 2.0, 3.0]) == Ok([1.0, 6.0]);
    ExecSnoc(m, [Asterix, Number(4.0), Plus], Asterix, [1.0, 2.0, 3.0], [1.0, 6.0]);
    assert [Asterix, Number(4.0), Plus] + [Asterix] == [Asterix, Number(4.0), Plus, Asterix];
  }

  lemma ExecutePrecedenceReadOnceFrom2(m: Maths)
    ensures ExecRun(m, [Asterix, Number(4.0), Plus, Asterix, Number(3.0)], [1.0, 2.0]) == Ok([28.0])
  {
    ExecutePrecedenceReadOnceFrom3(m);
    assert [1.0, 2.0] + [3.0] == [1.0, 2.0, 3.0];
    assert ExecStep(m, Number(3.0), [1.0, 2.0]) == Ok([1.0, 2.0, 3.0]);
    ExecSnoc(m, [Asterix, Number(4.0), Plus, Asterix], Number(3.0), [1.0, 2.0], [1.0, 2.0, 3.0]);
    assert [Asterix, Number(4.0), Plus, Asterix] + [Number(3.0)] == [Asterix, Number(4.0), Plus, Asterix, Number(3.0)];
  }

  lemma ExecutePrecedenceReadOnceFrom1(m: Maths)
    ensures ExecRun(m, [Asterix, Number(4.0), Plus, Asterix, Number(3.0), Number(2.0)], [1.0]) == Ok([28.0])
  {
    ExecutePrecedenceReadOnceFrom2(m);
    assert [1.0] + [2.0] == [1.0, 2.0];
    assert ExecStep(m, Number(2.0), [1.0]) == Ok([1.0, 2.0]);
    ExecSnoc(m, [Asterix, Number(4.0), Plus, Asterix, Number(3.0)], Number(2.0), [1.0], [1.0, 2.0]);
    assert [Asterix, Number(4.0), Plus, Asterix, Number(3.0)] + [Number(2.0)] == [Asterix, Number(4.0), Plus, Asterix, Number(3.0), Number(2.0)];
  }

  lemma ExecutePrecedenceReadOnceFrom0(m: Maths)
    ensures ExecRun(m, [Asterix, Number(4.0), Plus, Asterix, Number(3.0), Number(2.0), Number(1.0)], []) == Ok([28.0])
  {
    ExecutePrecedenceReadOnceFrom1(m);
    assert [] + [1.0] == [1.0];
    assert ExecStep(m, Number(1.0), []) == Ok([1.0]);
    ExecSnoc(m, [Asterix, Number(4.0), Plus, Asterix, Number(3.0), Number(2.0)], Number(1.0), [], [1.0]);
    assert [Asterix, Number(4.0), Plus, Asterix, Number(3.0), Number(2.0)] + [Number(1.0)] == [Asterix, Number(4.0), Plus, Asterix, Number(3.0), Number(2.0), Number(1.0)];
  }

  lemma ExecutePrecedenceReadOnce(m: Maths)
    ensures Evaluate(m, [Asterix, Number(4.0), Plus, Asterix, Number(3.0), Number(2.0), Number(1.0)]) == Ok(28.0)
  {
    ExecutePrecedenceReadOnceFrom0(m);
  }

  /** `1 + 2 * 3 * 4` gives `28`, not the standard `25`: the second `*` pops the `+` below the first one, so the sum is taken before the last product. */
  lemma PrecedenceReadOnce(m: Maths)
    requires m.literal("1") == 1.0 && m.literal("2") == 2.0 && m.literal("3") == 3.0 && m.literal("4") == 4.0
    ensures InterpretSpec(m, "1 + 2 * 3 * 4") == Ok(28.0)
  {
    LexPrecedenceReadOnce(m);
    ParsePrecedenceReadOnce(1.0, 2.0, 3.0, 4.0);
    ExecutePrecedenceReadOnce(m);
  }

  // ---------------------------------------------------------------------
  // "x+1": the character after a one-letter word is consumed
  // ---------------------------------------------------------------------

  /** The characters of `x+1`. */
  predicate LetterSwallowsNextText(s: string) {
    |s| == 3 && s[0] == 'x' && s[1] == '+' && s[2] == '1'
  }

  lemma LetterSwallowsNextTextChars()
    ensures LetterSwallowsNextText("x+1")
  {
  }

  lemma LexLetterSwallowsNextFrom3(m: Maths, s: string)
    requires LetterSwallowsNextText(s)
    ensures LexFrom(m, s, 3) == Ok([])
  {
    assert Scan(m, s, 3) == Ok(None);
  }

  lemma LexLetterSwallowsNextFrom2(m: Maths, s: string)
    requires LetterSwallowsNextText(s)
    ensures LexFrom(m, s, 2) == Ok([Number(m.literal("1"))] + [])
  {
    LexLetterSwallowsNextFrom3(m, s);
    ScanLiteral(m, s, 2, 3);
    assert s[2..3] == "1";
    ScanAfter(m, s, 2, 2, Number(m.literal("1")), 3);
  }

  lemma LexLetterSwallowsNextFrom0(m: Maths, s: string)
    requires LetterSwallowsNextText(s)
    ensures LexFrom(m, s, 0) == Ok([Identifier("x")] + ([Number(m.literal("1"))] + []))
  {
    LexLetterSwallowsNextFrom2(m, s);
    ScanWord(m, s, 0);
    RunEndUnique(s, 1, WordStop, 1);
    assert [s[0]] == "x";
    assert LowerWord("x") == "x";
    ScanAfter(m, s, 0, 0, Identifier("x"), 2);
  }

  lemma LexLetterSwallowsNext(m: Maths)
    ensures Tokenize(m, "x+1") == Ok([Identifier("x")] + ([Number(m.literal("1"))] + []))
  {
    LetterSwallowsNextTextChars();
    LexLetterSwallowsNextFrom0(m, "x+1");
  }

  lemma ParseLetterSwallowsNextFrom1(one: real)
    ensures Run([Number(one)] + [], State([], [])) == Ok(State([], [Number(one)]))
  {
    assert [Number(one)] + [] == [Number(one)];
    RunCons(Number(one), [], State([], []), State([], [Number(one)]));
  }

  lemma ParseLetterSwallowsNextFrom0(one: real)
    ensures Run([Identifier("x")] + ([Number(one)] + []), State([], [])) == Ok(State([], [Number(one)]))
  {
    ParseLetterSwallowsNextFrom1(one);
    RunCons(Identifier("x"), [Number(one)] + [], State([], []), State([], []));
  }

  lemma ParseLetterSwallowsNextShape0(one: real)
    ensures NoRewrites([Identifier("x")] + ([Number(one)] + [])) && SignsSeparated([Identifier("x")] + ([Number(one)] + []))
  {
    ParseOnePlusOneShape2(one);
    NoRewritesCons(Identifier("x"), [Number(one)] + []);
    SignsSeparatedCons(Identifier("x"), [Number(one)] + []);
  }

  lemma ParseLetterSwallowsNext(one: real)
    ensures ParseTokens([Identifier("x")] + ([Number(one)] + [])) == Ok([Number(one)])
  {
    var t := [Identifier("x")] + ([Number(one)] + []);
    ParseLetterSwallowsNextShape0(one);
    InsertParensPlain(t);
    BalanceSeparated(t);
    ParseLetterSwallowsNextFrom0(one);
    assert [] + [Number(one)] == [Number(one)];
  }

  lemma ExecuteLetterSwallowsNextFrom0(m: Maths)
    ensures ExecRun(m, [Number(1.0)], []) == Ok([1.0])
  {
    assert [] + [1.0] == [1.0];
    assert ExecStep(m, Number(1.0), []) == Ok([1.0]);
    ExecSnoc(m, [], Number(1.0), [], [1.0]);
    assert [] + [Number(1.0)] == [Number(1.0)];
  }

  lemma ExecuteLetterSwallowsNext(m: Maths)
    ensures Evaluate(m, [Number(1.0)]) == Ok(1.0)
  {
    ExecuteLetterSwallowsNextFrom0(m);
  }

  /** `x+1` gives `1`: the `+` after the one-letter identifier `x` is read and dropped, and the identifier is ignored. */
  lemma LetterSwallowsNext(m: Maths)
    requires m.literal("1") == 1.0
    ensures InterpretSpec(m, "x+1") == Ok(1.0)
  {
    LexLetterSwallowsNext(m);
    ParseLetterSwallowsNext(1.0);
    ExecuteLetterSwallowsNext(m);
  }

  // ---------------------------------------------------------------------
  // "pi" and "PI": the constant
  // ---------------------------------------------------------------------

  /** The characters of `pi`. */
  predicate PiConstantText(s: string) {
    |s| == 2 && s[0] == 'p' && s[1] == 'i'
  }

  lemma PiConstantTextChars()
    ensures PiConstantText("pi")
  {
  }

  lemma LexPiConstantFrom2(m: Maths, s: string)
    requires PiConstantText(s)
    ensures LexFrom(m, s, 2) == Ok([])
  {
    assert Scan(m, s, 2) == Ok(None);
  }

  lemma LexPiConstantFrom0(m: Maths, s: string)
    requires PiConstantText(s)
    ensures LexFrom(m, s, 0) == Ok([Pi] + [])
  {
    LexPiConstantFrom2(m, s);
    ScanWord(m, s, 0);
    RunEndUnique(s, 1, WordStop, 2);
    assert s[0..2] == "pi";
    assert LowerWord("pi") == "pi";
    ScanAfter(m, s, 0, 0, Pi, 2);
  }

  lemma LexPiConstant(m: Maths)
    ensures Tokenize(m, "pi") == Ok([Pi] + [])
  {
    PiConstantTextChars();
    LexPiConstantFrom0(m, "pi");
  }

  /** The characters of `PI`. */
  predicate PiConstantUpperText(s: string) {
    |s| == 2 && s[0] == 'P' && s[1] == 'I'
  }

  lemma PiConstantUpperTextChars()
    ensures PiConstantUpperText("PI")
  {
  }

  lemma LexPiConstantUpperFrom2(m: Maths, s: string)
    requires PiConstantUpperText(s)
    ensures LexFrom(m, s, 2) == Ok([])
  {
    assert Scan(m, s, 2) == Ok(None);
  }

  lemma LexPiConstantUpperFrom0(m: Maths, s: string)
    requires PiConstantUpperText(s)
    ensures LexFrom(m, s, 0) == Ok([Pi] + [])
  {
    LexPiConstantUpperFrom2(m, s);
    ScanWord(m, s, 0);
    RunEndUnique(s, 1, WordStop, 2);
    assert s[0..2] == "PI";
    assert LowerWord("PI") == "pi";
    ScanAfter(m, s, 0, 0, Pi, 2);
  }

  lemma LexPiConstantUpper(m: Maths)
    ensures Tokenize(m, "PI") == Ok([Pi] + [])
  {
    PiConstantUpperTextChars();
    LexPiConstantUpperFrom0(m, "PI");
  }

  lemma ParsePiConstantFrom0()
    ensures Run([Pi] + [], State([], [])) == Ok(State([Pi], []))
  {
    OperatorPushed(Pi, [], []);
    assert [] + [Pi] == [Pi];
    RunCons(Pi, [], State([], []), State([Pi], []));
  }

  lemma ParsePiConstantShape0()
    ensures NoRewrites([Pi] + []) && SignsSeparated([Pi] + [])
  {
    NoRewritesCons(Pi, []);
    SignsSeparatedCons(Pi, []);
  }

  lemma ParsePiConstant()
    ensures ParseTokens([Pi] + []) == Ok([Pi])
  {
    var t := [Pi] + [];
    ParsePiConstantShape0();
    InsertParensPlain(t);
    BalanceSeparated(t);
    ParsePiConstantFrom0();
    assert [Pi] + [] == [Pi];
  }

  lemma ExecutePiConstantFrom0(m: Maths)
    ensures ExecRun(m, [Pi], []) == Ok([m.pi])
  {
    assert [] + [m.pi] == [m.pi];
    assert ExecStep(m, Pi, []) == Ok([m.pi]);
    ExecSnoc(m, [], Pi, [], [m.pi]);
    assert [] + [Pi] == [Pi];
  }

  lemma ExecutePiConstant(m: Maths)
    ensures Evaluate(m, [Pi]) == Ok(m.pi)
  {
    ExecutePiConstantFrom0(m);
  }

  /** `pi`, in any letter case, gives the value of `std::f32::consts::PI`. */
  lemma PiConstant(m: Maths)
    ensures InterpretSpec(m, "pi") == Ok(m.pi)
    ensures InterpretSpec(m, "PI") == Ok(m.pi)
  {
    LexPiConstant(m);
    LexPiConstantUpper(m);
    ParsePiConstant();
    ExecutePiConstant(m);
  }

  // ---------------------------------------------------------------------
  // "sin 1": a function and its argument
  // ---------------------------------------------------------------------

  /** The characters of `sin 1`. */
  predicate SineOfOneText(s: string) {
    |s| == 5 && s[0] == 's' && s[1] == 'i' && s[2] == 'n' && s[3] == ' ' && s[4] == '1'
  }

  lemma SineOfOneTextChars()
    ensures SineOfOneText("sin 1")
  {
  }

  lemma LexSineOfOneFrom5(m: Maths, s: string)
    requires SineOfOneText(s)
    ensures LexFrom(m, s, 5) == Ok([])
  {
    assert Scan(m, s, 5) == Ok(None);
  }

  lemma LexSineOfOneFrom3(m: Maths, s: string)
    requires SineOfOneText(s)
    ensures LexFrom(m, s, 3) == Ok([Number(m.literal("1"))] + [])
  {
    LexSineOfOneFrom5(m, s);
    ScanLiteral(m, s, 4, 5);
    assert s[4..5] == "1";
    ScanAfter(m, s, 3, 4, Number(m.literal("1")), 5);
  }

  lemma LexSineOfOneFrom0(m: Maths, s: string)
    requires SineOfOneText(s)
    ensures LexFrom(m, s, 0) == Ok([Sin] + ([Number(m.literal("1"))] + []))
  {
    LexSineOfOneFrom3(m, s);
    ScanWord(m, s, 0);
    RunEndUnique(s, 1, WordStop, 3);
    assert s[0..3] == "sin";
    assert LowerWord("sin") == "sin";
    ScanAfter(m, s, 0, 0, Sin, 3);
  }

  lemma LexSineOfOne(m: Maths)
    ensures Tokenize(m, "sin 1") == Ok([Sin] + ([Number(m.literal("1"))] + []))
  {
    SineOfOneTextChars();
    LexSineOfOneFrom0(m, "sin 1");
  }

  lemma ParseSineOfOneFrom3(one: real)
    ensures Run([CloseParen] + [], State([OpenParen, Sin], [Number(one)])) == Ok(State([], [Sin, Number(one)]))
  {
    CloseParenPops([], [Sin], [Number(one)]);
    assert [] + [OpenParen] + [Sin] == [OpenParen, Sin];
    assert [Sin] + [Number(one)] == [Sin, Number(one)];
    RunCons(CloseParen, [], State([OpenParen, Sin], [Number(one)]), State([], [Sin, Number(one)]));
  }

  lemma ParseSineOfOneFrom2(one: real)
    ensures Run([Number(one)] + ([CloseParen] + []), State([OpenParen, Sin], [])) == Ok(State([], [Sin, Number(one)]))
  {
    ParseSineOfOneFrom3(one);
    assert [Number(one)] + [] == [Number(one)];
    RunCons(Number(one), [CloseParen] + [], State([OpenParen, Sin], []), State([OpenParen, Sin], [Number(one)]));
  }

  lemma ParseSineOfOneFrom1(one: real)
    ensures Run([Sin] + ([Number(one)] + ([CloseParen] + [])), State([OpenParen], [])) == Ok(State([], [Sin, Number(one)]))
  {
    ParseSineOfOneFrom2(one);
    OperatorPushed(Sin, [OpenParen], []);
    assert [OpenParen] + [Sin] == [OpenParen, Sin];
    RunCons(Sin, [Number(one)] + ([CloseParen] + []), State([OpenParen], []), State([OpenParen, Sin], []));
  }

  lemma ParseSineOfOneFrom0(one: real)
    ensures Run([OpenParen] + ([Sin] + ([Number(one)] + ([CloseParen] + []))), State([], [])) == Ok(State([], [Sin, Number(one)]))
  {
    ParseSineOfOneFrom1(one);
    assert [] + [OpenParen] == [OpenParen];
    RunCons(OpenParen, [Sin] + ([Number(one)] + ([CloseParen] + [])), State([], []), State([OpenParen], []));
  }

  lemma ParseSineOfOneShape3()
    ensures SignsSeparated([CloseParen] + [])
  {
    SignsSeparatedCons(CloseParen, []);
  }

  lemma ParseSineOfOneShape2(one: real)
    ensures SignsSeparated([Number(one)] + ([CloseParen] + []))
  {
    ParseSineOfOneShape3();
    SignsSeparatedCons(Number(one), [CloseParen] + []);
  }

  lemma ParseSineOfOneShape1(one: real)
    ensures SignsSeparated([Sin] + ([Number(one)] + ([CloseParen] + [])))
  {
    ParseSineOfOneShape2(one);
    SignsSeparatedCons(Sin, [Number(one)] + ([CloseParen] + []));
  }

  lemma ParseSineOfOneShape0(one: real)
    ensures SignsSeparated([OpenParen] + ([Sin] + ([Number(one)] + ([CloseParen] + []))))
  {
    ParseSineOfOneShape1(one);
    SignsSeparatedCons(OpenParen, [Sin] + ([Number(one)] + ([CloseParen] + [])));
  }

  lemma InsertSineOfOne(one: real)
    ensures InsertParens([Sin] + ([Number(one)] + [])) == Ok([OpenParen] + ([Sin] + ([Number(one)] + ([CloseParen] + []))))
  {
    var t := [Sin, Number(one)];
    assert [] + [OpenParen, Sin, Number(one), CloseParen] == [OpenParen, Sin, Number(one), CloseParen];
    assert InsertFrom(t, 0, [], false) == InsertFrom(t, 1, [OpenParen, Sin, Number(one), CloseParen], true);
    assert InsertFrom(t, 1, [OpenParen, Sin, Number(one), CloseParen], true) == InsertFrom(t, 2, [OpenParen, Sin, Number(one), CloseParen], false);
    assert t == [Sin] + ([Number(one)] + []);
    assert [OpenParen, Sin, Number(one), CloseParen] == [OpenParen] + ([Sin] + ([Number(one)] + ([CloseParen] + [])));
  }

  lemma ParseSineOfOne(one: real)
    ensures ParseTokens([Sin] + ([Number(one)] + [])) == Ok([Sin, Number(one)])
  {
    var t := [Sin] + ([Number(one)] + []);
    ParseSineOfOneShape0(one);
    InsertSineOfOne(one);
    BalanceSeparated([OpenParen] + ([Sin] + ([Number(one)] + ([CloseParen] + []))));
    ParseSineOfOneFrom0(one);
    assert [] + [Sin, Number(one)] == [Sin, Number(one)];
  }

  lemma ExecuteSineOfOneFrom1(m: Maths)
    ensures ExecRun(m, [Sin], [1.0]) == Ok([m.sin(1.0)])
  {
    assert Unary(m, Sin, 1.0) == m.sin(1.0);
    assert [1.0][..0] + [m.sin(1.0)] == [m.sin(1.0)];
    assert ExecStep(m, Sin, [1.0]) == Ok([m.sin(1.0)]);
    ExecSnoc(m, [], Sin, [1.0], [m.sin(1.0)]);
    assert [] + [Sin] == [Sin];
  }

  lemma ExecuteSineOfOneFrom0(m: Maths)
    ensures ExecRun(m, [Sin, Number(1.0)], []) == Ok([m.sin(1.0)])
  {
    ExecuteSineOfOneFrom1(m);
    assert [] + [1.0] == [1.0];
    assert ExecStep(m, Number(1.0), []) == Ok([1.0]);
    ExecSnoc(m, [Sin], Number(1.0), [], [1.0]);
    assert [Sin] + [Number(1.0)] == [Sin, Number(1.0)];
  }

  lemma ExecuteSineOfOne(m: Maths)
    ensures Evaluate(m, [Sin, Number(1.0)]) == Ok(m.sin(1.0))
  {
    ExecuteSineOfOneFrom0(m);
  }

  /** `sin 1` gives the sine of `1`: `insert_parenthesis` rewrites it to `( sin 1 )`. */
  lemma SineOfOne(m: Maths)
    requires m.literal("1") == 1.0
    ensures InterpretSpec(m, "sin 1") == Ok(m.sin(1.0))
  {
    LexSineOfOne(m);
    ParseSineOfOne(1.0);
    ExecuteSineOfOne(m);
  }

  // ---------------------------------------------------------------------
  // "cos 1 * cos 2": two function applications
  // ---------------------------------------------------------------------

  /** The characters of `cos 1 * cos 2`. */
  predicate CosineProductText(s: string) {
    |s| == 13 && s[0] == 'c' && s[1] == 'o' && s[2] == 's' && s[3] == ' ' && s[4] == '1' && s[5] == ' ' && s[6] == '*' && s[7] == ' ' && s[8] == 'c' && s[9] == 'o' && s[10] == 's' && s[11] == ' ' && s[12] == '2'
  }

  lemma CosineProductTextChars()
    ensures CosineProductText("cos 1 * cos 2")
  {
  }

  lemma LexCosineProductFrom13(m: Maths, s: string)
    requires CosineProductText(s)
    ensures LexFrom(m, s, 13) == Ok([])
  {
    assert Scan(m, s, 13) == Ok(None);
  }

  lemma LexCosineProductFrom11(m: Maths, s: string)
    requires CosineProductText(s)
    ensures LexFrom(m, s, 11) == Ok([Number(m.literal("2"))] + [])
  {
    LexCosineProductFrom13(m, s);
    ScanLiteral(m, s, 12, 13);
    assert s[12..13] == "2";
    ScanAfter(m, s, 11, 12, Number(m.literal("2")), 13);
  }

  lemma LexCosineProductFrom7(m: Maths, s: string)
    requires CosineProductText(s)
    ensures LexFrom(m, s, 7) == Ok([Cos] + ([Number(m.literal("2"))] + []))
  {
    LexCosineProductFrom11(m, s);
    ScanWord(m, s, 8);
    RunEndUnique(s, 9, WordStop, 11);
    assert s[8..11] == "cos";
    assert LowerWord("cos") == "cos";
    ScanAfter(m, s, 7, 8, Cos, 11);
  }

  lemma LexCosineProductFrom5(m: Maths, s: string)
    requires CosineProductText(s)
    ensures LexFrom(m, s, 5) == Ok([Asterix] + ([Cos] + ([Number(m.literal("2"))] + [])))
  {
    LexCosineProductFrom7(m, s);
    ScanSymbol(m, s, 6);
    ScanAfter(m, s, 5, 6, Asterix, 7);
  }

  lemma LexCosineProductFrom3(m: Maths, s: string)
    requires CosineProductText(s)
    ensures LexFrom(m, s, 3) == Ok([Number(m.literal("1"))] + ([Asterix] + ([Cos] + ([Number(m.literal("2"))] + []))))
  {
    LexCosineProductFrom5(m, s);
    ScanLiteral(m, s, 4, 5);
    assert s[4..5] == "1";
    ScanAfter(m, s, 3, 4, Number(m.literal("1")), 5);
  }

  lemma LexCosineProductFrom0(m: Maths, s: string)
    requires CosineProductText(s)
    ensures LexFrom(m, s, 0) == Ok([Cos] + ([Number(m.literal("1"))] + ([Asterix] + ([Cos] + ([Number(m.literal("2"))] + [])))))
  {
    LexCosineProductFrom3(m, s);
    ScanWord(m, s, 0);
    RunEndUnique(s, 1, WordStop, 3);
    assert s[0..3] == "cos";
    assert LowerWord("cos") == "cos";
    ScanAfter(m, s, 0, 0, Cos, 3);
  }

  lemma LexCosineProduct(m: Maths)
    ensures Tokenize(m, "cos 1 * cos 2") == Ok([Cos] + ([Number(m.literal("1"))] + ([Asterix] + ([Cos] + ([Number(m.literal("2"))] + [])))))
  {
    CosineProductTextChars();
    LexCosineProductFrom0(m, "cos 1 * cos 2");
  }

  lemma ParseCosineProductFrom8(two: real, one: real)
    ensures Run([CloseParen] + [], State([Asterix, OpenParen, Cos], [Number(two), Cos, Number(one)])) == Ok(State([Asterix], [Cos, Number(two), Cos, Number(one)]))
  {
    CloseParenPops([Asterix], [Cos], [Number(two), Cos, Number(one)]);
    assert [Asterix] + [OpenParen] + [Cos] == [Asterix, OpenParen, Cos];
    assert [Cos] + [Number(two), Cos, Number(one)] == [Cos, Number(two), Cos, Number(one)];
    RunCons(CloseParen, [], State([Asterix, OpenParen, Cos], [Number(two), Cos, Number(one)]), State([Asterix], [Cos, Number(two), Cos, Number(one)]));
  }

  lemma ParseCosineProductFrom7(two: real, one: real)
    ensures Run([Number(two)] + ([CloseParen] + []), State([Asterix, OpenParen, Cos], [Cos, Number(one)])) == Ok(State([Asterix], [Cos, Number(two), Cos, Number(one)]))
  {
    ParseCosineProductFrom8(two, one);
    assert [Number(two)] + [Cos, Number(one)] == [Number(two), Cos, Number(one)];
    RunCons(Number(two), [CloseParen] + [], State([Asterix, OpenParen, Cos], [Cos, Number(one)]), State([Asterix, OpenParen, Cos], [Number(two), Cos, Number(one)]));
  }

  lemma ParseCosineProductFrom6(two: real, one: real)
    ensures Run([Cos] + ([Number(two)] + ([CloseParen] + [])), State([Asterix, OpenParen], [Cos, Number(one)])) == Ok(State([Asterix], [Cos, Number(two), Cos, Number(one)]))
  {
    ParseCosineProductFrom7(two, one);
    OperatorPushed(Cos, [Asterix, OpenParen], [Cos, Number(one)]);
    assert [Asterix, OpenParen] + [Cos] == [Asterix, OpenParen, Cos];
    RunCons(Cos, [Number(two)] + ([CloseParen] + []), State([Asterix, OpenParen], [Cos, Number(one)]), State([Asterix, OpenParen, Cos], [Cos, Number(one)]));
  }

  lemma ParseCosineProductFrom5(two: real, one: real)
    ensures Run([OpenParen] + ([Cos] + ([Number(two)] + ([CloseParen] + []))), State([Asterix], [Cos, Number(one)])) == Ok(State([Asterix], [Cos, Number(two), Cos, Number(one)]))
  {
    ParseCosineProductFrom6(two, one);
    assert [Asterix] + [OpenParen] == [Asterix, OpenParen];
    RunCons(OpenParen, [Cos] + ([Number(two)] + ([CloseParen] + [])), State([Asterix], [Cos, Number(one)]), State([Asterix, OpenParen], [Cos, Number(one)]));
  }

  lemma ParseCosineProductFrom4(two: real, one: real)
    ensures Run([Asterix] + ([OpenParen] + ([Cos] + ([Number(two)] + ([CloseParen] + [])))), State([], [Cos, Number(one)])) == Ok(State([Asterix], [Cos, Number(two), Cos, Number(one)]))
  {
    ParseCosineProductFrom5(two, one);
    OperatorPushed(Asterix, [], [Cos, Number(one)]);
    assert [] + [Asterix] == [Asterix];
    RunCons(Asterix, [OpenParen] + ([Cos] + ([Number(two)] + ([CloseParen] + []))), State([], [Cos, Number(one)]), State([Asterix], [Cos, Number(one)]));
  }

  lemma ParseCosineProductFrom3(two: real, one: real)
    ensures Run([CloseParen] + ([Asterix] + ([OpenParen] + ([Cos] + ([Number(two)] + ([CloseParen] + []))))), State([OpenParen, Cos], [Number(one)])) == Ok(State([Asterix], [Cos, Number(two), Cos, Number(one)]))
  {
    ParseCosineProductFrom4(two, one);
    CloseParenPops([], [Cos], [Number(one)]);
    assert [] + [OpenParen] + [Cos] == [OpenParen, Cos];
    assert [Cos] + [Number(one)] == [Cos, Number(one)];
    RunCons(CloseParen, [Asterix] + ([OpenParen] + ([Cos] + ([Number(two)] + ([CloseParen] + [])))), State([OpenParen, Cos], [Number(one)]), State([], [Cos, Number(one)]));
  }

  lemma ParseCosineProductFrom2(one: real, two: real)
    ensures Run([Number(one)] + ([CloseParen] + ([Asterix] + ([OpenParen] + ([Cos] + ([Number(two)] + ([CloseParen] + [])))))), State([OpenParen, Cos], [])) == Ok(State([Asterix], [Cos, Number(two), Cos, Number(one)]))
  {
    ParseCosineProductFrom3(two, one);
    assert [Number(one)] + [] == [Number(one)];
    RunCons(Number(one), [CloseParen] + ([Asterix] + ([OpenParen] + ([Cos] + ([Number(two)] + ([CloseParen] + []))))), State([OpenParen, Cos], []), State([OpenParen, Cos], [Number(one)]));
  }

  lemma ParseCosineProductFrom1(one: real, two: real)
    ensures Run([Cos] + ([Number(one)] + ([CloseParen] + ([Asterix] + ([OpenParen] + ([Cos] + ([Number(two)] + ([CloseParen] + []))))))), State([OpenParen], [])) == Ok(State([Asterix], [Cos, Number(two), Cos, Number(one)]))
  {
    ParseCosineProductFrom2(one, two);
    OperatorPushed(Cos, [OpenParen], []);
    assert [OpenParen] + [Cos] == [OpenParen, Cos];
    RunCons(Cos, [Number(one)] + ([CloseParen] + ([Asterix] + ([OpenParen] + ([Cos] + ([Number(two)] + ([CloseParen] + [])))))), State([OpenParen], []), State([OpenParen, Cos], []));
  }

  lemma ParseCosineProductFrom0(one: real, two: real)
    ensures Run([OpenParen] + ([Cos] + ([Number(one)] + ([CloseParen] + ([Asterix] + ([OpenParen] + ([Cos] + ([Number(two)] + ([CloseParen] + [])))))))), State([], [])) == Ok(State([Asterix], [Cos, Number(two), Cos, Number(one)]))
  {
    ParseCosineProductFrom1(one, two);
    assert [] + [OpenParen] == [OpenParen];
    RunCons(OpenParen, [Cos] + ([Number(one)] + ([CloseParen] + ([Asterix] + ([OpenParen] + ([Cos] + ([Number(two)] + ([CloseParen] + []))))))), State([], []), State([OpenParen], []));
  }

  lemma ParseCosineProductShape6(two: real)
    ensures SignsSeparated([Cos] + ([Number(two)] + ([CloseParen] + [])))
  {
    ParseSineOfOneShape2(two);
    SignsSeparatedCons(Cos, [Number(two)] + ([CloseParen] + []));
  }

  lemma ParseCosineProductShape5(two: real)
    ensures SignsSeparated([OpenParen] + ([Cos] + ([Number(two)] + ([CloseParen] + []))))
  {
    ParseCosineProductShape6(two);
    SignsSeparatedCons(OpenParen, [Cos] + ([Number(two)] + ([CloseParen] + [])));
  }

  lemma ParseCosineProductShape4(two: real)
    ensures SignsSeparated([Asterix] + ([OpenParen] + ([Cos] + ([Number(two)] + ([CloseParen] + [])))))
  {
    ParseCosineProductShape5(two);
    SignsSeparatedCons(Asterix, [OpenParen] + ([Cos] + ([Number(two)] + ([CloseParen] + []))));
  }

  lemma ParseCosineProductShape3(two: real)
    ensures SignsSeparated([CloseParen] + ([Asterix] + ([OpenParen] + ([Cos] + ([Number(two)] + ([CloseParen] + []))))))
  {
    ParseCosineProductShape4(two);
    SignsSeparatedCons(CloseParen, [Asterix] + ([OpenParen] + ([Cos] + ([Number(two)] + ([CloseParen] + [])))));
  }

  lemma ParseCosineProductShape2(one: real, two: real)
    ensures SignsSeparated([Number(one)] + ([CloseParen] + ([Asterix] + ([OpenParen] + ([Cos] + ([Number(two)] + ([CloseParen] + [])))))))
  {
    ParseCosineProductShape3(two);
    SignsSeparatedCons(Number(one), [CloseParen] + ([Asterix] + ([OpenParen] + ([Cos] + ([Number(two)] + ([CloseParen] + []))))));
  }

  lemma ParseCosineProductShape1(one: real, two: real)
    ensures SignsSeparated([Cos] + ([Number(one)] + ([CloseParen] + ([Asterix] + ([OpenParen] + ([Cos] + ([Number(two)] + ([CloseParen] + []))))))))
  {
    ParseCosineProductShape2(one, two);
    SignsSeparatedCons(Cos, [Number(one)] + ([CloseParen] + ([Asterix] + ([OpenParen] + ([Cos] + ([Number(two)] + ([CloseParen] + [])))))));
  }

  lemma ParseCosineProductShape0(one: real, two: real)
    ensures SignsSeparated([OpenParen] + ([Cos] + ([Number(one)] + ([CloseParen] + ([Asterix] + ([OpenParen] + ([Cos] + ([Number(two)] + ([CloseParen] + [])))))))))
  {
    ParseCosineProductShape1(one, two);
    SignsSeparatedCons(OpenParen, [Cos] + ([Number(one)] + ([CloseParen] + ([Asterix] + ([OpenParen] + ([Cos] + ([Number(two)] + ([CloseParen] + []))))))));
  }

  lemma InsertCosineProduct(one: real, two: real)
    ensures InsertParens([Cos] + ([Number(one)] + ([Asterix] + ([Cos] + ([Number(two)] + []))))) == Ok([OpenParen] + ([Cos] + ([Number(one)] + ([CloseParen] + ([Asterix] + ([OpenParen] + ([Cos] + ([Number(two)] + ([CloseParen] + [])))))))))
  {
    var t := [Cos, Number(one), Asterix, Cos, Number(two)];
    assert [] + [OpenParen, Cos, Number(one), CloseParen] == [OpenParen, Cos, Number(one), CloseParen];
    assert InsertFrom(t, 0, [], false) == InsertFrom(t, 1, [OpenParen, Cos, Number(one), CloseParen], true);
    assert InsertFrom(t, 1, [OpenParen, Cos, Number(one), CloseParen], true) == InsertFrom(t, 2, [OpenParen, Cos, Number(one), CloseParen], false);
    assert [OpenParen, Cos, Number(one), CloseParen] + [Asterix] == [OpenParen, Cos, Number(one), CloseParen, Asterix];
    assert InsertFrom(t, 2, [OpenParen, Cos, Number(one), CloseParen], false) == InsertFrom(t, 3, [OpenParen, Cos, Number(one), CloseParen, Asterix], false);
    assert [OpenParen, Cos, Number(one), CloseParen, Asterix] + [OpenParen, Cos, Number(two), CloseParen] == [OpenParen, Cos, Number(one), CloseParen, Asterix, OpenParen, Cos, Number(two), CloseParen];
    assert InsertFrom(t, 3, [OpenParen, Cos, Number(one), CloseParen, Asterix], false) == InsertFrom(t, 4, [OpenParen, Cos, Number(one), CloseParen, Asterix, OpenParen, Cos, Number(two), CloseParen], true);
    assert InsertFrom(t, 4, [OpenParen, Cos, Number(one), CloseParen, Asterix, OpenParen, Cos, Number(two), CloseParen], true) == InsertFrom(t, 5, [OpenParen, Cos, Number(one), CloseParen, Asterix, OpenParen, Cos, Number(two), CloseParen], false);
    assert t == [Cos] + ([Number(one)] + ([Asterix] + ([Cos] + ([Number(two)] + []))));
    assert [OpenParen, Cos, Number(one), CloseParen, Asterix, OpenParen, Cos, Number(two), CloseParen] == [OpenParen] + ([Cos] + ([Number(one)] + ([CloseParen] + ([Asterix] + ([OpenParen] + ([Cos] + ([Number(two)] + ([CloseParen] + []))))))));
  }

  lemma ParseCosineProduct(one: real, two: real)
    ensures ParseTokens([Cos] + ([Number(one)] + ([Asterix] + ([Cos] + ([Number(two)] + []))))) == Ok([Asterix, Cos, Number(two), Cos, Number(one)])
  {
    var t := [Cos] + ([Number(one)] + ([Asterix] + ([Cos] + ([Number(two)] + []))));
    ParseCosineProductShape0(one, two);
    InsertCosineProduct(one, two);
    BalanceSeparated([OpenParen] + ([Cos] + ([Number(one)] + ([CloseParen] + ([Asterix] + ([OpenParen] + ([Cos] + ([Number(two)] + ([CloseParen] + [])))))))));
    ParseCosineProductFrom0(one, two);
    assert [Asterix] + [Cos, Number(two), Cos, Number(one)] == [Asterix, Cos, Number(two), Cos, Number(one)];
  }

  lemma ExecuteCosineProductFrom4(m: Maths)
    ensures ExecRun(m, [Asterix], [m.cos(1.0), m.cos(2.0)]) == Ok([(m.cos(2.0) * m.cos(1.0))])
  {
    assert Binary(m, Asterix, m.cos(2.0), m.cos(1.0)) == (m.cos(2.0) * m.cos(1.0));
    assert [m.cos(1.0), m.cos(2.0)][..0] + [(m.cos(2.0) * m.cos(1.0))] == [(m.cos(2.0) * m.cos(1.0))];
    assert ExecStep(m, Asterix, [m.cos(1.0), m.cos(2.0)]) == Ok([(m.cos(2.0) * m.cos(1.0))]);
    ExecSnoc(m, [], Asterix, [m.cos(1.0), m.cos(2.0)], [(m.cos(2.0) * m.cos(1.0))]);
    assert [] + [Asterix] == [Asterix];
  }

  lemma ExecuteCosineProductFrom3(m: Maths)
    ensures ExecRun(m, [Asterix, Cos], [m.cos(1.0), 2.0]) == Ok([(m.cos(2.0) * m.cos(1.0))])
  {
    ExecuteCosineProductFrom4(m);
    assert Unary(m, Cos, 2.0) == m.cos(2.0);
    assert [m.cos(1.0), 2.0][..1] + [m.cos(2.0)] == [m.cos(1.0), m.cos(2.0)];
    assert ExecStep(m, Cos, [m.cos(1.0), 2.0]) == Ok([m.cos(1.0), m.cos(2.0)]);
    ExecSnoc(m, [Asterix], Cos, [m.cos(1.0), 2.0], [m.cos(1.0), m.cos(2.0)]);
    assert [Asterix] + [Cos] == [Asterix, Cos];
  }

  lemma ExecuteCosineProductFrom2(m: Maths)
    ensures ExecRun(m, [Asterix, Cos, Number(2.0)], [m.cos(1.0)]) == Ok([(m.cos(2.0) * m.cos(1.0))])
  {
    ExecuteCosineProductFrom3(m);
    assert [m.cos(1.0)] + [2.0] == [m.cos(1.0), 2.0];
    assert ExecStep(m, Number(2.0), [m.cos(1.0)]) == Ok([m.cos(1.0), 2.0]);
    ExecSnoc(m, [Asterix, Cos], Number(2.0), [m.cos(1.0)], [m.cos(1.0), 2.0]);
    assert [Asterix, Cos] + [Number(2.0)] == [Asterix, Cos, Number(2.0)];
  }

  lemma ExecuteCosineProductFrom1(m: Maths)
    ensures ExecRun(m, [Asterix, Cos, Number(2.0), Cos], [1.0]) == Ok([(m.cos(2.0) * m.cos(1.0))])
  {
    ExecuteCosineProductFrom2(m);
    assert Unary(m, Cos, 1.0) == m.cos(1.0);
    assert [1.0][..0] + [m.cos(1.0)] == [m.cos(1.0)];
    assert ExecStep(m, Cos, [1.0]) == Ok([m.cos(1.0)]);
    ExecSnoc(m, [Asterix, Cos, Number(2.0)], Cos, [1.0], [m.cos(1.0)]);
    assert [Asterix, Cos, Number(2.0)] + [Cos] == [Asterix, Cos, Number(2.0), Cos];
  }

  lemma ExecuteCosineProductFrom0(m: Maths)
    ensures ExecRun(m, [Asterix, Cos, Number(2.0), Cos, Number(1.0)], []) == Ok([(m.cos(2.0) * m.cos(1.0))])
  {
    ExecuteCosineProductFrom1(m);
    assert [] + [1.0] == [1.0];
    assert ExecStep(m, Number(1.0), []) == Ok([1.0]);
    ExecSnoc(m, [Asterix, Cos, Number(2.0), Cos], Number(1.0), [], [1.0]);
    assert [Asterix, Cos, Number(2.0), Cos] + [Number(1.0)] == [Asterix, Cos, Number(2.0), Cos, Number(1.0)];
  }

  lemma ExecuteCosineProduct(m: Maths)
    ensures Evaluate(m, [Asterix, Cos, Number(2.0), Cos, Number(1.0)]) == Ok(m.cos(2.0) * m.cos(1.0))
  {
    ExecuteCosineProductFrom0(m);
  }

  /** `cos 1 * cos 2` is the product of the two cosines. */
  lemma CosineProduct(m: Maths)
    requires m.literal("1") == 1.0 && m.literal("2") == 2.0
    ensures InterpretSpec(m, "cos 1 * cos 2") == Ok(m.cos(2.0) * m.cos(1.0))
  {
    LexCosineProduct(m);
    ParseCosineProduct(1.0, 2.0);
    ExecuteCosineProduct(m);
  }

  // ---------------------------------------------------------------------
  // "tan 1 + log 10": tangent and common logarithm
  // ---------------------------------------------------------------------

  /** The characters of `tan 1 + log 10`. */
  predicate TangentPlusLogText(s: string) {
    |s| == 14 && s[0] == 't' && s[1] == 'a' && s[2] == 'n' && s[3] == ' ' && s[4] == '1' && s[5] == ' ' && s[6] == '+' && s[7] == ' ' && s[8] == 'l' && s[9] == 'o' && s[10] == 'g' && s[11] == ' ' && s[12] == '1' && s[13] == '0'
  }

  lemma TangentPlusLogTextChars()
    ensures TangentPlusLogText("tan 1 + log 10")
  {
  }

  lemma LexTangentPlusLogFrom14(m: Maths, s: string)
    requires TangentPlusLogText(s)
    ensures LexFrom(m, s, 14) == Ok([])
  {
    assert Scan(m, s, 14) == Ok(None);
  }

  lemma LexTangentPlusLogFrom11(m: Maths, s: string)
    requires TangentPlusLogText(s)
    ensures LexFrom(m, s, 11) == Ok([Number(m.literal("10"))] + [])
  {
    LexTangentPlusLogFrom14(m, s);
    ScanLiteral(m, s, 12, 14);
    assert s[12..14] == "10";
    ScanAfter(m, s, 11, 12, Number(m.literal("10")), 14);
  }

  lemma LexTangentPlusLogFrom7(m: Maths, s: string)
    requires TangentPlusLogText(s)
    ensures LexFrom(m, s, 7) == Ok([Log] + ([Number(m.literal("10"))] + []))
  {
    LexTangentPlusLogFrom11(m, s);
    ScanWord(m, s, 8);
    RunEndUnique(s, 9, WordStop, 11);
    assert s[8..11] == "log";
    assert LowerWord("log") == "log";
    ScanAfter(m, s, 7, 8, Log, 11);
  }

  lemma LexTangentPlusLogFrom5(m: Maths, s: string)
    requires TangentPlusLogText(s)
    ensures LexFrom(m, s, 5) == Ok([Plus] + ([Log] + ([Number(m.literal("10"))] + [])))
  {
    LexTangentPlusLogFrom7(m, s);
    ScanSymbol(m, s, 6);
    ScanAfter(m, s, 5, 6, Plus, 7);
  }

  lemma LexTangentPlusLogFrom3(m: Maths, s: string)
    requires TangentPlusLogText(s)
    ensures LexFrom(m, s, 3) == Ok([Number(m.literal("1"))] + ([Plus] + ([Log] + ([Number(m.literal("10"))] + []))))
  {
    LexTangentPlusLogFrom5(m, s);
    ScanLiteral(m, s, 4, 5);
    assert s[4..5] == "1";
    ScanAfter(m, s, 3, 4, Number(m.literal("1")), 5);
  }

  lemma LexTangentPlusLogFrom0(m: Maths, s: string)
    requires TangentPlusLogText(s)
    ensures LexFrom(m, s, 0) == Ok([Tan] + ([Number(m.literal("1"))] + ([Plus] + ([Log] + ([Number(m.literal("10"))] + [])))))
  {
    LexTangentPlusLogFrom3(m, s);
    ScanWord(m, s, 0);
    RunEndUnique(s, 1, WordStop, 3);
    assert s[0..3] == "tan";
    assert LowerWord("tan") == "tan";
    ScanAfter(m, s, 0, 0, Tan, 3);
  }

  lemma LexTangentPlusLog(m: Maths)
    ensures Tokenize(m, "tan 1 + log 10") == Ok([Tan] + ([Number(m.literal("1"))] + ([Plus] + ([Log] + ([Number(m.literal("10"))] + [])))))
  {
    TangentPlusLogTextChars();
    LexTangentPlusLogFrom0(m, "tan 1 + log 10");
  }

  lemma ParseTangentPlusLogFrom8(ten: real, one: real)
    ensures Run([CloseParen] + [], State([Plus, OpenParen, Log], [Number(ten), Tan, Number(one)])) == Ok(State([Plus], [Log, Number(ten), Tan, Number(one)]))
  {
    CloseParenPops([Plus], [Log], [Number(ten), Tan, Number(one)]);
    assert [Plus] + [OpenParen] + [Log] == [Plus, OpenParen, Log];
    assert [Log] + [Number(ten), Tan, Number(one)] == [Log, Number(ten), Tan, Number(one)];
    RunCons(CloseParen, [], State([Plus, OpenParen, Log], [Number(ten), Tan, Number(one)]), State([Plus], [Log, Number(ten), Tan, Number(one)]));
  }

  lemma ParseTangentPlusLogFrom7(ten: real, one: real)
    ensures Run([Number(ten)] + ([CloseParen] + []), State([Plus, OpenParen, Log], [Tan, Number(one)])) == Ok(State([Plus], [Log, Number(ten), Tan, Number(one)]))
  {
    ParseTangentPlusLogFrom8(ten, one);
    assert [Number(ten)] + [Tan, Number(one)] == [Number(ten), Tan, Number(one)];
    RunCons(Number(ten), [CloseParen] + [], State([Plus, OpenParen, Log], [Tan, Number(one)]), State([Plus, OpenParen, Log], [Number(ten), Tan, Number(one)]));
  }

  lemma ParseTangentPlusLogFrom6(ten: real, one: real)
    ensures Run([Log] + ([Number(ten)] + ([CloseParen] + [])), State([Plus, OpenParen], [Tan, Number(one)])) == Ok(State([Plus], [Log, Number(ten), Tan, Number(one)]))
  {
    ParseTangentPlusLogFrom7(ten, one);
    OperatorPushed(Log, [Plus, OpenParen], [Tan, Number(one)]);
    assert [Plus, OpenParen] + [Log] == [Plus, OpenParen, Log];
    RunCons(Log, [Number(ten)] + ([CloseParen] + []), State([Plus, OpenParen], [Tan, Number(one)]), State([Plus, OpenParen, Log], [Tan, Number(one)]));
  }

  lemma ParseTangentPlusLogFrom5(ten: real, one: real)
    ensures Run([OpenParen] + ([Log] + ([Number(ten)] + ([CloseParen] + []))), State([Plus], [Tan, Number(one)])) == Ok(State([Plus], [Log, Number(ten), Tan, Number(one)]))
  {
    ParseTangentPlusLogFrom6(ten, one);
    assert [Plus] + [OpenParen] == [Plus, OpenParen];
    RunCons(OpenParen, [Log] + ([Number(ten)] + ([CloseParen] + [])), State([Plus], [Tan, Number(one)]), State([Plus, OpenParen], [Tan, Number(one)]));
  }

  lemma ParseTangentPlusLogFrom4(ten: real, one: real)
    ensures Run([Plus] + ([OpenParen] + ([Log] + ([Number(ten)] + ([CloseParen] + [])))), State([], [Tan, Number(one)])) == Ok(State([Plus], [Log, Number(ten), Tan, Number(one)]))
  {
    ParseTangentPlusLogFrom5(ten, one);
    OperatorPushed(Plus, [], [Tan, Number(one)]);
    assert [] + [Plus] == [Plus];
    RunCons(Plus, [OpenParen] + ([Log] + ([Number(ten)] + ([CloseParen] + []))), State([], [Tan, Number(one)]), State([Plus], [Tan, Number(one)]));
  }

  lemma ParseTangentPlusLogFrom3(ten: real, one: real)
    ensures Run([CloseParen] + ([Plus] + ([OpenParen] + ([Log] + ([Number(ten)] + ([CloseParen] + []))))), State([OpenParen, Tan], [Number(one)])) == Ok(State([Plus], [Log, Number(ten), Tan, Number(one)]))
  {
    ParseTangentPlusLogFrom4(ten, one);
    CloseParenPops([], [Tan], [Number(one)]);
    assert [] + [OpenParen] + [Tan] == [OpenParen, Tan];
    assert [Tan] + [Number(one)] == [Tan, Number(one)];
    RunCons(CloseParen, [Plus] + ([OpenParen] + ([Log] + ([Number(ten)] + ([CloseParen] + [])))), State([OpenParen, Tan], [Number(one)]), State([], [Tan, Number(one)]));
  }

  lemma ParseTangentPlusLogFrom2(one: real, ten: real)
    ensures Run([Number(one)] + ([CloseParen] + ([Plus] + ([OpenParen] + ([Log] + ([Number(ten)] + ([CloseParen] + [])))))), State([OpenParen, Tan], [])) == Ok(State([Plus], [Log, Number(ten), Tan, Number(one)]))
  {
    ParseTangentPlusLogFrom3(ten, one);
    assert [Number(one)] + [] == [Number(one)];
    RunCons(Number(one), [CloseParen] + ([Plus] + ([OpenParen] + ([Log] + ([Number(ten)] + ([CloseParen] + []))))), State([OpenParen, Tan], []), State([OpenParen, Tan], [Number(one)]));
  }

  lemma ParseTangentPlusLogFrom1(one: real, ten: real)
    ensures Run([Tan] + ([Number(one)] + ([CloseParen] + ([Plus] + ([OpenParen] + ([Log] + ([Number(ten)] + ([CloseParen] + []))))))), State([OpenParen], [])) == Ok(State([Plus], [Log, Number(ten), Tan, Number(one)]))
  {
    ParseTangentPlusLogFrom2(one, ten);
    OperatorPushed(Tan, [OpenParen], []);
    assert [OpenParen] + [Tan] == [OpenParen, Tan];
    RunCons(Tan, [Number(one)] + ([CloseParen] + ([Plus] + ([OpenParen] + ([Log] + ([Number(ten)] + ([CloseParen] + [])))))), State([OpenParen], []), State([OpenParen, Tan], []));
  }

  lemma ParseTangentPlusLogFrom0(one: real, ten: real)
    ensures Run([OpenParen] + ([Tan] + ([Number(one)] + ([CloseParen] + ([Plus] + ([OpenParen] + ([Log] + ([Number(ten)] + ([CloseParen] + [])))))))), State([], [])) == Ok(State([Plus], [Log, Number(ten), Tan, Number(one)]))
  {
    ParseTangentPlusLogFrom1(one, ten);
    assert [] + [OpenParen] == [OpenParen];
    RunCons(OpenParen, [Tan] + ([Number(one)] + ([CloseParen] + ([Plus] + ([OpenParen] + ([Log] + ([Number(ten)] + ([CloseParen] + []))))))), State([], []), State([OpenParen], []));
  }

  lemma ParseTangentPlusLogShape6(ten: real)
    ensures SignsSeparated([Log] + ([Number(ten)] + ([CloseParen] + [])))
  {
    ParseSineOfOneShape2(ten);
    SignsSeparatedCons(Log, [Number(ten)] + ([CloseParen] + []));
  }

  lemma ParseTangentPlusLogShape5(ten: real)
    ensures SignsSeparated([OpenParen] + ([Log] + ([Number(ten)] + ([CloseParen] + []))))
  {
    ParseTangentPlusLogShape6(ten);
    SignsSeparatedCons(OpenParen, [Log] + ([Number(ten)] + ([CloseParen] + [])));
  }

  lemma ParseTangentPlusLogShape4(ten: real)
    ensures SignsSeparated([Plus] + ([OpenParen] + ([Log] + ([Number(ten)] + ([CloseParen] + [])))))
  {
    ParseTangentPlusLogShape5(ten);
    SignsSeparatedCons(Plus, [OpenParen] + ([Log] + ([Number(ten)] + ([CloseParen] + []))));
  }

  lemma ParseTangentPlusLogShape3(ten: real)
    ensures SignsSeparated([CloseParen] + ([Plus] + ([OpenParen] + ([Log] + ([Number(ten)] + ([CloseParen] + []))))))
  {
    ParseTangentPlusLogShape4(ten);
    SignsSeparatedCons(CloseParen, [Plus] + ([OpenParen] + ([Log] + ([Number(ten)] + ([CloseParen] + [])))));
  }

  lemma ParseTangentPlusLogShape2(one: real, ten: real)
    ensures SignsSeparated([Number(one)] + ([CloseParen] + ([Plus] + ([OpenParen] + ([Log] + ([Number(ten)] + ([CloseParen] + [])))))))
  {
    ParseTangentPlusLogShape3(ten);
    SignsSeparatedCons(Number(one), [CloseParen] + ([Plus] + ([OpenParen] + ([Log] + ([Number(ten)] + ([CloseParen] + []))))));
  }

  lemma ParseTangentPlusLogShape1(one: real, ten: real)
    ensures SignsSeparated([Tan] + ([Number(one)] + ([CloseParen] + ([Plus] + ([OpenParen] + ([Log] + ([Number(ten)] + ([CloseParen] + []))))))))
  {
    ParseTangentPlusLogShape2(one, ten);
    SignsSeparatedCons(Tan, [Number(one)] + ([CloseParen] + ([Plus] + ([OpenParen] + ([Log] + ([Number(ten)] + ([CloseParen] + [])))))));
  }

  lemma ParseTangentPlusLogShape0(one: real, ten: real)
    ensures SignsSeparated([OpenParen] + ([Tan] + ([Number(one)] + ([CloseParen] + ([Plus] + ([OpenParen] + ([Log] + ([Number(ten)] + ([CloseParen] + [])))))))))
  {
    ParseTangentPlusLogShape1(one, ten);
    SignsSeparatedCons(OpenParen, [Tan] + ([Number(one)] + ([CloseParen] + ([Plus] + ([OpenParen] + ([Log] + ([Number(ten)] + ([CloseParen] + []))))))));
  }

  lemma InsertTangentPlusLog(one: real, ten: real)
    ensures InsertParens([Tan] + ([Number(one)] + ([Plus] + ([Log] + ([Number(ten)] + []))))) == Ok([OpenParen] + ([Tan] + ([Number(one)] + ([CloseParen] + ([Plus] + ([OpenParen] + ([Log] + ([Number(ten)] + ([CloseParen] + [])))))))))
  {
    var t := [Tan, Number(one), Plus, Log, Number(ten)];
    assert [] + [OpenParen, Tan, Number(one), CloseParen] == [OpenParen, Tan, Number(one), CloseParen];
    assert InsertFrom(t, 0, [], false) == InsertFrom(t, 1, [OpenParen, Tan, Number(one), CloseParen], true);
    assert InsertFrom(t, 1, [OpenParen, Tan, Number(one), CloseParen], true) == InsertFrom(t, 2, [OpenParen, Tan, Number(one), CloseParen], false);
    assert [OpenParen, Tan, Number(one), CloseParen] + [Plus] == [OpenParen, Tan, Number(one), CloseParen, Plus];
    assert InsertFrom(t, 2, [OpenParen, Tan, Number(one), CloseParen], false) == InsertFrom(t, 3, [OpenParen, Tan, Number(one), CloseParen, Plus], false);
    assert [OpenParen, Tan, Number(one), CloseParen, Plus] + [OpenParen, Log, Number(ten), CloseParen] == [OpenParen, Tan, Number(one), CloseParen, Plus, OpenParen, Log, Number(ten), CloseParen];
    assert InsertFrom(t, 3, [OpenParen, Tan, Number(one), CloseParen, Plus], false) == InsertFrom(t, 4, [OpenParen, Tan, Number(one), CloseParen, Plus, OpenParen, Log, Number(ten), CloseParen], true);
    assert InsertFrom(t, 4, [OpenParen, Tan, Number(one), CloseParen, Plus, OpenParen, Log, Number(ten), CloseParen], true) == InsertFrom(t, 5, [OpenParen, Tan, Number(one), CloseParen, Plus, OpenParen, Log, Number(ten), CloseParen], false);
    assert t == [Tan] + ([Number(one)] + ([Plus] + ([Log] + ([Number(ten)] + []))));
    assert [OpenParen, Tan, Number(one), CloseParen, Plus, OpenParen, Log, Number(ten), CloseParen] == [OpenParen] + ([Tan] + ([Number(one)] + ([CloseParen] + ([Plus] + ([OpenParen] + ([Log] + ([Number(ten)] + ([CloseParen] + []))))))));
  }

  lemma ParseTangentPlusLog(one: real, ten: real)
    ensures ParseTokens([Tan] + ([Number(one)] + ([Plus] + ([Log] + ([Number(ten)] + []))))) == Ok([Plus, Log, Number(ten), Tan, Number(one)])
  {
    var t := [Tan] + ([Number(one)] + ([Plus] + ([Log] + ([Number(ten)] + []))));
    ParseTangentPlusLogShape0(one, ten);
    InsertTangentPlusLog(one, ten);
    BalanceSeparated([OpenParen] + ([Tan] + ([Number(one)] + ([CloseParen] + ([Plus] + ([OpenParen] + ([Log] + ([Number(ten)] + ([CloseParen] + [])))))))));
    ParseTangentPlusLogFrom0(one, ten);
    assert [Plus] + [Log, Number(ten), Tan, Number(one)] == [Plus, Log, Number(ten), Tan, Number(one)];
  }

  lemma ExecuteTangentPlusLogFrom4(m: Maths)
    ensures ExecRun(m, [Plus], [m.tan(1.0), m.log10(10.0)]) == Ok([(m.log10(10.0) + m.tan(1.0))])
  {
    assert Binary(m, Plus, m.log10(10.0), m.tan(1.0)) == (m.log10(10.0) + m.tan(1.0));
    assert [m.tan(1.0), m.log10(10.0)][..0] + [(m.log10(10.0) + m.tan(1.0))] == [(m.log10(10.0) + m.tan(1.0))];
    assert ExecStep(m, Plus, [m.tan(1.0), m.log10(10.0)]) == Ok([(m.log10(10.0) + m.tan(1.0))]);
    ExecSnoc(m, [], Plus, [m.tan(1.0), m.log10(10.0)], [(m.log10(10.0) + m.tan(1.0))]);
    assert [] + [Plus] == [Plus];
  }

  lemma ExecuteTangentPlusLogFrom3(m: Maths)
    ensures ExecRun(m, [Plus, Log], [m.tan(1.0), 10.0]) == Ok([(m.log10(10.0) + m.tan(1.0))])
  {
    ExecuteTangentPlusLogFrom4(m);
    assert Unary(m, Log, 10.0) == m.log10(10.0);
    assert [m.tan(1.0), 10.0][..1] + [m.log10(10.0)] == [m.tan(1.0), m.log10(10.0)];
    assert ExecStep(m, Log, [m.tan(1.0), 10.0]) == Ok([m.tan(1.0), m.log10(10.0)]);
    ExecSnoc(m, [Plus], Log, [m.tan(1.0), 10.0], [m.tan(1.0), m.log10(10.0)]);
    assert [Plus] + [Log] == [Plus, Log];
  }

  lemma ExecuteTangentPlusLogFrom2(m: Maths)
    ensures ExecRun(m, [Plus, Log, Number(10.0)], [m.tan(1.0)]) == Ok([(m.log10(10.0) + m.tan(1.0))])
  {
    ExecuteTangentPlusLogFrom3(m);
    assert [m.tan(1.0)] + [10.0] == [m.tan(1.0), 10.0];
    assert ExecStep(m, Number(10.0), [m.tan(1.0)]) == Ok([m.tan(1.0), 10.0]);
    ExecSnoc(m, [Plus, Log], Number(10.0), [m.tan(1.0)], [m.tan(1.0), 10.0]);
    assert [Plus, Log] + [Number(10.0)] == [Plus, Log, Number(10.0)];
  }

  lemma ExecuteTangentPlusLogFrom1(m: Maths)
    ensures ExecRun(m, [Plus, Log, Number(10.0), Tan], [1.0]) == Ok([(m.log10(10.0) + m.tan(1.0))])
  {
    ExecuteTangentPlusLogFrom2(m);
    assert Unary(m, Tan, 1.0) == m.tan(1.0);
    assert [1.0][..0] + [m.tan(1.0)] == [m.tan(1.0)];
    assert ExecStep(m, Tan, [1.0]) == Ok([m.tan(1.0)]);
    ExecSnoc(m, [Plus, Log, Number(10.0)], Tan, [1.0], [m.tan(1.0)]);
    assert [Plus, Log, Number(10.0)] + [Tan] == [Plus, Log, Number(10.0), Tan];
  }

  lemma ExecuteTangentPlusLogFrom0(m: Maths)
    ensures ExecRun(m, [Plus, Log, Number(10.0), Tan, Number(1.0)], []) == Ok([(m.log10(10.0) + m.tan(1.0))])
  {
    ExecuteTangentPlusLogFrom1(m);
    assert [] + [1.0] == [1.0];
    assert ExecStep(m, Number(1.0), []) == Ok([1.0]);
    ExecSnoc(m, [Plus, Log, Number(10.0), Tan], Number(1.0), [], [1.0]);
    assert [Plus, Log, Number(10.0), Tan] + [Number(1.0)] == [Plus, Log, Number(10.0), Tan, Number(1.0)];
  }

  lemma ExecuteTangentPlusLog(m: Maths)
    ensures Evaluate(m, [Plus, Log, Number(10.0), Tan, Number(1.0)]) == Ok(m.log10(10.0) + m.tan(1.0))
  {
    ExecuteTangentPlusLogFrom0(m);
  }

  /** `tan 1 + log 10` is the sum of the tangent of `1` and the base-10 logarithm of `10`. */
  lemma TangentPlusLog(m: Maths)
    requires m.literal("1") == 1.0 && m.literal("10") == 10.0
    ensures InterpretSpec(m, "tan 1 + log 10") == Ok(m.log10(10.0) + m.tan(1.0))
  {
    LexTangentPlusLog(m);
    ParseTangentPlusLog(1.0, 10.0);
    ExecuteTangentPlusLog(m);
  }

  // ---------------------------------------------------------------------
  // "2^2 * 3": a power
  // ---------------------------------------------------------------------

  /** The characters of `2^2 * 3`. */
  predicate PowerTimesThreeText(s: string) {
    |s| == 7 && s[0] == '2' && s[1] == '^' && s[2] == '2' && s[3] == ' ' && s[4] == '*' && s[5] == ' ' && s[6] == '3'
  }

  lemma PowerTimesThreeTextChars()
    ensures PowerTimesThreeText("2^2 * 3")
  {
  }

  lemma LexPowerTimesThreeFrom7(m: Maths, s: string)
    requires PowerTimesThreeText(s)
    ensures LexFrom(m, s, 7) == Ok([])
  {
    assert Scan(m, s, 7) == Ok(None);
  }

  lemma LexPowerTimesThreeFrom5(m: Maths, s: string)
    requires PowerTimesThreeText(s)
    ensures LexFrom(m, s, 5) == Ok([Number(m.literal("3"))] + [])
  {
    LexPowerTimesThreeFrom7(m, s);
    ScanLiteral(m, s, 6, 7);
    assert s[6..7] == "3";
    ScanAfter(m, s, 5, 6, Number(m.literal("3")), 7);
  }

  lemma LexPowerTimesThreeFrom3(m: Maths, s: string)
    requires PowerTimesThreeText(s)
    ensures LexFrom(m, s, 3) == Ok([Asterix] + ([Number(m.literal("3"))] + []))
  {
    LexPowerTimesThreeFrom5(m, s);
    ScanSymbol(m, s, 4);
    ScanAfter(m, s, 3, 4, Asterix, 5);
  }

  lemma LexPowerTimesThreeFrom2(m: Maths, s: string)
    requires PowerTimesThreeText(s)
    ensures LexFrom(m, s, 2) == Ok([Number(m.literal("2"))] + ([Asterix] + ([Number(m.literal("3"))] + [])))
  {
    LexPowerTimesThreeFrom3(m, s);
    ScanLiteral(m, s, 2, 3);
    assert s[2..3] == "2";
    ScanAfter(m, s, 2, 2, Number(m.literal("2")), 3);
  }

  lemma LexPowerTimesThreeFrom1(m: Maths, s: string)
    requires PowerTimesThreeText(s)
    ensures LexFrom(m, s, 1) == Ok([Power] + ([Number(m.literal("2"))] + ([Asterix] + ([Number(m.literal("3"))] + []))))
  {
    LexPowerTimesThreeFrom2(m, s);
    ScanSymbol(m, s, 1);
    ScanAfter(m, s, 1, 1, Power, 2);
  }

  lemma LexPowerTimesThreeFrom0(m: Maths, s: string)
    requires PowerTimesThreeText(s)
    ensures LexFrom(m, s, 0) == Ok([Number(m.literal("2"))] + ([Power] + ([Number(m.literal("2"))] + ([Asterix] + ([Number(m.literal("3"))] + [])))))
  {
    LexPowerTimesThreeFrom1(m, s);
    ScanLiteral(m, s, 0, 1);
    assert s[0..1] == "2";
    ScanAfter(m, s, 0, 0, Number(m.literal("2")), 1);
  }

  lemma LexPowerTimesThree(m: Maths)
    ensures Tokenize(m, "2^2 * 3") == Ok([Number(m.literal("2"))] + ([Power] + ([Number(m.literal("2"))] + ([Asterix] + ([Number(m.literal("3"))] + [])))))
  {
    PowerTimesThreeTextChars();
    LexPowerTimesThreeFrom0(m, "2^2 * 3");
  }

  lemma ParsePowerTimesThreeFrom6(three: real, two: real)
    ensures Run([Number(three)] + [], State([Asterix], [Power, Number(two), Number(two)])) == Ok(State([Asterix], [Number(three), Power, Number(two), Number(two)]))
  {
    assert [Number(three)] + [Power, Number(two), Number(two)] == [Number(three), Power, Number(two), Number(two)];
    RunCons(Number(three), [], State([Asterix], [Power, Number(two), Number(two)]), State([Asterix], [Number(three), Power, Number(two), Number(two)]));
  }

  lemma ParsePowerTimesThreeFrom5(three: real, two: real)
    ensures Run([Asterix] + ([Number(three)] + []), State([], [Power, Number(two), Number(two)])) == Ok(State([Asterix], [Number(three), Power, Number(two), Number(two)]))
  {
    ParsePowerTimesThreeFrom6(three, two);
    OperatorPushed(Asterix, [], [Power, Number(two), Number(two)]);
    assert [] + [Asterix] == [Asterix];
    RunCons(Asterix, [Number(three)] + [], State([], [Power, Number(two), Number(two)]), State([Asterix], [Power, Number(two), Number(two)]));
  }

  lemma ParsePowerTimesThreeFrom4(three: real, two: real)
    ensures Run([CloseParen] + ([Asterix] + ([Number(three)] + [])), State([OpenParen, Power], [Number(two), Number(two)])) == Ok(State([Asterix], [Number(three), Power, Number(two), Number(two)]))
  {
    ParsePowerTimesThreeFrom5(three, two);
    CloseParenPops([], [Power], [Number(two), Number(two)]);
    assert [] + [OpenParen] + [Power] == [OpenParen, Power];
    assert [Power] + [Number(two), Number(two)] == [Power, Number(two), Number(two)];
    RunCons(CloseParen, [Asterix] + ([Number(three)] + []), State([OpenParen, Power], [Number(two), Number(two)]), State([], [Power, Number(two), Number(two)]));
  }

  lemma ParsePowerTimesThreeFrom3(two: real, three: real)
    ensures Run([Number(two)] + ([CloseParen] + ([Asterix] + ([Number(three)] + []))), State([OpenParen, Power], [Number(two)])) == Ok(State([Asterix], [Number(three), Power, Number(two), Number(two)]))
  {
    ParsePowerTimesThreeFrom4(three, two);
    assert [Number(two)] + [Number(two)] == [Number(two), Number(two)];
    RunCons(Number(two), [CloseParen] + ([Asterix] + ([Number(three)] + [])), State([OpenParen, Power], [Number(two)]), State([OpenParen, Power], [Number(two), Number(two)]));
  }

  lemma ParsePowerTimesThreeFrom2(two: real, three: real)
    ensures Run([Power] + ([Number(two)] + ([CloseParen] + ([Asterix] + ([Number(three)] + [])))), State([OpenParen], [Number(two)])) == Ok(State([Asterix], [Number(three), Power, Number(two), Number(two)]))
  {
    ParsePowerTimesThreeFrom3(two, three);
    OperatorPushed(Power, [OpenParen], [Number(two)]);
    assert [OpenParen] + [Power] == [OpenParen, Power];
    RunCons(Power, [Number(two)] + ([CloseParen] + ([Asterix] + ([Number(three)] + []))), State([OpenParen], [Number(two)]), State([OpenParen, Power], [Number(two)]));
  }

  lemma ParsePowerTimesThreeFrom1(two: real, three: real)
    ensures Run([Number(two)] + ([Power] + ([Number(two)] + ([CloseParen] + ([Asterix] + ([Number(three)] + []))))), State([OpenParen], [])) == Ok(State([Asterix], [Number(three), Power, Number(two), Number(two)]))
  {
    ParsePowerTimesThreeFrom2(two, three);
    assert [Number(two)] + [] == [Number(two)];
    RunCons(Number(two), [Power] + ([Number(two)] + ([CloseParen] + ([Asterix] + ([Number(three)] + [])))), State([OpenParen], []), State([OpenParen], [Number(two)]));
  }

  lemma ParsePowerTimesThreeFrom0(two: real, three: real)
    ensures Run([OpenParen] + ([Number(two)] + ([Power] + ([Number(two)] + ([CloseParen] + ([Asterix] + ([Number(three)] + [])))))), State([], [])) == Ok(State([Asterix], [Number(three), Power, Number(two), Number(two)]))
  {
    ParsePowerTimesThreeFrom1(two, three);
    assert [] + [OpenParen] == [OpenParen];
    RunCons(OpenParen, [Number(two)] + ([Power] + ([Number(two)] + ([CloseParen] + ([Asterix] + ([Number(three)] + []))))), State([], []), State([OpenParen], []));
  }

  lemma ParsePowerTimesThreeShape6(three: real)
    ensures SignsSeparated([Number(three)] + [])
  {
    SignsSeparatedCons(Number(three), []);
  }

  lemma ParsePowerTimesThreeShape5(three: real)
    ensures SignsSeparated([Asterix] + ([Number(three)] + []))
  {
    ParsePowerTimesThreeShape6(three);
    SignsSeparatedCons(Asterix, [Number(three)] + []);
  }

  lemma ParsePowerTimesThreeShape4(three: real)
    ensures SignsSeparated([CloseParen] + ([Asterix] + ([Number(three)] + [])))
  {
    ParsePowerTimesThreeShape5(three);
    SignsSeparatedCons(CloseParen, [Asterix] + ([Number(three)] + []));
  }

  lemma ParsePowerTimesThreeShape3(two: real, three: real)
    ensures SignsSeparated([Number(two)] + ([CloseParen] + ([Asterix] + ([Number(three)] + []))))
  {
    ParsePowerTimesThreeShape4(three);
    SignsSeparatedCons(Number(two), [CloseParen] + ([Asterix] + ([Number(three)] + [])));
  }

  lemma ParsePowerTimesThreeShape2(two: real, three: real)
    ensures SignsSeparated([Power] + ([Number(two)] + ([CloseParen] + ([Asterix] + ([Number(three)] + [])))))
  {
    ParsePowerTimesThreeShape3(two, three);
    SignsSeparatedCons(Power, [Number(two)] + ([CloseParen] + ([Asterix] + ([Number(three)] + []))));
  }

  lemma ParsePowerTimesThreeShape1(two: real, three: real)
    ensures SignsSeparated([Number(two)] + ([Power] + ([Number(two)] + ([CloseParen] + ([Asterix] + ([Number(three)] + []))))))
  {
    ParsePowerTimesThreeShape2(two, three);
    SignsSeparatedCons(Number(two), [Power] + ([Number(two)] + ([CloseParen] + ([Asterix] + ([Number(three)] + [])))));
  }

  lemma ParsePowerTimesThreeShape0(two: real, three: real)
    ensures SignsSeparated([OpenParen] + ([Number(two)] + ([Power] + ([Number(two)] + ([CloseParen] + ([Asterix] + ([Number(three)] + [])))))))
  {
    ParsePowerTimesThreeShape1(two, three);
    SignsSeparatedCons(OpenParen, [Number(two)] + ([Power] + ([Number(two)] + ([CloseParen] + ([Asterix] + ([Number(three)] + []))))));
  }

  lemma InsertPowerTimesThree(two: real, three: real)
    ensures InsertParens([Number(two)] + ([Power] + ([Number(two)] + ([Asterix] + ([Number(three)] + []))))) == Ok([OpenParen] + ([Number(two)] + ([Power] + ([Number(two)] + ([CloseParen] + ([Asterix] + ([Number(three)] + [])))))))
  {
    var t := [Number(two), Power, Number(two), Asterix, Number(three)];
    assert [] + [Number(two)] == [Number(two)];
    assert InsertFrom(t, 0, [], false) == InsertFrom(t, 1, [Number(two)], false);
    assert [Number(two)][..0] + [Number(two)][1..] + [OpenParen, Number(two), Power, Number(two), CloseParen] == [OpenParen, Number(two), Power, Number(two), CloseParen];
    assert InsertFrom(t, 1, [Number(two)], false) == InsertFrom(t, 2, [OpenParen, Number(two), Power, Number(two), CloseParen], true);
    assert InsertFrom(t, 2, [OpenParen, Number(two), Power, Number(two), CloseParen], true) == InsertFrom(t, 3, [OpenParen, Number(two), Power, Number(two), CloseParen], false);
    assert [OpenParen, Number(two), Power, Number(two), CloseParen] + [Asterix] == [OpenParen, Number(two), Power, Number(two), CloseParen, Asterix];
    assert InsertFrom(t, 3, [OpenParen, Number(two), Power, Number(two), CloseParen], false) == InsertFrom(t, 4, [OpenParen, Number(two), Power, Number(two), CloseParen, Asterix], false);
    assert [OpenParen, Number(two), Power, Number(two), CloseParen, Asterix] + [Number(three)] == [OpenParen, Number(two), Power, Number(two), CloseParen, Asterix, Number(three)];
    assert InsertFrom(t, 4, [OpenParen, Number(two), Power, Number(two), CloseParen, Asterix], false) == InsertFrom(t, 5, [OpenParen, Number(two), Power, Number(two), CloseParen, Asterix, Number(three)], false);
    assert t == [Number(two)] + ([Power] + ([Number(two)] + ([Asterix] + ([Number(three)] + []))));
    assert [OpenParen, Number(two), Power, Number(two), CloseParen, Asterix, Number(three)] == [OpenParen] + ([Number(two)] + ([Power] + ([Number(two)] + ([CloseParen] + ([Asterix] + ([Number(three)] + []))))));
  }

  lemma ParsePowerTimesThree(two: real, three: real)
    ensures ParseTokens([Number(two)] + ([Power] + ([Number(two)] + ([Asterix] + ([Number(three)] + []))))) == Ok([Asterix, Number(three), Power, Number(two), Number(two)])
  {
    var t := [Number(two)] + ([Power] + ([Number(two)] + ([Asterix] + ([Number(three)] + []))));
    ParsePowerTimesThreeShape0(two, three);
    InsertPowerTimesThree(two, three);
    BalanceSeparated([OpenParen] + ([Number(two)] + ([Power] + ([Number(two)] + ([CloseParen] + ([Asterix] + ([Number(three)] + [])))))));
    ParsePowerTimesThreeFrom0(two, three);
    assert [Asterix] + [Number(three), Power, Number(two), Number(two)] == [Asterix, Number(three), Power, Number(two), Number(two)];
  }

  lemma ExecutePowerTimesThreeFrom4(m: Maths)
    ensures ExecRun(m, [Asterix], [m.pow(2.0, 2.0), 3.0]) == Ok([(3.0 * m.pow(2.0, 2.0))])
  {
    assert Binary(m, Asterix, 3.0, m.pow(2.0, 2.0)) == (3.0 * m.pow(2.0, 2.0));
    assert [m.pow(2.0, 2.0), 3.0][..0] + [(3.0 * m.pow(2.0, 2.0))] == [(3.0 * m.pow(2.0, 2.0))];
    assert ExecStep(m, Asterix, [m.pow(2.0, 2.0), 3.0]) == Ok([(3.0 * m.pow(2.0, 2.0))]);
    ExecSnoc(m, [], Asterix, [m.pow(2.0, 2.0), 3.0], [(3.0 * m.pow(2.0, 2.0))]);
    assert [] + [Asterix] == [Asterix];
  }

  lemma ExecutePowerTimesThreeFrom3(m: Maths)
    ensures ExecRun(m, [Asterix, Number(3.0)], [m.pow(2.0, 2.0)]) == Ok([(3.0 * m.pow(2.0, 2.0))])
  {
    ExecutePowerTimesThreeFrom4(m);
    assert [m.pow(2.0, 2.0)] + [3.0] == [m.pow(2.0, 2.0), 3.0];
    assert ExecStep(m, Number(3.0), [m.pow(2.0, 2.0)]) == Ok([m.pow(2.0, 2.0), 3.0]);
    ExecSnoc(m, [Asterix], Number(3.0), [m.pow(2.0, 2.0)], [m.pow(2.0, 2.0), 3.0]);
    assert [Asterix] + [Number(3.0)] == [Asterix, Number(3.0)];
  }

  lemma ExecutePowerTimesThreeFrom2(m: Maths)
    ensures ExecRun(m, [Asterix, Number(3.0), Power], [2.0, 2.0]) == Ok([(3.0 * m.pow(2.0, 2.0))])
  {
    ExecutePowerTimesThreeFrom3(m);
    assert Binary(m, Power, 2.0, 2.0) == m.pow(2.0, 2.0);
    assert [2.0, 2.0][..0] + [m.pow(2.0, 2.0)] == [m.pow(2.0, 2.0)];
    assert ExecStep(m, Power, [2.0, 2.0]) == Ok([m.pow(2.0, 2.0)]);
    ExecSnoc(m, [Asterix, Number(3.0)], Power, [2.0, 2.0], [m.pow(2.0, 2.0)]);
    assert [Asterix, Number(3.0)] + [Power] == [Asterix, Number(3.0), Power];
  }

  lemma ExecutePowerTimesThreeFrom1(m: Maths)
    ensures ExecRun(m, [Asterix, Number(3.0), Power, Number(2.0)], [2.0]) == Ok([(3.0 * m.pow(2.0, 2.0))])
  {
    ExecutePowerTimesThreeFrom2(m);
    assert [2.0] + [2.0] == [2.0, 2.0];
    assert ExecStep(m, Number(2.0), [2.0]) == Ok([2.0, 2.0]);
    ExecSnoc(m, [Asterix, Number(3.0), Power], Number(2.0), [2.0], [2.0, 2.0]);
    assert [Asterix, Number(3.0), Power] + [Number(2.0)] == [Asterix, Number(3.0), Power, Number(2.0)];
  }

  lemma ExecutePowerTimesThreeFrom0(m: Maths)
    ensures ExecRun(m, [Asterix, Number(3.0), Power, Number(2.0), Number(2.0)], []) == Ok([(3.0 * m.pow(2.0, 2.0))])
  {
    ExecutePowerTimesThreeFrom1(m);
    assert [] + [2.0] == [2.0];
    assert ExecStep(m, Number(2.0), []) == Ok([2.0]);
    ExecSnoc(m, [Asterix, Number(3.0), Power, Number(2.0)], Number(2.0), [], [2.0]);
    assert [Asterix, Number(3.0), Power, Number(2.0)] + [Number(2.0)] == [Asterix, Number(3.0), Power, Number(2.0), Number(2.0)];
  }

  lemma ExecutePowerTimesThree(m: Maths)
    ensures Evaluate(m, [Asterix, Number(3.0), Power, Number(2.0), Number(2.0)]) == Ok(3.0 * m.pow(2.0, 2.0))
  {
    ExecutePowerTimesThreeFrom0(m);
  }

  /** `2^2 * 3` is `3` times `powf(2, 2)`: `insert_parenthesis` rewrites the power to `( 2 ^ 2 )`, and a `powf` that squares exactly gives `12`. */
  lemma PowerTimesThree(m: Maths)
    requires m.literal("2") == 2.0 && m.literal("3") == 3.0
    ensures InterpretSpec(m, "2^2 * 3") == Ok(3.0 * m.pow(2.0, 2.0))
    ensures m.pow(2.0, 2.0) == 4.0 ==> InterpretSpec(m, "2^2 * 3") == Ok(12.0)
  {
    LexPowerTimesThree(m);
    ParsePowerTimesThree(2.0, 3.0);
    ExecutePowerTimesThree(m);
  }

  // ---------------------------------------------------------------------
  // "x + 1": the space after a one-letter word is consumed instead
  // ---------------------------------------------------------------------

  /** The characters of `x + 1`. */
  predicate LetterSwallowsSpaceText(s: string) {
    |s| == 5 && s[0] == 'x' && s[1] == ' ' && s[2] == '+' && s[3] == ' ' && s[4] == '1'
  }

  lemma LetterSwallowsSpaceTextChars()
    ensures LetterSwallowsSpaceText("x + 1")
  {
  }

  lemma LexLetterSwallowsSpaceFrom5(m: Maths, s: string)
    requires LetterSwallowsSpaceText(s)
    ensures LexFrom(m, s, 5) == Ok([])
  {
    assert Scan(m, s, 5) == Ok(None);
  }

  lemma LexLetterSwallowsSpaceFrom3(m: Maths, s: string)
    requires LetterSwallowsSpaceText(s)
    ensures LexFrom(m, s, 3) == Ok([Number(m.literal("1"))] + [])
  {
    LexLetterSwallowsSpaceFrom5(m, s);
    ScanLiteral(m, s, 4, 5);
    assert s[4..5] == "1";
    ScanAfter(m, s, 3, 4, Number(m.literal("1")), 5);
  }

  lemma LexLetterSwallowsSpaceFrom2(m: Maths, s: string)
    requires LetterSwallowsSpaceText(s)
    ensures LexFrom(m, s, 2) == Ok([Plus] + ([Number(m.literal("1"))] + []))
  {
    LexLetterSwallowsSpaceFrom3(m, s);
    ScanSymbol(m, s, 2);
    ScanAfter(m, s, 2, 2, Plus, 3);
  }

  lemma LexLetterSwallowsSpaceFrom0(m: Maths, s: string)
    requires LetterSwallowsSpaceText(s)
    ensures LexFrom(m, s, 0) == Ok([Identifier("x")] + ([Plus] + ([Number(m.literal("1"))] + [])))
  {
    LexLetterSwallowsSpaceFrom2(m, s);
    ScanWord(m, s, 0);
    RunEndUnique(s, 1, WordStop, 1);
    assert [s[0]] == "x";
    assert LowerWord("x") == "x";
    ScanAfter(m, s, 0, 0, Identifier("x"), 2);
  }

  lemma LexLetterSwallowsSpace(m: Maths)
    ensures Tokenize(m, "x + 1") == Ok([Identifier("x")] + ([Plus] + ([Number(m.literal("1"))] + [])))
  {
    LetterSwallowsSpaceTextChars();
    LexLetterSwallowsSpaceFrom0(m, "x + 1");
  }

  lemma ParseLetterSwallowsSpaceFrom2(one: real)
    ensures Run([Number(one)] + [], State([Plus], [])) == Ok(State([Plus], [Number(one)]))
  {
    assert [Number(one)] + [] == [Number(one)];
    RunCons(Number(one), [], State([Plus], []), State([Plus], [Number(one)]));
  }

  lemma ParseLetterSwallowsSpaceFrom1(one: real)
    ensures Run([Plus] + ([Number(one)] + []), State([], [])) == Ok(State([Plus], [Number(one)]))
  {
    ParseLetterSwallowsSpaceFrom2(one);
    OperatorPushed(Plus, [], []);
    assert [] + [Plus] == [Plus];
    RunCons(Plus, [Number(one)] + [], State([], []), State([Plus], []));
  }

  lemma ParseLetterSwallowsSpaceFrom0(one: real)
    ensures Run([Identifier("x")] + ([Plus] + ([Number(one)] + [])), State([], [])) == Ok(State([Plus], [Number(one)]))
  {
    ParseLetterSwallowsSpaceFrom1(one);
    RunCons(Identifier("x"), [Plus] + ([Number(one)] + []), State([], []), State([], []));
  }

  lemma ParseLetterSwallowsSpaceShape0(one: real)
    ensures NoRewrites([Identifier("x")] + ([Plus] + ([Number(one)] + []))) && SignsSeparated([Identifier("x")] + ([Plus] + ([Number(one)] + [])))
  {
    ParseOnePlusOneShape1(one);
    NoRewritesCons(Identifier("x"), [Plus] + ([Number(one)] + []));
    SignsSeparatedCons(Identifier("x"), [Plus] + ([Number(one)] + []));
  }

  lemma ParseLetterSwallowsSpace(one: real)
    ensures ParseTokens([Identifier("x")] + ([Plus] + ([Number(one)] + []))) == Ok([Plus, Number(one)])
  {
    var t := [Identifier("x")] + ([Plus] + ([Number(one)] + []));
    ParseLetterSwallowsSpaceShape0(one);
    InsertParensPlain(t);
    BalanceSeparated(t);
    ParseLetterSwallowsSpaceFrom0(one);
    assert [Plus] + [Number(one)] == [Plus, Number(one)];
  }

  lemma ExecuteLetterSwallowsSpaceFrom1(m: Maths)
    ensures ExecRun(m, [Plus], [1.0]) == Err(MissingExpression)
  {
    ExecLast(m, [], Plus, [1.0]);
    assert ExecStep(m, Plus, [1.0]) == Err(MissingExpression);
    assert [] + [Plus] == [Plus];
  }

  lemma ExecuteLetterSwallowsSpaceFrom0(m: Maths)
    ensures ExecRun(m, [Plus, Number(1.0)], []) == Err(MissingExpression)
  {
    ExecuteLetterSwallowsSpaceFrom1(m);
    assert [] + [1.0] == [1.0];
    assert ExecStep(m, Number(1.0), []) == Ok([1.0]);
    ExecSnoc(m, [Plus], Number(1.0), [], [1.0]);
    assert [Plus] + [Number(1.0)] == [Plus, Number(1.0)];
  }

  lemma ExecuteLetterSwallowsSpace(m: Maths)
    ensures Evaluate(m, [Plus, Number(1.0)]) == Err(MissingExpression)
  {
    ExecuteLetterSwallowsSpaceFrom0(m);
  }

  /** `x + 1` is the `MissingExpression` error, while `x+1` gives `1`: here the space after `x` is dropped and the `+` is kept, so it finds one value on the stack. */
  lemma LetterSwallowsSpace(m: Maths)
    requires m.literal("1") == 1.0
    ensures InterpretSpec(m, "x + 1") == Err(MissingExpression)
  {
    LexLetterSwallowsSpace(m);
    ParseLetterSwallowsSpace(1.0);
    ExecuteLetterSwallowsSpace(m);
  }

  // ---------------------------------------------------------------------
  // "2 # 3": an unknown character ends the token stream
  // ---------------------------------------------------------------------

  /** The characters of `2 # 3`. */
  predicate UnknownCharacterEndsText(s: string) {
    |s| == 5 && s[0] == '2' && s[1] == ' ' && s[2] == '#' && s[3] == ' ' && s[4] == '3'
  }

  lemma UnknownCharacterEndsTextChars()
    ensures UnknownCharacterEndsText("2 # 3")
  {
  }

  lemma LexUnknownCharacterEndsFrom1(m: Maths, s: string)
    requires UnknownCharacterEndsText(s)
    ensures LexFrom(m, s, 1) == Ok([])
  {
    SpacesSkipped(m, s, 1, 2);
    UnknownEndsLexing(m, s, 2);
  }

  lemma LexUnknownCharacterEndsFrom0(m: Maths, s: string)
    requires UnknownCharacterEndsText(s)
    ensures LexFrom(m, s, 0) == Ok([Number(m.literal("2"))] + [])
  {
    LexUnknownCharacterEndsFrom1(m, s);
    ScanLiteral(m, s, 0, 1);
    assert s[0..1] == "2";
    ScanAfter(m, s, 0, 0, Number(m.literal("2")), 1);
  }

  lemma LexUnknownCharacterEnds(m: Maths)
    ensures Tokenize(m, "2 # 3") == Ok([Number(m.literal("2"))] + [])
  {
    UnknownCharacterEndsTextChars();
    LexUnknownCharacterEndsFrom0(m, "2 # 3");
  }

  lemma ParseUnknownCharacterEnds(two: real)
    ensures ParseTokens([Number(two)] + []) == Ok([Number(two)])
  {
    var t := [Number(two)] + [];
    ParseOnePlusOneShape2(two);
    InsertParensPlain(t);
    BalanceSeparated(t);
    ParseLetterSwallowsNextFrom1(two);
    assert [] + [Number(two)] == [Number(two)];
  }

  lemma ExecuteUnknownCharacterEndsFrom0(m: Maths)
    ensures ExecRun(m, [Number(2.0)], []) == Ok([2.0])
  {
    assert [] + [2.0] == [2.0];
    assert ExecStep(m, Number(2.0), []) == Ok([2.0]);
    ExecSnoc(m, [], Number(2.0), [], [2.0]);
    assert [] + [Number(2.0)] == [Number(2.0)];
  }

  lemma ExecuteUnknownCharacterEnds(m: Maths)
    ensures Evaluate(m, [Number(2.0)]) == Ok(2.0)
  {
    ExecuteUnknownCharacterEndsFrom0(m);
  }

  /** `2 # 3` gives `2`: lexing stops at `#`, and the rest of the input is never read. */
  lemma UnknownCharacterEnds(m: Maths)
    requires m.literal("2") == 2.0
    ensures InterpretSpec(m, "2 # 3") == Ok(2.0)
  {
    LexUnknownCharacterEnds(m);
    ParseUnknownCharacterEnds(2.0);
    ExecuteUnknownCharacterEnds(m);
  }

  // ---------------------------------------------------------------------
  // "1 - - 2 - 3": the skip flag of balance_operators is never cleared
  // ---------------------------------------------------------------------

  /** The characters of `1 - - 2 - 3`. */
  predicate SkipFlagNeverClearedText(s: string) {
    |s| == 11 && s[0] == '1' && s[1] == ' ' && s[2] == '-' && s[3] == ' ' && s[4] == '-' && s[5] == ' ' && s[6] == '2' && s[7] == ' ' && s[8] == '-' && s[9] == ' ' && s[10] == '3'
  }

  lemma SkipFlagNeverClearedTextChars()
    ensures SkipFlagNeverClearedText("1 - - 2 - 3")
  {
  }

  lemma LexSkipFlagNeverClearedFrom11(m: Maths, s: string)
    requires SkipFlagNeverClearedText(s)
    ensures LexFrom(m, s, 11) == Ok([])
  {
    assert Scan(m, s, 11) == Ok(None);
  }

  lemma LexSkipFlagNeverClearedFrom9(m: Maths, s: string)
    requires SkipFlagNeverClearedText(s)
    ensures LexFrom(m, s, 9) == Ok([Number(m.literal("3"))] + [])
  {
    LexSkipFlagNeverClearedFrom11(m, s);
    ScanLiteral(m, s, 10, 11);
    assert s[10..11] == "3";
    ScanAfter(m, s, 9, 10, Number(m.literal("3")), 11);
  }

  lemma LexSkipFlagNeverClearedFrom7(m: Maths, s: string)
    requires SkipFlagNeverClearedText(s)
    ensures LexFrom(m, s, 7) == Ok([Minus] + ([Number(m.literal("3"))] + []))
  {
    LexSkipFlagNeverClearedFrom9(m, s);
    ScanSymbol(m, s, 8);
    ScanAfter(m, s, 7, 8, Minus, 9);
  }

  lemma LexSkipFlagNeverClearedFrom5(m: Maths, s: string)
    requires SkipFlagNeverClearedText(s)
    ensures LexFrom(m, s, 5) == Ok([Number(m.literal("2"))] + ([Minus] + ([Number(m.literal("3"))] + [])))
  {
    LexSkipFlagNeverClearedFrom7(m, s);
    ScanLiteral(m, s, 6, 7);
    assert s[6..7] == "2";
    ScanAfter(m, s, 5, 6, Number(m.literal("2")), 7);
  }

  lemma LexSkipFlagNeverClearedFrom3(m: Maths, s: string)
    requires SkipFlagNeverClearedText(s)
    ensures LexFrom(m, s, 3) == Ok([Minus] + ([Number(m.literal("2"))] + ([Minus] + ([Number(m.literal("3"))] + []))))
  {
    LexSkipFlagNeverClearedFrom5(m, s);
    ScanSymbol(m, s, 4);
    ScanAfter(m, s, 3, 4, Minus, 5);
  }

  lemma LexSkipFlagNeverClearedFrom1(m: Maths, s: string)
    requires SkipFlagNeverClearedText(s)
    ensures LexFrom(m, s, 1) == Ok([Minus] + ([Minus] + ([Number(m.literal("2"))] + ([Minus] + ([Number(m.literal("3"))] + [])))))
  {
    LexSkipFlagNeverClearedFrom3(m, s);
    ScanSymbol(m, s, 2);
    ScanAfter(m, s, 1, 2, Minus, 3);
  }

  lemma LexSkipFlagNeverClearedFrom0(m: Maths, s: string)
    requires SkipFlagNeverClearedText(s)
    ensures LexFrom(m, s, 0) == Ok([Number(m.literal("1"))] + ([Minus] + ([Minus] + ([Number(m.literal("2"))] + ([Minus] + ([Number(m.literal("3"))] + []))))))
  {
    LexSkipFlagNeverClearedFrom1(m, s);
    ScanLiteral(m, s, 0, 1);
    assert s[0..1] == "1";
    ScanAfter(m, s, 0, 0, Number(m.literal("1")), 1);
  }

  lemma LexSkipFlagNeverCleared(m: Maths)
    ensures Tokenize(m, "1 - - 2 - 3") == Ok([Number(m.literal("1"))] + ([Minus] + ([Minus] + ([Number(m.literal("2"))] + ([Minus] + ([Number(m.literal("3"))] + []))))))
  {
    SkipFlagNeverClearedTextChars();
    LexSkipFlagNeverClearedFrom0(m, "1 - - 2 - 3");
  }

  lemma ParseSkipFlagNeverClearedFrom3(three: real, two: real, one: real)
    ensures Run([Number(three)] + [], State([Plus], [Number(two), Number(one)])) == Ok(State([Plus], [Number(three), Number(two), Number(one)]))
  {
    assert [Number(three)] + [Number(two), Number(one)] == [Number(three), Number(two), Number(one)];
    RunCons(Number(three), [], State([Plus], [Number(two), Number(one)]), State([Plus], [Number(three), Number(two), Number(one)]));
  }

  lemma ParseSkipFlagNeverClearedFrom2(two: real, three: real, one: real)
    ensures Run([Number(two)] + ([Number(three)] + []), State([Plus], [Number(one)])) == Ok(State([Plus], [Number(three), Number(two), Number(one)]))
  {
    ParseSkipFlagNeverClearedFrom3(three, two, one);
    assert [Number(two)] + [Number(one)] == [Number(two), Number(one)];
    RunCons(Number(two), [Number(three)] + [], State([Plus], [Number(one)]), State([Plus], [Number(two), Number(one)]));
  }

  lemma ParseSkipFlagNeverClearedFrom1(two: real, three: real, one: real)
    ensures Run([Plus] + ([Number(two)] + ([Number(three)] + [])), State([], [Number(one)])) == Ok(State([Plus], [Number(three), Number(two), Number(one)]))
  {
    ParseSkipFlagNeverClearedFrom2(two, three, one);
    OperatorPushed(Plus, [], [Number(one)]);
    assert [] + [Plus] == [Plus];
    RunCons(Plus, [Number(two)] + ([Number(three)] + []), State([], [Number(one)]), State([Plus], [Number(one)]));
  }

  lemma ParseSkipFlagNeverClearedFrom0(one: real, two: real, three: real)
    ensures Run([Number(one)] + ([Plus] + ([Number(two)] + ([Number(three)] + []))), State([], [])) == Ok(State([Plus], [Number(three), Number(two), Number(one)]))
  {
    ParseSkipFlagNeverClearedFrom1(two, three, one);
    assert [Number(one)] + [] == [Number(one)];
    RunCons(Number(one), [Plus] + ([Number(two)] + ([Number(three)] + [])), State([], []), State([], [Number(one)]));
  }

  lemma ParseSkipFlagNeverClearedShape5(three: real)
    ensures NoRewrites([Number(three)] + [])
  {
    NoRewritesCons(Number(three), []);
  }

  lemma ParseSkipFlagNeverClearedShape4(three: real)
    ensures NoRewrites([Minus] + ([Number(three)] + []))
  {
    ParseSkipFlagNeverClearedShape5(three);
    NoRewritesCons(Minus, [Number(three)] + []);
  }

  lemma ParseSkipFlagNeverClearedShape3(two: real, three: real)
    ensures NoRewrites([Number(two)] + ([Minus] + ([Number(three)] + [])))
  {
    ParseSkipFlagNeverClearedShape4(three);
    NoRewritesCons(Number(two), [Minus] + ([Number(three)] + []));
  }

  lemma ParseSkipFlagNeverClearedShape2(two: real, three: real)
    ensures NoRewrites([Minus] + ([Number(two)] + ([Minus] + ([Number(three)] + []))))
  {
    ParseSkipFlagNeverClearedShape3(two, three);
    NoRewritesCons(Minus, [Number(two)] + ([Minus] + ([Number(three)] + [])));
  }

  lemma ParseSkipFlagNeverClearedShape1(two: real, three: real)
    ensures NoRewrites([Minus] + ([Minus] + ([Number(two)] + ([Minus] + ([Number(three)] + [])))))
  {
    ParseSkipFlagNeverClearedShape2(two, three);
    NoRewritesCons(Minus, [Minus] + ([Number(two)] + ([Minus] + ([Number(three)] + []))));
  }

  lemma ParseSkipFlagNeverClearedShape0(one: real, two: real, three: real)
    ensures NoRewrites([Number(one)] + ([Minus] + ([Minus] + ([Number(two)] + ([Minus] + ([Number(three)] + []))))))
  {
    ParseSkipFlagNeverClearedShape1(two, three);
    NoRewritesCons(Number(one), [Minus] + ([Minus] + ([Number(two)] + ([Minus] + ([Number(three)] + [])))));
  }

  lemma ParseSkipFlagNeverCleared(one: real, two: real, three: real)
    ensures ParseTokens([Number(one)] + ([Minus] + ([Minus] + ([Number(two)] + ([Minus] + ([Number(three)] + [])))))) == Ok([Plus, Number(three), Number(two), Number(one)])
  {
    var t := [Number(one)] + ([Minus] + ([Minus] + ([Number(two)] + ([Minus] + ([Number(three)] + [])))));
    ParseSkipFlagNeverClearedShape0(one, two, three);
    InsertParensPlain(t);
    assert t == [Number(one), Minus, Minus, Number(two), Minus, Number(three)];
    SkipNeverCleared(one, two, three);
    assert [Number(one), Plus, Number(two), Number(three)] == [Number(one)] + ([Plus] + ([Number(two)] + ([Number(three)] + [])));
    ParseSkipFlagNeverClearedFrom0(one, two, three);
    assert [Plus] + [Number(three), Number(two), Number(one)] == [Plus, Number(three), Number(two), Number(one)];
  }

  lemma ExecuteSkipFlagNeverClearedFrom3(m: Maths)
    ensures ExecRun(m, [Plus], [1.0, 2.0, 3.0]) == Ok([1.0, 5.0])
  {
    assert [1.0, 2.0, 3.0][..1] + [5.0] == [1.0, 5.0];
    assert ExecStep(m, Plus, [1.0, 2.0, 3.0]) == Ok([1.0, 5.0]);
    ExecSnoc(m, [], Plus, [1.0, 2.0, 3.0], [1.0, 5.0]);
    assert [] + [Plus] == [Plus];
  }

  lemma ExecuteSkipFlagNeverClearedFrom2(m: Maths)
    ensures ExecRun(m, [Plus, Number(3.0)], [1.0, 2.0]) == Ok([1.0, 5.0])
  {
    ExecuteSkipFlagNeverClearedFrom3(m);
    assert [1.0, 2.0] + [3.0] == [1.0, 2.0, 3.0];
    assert ExecStep(m, Number(3.0), [1.0, 2.0]) == Ok([1.0, 2.0, 3.0]);
    ExecSnoc(m, [Plus], Number(3.0), [1.0, 2.0], [1.0, 2.0, 3.0]);
    assert [Plus] + [Number(3.0)] == [Plus, Number(3.0)];
  }

  lemma ExecuteSkipFlagNeverClearedFrom1(m: Maths)
    ensures ExecRun(m, [Plus, Number(3.0), Number(2.0)], [1.0]) == Ok([1.0, 5.0])
  {
    ExecuteSkipFlagNeverClearedFrom2(m);
    assert [1.0] + [2.0] == [1.0, 2.0];
    assert ExecStep(m, Number(2.0), [1.0]) == Ok([1.0, 2.0]);
    ExecSnoc(m, [Plus, Number(3.0)], Number(2.0), [1.0], [1.0, 2.0]);
    assert [Plus, Number(3.0)] + [Number(2.0)] == [Plus, Number(3.0), Number(2.0)];
  }

  lemma ExecuteSkipFlagNeverClearedFrom0(m: Maths)
    ensures ExecRun(m, [Plus, Number(3.0), Number(2.0), Number(1.0)], []) == Ok([1.0, 5.0])
  {
    ExecuteSkipFlagNeverClearedFrom1(m);
    assert [] + [1.0] == [1.0];
    assert ExecStep(m, Number(1.0), []) == Ok([1.0]);
    ExecSnoc(m, [Plus, Number(3.0), Number(2.0)], Number(1.0), [], [1.0]);
    assert [Plus, Number(3.0), Number(2.0)] + [Number(1.0)] == [Plus, Number(3.0), Number(2.0), Number(1.0)];
  }

  lemma ExecuteSkipFlagNeverCleared(m: Maths)
    ensures Evaluate(m, [Plus, Number(3.0), Number(2.0), Number(1.0)]) == Ok(5.0)
  {
    ExecuteSkipFlagNeverClearedFrom0(m);
  }

  /** `1 - - 2 - 3` gives `5`, not the standard `0`: `- -` becomes `+`, the later `-` is dropped, and the result is the top of the final stack. */
  lemma SkipFlagNeverCleared(m: Maths)
    requires m.literal("1") == 1.0 && m.literal("2") == 2.0 && m.literal("3") == 3.0
    ensures InterpretSpec(m, "1 - - 2 - 3") == Ok(5.0)
  {
    LexSkipFlagNeverCleared(m);
    ParseSkipFlagNeverCleared(1.0, 2.0, 3.0);
    ExecuteSkipFlagNeverCleared(m);
  }

  // ---------------------------------------------------------------------
  // "10 / (5 - 5)": division by zero
  // ---------------------------------------------------------------------

  /** The characters of `10 / (5 - 5)`. */
  predicate DivideByZeroText(s: string) {
    |s| == 12 && s[0] == '1' && s[1] == '0' && s[2] == ' ' && s[3] == '/' && s[4] == ' ' && s[5] == '(' && s[6] == '5' && s[7] == ' ' && s[8] == '-' && s[9] == ' ' && s[10] == '5' && s[11] == ')'
  }

  lemma DivideByZeroTextChars()
    ensures DivideByZeroText("10 / (5 - 5)")
  {
  }

  lemma LexDivideByZeroFrom12(m: Maths, s: string)
    requires DivideByZeroText(s)
    ensures LexFrom(m, s, 12) == Ok([])
  {
    assert Scan(m, s, 12) == Ok(None);
  }

  lemma LexDivideByZeroFrom11(m: Maths, s: string)
    requires DivideByZeroText(s)
    ensures LexFrom(m, s, 11) == Ok([CloseParen] + [])
  {
    LexDivideByZeroFrom12(m, s);
    ScanSymbol(m, s, 11);
    ScanAfter(m, s, 11, 11, CloseParen, 12);
  }

  lemma LexDivideByZeroFrom9(m: Maths, s: string)
    requires DivideByZeroText(s)
    ensures LexFrom(m, s, 9) == Ok([Number(m.literal("5"))] + ([CloseParen] + []))
  {
    LexDivideByZeroFrom11(m, s);
    ScanLiteral(m, s, 10, 11);
    assert s[10..11] == "5";
    ScanAfter(m, s, 9, 10, Number(m.literal("5")), 11);
  }

  lemma LexDivideByZeroFrom7(m: Maths, s: string)
    requires DivideByZeroText(s)
    ensures LexFrom(m, s, 7) == Ok([Minus] + ([Number(m.literal("5"))] + ([CloseParen] + [])))
  {
    LexDivideByZeroFrom9(m, s);
    ScanSymbol(m, s, 8);
    ScanAfter(m, s, 7, 8, Minus, 9);
  }

  lemma LexDivideByZeroFrom6(m: Maths, s: string)
    requires DivideByZeroText(s)
    ensures LexFrom(m, s, 6) == Ok([Number(m.literal("5"))] + ([Minus] + ([Number(m.literal("5"))] + ([CloseParen] + []))))
  {
    LexDivideByZeroFrom7(m, s);
    ScanLiteral(m, s, 6, 7);
    assert s[6..7] == "5";
    ScanAfter(m, s, 6, 6, Number(m.literal("5")), 7);
  }

  lemma LexDivideByZeroFrom4(m: Maths, s: string)
    requires DivideByZeroText(s)
    ensures LexFrom(m, s, 4) == Ok([OpenParen] + ([Number(m.literal("5"))] + ([Minus] + ([Number(m.literal("5"))] + ([CloseParen] + [])))))
  {
    LexDivideByZeroFrom6(m, s);
    ScanSymbol(m, s, 5);
    ScanAfter(m, s, 4, 5, OpenParen, 6);
  }

  lemma LexDivideByZeroFrom2(m: Maths, s: string)
    requires DivideByZeroText(s)
    ensures LexFrom(m, s, 2) == Ok([Slash] + ([OpenParen] + ([Number(m.literal("5"))] + ([Minus] + ([Number(m.literal("5"))] + ([CloseParen] + []))))))
  {
    LexDivideByZeroFrom4(m, s);
    ScanSymbol(m, s, 3);
    ScanAfter(m, s, 2, 3, Slash, 4);
  }

  lemma LexDivideByZeroFrom0(m: Maths, s: string)
    requires DivideByZeroText(s)
    ensures LexFrom(m, s, 0) == Ok([Number(m.literal("10"))] + ([Slash] + ([OpenParen] + ([Number(m.literal("5"))] + ([Minus] + ([Number(m.literal("5"))] + ([CloseParen] + [])))))))
  {
    LexDivideByZeroFrom2(m, s);
    ScanLiteral(m, s, 0, 2);
    assert s[0..2] == "10";
    ScanAfter(m, s, 0, 0, Number(m.literal("10")), 2);
  }

  lemma LexDivideByZero(m: Maths)
    ensures Tokenize(m, "10 / (5 - 5)") == Ok([Number(m.literal("10"))] + ([Slash] + ([OpenParen] + ([Number(m.literal("5"))] + ([Minus] + ([Number(m.literal("5"))] + ([CloseParen] + [])))))))
  {
    DivideByZeroTextChars();
    LexDivideByZeroFrom0(m, "10 / (5 - 5)");
  }

  lemma ParseDivideByZeroFrom6(five: real, ten: real)
    ensures Run([CloseParen] + [], State([Slash, OpenParen, Minus], [Number(five), Number(five), Number(ten)])) == Ok(State([Slash], [Minus, Number(five), Number(five), Number(ten)]))
  {
    CloseParenPops([Slash], [Minus], [Number(five), Number(five), Number(ten)]);
    assert [Slash] + [OpenParen] + [Minus] == [Slash, OpenParen, Minus];
    assert [Minus] + [Number(five), Number(five), Number(ten)] == [Minus, Number(five), Number(five), Number(ten)];
    RunCons(CloseParen, [], State([Slash, OpenParen, Minus], [Number(five), Number(five), Number(ten)]), State([Slash], [Minus, Number(five), Number(five), Number(ten)]));
  }

  lemma ParseDivideByZeroFrom5(five: real, ten: real)
    ensures Run([Number(five)] + ([CloseParen] + []), State([Slash, OpenParen, Minus], [Number(five), Number(ten)])) == Ok(State([Slash], [Minus, Number(five), Number(five), Number(ten)]))
  {
    ParseDivideByZeroFrom6(five, ten);
    assert [Number(five)] + [Number(five), Number(ten)] == [Number(five), Number(five), Number(ten)];
    RunCons(Number(five), [CloseParen] + [], State([Slash, OpenParen, Minus], [Number(five), Number(ten)]), State([Slash, OpenParen, Minus], [Number(five), Number(five), Number(ten)]));
  }

  lemma ParseDivideByZeroFrom4(five: real, ten: real)
    ensures Run([Minus] + ([Number(five)] + ([CloseParen] + [])), State([Slash, OpenParen], [Number(five), Number(ten)])) == Ok(State([Slash], [Minus, Number(five), Number(five), Number(ten)]))
  {
    ParseDivideByZeroFrom5(five, ten);
    OperatorPushed(Minus, [Slash, OpenParen], [Number(five), Number(ten)]);
    assert [Slash, OpenParen] + [Minus] == [Slash, OpenParen, Minus];
    RunCons(Minus, [Number(five)] + ([CloseParen] + []), State([Slash, OpenParen], [Number(five), Number(ten)]), State([Slash, OpenParen, Minus], [Number(five), Number(ten)]));
  }

  lemma ParseDivideByZeroFrom3(five: real, ten: real)
    ensures Run([Number(five)] + ([Minus] + ([Number(five)] + ([CloseParen] + []))), State([Slash, OpenParen], [Number(ten)])) == Ok(State([Slash], [Minus, Number(five), Number(five), Number(ten)]))
  {
    ParseDivideByZeroFrom4(five, ten);
    assert [Number(five)] + [Number(ten)] == [Number(five), Number(ten)];
    RunCons(Number(five), [Minus] + ([Number(five)] + ([CloseParen] + [])), State([Slash, OpenParen], [Number(ten)]), State([Slash, OpenParen], [Number(five), Number(ten)]));
  }

  lemma ParseDivideByZeroFrom2(five: real, ten: real)
    ensures Run([OpenParen] + ([Number(five)] + ([Minus] + ([Number(five)] + ([CloseParen] + [])))), State([Slash], [Number(ten)])) == Ok(State([Slash], [Minus, Number(five), Number(five), Number(ten)]))
  {
    ParseDivideByZeroFrom3(five, ten);
    assert [Slash] + [OpenParen] == [Slash, OpenParen];
    RunCons(OpenParen, [Number(five)] + ([Minus] + ([Number(five)] + ([CloseParen] + []))), State([Slash], [Number(ten)]), State([Slash, OpenParen], [Number(ten)]));
  }

  lemma ParseDivideByZeroFrom1(five: real, ten: real)
    ensures Run([Slash] + ([OpenParen] + ([Number(five)] + ([Minus] + ([Number(five)] + ([CloseParen] + []))))), State([], [Number(ten)])) == Ok(State([Slash], [Minus, Number(five), Number(five), Number(ten)]))
  {
    ParseDivideByZeroFrom2(five, ten);
    OperatorPushed(Slash, [], [Number(ten)]);
    assert [] + [Slash] == [Slash];
    RunCons(Slash, [OpenParen] + ([Number(five)] + ([Minus] + ([Number(five)] + ([CloseParen] + [])))), State([], [Number(ten)]), State([Slash], [Number(ten)]));
  }

  lemma ParseDivideByZeroFrom0(ten: real, five: real)
    ensures Run([Number(ten)] + ([Slash] + ([OpenParen] + ([Number(five)] + ([Minus] + ([Number(five)] + ([CloseParen] + [])))))), State([], [])) == Ok(State([Slash], [Minus, Number(five), Number(five), Number(ten)]))
  {
    ParseDivideByZeroFrom1(five, ten);
    assert [Number(ten)] + [] == [Number(ten)];
    RunCons(Number(ten), [Slash] + ([OpenParen] + ([Number(five)] + ([Minus] + ([Number(five)] + ([CloseParen] + []))))), State([], []), State([], [Number(ten)]));
  }

  lemma ParseDivideByZeroShape3(five: real)
    ensures NoRewrites([Number(five)] + ([Minus] + ([Number(five)] + ([CloseParen] + [])))) && SignsSeparated([Number(five)] + ([Minus] + ([Number(five)] + ([CloseParen] + []))))
  {
    ParseMixedExpressionEnclosedShape16(five);
    NoRewritesCons(Number(five), [Minus] + ([Number(five)] + ([CloseParen] + [])));
    SignsSeparatedCons(Number(five), [Minus] + ([Number(five)] + ([CloseParen] + [])));
  }

  lemma ParseDivideByZeroShape2(five: real)
    ensures NoRewrites([OpenParen] + ([Number(five)] + ([Minus] + ([Number(five)] + ([CloseParen] + []))))) && SignsSeparated([OpenParen] + ([Number(five)] + ([Minus] + ([Number(five)] + ([CloseParen] + [])))))
  {
    ParseDivideByZeroShape3(five);
    NoRewritesCons(OpenParen, [Number(five)] + ([Minus] + ([Number(five)] + ([CloseParen] + []))));
    SignsSeparatedCons(OpenParen, [Number(five)] + ([Minus] + ([Number(five)] + ([CloseParen] + []))));
  }

  lemma ParseDivideByZeroShape1(five: real)
    ensures NoRewrites([Slash] + ([OpenParen] + ([Number(five)] + ([Minus] + ([Number(five)] + ([CloseParen] + [])))))) && SignsSeparated([Slash] + ([OpenParen] + ([Number(five)] + ([Minus] + ([Number(five)] + ([CloseParen] + []))))))
  {
    ParseDivideByZeroShape2(five);
    NoRewritesCons(Slash, [OpenParen] + ([Number(five)] + ([Minus] + ([Number(five)] + ([CloseParen] + [])))));
    SignsSeparatedCons(Slash, [OpenParen] + ([Number(five)] + ([Minus] + ([Number(five)] + ([CloseParen] + [])))));
  }

  lemma ParseDivideByZeroShape0(ten: real, five: real)
    ensures NoRewrites([Number(ten)] + ([Slash] + ([OpenParen] + ([Number(five)] + ([Minus] + ([Number(five)] + ([CloseParen] + []))))))) && SignsSeparated([Number(ten)] + ([Slash] + ([OpenParen] + ([Number(five)] + ([Minus] + ([Number(five)] + ([CloseParen] + [])))))))
  {
    ParseDivideByZeroShape1(five);
    NoRewritesCons(Number(ten), [Slash] + ([OpenParen] + ([Number(five)] + ([Minus] + ([Number(five)] + ([CloseParen] + []))))));
    SignsSeparatedCons(Number(ten), [Slash] + ([OpenParen] + ([Number(five)] + ([Minus] + ([Number(five)] + ([CloseParen] + []))))));
  }

  lemma ParseDivideByZero(five: real, ten: real)
    ensures ParseTokens([Number(ten)] + ([Slash] + ([OpenParen] + ([Number(five)] + ([Minus] + ([Number(five)] + ([CloseParen] + []))))))) == Ok([Slash, Minus, Number(five), Number(five), Number(ten)])
  {
    var t := [Number(ten)] + ([Slash] + ([OpenParen] + ([Number(five)] + ([Minus] + ([Number(five)] + ([CloseParen] + []))))));
    ParseDivideByZeroShape0(ten, five);
    InsertParensPlain(t);
    BalanceSeparated(t);
    ParseDivideByZeroFrom0(ten, five);
    assert [Slash] + [Minus, Number(five), Number(five), Number(ten)] == [Slash, Minus, Number(five), Number(five), Number(ten)];
  }

  lemma ExecuteDivideByZeroFrom4(m: Maths)
    ensures ExecRun(m, [Slash], [10.0, 0.0]) == Err(DivisionByZero)
  {
    ExecLast(m, [], Slash, [10.0, 0.0]);
    assert ExecStep(m, Slash, [10.0, 0.0]) == Err(DivisionByZero);
    assert [] + [Slash] == [Slash];
  }

  lemma ExecuteDivideByZeroFrom3(m: Maths)
    ensures ExecRun(m, [Slash, Minus], [10.0, 5.0, 5.0]) == Err(DivisionByZero)
  {
    ExecuteDivideByZeroFrom4(m);
    assert [10.0, 5.0, 5.0][..1] + [0.0] == [10.0, 0.0];
    assert ExecStep(m, Minus, [10.0, 5.0, 5.0]) == Ok([10.0, 0.0]);
    ExecSnoc(m, [Slash], Minus, [10.0, 5.0, 5.0], [10.0, 0.0]);
    assert [Slash] + [Minus] == [Slash, Minus];
  }

  lemma ExecuteDivideByZeroFrom2(m: Maths)
    ensures ExecRun(m, [Slash, Minus, Number(5.0)], [10.0, 5.0]) == Err(DivisionByZero)
  {
    ExecuteDivideByZeroFrom3(m);
    assert [10.0, 5.0] + [5.0] == [10.0, 5.0, 5.0];
    assert ExecStep(m, Number(5.0), [10.0, 5.0]) == Ok([10.0, 5.0, 5.0]);
    ExecSnoc(m, [Slash, Minus], Number(5.0), [10.0, 5.0], [10.0, 5.0, 5.0]);
    assert [Slash, Minus] + [Number(5.0)] == [Slash, Minus, Number(5.0)];
  }

  lemma ExecuteDivideByZeroFrom1(m: Maths)
    ensures ExecRun(m, [Slash, Minus, Number(5.0), Number(5.0)], [10.0]) == Err(DivisionByZero)
  {
    ExecuteDivideByZeroFrom2(m);
    assert [10.0] + [5.0] == [10.0, 5.0];
    assert ExecStep(m, Number(5.0), [10.0]) == Ok([10.0, 5.0]);
    ExecSnoc(m, [Slash, Minus, Number(5.0)], Number(5.0), [10.0], [10.0, 5.0]);
    assert [Slash, Minus, Number(5.0)] + [Number(5.0)] == [Slash, Minus, Number(5.0), Number(5.0)];
  }

  lemma ExecuteDivideByZeroFrom0(m: Maths)
    ensures ExecRun(m, [Slash, Minus, Number(5.0), Number(5.0), Number(10.0)], []) == Err(DivisionByZero)
  {
    ExecuteDivideByZeroFrom1(m);
    assert [] + [10.0] == [10.0];
    assert ExecStep(m, Number(10.0), []) == Ok([10.0]);
    ExecSnoc(m, [Slash, Minus, Number(5.0), Number(5.0)], Number(10.0), [], [10.0]);
    assert [Slash, Minus, Number(5.0), Number(5.0)] + [Number(10.0)] == [Slash, Minus, Number(5.0), Number(5.0), Number(10.0)];
  }

  lemma ExecuteDivideByZero(m: Maths)
    ensures Evaluate(m, [Slash, Minus, Number(5.0), Number(5.0), Number(10.0)]) == Err(DivisionByZero)
  {
    ExecuteDivideByZeroFrom0(m);
  }

  /** `10 / (5 - 5)` is the `DivisionByZero` error. */
  lemma DivideByZero(m: Maths)
    requires m.literal("5") == 5.0 && m.literal("10") == 10.0
    ensures InterpretSpec(m, "10 / (5 - 5)") == Err(DivisionByZero)
  {
    LexDivideByZero(m);
    ParseDivideByZero(5.0, 10.0);
    ExecuteDivideByZero(m);
  }

  // ---------------------------------------------------------------------
  // "1/0": division by zero
  // ---------------------------------------------------------------------

  /** The characters of `1/0`. */
  predicate OneOverZeroText(s: string) {
    |s| == 3 && s[0] == '1' && s[1] == '/' && s[2] == '0'
  }

  lemma OneOverZeroTextChars()
    ensures OneOverZeroText("1/0")
  {
  }

  lemma LexOneOverZeroFrom3(m: Maths, s: string)
    requires OneOverZeroText(s)
    ensures LexFrom(m, s, 3) == Ok([])
  {
    assert Scan(m, s, 3) == Ok(None);
  }

  lemma LexOneOverZeroFrom2(m: Maths, s: string)
    requires OneOverZeroText(s)
    ensures LexFrom(m, s, 2) == Ok([Number(m.literal("0"))] + [])
  {
    LexOneOverZeroFrom3(m, s);
    ScanLiteral(m, s, 2, 3);
    assert s[2..3] == "0";
    ScanAfter(m, s, 2, 2, Number(m.literal("0")), 3);
  }

  lemma LexOneOverZeroFrom1(m: Maths, s: string)
    requires OneOverZeroText(s)
    ensures LexFrom(m, s, 1) == Ok([Slash] + ([Number(m.literal("0"))] + []))
  {
    LexOneOverZeroFrom2(m, s);
    ScanSymbol(m, s, 1);
    ScanAfter(m, s, 1, 1, Slash, 2);
  }

  lemma LexOneOverZeroFrom0(m: Maths, s: string)
    requires OneOverZeroText(s)
    ensures LexFrom(m, s, 0) == Ok([Number(m.literal("1"))] + ([Slash] + ([Number(m.literal("0"))] + [])))
  {
    LexOneOverZeroFrom1(m, s);
    ScanLiteral(m, s, 0, 1);
    assert s[0..1] == "1";
    ScanAfter(m, s, 0, 0, Number(m.literal("1")), 1);
  }

  lemma LexOneOverZero(m: Maths)
    ensures Tokenize(m, "1/0") == Ok([Number(m.literal("1"))] + ([Slash] + ([Number(m.literal("0"))] + [])))
  {
    OneOverZeroTextChars();
    LexOneOverZeroFrom0(m, "1/0");
  }

  lemma ParseOneOverZeroFrom2(zero: real, one: real)
    ensures Run([Number(zero)] + [], State([Slash], [Number(one)])) == Ok(State([Slash], [Number(zero), Number(one)]))
  {
    assert [Number(zero)] + [Number(one)] == [Number(zero), Number(one)];
    RunCons(Number(zero), [], State([Slash], [Number(one)]), State([Slash], [Number(zero), Number(one)]));
  }

  lemma ParseOneOverZeroFrom1(zero: real, one: real)
    ensures Run([Slash] + ([Number(zero)] + []), State([], [Number(one)])) == Ok(State([Slash], [Number(zero), Number(one)]))
  {
    ParseOneOverZeroFrom2(zero, one);
    OperatorPushed(Slash, [], [Number(one)]);
    assert [] + [Slash] == [Slash];
    RunCons(Slash, [Number(zero)] + [], State([], [Number(one)]), State([Slash], [Number(one)]));
  }

  lemma ParseOneOverZeroFrom0(one: real, zero: real)
    ensures Run([Number(one)] + ([Slash] + ([Number(zero)] + [])), State([], [])) == Ok(State([Slash], [Number(zero), Number(one)]))
  {
    ParseOneOverZeroFrom1(zero, one);
    assert [Number(one)] + [] == [Number(one)];
    RunCons(Number(one), [Slash] + ([Number(zero)] + []), State([], []), State([], [Number(one)]));
  }

  lemma ParseOneOverZeroShape1(zero: real)
    ensures NoRewrites([Slash] + ([Number(zero)] + [])) && SignsSeparated([Slash] + ([Number(zero)] + []))
  {
    ParseOnePlusOneShape2(zero);
    NoRewritesCons(Slash, [Number(zero)] + []);
    SignsSeparatedCons(Slash, [Number(zero)] + []);
  }

  lemma ParseOneOverZeroShape0(one: real, zero: real)
    ensures NoRewrites([Number(one)] + ([Slash] + ([Number(zero)] + []))) && SignsSeparated([Number(one)] + ([Slash] + ([Number(zero)] + [])))
  {
    ParseOneOverZeroShape1(zero);
    NoRewritesCons(Number(one), [Slash] + ([Number(zero)] + []));
    SignsSeparatedCons(Number(one), [Slash] + ([Number(zero)] + []));
  }

  lemma ParseOneOverZero(zero: real, one: real)
    ensures ParseTokens([Number(one)] + ([Slash] + ([Number(zero)] + []))) == Ok([Slash, Number(zero), Number(one)])
  {
    var t := [Number(one)] + ([Slash] + ([Number(zero)] + []));
    ParseOneOverZeroShape0(one, zero);
    InsertParensPlain(t);
    BalanceSeparated(t);
    ParseOneOverZeroFrom0(one, zero);
    assert [Slash] + [Number(zero), Number(one)] == [Slash, Number(zero), Number(one)];
  }

  lemma ExecuteOneOverZeroFrom2(m: Maths)
    ensures ExecRun(m, [Slash], [1.0, 0.0]) == Err(DivisionByZero)
  {
    ExecLast(m, [], Slash, [1.0, 0.0]);
    assert ExecStep(m, Slash, [1.0, 0.0]) == Err(DivisionByZero);
    assert [] + [Slash] == [Slash];
  }

  lemma ExecuteOneOverZeroFrom1(m: Maths)
    ensures ExecRun(m, [Slash, Number(0.0)], [1.0]) == Err(DivisionByZero)
  {
    ExecuteOneOverZeroFrom2(m);
    assert [1.0] + [0.0] == [1.0, 0.0];
    assert ExecStep(m, Number(0.0), [1.0]) == Ok([1.0, 0.0]);
    ExecSnoc(m, [Slash], Number(0.0), [1.0], [1.0, 0.0]);
    assert [Slash] + [Number(0.0)] == [Slash, Number(0.0)];
  }

  lemma ExecuteOneOverZeroFrom0(m: Maths)
    ensures ExecRun(m, [Slash, Number(0.0), Number(1.0)], []) == Err(DivisionByZero)
  {
    ExecuteOneOverZeroFrom1(m);
    assert [] + [1.0] == [1.0];
    assert ExecStep(m, Number(1.0), []) == Ok([1.0]);
    ExecSnoc(m, [Slash, Number(0.0)], Number(1.0), [], [1.0]);
    assert [Slash, Number(0.0)] + [Number(1.0)] == [Slash, Number(0.0), Number(1.0)];
  }

  lemma ExecuteOneOverZero(m: Maths)
    ensures Evaluate(m, [Slash, Number(0.0), Number(1.0)]) == Err(DivisionByZero)
  {
    ExecuteOneOverZeroFrom0(m);
  }

  /** `1/0` is the `DivisionByZero` error. */
  lemma OneOverZero(m: Maths)
    requires m.literal("0") == 0.0 && m.literal("1") == 1.0
    ensures InterpretSpec(m, "1/0") == Err(DivisionByZero)
  {
    LexOneOverZero(m);
    ParseOneOverZero(0.0, 1.0);
    ExecuteOneOverZero(m);
  }

  // ---------------------------------------------------------------------
  // "10*(10+1": an unclosed parenthesis
  // ---------------------------------------------------------------------

  /** The characters of `10*(10+1`. */
  predicate UnclosedParenthesisText(s: string) {
    |s| == 8 && s[0] == '1' && s[1] == '0' && s[2] == '*' && s[3] == '(' && s[4] == '1' && s[5] == '0' && s[6] == '+' && s[7] == '1'
  }

  lemma UnclosedParenthesisTextChars()
    ensures UnclosedParenthesisText("10*(10+1")
  {
  }

  lemma LexUnclosedParenthesisFrom8(m: Maths, s: string)
    requires UnclosedParenthesisText(s)
    ensures LexFrom(m, s, 8) == Ok([])
  {
    assert Scan(m, s, 8) == Ok(None);
  }

  lemma LexUnclosedParenthesisFrom7(m: Maths, s: string)
    requires UnclosedParenthesisText(s)
    ensures LexFrom(m, s, 7) == Ok([Number(m.literal("1"))] + [])
  {
    LexUnclosedParenthesisFrom8(m, s);
    ScanLiteral(m, s, 7, 8);
    assert s[7..8] == "1";
    ScanAfter(m, s, 7, 7, Number(m.literal("1")), 8);
  }

  lemma LexUnclosedParenthesisFrom6(m: Maths, s: string)
    requires UnclosedParenthesisText(s)
    ensures LexFrom(m, s, 6) == Ok([Plus] + ([Number(m.literal("1"))] + []))
  {
    LexUnclosedParenthesisFrom7(m, s);
    ScanSymbol(m, s, 6);
    ScanAfter(m, s, 6, 6, Plus, 7);
  }

  lemma LexUnclosedParenthesisFrom4(m: Maths, s: string)
    requires UnclosedParenthesisText(s)
    ensures LexFrom(m, s, 4) == Ok([Number(m.literal("10"))] + ([Plus] + ([Number(m.literal("1"))] + [])))
  {
    LexUnclosedParenthesisFrom6(m, s);
    ScanLiteral(m, s, 4, 6);
    assert s[4..6] == "10";
    ScanAfter(m, s, 4, 4, Number(m.literal("10")), 6);
  }

  lemma LexUnclosedParenthesisFrom3(m: Maths, s: string)
    requires UnclosedParenthesisText(s)
    ensures LexFrom(m, s, 3) == Ok([OpenParen] + ([Number(m.literal("10"))] + ([Plus] + ([Number(m.literal("1"))] + []))))
  {
    LexUnclosedParenthesisFrom4(m, s);
    ScanSymbol(m, s, 3);
    ScanAfter(m, s, 3, 3, OpenParen, 4);
  }

  lemma LexUnclosedParenthesisFrom2(m: Maths, s: string)
    requires UnclosedParenthesisText(s)
    ensures LexFrom(m, s, 2) == Ok([Asterix] + ([OpenParen] + ([Number(m.literal("10"))] + ([Plus] + ([Number(m.literal("1"))] + [])))))
  {
    LexUnclosedParenthesisFrom3(m, s);
    ScanSymbol(m, s, 2);
    ScanAfter(m, s, 2, 2, Asterix, 3);
  }

  lemma LexUnclosedParenthesisFrom0(m: Maths, s: string)
    requires UnclosedParenthesisText(s)
    ensures LexFrom(m, s, 0) == Ok([Number(m.literal("10"))] + ([Asterix] + ([OpenParen] + ([Number(m.literal("10"))] + ([Plus] + ([Number(m.literal("1"))] + []))))))
  {
    LexUnclosedParenthesisFrom2(m, s);
    ScanLiteral(m, s, 0, 2);
    assert s[0..2] == "10";
    ScanAfter(m, s, 0, 0, Number(m.literal("10")), 2);
  }

  lemma LexUnclosedParenthesis(m: Maths)
    ensures Tokenize(m, "10*(10+1") == Ok([Number(m.literal("10"))] + ([Asterix] + ([OpenParen] + ([Number(m.literal("10"))] + ([Plus] + ([Number(m.literal("1"))] + []))))))
  {
    UnclosedParenthesisTextChars();
    LexUnclosedParenthesisFrom0(m, "10*(10+1");
  }

  lemma ParseUnclosedParenthesisFrom5(one: real, ten: real)
    ensures Run([Number(one)] + [], State([Asterix, OpenParen, Plus], [Number(ten), Number(ten)])) == Ok(State([Asterix, OpenParen, Plus], [Number(one), Number(ten), Number(ten)]))
  {
    assert [Number(one)] + [Number(ten), Number(ten)] == [Number(one), Number(ten), Number(ten)];
    RunCons(Number(one), [], State([Asterix, OpenParen, Plus], [Number(ten), Number(ten)]), State([Asterix, OpenParen, Plus], [Number(one), Number(ten), Number(ten)]));
  }

  lemma ParseUnclosedParenthesisFrom4(one: real, ten: real)
    ensures Run([Plus] + ([Number(one)] + []), State([Asterix, OpenParen], [Number(ten), Number(ten)])) == Ok(State([Asterix, OpenParen, Plus], [Number(one), Number(ten), Number(ten)]))
  {
    ParseUnclosedParenthesisFrom5(one, ten);
    OperatorPushed(Plus, [Asterix, OpenParen], [Number(ten), Number(ten)]);
    assert [Asterix, OpenParen] + [Plus] == [Asterix, OpenParen, Plus];
    RunCons(Plus, [Number(one)] + [], State([Asterix, OpenParen], [Number(ten), Number(ten)]), State([Asterix, OpenParen, Plus], [Number(ten), Number(ten)]));
  }

  lemma ParseUnclosedParenthesisFrom3(ten: real, one: real)
    ensures Run([Number(ten)] + ([Plus] + ([Number(one)] + [])), State([Asterix, OpenParen], [Number(ten)])) == Ok(State([Asterix, OpenParen, Plus], [Number(one), Number(ten), Number(ten)]))
  {
    ParseUnclosedParenthesisFrom4(one, ten);
    assert [Number(ten)] + [Number(ten)] == [Number(ten), Number(ten)];
    RunCons(Number(ten), [Plus] + ([Number(one)] + []), State([Asterix, OpenParen], [Number(ten)]), State([Asterix, OpenParen], [Number(ten), Number(ten)]));
  }

  lemma ParseUnclosedParenthesisFrom2(ten: real, one: real)
    ensures Run([OpenParen] + ([Number(ten)] + ([Plus] + ([Number(one)] + []))), State([Asterix], [Number(ten)])) == Ok(State([Asterix, OpenParen, Plus], [Number(one), Number(ten), Number(ten)]))
  {
    ParseUnclosedParenthesisFrom3(ten, one);
    assert [Asterix] + [OpenParen] == [Asterix, OpenParen];
    RunCons(OpenParen, [Number(ten)] + ([Plus] + ([Number(one)] + [])), State([Asterix], [Number(ten)]), State([Asterix, OpenParen], [Number(ten)]));
  }

  lemma ParseUnclosedParenthesisFrom1(ten: real, one: real)
    ensures Run([Asterix] + ([OpenParen] + ([Number(ten)] + ([Plus] + ([Number(one)] + [])))), State([], [Number(ten)])) == Ok(State([Asterix, OpenParen, Plus], [Number(one), Number(ten), Number(ten)]))
  {
    ParseUnclosedParenthesisFrom2(ten, one);
    OperatorPushed(Asterix, [], [Number(ten)]);
    assert [] + [Asterix] == [Asterix];
    RunCons(Asterix, [OpenParen] + ([Number(ten)] + ([Plus] + ([Number(one)] + []))), State([], [Number(ten)]), State([Asterix], [Number(ten)]));
  }

  lemma ParseUnclosedParenthesisFrom0(ten: real, one: real)
    ensures Run([Number(ten)] + ([Asterix] + ([OpenParen] + ([Number(ten)] + ([Plus] + ([Number(one)] + []))))), State([], [])) == Ok(State([Asterix, OpenParen, Plus], [Number(one), Number(ten), Number(ten)]))
  {
    ParseUnclosedParenthesisFrom1(ten, one);
    assert [Number(ten)] + [] == [Number(ten)];
    RunCons(Number(ten), [Asterix] + ([OpenParen] + ([Number(ten)] + ([Plus] + ([Number(one)] + [])))), State([], []), State([], [Number(ten)]));
  }

  lemma ParseUnclosedParenthesisShape3(ten: real, one: real)
    ensures NoRewrites([Number(ten)] + ([Plus] + ([Number(one)] + []))) && SignsSeparated([Number(ten)] + ([Plus] + ([Number(one)] + [])))
  {
    ParseOnePlusOneShape1(one);
    NoRewritesCons(Number(ten), [Plus] + ([Number(one)] + []));
    SignsSeparatedCons(Number(ten), [Plus] + ([Number(one)] + []));
  }

  lemma ParseUnclosedParenthesisShape2(ten: real, one: real)
    ensures NoRewrites([OpenParen] + ([Number(ten)] + ([Plus] + ([Number(one)] + [])))) && SignsSeparated([OpenParen] + ([Number(ten)] + ([Plus] + ([Number(one)] + []))))
  {
    ParseUnclosedParenthesisShape3(ten, one);
    NoRewritesCons(OpenParen, [Number(ten)] + ([Plus] + ([Number(one)] + [])));
    SignsSeparatedCons(OpenParen, [Number(ten)] + ([Plus] + ([Number(one)] + [])));
  }

  lemma ParseUnclosedParenthesisShape1(ten: real, one: real)
    ensures NoRewrites([Asterix] + ([OpenParen] + ([Number(ten)] + ([Plus] + ([Number(one)] + []))))) && SignsSeparated([Asterix] + ([OpenParen] + ([Number(ten)] + ([Plus] + ([Number(one)] + [])))))
  {
    ParseUnclosedParenthesisShape2(ten, one);
    NoRewritesCons(Asterix, [OpenParen] + ([Number(ten)] + ([Plus] + ([Number(one)] + []))));
    SignsSeparatedCons(Asterix, [OpenParen] + ([Number(ten)] + ([Plus] + ([Number(one)] + []))));
  }

  lemma ParseUnclosedParenthesisShape0(ten: real, one: real)
    ensures NoRewrites([Number(ten)] + ([Asterix] + ([OpenParen] + ([Number(ten)] + ([Plus] + ([Number(one)] + [])))))) && SignsSeparated([Number(ten)] + ([Asterix] + ([OpenParen] + ([Number(ten)] + ([Plus] + ([Number(one)] + []))))))
  {
    ParseUnclosedParenthesisShape1(ten, one);
    NoRewritesCons(Number(ten), [Asterix] + ([OpenParen] + ([Number(ten)] + ([Plus] + ([Number(one)] + [])))));
    SignsSeparatedCons(Number(ten), [Asterix] + ([OpenParen] + ([Number(ten)] + ([Plus] + ([Number(one)] + [])))));
  }

  lemma ParseUnclosedParenthesis(one: real, ten: real)
    ensures ParseTokens([Number(ten)] + ([Asterix] + ([OpenParen] + ([Number(ten)] + ([Plus] + ([Number(one)] + [])))))) == Ok([Asterix, OpenParen, Plus, Number(one), Number(ten), Number(ten)])
  {
    var t := [Number(ten)] + ([Asterix] + ([OpenParen] + ([Number(ten)] + ([Plus] + ([Number(one)] + [])))));
    ParseUnclosedParenthesisShape0(ten, one);
    InsertParensPlain(t);
    BalanceSeparated(t);
    ParseUnclosedParenthesisFrom0(ten, one);
    assert [Asterix, OpenParen, Plus] + [Number(one), Number(ten), Number(ten)] == [Asterix, OpenParen, Plus, Number(one), Number(ten), Number(ten)];
  }

  lemma ExecuteUnclosedParenthesisFrom4(m: Maths)
    ensures ExecRun(m, [Asterix, OpenParen], [10.0, 11.0]) == Panic(Unreachable)
  {
    ExecLast(m, [Asterix], OpenParen, [10.0, 11.0]);
    assert ExecStep(m, OpenParen, [10.0, 11.0]) == Panic(Unreachable);
    assert [Asterix] + [OpenParen] == [Asterix, OpenParen];
  }

  lemma ExecuteUnclosedParenthesisFrom3(m: Maths)
    ensures ExecRun(m, [Asterix, OpenParen, Plus], [10.0, 10.0, 1.0]) == Panic(Unreachable)
  {
    ExecuteUnclosedParenthesisFrom4(m);
    assert [10.0, 10.0, 1.0][..1] + [11.0] == [10.0, 11.0];
    assert ExecStep(m, Plus, [10.0, 10.0, 1.0]) == Ok([10.0, 11.0]);
    ExecSnoc(m, [Asterix, OpenParen], Plus, [10.0, 10.0, 1.0], [10.0, 11.0]);
    assert [Asterix, OpenParen] + [Plus] == [Asterix, OpenParen, Plus];
  }

  lemma ExecuteUnclosedParenthesisFrom2(m: Maths)
    ensures ExecRun(m, [Asterix, OpenParen, Plus, Number(1.0)], [10.0, 10.0]) == Panic(Unreachable)
  {
    ExecuteUnclosedParenthesisFrom3(m);
    assert [10.0, 10.0] + [1.0] == [10.0, 10.0, 1.0];
    assert ExecStep(m, Number(1.0), [10.0, 10.0]) == Ok([10.0, 10.0, 1.0]);
    ExecSnoc(m, [Asterix, OpenParen, Plus], Number(1.0), [10.0, 10.0], [10.0, 10.0, 1.0]);
    assert [Asterix, OpenParen, Plus] + [Number(1.0)] == [Asterix, OpenParen, Plus, Number(1.0)];
  }

  lemma ExecuteUnclosedParenthesisFrom1(m: Maths)
    ensures ExecRun(m, [Asterix, OpenParen, Plus, Number(1.0), Number(10.0)], [10.0]) == Panic(Unreachable)
  {
    ExecuteUnclosedParenthesisFrom2(m);
    assert [10.0] + [10.0] == [10.0, 10.0];
    assert ExecStep(m, Number(10.0), [10.0]) == Ok([10.0, 10.0]);
    ExecSnoc(m, [Asterix, OpenParen, Plus, Number(1.0)], Number(10.0), [10.0], [10.0, 10.0]);
    assert [Asterix, OpenParen, Plus, Number(1.0)] + [Number(10.0)] == [Asterix, OpenParen, Plus, Number(1.0), Number(10.0)];
  }

  lemma ExecuteUnclosedParenthesisFrom0(m: Maths)
    ensures ExecRun(m, [Asterix, OpenParen, Plus, Number(1.0), Number(10.0), Number(10.0)], []) == Panic(Unreachable)
  {
    ExecuteUnclosedParenthesisFrom1(m);
    assert [] + [10.0] == [10.0];
    assert ExecStep(m, Number(10.0), []) == Ok([10.0]);
    ExecSnoc(m, [Asterix, OpenParen, Plus, Number(1.0), Number(10.0)], Number(10.0), [], [10.0]);
    assert [Asterix, OpenParen, Plus, Number(1.0), Number(10.0)] + [Number(10.0)] == [Asterix, OpenParen, Plus, Number(1.0), Number(10.0), Number(10.0)];
  }

  lemma ExecuteUnclosedParenthesis(m: Maths)
    ensures Evaluate(m, [Asterix, OpenParen, Plus, Number(1.0), Number(10.0), Number(10.0)]) == Panic(Unreachable)
  {
    ExecuteUnclosedParenthesisFrom0(m);
  }

  /** `10*(10+1` panics: the `(` stays in the output queue and reaches the `unreachable!` arm of `execute`. */
  lemma UnclosedParenthesis(m: Maths)
    requires m.literal("1") == 1.0 && m.literal("10") == 10.0
    ensures InterpretSpec(m, "10*(10+1") == Panic(Unreachable)
  {
    LexUnclosedParenthesis(m);
    ParseUnclosedParenthesis(1.0, 10.0);
    ExecuteUnclosedParenthesis(m);
  }

  // ---------------------------------------------------------------------
  // "1)": an unopened parenthesis
  // ---------------------------------------------------------------------

  /** The characters of `1)`. */
  predicate UnopenedParenthesisText(s: string) {
    |s| == 2 && s[0] == '1' && s[1] == ')'
  }

  lemma UnopenedParenthesisTextChars()
    ensures UnopenedParenthesisText("1)")
  {
  }

  lemma LexUnopenedParenthesisFrom2(m: Maths, s: string)
    requires UnopenedParenthesisText(s)
    ensures LexFrom(m, s, 2) == Ok([])
  {
    assert Scan(m, s, 2) == Ok(None);
  }

  lemma LexUnopenedParenthesisFrom1(m: Maths, s: string)
    requires UnopenedParenthesisText(s)
    ensures LexFrom(m, s, 1) == Ok([CloseParen] + [])
  {
    LexUnopenedParenthesisFrom2(m, s);
    ScanSymbol(m, s, 1);
    ScanAfter(m, s, 1, 1, CloseParen, 2);
  }

  lemma LexUnopenedParenthesisFrom0(m: Maths, s: string)
    requires UnopenedParenthesisText(s)
    ensures LexFrom(m, s, 0) == Ok([Number(m.literal("1"))] + ([CloseParen] + []))
  {
    LexUnopenedParenthesisFrom1(m, s);
    ScanLiteral(m, s, 0, 1);
    assert s[0..1] == "1";
    ScanAfter(m, s, 0, 0, Number(m.literal("1")), 1);
  }

  lemma LexUnopenedParenthesis(m: Maths)
    ensures Tokenize(m, "1)") == Ok([Number(m.literal("1"))] + ([CloseParen] + []))
  {
    UnopenedParenthesisTextChars();
    LexUnopenedParenthesisFrom0(m, "1)");
  }

  lemma ParseUnopenedParenthesisFrom1(one: real)
    ensures Run([CloseParen] + [], State([], [Number(one)])) == Panic(EmptyOperatorStack)
  {
    CloseStepForm([], [Number(one)]);
    RunConsFails(CloseParen, [], State([], [Number(one)]));
  }

  lemma ParseUnopenedParenthesisFrom0(one: real)
    ensures Run([Number(one)] + ([CloseParen] + []), State([], [])) == Panic(EmptyOperatorStack)
  {
    ParseUnopenedParenthesisFrom1(one);
    assert [Number(one)] + [] == [Number(one)];
    RunCons(Number(one), [CloseParen] + [], State([], []), State([], [Number(one)]));
  }

  lemma ParseUnopenedParenthesis(one: real)
    ensures ParseTokens([Number(one)] + ([CloseParen] + [])) == Panic(EmptyOperatorStack)
  {
    var t := [Number(one)] + ([CloseParen] + []);
    ParseTenTimesElevenShape5(one);
    InsertParensPlain(t);
    BalanceSeparated(t);
    ParseUnopenedParenthesisFrom0(one);
  }

  /** `1)` panics: the `)` reads the top of the empty operator stack. */
  lemma UnopenedParenthesis(m: Maths)
    requires m.literal("1") == 1.0
    ensures InterpretSpec(m, "1)") == Panic(EmptyOperatorStack)
  {
    LexUnopenedParenthesis(m);
    ParseUnopenedParenthesis(1.0);
  }

  // ---------------------------------------------------------------------
  // "+ 1": a sign with no left operand
  // ---------------------------------------------------------------------

  /** The characters of `+ 1`. */
  predicate LeadingSignText(s: string) {
    |s| == 3 && s[0] == '+' && s[1] == ' ' && s[2] == '1'
  }

  lemma LeadingSignTextChars()
    ensures LeadingSignText("+ 1")
  {
  }

  lemma LexLeadingSignFrom3(m: Maths, s: string)
    requires LeadingSignText(s)
    ensures LexFrom(m, s, 3) == Ok([])
  {
    assert Scan(m, s, 3) == Ok(None);
  }

  lemma LexLeadingSignFrom1(m: Maths, s: string)
    requires LeadingSignText(s)
    ensures LexFrom(m, s, 1) == Ok([Number(m.literal("1"))] + [])
  {
    LexLeadingSignFrom3(m, s);
    ScanLiteral(m, s, 2, 3);
    assert s[2..3] == "1";
    ScanAfter(m, s, 1, 2, Number(m.literal("1")), 3);
  }

  lemma LexLeadingSignFrom0(m: Maths, s: string)
    requires LeadingSignText(s)
    ensures LexFrom(m, s, 0) == Ok([Plus] + ([Number(m.literal("1"))] + []))
  {
    LexLeadingSignFrom1(m, s);
    ScanSymbol(m, s, 0);
    ScanAfter(m, s, 0, 0, Plus, 1);
  }

  lemma LexLeadingSign(m: Maths)
    ensures Tokenize(m, "+ 1") == Ok([Plus] + ([Number(m.literal("1"))] + []))
  {
    LeadingSignTextChars();
    LexLeadingSignFrom0(m, "+ 1");
  }

  lemma ParseLeadingSign(one: real)
    ensures ParseTokens([Plus] + ([Number(one)] + [])) == Ok([Plus, Number(one)])
  {
    var t := [Plus] + ([Number(one)] + []);
    ParseOnePlusOneShape1(one);
    InsertParensPlain(t);
    BalanceSeparated(t);
    ParseLetterSwallowsSpaceFrom1(one);
    assert [Plus] + [Number(one)] == [Plus, Number(one)];
  }

  /** `+ 1` is the `MissingExpression` error: `+` finds one value on the stack. */
  lemma LeadingSign(m: Maths)
    requires m.literal("1") == 1.0
    ensures InterpretSpec(m, "+ 1") == Err(MissingExpression)
  {
    LexLeadingSign(m);
    ParseLeadingSign(1.0);
    ExecuteLetterSwallowsSpace(m);
  }

  // ---------------------------------------------------------------------
  // "1 +": a sign with no right operand
  // ---------------------------------------------------------------------

  /** The characters of `1 +`. */
  predicate TrailingSignText(s: string) {
    |s| == 3 && s[0] == '1' && s[1] == ' ' && s[2] == '+'
  }

  lemma TrailingSignTextChars()
    ensures TrailingSignText("1 +")
  {
  }

  lemma LexTrailingSignFrom3(m: Maths, s: string)
    requires TrailingSignText(s)
    ensures LexFrom(m, s, 3) == Ok([])
  {
    assert Scan(m, s, 3) == Ok(None);
  }

  lemma LexTrailingSignFrom1(m: Maths, s: string)
    requires TrailingSignText(s)
    ensures LexFrom(m, s, 1) == Ok([Plus] + [])
  {
    LexTrailingSignFrom3(m, s);
    ScanSymbol(m, s, 2);
    ScanAfter(m, s, 1, 2, Plus, 3);
  }

  lemma LexTrailingSignFrom0(m: Maths, s: string)
    requires TrailingSignText(s)
    ensures LexFrom(m, s, 0) == Ok([Number(m.literal("1"))] + ([Plus] + []))
  {
    LexTrailingSignFrom1(m, s);
    ScanLiteral(m, s, 0, 1);
    assert s[0..1] == "1";
    ScanAfter(m, s, 0, 0, Number(m.literal("1")), 1);
  }

  lemma LexTrailingSign(m: Maths)
    ensures Tokenize(m, "1 +") == Ok([Number(m.literal("1"))] + ([Plus] + []))
  {
    TrailingSignTextChars();
    LexTrailingSignFrom0(m, "1 +");
  }

  /** `balance_operators` rejects a sign in last position before the conversion starts. */
  lemma ParseTrailingSign(x: real)
    ensures ParseTokens([Number(x)] + ([Plus] + [])) == Err(MissingExpression)
  {
    var t := [Number(x)] + ([Plus] + []);
    NoRewritesCons(Plus, []);
    NoRewritesCons(Number(x), [Plus] + []);
    InsertParensPlain(t);
    BalanceCharacterised(t);
    assert |t| == 2 && !IsSign(t[0]) && IsSign(t[1]);
    assert !exists j :: RejectsAt(t, j);
  }

  /** `1 +` is the `MissingExpression` error of `balance_operators`. */
  lemma TrailingSign(m: Maths)
    ensures InterpretSpec(m, "1 +") == Err(MissingExpression)
  {
    LexTrailingSign(m);
    ParseTrailingSign(m.literal("1"));
  }

  // ---------------------------------------------------------------------
  // "1.2.3": a literal with two dots
  // ---------------------------------------------------------------------

  /** The characters of `1.2.3`. */
  predicate TwoDotsText(s: string) {
    |s| == 5 && s[0] == '1' && s[1] == '.' && s[2] == '2' && s[3] == '.' && s[4] == '3'
  }

  lemma TwoDotsTextChars()
    ensures TwoDotsText("1.2.3")
  {
  }

  lemma LexTwoDots(m: Maths, s: string)
    requires TwoDotsText(s)
    ensures Tokenize(m, s) == Panic(LiteralParse)
  {
    RunEndUnique(s, 1, NumberStop, 5);
    assert s[0..5] == s;
    assert s[4..][1..] == [] && DotCount(s[4..]) == 0;
    assert s[3..][1..] == s[4..] && DotCount(s[3..]) == 1;
    assert s[2..][1..] == s[3..] && DotCount(s[2..]) == 1;
    assert s[1..][1..] == s[2..] && DotCount(s[1..]) == 2;
    assert s[1..] == s[0..][1..];
    BadLiteralPanics(m, s, 0, 0);
  }

  /** `1.2.3` panics: `str::parse` rejects the literal and the `unwrap` fails. */
  lemma TwoDots(m: Maths)
    ensures InterpretSpec(m, "1.2.3") == Panic(LiteralParse)
  {
    TwoDotsTextChars();
    LexTwoDots(m, "1.2.3");
  }
}
