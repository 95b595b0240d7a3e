/**
 * What the tokeniser does with each kind of character at the cursor, and
 * facts about whole token streams.
 */
module LexerProperties {
  import opened Tokens
  import opened Errors
  import opened Numerics
  import opened Lexing

  /**
   * A letter starts a word token. A word of two or more letters is the
   * maximal run of letters and the character after it stays unread; a
   * one-letter word also consumes (and drops) the character after it.
   */
  lemma ScanWord(m: Maths, s: string, i: nat)
    requires i < |s| && IsAlpha(s[i])
    ensures var e := RunEnd(s, i + 1, WordStop);
      var w := if e > i + 1 then s[i..e] else [s[i]];
      var k := if e > i + 1 then e else if i + 1 < |s| then i + 2 else i + 1;
      Scan(m, s, i) == Ok(Some((WordKind(LowerWord(w)), k)))
  {
    var e := RunEnd(s, i + 1, WordStop);
    if e > i + 1 {
      assert [s[i]] + s[i + 1..e] == s[i..e];
    }
  }

  /**
   * A digit starts a number token made of the maximal run of digits and
   * dots; the character that ends the run stays unread. A run with two or
   * more dots is a literal `str::parse` rejects, and the `unwrap` panics.
   */
  lemma ScanNumber(m: Maths, s: string, i: nat)
    requires i < |s| && IsDigit(s[i])
    ensures var e := RunEnd(s, i + 1, NumberStop);
      Scan(m, s, i) == if ValidLiteral(s[i..e]) then Ok(Some((Number(m.literal(s[i..e])), e))) else Panic(LiteralParse)
  {
    var e := RunEnd(s, i + 1, NumberStop);
    if e == i + 1 {
      assert s[i..e] == [s[i]];
      assert DotCount([s[i]]) == 0;
    } else {
      assert [s[i]] + s[i + 1..e] == s[i..e];
    }
  }

  /** Each of `* - + / ^ ( )` is one token of its own fixed kind. */
  lemma ScanSymbol(m: Maths, s: string, i: nat)
    requires i < |s| && SymbolKind(s[i]).Some?
    ensures Scan(m, s, i) == Ok(Some((SymbolKind(s[i]).value, i + 1)))
  {
  }

  /** The symbol table: seven characters, seven distinct kinds. */
  lemma SymbolTable(a: char, b: char)
    ensures SymbolKind(a).Some? <==> a in "*-+/^()"
    ensures SymbolKind(a).Some? && SymbolKind(a) == SymbolKind(b) ==> a == b
    ensures SymbolKind(a).Some? ==> IsOperator(SymbolKind(a).value) || IsOpenParen(SymbolKind(a).value) || IsCloseParen(SymbolKind(a).value)
  {
  }

  /**
   * Any other character that is not a space, digit or letter ends the token
   * stream: it is not skipped, and the rest of the input is never read.
   */
  lemma UnknownEndsLexing(m: Maths, s: string, i: nat)
    requires i < |s| && s[i] != ' ' && !IsDigit(s[i]) && !IsAlpha(s[i]) && SymbolKind(s[i]).None?
    ensures LexFrom(m, s, i) == Ok([])
  {
  }

  /** A space at the cursor produces no token: lexing goes on as from the next character. */
  lemma SpaceSkipped(m: Maths, s: string, i: nat)
    requires i < |s| && s[i] == ' '
    ensures Scan(m, s, i) == Scan(m, s, i + 1)
    ensures LexFrom(m, s, i) == LexFrom(m, s, i + 1)
  {
    assert SkipRun(s, i, ' ') == SkipRun(s, i + 1, ' ');
  }

  /** A token scanned at the cursor is the head of the token stream from there. */
  lemma LexStep(m: Maths, s: string, i: nat, t: TokenKind, k: nat)
    requires i <= |s| && Scan(m, s, i) == Ok(Some((t, k)))
    ensures LexFrom(m, s, i) == Prefixed([t], LexFrom(m, s, k))
  {
  }

  /** A run of spaces produces no token: lexing goes on as from its end. */
  lemma {:induction false} SpacesSkipped(m: Maths, s: string, i: nat, j: nat)
    requires i <= j <= |s| && forall x :: i <= x < j ==> s[x] == ' '
    ensures LexFrom(m, s, i) == LexFrom(m, s, j)
    decreases j - i
  {
    if i < j {
      SpaceSkipped(m, s, i);
      SpacesSkipped(m, s, i + 1, j);
    }
  }

  /** Input made of spaces only has no tokens. */
  lemma {:induction false} SpacesOnly(m: Maths, s: string, i: nat)
    requires i <= |s|
    requires forall k :: i <= k < |s| ==> s[k] == ' '
    ensures LexFrom(m, s, i) == Ok([])
    decreases |s| - i
  {
    if i < |s| {
      SpaceSkipped(m, s, i);
      SpacesOnly(m, s, i + 1);
    }
  }

  /** The tokeniser never returns an error; its only failure is the literal panic. */
  lemma {:induction false} LexNeverErrs(m: Maths, s: string, i: nat)
    requires i <= |s|
    ensures !LexFrom(m, s, i).Err?
    ensures LexFrom(m, s, i).Panic? ==> LexFrom(m, s, i).site == LiteralParse
    decreases |s| - i
  {
    match Scan(m, s, i)
    case Ok(None) =>
    case Ok(Some((t, k))) => LexNeverErrs(m, s, k);
    case Panic(p) =>
  }

  /** Every identifier token carries a word of lower-case letters that is not a keyword. */
  lemma {:induction false} IdentifiersAreLowerCase(m: Maths, s: string, i: nat)
    requires i <= |s|
    requires LexFrom(m, s, i).Ok?
    ensures forall t :: t in LexFrom(m, s, i).value && t.Identifier? ==>
      |t.name| >= 1 && (forall c :: c in t.name ==> 'a' <= c <= 'z') && t.name !in ["sin", "cos", "tan", "pi", "log"]
    decreases |s| - i
  {
    match Scan(m, s, i)
    case Ok(None) =>
    case Ok(Some((t, k))) =>
      IdentifiersAreLowerCase(m, s, k);
      if t.Identifier? {
        ScannedIdentifier(m, s, i, t, k);
      }
      assert LexFrom(m, s, i).value == [t] + LexFrom(m, s, k).value;
  }

  /** An identifier the scanner returns is a lower-case word that is not a keyword. */
  lemma ScannedIdentifier(m: Maths, s: string, i: nat, t: TokenKind, k: nat)
    requires i <= |s| && Scan(m, s, i) == Ok(Some((t, k))) && t.Identifier?
    ensures |t.name| >= 1 && (forall c :: c in t.name ==> 'a' <= c <= 'z') && t.name !in ["sin", "cos", "tan", "pi", "log"]
  {
    var j := SkipRun(s, i, ' ');
    assert IsAlpha(s[j]);
    WordLetters(s, j + 1, s[j]);
  }

  /** A word that `Collect` returns for a letter is made of letters only. */
  lemma WordLetters(s: string, i: nat, first: char)
    requires i <= |s| && IsAlpha(first)
    ensures forall c :: c in Collect(s, i, first, WordStop).0 ==> IsAlpha(c)
    ensures forall c :: c in LowerWord(Collect(s, i, first, WordStop).0) ==> 'a' <= c <= 'z'
  {
    var w := Collect(s, i, first, WordStop).0;
    forall c | c in w ensures IsAlpha(c) {
      var n :| 0 <= n < |w| && w[n] == c;
      if n > 0 {
        assert c == s[i + n - 1];
      }
    }
    var lw := LowerWord(w);
    forall c | c in lw ensures 'a' <= c <= 'z' {
      var n :| 0 <= n < |lw| && lw[n] == c;
      assert w[n] in w && c == Lower(w[n]);
    }
  }

  /**
   * `w` spells the lower-case word `k` in some letter case: each character
   * is the letter of `k` or its upper-case form.
   */
  predicate CaseVariant(w: string, k: string) {
    |w| == |k| && forall n :: 0 <= n < |w| ==> w[n] == k[n] || w[n] as int == k[n] as int - 32
  }

  /** Lower-casing gives the lower-case word `k` exactly for the spellings of `k`. */
  lemma LowerWordSpells(w: string, k: string)
    requires forall n :: 0 <= n < |k| ==> 'a' <= k[n] <= 'z'
    ensures LowerWord(w) == k <==> CaseVariant(w, k)
  {
    if |w| == |k| {
      if LowerWord(w) == k {
        forall n | 0 <= n < |w| ensures w[n] == k[n] || w[n] as int == k[n] as int - 32 {
          assert Lower(w[n]) == k[n];
        }
      }
      if CaseVariant(w, k) {
        forall n | 0 <= n < |w| ensures LowerWord(w)[n] == k[n] {
          assert w[n] == k[n] || w[n] as int == k[n] as int - 32;
        }
      }
    }
  }

  /**
   * Keywords are recognised in any letter case, and exactly then; every
   * other word is the identifier of its lower-case form.
   */
  lemma KeywordsAnyCase(w: string)
    ensures WordKind(LowerWord(w)) == Sin <==> CaseVariant(w, "sin")
    ensures WordKind(LowerWord(w)) == Cos <==> CaseVariant(w, "cos")
    ensures WordKind(LowerWord(w)) == Tan <==> CaseVariant(w, "tan")
    ensures WordKind(LowerWord(w)) == Pi <==> CaseVariant(w, "pi")
    ensures WordKind(LowerWord(w)) == Log <==> CaseVariant(w, "log")
    ensures WordKind(LowerWord(w)) == Identifier(LowerWord(w)) <==>
      !CaseVariant(w, "sin") && !CaseVariant(w, "cos") && !CaseVariant(w, "tan") && !CaseVariant(w, "pi") && !CaseVariant(w, "log")
  {
    LowerWordSpells(w, "sin");
    LowerWordSpells(w, "cos");
    LowerWordSpells(w, "tan");
    LowerWordSpells(w, "pi");
    LowerWordSpells(w, "log");
  }

  /**
   * A number literal with two or more dots, reached after spaces, ends
   * lexing with the `unwrap` panic of `str::parse`.
   */
  lemma BadLiteralPanics(m: Maths, s: string, i: nat, j: nat)
    requires i <= j < |s| && (forall x :: i <= x < j ==> s[x] == ' ') && IsDigit(s[j])
    requires !ValidLiteral(s[j..RunEnd(s, j + 1, NumberStop)])
    ensures LexFrom(m, s, i) == Panic(LiteralParse)
  {
    SpacesSkipped(m, s, i, j);
    ScanNumber(m, s, j);
  }
}
