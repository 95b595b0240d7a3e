/**
 * The tokeniser (src/ast/lexer.rs). The pure part is a family of scanning
 * functions over a character cursor; `Lexer` is the source's scanner
 * object, whose two counters are advanced by `NextChar` and set and reset
 * by `Lex`. The source reads characters from a peekable iterator; here the
 * iterator is the index `it` of the next unread character of `input`.
 * Characters are classified by their ASCII rules.
 */
module Lexing {
  import opened Tokens
  import opened Errors
  import opened Numerics

  predicate IsDigit(c: char) {
    '0' <= c <= '9'
  }

  predicate IsAlpha(c: char) {
    'a' <= c <= 'z' || 'A' <= c <= 'Z'
  }

  function Lower(c: char): char {
    if 'A' <= c <= 'Z' then (c as int + 32) as char else c
  }

  function LowerWord(w: string): string {
    seq(|w|, i requires 0 <= i < |w| => Lower(w[i]))
  }

  /** Stop test for a number literal: neither a digit nor a dot. */
  predicate NumberStop(c: char) {
    c != '.' && !IsDigit(c)
  }

  /** Stop test for a word: not a letter. */
  predicate WordStop(c: char) {
    !IsAlpha(c)
  }

  /** Token kind of a lowercased word: a keyword, or else an identifier. */
  function WordKind(lower: string): TokenKind {
    if lower == "sin" then Sin
    else if lower == "cos" then Cos
    else if lower == "tan" then Tan
    else if lower == "pi" then Pi
    else if lower == "log" then Log
    else Identifier(lower)
  }

  /** Token kind of a one-character operator or parenthesis. */
  function SymbolKind(c: char): Option<TokenKind> {
    match c
    case '*' => Some(Asterix)
    case '-' => Some(Minus)
    case '+' => Some(Plus)
    case '/' => Some(Slash)
    case '^' => Some(Power)
    case '(' => Some(OpenParen)
    case ')' => Some(CloseParen)
    case _ => None
  }

  // ---------------------------------------------------------------------
  // Scanning, as functions of the input and a cursor
  // ---------------------------------------------------------------------

  /** First index at or after `i` that does not hold `target`. */
  function SkipRun(s: string, i: nat, target: char): (j: nat)
    requires i <= |s|
    ensures i <= j <= |s|
    ensures forall k :: i <= k < j ==> s[k] == target
    ensures j == |s| || s[j] != target
    decreases |s| - i
  {
    if i < |s| && s[i] == target then SkipRun(s, i + 1, target) else i
  }

  /** First index at or after `i` whose character satisfies `stop`. */
  function RunEnd(s: string, i: nat, stop: char -> bool): (j: nat)
    requires i <= |s|
    ensures i <= j <= |s|
    ensures forall k :: i <= k < j ==> !stop(s[k])
    ensures j == |s| || stop(s[j])
    decreases |s| - i
  {
    if i < |s| && !stop(s[i]) then RunEnd(s, i + 1, stop) else i
  }

  /**
   * What `collect_until` returns when `first` was just read and the cursor
   * is at `i`: the word and the new cursor. The character at `i` is read
   * before it is tested, so a stop character there is consumed and dropped;
   * after that, stop characters are only peeked at and stay unread.
   */
  function Collect(s: string, i: nat, first: char, stop: char -> bool): (r: (string, nat))
    requires i <= |s|
    ensures i <= r.1 <= |s| && |r.0| >= 1 && r.0[0] == first
  {
    if i == |s| then ([first], i)
    else if stop(s[i]) then ([first], i + 1)
    else var j := RunEnd(s, i, stop); ([first] + s[i..j], j)
  }

  /**
   * One call of `next_token` with the cursor at `i`: `Ok(None)` ends the
   * token stream, `Ok(Some((t, k)))` emits `t` and moves the cursor to `k`,
   * `Panic` is the `unwrap` of a malformed literal.
   */
  function Scan(m: Maths, s: string, i: nat): (r: Outcome<Option<(TokenKind, nat)>>)
    requires i <= |s|
    ensures !r.Err?
    ensures r.Ok? && r.value.Some? ==> i < r.value.value.1 <= |s|
  {
    if i >= |s| then Ok(None)
    else
      var j := SkipRun(s, i, ' ');
      if j == |s| then Ok(None)
      else
        var c := s[j];
        if IsDigit(c) then
          if j + 1 < |s| && NumberStop(s[j + 1]) then Ok(Some((Number(m.literal([c])), j + 1)))
          else
            var (w, k) := Collect(s, j + 1, c, NumberStop);
            if ValidLiteral(w) then Ok(Some((Number(m.literal(w)), k))) else Panic(LiteralParse)
        else if IsAlpha(c) then
          var (w, k) := Collect(s, j + 1, c, WordStop);
          Ok(Some((WordKind(LowerWord(w)), k)))
        else
          match SymbolKind(c)
          case Some(t) => Ok(Some((t, j + 1)))
          case None => Ok(None)
  }

  /** The tokens `lex` collects from cursor `i` on. */
  function LexFrom(m: Maths, s: string, i: nat): Outcome<seq<TokenKind>>
    requires i <= |s|
    decreases |s| - i
  {
    match Scan(m, s, i)
    case Ok(None) => Ok([])
    case Ok(Some((t, k))) => (var rest :- LexFrom(m, s, k); Ok([t] + rest))
    case Panic(p) => Panic(p)
  }

  /** The token stream of a whole input. */
  function Tokenize(m: Maths, s: string): Outcome<seq<TokenKind>> {
    LexFrom(m, s, 0)
  }

  function Prefixed(acc: seq<TokenKind>, o: Outcome<seq<TokenKind>>): Outcome<seq<TokenKind>> {
    if o.Ok? then Ok(acc + o.value) else o
  }

  lemma RunEndUnique(s: string, i: nat, stop: char -> bool, j: nat)
    requires i <= j <= |s|
    requires forall k :: i <= k < j ==> !stop(s[k])
    requires j == |s| || stop(s[j])
    ensures RunEnd(s, i, stop) == j
  {
  }

  lemma PrefixedAppend(acc: seq<TokenKind>, t: TokenKind, o: Outcome<seq<TokenKind>>)
    ensures Prefixed(acc, Prefixed([t], o)) == Prefixed(acc + [t], o)
  {
    if o.Ok? {
      assert acc + ([t] + o.value) == (acc + [t]) + o.value;
    }
  }

  // ---------------------------------------------------------------------
  // The scanner object
  // ---------------------------------------------------------------------

  class Lexer {
    var currentPos: nat
    var len: nat

    constructor ()
      ensures currentPos == 0 && len == 0
    {
      currentPos := 0;
      len := 0;
    }

    /** The counters agree with the iterator over `input` at index `it`. */
    ghost predicate Synced(input: string, it: nat)
      reads this
    {
      len == |input| && currentPos == it && it <= |input|
    }

    /** The next character of the iterator, left unread. */
    function Peek(input: string, it: nat): (c: Option<char>)
      ensures c.Some? <==> it < |input|
      ensures c.Some? ==> c.value == input[it]
    {
      if it < |input| then Some(input[it]) else None
    }

    /**
     * Reads one character: the iterator always advances, but the character
     * is returned only while `currentPos < len`, and only then does
     * `currentPos` move.
     */
    method NextChar(input: string, it: nat) returns (c: Option<char>, it': nat)
      modifies this`currentPos
      ensures it' == if it < |input| then it + 1 else it
      ensures currentPos == if old(currentPos) < len then old(currentPos) + 1 else old(currentPos)
      ensures c == if old(currentPos) < len && it < |input| then Some(input[it]) else None
    {
      var next := Peek(input, it);
      it' := if it < |input| then it + 1 else it;
      if currentPos < len {
        currentPos := currentPos + 1;
      } else {
        return None, it';
      }
      c := next;
    }

    /**
     * `skip_while`: reads characters while the next one is `target`. (In the
     * source the loop re-tests the character just read, which is always
     * `target`, and leaves on a peek that is not `target` or on the end of
     * input; reading while the peek is `target` is the same.)
     */
    method SkipWhile(input: string, it: nat, target: char) returns (it': nat)
      requires Synced(input, it)
      modifies this`currentPos
      ensures Synced(input, it') && it' == SkipRun(input, it, target)
    {
      it' := it;
      while Peek(input, it') == Some(target)
        invariant Synced(input, it') && it <= it'
        invariant SkipRun(input, it, target) == SkipRun(input, it', target)
        decreases |input| - it'
      {
        var next;
        next, it' := NextChar(input, it');
      }
    }

    /** `collect_until`: the word that starts with `current`, as `Collect` describes it. */
    method CollectUntil(current: char, f: char -> bool, input: string, it: nat) returns (buffer: string, it': nat)
      requires Synced(input, it)
      modifies this`currentPos
      ensures Synced(input, it') && (buffer, it') == Collect(input, it, current, f)
    {
      buffer := [current];
      var next;
      next, it' := NextChar(input, it);
      while next.Some?
        invariant Synced(input, it') && it <= it'
        invariant next.Some? ==> it < it' && next.value == input[it' - 1] && (it' - 1 > it ==> !f(input[it' - 1]))
        invariant next.None? ==> it' == |input|
        invariant var done := if next.Some? then it' - 1 else it';
          buffer == [current] + input[it..done] && forall k :: it <= k < done ==> !f(input[k])
        decreases |input| - it', if next.Some? then 1 else 0
      {
        var chr := next.value;
        if f(chr) {
          break;
        }
        assert input[it..it' - 1] + [chr] == input[it..it'];
        buffer := buffer + [chr];
        var peeked := Peek(input, it');
        if peeked.Some? && f(peeked.value) {
          break;
        }
        next, it' := NextChar(input, it');
      }
      if it == |input| {
        assert buffer == [current];
      } else if |buffer| == 1 {
        assert f(input[it]) && it' == it + 1;
      } else {
        RunEndUnique(input, it, f, it');
        assert !f(input[it]);
        assert buffer == [current] + input[it..it'];
      }
    }

    /** `next_token`: one step of `Scan`. */
    method NextToken(m: Maths, input: string, it: nat) returns (r: Outcome<Option<TokenKind>>, it': nat)
      requires Synced(input, it)
      modifies this`currentPos
      ensures Synced(input, it')
      ensures var o := Scan(m, input, it);
        && (o.Ok? && o.value.Some? ==> r == Ok(Some(o.value.value.0)) && it' == o.value.value.1)
        && (o.Ok? && o.value.None? ==> r == Ok(None))
        && (o.Panic? ==> r == Panic(o.site))
      ensures old(currentPos) >= len ==> r == Ok(None)
    {
      it' := it;
      if currentPos >= len {
        return Ok(None), it';
      }
      it' := SkipWhile(input, it', ' ');
      var first;
      first, it' := NextChar(input, it');
      if first.None? {
        return Ok(None), it';
      }
      var c := first.value;
      if IsDigit(c) {
        var peeked := Peek(input, it');
        if peeked.Some? && NumberStop(peeked.value) {
          return Ok(Some(Number(m.literal([c])))), it';
        }
        var number;
        number, it' := CollectUntil(c, NumberStop, input, it');
        if !ValidLiteral(number) {
          return Panic(LiteralParse), it';
        }
        return Ok(Some(Number(m.literal(number)))), it';
      }
      if IsAlpha(c) {
        var alpha;
        alpha, it' := CollectUntil(c, WordStop, input, it');
        return Ok(Some(WordKind(LowerWord(alpha)))), it';
      }
      var operator := SymbolKind(c);
      if operator.Some? {
        return Ok(Some(operator.value)), it';
      }
      return Ok(None), it';
    }

    /**
     * `lex`: sets `len`, collects tokens until `next_token` gives none, and
     * resets `currentPos` to 0. A panic unwinds out of the scan and leaves
     * the counters as they were.
     */
    method Lex(m: Maths, input: string) returns (r: Outcome<seq<TokenKind>>)
      requires currentPos == 0
      modifies this
      ensures r == Tokenize(m, input)
      ensures len == |input|
      ensures !r.Panic? ==> currentPos == 0
    {
      var it := 0;
      var tokenStream := [];
      len := |input|;
      ghost var at := 0;
      if LexFrom(m, input, at).Ok? {
        assert tokenStream + LexFrom(m, input, at).value == LexFrom(m, input, at).value;
      }
      var token;
      token, it := NextToken(m, input, it);
      while token.Ok? && token.value.Some?
        invariant Synced(input, it) && at <= |input|
        invariant var o := Scan(m, input, at);
          && (o.Ok? && o.value.Some? ==> token == Ok(Some(o.value.value.0)) && it == o.value.value.1)
          && (o.Ok? && o.value.None? ==> token == Ok(None))
          && (o.Panic? ==> token == Panic(o.site))
        invariant Tokenize(m, input) == Prefixed(tokenStream, LexFrom(m, input, at))
        decreases |input| - at
      {
        assert LexFrom(m, input, at) == Prefixed([token.value.value], LexFrom(m, input, it));
        PrefixedAppend(tokenStream, token.value.value, LexFrom(m, input, it));
        tokenStream := tokenStream + [token.value.value];
        at := it;
        token, it := NextToken(m, input, it);
      }
      if token.Panic? {
        return Panic(token.site);
      }
      assert tokenStream + [] == tokenStream;
      currentPos := 0;
      return Ok(tokenStream);
    }
  }

  /** Two scans of one input on one `Lexer` agree. */
  method LexTwice(m: Maths, input: string) returns (first: Outcome<seq<TokenKind>>, second: Outcome<seq<TokenKind>>)
    ensures first == Tokenize(m, input)
    ensures first.Panic? || second == first
  {
    var lexer := new Lexer();
    first := lexer.Lex(m, input);
    if first.Panic? {
      return first, first;
    }
    second := lexer.Lex(m, input);
  }
}
