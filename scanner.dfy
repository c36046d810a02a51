/**
 * The scanner: a character-level state machine over the source text that
 * hands out one token per call, tracking line and column as it advances.
 */
module Scanning {
  import opened Wrappers
  import opened Tokens
  import Keywords
  import opened TokenFactories

  /** char.IsWhiteSpace: the Unicode space separators, line and paragraph separators, U+0009 to U+000D and U+0085. */
  predicate IsWhiteSpace(c: char)
  {
    var n := c as int;
    (9 <= n <= 13) || n == 0x20 || n == 0x85 || n == 0xA0 || n == 0x1680
    || (0x2000 <= n <= 0x200A) || n == 0x2028 || n == 0x2029 || n == 0x202F
    || n == 0x205F || n == 0x3000
  }

  predicate IsAsciiDigit(c: char) { '0' <= c <= '9' }

  predicate IsAsciiLetter(c: char) { ('a' <= c <= 'z') || ('A' <= c <= 'Z') }

  predicate IsAlpha(c: char) { IsAsciiLetter(c) || c == '_' }

  predicate IsAlphaNumeric(c: char) { IsAlpha(c) || IsAsciiDigit(c) }

  /** The end of the longest run of characters satisfying p that starts at k. */
  function RunEnd(s: string, k: nat, p: char -> bool): (j: nat)
    requires k <= |s|
    ensures k <= j <= |s|
    ensures forall m :: k <= m < j ==> p(s[m])
    ensures j < |s| ==> !p(s[j])
    decreases |s| - k
  {
    if k < |s| && p(s[k]) then RunEnd(s, k + 1, p) else k
  }

  /** The line of the character at index k: one plus the newlines before it. */
  function LineOf(s: string, k: nat): int
    requires k <= |s|
  {
    if k == 0 then 1 else LineOf(s, k - 1) + (if s[k - 1] == '\n' then 1 else 0)
  }

  /** The column of the character at index k: 1 after a newline, else one more than its predecessor's. */
  function ColumnOf(s: string, k: nat): int
    requires k <= |s|
  {
    if k == 0 || s[k - 1] == '\n' then 1 else ColumnOf(s, k - 1) + 1
  }

  /** The kind of a two-character operator by its first and second character. */
  function TwoCharKind(c: char, d: char): Option<TokenKind>
  {
    if c == '<' && d == '=' then Some(LessEqual)
    else if c == '>' && d == '=' then Some(GreaterEqual)
    else if c == '=' && d == '=' then Some(EqualEqual)
    else if c == '!' && d == '=' then Some(BangEqual)
    else if c == '|' && d == '|' then Some(Or)
    else if c == '&' && d == '&' then Some(And)
    else None
  }

  /** The kind of a one-character operator. */
  function OneCharKind(c: char): Option<TokenKind>
  {
    match c
    case '+' => Some(Plus)
    case '-' => Some(Minus)
    case '*' => Some(Star)
    case '/' => Some(Slash)
    case '(' => Some(LeftParen)
    case ')' => Some(RightParen)
    case '<' => Some(Less)
    case '>' => Some(Greater)
    case '=' => Some(TokenKind.Equal)
    case '!' => Some(Bang)
    case _ => None
  }

  /**
   * The kind and lexeme of the token scanned at a character c that starts no
   * word or number, where next is the character after c, if any: a two-character
   * operator wins over a one-character one.
   */
  function OperatorToken(c: char, next: Option<char>): (TokenKind, string)
  {
    if next.Some? && TwoCharKind(c, next.value).Some? then (TwoCharKind(c, next.value).value, [c, next.value])
    else if OneCharKind(c).Some? then (OneCharKind(c).value, [c])
    else if c == '|' || c == '&' then (TokenKind.Error, NotSupported(c))
    else (TokenKind.Error, UnexpectedCharacter(c))
  }

  /** The scanner's operator kinds agree with the token factory's table of operator lexemes. */
  lemma OperatorKindsAgree(c: char, d: char)
    ensures TwoCharKind(c, d).Some? ==> LexemeKind([c, d]) == TwoCharKind(c, d)
    ensures OneCharKind(c).Some? ==> LexemeKind([c]) == OneCharKind(c)
  {
  }

  /** The message for a lone '|' or '&', which the language only knows doubled. */
  function NotSupported(c: char): string
    requires c == '|' || c == '&'
  {
    if c == '|' then "'|' not supported. Did you mean '||'?" else "'&' not supported. Did you mean '&&'?"
  }

  function UnexpectedCharacter(c: char): string
  {
    "Unexpected character '" + [c] + "'."
  }

  /** A word's kind: its keyword kind, or Identifier when it is not reserved. */
  function WordKind(word: string): TokenKind
  {
    match Keywords.GetTokenType(word)
    case Some(k) => k
    case None => Identifier
  }

  /**
   * The column the factory holds once the characters from k up to e were
   * consumed, given the one it held before: the column of the last one, or 1
   * after a newline.
   */
  function StampAfter(s: string, k: nat, e: nat, before: int): int
    requires k <= e <= |s|
  {
    if e == k then before
    else if s[e - 1] == '\n' then 1
    else ColumnOf(s, e - 1)
  }

  /** The column the factory holds after whitespace from k on was skipped, given the one it held before. */
  function StampAfterSkip(s: string, k: nat, before: int): int
    requires k <= |s|
  {
    StampAfter(s, k, RunEnd(s, k, IsWhiteSpace), before)
  }


  /** One call of NextToken: the token, where it starts, where the scan stopped, and the column the factory holds afterwards. */
  datatype Step = Step(token: Token, start: nat, end: nat, stamp: int)

  /**
   * What NextToken yields when the scan is at index k of s and the factory holds
   * column `stamp`: whitespace is skipped; at the end of the text the result is
   * an Eof token with an empty lexeme, and otherwise the token at the first
   * non-blank character.
   */
  function ScanStep(s: string, k: nat, stamp: int): (r: Step)
    requires k <= |s|
    ensures k <= r.start <= r.end <= |s|
    ensures forall m :: k <= m < r.start ==> IsWhiteSpace(s[m])
    ensures r.token.kind == Eof <==> r.start == |s|
    ensures r.token.kind == Eof ==> r.token.lexeme == "" && r.end == |s|
    ensures r.token.kind != Eof ==> !IsWhiteSpace(s[r.start]) && r.start < r.end
    ensures r.token.line == LineOf(s, r.start)
  {
    var i := RunEnd(s, k, IsWhiteSpace);
    if i == |s| then
      var column := StampAfterSkip(s, k, stamp);
      Step(Token(Eof, "", LineOf(s, i), column), i, i, column)
    else
      TokenAt(s, i)
  }

  /**
   * The token whose first character is at index i: a word or a number is the
   * longest run of its characters, an operator is read by maximal munch, and
   * the token is stamped with the line and column of that first character.
   */
  function TokenAt(s: string, i: nat): (r: Step)
    requires i < |s|
    ensures r.start == i < r.end <= |s| && r.token.kind != Eof
    ensures r.token.line == LineOf(s, i) && r.token.column == ColumnOf(s, i)
    ensures r.token.kind == TokenKind.Number <==> IsAsciiDigit(s[i])
    ensures IsAsciiDigit(s[i]) ==>
      && r.token.lexeme == s[i..r.end]
      && (forall m :: i <= m < r.end ==> IsAsciiDigit(s[m]))
      && (r.end < |s| ==> !IsAsciiDigit(s[r.end]))
    ensures IsAlpha(s[i]) ==>
      && r.token.lexeme == s[i..r.end]
      && r.token.kind == WordKind(r.token.lexeme)
      && (forall m :: i < m < r.end ==> IsAlphaNumeric(s[m]))
      && (r.end < |s| ==> !IsAlphaNumeric(s[r.end]))
    ensures !IsAlphaNumeric(s[i]) ==>
      && (r.end == i + 2 <==> i + 1 < |s| && TwoCharKind(s[i], s[i + 1]).Some?)
      && (r.end != i + 2 ==> r.end == i + 1)
      && (r.end == i + 2 ==> r.token.kind == TwoCharKind(s[i], s[i + 1]).value)
      && (r.end == i + 1 && OneCharKind(s[i]).Some? ==> r.token.kind == OneCharKind(s[i]).value)
      && (r.token.kind == TokenKind.Error <==> r.end == i + 1 && OneCharKind(s[i]).None?)
    ensures r.token.kind != TokenKind.Error ==> r.token.lexeme == s[i..r.end]
    ensures r.token.kind == TokenKind.Error ==>
      && (s[i] == '|' ==> r.token.lexeme == "'|' not supported. Did you mean '||'?")
      && (s[i] == '&' ==> r.token.lexeme == "'&' not supported. Did you mean '&&'?")
      && (s[i] != '|' && s[i] != '&' ==> r.token.lexeme == "Unexpected character '" + [s[i]] + "'.")
  {
    var c := s[i];
    if IsAlpha(c) then
      var j := RunEnd(s, i + 1, IsAlphaNumeric);
      Step(Token(WordKind(s[i..j]), s[i..j], LineOf(s, i), ColumnOf(s, i)), i, j, ColumnOf(s, i))
    else if IsAsciiDigit(c) then
      var j := RunEnd(s, i + 1, IsAsciiDigit);
      Step(Token(TokenKind.Number, s[i..j], LineOf(s, i), ColumnOf(s, i)), i, j, ColumnOf(s, i))
    else
      var next := if i + 1 < |s| then Some(s[i + 1]) else None;
      var j := if next.Some? && TwoCharKind(c, next.value).Some? then i + 2 else i + 1;
      var (kind, lexeme) := OperatorToken(c, next);
      Step(Token(kind, lexeme, LineOf(s, i), ColumnOf(s, i)), i, j, ColumnOf(s, j - 1))
  }

  /** The tokens of s from index k on, up to and including the first Eof, as repeated NextToken calls yield them. */
  function TokenStream(s: string, k: nat, stamp: int): seq<Token>
    requires k <= |s|
    decreases |s| - k, if ScanStep(s, k, stamp).token.kind == Eof then 0 else 1
  {
    var r := ScanStep(s, k, stamp);
    if r.token.kind == Eof then [r.token] else [r.token] + TokenStream(s, r.end, r.stamp)
  }

  /** Scanning ends: the token list holds exactly one Eof, at its end, and no more tokens than characters. */
  lemma {:induction false} TokensEndAtEof(s: string, k: nat, stamp: int)
    requires k <= |s|
    ensures var ts := TokenStream(s, k, stamp);
      && 1 <= |ts| <= |s| - k + 1
      && ts[|ts| - 1].kind == Eof && ts[|ts| - 1].lexeme == ""
      && (forall m :: 0 <= m < |ts| - 1 ==> ts[m].kind != Eof)
    decreases |s| - k
  {
    var r := ScanStep(s, k, stamp);
    var ts := TokenStream(s, k, stamp);
    if r.token.kind == Eof {
      assert ts == [r.token];
    } else {
      TokensEndAtEof(s, r.end, r.stamp);
      var rest := TokenStream(s, r.end, r.stamp);
      assert ts == [r.token] + rest;
      assert forall m :: 1 <= m < |ts| ==> ts[m] == rest[m - 1];
    }
  }

  class Scanner {
    const source: string
    var start: nat
    var cur: nat
    var line: int
    var column: int
    const tokenFactory: TokenFactory

    /** The position fields agree with the text consumed so far, and the factory stamps the current line. */
    ghost predicate Valid()
      reads this, tokenFactory
    {
      && start <= cur <= |source|
      && line == LineOf(source, cur)
      && column == ColumnOf(source, cur)
      && tokenFactory.line == line
    }

    constructor (source: string)
      ensures Valid() && this.source == source && cur == 0 && start == 0
      ensures fresh(tokenFactory) && tokenFactory.column == 1
    {
      this.source := source;
      start, cur, line, column := 0, 0, 1, 1;
      tokenFactory := new TokenFactory();
    }

    /**
     * The next token. Whitespace is skipped first; at the end of the text the
     * result is an Eof token with an empty lexeme. Otherwise at least one
     * character is consumed, operators are read by maximal munch, and the token
     * is stamped with the line and column of its first character.
     */
    method NextToken() returns (token: Token)
      requires Valid()
      modifies this, tokenFactory
      ensures Valid()
      ensures Step(token, start, cur, tokenFactory.column) == ScanStep(source, old(cur), old(tokenFactory.column))
    {
      SkipWhitespace();
      start := cur;

      if AtEnd() {
        return tokenFactory.Eof();
      }

      var c := Advance();

      if IsAlpha(c) {
        token := IdentifierOrKeyword();
        return;
      }

      if IsAsciiDigit(c) {
        token := Number();
        return;
      }

      token := Operator(c);
    }

    /** An operator, read by maximal munch, or an error token, for the character c just consumed. */
    method Operator(c: char) returns (token: Token)
      requires Valid() && start + 1 == cur && c == source[start] && !IsAlphaNumeric(c) && !IsWhiteSpace(c)
      requires tokenFactory.column == ColumnOf(source, start)
      modifies this, tokenFactory
      ensures Valid() && start == old(start) && start < cur
      ensures Step(token, start, cur, tokenFactory.column) == TokenAt(source, start)
    {
      ghost var next := if start + 1 < |source| then Some(source[start + 1]) else None;
      ghost var end := if next.Some? && TwoCharKind(c, next.value).Some? then start + 2 else start + 1;
      ghost var (kind, lexeme) := OperatorToken(c, next);
      assert TokenAt(source, start) ==
        Step(Token(kind, lexeme, LineOf(source, start), ColumnOf(source, start)), start, end, ColumnOf(source, end - 1));

      match c
      case '+' => token := tokenFactory.Plus();
      case '-' => token := tokenFactory.Minus();
      case '*' => token := tokenFactory.Star();
      case '/' => token := tokenFactory.Slash();
      case '(' => token := tokenFactory.LeftParen();
      case ')' => token := tokenFactory.RightParen();
      case '<' => token := Check('=', tokenFactory.LessEqual(), tokenFactory.Less());
      case '>' => token := Check('=', tokenFactory.GreaterEqual(), tokenFactory.Greater());
      case '=' => token := Check('=', tokenFactory.EqualEqual(), tokenFactory.Equal());
      case '!' => token := Check('=', tokenFactory.BangEqual(), tokenFactory.Bang());
      case '|' => token := Check('|', tokenFactory.Or(), tokenFactory.Error(NotSupported('|')));
      case '&' => token := Check('&', tokenFactory.And(), tokenFactory.Error(NotSupported('&')));
      case _ => token := tokenFactory.Error(UnexpectedCharacter(c));
    }


    /** Consumes the next character and returns `with` when it is c; otherwise consumes nothing and returns `without`. */
    method Check(c: char, with: Token, without: Token) returns (token: Token)
      requires Valid() && c != '\n'
      modifies this, tokenFactory
      ensures Valid() && start == old(start)
      ensures old(cur) < |source| && source[old(cur)] == c ==>
        token == with && cur == old(cur) + 1 && tokenFactory.column == old(column)
      ensures !(old(cur) < |source| && source[old(cur)] == c) ==>
        token == without && cur == old(cur) && tokenFactory.column == old(tokenFactory.column)
    {
      if AtEnd() || source[cur] != c {
        return without;
      }

      var _ := Advance();
      return with;
    }

    /** A number: the maximal run of ASCII digits that began with the character just consumed. */
    method Number() returns (token: Token)
      requires Valid() && start + 1 == cur && IsAsciiDigit(source[start])
      modifies this, tokenFactory
      ensures Valid() && start == old(start)
      ensures Step(token, start, cur, tokenFactory.column) == TokenAt(source, start)
    {
      var startCol := column - 1;

      while IsAsciiDigit(Peek())
        invariant Valid() && start == old(start) && old(cur) <= cur
        invariant RunEnd(source, cur, IsAsciiDigit) == RunEnd(source, old(cur), IsAsciiDigit)
        invariant line == LineOf(source, start) && startCol == ColumnOf(source, start)
        decreases |source| - cur
      {
        var _ := Advance();
      }

      tokenFactory.SetColumn(startCol);
      return tokenFactory.Number(GetLexeme());
    }

    /** An identifier or keyword: the maximal run of letters, digits and '_' that began with a letter or '_'. */
    method IdentifierOrKeyword() returns (token: Token)
      requires Valid() && start + 1 == cur && IsAlpha(source[start])
      modifies this, tokenFactory
      ensures Valid() && start == old(start)
      ensures Step(token, start, cur, tokenFactory.column) == TokenAt(source, start)
    {
      var startCol := column - 1;

      while IsAlphaNumeric(Peek())
        invariant Valid() && start == old(start) && old(cur) <= cur
        invariant RunEnd(source, cur, IsAlphaNumeric) == RunEnd(source, old(cur), IsAlphaNumeric)
        invariant line == LineOf(source, start) && startCol == ColumnOf(source, start)
        decreases |source| - cur
      {
        var _ := Advance();
      }

      var lexeme := GetLexeme();
      var kind := match Keywords.GetTokenType(lexeme) case Some(k) => k case None => Identifier;

      tokenFactory.SetColumn(startCol);
      return tokenFactory.Create(lexeme, kind);
    }

    /** Consumes one character; the factory is stamped with that character's column. */
    method Advance() returns (c: char)
      requires Valid() && cur < |source|
      modifies this, tokenFactory
      ensures c == source[old(cur)] && cur == old(cur) + 1 && column == old(column) + 1
      ensures start == old(start) && line == old(line)
      ensures tokenFactory.column == old(column) && tokenFactory.line == old(tokenFactory.line)
      ensures c != '\n' ==> Valid()
    {
      tokenFactory.SetColumn(column);
      column := column + 1;
      c := source[cur];
      cur := cur + 1;
    }

    /** Skips whitespace; a newline moves to the next line and back to column 1. */
    method SkipWhitespace()
      requires Valid()
      modifies this, tokenFactory
      ensures Valid() && start == old(start)
      ensures cur == RunEnd(source, old(cur), IsWhiteSpace)
      ensures tokenFactory.column == StampAfterSkip(source, old(cur), old(tokenFactory.column))
    {
      ghost var k, before := cur, tokenFactory.column;
      while IsWhiteSpace(Peek())
        invariant Valid() && start == old(start) && k <= cur
        invariant RunEnd(source, cur, IsWhiteSpace) == RunEnd(source, k, IsWhiteSpace)
        invariant tokenFactory.column == StampAfter(source, k, cur, before)
        decreases |source| - cur
      {
        if Peek() == '\n' {
          var _ := Advance();
          line := line + 1;
          tokenFactory.SetLine(line);
          column := 1;
          tokenFactory.SetColumn(1);
        } else {
          var _ := Advance();
        }
      }
    }

    /** The current character, or '\0' at the end of the text. */
    function Peek(): (c: char)
      reads this
      ensures cur < |source| ==> c == source[cur]
      ensures cur >= |source| ==> !IsWhiteSpace(c) && !IsAlphaNumeric(c)
    {
      if AtEnd() then '\0' else source[cur]
    }

    /** No character is left to read. */
    function AtEnd(): (r: bool)
      reads this
      ensures !r <==> cur < |source|
    {
      cur >= |source|
    }

    /** The text from the token's start up to the current offset. */
    function GetLexeme(): (r: string)
      reads this
      requires start <= cur <= |source|
      ensures |r| == cur - start
      ensures forall i :: 0 <= i < |r| ==> r[i] == source[start + i]
    {
      source[start..cur]
    }
  }
}

/** Whole-text scanning, and concrete scans stated on the scanner's specification. */
module ScanningExamples {
  import opened Wrappers
  import opened Tokens
  import opened Scanning
  import Keywords

  /**
   * Calls NextToken until it yields Eof. Each non-Eof call consumes at least one
   * character, so the loop ends; the tokens are the text's token stream, whose
   * shape TokensEndAtEof gives.
   */
  method ScanAll(source: string) returns (tokens: seq<Token>)
    ensures tokens == TokenStream(source, 0, 1)
  {
    var scanner := new Scanner(source);
    var token := scanner.NextToken();
    tokens := [token];
    while token.kind != Eof
      invariant scanner.Valid() && scanner.source == source
      invariant token.kind != Eof ==>
        tokens + TokenStream(source, scanner.cur, scanner.tokenFactory.column) == TokenStream(source, 0, 1)
      invariant token.kind == Eof ==> tokens == TokenStream(source, 0, 1)
      decreases |source| - scanner.cur + (if token.kind == Eof then 0 else 1)
    {
      token := scanner.NextToken();
      tokens := tokens + [token];
    }
  }

  /** Once the text is exhausted, scanning again yields the same Eof token and leaves the position alone. */
  lemma EofIsSticky(s: string, k: nat, stamp: int)
    requires k <= |s| && ScanStep(s, k, stamp).token.kind == Eof
    ensures var r := ScanStep(s, k, stamp); ScanStep(s, r.end, r.stamp) == r
  {
  }

  /** "1 + 2": each token is stamped with the column of its first character, and Eof keeps the last stamp. */
  lemma ColumnsOfOnePlusTwo()
    ensures TokenStream("1 + 2", 0, 1) ==
      [Token(Number, "1", 1, 1), Token(Plus, "+", 1, 3), Token(Number, "2", 1, 5), Token(Eof, "", 1, 5)]
  {
    OneAtStart();
    PlusAfterBlank();
    NumberAfterBlank();
    EofAfterTwo();
  }

  lemma OneAtStart()
    ensures ScanStep("1 + 2", 0, 1) == Step(Token(Number, "1", 1, 1), 0, 1, 1)
  {
  }

  lemma PlusAfterBlank()
    ensures ScanStep("1 + 2", 1, 1) == Step(Token(Plus, "+", 1, 3), 2, 3, 3)
  {
  }

  lemma NumberAfterBlank()
    ensures ScanStep("1 + 2", 3, 3) == Step(Token(Number, "2", 1, 5), 4, 5, 5)
  {
  }

  lemma EofAfterTwo()
    ensures ScanStep("1 + 2", 5, 5) == Step(Token(Eof, "", 1, 5), 5, 5, 5)
  {
  }

  /** "\n 123": a newline moves to line 2 and column 1, so the number is at line 2, column 2. */
  lemma NumberAfterNewline()
    ensures ScanStep("\n 123", 0, 1).token == Token(Number, "123", 2, 2)
  {
  }

  /** "<=" is one token. */
  lemma LessEqualIsOneToken()
    ensures ScanStep("<=", 0, 1) == Step(Token(LessEqual, "<=", 1, 1), 0, 2, 2)
  {
  }

  /** "< =" starts with a lone '<'. */
  lemma LessBlankEqualIsTwoTokens()
    ensures ScanStep("< =", 0, 1) == Step(Token(Less, "<", 1, 1), 0, 1, 1)
  {
  }

  /** A lone '|' gives an error token that suggests '||'. */
  lemma LonePipeIsError()
    ensures ScanStep("|", 0, 1).token == Token(Error, "'|' not supported. Did you mean '||'?", 1, 1)
  {
  }

  /** A character the language does not know gives "Unexpected character". */
  lemma UnknownCharacterIsError()
    ensures ScanStep("#", 0, 1).token == Token(Error, "Unexpected character '#'.", 1, 1)
  {
  }

  /** "while" is a keyword. */
  lemma WhileIsKeyword()
    ensures ScanStep("while", 0, 1).token == Token(While, "while", 1, 1)
  {
    WhileTokenAt();
  }

  lemma WhileTokenAt()
    ensures TokenAt("while", 0) == Step(Token(While, "while", 1, 1), 0, 5, 1)
  {
    assert RunEnd("while", 1, IsAlphaNumeric) == 5;
    assert "while"[0..5] == "while";
    assert WordKind("while") == While;
  }

  /** "function" is not in the keyword table and scans as an identifier. */
  lemma FunctionIsIdentifier()
    ensures ScanStep("function", 0, 1).token == Token(Identifier, "function", 1, 1)
  {
  }
}
