/**
 * The token factory: it holds the line and column that the scanner last set
 * and stamps them on every token it creates.
 */
module TokenFactories {
  import opened Wrappers
  import opened Tokens

  /** The 21 lexemes that Create(lexeme) accepts. */
  const OperatorLexemes: set<string> := {
    "+", "-", "*", "/", "%", "=", "(", ")", "<", "<=", ">", ">=", "==", "!=", "!",
    "&&", "||", ",", ":", "?", "nil"
  }

  /** The kind of the token each accepted lexeme stands for. */
  function LexemeKind(lexeme: string): Option<TokenKind>
  {
    match lexeme
    case "+" => Some(TokenKind.Plus)
    case "-" => Some(TokenKind.Minus)
    case "*" => Some(TokenKind.Star)
    case "/" => Some(TokenKind.Slash)
    case "%" => Some(TokenKind.Percent)
    case "=" => Some(TokenKind.Equal)
    case "(" => Some(TokenKind.LeftParen)
    case ")" => Some(TokenKind.RightParen)
    case "<" => Some(TokenKind.Less)
    case "<=" => Some(TokenKind.LessEqual)
    case ">" => Some(TokenKind.Greater)
    case ">=" => Some(TokenKind.GreaterEqual)
    case "==" => Some(TokenKind.EqualEqual)
    case "!=" => Some(TokenKind.BangEqual)
    case "!" => Some(TokenKind.Bang)
    case "&&" => Some(TokenKind.And)
    case "||" => Some(TokenKind.Or)
    case "," => Some(TokenKind.Comma)
    case ":" => Some(TokenKind.Colon)
    case "?" => Some(TokenKind.Question)
    case "nil" => Some(TokenKind.Nil)
    case _ => None
  }

  /** The ArgumentException thrown for an unknown lexeme: its message and parameter name. */
  datatype ArgumentError = ArgumentError(message: string, paramName: string)

  class TokenFactory {
    var line: int
    var column: int

    /** A factory that stamps the given position; by default line 1, column 1. */
    constructor (line: int := 1, column: int := 1)
      ensures this.line == line && this.column == column
    {
      this.line := line;
      this.column := column;
    }

    /** Only the column of later tokens changes. */
    method SetColumn(column: int)
      modifies this
      ensures this.column == column && line == old(line)
    {
      this.column := column;
    }

    /** Only the line of later tokens changes. */
    method SetLine(line: int)
      modifies this
      ensures this.line == line && column == old(column)
    {
      this.line := line;
    }

    /** A token with the given lexeme and kind at the current position. */
    function Create(lexeme: string, kind: TokenKind): Token
      reads this
    {
      Token(kind, lexeme, line, column)
    }

    /** The token for one of the 21 operator or "nil" lexemes; any other text is an ArgumentException. */
    function CreateFromLexeme(lexeme: string): (r: Result<Token, ArgumentError>)
      reads this
      ensures r.Success? <==> lexeme in OperatorLexemes
      ensures r.Success? ==> r.value.lexeme == lexeme && r.value.line == line && r.value.column == column
      ensures r.Success? ==> r.value.kind == LexemeKind(lexeme).value
      ensures r.Failure? ==> r.error.message == "Unknown lexeme to create token from: '" + lexeme + "'"
    {
      match lexeme
      case "+" => Success(Plus())
      case "-" => Success(Minus())
      case "*" => Success(Star())
      case "/" => Success(Slash())
      case "%" => Success(Remainder())
      case "=" => Success(Equal())
      case "(" => Success(LeftParen())
      case ")" => Success(RightParen())
      case "<" => Success(Less())
      case "<=" => Success(LessEqual())
      case ">" => Success(Greater())
      case ">=" => Success(GreaterEqual())
      case "==" => Success(EqualEqual())
      case "!=" => Success(BangEqual())
      case "!" => Success(Bang())
      case "&&" => Success(And())
      case "||" => Success(Or())
      case "," => Success(Comma())
      case ":" => Success(Colon())
      case "?" => Success(Question())
      case "nil" => Success(Nil())
      case _ => Failure(ArgumentError("Unknown lexeme to create token from: '" + lexeme + "'", "lexeme"))
    }

    function Plus(): Token reads this { Create("+", TokenKind.Plus) }
    function Minus(): Token reads this { Create("-", TokenKind.Minus) }
    function Star(): Token reads this { Create("*", TokenKind.Star) }
    function Slash(): Token reads this { Create("/", TokenKind.Slash) }
    function Remainder(): Token reads this { Create("%", TokenKind.Percent) }
    function Equal(): Token reads this { Create("=", TokenKind.Equal) }
    function Bang(): Token reads this { Create("!", TokenKind.Bang) }
    function Less(): Token reads this { Create("<", TokenKind.Less) }
    function LessEqual(): Token reads this { Create("<=", TokenKind.LessEqual) }
    function Greater(): Token reads this { Create(">", TokenKind.Greater) }
    function GreaterEqual(): Token reads this { Create(">=", TokenKind.GreaterEqual) }
    function EqualEqual(): Token reads this { Create("==", TokenKind.EqualEqual) }
    function BangEqual(): Token reads this { Create("!=", TokenKind.BangEqual) }
    function LeftParen(): Token reads this { Create("(", TokenKind.LeftParen) }
    function RightParen(): Token reads this { Create(")", TokenKind.RightParen) }
    function And(): Token reads this { Create("&&", TokenKind.And) }
    function Or(): Token reads this { Create("||", TokenKind.Or) }
    function Comma(): Token reads this { Create(",", TokenKind.Comma) }
    function Colon(): Token reads this { Create(":", TokenKind.Colon) }
    function Question(): Token reads this { Create("?", TokenKind.Question) }
    function Number(lexeme: string): Token reads this { Create(lexeme, TokenKind.Number) }
    function Identifier(lexeme: string): Token reads this { Create(lexeme, TokenKind.Identifier) }
    function String(lexeme: string): Token reads this { Create(lexeme, TokenKind.String) }
    function Nil(): Token reads this { Create("nil", TokenKind.Nil) }
    function Error(message: string): Token reads this { Create(message, TokenKind.Error) }
    function Eof(): Token reads this { Create("", TokenKind.Eof) }
  }

  /** Create(lexeme, kind) keeps the lexeme and kind and stamps the factory's position. */
  lemma CreateStamps(f: TokenFactory, lexeme: string, kind: TokenKind)
    ensures f.Create(lexeme, kind) == Token(kind, lexeme, f.line, f.column)
  {
  }

  /** The token carries a lexeme of the table with the kind the table gives it, and the factory's position. */
  predicate Agrees(f: TokenFactory, t: Token)
    reads f
  {
    LexemeKind(t.lexeme) == Some(t.kind) && t.line == f.line && t.column == f.column
  }

  /** Each of the arithmetic operator constructors makes a token that Agrees with the table and the factory. */
  lemma ArithmeticConstructorsAgree(f: TokenFactory)
    ensures Agrees(f, f.Plus())
    ensures Agrees(f, f.Minus())
    ensures Agrees(f, f.Star())
    ensures Agrees(f, f.Slash())
    ensures Agrees(f, f.Remainder())
  {
  }

  /** Each of the comparison, equality and negation constructors makes a token that Agrees with the table and the factory. */
  lemma ComparisonConstructorsAgree(f: TokenFactory)
    ensures Agrees(f, f.Equal())
    ensures Agrees(f, f.Bang())
    ensures Agrees(f, f.Less())
    ensures Agrees(f, f.LessEqual())
    ensures Agrees(f, f.Greater())
    ensures Agrees(f, f.GreaterEqual())
    ensures Agrees(f, f.EqualEqual())
    ensures Agrees(f, f.BangEqual())
  {
  }

  /** Each of the bracket, logical, punctuation and `nil` constructors makes a token that Agrees with the table and the factory. */
  lemma PunctuationConstructorsAgree(f: TokenFactory)
    ensures Agrees(f, f.LeftParen())
    ensures Agrees(f, f.RightParen())
    ensures Agrees(f, f.And())
    ensures Agrees(f, f.Or())
    ensures Agrees(f, f.Comma())
    ensures Agrees(f, f.Colon())
    ensures Agrees(f, f.Question())
    ensures Agrees(f, f.Nil())
  {
  }

  /** Number, Identifier and String keep the text they are given as the lexeme, with their own kind. */
  lemma TextConstructorsKeepText(f: TokenFactory, text: string)
    ensures f.Number(text) == Token(TokenKind.Number, text, f.line, f.column)
    ensures f.Identifier(text) == Token(TokenKind.Identifier, text, f.line, f.column)
    ensures f.String(text) == Token(TokenKind.String, text, f.line, f.column)
  {
  }

  /** Round trip: an accepted lexeme comes back as the token's lexeme, with a kind that is neither Error nor Eof. */
  lemma CreateFromLexemeRoundTrip(f: TokenFactory, lexeme: string)
    requires lexeme in OperatorLexemes
    ensures f.CreateFromLexeme(lexeme).Success?
    ensures f.CreateFromLexeme(lexeme).value.lexeme == lexeme
    ensures f.CreateFromLexeme(lexeme).value.kind !in {TokenKind.Error, TokenKind.Eof, TokenKind.Identifier}
  {
  }

  /** Error(message) carries the message as its lexeme; Eof() has an empty lexeme. */
  lemma ErrorAndEofLexemes(f: TokenFactory, message: string)
    ensures f.Error(message).kind == TokenKind.Error && f.Error(message).lexeme == message
    ensures f.Eof().kind == TokenKind.Eof && f.Eof().lexeme == ""
  {
  }

  /** Setting the position affects only tokens created afterwards: a token made earlier keeps its stamp. */
  method StampsFollowSetters() returns (before: Token, after: Token)
    ensures before == Token(TokenKind.Plus, "+", 1, 1)
    ensures after == Token(TokenKind.Plus, "+", 4, 7)
  {
    var f := new TokenFactory();
    before := f.Plus();
    f.SetLine(4);
    f.SetColumn(7);
    after := f.Plus();
  }
}
