/** The keyword table and the token kinds that start a statement. */
module Keywords {
  import opened Wrappers
  import opened Tokens

  /** The read-only dictionary from reserved word to token kind. */
  const KeywordToType: map<string, TokenKind> := map[
    "break" := Break,
    "case" := Case,
    "continue" := Continue,
    "default" := Default,
    "do" := Do,
    "false" := False,
    "for" := For,
    "if" := If,
    "else" := Else,
    "nil" := Nil,
    "print" := Print,
    "switch" := Switch,
    "true" := True,
    "var" := Var,
    "while" := While
  ]

  /** The kind of a reserved word, or None (null in the source) for any other text. */
  function GetTokenType(keyword: string): (r: Option<TokenKind>)
    ensures r.Some? <==> keyword in KeywordToType
    ensures r.Some? ==> r.value != Identifier && r.value != Error && r.value != Eof
  {
    if keyword in KeywordToType then Some(KeywordToType[keyword]) else None
  }

  /** The inverse of the table: the reserved word of a keyword kind. */
  function KeywordText(kind: TokenKind): Option<string>
  {
    match kind
    case Break => Some("break")
    case Case => Some("case")
    case Continue => Some("continue")
    case Default => Some("default")
    case Do => Some("do")
    case False => Some("false")
    case For => Some("for")
    case If => Some("if")
    case Else => Some("else")
    case Nil => Some("nil")
    case Print => Some("print")
    case Switch => Some("switch")
    case True => Some("true")
    case Var => Some("var")
    case While => Some("while")
    case _ => None
  }

  /** Looking up a word and writing its kind back give the word again. */
  lemma KeywordRoundTrip(keyword: string)
    requires keyword in KeywordToType
    ensures KeywordText(GetTokenType(keyword).value) == Some(keyword)
  {
  }

  /** Every kind with a reserved word is found under that word. */
  lemma KeywordTextRoundTrip(kind: TokenKind)
    requires KeywordText(kind).Some?
    ensures GetTokenType(KeywordText(kind).value) == Some(kind)
  {
  }

  /** Distinct reserved words have distinct kinds. */
  lemma KeywordKindsDistinct(a: string, b: string)
    requires a in KeywordToType && b in KeywordToType && a != b
    ensures GetTokenType(a) != GetTokenType(b)
  {
    KeywordRoundTrip(a);
    KeywordRoundTrip(b);
  }

  /** "function" and "return" are not in this table, so they scan as identifiers. */
  lemma FunctionAndReturnAreNotKeywords()
    ensures GetTokenType("function") == None && GetTokenType("return") == None
  {
  }

  /** The kinds at which error recovery stops because a new statement starts. */
  const StatementStarters: seq<TokenKind> := [Do, For, If, Print, Switch, Var, While]

  /** Membership in StatementStarters (the source's `Contains`), written as a test on the kind. */
  function IsStatementStarter(kind: TokenKind): (r: bool)
    ensures r <==> kind in StatementStarters
  {
    kind == Do || kind == For || kind == If || kind == Print || kind == Switch || kind == Var || kind == While
  }

  /** The statement starters are the reserved words other than the clause, literal and jump words. */
  lemma StatementStartersExactly(kind: TokenKind)
    ensures IsStatementStarter(kind) <==> KeywordText(kind).Some? && kind !in {Break, Case, Continue, Default, Else, False, Nil, True}
  {
  }
}
