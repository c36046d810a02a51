/**
 * Tokens of the language: one kind for every token type the scanner, the
 * keyword table and the parser refer to, and the immutable token record.
 */
module Tokens {

  datatype TokenKind =
    // Single character
    | Plus | Minus | Star | Slash | Percent | Equal | Bang | Less | Greater
    | LeftParen | RightParen | LeftBrace | RightBrace
    | Comma | Colon | SemiColon | Question
    // Two characters
    | LessEqual | EqualEqual | BangEqual | GreaterEqual | And | Or
    // Literals
    | Number | Identifier | String
    // Keywords
    | Break | Case | Continue | Default | Do | Else | False | For | Function
    | If | Nil | Print | Return | Switch | True | Var | While
    // Misc
    | Error | Eof

  /** A token: its kind, its text, and the line and column of its first character. */
  datatype Token = Token(kind: TokenKind, lexeme: string, line: int, column: int)
}
