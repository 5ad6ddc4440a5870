/** Token kinds (TipoToken.py) and tokens (Token.py). */
module Tokens {

  datatype TokenKind =
    // single-character tokens
    | LeftParen | RightParen | Comma | Semicolon | Minus | Plus | Slash | Star | Mod
    // one or two characters
    | Equal | EqualEqual
    // literals
    | Identifier | Number | String
    // reserved words
    | Null | True | False
    // end of input
    | Eof

  /** The `literal` payload of a token: a number's value, a string's text, or None. */
  datatype TokenLiteral = NoLiteral | NumberLiteral(n: real) | StringLiteral(s: string)

  /** `Token(tipo, lexema, literal, linea)` */
  datatype Token = Token(kind: TokenKind, lexeme: string, literal: TokenLiteral, line: nat)
}
