/** Lexical categories and tokens, shared by the scanner and the parser. */
module Token {

  /** One constructor per `TokenType` constant, in the same order (EOF = 0 … PERIOD = 34). */
  datatype TokenType =
    | Eof | Plus | Minus | Slash | Star | Semicolon
    | LeftParen | RightParen | LeftBracket | RightBracket | LeftBrace | RightBrace
    | Colon | Identifier | Number | String
    | Equal | EqualEqual | Bang | BangEqual
    | Less | LessEqual | Greater | GreaterEqual
    | Let | If | Else | Return | Fn | While | Comma
    | True | False | Null | Period

  /** A token: its category and the text it stands for. */
  datatype Token = Token(kind: TokenType, literal: string)

  /** The token the scanner returns at end of input, again and again. */
  const EofToken: Token := Token(Eof, "\0")
}
