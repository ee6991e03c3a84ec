/** The token record shared by the C lexer, parser and import checker (src/c_core/token.h). */
module CTokens {

  datatype TokenType =
    | Identifier
    | Number
    | Operator
    | Keyword
    | Symbol
    | EOF
    | Unknown
    | Import
    | ImportFromC
    | StringLit

  /** `char value[100]`: the text is at most 99 characters before its NUL. */
  datatype Token = Token(kind: TokenType, value: string)

  const MAX_TOKEN_SIZE: nat := 100

  /** The sentinel that ends every token array the C lexer produces. */
  const EofToken: Token := Token(EOF, "EOF")
}
