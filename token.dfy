/** Token kinds, their printable names, and the token record the lexer emits. */
module Tokens {
  import opened Common

  /** A token kind: Go's `TokenType byte`, so values outside the named eleven exist. */
  newtype TokenType = x: int | 0 <= x < 256 {

    /** The printable name of the kind; "Unknown" for a value no constant names. */
    function String(): (s: string)
      ensures IsDefinedKind(this) <==> s != "Unknown"
      ensures IsDefinedKind(this) ==> s == KindNames[this - 1]
    {
      if this == TokenIllegal then "Illegal"
      else if this == TokenEOF then "EOF"
      else if this == TokenIntNumber then "IntNumber"
      else if this == TokenFloatNumber then "FloatNumber"
      else if this == TokenUnaryOperator then "UnaryOperator"
      else if this == TokenOperator then "Operator"
      else if this == TokenIdent then "Ident"
      else if this == TokenFunction then "Function"
      else if this == TokenLeftParen then "LeftParen"
      else if this == TokenRightParen then "RightParen"
      else if this == TokenComma then "Comma"
      else "Unknown"
    }
  }

  const TokenIllegal: TokenType := 1
  const TokenEOF: TokenType := 2
  const TokenIntNumber: TokenType := 3
  const TokenFloatNumber: TokenType := 4
  const TokenOperator: TokenType := 5
  const TokenUnaryOperator: TokenType := 6
  const TokenIdent: TokenType := 7
  const TokenFunction: TokenType := 8
  const TokenLeftParen: TokenType := 9
  const TokenRightParen: TokenType := 10
  const TokenComma: TokenType := 11

  /** The eleven kinds the constants name. */
  predicate IsDefinedKind(t: TokenType) {
    TokenIllegal <= t <= TokenComma
  }

  /** The names of the eleven kinds, in the order of their values. */
  const KindNames: seq<string> := ["Illegal", "EOF", "IntNumber", "FloatNumber", "Operator",
                                   "UnaryOperator", "Ident", "Function", "LeftParen",
                                   "RightParen", "Comma"]

  /** Different defined kinds print differently, and none prints as "Unknown". */
  lemma StringIsInjective(a: TokenType, b: TokenType)
    requires IsDefinedKind(a) && IsDefinedKind(b) && a != b
    ensures a.String() != b.String()
    ensures a.String() != "Unknown"
  {
  }

  /**
   * A token: its kind, the count of fractional digits of a number literal
   * (`Exp`), the byte offset where it starts, and its text.
   */
  datatype Token = Token(Type: TokenType, Exp: Int16, Position: Int16, Literal: Name)

  /**
   * A token of the given kind and text at `position`, with `Exp` 0. The
   * position is stored in 16 bits, so it survives exactly when it fits.
   */
  function NewToken(tokenType: TokenType, literal: Name, position: int): (t: Token)
    ensures t.Type == tokenType && t.Literal == literal && t.Exp == 0
    ensures 0 <= position ==> (t.Position == position <==> position <= MaxInt16)
  {
    Token(tokenType, 0, WrapInt16(position), literal)
  }
}
