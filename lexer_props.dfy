/** Properties of the scanner, stated on the functions the `Lexer` class is proved against. */
module LexingProperties {
  import opened Common
  import opened CharClass
  import opened Tokens
  import opened Lexing

  /** The result of the (n+1)-th `NextToken` call from offset `pos` after a token of kind `prev`. */
  function ScanAfter(input: seq<Byte>, pos: nat, prev: TokenType, n: nat): Scan
    requires |input| < MaxInt16
    decreases n
  {
    var s := ScanToken(input, pos, prev);
    if n == 0 then s else ScanAfter(input, s.next, s.tok.Type, n - 1)
  }

  /** Once the current offset is past the input, every further call returns EOF. */
  lemma {:induction false} ExhaustedInputStaysEof(input: seq<Byte>, pos: nat, prev: TokenType, n: nat)
    requires |input| < MaxInt16 && |input| <= pos
    ensures ScanAfter(input, pos, prev, n).tok.Type == TokenEOF
    ensures ScanAfter(input, pos, prev, n).next == pos + n + 1
    decreases n
  {
    var s := ScanToken(input, pos, prev);
    assert WhitespaceEnd(input, pos) == pos;
    assert s.tok.Type == TokenEOF && s.next == pos + 1;
    if n > 0 {
      ExhaustedInputStaysEof(input, s.next, s.tok.Type, n - 1);
    }
  }

  /** The text contains no dot. */
  predicate DotFree(text: seq<Byte>) {
    forall k :: 0 <= k < |text| ==> text[k] != '.'
  }

  /** After the dot, a number scan consumes only digits, and `exp` counts them all. */
  lemma {:induction false} FractionScan(input: seq<Byte>, pos: nat)
    requires pos <= |input|
    ensures var r := NumberScan(input, pos, true);
            var text := input[pos..r.end];
            DotFree(text) && r.digits == text && r.exp == |text|
    decreases |input| - pos
  {
    var r := NumberScan(input, pos, true);
    var c := CharAt(input, pos);
    if IsDigit(c) {
      var rest := NumberScan(input, pos + 1, true);
      FractionScan(input, pos + 1);
      assert input[pos..r.end] == [c] + input[pos + 1..rest.end];
    }
  }

  /**
   * `text` is `digits` with one dot inserted before the last `exp` digits,
   * or, when it has no dot, `digits` itself with `exp` 0.
   */
  predicate DigitsOfText(text: seq<Byte>, digits: Name, exp: nat) {
    && (DotFree(text) ==> digits == text && exp == 0)
    && (!DotFree(text) ==>
          exp <= |digits| && text == digits[..|digits| - exp] + ['.'] + digits[|digits| - exp..])
  }

  /**
   * A number scan consumes digits and at most one dot: its digit string is
   * the consumed text with the dot removed, and its `exp` counts the digits
   * after that dot. It stops at a dot only when it already consumed one.
   */
  lemma {:induction false} NumberScanShape(input: seq<Byte>, pos: nat)
    requires pos <= |input|
    ensures var r := NumberScan(input, pos, false);
            DigitsOfText(input[pos..r.end], r.digits, r.exp)
    ensures var r := NumberScan(input, pos, false);
            IsDot(CharAt(input, r.end)) ==> !DotFree(input[pos..r.end])
    decreases |input| - pos
  {
    var r := NumberScan(input, pos, false);
    var c := CharAt(input, pos);
    if IsDigit(c) {
      var rest := NumberScan(input, pos + 1, false);
      NumberScanShape(input, pos + 1);
      var tail := input[pos + 1..rest.end];
      assert input[pos..r.end] == [c] + tail;
      DigitBeforeText(c, tail, rest.digits, rest.exp);
    } else if IsDot(c) {
      var rest := NumberScan(input, pos + 1, true);
      FractionScan(input, pos + 1);
      var tail := input[pos + 1..rest.end];
      assert input[pos..r.end] == ['.'] + tail;
      DotBeforeText(tail);
    }
  }

  /** A digit in front of a number's text goes in front of its digits; the exponent stays. */
  lemma DigitBeforeText(c: Byte, tail: seq<Byte>, digits: Name, exp: nat)
    requires c != '.' && DigitsOfText(tail, digits, exp)
    ensures DigitsOfText([c] + tail, [c] + digits, exp)
    ensures DotFree([c] + tail) <==> DotFree(tail)
  {
    var text := [c] + tail;
    assert forall k :: 0 < k < |text| ==> text[k] == tail[k - 1];
    if !DotFree(tail) {
      var j :| 0 <= j < |tail| && tail[j] == '.';
      assert text[j + 1] == '.';
      var k := |digits| - exp;
      assert ([c] + digits)[..k + 1] == [c] + digits[..k];
      assert ([c] + digits)[k + 1..] == digits[k..];
    }
  }

  /** A dot in front of dot-free digits: all of them follow the dot. */
  lemma DotBeforeText(tail: seq<Byte>)
    requires DotFree(tail)
    ensures DigitsOfText(['.'] + tail, tail, |tail|)
    ensures !DotFree(['.'] + tail)
  {
    assert (['.'] + tail)[0] == '.';
    assert tail[..0] == [] && tail[0..] == tail;
  }

  /**
   * A number token read from the offset of a digit: "5.10" gives digits
   * "510" with `Exp` 2, "10" gives "10" with `Exp` 0, and "1.2.3" stops
   * before the second dot.
   */
  lemma NumberToken(input: seq<Byte>, pos: nat, prev: TokenType)
    requires |input| < MaxInt16 && pos <= |input|
    requires IsDigit(CharAt(input, WhitespaceEnd(input, pos)))
    ensures var p := WhitespaceEnd(input, pos);
            var s := ScanToken(input, pos, prev);
            var text := input[p..s.next];
            && s.tok.Type == TokenFloatNumber && s.tok.Position == p
            && |s.tok.Literal| >= 1 && s.tok.Literal[0] == input[p]
            && (forall k :: 0 <= k < |s.tok.Literal| ==> IsDigit(s.tok.Literal[k]))
            && DigitsOfText(text, s.tok.Literal, s.tok.Exp as nat)
            && !IsDigit(CharAt(input, s.next))
            && (IsDot(CharAt(input, s.next)) ==> !DotFree(text))
  {
    var p := WhitespaceEnd(input, pos);
    NumberScanShape(input, p);
  }

  /** A '-' is unary exactly after EOF, '(', ',' or a binary operator; after anything else, binary. */
  lemma MinusKind(input: seq<Byte>, pos: nat, prev: TokenType)
    requires |input| < MaxInt16
    requires CharAt(input, WhitespaceEnd(input, pos)) == '-'
    ensures ScanToken(input, pos, prev).tok.Type
            == if prev == TokenEOF || prev == TokenLeftParen || prev == TokenComma || prev == TokenOperator
               then TokenUnaryOperator else TokenOperator
  {
  }

  /**
   * A run of letters and digits that starts with a letter is one token at
   * the offset of its first byte: a Function when the byte right after the
   * run is '(', an Ident otherwise.
   */
  lemma IdentifierToken(input: seq<Byte>, pos: nat, prev: TokenType)
    requires |input| < MaxInt16 && pos <= |input|
    requires IsLetter(CharAt(input, WhitespaceEnd(input, pos)))
    ensures var p := WhitespaceEnd(input, pos);
            var s := ScanToken(input, pos, prev);
            && s.tok.Type == (if CharAt(input, s.next) == '(' then TokenFunction else TokenIdent)
            && s.tok.Position == p && s.tok.Literal == input[p..s.next] && p < s.next
            && (forall k :: p <= k < s.next ==> IsLetter(input[k]) || IsDigit(input[k]))
            && !IsLetter(CharAt(input, s.next)) && !IsDigit(CharAt(input, s.next))
  {
    var p := WhitespaceEnd(input, pos);
    var end := IdentEnd(input, p);
    assert end == IdentEnd(input, p + 1);
    forall k | p <= k < end
      ensures IsLetter(input[k]) || IsDigit(input[k])
    {
      assert CharAt(input, k) == input[k];
    }
  }

  /**
   * Whitespace before a token is skipped, and the token's position is the
   * offset of its first byte.
   */
  lemma TokenPosition(input: seq<Byte>, pos: nat, prev: TokenType)
    requires |input| < MaxInt16 && pos <= |input|
    ensures var s := ScanToken(input, pos, prev);
            && pos <= s.tok.Position <= |input|
            && (forall k :: pos <= k < s.tok.Position ==> IsWhitespace(input[k]))
            && (s.tok.Position < |input| ==> !IsWhitespace(input[s.tok.Position]))
  {
    var p := WhitespaceEnd(input, pos);
    assert ScanToken(input, pos, prev).tok.Position == p;
    forall k | pos <= k < p
      ensures IsWhitespace(input[k])
    {
      assert CharAt(input, k) == input[k];
    }
  }

  /**
   * A byte in none of the handled categories (a lone or leading '.', or any
   * byte left unassigned by the table) becomes an Illegal token holding that
   * byte as Go's `string` conversion spells it: the byte itself below 0x80,
   * its two-byte UTF-8 encoding from 0x80 on.
   */
  lemma UnhandledByteIsIllegal(input: seq<Byte>, pos: nat, prev: TokenType)
    requires |input| < MaxInt16
    requires var c := CharAt(input, WhitespaceEnd(input, pos));
             !IsOperatorChar(c) && !IsLeftParen(c) && !IsRightParen(c) && !IsComma(c)
             && !IsDigit(c) && !IsLetter(c) && c != '\0'
    ensures var p := WhitespaceEnd(input, pos);
            var s := ScanToken(input, pos, prev);
            s.tok.Type == TokenIllegal && s.tok.Literal == ByteString(CharAt(input, p)) && s.next == p + 1
  {
  }

  /** An Illegal token anywhere before the first EOF makes tokenizing fail. */
  lemma IllegalTokenFailsTokenize(input: seq<Byte>, pos: nat, prev: TokenType, i: nat)
    requires |input| < MaxInt16
    requires i < |TokensFrom(input, pos, prev)| && TokensFrom(input, pos, prev)[i].Type == TokenIllegal
    ensures TokenizeResult(TokensFrom(input, pos, prev)).Err?
  {
  }

  /** The tokens of a whole input, as the factory-made scanner returns them. */
  function Lex(input: seq<Byte>): seq<Token>
    requires |input| < MaxInt16
  {
    TokensFrom(input, 0, TokenEOF)
  }

  lemma LexFiveTenths(s: seq<Byte>)
    requires s == "5.10"
    ensures Lex(s) == [Token(TokenFloatNumber, 2, 0, "510")]
  {
    assert NumberScan(s, 4, true) == NumberLexeme([], 0, 4);
    assert NumberScan(s, 3, true) == NumberLexeme("0", 1, 4);
    assert NumberScan(s, 2, true) == NumberLexeme("10", 2, 4);
    assert NumberScan(s, 1, false) == NumberLexeme("10", 2, 4);
    assert NumberScan(s, 0, false) == NumberLexeme("510", 2, 4);
    assert ScanToken(s, 0, TokenEOF) == Scan(Token(TokenFloatNumber, 2, 0, "510"), 4);
    assert ScanToken(s, 4, TokenFloatNumber).tok.Type == TokenEOF;
    TokensFromStep(s, 0, TokenEOF, Token(TokenFloatNumber, 2, 0, "510"), 4);
  }

  /** After a binary operator '-' is unary: "5 + -10" gives 5, +, unary -, 10. */
  lemma LexUnaryAfterOperator(s: seq<Byte>)
    requires s == "5 + -10"
    ensures Lex(s) == [Token(TokenFloatNumber, 0, 0, "5"), Token(TokenOperator, 0, 2, "+"),
                               Token(TokenUnaryOperator, 0, 4, "-"), Token(TokenFloatNumber, 0, 5, "10")]
  {
    ScanFivePlus(s);
    ScanMinusTen(s);
    assert TokensFrom(s, 7, TokenFloatNumber) == [];
    TokensFromStep(s, 5, TokenUnaryOperator, Token(TokenFloatNumber, 0, 5, "10"), 7);
    TokensFromStep(s, 3, TokenOperator, Token(TokenUnaryOperator, 0, 4, "-"), 5);
    TokensFromStep(s, 1, TokenFloatNumber, Token(TokenOperator, 0, 2, "+"), 3);
    TokensFromStep(s, 0, TokenEOF, Token(TokenFloatNumber, 0, 0, "5"), 1);
  }

  lemma ScanFivePlus(s: seq<Byte>)
    requires s == "5 + -10"
    ensures ScanToken(s, 0, TokenEOF) == Scan(Token(TokenFloatNumber, 0, 0, "5"), 1)
    ensures ScanToken(s, 1, TokenFloatNumber) == Scan(Token(TokenOperator, 0, 2, "+"), 3)
  {
    assert NumberScan(s, 1, false) == NumberLexeme([], 0, 1);
    assert NumberScan(s, 0, false) == NumberLexeme("5", 0, 1);
    assert WhitespaceEnd(s, 1) == 2;
  }

  lemma ScanMinusTen(s: seq<Byte>)
    requires s == "5 + -10"
    ensures ScanToken(s, 3, TokenOperator) == Scan(Token(TokenUnaryOperator, 0, 4, "-"), 5)
    ensures ScanToken(s, 5, TokenUnaryOperator) == Scan(Token(TokenFloatNumber, 0, 5, "10"), 7)
    ensures ScanToken(s, 7, TokenFloatNumber).tok.Type == TokenEOF
  {
    assert WhitespaceEnd(s, 3) == 4;
    assert NumberScan(s, 7, false) == NumberLexeme([], 0, 7);
    assert NumberScan(s, 6, false) == NumberLexeme("0", 0, 7);
    assert NumberScan(s, 5, false) == NumberLexeme("10", 0, 7);
  }

  /** After a unary '-' a second '-' is binary: "--5" gives unary -, binary -, 5. */
  lemma LexMinusAfterUnary(s: seq<Byte>)
    requires s == "--5"
    ensures Lex(s) == [Token(TokenUnaryOperator, 0, 0, "-"), Token(TokenOperator, 0, 1, "-"),
                           Token(TokenFloatNumber, 0, 2, "5")]
  {
    assert ScanToken(s, 0, TokenEOF) == Scan(Token(TokenUnaryOperator, 0, 0, "-"), 1);
    assert ScanToken(s, 1, TokenUnaryOperator) == Scan(Token(TokenOperator, 0, 1, "-"), 2);
    assert NumberScan(s, 3, false) == NumberLexeme([], 0, 3);
    assert NumberScan(s, 2, false) == NumberLexeme("5", 0, 3);
    assert ScanToken(s, 2, TokenOperator) == Scan(Token(TokenFloatNumber, 0, 2, "5"), 3);
    assert ScanToken(s, 3, TokenFloatNumber).tok.Type == TokenEOF;
    assert TokensFrom(s, 3, TokenFloatNumber) == [];
    TokensFromStep(s, 2, TokenOperator, Token(TokenFloatNumber, 0, 2, "5"), 3);
    TokensFromStep(s, 1, TokenUnaryOperator, Token(TokenOperator, 0, 1, "-"), 2);
    TokensFromStep(s, 0, TokenEOF, Token(TokenUnaryOperator, 0, 0, "-"), 1);
  }
}
