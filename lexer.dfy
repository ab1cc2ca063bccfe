/**
 * The pull scanner. Its state is the input, the offset of the current byte,
 * the current byte itself, and the previously returned token (only whose
 * kind matters: it decides whether a '-' is unary).
 *
 * The functions up to `LexStop` say what scanning from a given offset
 * yields; the class `Lexer` does the scanning step by step and is proved to
 * agree with them.
 */
module Lexing {
  import opened Common
  import opened CharClass
  import opened Tokens

  /** The current byte at `pos`: past the end of the input it is 0. */
  function CharAt(input: seq<Byte>, pos: nat): Byte {
    if pos < |input| then input[pos] else '\0'
  }

  /** The offset of the first byte at or after `pos` that is not whitespace. */
  function WhitespaceEnd(input: seq<Byte>, pos: nat): (p: nat)
    ensures pos <= p
    ensures pos <= |input| ==> p <= |input|
    ensures pos >= |input| ==> p == pos
    ensures !IsWhitespace(CharAt(input, p))
    ensures forall k :: pos <= k < p ==> IsWhitespace(CharAt(input, k))
    decreases |input| - pos
  {
    if IsWhitespace(CharAt(input, pos)) then WhitespaceEnd(input, pos + 1) else pos
  }

  /** The offset just past the run of letters and digits that starts at `pos`. */
  function IdentEnd(input: seq<Byte>, pos: nat): (p: nat)
    ensures pos <= p
    ensures pos <= |input| ==> p <= |input|
    ensures pos >= |input| ==> p == pos
    ensures !IsLetter(CharAt(input, p)) && !IsDigit(CharAt(input, p))
    ensures forall k :: pos <= k < p ==> IsLetter(CharAt(input, k)) || IsDigit(CharAt(input, k))
    decreases |input| - pos
  {
    var c := CharAt(input, pos);
    if IsLetter(c) || IsDigit(c) then IdentEnd(input, pos + 1) else pos
  }

  /** What a number scan collects: its digits, how many follow the dot, and where it stops. */
  datatype NumberLexeme = NumberLexeme(digits: Name, exp: nat, end: nat)

  /**
   * Scans digits and at most one dot from `pos`; `seenDot` says whether a
   * dot was already consumed. A dot after the first one ends the scan.
   */
  function NumberScan(input: seq<Byte>, pos: nat, seenDot: bool): (r: NumberLexeme)
    ensures pos <= r.end
    ensures pos <= |input| ==> r.end <= |input|
    ensures r.exp <= |r.digits| <= r.end - pos
    ensures forall k :: 0 <= k < |r.digits| ==> IsDigit(r.digits[k])
    ensures !IsDigit(CharAt(input, r.end))
    decreases |input| - pos
  {
    var c := CharAt(input, pos);
    if IsDigit(c) then
      var rest := NumberScan(input, pos + 1, seenDot);
      NumberLexeme([c] + rest.digits, rest.exp + (if seenDot then 1 else 0), rest.end)
    else if IsDot(c) && !seenDot then
      NumberScan(input, pos + 1, true)
    else
      NumberLexeme([], 0, pos)
  }

  /**
   * Having read the number from `begin` up to `pos`, collecting `digits` and
   * `exp`, the rest of the scan from `pos` completes the scan from `begin`.
   */
  ghost predicate NumberSoFar(input: seq<Byte>, begin: nat, pos: nat, seenDot: bool, digits: Name, exp: nat) {
    var rest := NumberScan(input, pos, seenDot);
    NumberScan(input, begin, false) == NumberLexeme(digits + rest.digits, exp + rest.exp, rest.end)
  }

  lemma NumberStart(input: seq<Byte>, begin: nat)
    ensures NumberSoFar(input, begin, begin, false, [], 0)
  {
    assert [] + NumberScan(input, begin, false).digits == NumberScan(input, begin, false).digits;
  }

  lemma NumberDigitStep(input: seq<Byte>, begin: nat, pos: nat, seenDot: bool, digits: Name, exp: nat)
    requires NumberSoFar(input, begin, pos, seenDot, digits, exp) && IsDigit(CharAt(input, pos))
    ensures NumberSoFar(input, begin, pos + 1, seenDot, digits + [CharAt(input, pos)], exp + if seenDot then 1 else 0)
  {
    var rest := NumberScan(input, pos + 1, seenDot);
    ConcatAssoc(digits, [CharAt(input, pos)], rest.digits);
  }

  lemma NumberDotStep(input: seq<Byte>, begin: nat, pos: nat, digits: Name, exp: nat)
    requires NumberSoFar(input, begin, pos, false, digits, exp) && IsDot(CharAt(input, pos))
    ensures NumberSoFar(input, begin, pos + 1, true, digits, exp)
  {
  }

  lemma NumberStop(input: seq<Byte>, begin: nat, pos: nat, seenDot: bool, digits: Name, exp: nat)
    requires NumberSoFar(input, begin, pos, seenDot, digits, exp)
    requires !IsDigit(CharAt(input, pos)) && !(IsDot(CharAt(input, pos)) && !seenDot)
    ensures NumberScan(input, begin, false) == NumberLexeme(digits, exp, pos)
  {
    assert digits + [] == digits;
  }

  /**
   * Go's `string(b)` of a single byte: the byte is taken as a code point and
   * encoded in UTF-8, so a byte from 0x80 on becomes two bytes.
   */
  function ByteString(c: Byte): (s: Name)
    ensures c as int < 0x80 ==> s == [c]
    ensures c as int >= 0x80 ==>
              && |s| == 2
              && s[0] as int / 64 == 3 && s[1] as int / 64 == 2
              && (s[0] as int % 32) * 64 + s[1] as int % 64 == c as int
  {
    if c as int < 0x80 then [c]
    else [(0xC0 + c as int / 64) as char, (0x80 + c as int % 64) as char]
  }

  /** A '-' after a token of these kinds is a unary minus. */
  predicate UnaryContext(prev: TokenType) {
    prev == TokenEOF || prev == TokenLeftParen || prev == TokenComma || prev == TokenOperator
  }

  /** One token and the offset of the current byte after it. */
  datatype Scan = Scan(tok: Token, next: nat)

  /** The kinds the scanner can produce. */
  predicate ScannedKind(t: TokenType) {
    t == TokenIllegal || t == TokenEOF || t == TokenFloatNumber || t == TokenOperator
    || t == TokenUnaryOperator || t == TokenIdent || t == TokenFunction
    || t == TokenLeftParen || t == TokenRightParen || t == TokenComma
  }

  /** The token `NextToken` returns when the current byte is at `pos` and the previous kind is `prev`. */
  function ScanToken(input: seq<Byte>, pos: nat, prev: TokenType): (s: Scan)
    requires |input| < MaxInt16
    ensures ScannedKind(s.tok.Type)
    ensures pos < s.next
    ensures s.tok.Type != TokenEOF ==> s.next <= |input|
    ensures pos <= |input| ==> s.next <= |input| + 1
  {
    var p := WhitespaceEnd(input, pos);
    var c := CharAt(input, p);
    var cat := CharMap(c);
    if cat == CharOperator then
      var kind := if c == '-' && UnaryContext(prev) then TokenUnaryOperator else TokenOperator;
      Scan(NewToken(kind, [c], p), p + 1)
    else if cat == CharLeftParen then Scan(NewToken(TokenLeftParen, [c], p), p + 1)
    else if cat == CharRightParen then Scan(NewToken(TokenRightParen, [c], p), p + 1)
    else if cat == CharComma then Scan(NewToken(TokenComma, [c], p), p + 1)
    else if cat == CharDigit then
      var n := NumberScan(input, p, false);
      Scan(NewToken(TokenFloatNumber, n.digits, p).(Exp := n.exp), n.end)
    else if cat == CharLetter then
      var end := IdentEnd(input, p);
      var t := NewToken(TokenIdent, input[p..end], p);
      Scan(if CharAt(input, end) == '(' then t.(Type := TokenFunction) else t, end)
    else if cat == CharEOF then Scan(NewToken(TokenEOF, [], p), p + 1)
    else Scan(NewToken(TokenIllegal, ByteString(c), p), p + 1)
  }

  /** The tokens `NextToken` returns from `pos` on, up to (not including) the first EOF. */
  function TokensFrom(input: seq<Byte>, pos: nat, prev: TokenType): (toks: seq<Token>)
    requires |input| < MaxInt16
    ensures forall i :: 0 <= i < |toks| ==> ScannedKind(toks[i].Type) && toks[i].Type != TokenEOF
    decreases |input| + 1 - pos
  {
    var s := ScanToken(input, pos, prev);
    if s.tok.Type == TokenEOF then [] else [s.tok] + TokensFrom(input, s.next, s.tok.Type)
  }

  /** A scan that finds a token other than EOF puts it in front of the tokens after it. */
  lemma TokensFromStep(input: seq<Byte>, pos: nat, prev: TokenType, tok: Token, next: nat)
    requires |input| < MaxInt16
    requires ScanToken(input, pos, prev) == Scan(tok, next) && tok.Type != TokenEOF
    ensures TokensFrom(input, pos, prev) == [tok] + TokensFrom(input, next, tok.Type)
  {
  }

  /** The scan at which `Tokenize` stops: the first EOF or Illegal token from `pos` on. */
  function LexStop(input: seq<Byte>, pos: nat, prev: TokenType): (s: Scan)
    requires |input| < MaxInt16
    ensures s.tok.Type == TokenEOF || s.tok.Type == TokenIllegal
    decreases |input| + 1 - pos
  {
    var s := ScanToken(input, pos, prev);
    if s.tok.Type == TokenEOF || s.tok.Type == TokenIllegal then s
    else LexStop(input, s.next, s.tok.Type)
  }

  /** `Tokenize` stops at a scan that finds EOF or Illegal, and otherwise goes on after it. */
  lemma LexStopStep(input: seq<Byte>, pos: nat, prev: TokenType, tok: Token, next: nat)
    requires |input| < MaxInt16
    requires ScanToken(input, pos, prev) == Scan(tok, next)
    ensures LexStop(input, pos, prev)
            == if tok.Type == TokenEOF || tok.Type == TokenIllegal then Scan(tok, next)
               else LexStop(input, next, tok.Type)
  {
  }

  /**
   * What `Tokenize` returns: the tokens before the first EOF, or a failure at
   * the first Illegal one, reported at the offset just past it (where the
   * lexer stands once it has read the offending byte).
   */
  function TokenizeResult(toks: seq<Token>): (r: Result<seq<Token>>)
    ensures r.Ok? <==> forall i :: 0 <= i < |toks| ==> toks[i].Type != TokenIllegal
    ensures r.Ok? ==> r.value == toks
  {
    if toks == [] then Ok([])
    else if toks[0].Type == TokenIllegal then Err(IllegalToken(toks[0].Literal, toks[0].Position as int + 1))
    else match TokenizeResult(toks[1..])
         case Ok(rest) => Ok([toks[0]] + rest)
         case Err(e) => Err(e)
  }

  /** The initial previous token: an empty EOF token. */
  const StartToken: Token := Token(TokenEOF, 0, 0, [])

  class Lexer {
    const input: seq<Byte>
    var position: int
    var ch: Byte
    var prevToken: Token

    /** The current byte is the one at `position`; the input fits a 16-bit offset. */
    ghost predicate Valid()
      reads this
    {
      0 <= position && ch == CharAt(input, position) && |input| < MaxInt16
    }

    /** The struct the factory builds, before its first `NextChar`. */
    constructor Raw(input: seq<Byte>)
      requires |input| < MaxInt16
      ensures this.input == input && position == -1 && prevToken == StartToken
    {
      this.input := input;
      prevToken := StartToken;
      position := -1;
      ch := '\0';
    }

    /** Advances to the next byte; past the end the current byte is 0. */
    method NextChar()
      requires -1 <= position
      modifies this`position, this`ch
      ensures position == old(position) + 1 && ch == CharAt(input, position)
    {
      position := position + 1;
      if position >= |input| {
        ch := '\0';
      } else {
        ch := input[position];
      }
    }

    method SkipWhitespace()
      requires Valid()
      modifies this`position, this`ch
      ensures Valid() && position == WhitespaceEnd(input, old(position))
    {
      while IsWhitespace(ch)
        invariant Valid() && old(position) <= position
        invariant WhitespaceEnd(input, position) == WhitespaceEnd(input, old(position))
        decreases |input| - position
      {
        NextChar();
      }
    }

    /** Reads a run of letters and digits into an Ident token positioned at its first byte. */
    method ReadIdentifier() returns (tok: Token)
      requires Valid()
      modifies this`position, this`ch
      ensures Valid() && position == IdentEnd(input, old(position))
      ensures old(position) <= |input| ==> tok == NewToken(TokenIdent, input[old(position)..position], old(position))
      ensures old(position) > |input| ==> tok == NewToken(TokenIdent, [], old(position))
    {
      var beginPos := position;
      var buf: seq<Byte> := [];
      while IsLetter(ch) || IsDigit(ch)
        invariant Valid() && beginPos <= position
        invariant beginPos <= |input| ==> position <= |input| && buf == input[beginPos..position]
        invariant beginPos > |input| ==> position == beginPos && buf == []
        invariant IdentEnd(input, position) == IdentEnd(input, beginPos)
        decreases |input| - position
      {
        if beginPos <= |input| {
          assert position < |input| && ch == input[position];
          assert input[beginPos..position + 1] == buf + [ch];
        }
        buf := buf + [ch];
        NextChar();
      }
      tok := NewToken(TokenIdent, buf, beginPos);
    }

    /** Reads a number literal: its digits without the dot, and the count of digits after the dot. */
    method ReadNumber() returns (tok: Token)
      requires Valid()
      modifies this`position, this`ch
      ensures Valid()
      ensures var n := NumberScan(input, old(position), false);
              position == n.end && tok == NewToken(TokenFloatNumber, n.digits, old(position)).(Exp := n.exp)
    {
      var beginPos := position;
      var exp := 0;
      var digits: seq<Byte> := [];
      var tokenType := TokenIntNumber;
      NumberStart(input, beginPos);
      while IsDigit(ch) || IsDot(ch)
        invariant Valid() && beginPos <= position
        invariant tokenType == TokenIntNumber || tokenType == TokenFloatNumber
        invariant NumberSoFar(input, beginPos, position, tokenType == TokenFloatNumber, digits, exp)
        decreases |input| - position
      {
        if ch == '.' {
          if tokenType == TokenFloatNumber {
            break;
          }
          NumberDotStep(input, beginPos, position, digits, exp);
          tokenType := TokenFloatNumber;
          NextChar();
          continue;
        }
        NumberDigitStep(input, beginPos, position, tokenType == TokenFloatNumber, digits, exp);
        digits := digits + [ch];
        if tokenType == TokenFloatNumber {
          exp := exp + 1;
        }
        NextChar();
      }
      NumberStop(input, beginPos, position, tokenType == TokenFloatNumber, digits, exp);
      tok := NewToken(TokenFloatNumber, digits, beginPos);
      tok := tok.(Exp := exp);
    }

    /** Returns the next token and advances past it. */
    method NextToken() returns (tok: Token)
      requires Valid()
      modifies this
      ensures Valid()
      ensures Scan(tok, position) == ScanToken(input, old(position), old(prevToken.Type))
      ensures prevToken == tok
    {
      SkipWhitespace();
      match CharMap(ch) {
      case CharOperator =>
        if ch == '-' {
          var prevTokenType := prevToken.Type;
          if prevTokenType == TokenEOF || prevTokenType == TokenLeftParen
             || prevTokenType == TokenComma || prevTokenType == TokenOperator {
            tok := NewToken(TokenUnaryOperator, [ch], position);
          } else {
            tok := NewToken(TokenOperator, [ch], position);
          }
        } else {
          tok := NewToken(TokenOperator, [ch], position);
        }
      case CharLeftParen =>
        tok := NewToken(TokenLeftParen, [ch], position);
      case CharRightParen =>
        tok := NewToken(TokenRightParen, [ch], position);
      case CharComma =>
        tok := NewToken(TokenComma, [ch], position);
      case CharDigit =>
        tok := ReadNumber();
        prevToken := tok;
        return;
      case CharLetter =>
        tok := ReadIdentifier();
        if ch == '(' {
          tok := tok.(Type := TokenFunction);
        }
        prevToken := tok;
        return;
      case CharEOF =>
        tok := NewToken(TokenEOF, [], position);
      case _ =>
        tok := NewToken(TokenIllegal, ByteString(ch), position);
      }
      NextChar();
      prevToken := tok;
    }

    /** The tokens still to come once `tok` has been read and the scanner stands at `pos`. */
    ghost function Pending(tok: Token, pos: nat): seq<Token>
      reads this
      requires |input| < MaxInt16
    {
      if tok.Type == TokenEOF then [] else [tok] + TokensFrom(input, pos, tok.Type)
    }

    /** Where `Tokenize` stops once `tok` has been read and the scanner stands at `pos`. */
    ghost function StopAt(tok: Token, pos: nat): Scan
      reads this
      requires |input| < MaxInt16
    {
      if tok.Type == TokenEOF || tok.Type == TokenIllegal then Scan(tok, pos) else LexStop(input, pos, tok.Type)
    }

    /** `NextToken`, stated as one step of `TokensFrom` and of `LexStop`. */
    method Advance() returns (tok: Token)
      requires Valid()
      modifies this
      ensures Valid() && prevToken == tok
      ensures tok.Type != TokenEOF ==> old(position) < position <= |input|
      ensures TokensFrom(input, old(position), old(prevToken.Type)) == Pending(tok, position)
      ensures LexStop(input, old(position), old(prevToken.Type)) == StopAt(tok, position)
    {
      ghost var before, prev := position, prevToken.Type;
      tok := NextToken();
      LexStopStep(input, before, prev, tok, position);
      if tok.Type != TokenEOF {
        TokensFromStep(input, before, prev, tok, position);
      }
    }

    /**
     * Collects tokens up to the first EOF; the first Illegal token makes it
     * fail instead. The scanner is left just past the token that stopped it.
     */
    method Tokenize() returns (r: Result<seq<Token>>)
      requires Valid()
      modifies this
      ensures Valid()
      ensures r == TokenizeResult(TokensFrom(input, old(position), old(prevToken.Type)))
      ensures Scan(prevToken, position) == LexStop(input, old(position), old(prevToken.Type))
    {
      ghost var all := TokensFrom(input, position, prevToken.Type);
      ghost var stop := LexStop(input, position, prevToken.Type);
      var tokens: seq<Token> := [];
      var token := Advance();
      while token.Type != TokenEOF
        invariant Valid() && prevToken == token
        invariant token.Type != TokenEOF ==> position <= |input|
        invariant forall i :: 0 <= i < |tokens| ==> tokens[i].Type != TokenIllegal
        invariant all == tokens + Pending(token, position)
        invariant stop == StopAt(token, position)
        decreases if token.Type == TokenEOF then 0 else |input| + 1 - position
      {
        if token.Type == TokenIllegal {
          ConcatAssoc(tokens, [token], TokensFrom(input, position, token.Type));
          TokenizeIllegal(tokens, token, TokensFrom(input, position, token.Type));
          return Err(IllegalToken(token.Literal, token.Position as int + 1));
        }
        tokens := tokens + [token];
        token := Advance();
        ConcatAssoc(tokens[..|tokens| - 1], [tokens[|tokens| - 1]], Pending(token, position));
      }
      assert tokens + [] == tokens;
      TokenizeClean(tokens);
      r := Ok(tokens);
    }
  }

  lemma TokenizeClean(toks: seq<Token>)
    requires forall i :: 0 <= i < |toks| ==> toks[i].Type != TokenIllegal
    ensures TokenizeResult(toks) == Ok(toks)
  {
  }

  /** With no Illegal token before it, the first Illegal token decides the failure. */
  lemma {:induction false} TokenizeIllegal(clean: seq<Token>, bad: Token, rest: seq<Token>)
    requires forall i :: 0 <= i < |clean| ==> clean[i].Type != TokenIllegal
    requires bad.Type == TokenIllegal
    ensures TokenizeResult(clean + [bad] + rest) == Err(IllegalToken(bad.Literal, bad.Position as int + 1))
  {
    if clean != [] {
      assert (clean + [bad] + rest)[1..] == clean[1..] + [bad] + rest;
      TokenizeIllegal(clean[1..], bad, rest);
    }
  }

  /** `NewLexer`: fails for an input of 32767 bytes or more, otherwise starts at offset 0 after an EOF. */
  method NewLexer(input: seq<Byte>) returns (r: Result<Lexer>)
    ensures r.Err? <==> |input| >= MaxInt16
    ensures r.Err? ==> r.error == InputTooLong
    ensures r.Ok? ==> fresh(r.value) && r.value.Valid() && r.value.input == input
                      && r.value.position == 0 && r.value.prevToken == StartToken
  {
    if |input| >= MaxInt16 {
      return Err(InputTooLong);
    }
    var l := new Lexer.Raw(input);
    l.NextChar();
    return Ok(l);
  }
}
