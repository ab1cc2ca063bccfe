/**
 * Expressions from the parser's own test table, followed token by token:
 * operator priorities and left association, and argument counting in
 * nested calls. Each one is lexed, then run through `Step` and `Drain`.
 */
module ParsingExamples {
  import opened Common
  import opened CharClass
  import opened Tokens
  import opened Lexing
  import opened LexingProperties
  import opened Decimals
  import opened Items
  import opened Stacks
  import opened Parsing


  function Num(position: Int16, digits: Name): Token { Token(TokenFloatNumber, 0, position, digits) }
  function Op(position: Int16, op: Name): Token { Token(TokenOperator, 0, position, op) }

  function NumItem(position: Int16, digits: Name, value: int): RPNItem {
    RPNItem(Num(position, digits), 0, 0, Decimal(value, 0))
  }

  function OpItem(position: Int16, op: Name, priority: int): RPNItem {
    RPNItem(Op(position, op), priority, 0, ZeroValue)
  }

  function LP(position: Int16): Token { Token(TokenLeftParen, 0, position, "(") }
  function RP(position: Int16): Token { Token(TokenRightParen, 0, position, ")") }
  function Comma(position: Int16): Token { Token(TokenComma, 0, position, ",") }
  function Call(position: Int16, name: Name): Token { Token(TokenFunction, 0, position, name) }
  function NegTok(position: Int16): Token { Token(TokenUnaryOperator, 0, position, "-") }

  function LPItem(position: Int16): RPNItem { RPNItem(LP(position), 0, 0, ZeroValue) }
  function CallItem(position: Int16, name: Name, count: int): RPNItem { RPNItem(Call(position, name), FunctionPriority, count, ZeroValue) }
  function NegItem(position: Int16): RPNItem { RPNItem(NegTok(position), UnaryPriority, 0, ZeroValue) }

  // What one scan finds, by the byte at the first non-blank offset `p`.

  lemma ScanDigit(s: seq<Byte>, q: nat, p: nat, prev: TokenType)
    requires |s| < MaxInt16 && p < |s| && WhitespaceEnd(s, q) == p
    requires IsDigit(s[p]) && !IsDigit(CharAt(s, p + 1)) && !IsDot(CharAt(s, p + 1))
    ensures ScanToken(s, q, prev) == Scan(Num(p as Int16, [s[p]]), p + 1)
  {
    assert NumberScan(s, p + 1, false) == NumberLexeme([], 0, p + 1);
  }

  lemma ScanOp(s: seq<Byte>, q: nat, p: nat, prev: TokenType)
    requires |s| < MaxInt16 && p < |s| && WhitespaceEnd(s, q) == p
    requires IsOperatorChar(s[p]) && !(s[p] == '-' && UnaryContext(prev))
    ensures ScanToken(s, q, prev) == Scan(Op(p as Int16, [s[p]]), p + 1)
  {
  }

  lemma ScanNeg(s: seq<Byte>, q: nat, p: nat, prev: TokenType)
    requires |s| < MaxInt16 && p < |s| && WhitespaceEnd(s, q) == p
    requires s[p] == '-' && UnaryContext(prev)
    ensures ScanToken(s, q, prev) == Scan(NegTok(p as Int16), p + 1)
  {
  }

  lemma ScanPunct(s: seq<Byte>, q: nat, p: nat, prev: TokenType)
    requires |s| < MaxInt16 && p < |s| && WhitespaceEnd(s, q) == p
    ensures s[p] == '(' ==> ScanToken(s, q, prev) == Scan(LP(p as Int16), p + 1)
    ensures s[p] == ')' ==> ScanToken(s, q, prev) == Scan(RP(p as Int16), p + 1)
    ensures s[p] == ',' ==> ScanToken(s, q, prev) == Scan(Comma(p as Int16), p + 1)
  {
  }

  lemma ScanEnd(s: seq<Byte>, q: nat, prev: TokenType)
    requires |s| < MaxInt16 && WhitespaceEnd(s, q) == |s|
    ensures ScanToken(s, q, prev).tok.Type == TokenEOF
  {
  }

  /** An item other than a call leaves the stack for the output unchanged. */
  lemma PopPlain(fns: map<Name, int>, st: PState, item: RPNItem)
    requires st.stack != [] && st.stack[|st.stack| - 1] == item && item.token.Type != TokenFunction
    ensures PopToOutput(fns, st) == Ok(PState(st.output + [item], st.stack[..|st.stack| - 1], st.args))
  {
  }

  /** A call of a variadic function leaves the stack with the top counter as its argument count. */
  lemma PopCall(fns: map<Name, int>, st: PState, position: Int16, name: Name, below: seq<int>, count: int)
    requires st.stack != [] && st.stack[|st.stack| - 1] == CallItem(position, name, 0)
    requires st.args == below + [count] && name in fns && fns[name] <= 0
    ensures PopToOutput(fns, st) == Ok(PState(st.output + [CallItem(position, name, count)], st.stack[..|st.stack| - 1], below))
  {
    assert (below + [count])[..|below|] == below;
  }

  lemma DigitStep(fns: map<Name, int>, st: PState, position: Int16, d: Byte)
    requires '0' <= d <= '9'
    ensures Step(fns, st, Num(position, [d])) == Ok(st.(output := st.output + [NumItem(position, [d], d as int - '0' as int)]))
  {
    assert DigitsValue([d]) == d as int - '0' as int by { assert [d][..0] == []; }
    NumStep(fns, st, position, [d], d as int - '0' as int);
  }

  lemma NumStep(fns: map<Name, int>, st: PState, position: Int16, digits: Name, value: int)
    requires ParseInt64(digits) == Ok(value)
    ensures Step(fns, st, Num(position, digits)) == Ok(st.(output := st.output + [NumItem(position, digits, value)]))
  {
    assert NewRPNItem(Num(position, digits)) == Ok(NumItem(position, digits, value));
  }

  lemma OpStep(fns: map<Name, int>, st: PState, position: Int16, op: Name, mid: PState)
    requires op in OperatorPriority && PopWhileHigher(fns, st, OperatorPriority[op]) == Ok(mid)
    ensures Step(fns, st, Op(position, op)) == Ok(mid.(stack := mid.stack + [OpItem(position, op, OperatorPriority[op])]))
  {
    assert NewRPNItem(Op(position, op)) == Ok(OpItem(position, op, OperatorPriority[op]));
  }

  lemma NegStep(fns: map<Name, int>, st: PState, position: Int16, mid: PState)
    requires PopWhileHigher(fns, st, UnaryPriority) == Ok(mid)
    ensures Step(fns, st, NegTok(position)) == Ok(mid.(stack := mid.stack + [NegItem(position)]))
  {
  }

  lemma OpenStep(fns: map<Name, int>, st: PState, position: Int16)
    ensures Step(fns, st, LP(position)) == Ok(st.(stack := st.stack + [LPItem(position)]))
  {
  }

  lemma CallStep(fns: map<Name, int>, st: PState, position: Int16, name: Name)
    ensures Step(fns, st, Call(position, name)) == Ok(st.(stack := st.stack + [CallItem(position, name, 0)], args := st.args + [1]))
  {
  }

  lemma CloseStep(fns: map<Name, int>, st: PState, position: Int16, next: PState)
    requires CloseParen(fns, st, position as int) == Ok(next)
    ensures Step(fns, st, RP(position)) == Ok(next)
  {
  }

  lemma CommaStep(fns: map<Name, int>, st: PState, position: Int16, mid: PState)
    requires PopToLeftParen(fns, st) == Ok(mid)
    ensures Step(fns, st, Comma(position)) == Ok(mid.(args := IncTop(mid.args)))
  {
  }


  lemma ScanTwoDigits(s: seq<Byte>, q: nat, p: nat, prev: TokenType)
    requires |s| < MaxInt16 && p + 1 < |s| && WhitespaceEnd(s, q) == p
    requires IsDigit(s[p]) && IsDigit(s[p + 1]) && !IsDigit(CharAt(s, p + 2)) && !IsDot(CharAt(s, p + 2))
    ensures ScanToken(s, q, prev) == Scan(Num(p as Int16, s[p..p + 2]), p + 2)
  {
    assert NumberScan(s, p + 2, false) == NumberLexeme([], 0, p + 2);
    assert NumberScan(s, p + 1, false) == NumberLexeme([s[p + 1]], 0, p + 2);
    assert s[p..p + 2] == [s[p]] + [s[p + 1]];
  }

  lemma ScanCall3(s: seq<Byte>, q: nat, p: nat, prev: TokenType)
    requires |s| < MaxInt16 && p + 3 < |s| && WhitespaceEnd(s, q) == p
    requires IsLetter(s[p]) && IsLetter(s[p + 1]) && IsLetter(s[p + 2]) && s[p + 3] == '('
    ensures ScanToken(s, q, prev) == Scan(Call(p as Int16, s[p..p + 3]), p + 3)
  {
    assert IdentEnd(s, p + 3) == p + 3;
    assert IdentEnd(s, p + 1) == p + 3;
  }

  // "2^3^2": the second '^' pops the first, so '^' associates left.

  const PowText: seq<Byte> := "2^3^2"

  const Two0Tok: Token := Num(0, "2")
  const Pow1Tok: Token := Op(1, "^")
  const Three2Tok: Token := Num(2, "3")
  const Pow3Tok: Token := Op(3, "^")
  const Two4Tok: Token := Num(4, "2")
  const PowTokens: seq<Token> := [Two0Tok] + ([Pow1Tok] + ([Three2Tok] + ([Pow3Tok] + ([Two4Tok] + []))))

  lemma LexPow(s: seq<Byte>)
    requires s == PowText
    ensures Lex(s) == PowTokens
  {
    ScanDigit(s, 0, 0, TokenEOF);
    ScanOp(s, 1, 1, TokenFloatNumber);
    ScanDigit(s, 2, 2, TokenOperator);
    ScanOp(s, 3, 3, TokenFloatNumber);
    ScanDigit(s, 4, 4, TokenOperator);
    ScanEnd(s, 5, TokenFloatNumber);
    TokensFromStep(s, 4, TokenOperator, Two4Tok, 5);
    TokensFromStep(s, 3, TokenFloatNumber, Pow3Tok, 4);
    TokensFromStep(s, 2, TokenOperator, Three2Tok, 3);
    TokensFromStep(s, 1, TokenFloatNumber, Pow1Tok, 2);
    TokensFromStep(s, 0, TokenEOF, Two0Tok, 1);
  }

  const Two0: RPNItem := NumItem(0, "2", 2)
  const Pow1: RPNItem := OpItem(1, "^", 4)
  const Three2: RPNItem := NumItem(2, "3", 3)
  const Pow3: RPNItem := OpItem(3, "^", 4)
  const Two4: RPNItem := NumItem(4, "2", 2)

  const PowSt1: PState := PState([Two0], [], [])
  const PowSt2: PState := PState([Two0], [Pow1], [])
  const PowSt3: PState := PState([Two0, Three2], [Pow1], [])
  const PowSt4: PState := PState([Two0, Three2, Pow1], [Pow3], [])
  const PowSt5: PState := PState([Two0, Three2, Pow1, Two4], [Pow3], [])
  const PowProgram: seq<RPNItem> := [Two0, Three2, Pow1, Two4, Pow3]

  lemma PowStep1(fns: map<Name, int>)
    ensures Step(fns, Start, Two0Tok) == Ok(PowSt1)
  {
    DigitStep(fns, Start, 0, '2');
    assert [] + [Two0] == [Two0];
  }

  lemma PowStep2(fns: map<Name, int>)
    ensures Step(fns, PowSt1, Pow1Tok) == Ok(PowSt2)
  {
    assert OperatorPriority["^"] == 4;
    OpStep(fns, PowSt1, 1, "^", PowSt1);
    assert [] + [Pow1] == [Pow1];
  }

  lemma PowStep3(fns: map<Name, int>)
    ensures Step(fns, PowSt2, Three2Tok) == Ok(PowSt3)
  {
    DigitStep(fns, PowSt2, 2, '3');
    assert NumItem(2, ['3'], '3' as int - '0' as int) == Three2;
    assert PowSt2.(output := PowSt2.output + [Three2]) == PowSt3;
  }

  /** The second '^' meets the first on the stack with an equal priority and pops it. */
  lemma PowStep4(fns: map<Name, int>)
    ensures Step(fns, PowSt3, Pow3Tok) == Ok(PowSt4)
  {
    var popped := PState([Two0, Three2, Pow1], [], []);
    PopPlain(fns, PowSt3, Pow1);
    assert [Pow1][..0] == [] && [Two0, Three2] + [Pow1] == [Two0, Three2, Pow1];
    assert PopWhileHigher(fns, popped, 4) == Ok(popped);
    assert PopWhileHigher(fns, PowSt3, 4) == Ok(popped);
    assert OperatorPriority["^"] == 4;
    OpStep(fns, PowSt3, 3, "^", popped);
    assert [] + [Pow3] == [Pow3];
  }

  lemma PowStep5(fns: map<Name, int>)
    ensures Step(fns, PowSt4, Two4Tok) == Ok(PowSt5)
  {
    DigitStep(fns, PowSt4, 4, '2');
    assert [Two0, Three2, Pow1] + [Two4] == [Two0, Three2, Pow1, Two4];
  }

  lemma DrainPow(fns: map<Name, int>)
    ensures Drain(fns, PowSt5) == Ok(PowProgram)
  {
    PopPlain(fns, PowSt5, Pow3);
    assert [Pow3][..0] == [] && [Two0, Three2, Pow1, Two4] + [Pow3] == PowProgram;
  }

  lemma RunPow(fns: map<Name, int>)
    ensures forall k :: 0 <= k < |PowTokens| ==> InputKind(PowTokens[k].Type)
    ensures Run(fns, Start, PowTokens) == Ok(PowProgram)
  {
    PowStep1(fns);
    PowStep2(fns);
    PowStep3(fns);
    PowStep4(fns);
    PowStep5(fns);
    DrainPow(fns);
    RunCons(fns, PowSt4, Two4Tok, [], PowSt5);
    RunCons(fns, PowSt3, Pow3Tok, [Two4Tok] + [], PowSt4);
    RunCons(fns, PowSt2, Three2Tok, [Pow3Tok] + ([Two4Tok] + []), PowSt3);
    RunCons(fns, PowSt1, Pow1Tok, [Three2Tok] + ([Pow3Tok] + ([Two4Tok] + [])), PowSt2);
    RunCons(fns, Start, Two0Tok, [Pow1Tok] + ([Three2Tok] + ([Pow3Tok] + ([Two4Tok] + []))), PowSt1);
  }

  /** "2^3^2" parses to "2 3 ^ 2 ^": equal priorities associate left, '^' included. */
  lemma ParsePow(fns: map<Name, int>)
    ensures ParseSpec(fns, PowText) == Ok(PowProgram)
  {
    LexPow(PowText);
    RunPow(fns);
  }

  // "3 + 4 * 2 / (1 - 5)^2": '*' binds tighter than '+', '/' pops the
  // equal '*', the parentheses group "1 - 5", and '^' binds tighter than '/'.

  const PrecText: seq<Byte> := "3 + 4 * 2 / (1 - 5)^2"

  const Three0Tok: Token := Num(0, "3")
  const Plus2Tok: Token := Op(2, "+")
  const Four4Tok: Token := Num(4, "4")
  const Times6Tok: Token := Op(6, "*")
  const Two8Tok: Token := Num(8, "2")
  const Div10Tok: Token := Op(10, "/")
  const Open12Tok: Token := LP(12)
  const One13Tok: Token := Num(13, "1")
  const Minus15Tok: Token := Op(15, "-")
  const Five17Tok: Token := Num(17, "5")
  const Close18Tok: Token := RP(18)
  const Pow19Tok: Token := Op(19, "^")
  const Two20Tok: Token := Num(20, "2")

  // The tokens from the i-th on.
  const PrecFrom13: seq<Token> := []
  const PrecFrom12: seq<Token> := [Two20Tok] + PrecFrom13
  const PrecFrom11: seq<Token> := [Pow19Tok] + PrecFrom12
  const PrecFrom10: seq<Token> := [Close18Tok] + PrecFrom11
  const PrecFrom9: seq<Token> := [Five17Tok] + PrecFrom10
  const PrecFrom8: seq<Token> := [Minus15Tok] + PrecFrom9
  const PrecFrom7: seq<Token> := [One13Tok] + PrecFrom8
  const PrecFrom6: seq<Token> := [Open12Tok] + PrecFrom7
  const PrecFrom5: seq<Token> := [Div10Tok] + PrecFrom6
  const PrecFrom4: seq<Token> := [Two8Tok] + PrecFrom5
  const PrecFrom3: seq<Token> := [Times6Tok] + PrecFrom4
  const PrecFrom2: seq<Token> := [Four4Tok] + PrecFrom3
  const PrecFrom1: seq<Token> := [Plus2Tok] + PrecFrom2
  const PrecTokens: seq<Token> := [Three0Tok] + PrecFrom1

  lemma PrecChars(s: seq<Byte>)
    requires s == PrecText
    ensures |s| == 21
    ensures s[0] == '3' && s[1] == ' ' && s[2] == '+' && s[3] == ' ' && s[4] == '4' && s[5] == ' '
    ensures s[6] == '*' && s[7] == ' ' && s[8] == '2' && s[9] == ' ' && s[10] == '/' && s[11] == ' '
    ensures s[12] == '(' && s[13] == '1' && s[14] == ' ' && s[15] == '-' && s[16] == ' ' && s[17] == '5'
    ensures s[18] == ')' && s[19] == '^' && s[20] == '2'
  {
  }

  lemma ScanPrec1(s: seq<Byte>)
    requires |s| == 21 && s[0] == '3' && s[1] == ' ' && s[2] == '+' && s[3] == ' '
    ensures ScanToken(s, 0, TokenEOF) == Scan(Three0Tok, 1)
    ensures ScanToken(s, 1, TokenFloatNumber) == Scan(Plus2Tok, 3)
  {
    ScanDigit(s, 0, 0, TokenEOF);
    ScanOp(s, 1, 2, TokenFloatNumber);
  }

  lemma ScanPrec2(s: seq<Byte>)
    requires |s| == 21 && s[3] == ' ' && s[4] == '4' && s[5] == ' ' && s[6] == '*' && s[7] == ' '
    ensures ScanToken(s, 3, TokenOperator) == Scan(Four4Tok, 5)
    ensures ScanToken(s, 5, TokenFloatNumber) == Scan(Times6Tok, 7)
  {
    ScanDigit(s, 3, 4, TokenOperator);
    ScanOp(s, 5, 6, TokenFloatNumber);
  }

  lemma ScanPrec3(s: seq<Byte>)
    requires |s| == 21 && s[7] == ' ' && s[8] == '2' && s[9] == ' ' && s[10] == '/' && s[11] == ' '
    ensures ScanToken(s, 7, TokenOperator) == Scan(Two8Tok, 9)
    ensures ScanToken(s, 9, TokenFloatNumber) == Scan(Div10Tok, 11)
  {
    ScanDigit(s, 7, 8, TokenOperator);
    ScanOp(s, 9, 10, TokenFloatNumber);
  }

  lemma ScanPrec4(s: seq<Byte>)
    requires |s| == 21 && s[11] == ' ' && s[12] == '(' && s[13] == '1' && s[14] == ' '
    ensures ScanToken(s, 11, TokenOperator) == Scan(Open12Tok, 13)
    ensures ScanToken(s, 13, TokenLeftParen) == Scan(One13Tok, 14)
  {
    ScanPunct(s, 11, 12, TokenOperator);
    ScanDigit(s, 13, 13, TokenLeftParen);
  }

  lemma ScanPrec5(s: seq<Byte>)
    requires |s| == 21 && s[14] == ' ' && s[15] == '-' && s[16] == ' ' && s[17] == '5' && s[18] == ')'
    ensures ScanToken(s, 14, TokenFloatNumber) == Scan(Minus15Tok, 16)
    ensures ScanToken(s, 16, TokenOperator) == Scan(Five17Tok, 18)
  {
    ScanOp(s, 14, 15, TokenFloatNumber);
    ScanDigit(s, 16, 17, TokenOperator);
  }

  lemma ScanPrec6(s: seq<Byte>)
    requires |s| == 21 && s[18] == ')' && s[19] == '^' && s[20] == '2'
    ensures ScanToken(s, 18, TokenFloatNumber) == Scan(Close18Tok, 19)
    ensures ScanToken(s, 19, TokenRightParen) == Scan(Pow19Tok, 20)
    ensures ScanToken(s, 20, TokenOperator) == Scan(Two20Tok, 21)
    ensures ScanToken(s, 21, TokenFloatNumber).tok.Type == TokenEOF
  {
    ScanPunct(s, 18, 18, TokenFloatNumber);
    ScanOp(s, 19, 19, TokenRightParen);
    ScanDigit(s, 20, 20, TokenOperator);
    ScanEnd(s, 21, TokenFloatNumber);
  }

  lemma LexPrecBack(s: seq<Byte>)
    requires s == PrecText
    ensures TokensFrom(s, 13, TokenLeftParen) == PrecFrom7
  {
    PrecChars(s);
    ScanPrec4(s);
    ScanPrec5(s);
    ScanPrec6(s);
    TokensFromStep(s, 20, TokenOperator, Two20Tok, 21);
    TokensFromStep(s, 19, TokenRightParen, Pow19Tok, 20);
    TokensFromStep(s, 18, TokenFloatNumber, Close18Tok, 19);
    TokensFromStep(s, 16, TokenOperator, Five17Tok, 18);
    TokensFromStep(s, 14, TokenFloatNumber, Minus15Tok, 16);
    TokensFromStep(s, 13, TokenLeftParen, One13Tok, 14);
  }

  lemma LexPrec(s: seq<Byte>)
    requires s == PrecText
    ensures Lex(s) == PrecTokens
  {
    PrecChars(s);
    ScanPrec1(s);
    ScanPrec2(s);
    ScanPrec3(s);
    ScanPrec4(s);
    LexPrecBack(s);
    TokensFromStep(s, 11, TokenOperator, Open12Tok, 13);
    TokensFromStep(s, 9, TokenFloatNumber, Div10Tok, 11);
    TokensFromStep(s, 7, TokenOperator, Two8Tok, 9);
    TokensFromStep(s, 5, TokenFloatNumber, Times6Tok, 7);
    TokensFromStep(s, 3, TokenOperator, Four4Tok, 5);
    TokensFromStep(s, 1, TokenFloatNumber, Plus2Tok, 3);
    TokensFromStep(s, 0, TokenEOF, Three0Tok, 1);
  }

  const Three0: RPNItem := NumItem(0, "3", 3)
  const Plus2: RPNItem := OpItem(2, "+", 1)
  const Four4: RPNItem := NumItem(4, "4", 4)
  const Times6: RPNItem := OpItem(6, "*", 2)
  const Two8: RPNItem := NumItem(8, "2", 2)
  const Div10: RPNItem := OpItem(10, "/", 2)
  const Open12: RPNItem := LPItem(12)
  const One13: RPNItem := NumItem(13, "1", 1)
  const Minus15: RPNItem := OpItem(15, "-", 1)
  const Five17: RPNItem := NumItem(17, "5", 5)
  const Pow19: RPNItem := OpItem(19, "^", 4)
  const Two20: RPNItem := NumItem(20, "2", 2)

  // The program as it grows.
  const PrecOut1: seq<RPNItem> := [Three0]
  const PrecOut3: seq<RPNItem> := PrecOut1 + [Four4]
  const PrecOut5: seq<RPNItem> := PrecOut3 + [Two8]
  const PrecOut6: seq<RPNItem> := PrecOut5 + [Times6]
  const PrecOut8: seq<RPNItem> := PrecOut6 + [One13]
  const PrecOut10: seq<RPNItem> := PrecOut8 + [Five17]
  const PrecOut11: seq<RPNItem> := PrecOut10 + [Minus15]
  const PrecOut13: seq<RPNItem> := PrecOut11 + [Two20]

  // The state after each token.
  const PrecSt1: PState := PState(PrecOut1, [], [])
  const PrecSt2: PState := PState(PrecOut1, [Plus2], [])
  const PrecSt3: PState := PState(PrecOut3, [Plus2], [])
  const PrecSt4: PState := PState(PrecOut3, [Plus2, Times6], [])
  const PrecSt5: PState := PState(PrecOut5, [Plus2, Times6], [])
  const PrecSt6: PState := PState(PrecOut6, [Plus2, Div10], [])
  const PrecSt7: PState := PState(PrecOut6, [Plus2, Div10, Open12], [])
  const PrecSt8: PState := PState(PrecOut8, [Plus2, Div10, Open12], [])
  const PrecSt9: PState := PState(PrecOut8, [Plus2, Div10, Open12, Minus15], [])
  const PrecSt10: PState := PState(PrecOut10, [Plus2, Div10, Open12, Minus15], [])
  const PrecSt11: PState := PState(PrecOut11, [Plus2, Div10], [])
  const PrecSt12: PState := PState(PrecOut11, [Plus2, Div10, Pow19], [])
  const PrecSt13: PState := PState(PrecOut13, [Plus2, Div10, Pow19], [])

  const PrecProgram: seq<RPNItem> := [Three0, Four4, Two8, Times6, One13, Five17, Minus15, Two20, Pow19, Div10, Plus2]

  lemma PrecStep1(fns: map<Name, int>)
    ensures Step(fns, Start, Three0Tok) == Ok(PrecSt1)
  {
    DigitStep(fns, Start, 0, '3');
    assert [] + [Three0] == [Three0];
  }

  /** '+' meets an empty stack and is stacked. */
  lemma PrecStep2(fns: map<Name, int>)
    ensures Step(fns, PrecSt1, Plus2Tok) == Ok(PrecSt2)
  {
    assert OperatorPriority["+"] == 1;
    assert PopWhileHigher(fns, PrecSt1, 1) == Ok(PrecSt1);
    OpStep(fns, PrecSt1, 2, "+", PrecSt1);
    assert [] + [Plus2] == [Plus2];
  }

  lemma PrecStep3(fns: map<Name, int>)
    ensures Step(fns, PrecSt2, Four4Tok) == Ok(PrecSt3)
  {
    DigitStep(fns, PrecSt2, 4, '4');
  }

  /** '*' goes above '+' because it binds tighter. */
  lemma PrecStep4(fns: map<Name, int>)
    ensures Step(fns, PrecSt3, Times6Tok) == Ok(PrecSt4)
  {
    assert OperatorPriority["*"] == 2;
    assert PopWhileHigher(fns, PrecSt3, 2) == Ok(PrecSt3);
    OpStep(fns, PrecSt3, 6, "*", PrecSt3);
    assert [Plus2] + [Times6] == [Plus2, Times6];
  }

  lemma PrecStep5(fns: map<Name, int>)
    ensures Step(fns, PrecSt4, Two8Tok) == Ok(PrecSt5)
  {
    DigitStep(fns, PrecSt4, 8, '2');
  }

  /** '/' pops the '*' of equal priority but not the '+'. */
  lemma PrecStep6(fns: map<Name, int>)
    ensures Step(fns, PrecSt5, Div10Tok) == Ok(PrecSt6)
  {
    assert OperatorPriority["/"] == 2;
    var popped := PState(PrecOut6, [Plus2], []);
    PopPlain(fns, PrecSt5, Times6);
    assert [Plus2, Times6][..1] == [Plus2];
    assert PopWhileHigher(fns, popped, 2) == Ok(popped);
    assert PopWhileHigher(fns, PrecSt5, 2) == Ok(popped);
    OpStep(fns, PrecSt5, 10, "/", popped);
    assert [Plus2] + [Div10] == [Plus2, Div10];
  }

  lemma PrecStep7(fns: map<Name, int>)
    ensures Step(fns, PrecSt6, Open12Tok) == Ok(PrecSt7)
  {
    OpenStep(fns, PrecSt6, 12);
    assert [Plus2, Div10] + [Open12] == [Plus2, Div10, Open12];
  }

  lemma PrecStep8(fns: map<Name, int>)
    ensures Step(fns, PrecSt7, One13Tok) == Ok(PrecSt8)
  {
    DigitStep(fns, PrecSt7, 13, '1');
  }

  /** '-' goes above the left parenthesis, whose priority is 0. */
  lemma PrecStep9(fns: map<Name, int>)
    ensures Step(fns, PrecSt8, Minus15Tok) == Ok(PrecSt9)
  {
    assert OperatorPriority["-"] == 1;
    assert PopWhileHigher(fns, PrecSt8, 1) == Ok(PrecSt8);
    OpStep(fns, PrecSt8, 15, "-", PrecSt8);
    assert [Plus2, Div10, Open12] + [Minus15] == [Plus2, Div10, Open12, Minus15];
  }

  lemma PrecStep10(fns: map<Name, int>)
    ensures Step(fns, PrecSt9, Five17Tok) == Ok(PrecSt10)
  {
    DigitStep(fns, PrecSt9, 17, '5');
  }

  /** ')' pops '-' and removes its parenthesis. */
  lemma PrecStep11(fns: map<Name, int>)
    ensures Step(fns, PrecSt10, Close18Tok) == Ok(PrecSt11)
  {
    var popped := PState(PrecOut11, [Plus2, Div10, Open12], []);
    PopPlain(fns, PrecSt10, Minus15);
    assert [Plus2, Div10, Open12, Minus15][..3] == [Plus2, Div10, Open12];
    assert [Plus2, Div10, Open12][..2] == [Plus2, Div10];
    assert CloseParen(fns, popped, 18) == Ok(PrecSt11);
    assert CloseParen(fns, PrecSt10, 18) == Ok(PrecSt11);
    CloseStep(fns, PrecSt10, 18, PrecSt11);
  }

  /** '^' binds tighter than '/' and is stacked above it. */
  lemma PrecStep12(fns: map<Name, int>)
    ensures Step(fns, PrecSt11, Pow19Tok) == Ok(PrecSt12)
  {
    assert OperatorPriority["^"] == 4;
    assert PopWhileHigher(fns, PrecSt11, 4) == Ok(PrecSt11);
    OpStep(fns, PrecSt11, 19, "^", PrecSt11);
    assert [Plus2, Div10] + [Pow19] == [Plus2, Div10, Pow19];
  }

  lemma PrecStep13(fns: map<Name, int>)
    ensures Step(fns, PrecSt12, Two20Tok) == Ok(PrecSt13)
  {
    DigitStep(fns, PrecSt12, 20, '2');
  }

  /** At the end the stack empties top first: '^', then '/', then '+'. */
  lemma DrainPrec(fns: map<Name, int>)
    ensures Drain(fns, PrecSt13) == Ok(PrecProgram)
  {
    var a := PState(PrecOut13 + [Pow19], [Plus2, Div10], []);
    var b := PState(PrecOut13 + [Pow19, Div10], [Plus2], []);
    var c := PState(PrecOut13 + [Pow19, Div10, Plus2], [], []);
    assert [Plus2, Div10, Pow19][..2] == [Plus2, Div10] && [Plus2, Div10][..1] == [Plus2] && [Plus2][..0] == [];
    assert (PrecOut13 + [Pow19]) + [Div10] == PrecOut13 + [Pow19, Div10];
    assert (PrecOut13 + [Pow19, Div10]) + [Plus2] == PrecOut13 + [Pow19, Div10, Plus2];
    PopPlain(fns, PrecSt13, Pow19);
    PopPlain(fns, a, Div10);
    PopPlain(fns, b, Plus2);
    assert Drain(fns, c) == Ok(c.output);
    assert Drain(fns, b) == Ok(c.output);
    assert Drain(fns, a) == Ok(c.output);
    assert PrecOut13 + [Pow19, Div10, Plus2] == PrecProgram;
  }

  lemma RunPrecBack(fns: map<Name, int>)
    ensures forall k :: 0 <= k < |PrecFrom7| ==> InputKind(PrecFrom7[k].Type)
    ensures Run(fns, PrecSt7, PrecFrom7) == Ok(PrecProgram)
  {
    PrecStep8(fns);
    PrecStep9(fns);
    PrecStep10(fns);
    PrecStep11(fns);
    PrecStep12(fns);
    PrecStep13(fns);
    DrainPrec(fns);
    RunCons(fns, PrecSt12, Two20Tok, PrecFrom13, PrecSt13);
    RunCons(fns, PrecSt11, Pow19Tok, PrecFrom12, PrecSt12);
    RunCons(fns, PrecSt10, Close18Tok, PrecFrom11, PrecSt11);
    RunCons(fns, PrecSt9, Five17Tok, PrecFrom10, PrecSt10);
    RunCons(fns, PrecSt8, Minus15Tok, PrecFrom9, PrecSt9);
    RunCons(fns, PrecSt7, One13Tok, PrecFrom8, PrecSt8);
  }

  lemma RunPrec(fns: map<Name, int>)
    ensures forall k :: 0 <= k < |PrecTokens| ==> InputKind(PrecTokens[k].Type)
    ensures Run(fns, Start, PrecTokens) == Ok(PrecProgram)
  {
    PrecStep1(fns);
    PrecStep2(fns);
    PrecStep3(fns);
    PrecStep4(fns);
    PrecStep5(fns);
    PrecStep6(fns);
    PrecStep7(fns);
    RunPrecBack(fns);
    RunCons(fns, PrecSt6, Open12Tok, PrecFrom7, PrecSt7);
    RunCons(fns, PrecSt5, Div10Tok, PrecFrom6, PrecSt6);
    RunCons(fns, PrecSt4, Two8Tok, PrecFrom5, PrecSt5);
    RunCons(fns, PrecSt3, Times6Tok, PrecFrom4, PrecSt4);
    RunCons(fns, PrecSt2, Four4Tok, PrecFrom3, PrecSt3);
    RunCons(fns, PrecSt1, Plus2Tok, PrecFrom2, PrecSt2);
    RunCons(fns, Start, Three0Tok, PrecFrom1, PrecSt1);
  }

  /**
   * "3 + 4 * 2 / (1 - 5)^2" parses to "3 4 2 * 1 5 - 2 ^ / +", for any
   * arity table (the expression has no call).
   */
  lemma ParsePrec(fns: map<Name, int>)
    ensures ParseSpec(fns, PrecText) == Ok(PrecProgram)
  {
    LexPrec(PrecText);
    RunPrec(fns);
  }

  // "sum(1 +5 , max(3,10), min(5, -6))": each call counts the commas met
  // while it is the innermost open call, and leaves with that count plus one.

  const SumHead: seq<Byte> := "sum(1 +5 , max(3,"
  const SumText: seq<Byte> := SumHead + "10), min(5, -6))"

  /** The three functions of the expression are known and take any number of arguments. */
  predicate VariadicCalls(fns: map<Name, int>) {
    && "sum" in fns && fns["sum"] <= 0
    && "max" in fns && fns["max"] <= 0
    && "min" in fns && fns["min"] <= 0
  }

  const Sum0Tok: Token := Call(0, "sum")
  const Open3Tok: Token := LP(3)
  const One4Tok: Token := Num(4, "1")
  const Plus6Tok: Token := Op(6, "+")
  const Five7Tok: Token := Num(7, "5")
  const Comma9Tok: Token := Comma(9)
  const Max11Tok: Token := Call(11, "max")
  const Open14Tok: Token := LP(14)
  const Three15Tok: Token := Num(15, "3")
  const Comma16Tok: Token := Comma(16)
  const Ten17Tok: Token := Num(17, "10")
  const Close19Tok: Token := RP(19)
  const Comma20Tok: Token := Comma(20)
  const Min22Tok: Token := Call(22, "min")
  const Open25Tok: Token := LP(25)
  const Five26Tok: Token := Num(26, "5")
  const Comma27Tok: Token := Comma(27)
  const Neg29Tok: Token := NegTok(29)
  const Six30Tok: Token := Num(30, "6")
  const Close31Tok: Token := RP(31)
  const Close32Tok: Token := RP(32)

  // The tokens from the i-th on.
  const SumFrom21: seq<Token> := []
  const SumFrom20: seq<Token> := [Close32Tok] + SumFrom21
  const SumFrom19: seq<Token> := [Close31Tok] + SumFrom20
  const SumFrom18: seq<Token> := [Six30Tok] + SumFrom19
  const SumFrom17: seq<Token> := [Neg29Tok] + SumFrom18
  const SumFrom16: seq<Token> := [Comma27Tok] + SumFrom17
  const SumFrom15: seq<Token> := [Five26Tok] + SumFrom16
  const SumFrom14: seq<Token> := [Open25Tok] + SumFrom15
  const SumFrom13: seq<Token> := [Min22Tok] + SumFrom14
  const SumFrom12: seq<Token> := [Comma20Tok] + SumFrom13
  const SumFrom11: seq<Token> := [Close19Tok] + SumFrom12
  const SumFrom10: seq<Token> := [Ten17Tok] + SumFrom11
  const SumFrom9: seq<Token> := [Comma16Tok] + SumFrom10
  const SumFrom8: seq<Token> := [Three15Tok] + SumFrom9
  const SumFrom7: seq<Token> := [Open14Tok] + SumFrom8
  const SumFrom6: seq<Token> := [Max11Tok] + SumFrom7
  const SumFrom5: seq<Token> := [Comma9Tok] + SumFrom6
  const SumFrom4: seq<Token> := [Five7Tok] + SumFrom5
  const SumFrom3: seq<Token> := [Plus6Tok] + SumFrom4
  const SumFrom2: seq<Token> := [One4Tok] + SumFrom3
  const SumFrom1: seq<Token> := [Open3Tok] + SumFrom2
  const SumTokens: seq<Token> := [Sum0Tok] + SumFrom1

  lemma SumCharsHead(s: seq<Byte>)
    requires s == SumText
    ensures |s| == 33
    ensures s[0] == 's' && s[1] == 'u' && s[2] == 'm' && s[3] == '(' && s[4] == '1' && s[5] == ' '
    ensures s[6] == '+' && s[7] == '5' && s[8] == ' ' && s[9] == ',' && s[10] == ' ' && s[11] == 'm'
    ensures s[12] == 'a' && s[13] == 'x' && s[14] == '(' && s[15] == '3' && s[16] == ','
  {
    assert s[..17] == SumHead;
  }

  lemma SumCharsTail(s: seq<Byte>)
    requires s == SumText
    ensures s[17] == '1' && s[18] == '0' && s[19] == ')' && s[20] == ',' && s[21] == ' ' && s[22] == 'm'
    ensures s[23] == 'i' && s[24] == 'n' && s[25] == '(' && s[26] == '5' && s[27] == ',' && s[28] == ' '
    ensures s[29] == '-' && s[30] == '6' && s[31] == ')' && s[32] == ')'
  {
  }

  lemma ScanSum1(s: seq<Byte>)
    requires |s| == 33 && s[0] == 's' && s[1] == 'u' && s[2] == 'm' && s[3] == '('
    ensures ScanToken(s, 0, TokenEOF) == Scan(Sum0Tok, 3)
  {
    ScanCall3(s, 0, 0, TokenEOF);
    assert s[0..3] == "sum";
  }

  lemma ScanSum2(s: seq<Byte>)
    requires |s| == 33 && s[3] == '(' && s[4] == '1' && s[5] == ' ' && s[6] == '+' && s[7] == '5'
    ensures ScanToken(s, 3, TokenFunction) == Scan(Open3Tok, 4)
    ensures ScanToken(s, 4, TokenLeftParen) == Scan(One4Tok, 5)
    ensures ScanToken(s, 5, TokenFloatNumber) == Scan(Plus6Tok, 7)
  {
    ScanPunct(s, 3, 3, TokenFunction);
    ScanDigit(s, 4, 4, TokenLeftParen);
    ScanOp(s, 5, 6, TokenFloatNumber);
  }

  lemma ScanSum3(s: seq<Byte>)
    requires |s| == 33 && s[7] == '5' && s[8] == ' ' && s[9] == ',' && s[10] == ' '
    ensures ScanToken(s, 7, TokenOperator) == Scan(Five7Tok, 8)
    ensures ScanToken(s, 8, TokenFloatNumber) == Scan(Comma9Tok, 10)
  {
    ScanDigit(s, 7, 7, TokenOperator);
    ScanPunct(s, 8, 9, TokenFloatNumber);
  }

  lemma ScanSum4(s: seq<Byte>)
    requires |s| == 33 && s[10] == ' ' && s[11] == 'm' && s[12] == 'a' && s[13] == 'x' && s[14] == '('
    ensures ScanToken(s, 10, TokenComma) == Scan(Max11Tok, 14)
  {
    ScanCall3(s, 10, 11, TokenComma);
    assert s[11..14] == "max";
  }

  lemma ScanSum5(s: seq<Byte>)
    requires |s| == 33 && s[14] == '(' && s[15] == '3' && s[16] == ',' && s[17] == '1'
    ensures ScanToken(s, 14, TokenFunction) == Scan(Open14Tok, 15)
    ensures ScanToken(s, 15, TokenLeftParen) == Scan(Three15Tok, 16)
    ensures ScanToken(s, 16, TokenFloatNumber) == Scan(Comma16Tok, 17)
  {
    ScanPunct(s, 14, 14, TokenFunction);
    ScanDigit(s, 15, 15, TokenLeftParen);
    ScanPunct(s, 16, 16, TokenFloatNumber);
  }

  lemma ScanSum6(s: seq<Byte>)
    requires |s| == 33 && s[17] == '1' && s[18] == '0' && s[19] == ')' && s[20] == ',' && s[21] == ' '
    ensures ScanToken(s, 17, TokenComma) == Scan(Ten17Tok, 19)
    ensures ScanToken(s, 19, TokenFloatNumber) == Scan(Close19Tok, 20)
    ensures ScanToken(s, 20, TokenRightParen) == Scan(Comma20Tok, 21)
  {
    ScanTwoDigits(s, 17, 17, TokenComma);
    assert s[17..19] == "10";
    ScanPunct(s, 19, 19, TokenFloatNumber);
    ScanPunct(s, 20, 20, TokenRightParen);
  }

  lemma ScanSum7(s: seq<Byte>)
    requires |s| == 33 && s[21] == ' ' && s[22] == 'm' && s[23] == 'i' && s[24] == 'n' && s[25] == '('
    ensures ScanToken(s, 21, TokenComma) == Scan(Min22Tok, 25)
  {
    ScanCall3(s, 21, 22, TokenComma);
    assert s[22..25] == "min";
  }

  lemma ScanSum8(s: seq<Byte>)
    requires |s| == 33 && s[25] == '(' && s[26] == '5' && s[27] == ',' && s[28] == ' '
    ensures ScanToken(s, 25, TokenFunction) == Scan(Open25Tok, 26)
    ensures ScanToken(s, 26, TokenLeftParen) == Scan(Five26Tok, 27)
    ensures ScanToken(s, 27, TokenFloatNumber) == Scan(Comma27Tok, 28)
  {
    ScanPunct(s, 25, 25, TokenFunction);
    ScanDigit(s, 26, 26, TokenLeftParen);
    ScanPunct(s, 27, 27, TokenFloatNumber);
  }

  lemma ScanSum9(s: seq<Byte>)
    requires |s| == 33 && s[28] == ' ' && s[29] == '-' && s[30] == '6' && s[31] == ')' && s[32] == ')'
    ensures ScanToken(s, 28, TokenComma) == Scan(Neg29Tok, 30)
    ensures ScanToken(s, 30, TokenUnaryOperator) == Scan(Six30Tok, 31)
    ensures ScanToken(s, 31, TokenFloatNumber) == Scan(Close31Tok, 32)
    ensures ScanToken(s, 32, TokenRightParen) == Scan(Close32Tok, 33)
    ensures ScanToken(s, 33, TokenRightParen).tok.Type == TokenEOF
  {
    ScanNeg(s, 28, 29, TokenComma);
    ScanDigit(s, 30, 30, TokenUnaryOperator);
    ScanPunct(s, 31, 31, TokenFloatNumber);
    ScanPunct(s, 32, 32, TokenRightParen);
    ScanEnd(s, 33, TokenRightParen);
  }

  lemma LexSumBack(s: seq<Byte>)
    requires s == SumText
    ensures TokensFrom(s, 17, TokenComma) == SumFrom10
  {
    SumCharsHead(s);
    SumCharsTail(s);
    ScanSum6(s);
    ScanSum7(s);
    ScanSum8(s);
    ScanSum9(s);
    TokensFromStep(s, 32, TokenRightParen, Close32Tok, 33);
    TokensFromStep(s, 31, TokenFloatNumber, Close31Tok, 32);
    TokensFromStep(s, 30, TokenUnaryOperator, Six30Tok, 31);
    TokensFromStep(s, 28, TokenComma, Neg29Tok, 30);
    TokensFromStep(s, 27, TokenFloatNumber, Comma27Tok, 28);
    TokensFromStep(s, 26, TokenLeftParen, Five26Tok, 27);
    TokensFromStep(s, 25, TokenFunction, Open25Tok, 26);
    TokensFromStep(s, 21, TokenComma, Min22Tok, 25);
    TokensFromStep(s, 20, TokenRightParen, Comma20Tok, 21);
    TokensFromStep(s, 19, TokenFloatNumber, Close19Tok, 20);
    TokensFromStep(s, 17, TokenComma, Ten17Tok, 19);
  }

  lemma LexSum(s: seq<Byte>)
    requires s == SumText
    ensures Lex(s) == SumTokens
  {
    SumCharsHead(s);
    SumCharsTail(s);
    ScanSum1(s);
    ScanSum2(s);
    ScanSum3(s);
    ScanSum4(s);
    ScanSum5(s);
    LexSumBack(s);
    TokensFromStep(s, 16, TokenFloatNumber, Comma16Tok, 17);
    TokensFromStep(s, 15, TokenLeftParen, Three15Tok, 16);
    TokensFromStep(s, 14, TokenFunction, Open14Tok, 15);
    TokensFromStep(s, 10, TokenComma, Max11Tok, 14);
    TokensFromStep(s, 8, TokenFloatNumber, Comma9Tok, 10);
    TokensFromStep(s, 7, TokenOperator, Five7Tok, 8);
    TokensFromStep(s, 5, TokenFloatNumber, Plus6Tok, 7);
    TokensFromStep(s, 4, TokenLeftParen, One4Tok, 5);
    TokensFromStep(s, 3, TokenFunction, Open3Tok, 4);
    TokensFromStep(s, 0, TokenEOF, Sum0Tok, 3);
  }

  const Sum0: RPNItem := CallItem(0, "sum", 0)
  const Open3: RPNItem := LPItem(3)
  const One4: RPNItem := NumItem(4, "1", 1)
  const Plus6: RPNItem := OpItem(6, "+", 1)
  const Five7: RPNItem := NumItem(7, "5", 5)
  const Max11: RPNItem := CallItem(11, "max", 0)
  const Open14: RPNItem := LPItem(14)
  const Three15: RPNItem := NumItem(15, "3", 3)
  const Ten17: RPNItem := NumItem(17, "10", 10)
  const Min22: RPNItem := CallItem(22, "min", 0)
  const Open25: RPNItem := LPItem(25)
  const Five26: RPNItem := NumItem(26, "5", 5)
  const Neg29: RPNItem := NegItem(29)
  const Six30: RPNItem := NumItem(30, "6", 6)

  // The calls as they reach the output, with their argument counts.
  const Max11Out: RPNItem := CallItem(11, "max", 2)
  const Min22Out: RPNItem := CallItem(22, "min", 2)
  const Sum0Out: RPNItem := CallItem(0, "sum", 3)

  // The program as it grows.
  const SumOut3: seq<RPNItem> := [One4]
  const SumOut5: seq<RPNItem> := SumOut3 + [Five7]
  const SumOut6: seq<RPNItem> := SumOut5 + [Plus6]
  const SumOut9: seq<RPNItem> := SumOut6 + [Three15]
  const SumOut11: seq<RPNItem> := SumOut9 + [Ten17]
  const SumOut13: seq<RPNItem> := SumOut11 + [Max11Out]
  const SumOut16: seq<RPNItem> := SumOut13 + [Five26]
  const SumOut19: seq<RPNItem> := SumOut16 + [Six30]
  const SumOut20: seq<RPNItem> := SumOut19 + [Neg29]
  const SumOut21: seq<RPNItem> := SumOut20 + [Min22Out]

  // The state after each token; the last component holds one counter per open call.
  const SumSt1: PState := PState([], [Sum0], [1])
  const SumSt2: PState := PState([], [Sum0, Open3], [1])
  const SumSt3: PState := PState(SumOut3, [Sum0, Open3], [1])
  const SumSt4: PState := PState(SumOut3, [Sum0, Open3, Plus6], [1])
  const SumSt5: PState := PState(SumOut5, [Sum0, Open3, Plus6], [1])
  const SumSt6: PState := PState(SumOut6, [Sum0, Open3], [2])
  const SumSt7: PState := PState(SumOut6, [Sum0, Open3, Max11], [2, 1])
  const SumSt8: PState := PState(SumOut6, [Sum0, Open3, Max11, Open14], [2, 1])
  const SumSt9: PState := PState(SumOut9, [Sum0, Open3, Max11, Open14], [2, 1])
  const SumSt10: PState := PState(SumOut9, [Sum0, Open3, Max11, Open14], [2, 2])
  const SumSt11: PState := PState(SumOut11, [Sum0, Open3, Max11, Open14], [2, 2])
  const SumSt12: PState := PState(SumOut11, [Sum0, Open3, Max11], [2, 2])
  const SumSt13: PState := PState(SumOut13, [Sum0, Open3], [3])
  const SumSt14: PState := PState(SumOut13, [Sum0, Open3, Min22], [3, 1])
  const SumSt15: PState := PState(SumOut13, [Sum0, Open3, Min22, Open25], [3, 1])
  const SumSt16: PState := PState(SumOut16, [Sum0, Open3, Min22, Open25], [3, 1])
  const SumSt17: PState := PState(SumOut16, [Sum0, Open3, Min22, Open25], [3, 2])
  const SumSt18: PState := PState(SumOut16, [Sum0, Open3, Min22, Open25, Neg29], [3, 2])
  const SumSt19: PState := PState(SumOut19, [Sum0, Open3, Min22, Open25, Neg29], [3, 2])
  const SumSt20: PState := PState(SumOut20, [Sum0, Open3, Min22], [3, 2])
  const SumSt21: PState := PState(SumOut21, [Sum0], [3])

  const SumProgram: seq<RPNItem> := [One4, Five7, Plus6, Three15, Ten17, Max11Out, Five26, Six30, Neg29, Min22Out, Sum0Out]

  /** A call is stacked and opens a counter at 1. */
  lemma SumStep1(fns: map<Name, int>)
    ensures Step(fns, Start, Sum0Tok) == Ok(SumSt1)
  {
    CallStep(fns, Start, 0, "sum");
    assert [] + [Sum0] == [Sum0] && [] + [1] == [1];
  }

  lemma SumStep2(fns: map<Name, int>)
    ensures Step(fns, SumSt1, Open3Tok) == Ok(SumSt2)
  {
    OpenStep(fns, SumSt1, 3);
    assert [Sum0] + [Open3] == [Sum0, Open3];
  }

  lemma SumStep3(fns: map<Name, int>)
    ensures Step(fns, SumSt2, One4Tok) == Ok(SumSt3)
  {
    DigitStep(fns, SumSt2, 4, '1');
    assert NumItem(4, ['1'], '1' as int - '0' as int) == One4;
    assert SumSt2.(output := SumSt2.output + [One4]) == SumSt3;
  }

  lemma SumStep4(fns: map<Name, int>)
    ensures Step(fns, SumSt3, Plus6Tok) == Ok(SumSt4)
  {
    assert OperatorPriority["+"] == 1;
    assert PopWhileHigher(fns, SumSt3, 1) == Ok(SumSt3);
    OpStep(fns, SumSt3, 6, "+", SumSt3);
    assert [Sum0, Open3] + [Plus6] == [Sum0, Open3, Plus6];
  }

  lemma SumStep5(fns: map<Name, int>)
    ensures Step(fns, SumSt4, Five7Tok) == Ok(SumSt5)
  {
    DigitStep(fns, SumSt4, 7, '5');
  }

  /** The first comma of "sum" pops '+' and counts a second argument. */
  lemma SumStep6(fns: map<Name, int>)
    ensures Step(fns, SumSt5, Comma9Tok) == Ok(SumSt6)
  {
    var mid := PState(SumOut6, [Sum0, Open3], [1]);
    PopPlain(fns, SumSt5, Plus6);
    assert [Sum0, Open3, Plus6][..2] == [Sum0, Open3];
    assert PopToLeftParen(fns, mid) == Ok(mid);
    assert PopToLeftParen(fns, SumSt5) == Ok(mid);
    CommaStep(fns, SumSt5, 9, mid);
    assert IncTop([1]) == [2];
  }

  /** A nested call opens its own counter above the outer one. */
  lemma SumStep7(fns: map<Name, int>)
    ensures Step(fns, SumSt6, Max11Tok) == Ok(SumSt7)
  {
    CallStep(fns, SumSt6, 11, "max");
    assert [Sum0, Open3] + [Max11] == [Sum0, Open3, Max11] && [2] + [1] == [2, 1];
  }

  lemma SumStep8(fns: map<Name, int>)
    ensures Step(fns, SumSt7, Open14Tok) == Ok(SumSt8)
  {
    OpenStep(fns, SumSt7, 14);
    assert [Sum0, Open3, Max11] + [Open14] == [Sum0, Open3, Max11, Open14];
  }

  lemma SumStep9(fns: map<Name, int>)
    ensures Step(fns, SumSt8, Three15Tok) == Ok(SumSt9)
  {
    DigitStep(fns, SumSt8, 15, '3');
  }

  /** A comma inside "max" counts for "max" only. */
  lemma SumStep10(fns: map<Name, int>)
    ensures Step(fns, SumSt9, Comma16Tok) == Ok(SumSt10)
  {
    assert PopToLeftParen(fns, SumSt9) == Ok(SumSt9);
    CommaStep(fns, SumSt9, 16, SumSt9);
    assert IncTop([2, 1]) == [2, 2];
  }

  lemma SumStep11(fns: map<Name, int>)
    ensures Step(fns, SumSt10, Ten17Tok) == Ok(SumSt11)
  {
    assert ParseInt64("10") == Ok(10) by {
      assert "10"[..1] == "1" && "1"[..0] == [];
      assert DigitsValue("10") == 10;
    }
    NumStep(fns, SumSt10, 17, "10", 10);
  }

  lemma SumStep12(fns: map<Name, int>)
    ensures Step(fns, SumSt11, Close19Tok) == Ok(SumSt12)
  {
    assert [Sum0, Open3, Max11, Open14][..3] == [Sum0, Open3, Max11];
    assert CloseParen(fns, SumSt11, 19) == Ok(SumSt12);
    CloseStep(fns, SumSt11, 19, SumSt12);
  }

  /** The comma after "max(3,10)" finalises "max" with its count 2, then counts a third argument of "sum". */
  lemma SumStep13(fns: map<Name, int>)
    requires VariadicCalls(fns)
    ensures Step(fns, SumSt12, Comma20Tok) == Ok(SumSt13)
  {
    var mid := PState(SumOut13, [Sum0, Open3], [2]);
    PopCall(fns, SumSt12, 11, "max", [2], 2);
    assert [Sum0, Open3, Max11][..2] == [Sum0, Open3];
    assert PopToLeftParen(fns, mid) == Ok(mid);
    assert PopToLeftParen(fns, SumSt12) == Ok(mid);
    CommaStep(fns, SumSt12, 20, mid);
    assert IncTop([2]) == [3];
  }

  lemma SumStep14(fns: map<Name, int>)
    ensures Step(fns, SumSt13, Min22Tok) == Ok(SumSt14)
  {
    CallStep(fns, SumSt13, 22, "min");
    assert [Sum0, Open3] + [Min22] == [Sum0, Open3, Min22] && [3] + [1] == [3, 1];
  }

  lemma SumStep15(fns: map<Name, int>)
    ensures Step(fns, SumSt14, Open25Tok) == Ok(SumSt15)
  {
    OpenStep(fns, SumSt14, 25);
    assert [Sum0, Open3, Min22] + [Open25] == [Sum0, Open3, Min22, Open25];
  }

  lemma SumStep16(fns: map<Name, int>)
    ensures Step(fns, SumSt15, Five26Tok) == Ok(SumSt16)
  {
    DigitStep(fns, SumSt15, 26, '5');
  }

  lemma SumStep17(fns: map<Name, int>)
    ensures Step(fns, SumSt16, Comma27Tok) == Ok(SumSt17)
  {
    assert PopToLeftParen(fns, SumSt16) == Ok(SumSt16);
    CommaStep(fns, SumSt16, 27, SumSt16);
    assert IncTop([3, 1]) == [3, 2];
  }

  /** The unary minus goes above the parenthesis. */
  lemma SumStep18(fns: map<Name, int>)
    ensures Step(fns, SumSt17, Neg29Tok) == Ok(SumSt18)
  {
    assert PopWhileHigher(fns, SumSt17, UnaryPriority) == Ok(SumSt17);
    NegStep(fns, SumSt17, 29, SumSt17);
    assert [Sum0, Open3, Min22, Open25] + [Neg29] == [Sum0, Open3, Min22, Open25, Neg29];
  }

  lemma SumStep19(fns: map<Name, int>)
    ensures Step(fns, SumSt18, Six30Tok) == Ok(SumSt19)
  {
    DigitStep(fns, SumSt18, 30, '6');
  }

  lemma SumStep20(fns: map<Name, int>)
    ensures Step(fns, SumSt19, Close31Tok) == Ok(SumSt20)
  {
    var popped := PState(SumOut20, [Sum0, Open3, Min22, Open25], [3, 2]);
    PopPlain(fns, SumSt19, Neg29);
    assert [Sum0, Open3, Min22, Open25, Neg29][..4] == [Sum0, Open3, Min22, Open25];
    assert [Sum0, Open3, Min22, Open25][..3] == [Sum0, Open3, Min22];
    assert CloseParen(fns, popped, 31) == Ok(SumSt20);
    assert CloseParen(fns, SumSt19, 31) == Ok(SumSt20);
    CloseStep(fns, SumSt19, 31, SumSt20);
  }

  /** The last ')' but one finalises "min" with its count 2. */
  lemma SumStep21(fns: map<Name, int>)
    requires VariadicCalls(fns)
    ensures Step(fns, SumSt20, Close32Tok) == Ok(SumSt21)
  {
    var popped := PState(SumOut21, [Sum0, Open3], [3]);
    PopCall(fns, SumSt20, 22, "min", [3], 2);
    assert [Sum0, Open3, Min22][..2] == [Sum0, Open3];
    assert [Sum0, Open3][..1] == [Sum0];
    assert CloseParen(fns, popped, 32) == Ok(SumSt21);
    assert CloseParen(fns, SumSt20, 32) == Ok(SumSt21);
    CloseStep(fns, SumSt20, 32, SumSt21);
  }

  /** At the end "sum" leaves with its count 3. */
  lemma DrainSum(fns: map<Name, int>)
    requires VariadicCalls(fns)
    ensures Drain(fns, SumSt21) == Ok(SumProgram)
  {
    var last := PState(SumOut21 + [Sum0Out], [], []);
    PopCall(fns, SumSt21, 0, "sum", [], 3);
    assert [Sum0][..0] == [] && [] + [3] == [3];
    assert Drain(fns, last) == Ok(last.output);
    assert SumOut21 + [Sum0Out] == SumProgram;
  }

  lemma RunSumBack(fns: map<Name, int>)
    requires VariadicCalls(fns)
    ensures forall k :: 0 <= k < |SumFrom12| ==> InputKind(SumFrom12[k].Type)
    ensures Run(fns, SumSt12, SumFrom12) == Ok(SumProgram)
  {
    SumStep13(fns);
    SumStep14(fns);
    SumStep15(fns);
    SumStep16(fns);
    SumStep17(fns);
    SumStep18(fns);
    SumStep19(fns);
    SumStep20(fns);
    SumStep21(fns);
    DrainSum(fns);
    RunCons(fns, SumSt20, Close32Tok, SumFrom21, SumSt21);
    RunCons(fns, SumSt19, Close31Tok, SumFrom20, SumSt20);
    RunCons(fns, SumSt18, Six30Tok, SumFrom19, SumSt19);
    RunCons(fns, SumSt17, Neg29Tok, SumFrom18, SumSt18);
    RunCons(fns, SumSt16, Comma27Tok, SumFrom17, SumSt17);
    RunCons(fns, SumSt15, Five26Tok, SumFrom16, SumSt16);
    RunCons(fns, SumSt14, Open25Tok, SumFrom15, SumSt15);
    RunCons(fns, SumSt13, Min22Tok, SumFrom14, SumSt14);
    RunCons(fns, SumSt12, Comma20Tok, SumFrom13, SumSt13);
  }

  lemma RunSum(fns: map<Name, int>)
    requires VariadicCalls(fns)
    ensures forall k :: 0 <= k < |SumTokens| ==> InputKind(SumTokens[k].Type)
    ensures Run(fns, Start, SumTokens) == Ok(SumProgram)
  {
    SumStep1(fns);
    SumStep2(fns);
    SumStep3(fns);
    SumStep4(fns);
    SumStep5(fns);
    SumStep6(fns);
    SumStep7(fns);
    SumStep8(fns);
    SumStep9(fns);
    SumStep10(fns);
    SumStep11(fns);
    SumStep12(fns);
    RunSumBack(fns);
    RunCons(fns, SumSt11, Close19Tok, SumFrom12, SumSt12);
    RunCons(fns, SumSt10, Ten17Tok, SumFrom11, SumSt11);
    RunCons(fns, SumSt9, Comma16Tok, SumFrom10, SumSt10);
    RunCons(fns, SumSt8, Three15Tok, SumFrom9, SumSt9);
    RunCons(fns, SumSt7, Open14Tok, SumFrom8, SumSt8);
    RunCons(fns, SumSt6, Max11Tok, SumFrom7, SumSt7);
    RunCons(fns, SumSt5, Comma9Tok, SumFrom6, SumSt6);
    RunCons(fns, SumSt4, Five7Tok, SumFrom5, SumSt5);
    RunCons(fns, SumSt3, Plus6Tok, SumFrom4, SumSt4);
    RunCons(fns, SumSt2, One4Tok, SumFrom3, SumSt3);
    RunCons(fns, SumSt1, Open3Tok, SumFrom2, SumSt2);
    RunCons(fns, Start, Sum0Tok, SumFrom1, SumSt1);
  }

  /**
   * "sum(1 +5 , max(3,10), min(5, -6))" parses to
   * "1 5 + 3 10 max:2 5 6 -. min:2 sum:3" when the three functions are
   * known and variadic: each call leaves with 1 plus the commas met while
   * it was the innermost open call.
   */
  lemma ParseSum(fns: map<Name, int>)
    requires VariadicCalls(fns)
    ensures ParseSpec(fns, SumText) == Ok(SumProgram)
  {
    LexSum(SumText);
    RunSum(fns);
  }
}
