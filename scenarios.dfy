/**
 * One expression followed through the whole pipeline: `round(5.3555, 2)`
 * is scanned, parsed against the built-in arity table and evaluated with
 * the built-in functions. The call reaches `round` with its arguments in
 * reverse order, so evaluation fails on the second argument's exponent.
 */
module Scenarios {
  import opened Common
  import opened Tokens
  import opened Lexing
  import opened LexingProperties
  import opened Decimals
  import opened Items
  import opened Stacks
  import opened Parsing
  import opened Functions
  import opened Evaluation
  import opened EvaluationProperties

  const RoundText: seq<Byte> := "round(5.3555, 2)"

  const RoundTok: Token := Token(TokenFunction, 0, 0, "round")
  const OpenTok: Token := Token(TokenLeftParen, 0, 5, "(")
  const FirstTok: Token := Token(TokenFloatNumber, 4, 6, "53555")
  const CommaTok: Token := Token(TokenComma, 0, 12, ",")
  const SecondTok: Token := Token(TokenFloatNumber, 0, 14, "2")
  const CloseTok: Token := Token(TokenRightParen, 0, 15, ")")

  /** The name is a call because a '(' follows it. */
  lemma ScanName(s: seq<Byte>)
    requires s == RoundText
    ensures ScanToken(s, 0, TokenEOF) == Scan(RoundTok, 5)
    ensures ScanToken(s, 5, TokenFunction) == Scan(OpenTok, 6)
  {
    assert IdentEnd(s, 5) == 5;
    assert IdentEnd(s, 0) == 5;
    assert s[0..5] == "round";
  }

  /** "5.3555" is one number token with the digits "53555" and 4 digits after the dot. */
  lemma ScanFirstNumber(s: seq<Byte>)
    requires s == RoundText
    ensures ScanToken(s, 6, TokenLeftParen) == Scan(FirstTok, 12)
  {
    assert NumberScan(s, 12, true) == NumberLexeme([], 0, 12);
    assert NumberScan(s, 11, true) == NumberLexeme("5", 1, 12);
    assert NumberScan(s, 10, true) == NumberLexeme("55", 2, 12);
    assert NumberScan(s, 9, true) == NumberLexeme("555", 3, 12);
    assert NumberScan(s, 8, true) == NumberLexeme("3555", 4, 12);
    assert NumberScan(s, 7, false) == NumberLexeme("3555", 4, 12);
    assert NumberScan(s, 6, false) == NumberLexeme("53555", 4, 12);
  }

  /** The comma, the blank, the second number and the closing parenthesis. */
  lemma ScanRest(s: seq<Byte>)
    requires s == RoundText
    ensures ScanToken(s, 12, TokenFloatNumber) == Scan(CommaTok, 13)
    ensures ScanToken(s, 13, TokenComma) == Scan(SecondTok, 15)
    ensures ScanToken(s, 15, TokenFloatNumber) == Scan(CloseTok, 16)
    ensures ScanToken(s, 16, TokenRightParen).tok.Type == TokenEOF
  {
    assert WhitespaceEnd(s, 13) == 14;
    assert NumberScan(s, 15, false) == NumberLexeme([], 0, 15);
    assert NumberScan(s, 14, false) == NumberLexeme("2", 0, 15);
  }

  /** The scanner's tokens: the name followed by '(' is a call, and "5.3555" has 4 digits after the dot. */
  lemma LexRoundCall(s: seq<Byte>)
    requires s == RoundText
    ensures Lex(s) == [RoundTok] + ([OpenTok] + ([FirstTok] + [CommaTok, SecondTok, CloseTok]))
  {
    var rest := [CommaTok, SecondTok, CloseTok];
    ScanName(s);
    ScanFirstNumber(s);
    LexTail(s);
    TokensFromStep(s, 6, TokenLeftParen, FirstTok, 12);
    TokensFromStep(s, 5, TokenFunction, OpenTok, 6);
    TokensFromStep(s, 0, TokenEOF, RoundTok, 5);
  }

  /** The tokens from the comma on. */
  lemma LexTail(s: seq<Byte>)
    requires s == RoundText
    ensures TokensFrom(s, 12, TokenFloatNumber) == [CommaTok, SecondTok, CloseTok]
  {
    ScanRest(s);
    assert TokensFrom(s, 16, TokenRightParen) == [];
    TokensFromStep(s, 15, TokenFloatNumber, CloseTok, 16);
    TokensFromStep(s, 13, TokenComma, SecondTok, 15);
    TokensFromStep(s, 12, TokenFloatNumber, CommaTok, 13);
    assert [CommaTok] + ([SecondTok] + ([CloseTok] + [])) == [CommaTok, SecondTok, CloseTok];
  }

  /** "53555" spells 53555. */
  lemma FirstDigits()
    ensures ParseInt64("53555") == Ok(53555)
  {
    var s: Name := "53555";
    assert s[..4] == "5355" && s[..4][..3] == "535" && s[..4][..3][..2] == "53" && s[..4][..3][..2][..1] == "5";
    assert DigitsValue("5") == 5;
    assert DigitsValue("53") == 53;
    assert DigitsValue("535") == 535;
    assert DigitsValue("5355") == 5355;
    assert DigitsValue(s) == 53555;
  }

  const FirstItem: RPNItem := RPNItem(FirstTok, 0, 0, Decimal(53555, -4))
  const SecondItem: RPNItem := RPNItem(SecondTok, 0, 0, Decimal(2, 0))
  const RoundItem: RPNItem := RPNItem(RoundTok, FunctionPriority, 0, ZeroValue)
  const OpenItem: RPNItem := RPNItem(OpenTok, 0, 0, ZeroValue)

  /** The call opens: `round` goes on the operator stack with an argument count of 1. */
  lemma StepCall(arities: map<Name, int>)
    ensures Step(arities, Start, RoundTok) == Ok(PState([], [RoundItem], [1]))
  {
    assert [] + [RoundItem] == [RoundItem] && [] + [1] == [1];
  }

  lemma StepOpen(arities: map<Name, int>)
    ensures Step(arities, PState([], [RoundItem], [1]), OpenTok) == Ok(PState([], [RoundItem, OpenItem], [1]))
  {
    assert [RoundItem] + [OpenItem] == [RoundItem, OpenItem];
  }

  /** The first number goes to the output with the value 53555 * 10^-4. */
  lemma StepFirst(arities: map<Name, int>)
    ensures Step(arities, PState([], [RoundItem, OpenItem], [1]), FirstTok)
            == Ok(PState([FirstItem], [RoundItem, OpenItem], [1]))
  {
    FirstDigits();
    assert [] + [FirstItem] == [FirstItem];
  }

  /** The comma keeps the open parenthesis and counts a second argument. */
  lemma StepComma(arities: map<Name, int>)
    ensures Step(arities, PState([FirstItem], [RoundItem, OpenItem], [1]), CommaTok)
            == Ok(PState([FirstItem], [RoundItem, OpenItem], [2]))
  {
    var st := PState([FirstItem], [RoundItem, OpenItem], [1]);
    assert PopToLeftParen(arities, st) == Ok(st);
    assert IncTop([1]) == [2];
  }

  lemma StepSecond(arities: map<Name, int>)
    ensures Step(arities, PState([FirstItem], [RoundItem, OpenItem], [2]), SecondTok)
            == Ok(PState([FirstItem, SecondItem], [RoundItem, OpenItem], [2]))
  {
    assert DigitsValue("2") == 2;
    assert [FirstItem] + [SecondItem] == [FirstItem, SecondItem];
  }

  /** The closing parenthesis pops only the open one; `round` stays on the stack. */
  lemma StepClose(arities: map<Name, int>)
    ensures Step(arities, PState([FirstItem, SecondItem], [RoundItem, OpenItem], [2]), CloseTok)
            == Ok(PState([FirstItem, SecondItem], [RoundItem], [2]))
  {
    assert [RoundItem, OpenItem][..1] == [RoundItem];
  }

  /** At the end `round` is finalised with the count 2, which its declared arity accepts. */
  lemma DrainCall(arities: map<Name, int>)
    requires "round" in arities && arities["round"] == 2
    ensures Drain(arities, PState([FirstItem, SecondItem], [RoundItem], [2]))
            == Ok([FirstItem, SecondItem, RoundItem.(FuncArgCount := 2)])
  {
    var st := PState([FirstItem, SecondItem], [RoundItem], [2]);
    var done := [FirstItem, SecondItem, RoundItem.(FuncArgCount := 2)];
    assert [RoundItem][..0] == [] && [2][..0] == [];
    assert [FirstItem, SecondItem] + [RoundItem.(FuncArgCount := 2)] == done;
    assert PopToOutput(arities, st) == Ok(PState(done, [], []));
  }

  /**
   * The parser's program: both numbers, then `round` with two counted
   * arguments, for any arity table that declares `round` with 2.
   */
  lemma ParseRoundCall(arities: map<Name, int>)
    requires "round" in arities && arities["round"] == 2
    ensures ParseSpec(arities, RoundText) == Ok([FirstItem, SecondItem, RoundItem.(FuncArgCount := 2)])
  {
    LexRoundCall(RoundText);
    RunRoundTokens(arities);
  }

  /** The six tokens run through the parser from the start state. */
  lemma RunRoundTokens(arities: map<Name, int>)
    requires "round" in arities && arities["round"] == 2
    ensures Run(arities, Start, [RoundTok] + ([OpenTok] + ([FirstTok] + [CommaTok, SecondTok, CloseTok])))
            == Ok([FirstItem, SecondItem, RoundItem.(FuncArgCount := 2)])
  {
    var rest := [CommaTok, SecondTok, CloseTok];
    StepCall(arities);
    StepOpen(arities);
    StepFirst(arities);
    RunAfterFirst(arities);
    RunCons(arities, PState([], [RoundItem, OpenItem], [1]), FirstTok, rest, PState([FirstItem], [RoundItem, OpenItem], [1]));
    RunCons(arities, PState([], [RoundItem], [1]), OpenTok, [FirstTok] + rest, PState([], [RoundItem, OpenItem], [1]));
    RunCons(arities, Start, RoundTok, [OpenTok] + ([FirstTok] + rest), PState([], [RoundItem], [1]));
  }

  /** The tokens after the first number run through the parser. */
  lemma RunAfterFirst(arities: map<Name, int>)
    requires "round" in arities && arities["round"] == 2
    ensures Run(arities, PState([FirstItem], [RoundItem, OpenItem], [1]), [CommaTok, SecondTok, CloseTok])
            == Ok([FirstItem, SecondItem, RoundItem.(FuncArgCount := 2)])
  {
    var toks := [CommaTok, SecondTok, CloseTok];
    var done := [FirstItem, SecondItem, RoundItem.(FuncArgCount := 2)];
    StepComma(arities);
    StepSecond(arities);
    StepClose(arities);
    DrainCall(arities);
    assert Run(arities, PState([FirstItem, SecondItem], [RoundItem], [2]), toks[3..]) == Ok(done);
    assert Run(arities, PState([FirstItem, SecondItem], [RoundItem, OpenItem], [2]), toks[2..]) == Ok(done);
    assert Run(arities, PState([FirstItem], [RoundItem, OpenItem], [2]), toks[1..]) == Ok(done);
  }

  /**
   * `round(5.3555, 2)` with the built-in table fails: `round` receives
   * `[2, 5.3555]` and refuses a second argument with a negative exponent.
   */
  lemma RoundCallFailsEndToEnd(ops: DecimalOps, env: map<Name, Decimal>)
    ensures EvalText(Builtins(ops), ArityOf(Builtins(ops)), ops, RoundText, env)
            == Err(InExpression(RoundText, FunctionFailed("round", 0, BadSecondArgument)))
  {
    var arities := ArityOf(Builtins(ops));
    BuiltinArities(ops);
    ParseRoundCall(arities);
    RoundArgumentsReversed(ops, env);
  }
}
