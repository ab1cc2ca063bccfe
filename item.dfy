/**
 * Items of a postfix program: a token together with its precedence, the
 * argument count of a function call, and the value of a number literal.
 */
module Items {
  import opened Common
  import opened Tokens
  import opened Decimals

  datatype RPNItem = RPNItem(token: Token, Priority: int, FuncArgCount: int, Number: Decimal)

  /** Binary operators and their priorities: additive 1, multiplicative 2, power 4. */
  const OperatorPriority: map<Name, int> :=
    map["+" := 1, "-" := 1, "*" := 2, "/" := 2, "%" := 2, "^" := 4]

  const UnaryPriority: int := 4
  const FunctionPriority: int := 5

  predicate AllDigits(s: Name) {
    forall k :: 0 <= k < |s| ==> '0' <= s[k] <= '9'
  }

  /** The number a string of decimal digits spells. */
  function DigitsValue(s: Name): nat
    requires AllDigits(s)
  {
    if s == [] then 0 else DigitsValue(s[..|s| - 1]) * 10 + (s[|s| - 1] as int - '0' as int)
  }

  /**
   * Base-10 parsing into a signed 64-bit integer: an optional sign, then at
   * least one digit and nothing else, and a value within the 64-bit range.
   */
  function ParseInt64(s: Name): (r: Result<int>)
    ensures r.Ok? ==> MinInt64 <= r.value <= MaxInt64
    ensures s == [] || !AllDigits(if s[0] == '+' || s[0] == '-' then s[1..] else s) ==> r == Err(NumberSyntax(s))
    ensures s != [] && AllDigits(s) ==> (r.Ok? <==> DigitsValue(s) <= MaxInt64)
    ensures s != [] && AllDigits(s) && r.Ok? ==> r.value == DigitsValue(s)
    ensures r.Err? ==> r == Err(NumberSyntax(s)) || r == Err(NumberOutOfRange(s))
  {
    var signed := s != [] && (s[0] == '+' || s[0] == '-');
    var body := if signed then s[1..] else s;
    if s == [] || body == [] || !AllDigits(body) then Err(NumberSyntax(s))
    else
      var v: int := if s[0] == '-' then -(DigitsValue(body) as int) else DigitsValue(body);
      if MinInt64 <= v <= MaxInt64 then Ok(v) else Err(NumberOutOfRange(s))
  }

  /** The kinds `NewRPNItem` handles; any other kind makes it panic. */
  predicate ItemKind(t: TokenType) {
    TokenEOF <= t <= TokenComma
  }

  /**
   * The item for a token. A number's value is its digits scaled by
   * 10^-Exp; a binary operator takes its priority from the table and fails
   * when its literal is not there.
   */
  function NewRPNItem(token: Token): (r: Result<RPNItem>)
    requires ItemKind(token.Type)
    ensures r.Ok? ==> r.value.token == token && r.value.FuncArgCount == 0
    ensures token.Type == TokenFunction ==> r.Ok? && r.value.Priority == FunctionPriority
    ensures token.Type == TokenUnaryOperator ==> r.Ok? && r.value.Priority == UnaryPriority
    ensures token.Type == TokenOperator ==>
              (r.Ok? <==> token.Literal in OperatorPriority)
              && (r.Ok? ==> r.value.Priority == OperatorPriority[token.Literal])
              && (r.Err? ==> r.error == UnknownOperator(token.Literal))
    ensures token.Type in {TokenEOF, TokenIdent, TokenLeftParen, TokenRightParen, TokenComma} ==>
              r.Ok? && r.value.Priority == 0 && r.value.Number == ZeroValue
    ensures token.Type == TokenFloatNumber || token.Type == TokenIntNumber ==>
              (r.Ok? <==> ParseInt64(token.Literal).Ok?) && (r.Ok? ==> r.value.Priority == 0)
    ensures token.Type == TokenFloatNumber && r.Ok? ==>
              r.value.Number.mantissa == ParseInt64(token.Literal).value
              && (token.Exp >= 0 ==> Value(r.value.Number) == ParseInt64(token.Literal).value as real / Pow10(token.Exp as nat) as real)
    ensures token.Type == TokenIntNumber && r.Ok? ==> Value(r.value.Number) == ParseInt64(token.Literal).value as real
  {
    var item := RPNItem(token, 0, 0, ZeroValue);
    if token.Type == TokenFloatNumber then
      var value :- ParseInt64(token.Literal);
      Ok(item.(Number := New(value, -(token.Exp as int))))
    else if token.Type == TokenIntNumber then
      var value :- ParseInt64(token.Literal);
      Ok(item.(Number := New(value, 0)))
    else if token.Type == TokenFunction then Ok(item.(Priority := FunctionPriority))
    else if token.Type == TokenUnaryOperator then Ok(item.(Priority := UnaryPriority))
    else if token.Type == TokenOperator then
      if token.Literal in OperatorPriority then Ok(item.(Priority := OperatorPriority[token.Literal]))
      else Err(UnknownOperator(token.Literal))
    else Ok(item)
  }

  /**
   * Binding strength: additive below multiplicative below power; power and
   * unary minus tie; a function binds tightest; parentheses and operands 0.
   */
  lemma PriorityOrder()
    ensures OperatorPriority["+"] == OperatorPriority["-"] < OperatorPriority["*"]
    ensures OperatorPriority["*"] == OperatorPriority["/"] == OperatorPriority["%"] < OperatorPriority["^"]
    ensures OperatorPriority["^"] == UnaryPriority < FunctionPriority
    ensures forall op :: op in OperatorPriority ==> 0 < OperatorPriority[op]
    ensures forall op :: op in OperatorPriority <==> op in {"+", "-", "*", "/", "%", "^"}
  {
  }

  /**
   * A digit-only literal of a number token: the item exists exactly when the
   * digits fit in 63 bits, and its value is the digits scaled by 10^-Exp.
   */
  lemma NumberItemValue(token: Token)
    requires token.Type == TokenFloatNumber && token.Literal != [] && AllDigits(token.Literal) && token.Exp >= 0
    ensures NewRPNItem(token).Ok? <==> DigitsValue(token.Literal) <= MaxInt64
    ensures NewRPNItem(token).Ok? ==>
              Value(NewRPNItem(token).value.Number) == DigitsValue(token.Literal) as real / Pow10(token.Exp as nat) as real
  {
  }

  lemma DigitsValueExample()
    ensures DigitsValue("510") == 510
  {
    assert DigitsValue("5") == 5;
    assert DigitsValue("51") == 51;
  }
}
