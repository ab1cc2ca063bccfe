/**
 * Properties of evaluation: operand order, the error cases of each item,
 * how each item changes the height of the value stack, the order in which
 * a callable receives its arguments, and what registering a function does
 * (nothing the parser can see).
 */
module EvaluationProperties {
  import opened Common
  import opened Tokens
  import opened CharClass
  import opened Lexing
  import opened Decimals
  import opened Items
  import opened Stacks
  import opened Parsing
  import opened ParsingProperties
  import opened Functions
  import opened Evaluation

  /** The left operand is the value below the top, the right operand the top. */
  lemma OperandOrder(ops: DecimalOps, s: seq<Decimal>, left: Decimal, right: Decimal, pos: int)
    ensures ApplyBinary(ops, s + [left, right], "+", pos) == Ok(s + [ops.add(left, right)])
    ensures ApplyBinary(ops, s + [left, right], "-", pos) == Ok(s + [ops.sub(left, right)])
    ensures ApplyBinary(ops, s + [left, right], "*", pos) == Ok(s + [ops.mul(left, right)])
    ensures ApplyBinary(ops, s + [left, right], "^", pos) == Ok(s + [ops.pow(left, right)])
    ensures !IsZero(right) ==> ApplyBinary(ops, s + [left, right], "/", pos) == Ok(s + [ops.div(left, right)])
    ensures !IsZero(right) ==> ApplyBinary(ops, s + [left, right], "%", pos) == Ok(s + [ops.mod(left, right)])
  {
    var st := s + [left, right];
    assert st[..|st| - 2] == s && st[|st| - 2] == left && st[|st| - 1] == right;
  }

  /** Division and remainder fail exactly when the right operand is zero. */
  lemma DivisionByZeroCase(ops: DecimalOps, s: seq<Decimal>, left: Decimal, right: Decimal, op: Name, pos: int)
    requires op == "/" || op == "%"
    ensures ApplyBinary(ops, s + [left, right], op, pos) == Err(DivisionByZero(pos)) <==> Value(right) == 0.0
    ensures ApplyBinary(ops, s + [left, right], op, pos).Ok? <==> Value(right) != 0.0
  {
    var st := s + [left, right];
    assert st[|st| - 2] == left && st[|st| - 1] == right;
  }

  /** A binary operator on fewer than two values reports a missing operand, and only then. */
  lemma BinaryMissingOperand(ops: DecimalOps, s: seq<Decimal>, op: Name, pos: int)
    ensures ApplyBinary(ops, s, op, pos) == Err(MissingOperand(op, pos)) <==> |s| < 2
  {
  }

  /** An operator other than the six known ones is refused, whatever the operands. */
  lemma UnsupportedBinary(ops: DecimalOps, s: seq<Decimal>, op: Name, pos: int)
    requires |s| >= 2
    requires op != "+" && op != "-" && op != "*" && op != "/" && op != "%" && op != "^"
    ensures ApplyBinary(ops, s, op, pos) == Err(UnsupportedOperator(op, pos))
  {
  }

  /** Unary minus negates the top value; on an empty stack it reports a missing operand. */
  lemma UnaryMinus(fns: map<Name, FuncInfo>, ops: DecimalOps, env: map<Name, Decimal>,
                   s: seq<Decimal>, a: Decimal, item: RPNItem)
    requires item.token.Type == TokenUnaryOperator && item.token.Literal == "-"
    ensures ExecItem(fns, ops, env, s + [a], item) == Ok(s + [Neg(a)])
    ensures Value(Neg(a)) == -Value(a)
    ensures ExecItem(fns, ops, env, [], item) == Err(MissingOperand("-", item.token.Position))
  {
    var st := s + [a];
    assert st[..|st| - 1] == s && st[|st| - 1] == a;
  }

  /**
   * A call of `n` arguments takes the top `n` values and hands them to the
   * callable topmost-first: the last argument written comes first.
   */
  lemma FunctionArgumentsReversed(fns: map<Name, FuncInfo>, ops: DecimalOps, env: map<Name, Decimal>,
                                  s: seq<Decimal>, xs: seq<Decimal>, item: RPNItem)
    requires item.token.Type == TokenFunction && item.FuncArgCount == |xs|
    requires item.token.Literal in fns
    ensures var call := fns[item.token.Literal].Call(Reverse(xs));
            ExecItem(fns, ops, env, s + xs, item)
            == (if call.Ok? then Ok(s + [call.value])
                else Err(FunctionFailed(item.token.Literal, item.token.Position, call.error)))
  {
    TakeWhatWasPushed(s, xs);
  }

  /** A call with more arguments than values, or of a name the table lacks, fails before any callable runs. */
  lemma FunctionErrors(fns: map<Name, FuncInfo>, ops: DecimalOps, env: map<Name, Decimal>,
                       s: seq<Decimal>, item: RPNItem)
    requires item.token.Type == TokenFunction && item.FuncArgCount >= 0
    ensures item.token.Literal !in fns ==>
              ExecItem(fns, ops, env, s, item) == Err(UnknownFunction(item.token.Literal, item.token.Position))
    ensures item.token.Literal in fns && |s| < item.FuncArgCount ==>
              ExecItem(fns, ops, env, s, item) == Err(FunctionUnderflow(item.token.Literal, item.token.Position))
  {
  }

  /** An identifier pushes its value, and is an error when it has none. */
  lemma IdentifierLookup(fns: map<Name, FuncInfo>, ops: DecimalOps, env: map<Name, Decimal>,
                         s: seq<Decimal>, item: RPNItem)
    requires item.token.Type == TokenIdent
    ensures item.token.Literal in env ==> ExecItem(fns, ops, env, s, item) == Ok(s + [env[item.token.Literal]])
    ensures item.token.Literal !in env ==>
              ExecItem(fns, ops, env, s, item) == Err(UnboundIdent(item.token.Literal, item.token.Position))
  {
  }

  /** How many values an item leaves on the stack beyond those it found there. */
  function Effect(item: RPNItem): int {
    var t := item.token.Type;
    if t == TokenFloatNumber || t == TokenIdent then 1
    else if t == TokenOperator then -1
    else if t == TokenFunction then 1 - item.FuncArgCount
    else 0
  }

  /** The sum of the effects of a program's items. */
  function TotalEffect(prog: seq<RPNItem>): int {
    if prog == [] then 0 else Effect(prog[0]) + TotalEffect(prog[1..])
  }

  /** A successful item changes the stack height by its effect, and leaves the values below its operands alone. */
  lemma ItemHeight(fns: map<Name, FuncInfo>, ops: DecimalOps, env: map<Name, Decimal>,
                   s: seq<Decimal>, item: RPNItem)
    requires item.token.Type == TokenFunction ==> item.FuncArgCount >= 0
    requires ExecItem(fns, ops, env, s, item).Ok?
    ensures |ExecItem(fns, ops, env, s, item).value| == |s| + Effect(item)
    ensures var kept := if item.token.Type == TokenOperator then 2
                        else if item.token.Type == TokenUnaryOperator then 1
                        else if item.token.Type == TokenFunction then item.FuncArgCount
                        else 0;
            kept <= |s| && ExecItem(fns, ops, env, s, item).value[..|s| - kept] == s[..|s| - kept]
  {
    var t := item.token.Type;
    var r := ExecItem(fns, ops, env, s, item).value;
    if t == TokenFloatNumber || t == TokenIdent {
      assert r[..|s|] == s;
    } else if t == TokenUnaryOperator {
      assert r == s[..|s| - 1] + [Neg(s[|s| - 1])];
    } else if t == TokenOperator {
      var v := BinaryOp(ops, item.token.Literal, s[|s| - 2], s[|s| - 1], item.token.Position).value;
      assert r == s[..|s| - 2] + [v];
    } else if t == TokenFunction {
      var p := TakeTop(s, item.FuncArgCount).value;
      assert p.1 == s[..|s| - item.FuncArgCount] by {
        assert p.1 + Reverse(p.0) == s;
      }
      assert r == p.1 + [fns[item.token.Literal].Call(p.0).value];
    } else {
      assert false;
    }
  }

  /** A successful program changes the stack height by the sum of its items' effects. */
  lemma {:induction false} ProgramHeight(fns: map<Name, FuncInfo>, ops: DecimalOps, env: map<Name, Decimal>,
                                         s: seq<Decimal>, prog: seq<RPNItem>)
    requires CountsValid(prog)
    requires ExecAll(fns, ops, env, s, prog).Ok?
    ensures |ExecAll(fns, ops, env, s, prog).value| == |s| + TotalEffect(prog)
    decreases |prog|
  {
    if prog != [] {
      ItemHeight(fns, ops, env, s, prog[0]);
      var next := ExecItem(fns, ops, env, s, prog[0]).value;
      ProgramHeight(fns, ops, env, next, prog[1..]);
    }
  }

  /** Running two programs one after the other is running their concatenation. */
  lemma {:induction false} ExecAllAppend(fns: map<Name, FuncInfo>, ops: DecimalOps, env: map<Name, Decimal>,
                                         s: seq<Decimal>, p: seq<RPNItem>, q: seq<RPNItem>)
    requires CountsValid(p) && CountsValid(q)
    ensures CountsValid(p + q)
    ensures ExecAll(fns, ops, env, s, p + q)
            == (match ExecAll(fns, ops, env, s, p)
                case Err(e) => Err(e)
                case Ok(mid) => ExecAll(fns, ops, env, mid, q))
    decreases |p|
  {
    if p == [] {
      assert p + q == q;
    } else {
      assert (p + q)[0] == p[0] && (p + q)[1..] == p[1..] + q;
      match ExecItem(fns, ops, env, s, p[0])
      case Err(_) =>
      case Ok(next) => ExecAllAppend(fns, ops, env, next, p[1..], q);
    }
  }

  /** A successful evaluation leaves exactly one value, or none for an empty program. */
  lemma EvalProgramHeight(fns: map<Name, FuncInfo>, ops: DecimalOps, env: map<Name, Decimal>, prog: seq<RPNItem>)
    requires CountsValid(prog)
    requires EvalProgram(fns, ops, env, prog).Ok?
    ensures TotalEffect(prog) == 0 || TotalEffect(prog) == 1
  {
    ProgramHeight(fns, ops, env, [], prog);
  }

  /** An empty program, and so an expression of blanks only, evaluates to the zero value. */
  lemma EmptyExpressionIsZero(fns: map<Name, FuncInfo>, arities: map<Name, int>, ops: DecimalOps,
                              env: map<Name, Decimal>, exp: Name)
    requires |exp| < MaxInt16
    requires forall k :: 0 <= k < |exp| ==> IsWhitespace(exp[k])
    ensures EvalProgram(fns, ops, env, []) == Ok(ZeroValue)
    ensures EvalText(fns, arities, ops, exp, env) == Ok(ZeroValue)
  {
    var p := WhitespaceEnd(exp, 0);
    if p < |exp| {
      assert false;
    }
    assert CharAt(exp, p) == '\0';
    assert ScanToken(exp, 0, TokenEOF).tok.Type == TokenEOF;
    assert TokensFrom(exp, 0, TokenEOF) == [];
    assert ParseSpec(arities, exp) == Ok([]);
  }

  /** No call item of the program names `name`. */
  predicate NoCallOf(prog: seq<RPNItem>, name: Name) {
    forall i :: 0 <= i < |prog| && prog[i].token.Type == TokenFunction ==> prog[i].token.Literal != name
  }

  /** A table entry no item calls does not change what the program does. */
  lemma {:induction false} UnusedEntryIgnored(fns: map<Name, FuncInfo>, name: Name, info: FuncInfo, ops: DecimalOps,
                                              env: map<Name, Decimal>, s: seq<Decimal>, prog: seq<RPNItem>)
    requires CountsValid(prog) && NoCallOf(prog, name) && name !in fns
    ensures ExecAll(fns[name := info], ops, env, s, prog) == ExecAll(fns, ops, env, s, prog)
    decreases |prog|
  {
    if prog != [] {
      assert ExecItem(fns[name := info], ops, env, s, prog[0]) == ExecItem(fns, ops, env, s, prog[0]);
      match ExecItem(fns, ops, env, s, prog[0])
      case Err(_) =>
      case Ok(next) => UnusedEntryIgnored(fns, name, info, ops, env, next, prog[1..]);
    }
  }

  /** The parser only emits calls of names in its arity table. */
  lemma ParsedCallsKnown(arities: map<Name, int>, exp: Name)
    requires ParseSpec(arities, exp).Ok?
    ensures var prog := ParseSpec(arities, exp).value;
            forall i :: 0 <= i < |prog| && prog[i].token.Type == TokenFunction ==> prog[i].token.Literal in arities
  {
    ParsedProgramShape(arities, exp);
  }

  /**
   * A function registered after construction never takes part in
   * evaluation: the parser keeps the arity table it was built with, so any
   * expression evaluates as it did before the registration.
   */
  lemma RegisteredFunctionUnused(fns: map<Name, FuncInfo>, name: Name, call: Callable,
                                 ops: DecimalOps, exp: Name, env: map<Name, Decimal>)
    requires name !in fns
    ensures EvalText(fns[name := FuncInfo(call, -1)], ArityOf(fns), ops, exp, env)
            == EvalText(fns, ArityOf(fns), ops, exp, env)
  {
    if ParseSpec(ArityOf(fns), exp).Ok? {
      var prog := ParseSpec(ArityOf(fns), exp).value;
      ParsedCallsKnown(ArityOf(fns), exp);
      ParsedCountsValid(ArityOf(fns), exp);
      UnusedEntryIgnored(fns, name, FuncInfo(call, -1), ops, env, [], prog);
    }
  }

  /** Every call item names an entry of the table. */
  predicate CallsIn(prog: seq<RPNItem>, fns: map<Name, FuncInfo>) {
    forall i :: 0 <= i < |prog| && prog[i].token.Type == TokenFunction ==> prog[i].token.Literal in fns
  }

  /** A program whose calls are all in the table never reports an unknown function. */
  lemma {:induction false} KnownCallsNeverUnknown(fns: map<Name, FuncInfo>, ops: DecimalOps, env: map<Name, Decimal>,
                                                  s: seq<Decimal>, prog: seq<RPNItem>)
    requires CountsValid(prog) && CallsIn(prog, fns)
    ensures ExecAll(fns, ops, env, s, prog).Err? ==> !ExecAll(fns, ops, env, s, prog).error.UnknownFunction?
    decreases |prog|
  {
    if prog != [] {
      match ExecItem(fns, ops, env, s, prog[0])
      case Err(_) =>
      case Ok(next) => KnownCallsNeverUnknown(fns, ops, env, next, prog[1..]);
    }
  }

  /** An expression evaluated against the table its parser was built from never reports an unknown function. */
  lemma EvalNeverUnknownFunction(fns: map<Name, FuncInfo>, ops: DecimalOps, exp: Name, env: map<Name, Decimal>)
    requires EvalText(fns, ArityOf(fns), ops, exp, env).Err?
    requires ParseSpec(ArityOf(fns), exp).Ok?
    ensures EvalText(fns, ArityOf(fns), ops, exp, env).error.InExpression?
    ensures !EvalText(fns, ArityOf(fns), ops, exp, env).error.cause.UnknownFunction?
  {
    var prog := ParseSpec(ArityOf(fns), exp).value;
    ParsedCallsKnown(ArityOf(fns), exp);
    ParsedCountsValid(ArityOf(fns), exp);
    KnownCallsNeverUnknown(fns, ops, env, [], prog);
  }

  /** A number item as the parser builds it. */
  function NumberItem(d: Decimal, exp: Int16, position: Int16, literal: Name): RPNItem {
    RPNItem(Token(TokenFloatNumber, exp, position, literal), 0, 0, d)
  }

  /**
   * The program the parser makes of `round(5.3555, 2)`: `round` receives
   * `[2, 5.3555]`, finds a negative exponent in its second argument and fails.
   */
  lemma RoundArgumentsReversed(ops: DecimalOps, env: map<Name, Decimal>)
    ensures var prog := [NumberItem(Decimal(53555, -4), 4, 6, "53555"), NumberItem(Decimal(2, 0), 0, 14, "2"),
                         RPNItem(Token(TokenFunction, 0, 0, "round"), FunctionPriority, 2, ZeroValue)];
            EvalProgram(Builtins(ops), ops, env, prog) == Err(FunctionFailed("round", 0, BadSecondArgument))
  {
    var a := Decimal(53555, -4);
    var b := Decimal(2, 0);
    var call := RPNItem(Token(TokenFunction, 0, 0, "round"), FunctionPriority, 2, ZeroValue);
    var fns := Builtins(ops);
    var tail := [NumberItem(b, 0, 14, "2")] + [call];
    var prog := [NumberItem(a, 4, 6, "53555")] + tail;
    RoundCallFails(ops, env, a, b, call);
    NumberPushes(fns, ops, env, [a], b, 0, 14, "2", [call]);
    assert [a] + [b] == [a, b];
    assert ExecAll(fns, ops, env, [a], tail) == Err(FunctionFailed("round", 0, BadSecondArgument));
    NumberPushes(fns, ops, env, [], a, 4, 6, "53555", tail);
    assert [] + [a] == [a];
    assert ExecAll(fns, ops, env, [], prog) == Err(FunctionFailed("round", 0, BadSecondArgument));
    assert prog == [NumberItem(a, 4, 6, "53555"), NumberItem(b, 0, 14, "2"), call];
  }

  /** A number item pushes its value and the rest of the program runs on. */
  lemma NumberPushes(fns: map<Name, FuncInfo>, ops: DecimalOps, env: map<Name, Decimal>,
                     s: seq<Decimal>, x: Decimal, exp: Int16, position: Int16, literal: Name, q: seq<RPNItem>)
    requires CountsValid(q)
    ensures CountsValid([NumberItem(x, exp, position, literal)] + q)
    ensures ExecAll(fns, ops, env, s, [NumberItem(x, exp, position, literal)] + q) == ExecAll(fns, ops, env, s + [x], q)
  {
    var p := [NumberItem(x, exp, position, literal)] + q;
    assert p[0] == NumberItem(x, exp, position, literal) && p[1..] == q;
  }

  /** `round` called on the stack `[5.3555, 2]` fails on its second argument, which is `5.3555`. */
  lemma RoundCallFails(ops: DecimalOps, env: map<Name, Decimal>, a: Decimal, b: Decimal, call: RPNItem)
    requires a == Decimal(53555, -4) && b == Decimal(2, 0)
    requires call == RPNItem(Token(TokenFunction, 0, 0, "round"), FunctionPriority, 2, ZeroValue)
    ensures ExecAll(Builtins(ops), ops, env, [a, b], [call]) == Err(FunctionFailed("round", 0, BadSecondArgument))
  {
    var fns := Builtins(ops);
    assert fns["round"].Call([b, a]) == Err(BadSecondArgument);
    FunctionArgumentsReversed(fns, ops, env, [], [a, b], call);
    assert [] + [a, b] == [a, b];
    assert Reverse([a, b]) == [b, a];
    assert ExecItem(fns, ops, env, [a, b], call) == Err(FunctionFailed("round", 0, BadSecondArgument));
  }

  /**
   * With the map cache, a second evaluation of the same text finds the
   * program cached and gives the same answer as the first.
   */
  method EvalTwiceCached(fns: map<Name, FuncInfo>, ops: DecimalOps, exp: Name, env: map<Name, Decimal>)
    returns (first: Result<Decimal>, second: Result<Decimal>, hit: bool)
    ensures first == second == EvalText(fns, ArityOf(fns), ops, exp, env)
    ensures hit <==> ParseSpec(ArityOf(fns), exp).Ok?
  {
    var e := new ExpressionEvaluator(true, fns, ops);
    first := e.Eval(exp, env);
    var _, found := e.cache.Get(exp);
    hit := found;
    second := e.Eval(exp, env);
  }

  /**
   * Registering a new name succeeds, a second registration of it is refused,
   * and evaluation afterwards is what it was before.
   */
  method RegisterThenEval(fns: map<Name, FuncInfo>, ops: DecimalOps, name: Name,
                          call: Callable, exp: Name, env: map<Name, Decimal>)
    returns (registered: Outcome, again: Outcome, r: Result<Decimal>)
    requires name !in fns
    ensures registered == Pass && again == Fail(AlreadyRegistered(name))
    ensures r == EvalText(fns, ArityOf(fns), ops, exp, env)
  {
    var e;
    e, registered, again := RegisterTwice(fns, ops, name, call);
    RegisteredFunctionUnused(fns, name, call, ops, exp, env);
    r := e.Eval(exp, env);
    assert e.functions == fns[name := FuncInfo(call, -1)];
  }

  /** A fresh evaluator with `name` registered twice over. */
  method RegisterTwice(fns: map<Name, FuncInfo>, ops: DecimalOps, name: Name,
                       call: Callable)
    returns (e: ExpressionEvaluator, registered: Outcome, again: Outcome)
    requires name !in fns
    ensures registered == Pass && again == Fail(AlreadyRegistered(name))
    ensures e.functions == fns[name := FuncInfo(call, -1)] && e.ops == ops
    ensures e.parser.functions == ArityOf(fns)
    ensures fresh(e.cache.Repr()) && e.Valid()
  {
    e := new ExpressionEvaluator(false, fns, ops);
    registered := e.RegisterFunction(name, call);
    again := e.RegisterFunction(name, call);
  }
}
