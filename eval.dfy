/**
 * The evaluator: runs a postfix program on a value stack, and the object
 * that ties parsing, caching and evaluation together.
 *
 * `ExecItem`, `ExecAll`, `FinalValue`, `EvalProgram` and `EvalText` say what
 * evaluation yields; the class `ExpressionEvaluator` evaluates with a
 * `NumberStack` and a cache and is proved to agree with them.
 */
module Evaluation {
  import opened Common
  import opened Tokens
  import opened Decimals
  import opened Items
  import opened Stacks
  import opened Parsing
  import opened ParsingProperties
  import opened Functions
  import opened Caching

  /** Every call item of the program asks for a non-negative number of arguments. */
  predicate CountsValid(prog: seq<RPNItem>) {
    forall i :: 0 <= i < |prog| && prog[i].token.Type == TokenFunction ==> prog[i].FuncArgCount >= 0
  }

  /** A binary operator on its left and right operand. */
  function BinaryOp(ops: DecimalOps, op: Name, left: Decimal, right: Decimal, position: int): Result<Decimal> {
    if op == "+" then Ok(ops.add(left, right))
    else if op == "-" then Ok(ops.sub(left, right))
    else if op == "*" then Ok(ops.mul(left, right))
    else if op == "/" then (if IsZero(right) then Err(DivisionByZero(position)) else Ok(ops.div(left, right)))
    else if op == "%" then (if IsZero(right) then Err(DivisionByZero(position)) else Ok(ops.mod(left, right)))
    else if op == "^" then Ok(ops.pow(left, right))
    else Err(UnsupportedOperator(op, position))
  }

  /** A binary operator item on the stack: the top is the right operand, the one below it the left. */
  function ApplyBinary(ops: DecimalOps, stack: seq<Decimal>, op: Name, position: int): Result<seq<Decimal>> {
    if |stack| < 2 then Err(MissingOperand(op, position))
    else
      var v :- BinaryOp(ops, op, stack[|stack| - 2], stack[|stack| - 1], position);
      Ok(stack[..|stack| - 2] + [v])
  }

  /** What one program item does to the value stack. */
  function ExecItem(fns: map<Name, FuncInfo>, ops: DecimalOps, env: map<Name, Decimal>,
                    stack: seq<Decimal>, item: RPNItem): Result<seq<Decimal>>
    requires item.token.Type == TokenFunction ==> item.FuncArgCount >= 0
  {
    var t := item.token.Type;
    var lit := item.token.Literal;
    var pos := item.token.Position;
    if t == TokenFloatNumber then Ok(stack + [item.Number])
    else if t == TokenIdent then
      if lit in env then Ok(stack + [env[lit]]) else Err(UnboundIdent(lit, pos))
    else if t == TokenUnaryOperator then
      if |stack| < 1 then Err(MissingOperand(lit, pos))
      else if lit == "-" then Ok(stack[..|stack| - 1] + [Neg(stack[|stack| - 1])])
      else Err(UnsupportedOperator(lit, pos))
    else if t == TokenOperator then ApplyBinary(ops, stack, lit, pos)
    else if t == TokenFunction then
      if lit !in fns then Err(UnknownFunction(lit, pos))
      else if |stack| < item.FuncArgCount then Err(FunctionUnderflow(lit, pos))
      else
        match TakeTop(stack, item.FuncArgCount)
        case Err(e) => Err(e)
        case Ok(popped) =>
          match fns[lit].Call(popped.0)
          case Err(e) => Err(FunctionFailed(lit, pos, e))
          case Ok(v) => Ok(popped.1 + [v])
    else Err(UnknownTokenType(lit, pos))
  }

  /** The items in order, from the given stack. */
  function ExecAll(fns: map<Name, FuncInfo>, ops: DecimalOps, env: map<Name, Decimal>,
                   stack: seq<Decimal>, prog: seq<RPNItem>): Result<seq<Decimal>>
    requires CountsValid(prog)
    decreases |prog|
  {
    if prog == [] then Ok(stack)
    else
      var next :- ExecItem(fns, ops, env, stack, prog[0]);
      ExecAll(fns, ops, env, next, prog[1..])
  }

  /** The result read off the final stack: its one value, the zero value if it is empty, an error if more remain. */
  function FinalValue(stack: seq<Decimal>): (r: Result<Decimal>)
    ensures r.Err? <==> |stack| > 1
    ensures r.Err? ==> r.error == StackNotEmpty
    ensures |stack| == 1 ==> r == Ok(stack[0])
    ensures stack == [] ==> r == Ok(ZeroValue)
  {
    if |stack| > 1 then Err(StackNotEmpty)
    else if stack == [] then Ok(ZeroValue)
    else Ok(stack[0])
  }

  function EvalProgram(fns: map<Name, FuncInfo>, ops: DecimalOps, env: map<Name, Decimal>,
                       prog: seq<RPNItem>): Result<Decimal>
    requires CountsValid(prog)
  {
    var stack :- ExecAll(fns, ops, env, [], prog);
    FinalValue(stack)
  }

  /** Parsed programs only hold calls with at least one argument. */
  lemma ParsedCountsValid(arities: map<Name, int>, exp: Name)
    requires ParseSpec(arities, exp).Ok?
    ensures CountsValid(ParseSpec(arities, exp).value)
  {
    ParsedProgramShape(arities, exp);
  }

  /**
   * What `Eval` returns for an expression: a parse error as it is, an
   * evaluation error wrapped with the expression text, or the value.
   */
  function EvalText(fns: map<Name, FuncInfo>, arities: map<Name, int>, ops: DecimalOps,
                    exp: Name, env: map<Name, Decimal>): Result<Decimal>
  {
    match ParseSpec(arities, exp)
    case Err(e) => Err(e)
    case Ok(prog) =>
      ParsedCountsValid(arities, exp);
      match EvalProgram(fns, ops, env, prog)
      case Err(e) => Err(InExpression(exp, e))
      case Ok(v) => Ok(v)
  }

  /** The arity table the parser gets: every name with its declared arity. */
  function ArityOf(fns: map<Name, FuncInfo>): (r: map<Name, int>)
    ensures r.Keys == fns.Keys
    ensures forall k :: k in r ==> r[k] == fns[k].Args
  {
    map k | k in fns :: fns[k].Args
  }

  /** Copies the declared arities out of a function table, one name at a time. */
  method ArityTable(functions: map<Name, FuncInfo>) returns (funcArgs: map<Name, int>)
    ensures funcArgs == ArityOf(functions)
  {
    funcArgs := map[];
    var remaining := functions.Keys;
    while remaining != {}
      invariant remaining <= functions.Keys
      invariant funcArgs.Keys == functions.Keys - remaining
      invariant forall k :: k in funcArgs ==> funcArgs[k] == functions[k].Args
      decreases remaining
    {
      var k :| k in remaining;
      funcArgs := funcArgs[k := functions[k].Args];
      remaining := remaining - {k};
    }
  }

  /** The cache contents after a lookup of `exp` that parsed it on a miss and stored the program. */
  ghost function CachedAfter(cache: EvalCache, before: map<Name, seq<RPNItem>>, arities: map<Name, int>,
                             exp: Name): map<Name, seq<RPNItem>>
  {
    if cache.MapPolicy? && ParseSpec(arities, exp).Ok? then before[exp := ParseSpec(arities, exp).value]
    else before
  }

  class ExpressionEvaluator {
    var functions: map<Name, FuncInfo>
    const parser: Parser
    const cache: EvalCache
    const ops: DecimalOps

    /** The cache is separate from the evaluator, and every cached program is what parsing its key gives. */
    ghost predicate Valid()
      reads cache.Repr()
    {
      && this !in cache.Repr()
      && forall k :: k in cache.Entries() ==> ParseSpec(parser.functions, k) == Ok(cache.Entries()[k])
    }

    /** Keeps the given table, gives the parser a copy of its arities, and picks the cache policy. */
    constructor (useCache: bool, functions: map<Name, FuncInfo>, ops: DecimalOps)
      ensures this.functions == functions && this.ops == ops
      ensures parser.functions == ArityOf(functions)
      ensures cache.MapPolicy? <==> useCache
      ensures fresh(cache.Repr()) && cache.Entries() == map[]
      ensures Valid()
    {
      var funcArgs := ArityTable(functions);
      var evalCache: EvalCache;
      if useCache {
        var m := new EvalMapCache();
        evalCache := MapPolicy(m);
      } else {
        var n := new EvalNoopCache();
        evalCache := NoopPolicy(n);
      }
      this.functions := functions;
      parser := new Parser(funcArgs);
      cache := evalCache;
      this.ops := ops;
    }

    /** Parses `exp` unless it is cached, and caches the program. */
    method ParseAndCache(exp: Name) returns (r: Outcome)
      requires Valid()
      modifies cache.Repr()
      ensures Valid()
      ensures ParseSpec(parser.functions, exp).Err? ==> r == Fail(ParseSpec(parser.functions, exp).error)
      ensures ParseSpec(parser.functions, exp).Ok? ==> r == Pass
      ensures cache.Entries() == CachedAfter(cache, old(cache.Entries()), parser.functions, exp)
    {
      var _, ok := cache.Get(exp);
      if !ok {
        var items := parser.Parse(exp);
        if items.Err? {
          return Fail(items.error);
        }
        cache.Put(exp, items.value);
      } else {
        assert old(cache.Entries())[exp := ParseSpec(parser.functions, exp).value] == old(cache.Entries());
      }
      return Pass;
    }

    /** Evaluates `exp` with the given identifier values, parsing it only on a cache miss. */
    method Eval(exp: Name, identValue: map<Name, Decimal>) returns (r: Result<Decimal>)
      requires Valid()
      modifies cache.Repr()
      ensures Valid()
      ensures functions == old(functions)
      ensures r == EvalText(functions, parser.functions, ops, exp, identValue)
      ensures cache.Entries() == CachedAfter(cache, old(cache.Entries()), parser.functions, exp)
    {
      var items, ok := cache.Get(exp);
      if !ok {
        var parsed := parser.Parse(exp);
        if parsed.Err? {
          return Err(parsed.error);
        }
        items := parsed.value;
        cache.Put(exp, items);
      } else {
        assert old(cache.Entries())[exp := ParseSpec(parser.functions, exp).value] == old(cache.Entries());
      }
      ParsedCountsValid(parser.functions, exp);
      var res := EvalRPN(items, identValue);
      if res.Err? {
        return Err(InExpression(exp, res.error));
      }
      return res;
    }

    /** Adds a callable of any arity under a new name; a name already present is refused. */
    method RegisterFunction(name: Name, funcCall: Callable) returns (r: Outcome)
      modifies this
      ensures name in old(functions) ==> r == Fail(AlreadyRegistered(name)) && functions == old(functions)
      ensures name !in old(functions) ==> r == Pass && functions == old(functions)[name := FuncInfo(funcCall, -1)]
    {
      if name in functions {
        return Fail(AlreadyRegistered(name));
      }
      functions := functions[name := FuncInfo(funcCall, -1)];
      return Pass;
    }

    /** One program item applied to the value stack. */
    method ExecOne(stack: NumberStack, item: RPNItem, identValue: map<Name, Decimal>) returns (res: Outcome)
      requires item.token.Type == TokenFunction ==> item.FuncArgCount >= 0
      modifies stack
      ensures ExecItem(functions, ops, identValue, old(stack.numbers), item).Err? ==>
                res == Fail(ExecItem(functions, ops, identValue, old(stack.numbers), item).error)
      ensures ExecItem(functions, ops, identValue, old(stack.numbers), item).Ok? ==>
                res == Pass && stack.numbers == ExecItem(functions, ops, identValue, old(stack.numbers), item).value
    {
      var t := item.token.Type;
      var lit := item.token.Literal;
      var pos := item.token.Position;
      if t == TokenFloatNumber {
        stack.Push(item.Number);
      } else if t == TokenIdent {
        if lit !in identValue {
          return Fail(UnboundIdent(lit, pos));
        }
        stack.Push(identValue[lit]);
      } else if t == TokenUnaryOperator {
        if stack.Len() < 1 {
          return Fail(MissingOperand(lit, pos));
        }
        if lit == "-" {
          var value := stack.Pop();
          stack.Push(Neg(value));
        } else {
          return Fail(UnsupportedOperator(lit, pos));
        }
      } else if t == TokenOperator {
        res := ExecBinary(stack, lit, pos);
        return;
      } else if t == TokenFunction {
        if lit !in functions {
          return Fail(UnknownFunction(lit, pos));
        }
        var info := functions[lit];
        if stack.Len() < item.FuncArgCount {
          return Fail(FunctionUnderflow(lit, pos));
        }
        var popped := stack.PopN(item.FuncArgCount);
        match popped {
          case Err(_) =>
            assert false;
          case Ok(vals) =>
            var v := info.Call(vals);
            if v.Err? {
              return Fail(FunctionFailed(lit, pos, v.error));
            }
            stack.Push(v.value);
        }
      } else {
        return Fail(UnknownTokenType(lit, pos));
      }
      return Pass;
    }

    /** A binary operator item: pops the right operand, then the left, and pushes left op right. */
    method ExecBinary(stack: NumberStack, lit: Name, pos: int) returns (res: Outcome)
      modifies stack
      ensures ApplyBinary(ops, old(stack.numbers), lit, pos).Err? ==>
                res == Fail(ApplyBinary(ops, old(stack.numbers), lit, pos).error)
      ensures ApplyBinary(ops, old(stack.numbers), lit, pos).Ok? ==>
                res == Pass && stack.numbers == ApplyBinary(ops, old(stack.numbers), lit, pos).value
    {
      if stack.Len() < 2 {
        return Fail(MissingOperand(lit, pos));
      }
      var val2 := stack.Pop();
      var val1 := stack.Pop();
      var val: Decimal;
      if lit == "+" {
        val := ops.add(val1, val2);
      } else if lit == "-" {
        val := ops.sub(val1, val2);
      } else if lit == "*" {
        val := ops.mul(val1, val2);
      } else if lit == "/" {
        if IsZero(val2) {
          return Fail(DivisionByZero(pos));
        }
        val := ops.div(val1, val2);
      } else if lit == "%" {
        if IsZero(val2) {
          return Fail(DivisionByZero(pos));
        }
        val := ops.mod(val1, val2);
      } else if lit == "^" {
        val := ops.pow(val1, val2);
      } else {
        return Fail(UnsupportedOperator(lit, pos));
      }
      stack.Push(val);
      return Pass;
    }

    /** Runs a program on a fresh value stack and reads off the result. */
    method EvalRPN(items: seq<RPNItem>, identValue: map<Name, Decimal>) returns (r: Result<Decimal>)
      requires CountsValid(items)
      ensures r == EvalProgram(functions, ops, identValue, items)
    {
      var stack := new NumberStack();
      var rest := items;
      while |rest| > 0
        invariant CountsValid(rest)
        invariant ExecAll(functions, ops, identValue, [], items) == ExecAll(functions, ops, identValue, stack.numbers, rest)
        decreases |rest|
      {
        var res := ExecOne(stack, rest[0], identValue);
        if res.Fail? {
          return Err(res.error);
        }
        rest := rest[1..];
      }
      var val := stack.Pop();
      if stack.Len() > 0 {
        return Err(StackNotEmpty);
      }
      return Ok(val);
    }
  }
}
