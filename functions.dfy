/**
 * The built-in functions: each checks how many arguments it got and hands
 * them to the decimal library, and a table gives each its declared arity
 * (-1 for "any number").
 */
module Functions {
  import opened Common
  import opened Decimals

  /** A function callable from an expression: the argument values to a result or an error. */
  type Callable = seq<Decimal> -> Result<Decimal>

  /** A callable and its declared arity; an arity of 0 or less accepts any count. */
  datatype FuncInfo = FuncInfo(Call: Callable, Args: int)

  /**
   * The shape of `Max`, `Min`, `Sum` and `Avg`: the library operation on the
   * first argument and the rest; with no argument, the named zero.
   */
  function Variadic(op: ListFn, vals: seq<Decimal>): (r: Result<Decimal>)
    ensures r.Ok?
    ensures vals == [] ==> r.value == Zero
    ensures vals != [] ==> r.value == op(vals[0], vals[1..])
  {
    if |vals| == 0 then Ok(Zero) else Ok(op(vals[0], vals[1..]))
  }

  function Max(ops: DecimalOps, vals: seq<Decimal>): Result<Decimal> {
    Variadic(ops.max, vals)
  }

  function Min(ops: DecimalOps, vals: seq<Decimal>): Result<Decimal> {
    Variadic(ops.min, vals)
  }

  function Sum(ops: DecimalOps, vals: seq<Decimal>): Result<Decimal> {
    Variadic(ops.sum, vals)
  }

  function Avg(ops: DecimalOps, vals: seq<Decimal>): Result<Decimal> {
    Variadic(ops.avg, vals)
  }

  /**
   * The shape of `Round` and `Trunc`: one argument is scaled to 0 places; with
   * two, the second gives the places (its integer part, cut to 32 bits) and
   * must not have a negative exponent; any other count is an error.
   */
  function Scaled(op: ScaleFn, ops: DecimalOps, vals: seq<Decimal>): (r: Result<Decimal>)
    ensures r.Ok? <==> |vals| == 1 || (|vals| == 2 && Exponent(vals[1]) >= 0)
    ensures |vals| != 1 && |vals| != 2 ==> r == Err(BadArgumentCount)
    ensures |vals| == 2 && Exponent(vals[1]) < 0 ==> r == Err(BadSecondArgument)
    ensures |vals| == 1 ==> r == Ok(op(vals[0], 0))
    ensures |vals| == 2 && r.Ok? ==> r.value == op(vals[0], WrapInt32(ops.intPart(vals[1])))
  {
    if |vals| == 1 then Ok(op(vals[0], 0))
    else if |vals| == 2 then
      if Exponent(vals[1]) < 0 then Err(BadSecondArgument)
      else Ok(op(vals[0], WrapInt32(ops.intPart(vals[1]))))
    else Err(BadArgumentCount)
  }

  function Round(ops: DecimalOps, vals: seq<Decimal>): Result<Decimal> {
    Scaled(ops.round, ops, vals)
  }

  function Trunc(ops: DecimalOps, vals: seq<Decimal>): Result<Decimal> {
    Scaled(ops.truncate, ops, vals)
  }

  /** The shape of `Abs`, `Floor` and `Ceil`: exactly one argument. */
  function Single(op: UnaryFn, vals: seq<Decimal>): (r: Result<Decimal>)
    ensures r.Ok? <==> |vals| == 1
    ensures r.Err? ==> r.error == BadArgumentCount
    ensures r.Ok? ==> r.value == op(vals[0])
  {
    if |vals| != 1 then Err(BadArgumentCount) else Ok(op(vals[0]))
  }

  function Abs(ops: DecimalOps, vals: seq<Decimal>): Result<Decimal> {
    Single(ops.abs, vals)
  }

  function Floor(ops: DecimalOps, vals: seq<Decimal>): Result<Decimal> {
    Single(ops.floor, vals)
  }

  function Ceil(ops: DecimalOps, vals: seq<Decimal>): Result<Decimal> {
    Single(ops.ceil, vals)
  }

  /** The built-in table. */
  function Builtins(ops: DecimalOps): map<Name, FuncInfo> {
    map[
      "max" := FuncInfo(vals => Max(ops, vals), -1),
      "min" := FuncInfo(vals => Min(ops, vals), -1),
      "sum" := FuncInfo(vals => Sum(ops, vals), -1),
      "avg" := FuncInfo(vals => Avg(ops, vals), -1),
      "round" := FuncInfo(vals => Round(ops, vals), 2),
      "floor" := FuncInfo(vals => Floor(ops, vals), 1),
      "ceil" := FuncInfo(vals => Ceil(ops, vals), 1),
      "abs" := FuncInfo(vals => Abs(ops, vals), 1),
      "trunc" := FuncInfo(vals => Trunc(ops, vals), 2)
    ]
  }

  /** The nine names and their declared arities. */
  lemma BuiltinArities(ops: DecimalOps)
    ensures Builtins(ops).Keys == {"max", "min", "sum", "avg", "round", "floor", "ceil", "abs", "trunc"}
    ensures forall n :: n in {"max", "min", "sum", "avg"} ==> Builtins(ops)[n].Args == -1
    ensures Builtins(ops)["round"].Args == 2 && Builtins(ops)["trunc"].Args == 2
    ensures forall n :: n in {"floor", "ceil", "abs"} ==> Builtins(ops)[n].Args == 1
  {
  }

  /**
   * A call with the count its declared arity allows never fails for the
   * count: the variadic four and the one-argument three always succeed, and
   * `round`/`trunc` with two arguments fail only on the second's exponent.
   */
  lemma DeclaredCountsAccepted(ops: DecimalOps, name: Name, vals: seq<Decimal>)
    requires name in Builtins(ops)
    requires Builtins(ops)[name].Args <= 0 || |vals| == Builtins(ops)[name].Args
    ensures Builtins(ops)[name].Call(vals) != Err(BadArgumentCount)
    ensures name != "round" && name != "trunc" ==> Builtins(ops)[name].Call(vals).Ok?
    ensures (name == "round" || name == "trunc") ==>
              (Builtins(ops)[name].Call(vals).Ok? <==> Exponent(vals[1]) >= 0)
  {
    BuiltinArities(ops);
  }
}
