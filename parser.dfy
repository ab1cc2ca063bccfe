/**
 * The shunting-yard parser: turns the token stream of an infix expression
 * into a postfix program, checking function arity when a call is
 * finalised.
 *
 * The functions up to `ParseSpec` say what parsing yields: a state of
 * output program, operator stack and argument counters, the step each
 * token makes on it, and the final drain. The class `Parser` parses with
 * the stack objects and is proved to agree with them.
 */
module Parsing {
  import opened Common
  import opened Tokens
  import opened Lexing
  import opened Decimals
  import opened Items
  import opened Stacks

  /** The program built so far, the operator stack, and one argument counter per open call. */
  datatype PState = PState(output: seq<RPNItem>, stack: seq<RPNItem>, args: seq<int>)

  const Start: PState := PState([], [], [])

  /**
   * A finalised call is valid when its name is in the arity table and, if
   * the declared arity is positive, the counted arguments equal it.
   */
  function CheckFunction(fns: map<Name, int>, item: RPNItem): (r: Outcome)
    ensures r.Pass? <==> item.token.Literal in fns
                         && (fns[item.token.Literal] > 0 ==> item.FuncArgCount == fns[item.token.Literal])
    ensures item.token.Literal !in fns ==> r == Fail(UnknownFunction(item.token.Literal, item.token.Position))
    ensures item.token.Literal in fns && r.Fail? ==> r == Fail(ArityMismatch(item.token.Literal, item.token.Position))
  {
    var name := item.token.Literal;
    if name !in fns then Fail(UnknownFunction(name, item.token.Position))
    else if fns[name] > 0 && item.FuncArgCount != fns[name] then Fail(ArityMismatch(name, item.token.Position))
    else Pass
  }

  /**
   * What happens to an item taken off the operator stack on its way to the
   * output: a function item takes the top argument counter as its count
   * and must pass `CheckFunction`; any other item is unchanged.
   */
  function Finalize(fns: map<Name, int>, item: RPNItem, args: seq<int>): Result<(RPNItem, seq<int>)> {
    if item.token.Type == TokenFunction then
      var f := item.(FuncArgCount := TopOr(args, 0));
      var check := CheckFunction(fns, f);
      if check.Fail? then Err(check.error) else Ok((f, PopTop(args).1))
    else Ok((item, args))
  }

  /** Moves the top stack item to the output. */
  function PopToOutput(fns: map<Name, int>, st: PState): (r: Result<PState>)
    requires st.stack != []
    ensures r.Ok? ==> r.value.stack == st.stack[..|st.stack| - 1]
  {
    var fin :- Finalize(fns, st.stack[|st.stack| - 1], st.args);
    Ok(PState(st.output + [fin.0], st.stack[..|st.stack| - 1], fin.1))
  }

  /** Before an operator of priority `prio` is stacked: pops every item of priority at least `prio`. */
  function PopWhileHigher(fns: map<Name, int>, st: PState, prio: int): Result<PState>
    decreases |st.stack|
  {
    if st.stack == [] || st.stack[|st.stack| - 1].Priority < prio then Ok(st)
    else
      var next :- PopToOutput(fns, st);
      PopWhileHigher(fns, next, prio)
  }

  /** A right parenthesis: pops up to and removes the nearest left parenthesis, which must exist. */
  function CloseParen(fns: map<Name, int>, st: PState, position: int): Result<PState>
    decreases |st.stack|
  {
    if st.stack == [] then Err(UnmatchedRightParen(position))
    else if st.stack[|st.stack| - 1].token.Type == TokenLeftParen then Ok(st.(stack := st.stack[..|st.stack| - 1]))
    else
      var next :- PopToOutput(fns, st);
      CloseParen(fns, next, position)
  }

  /** A comma: pops up to, and keeps, the nearest left parenthesis (or empties the stack). */
  function PopToLeftParen(fns: map<Name, int>, st: PState): Result<PState>
    decreases |st.stack|
  {
    if st.stack == [] || st.stack[|st.stack| - 1].token.Type == TokenLeftParen then Ok(st)
    else
      var next :- PopToOutput(fns, st);
      PopToLeftParen(fns, next)
  }

  /** End of input: pops everything to the output; a parenthesis left on the stack is an error. */
  function Drain(fns: map<Name, int>, st: PState): Result<seq<RPNItem>>
    decreases |st.stack|
  {
    if st.stack == [] then Ok(st.output)
    else
      var item := st.stack[|st.stack| - 1];
      if item.token.Type == TokenLeftParen then Err(UnclosedLeftParen(item.token.Position))
      else if item.token.Type == TokenRightParen then Err(StrayRightParen(item.token.Position))
      else
        var next :- PopToOutput(fns, st);
        Drain(fns, next)
  }

  /** A token the scanner returns before the end of input. */
  predicate InputKind(t: TokenType) {
    ScannedKind(t) && t != TokenEOF
  }

  /** What one token does to the state. */
  function Step(fns: map<Name, int>, st: PState, tok: Token): Result<PState>
    requires InputKind(tok.Type)
  {
    if tok.Type == TokenIllegal then Err(IllegalToken(tok.Literal, tok.Position))
    else
      var item :- NewRPNItem(tok);
      if tok.Type == TokenFloatNumber || tok.Type == TokenIdent then Ok(st.(output := st.output + [item]))
      else if tok.Type == TokenOperator || tok.Type == TokenUnaryOperator then
        var next :- PopWhileHigher(fns, st, item.Priority);
        Ok(next.(stack := next.stack + [item]))
      else if tok.Type == TokenLeftParen then Ok(st.(stack := st.stack + [item]))
      else if tok.Type == TokenRightParen then CloseParen(fns, st, tok.Position)
      else if tok.Type == TokenFunction then Ok(st.(stack := st.stack + [item], args := st.args + [1]))
      else
        var next :- PopToLeftParen(fns, st);
        Ok(next.(args := IncTop(next.args)))
  }

  /** All tokens in order, then the drain. */
  function Run(fns: map<Name, int>, st: PState, toks: seq<Token>): Result<seq<RPNItem>>
    requires forall i :: 0 <= i < |toks| ==> InputKind(toks[i].Type)
    decreases |toks|
  {
    if toks == [] then Drain(fns, st)
    else
      var next :- Step(fns, st, toks[0]);
      Run(fns, next, toks[1..])
  }

  /** A token whose step succeeds hands the rest of the run to the state it reaches. */
  lemma RunCons(fns: map<Name, int>, st: PState, tok: Token, rest: seq<Token>, next: PState)
    requires InputKind(tok.Type) && forall k :: 0 <= k < |rest| ==> InputKind(rest[k].Type)
    requires Step(fns, st, tok) == Ok(next)
    ensures forall k :: 0 <= k < |[tok] + rest| ==> InputKind(([tok] + rest)[k].Type)
    ensures Run(fns, st, [tok] + rest) == Run(fns, next, rest)
  {
    assert ([tok] + rest)[0] == tok && ([tok] + rest)[1..] == rest;
  }

  /** What `Parse` returns for an expression. */
  function ParseSpec(fns: map<Name, int>, input: seq<Byte>): Result<seq<RPNItem>> {
    if |input| >= MaxInt16 then Err(InputTooLong)
    else Run(fns, Start, TokensFrom(input, 0, TokenEOF))
  }

  /** The outcome `r` of a parsing helper and its stacks match the outcome `s` of the corresponding function. */
  ghost predicate Mirrors(r: Result<seq<RPNItem>>, s: Result<PState>, items: StackItems, args: ArgStack)
    reads items, args
  {
    match s
    case Err(e) => r == Err(e)
    case Ok(st) => r == Ok(st.output) && items.Items == st.stack && args.args == st.args
  }

  class Parser {
    /** Declared arity per function name; a value of 0 or less accepts any count. */
    const functions: map<Name, int>

    constructor (functions: map<Name, int>)
      ensures this.functions == functions
    {
      this.functions := functions;
    }

    /** Finalises an item popped off the operator stack. */
    method FinishItem(item: RPNItem, args: ArgStack) returns (r: Result<RPNItem>)
      modifies args
      ensures Finalize(functions, item, old(args.args)).Err? ==> r == Err(Finalize(functions, item, old(args.args)).error)
      ensures Finalize(functions, item, old(args.args)).Ok? ==>
                r == Ok(Finalize(functions, item, old(args.args)).value.0)
                && args.args == Finalize(functions, item, old(args.args)).value.1
    {
      if item.token.Type == TokenFunction {
        var count := args.Pop();
        var f := item.(FuncArgCount := count);
        var check := CheckFunction(functions, f);
        if check.Fail? {
          return Err(check.error);
        }
        return Ok(f);
      }
      return Ok(item);
    }

    /** The pop loop before an operator of priority `prio` is stacked. */
    method PopHigher(items: StackItems, args: ArgStack, output: seq<RPNItem>, prio: int)
      returns (r: Result<seq<RPNItem>>)
      modifies items, args
      ensures Mirrors(r, PopWhileHigher(functions, PState(output, old(items.Items), old(args.args)), prio), items, args)
    {
      var out := output;
      while items.Len() > 0
        invariant PopWhileHigher(functions, PState(output, old(items.Items), old(args.args)), prio)
                  == PopWhileHigher(functions, PState(out, items.Items, args.args), prio)
        decreases |items.Items|
      {
        var top := items.Pop();
        var item := top.value;
        if item.Priority < prio {
          items.Push(item);
          break;
        }
        var fin := FinishItem(item, args);
        if fin.Err? {
          return Err(fin.error);
        }
        out := out + [fin.value];
      }
      return Ok(out);
    }

    /** The pop loop of a right parenthesis. */
    method PopToMatchingParen(items: StackItems, args: ArgStack, output: seq<RPNItem>, position: int)
      returns (r: Result<seq<RPNItem>>)
      modifies items, args
      ensures Mirrors(r, CloseParen(functions, PState(output, old(items.Items), old(args.args)), position), items, args)
    {
      var out := output;
      var closed := false;
      while items.Len() > 0
        invariant !closed ==> CloseParen(functions, PState(output, old(items.Items), old(args.args)), position)
                              == CloseParen(functions, PState(out, items.Items, args.args), position)
        invariant closed ==> CloseParen(functions, PState(output, old(items.Items), old(args.args)), position)
                             == Ok(PState(out, items.Items, args.args))
        decreases if closed then 0 else |items.Items| + 1
      {
        var top := items.Pop();
        var item := top.value;
        if item.token.Type == TokenLeftParen {
          closed := true;
          break;
        }
        var fin := FinishItem(item, args);
        if fin.Err? {
          return Err(fin.error);
        }
        out := out + [fin.value];
      }
      if !closed {
        return Err(UnmatchedRightParen(position));
      }
      return Ok(out);
    }

    /** The pop loop of a comma. */
    method PopToOpenParen(items: StackItems, args: ArgStack, output: seq<RPNItem>)
      returns (r: Result<seq<RPNItem>>)
      modifies items, args
      ensures Mirrors(r, PopToLeftParen(functions, PState(output, old(items.Items), old(args.args))), items, args)
    {
      var out := output;
      while items.Len() > 0
        invariant PopToLeftParen(functions, PState(output, old(items.Items), old(args.args)))
                  == PopToLeftParen(functions, PState(out, items.Items, args.args))
        decreases |items.Items|
      {
        var top := items.Pop();
        var item := top.value;
        if item.token.Type == TokenLeftParen {
          items.Push(item);
          break;
        }
        var fin := FinishItem(item, args);
        if fin.Err? {
          return Err(fin.error);
        }
        out := out + [fin.value];
      }
      return Ok(out);
    }

    /** The final loop that empties the operator stack. */
    method DrainStack(items: StackItems, args: ArgStack, output: seq<RPNItem>) returns (r: Result<seq<RPNItem>>)
      modifies items, args
      ensures r == Drain(functions, PState(output, old(items.Items), old(args.args)))
    {
      var out := output;
      while items.Len() > 0
        invariant Drain(functions, PState(output, old(items.Items), old(args.args)))
                  == Drain(functions, PState(out, items.Items, args.args))
        decreases |items.Items|
      {
        var top := items.Pop();
        var item := top.value;
        if item.token.Type == TokenLeftParen {
          return Err(UnclosedLeftParen(item.token.Position));
        } else if item.token.Type == TokenRightParen {
          return Err(StrayRightParen(item.token.Position));
        }
        var fin := FinishItem(item, args);
        if fin.Err? {
          return Err(fin.error);
        }
        out := out + [fin.value];
      }
      return Ok(out);
    }

    /** The body of the token loop: one token applied to the output and the two stacks. */
    method Apply(token: Token, items: StackItems, args: ArgStack, output: seq<RPNItem>)
      returns (r: Result<seq<RPNItem>>)
      requires InputKind(token.Type)
      modifies items, args
      ensures Mirrors(r, Step(functions, PState(output, old(items.Items), old(args.args)), token), items, args)
    {
      if token.Type == TokenIllegal {
        return Err(IllegalToken(token.Literal, token.Position));
      }
      var newItem :- NewRPNItem(token);
      if token.Type == TokenFloatNumber || token.Type == TokenIdent {
        r := Ok(output + [newItem]);
      } else if token.Type == TokenOperator || token.Type == TokenUnaryOperator {
        r := PopHigher(items, args, output, newItem.Priority);
        if r.Ok? {
          items.Push(newItem);
        }
      } else if token.Type == TokenLeftParen {
        items.Push(newItem);
        r := Ok(output);
      } else if token.Type == TokenRightParen {
        r := PopToMatchingParen(items, args, output, token.Position);
      } else if token.Type == TokenFunction {
        items.Push(newItem);
        args.Push();
        r := Ok(output);
      } else {
        r := PopToOpenParen(items, args, output);
        if r.Ok? {
          args.Inc();
        }
      }
    }

    /** Parses an expression into a postfix program. */
    method Parse(exp: seq<Byte>) returns (r: Result<seq<RPNItem>>)
      ensures r == ParseSpec(functions, exp)
    {
      var lexed := NewLexer(exp);
      if lexed.Err? {
        return Err(lexed.error);
      }
      var l := lexed.value;
      var output: seq<RPNItem> := [];
      var items := new StackItems();
      var args := new ArgStack();
      ghost var spec := ParseSpec(functions, exp);
      var token := l.NextToken();
      while token.Type != TokenEOF
        invariant l.Valid() && l.input == exp && l.prevToken == token
        invariant ScannedKind(token.Type)
        invariant token.Type != TokenEOF ==>
                    l.position <= |exp|
                    && spec == Run(functions, PState(output, items.Items, args.args),
                                   [token] + TokensFrom(exp, l.position, token.Type))
        invariant token.Type == TokenEOF ==> spec == Run(functions, PState(output, items.Items, args.args), [])
        decreases if token.Type == TokenEOF then 0 else |exp| + 1 - l.position
      {
        ghost var rest := TokensFrom(exp, l.position, token.Type);
        assert ([token] + rest)[1..] == rest;
        r := Apply(token, items, args, output);
        if r.Err? {
          return r;
        }
        output := r.value;
        token := l.NextToken();
      }
      r := DrainStack(items, args, output);
    }
  }
}
