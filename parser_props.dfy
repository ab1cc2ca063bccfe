/**
 * Properties of the parser, stated on the functions the `Parser` class is
 * proved against: what a program may contain, that operands keep their
 * source order, and which inputs are rejected.
 */
module ParsingProperties {
  import opened Common
  import opened Tokens
  import opened Lexing
  import opened Items
  import opened Stacks
  import opened Parsing

  predicate IsOperand(t: TokenType) {
    t == TokenFloatNumber || t == TokenIdent
  }

  /**
   * An item a program may hold: an operand, an operator, or a function
   * call whose name is in the table, whose count is at least 1 and which
   * matches a positive declared arity.
   */
  predicate OutputItem(fns: map<Name, int>, it: RPNItem) {
    var t := it.token.Type;
    || IsOperand(t) || t == TokenOperator || t == TokenUnaryOperator
    || (&& t == TokenFunction && it.token.Literal in fns && it.FuncArgCount >= 1
        && (fns[it.token.Literal] > 0 ==> it.FuncArgCount == fns[it.token.Literal]))
  }

  /** An item the operator stack may hold; a left parenthesis there has priority 0. */
  predicate StackItem(it: RPNItem) {
    var t := it.token.Type;
    t == TokenOperator || t == TokenUnaryOperator || t == TokenFunction || (t == TokenLeftParen && it.Priority == 0)
  }

  function CountFunctions(s: seq<RPNItem>): nat {
    if s == [] then 0
    else CountFunctions(s[..|s| - 1]) + (if s[|s| - 1].token.Type == TokenFunction then 1 else 0)
  }

  /** The tokens of the operand items, in program order. */
  function Operands(items: seq<RPNItem>): seq<Token> {
    if items == [] then []
    else Operands(items[..|items| - 1]) + (if IsOperand(items[|items| - 1].token.Type) then [items[|items| - 1].token] else [])
  }

  /** The operand tokens of a token sequence, in order. */
  function OperandTokens(toks: seq<Token>): seq<Token> {
    if toks == [] then []
    else (if IsOperand(toks[0].Type) then [toks[0]] else []) + OperandTokens(toks[1..])
  }

  /**
   * The invariant of the parser state: the program holds only `OutputItem`s,
   * the stack only `StackItem`s, and there is one counter, at least 1, per
   * function item on the stack.
   */
  predicate Shaped(fns: map<Name, int>, st: PState) {
    && (forall i :: 0 <= i < |st.output| ==> OutputItem(fns, st.output[i]))
    && (forall i :: 0 <= i < |st.stack| ==> StackItem(st.stack[i]))
    && |st.args| == CountFunctions(st.stack)
    && (forall i :: 0 <= i < |st.args| ==> st.args[i] >= 1)
  }

  /** `after` is shaped, has the operands of `before`, and holds no more items. */
  predicate Kept(fns: map<Name, int>, before: PState, after: PState) {
    && Shaped(fns, after)
    && Operands(after.output) == Operands(before.output)
    && |after.output| + |after.stack| <= |before.output| + |before.stack|
  }

  lemma OperandsAppend(items: seq<RPNItem>, x: RPNItem)
    ensures Operands(items + [x]) == Operands(items) + (if IsOperand(x.token.Type) then [x.token] else [])
  {
    assert (items + [x])[..|items|] == items;
  }

  lemma CountFunctionsAppend(s: seq<RPNItem>, x: RPNItem)
    ensures CountFunctions(s + [x]) == CountFunctions(s) + (if x.token.Type == TokenFunction then 1 else 0)
  {
    assert (s + [x])[..|s|] == s;
  }

  lemma {:induction false} CountFunctionsConcat(a: seq<RPNItem>, b: seq<RPNItem>)
    ensures CountFunctions(a + b) == CountFunctions(a) + CountFunctions(b)
    decreases |b|
  {
    if b == [] {
      assert a + b == a;
    } else {
      var front := b[..|b| - 1];
      assert a + b == (a + front) + [b[|b| - 1]];
      assert b == front + [b[|b| - 1]];
      CountFunctionsAppend(a + front, b[|b| - 1]);
      CountFunctionsAppend(front, b[|b| - 1]);
      CountFunctionsConcat(a, front);
    }
  }

  /** The calls above index `i` and the calls below it add up, with the item at `i` in between. */
  lemma CountFunctionsAround(s: seq<RPNItem>, i: nat)
    requires i < |s|
    ensures CountFunctions(s) == CountFunctions(s[..i]) + (if s[i].token.Type == TokenFunction then 1 else 0) + CountFunctions(s[i + 1..])
  {
    assert s == (s[..i] + [s[i]]) + s[i + 1..];
    CountFunctionsConcat(s[..i] + [s[i]], s[i + 1..]);
    CountFunctionsAppend(s[..i], s[i]);
  }

  lemma {:induction false} NoFunctions(s: seq<RPNItem>)
    ensures CountFunctions(s) == 0 <==> forall j :: 0 <= j < |s| ==> s[j].token.Type != TokenFunction
    decreases |s|
  {
    if s != [] {
      NoFunctions(s[..|s| - 1]);
      assert forall j :: 0 <= j < |s| - 1 ==> s[..|s| - 1][j] == s[j];
    }
  }

  /** One argument counter per call on the stack, the bottom call's first. */
  predicate Aligned(st: PState) {
    |st.args| == CountFunctions(st.stack)
  }

  /**
   * The item at stack index `i` as it reaches the output: a call takes the
   * counter that belongs to it, the one after the counters of the calls
   * below it; any other item goes out unchanged.
   */
  function Leaving(st: PState, i: nat): RPNItem
    requires i < |st.stack|
  {
    var item := st.stack[i];
    if item.token.Type != TokenFunction then item
    else
      var c := CountFunctions(st.stack[..i]);
      item.(FuncArgCount := if c < |st.args| then st.args[c] else 0)
  }

  /** The call at stack index `i` is the innermost open call: no call lies above it. */
  predicate TopCall(stack: seq<RPNItem>, i: int) {
    && 0 <= i < |stack| && stack[i].token.Type == TokenFunction
    && forall j :: i < j < |stack| ==> stack[j].token.Type != TokenFunction
  }

  /**
   * `next` is `st` after its top `n` stack items went to the output, topmost
   * first, each as `Leaving` says, with the counters of the moved calls
   * dropped and every other counter kept.
   */
  predicate Moved(st: PState, n: nat, next: PState) {
    && n <= |st.stack|
    && next.stack == st.stack[..|st.stack| - n]
    && CountFunctions(next.stack) <= |st.args|
    && next.args == st.args[..CountFunctions(next.stack)]
    && |next.output| == |st.output| + n
    && next.output[..|st.output|] == st.output
    && forall i :: |st.stack| - n <= i < |st.stack| ==> next.output[|st.output| + (|st.stack| - 1 - i)] == Leaving(st, i)
  }

  /** Items that stay on the stack keep the counter they would leave with. */
  lemma LeavingBelow(st: PState, n: nat, mid: PState, i: nat)
    requires Moved(st, n, mid) && i < |mid.stack|
    ensures Leaving(mid, i) == Leaving(st, i)
  {
    assert mid.stack[..i] == st.stack[..i];
    if mid.stack[i].token.Type == TokenFunction {
      CountFunctionsAround(mid.stack, i);
    }
  }

  lemma MovedNone(st: PState)
    requires Aligned(st)
    ensures Moved(st, 0, st)
  {
    assert st.stack[..|st.stack|] == st.stack;
    assert st.args[..|st.args|] == st.args;
    assert st.output[..|st.output|] == st.output;
  }

  /** `PopToOutput` moves exactly the top item, with its own counter if it is a call. */
  lemma MovedOne(fns: map<Name, int>, st: PState)
    requires Aligned(st) && st.stack != [] && PopToOutput(fns, st).Ok?
    ensures Moved(st, 1, PopToOutput(fns, st).value)
  {
    var item := st.stack[|st.stack| - 1];
    var rest := st.stack[..|st.stack| - 1];
    assert st.stack == rest + [item];
    CountFunctionsAppend(rest, item);
    var next := PopToOutput(fns, st).value;
    assert next.output[..|st.output|] == st.output;
    if item.token.Type == TokenFunction {
      assert next.args == st.args[..|st.args| - 1];
    } else {
      assert st.args[..|st.args|] == st.args;
    }
  }

  lemma MovedTrans(st: PState, n: nat, mid: PState, m: nat, next: PState)
    requires Moved(st, n, mid) && Moved(mid, m, next)
    ensures Moved(st, n + m, next)
  {
    var k := |next.stack|;
    assert next.stack == st.stack[..k];
    assert mid.stack == next.stack + mid.stack[k..];
    CountFunctionsConcat(next.stack, mid.stack[k..]);
    assert next.args == st.args[..CountFunctions(next.stack)];
    MovedTransOutput(st, n, mid, m, next);
  }

  lemma MovedTransOutput(st: PState, n: nat, mid: PState, m: nat, next: PState)
    requires Moved(st, n, mid) && Moved(mid, m, next)
    ensures next.output[..|st.output|] == st.output
    ensures forall i :: |st.stack| - (n + m) <= i < |st.stack| ==> next.output[|st.output| + (|st.stack| - 1 - i)] == Leaving(st, i)
  {
    assert next.output[..|mid.output|] == mid.output;
    assert next.output[..|st.output|] == mid.output[..|st.output|];
    forall i | |st.stack| - (n + m) <= i < |st.stack|
      ensures next.output[|st.output| + (|st.stack| - 1 - i)] == Leaving(st, i)
    {
      if i >= |mid.stack| {
        assert next.output[|st.output| + (|st.stack| - 1 - i)] == mid.output[|st.output| + (|st.stack| - 1 - i)];
      } else {
        assert |st.output| + (|st.stack| - 1 - i) == |mid.output| + (|mid.stack| - 1 - i);
        LeavingBelow(st, n, mid, i);
      }
    }
  }

  /** The bottom of the run of items of priority at least `prio` at the top of the stack. */
  function HigherRunStart(stack: seq<RPNItem>, prio: int): (k: nat)
    ensures k <= |stack|
    ensures forall i :: k <= i < |stack| ==> stack[i].Priority >= prio
    ensures k == 0 || stack[k - 1].Priority < prio
    decreases |stack|
  {
    if stack == [] || stack[|stack| - 1].Priority < prio then |stack|
    else HigherRunStart(stack[..|stack| - 1], prio)
  }

  /** The bottom of the run of items above the topmost left parenthesis. */
  function ParenRunStart(stack: seq<RPNItem>): (k: nat)
    ensures k <= |stack|
    ensures forall i :: k <= i < |stack| ==> stack[i].token.Type != TokenLeftParen
    ensures k == 0 || stack[k - 1].token.Type == TokenLeftParen
    decreases |stack|
  {
    if stack == [] || stack[|stack| - 1].token.Type == TokenLeftParen then |stack|
    else ParenRunStart(stack[..|stack| - 1])
  }

  /**
   * Before an operator of priority `prio` is stacked, exactly the longest
   * run of items of priority at least `prio` at the top of the stack goes
   * to the output, topmost first; so the stack is then empty or its top
   * binds less tightly than `prio`, and an equal priority is popped (left
   * association).
   */
  lemma {:induction false} PopWhileHigherMoves(fns: map<Name, int>, st: PState, prio: int)
    requires Aligned(st) && PopWhileHigher(fns, st, prio).Ok?
    ensures Moved(st, |st.stack| - HigherRunStart(st.stack, prio), PopWhileHigher(fns, st, prio).value)
    ensures var r := PopWhileHigher(fns, st, prio).value;
            r.stack == [] || r.stack[|r.stack| - 1].Priority < prio
    decreases |st.stack|
  {
    if st.stack == [] || st.stack[|st.stack| - 1].Priority < prio {
      MovedNone(st);
    } else {
      var next := PopToOutput(fns, st).value;
      MovedOne(fns, st);
      PopWhileHigherMoves(fns, next, prio);
      MovedTrans(st, 1, next, |next.stack| - HigherRunStart(next.stack, prio), PopWhileHigher(fns, st, prio).value);
    }
  }

  /** The operator loop fails exactly when a call it moves is refused by the arity check. */
  lemma {:induction false} PopWhileHigherFails(fns: map<Name, int>, st: PState, prio: int)
    requires Aligned(st)
    ensures PopWhileHigher(fns, st, prio).Ok? <==>
            forall i :: HigherRunStart(st.stack, prio) <= i < |st.stack| && st.stack[i].token.Type == TokenFunction
                        ==> CheckFunction(fns, Leaving(st, i)) == Pass
    decreases |st.stack|
  {
    if !(st.stack == [] || st.stack[|st.stack| - 1].Priority < prio) {
      PopToOutputOk(fns, st);
      if PopToOutput(fns, st).Ok? {
        var next := PopToOutput(fns, st).value;
        MovedOne(fns, st);
        PopWhileHigherFails(fns, next, prio);
        assert HigherRunStart(st.stack, prio) == HigherRunStart(next.stack, prio);
        forall i | 0 <= i < |next.stack| {
          LeavingBelow(st, 1, next, i);
        }
      }
    }
  }

  /** Moving the top item fails exactly when it is a call refused with the counter it leaves with. */
  lemma PopToOutputOk(fns: map<Name, int>, st: PState)
    requires Aligned(st) && st.stack != []
    ensures var top := |st.stack| - 1;
            PopToOutput(fns, st).Ok? <==>
              (st.stack[top].token.Type == TokenFunction ==> CheckFunction(fns, Leaving(st, top)) == Pass)
  {
    var top := |st.stack| - 1;
    assert st.stack[..top] + [st.stack[top]] == st.stack;
    CountFunctionsAppend(st.stack[..top], st.stack[top]);
  }

  /** A comma moves exactly the items above the topmost left parenthesis, which stays. */
  lemma {:induction false} PopToLeftParenMoves(fns: map<Name, int>, st: PState)
    requires Aligned(st) && PopToLeftParen(fns, st).Ok?
    ensures Moved(st, |st.stack| - ParenRunStart(st.stack), PopToLeftParen(fns, st).value)
    decreases |st.stack|
  {
    if st.stack == [] || st.stack[|st.stack| - 1].token.Type == TokenLeftParen {
      MovedNone(st);
    } else {
      var next := PopToOutput(fns, st).value;
      MovedOne(fns, st);
      PopToLeftParenMoves(fns, next);
      MovedTrans(st, 1, next, |next.stack| - ParenRunStart(next.stack), PopToLeftParen(fns, st).value);
    }
  }

  /** A right parenthesis is the comma's loop followed by removing the left parenthesis it stops at. */
  lemma {:induction false} CloseParenIsPopToLeftParen(fns: map<Name, int>, st: PState, position: int)
    ensures CloseParen(fns, st, position)
            == match PopToLeftParen(fns, st)
               case Err(e) => Err(e)
               case Ok(m) => if m.stack == [] then Err(UnmatchedRightParen(position))
                             else Ok(m.(stack := m.stack[..|m.stack| - 1]))
    decreases |st.stack|
  {
    if st.stack != [] && st.stack[|st.stack| - 1].token.Type != TokenLeftParen && PopToOutput(fns, st).Ok? {
      CloseParenIsPopToLeftParen(fns, PopToOutput(fns, st).value, position);
    }
  }

  /** A successful drain moves the whole stack to the output, topmost first. */
  lemma {:induction false} DrainMoves(fns: map<Name, int>, st: PState)
    requires Aligned(st) && Drain(fns, st).Ok?
    ensures Moved(st, |st.stack|, PState(Drain(fns, st).value, [], []))
    decreases |st.stack|
  {
    if st.stack == [] {
      MovedNone(st);
    } else {
      var next := PopToOutput(fns, st).value;
      MovedOne(fns, st);
      DrainMoves(fns, next);
      MovedTrans(st, 1, next, |next.stack|, PState(Drain(fns, st).value, [], []));
    }
  }

  /** Moving the top of the stack to the output keeps the invariant, and the moved item is no operand. */
  lemma PopToOutputKept(fns: map<Name, int>, st: PState)
    requires Shaped(fns, st) && st.stack != [] && PopToOutput(fns, st).Ok?
    requires st.stack[|st.stack| - 1].token.Type != TokenLeftParen
    ensures Kept(fns, st, PopToOutput(fns, st).value)
  {
    var item := st.stack[|st.stack| - 1];
    var rest := st.stack[..|st.stack| - 1];
    assert st.stack == rest + [item];
    CountFunctionsAppend(rest, item);
    var next := PopToOutput(fns, st).value;
    var fin := Finalize(fns, item, st.args).value;
    assert next == PState(st.output + [fin.0], rest, fin.1);
    assert StackItem(item);
    OperandsAppend(st.output, fin.0);
    if item.token.Type == TokenFunction {
      assert st.args != [] && st.args[|st.args| - 1] >= 1;
      assert fin.0.FuncArgCount == st.args[|st.args| - 1];
      assert CheckFunction(fns, fin.0) == Pass;
    }
    assert OutputItem(fns, fin.0);
    assert forall i :: 0 <= i < |next.output| ==> OutputItem(fns, next.output[i]) by {
      forall i | 0 <= i < |next.output|
        ensures OutputItem(fns, next.output[i])
      {
        if i < |st.output| {
          assert next.output[i] == st.output[i];
        }
      }
    }
  }

  lemma {:induction false} PopWhileHigherKept(fns: map<Name, int>, st: PState, prio: int)
    requires Shaped(fns, st) && PopWhileHigher(fns, st, prio).Ok? && prio > 0
    ensures Kept(fns, st, PopWhileHigher(fns, st, prio).value)
    decreases |st.stack|
  {
    if !(st.stack == [] || st.stack[|st.stack| - 1].Priority < prio) {
      PopToOutputKept(fns, st);
      PopWhileHigherKept(fns, PopToOutput(fns, st).value, prio);
    }
  }

  lemma {:induction false} CloseParenKept(fns: map<Name, int>, st: PState, position: int)
    requires Shaped(fns, st) && CloseParen(fns, st, position).Ok?
    ensures Kept(fns, st, CloseParen(fns, st, position).value)
    decreases |st.stack|
  {
    if st.stack[|st.stack| - 1].token.Type == TokenLeftParen {
      DropParenKept(fns, st);
    } else {
      PopToOutputKept(fns, st);
      CloseParenKept(fns, PopToOutput(fns, st).value, position);
    }
  }

  /** Removing a left parenthesis from the top of the stack keeps the invariant. */
  lemma DropParenKept(fns: map<Name, int>, st: PState)
    requires Shaped(fns, st) && st.stack != [] && st.stack[|st.stack| - 1].token.Type == TokenLeftParen
    ensures Kept(fns, st, st.(stack := st.stack[..|st.stack| - 1]))
  {
    var rest := st.stack[..|st.stack| - 1];
    assert st.stack == rest + [st.stack[|st.stack| - 1]];
    CountFunctionsAppend(rest, st.stack[|st.stack| - 1]);
  }

  lemma {:induction false} PopToLeftParenKept(fns: map<Name, int>, st: PState)
    requires Shaped(fns, st) && PopToLeftParen(fns, st).Ok?
    ensures Kept(fns, st, PopToLeftParen(fns, st).value)
    decreases |st.stack|
  {
    if !(st.stack == [] || st.stack[|st.stack| - 1].token.Type == TokenLeftParen) {
      PopToOutputKept(fns, st);
      PopToLeftParenKept(fns, PopToOutput(fns, st).value);
    }
  }

  lemma {:induction false} DrainKept(fns: map<Name, int>, st: PState)
    requires Shaped(fns, st) && Drain(fns, st).Ok?
    ensures forall i :: 0 <= i < |Drain(fns, st).value| ==> OutputItem(fns, Drain(fns, st).value[i])
    ensures Operands(Drain(fns, st).value) == Operands(st.output)
    ensures |Drain(fns, st).value| <= |st.output| + |st.stack|
    decreases |st.stack|
  {
    if st.stack != [] {
      PopToOutputKept(fns, st);
      DrainKept(fns, PopToOutput(fns, st).value);
    }
  }

  /** The conclusion of `StepKept`. */
  predicate StepResult(fns: map<Name, int>, st: PState, tok: Token, next: PState) {
    && Shaped(fns, next)
    && Operands(next.output) == Operands(st.output) + (if IsOperand(tok.Type) then [tok] else [])
    && |next.output| + |next.stack| <= |st.output| + |st.stack| + 1
  }

  /** One token keeps the invariant, adds its own token to the operands if it is one, and adds at most one item. */
  lemma StepKept(fns: map<Name, int>, st: PState, tok: Token)
    requires InputKind(tok.Type) && Shaped(fns, st) && Step(fns, st, tok).Ok?
    ensures StepResult(fns, st, tok, Step(fns, st, tok).value)
  {
    if IsOperand(tok.Type) {
      OperandStepKept(fns, st, tok);
    } else if tok.Type == TokenOperator || tok.Type == TokenUnaryOperator {
      OperatorStepKept(fns, st, tok);
    } else if tok.Type == TokenLeftParen || tok.Type == TokenFunction {
      OpenStepKept(fns, st, tok);
    } else if tok.Type == TokenRightParen {
      CloseParenKept(fns, st, tok.Position);
    } else {
      CommaStepKept(fns, st, tok);
    }
  }

  lemma OperandStepKept(fns: map<Name, int>, st: PState, tok: Token)
    requires IsOperand(tok.Type) && Shaped(fns, st) && Step(fns, st, tok).Ok?
    ensures StepResult(fns, st, tok, Step(fns, st, tok).value)
  {
    var item := NewRPNItem(tok).value;
    var next := Step(fns, st, tok).value;
    assert next == st.(output := st.output + [item]);
    OperandsAppend(st.output, item);
    forall i | 0 <= i < |next.output|
      ensures OutputItem(fns, next.output[i])
    {
      if i < |st.output| {
        assert next.output[i] == st.output[i];
      }
    }
  }

  /** An operator keeps the invariant; with `OperatorStepPops`, what it pops and where it lands. */
  lemma OperatorStepKept(fns: map<Name, int>, st: PState, tok: Token)
    requires tok.Type == TokenOperator || tok.Type == TokenUnaryOperator
    requires Shaped(fns, st) && Step(fns, st, tok).Ok?
    ensures StepResult(fns, st, tok, Step(fns, st, tok).value)
    ensures var item := NewRPNItem(tok).value;
            var next := Step(fns, st, tok).value;
            var k := HigherRunStart(st.stack, item.Priority);
            && next.stack == st.stack[..k] + [item]
            && Moved(st, |st.stack| - k, next.(stack := st.stack[..k]))
  {
    var item := NewRPNItem(tok).value;
    PriorityOrder();
    assert item.Priority > 0;
    var mid := PopWhileHigher(fns, st, item.Priority).value;
    assert Step(fns, st, tok) == Ok(mid.(stack := mid.stack + [item]));
    PopWhileHigherKept(fns, st, item.Priority);
    PushKept(fns, mid, item);
    OperatorStepPops(fns, st, tok);
  }

  /** Stacking an operator keeps the invariant. */
  lemma PushKept(fns: map<Name, int>, st: PState, item: RPNItem)
    requires Shaped(fns, st) && StackItem(item) && item.token.Type != TokenFunction
    ensures Shaped(fns, st.(stack := st.stack + [item]))
  {
    var next := st.(stack := st.stack + [item]);
    CountFunctionsAppend(st.stack, item);
    forall i | 0 <= i < |next.stack|
      ensures StackItem(next.stack[i])
    {
      if i < |st.stack| {
        assert next.stack[i] == st.stack[i];
      }
    }
  }

  /**
   * An operator first moves to the output exactly the run of items of
   * priority at least its own at the top of the stack (so equal priorities
   * associate left), then is stacked on what remains.
   */
  lemma OperatorStepPops(fns: map<Name, int>, st: PState, tok: Token)
    requires tok.Type == TokenOperator || tok.Type == TokenUnaryOperator
    requires Aligned(st) && Step(fns, st, tok).Ok?
    ensures var item := NewRPNItem(tok).value;
            var next := Step(fns, st, tok).value;
            var k := HigherRunStart(st.stack, item.Priority);
            && next.stack == st.stack[..k] + [item]
            && Moved(st, |st.stack| - k, next.(stack := st.stack[..k]))
  {
    var item := NewRPNItem(tok).value;
    var mid := PopWhileHigher(fns, st, item.Priority).value;
    assert Step(fns, st, tok) == Ok(mid.(stack := mid.stack + [item]));
    PopWhileHigherMoves(fns, st, item.Priority);
  }

  /**
   * A left parenthesis is stacked with priority 0. A call is stacked with
   * the function priority and a new counter of 1, which makes it the
   * innermost open call and the one it would leave with.
   */
  lemma OpenStepKept(fns: map<Name, int>, st: PState, tok: Token)
    requires tok.Type == TokenLeftParen || tok.Type == TokenFunction
    requires Shaped(fns, st) && Step(fns, st, tok).Ok?
    ensures StepResult(fns, st, tok, Step(fns, st, tok).value)
    ensures var item := NewRPNItem(tok).value;
            var next := Step(fns, st, tok).value;
            && next.output == st.output && next.stack == st.stack + [item]
            && (tok.Type == TokenLeftParen ==> item.Priority == 0 && next.args == st.args)
            && (tok.Type == TokenFunction ==>
                  && item.Priority == FunctionPriority && next.args == st.args + [1]
                  && TopCall(next.stack, |st.stack|) && Leaving(next, |st.stack|).FuncArgCount == 1)
  {
    var item := NewRPNItem(tok).value;
    var next := Step(fns, st, tok).value;
    assert StackItem(item);
    if tok.Type == TokenLeftParen {
      assert next == st.(stack := st.stack + [item]);
      PushKept(fns, st, item);
    } else {
      assert next == st.(stack := st.stack + [item], args := st.args + [1]);
      CallPushKept(fns, st, item);
      assert next.stack[..|st.stack|] == st.stack;
    }
  }

  /** Stacking a call with a new counter of 1 keeps the invariant. */
  lemma CallPushKept(fns: map<Name, int>, st: PState, item: RPNItem)
    requires Shaped(fns, st) && StackItem(item) && item.token.Type == TokenFunction
    ensures Shaped(fns, st.(stack := st.stack + [item], args := st.args + [1]))
  {
    var next := st.(stack := st.stack + [item], args := st.args + [1]);
    CountFunctionsAppend(st.stack, item);
    forall i | 0 <= i < |next.stack|
      ensures StackItem(next.stack[i])
    {
      if i < |st.stack| {
        assert next.stack[i] == st.stack[i];
      }
    }
    forall i | 0 <= i < |next.args|
      ensures next.args[i] >= 1
    {
      if i < |st.args| {
        assert next.args[i] == st.args[i];
      }
    }
  }

  /**
   * A comma moves to the output exactly the items above the topmost left
   * parenthesis, keeps that parenthesis, and then adds one to the top
   * argument counter, leaving the other counters as they were.
   */
  lemma CommaStepKept(fns: map<Name, int>, st: PState, tok: Token)
    requires tok.Type == TokenComma
    requires Shaped(fns, st) && Step(fns, st, tok).Ok?
    ensures StepResult(fns, st, tok, Step(fns, st, tok).value)
    ensures var mid := PopToLeftParen(fns, st).value;
            var next := Step(fns, st, tok).value;
            && Moved(st, |st.stack| - ParenRunStart(st.stack), mid)
            && next.output == mid.output && next.stack == mid.stack && |next.args| == |mid.args|
            && (mid.args == [] ==> next.args == [])
            && (mid.args != [] ==>
                  && next.args[..|next.args| - 1] == mid.args[..|mid.args| - 1]
                  && next.args[|next.args| - 1] == mid.args[|mid.args| - 1] + 1)
  {
    var mid := PopToLeftParen(fns, st).value;
    var next := mid.(args := IncTop(mid.args));
    assert Step(fns, st, tok) == Ok(next);
    PopToLeftParenKept(fns, st);
    IncTopKept(fns, mid);
    assert Operands(next.output) == Operands(mid.output);
    PopToLeftParenMoves(fns, st);
  }

  /** Counting one more argument keeps the invariant. */
  lemma IncTopKept(fns: map<Name, int>, st: PState)
    requires Shaped(fns, st)
    ensures Shaped(fns, st.(args := IncTop(st.args)))
  {
  }

  /**
   * Stated per call: after its pops, a comma adds one to the count the
   * innermost open call would leave with, and changes no other item's.
   */
  lemma CommaCountsTopCall(fns: map<Name, int>, st: PState, tok: Token)
    requires tok.Type == TokenComma
    requires Shaped(fns, st) && Step(fns, st, tok).Ok?
    ensures var mid := PopToLeftParen(fns, st).value;
            var next := Step(fns, st, tok).value;
            forall i :: 0 <= i < |next.stack| ==>
              Leaving(next, i) == if TopCall(next.stack, i) then Leaving(mid, i).(FuncArgCount := Leaving(mid, i).FuncArgCount + 1)
                                  else Leaving(mid, i)
  {
    var mid := PopToLeftParen(fns, st).value;
    var next := Step(fns, st, tok).value;
    CommaStepKept(fns, st, tok);
    assert next == mid.(args := IncTop(mid.args));
    forall i | 0 <= i < |next.stack|
      ensures Leaving(next, i) == if TopCall(next.stack, i) then Leaving(mid, i).(FuncArgCount := Leaving(mid, i).FuncArgCount + 1)
                                  else Leaving(mid, i)
    {
      IncTopLeaving(mid, i);
    }
  }

  /** Adding one to the top counter changes only the count the innermost open call leaves with. */
  lemma IncTopLeaving(mid: PState, i: nat)
    requires Aligned(mid) && i < |mid.stack|
    ensures var next := mid.(args := IncTop(mid.args));
            Leaving(next, i) == if TopCall(mid.stack, i) then Leaving(mid, i).(FuncArgCount := Leaving(mid, i).FuncArgCount + 1)
                                else Leaving(mid, i)
  {
    if mid.stack[i].token.Type == TokenFunction {
      CountFunctionsAround(mid.stack, i);
      var above := mid.stack[i + 1..];
      NoFunctions(above);
      assert TopCall(mid.stack, i) <==> forall j :: 0 <= j < |above| ==> above[j].token.Type != TokenFunction by {
        assert forall j :: i < j < |mid.stack| ==> mid.stack[j] == above[j - i - 1];
      }
    }
  }

  lemma {:induction false} RunKept(fns: map<Name, int>, st: PState, toks: seq<Token>)
    requires forall i :: 0 <= i < |toks| ==> InputKind(toks[i].Type)
    requires Shaped(fns, st) && Run(fns, st, toks).Ok?
    ensures forall i :: 0 <= i < |Run(fns, st, toks).value| ==> OutputItem(fns, Run(fns, st, toks).value[i])
    ensures Operands(Run(fns, st, toks).value) == Operands(st.output) + OperandTokens(toks)
    ensures |Run(fns, st, toks).value| <= |st.output| + |st.stack| + |toks|
    decreases |toks|
  {
    if toks == [] {
      DrainKept(fns, st);
    } else {
      var next := Step(fns, st, toks[0]).value;
      StepKept(fns, st, toks[0]);
      var rest := toks[1..];
      assert forall i :: 0 <= i < |rest| ==> InputKind(rest[i].Type) by {
        forall i | 0 <= i < |rest| ensures InputKind(rest[i].Type) {
          assert rest[i] == toks[i + 1];
        }
      }
      assert Run(fns, st, toks) == Run(fns, next, rest);
      RunKept(fns, next, rest);
      var head := if IsOperand(toks[0].Type) then [toks[0]] else [];
      assert OperandTokens(toks) == head + OperandTokens(rest);
      var before, after := Operands(st.output), OperandTokens(rest);
      ConcatAssoc(before, head, after);
    }
  }

  /**
   * A parsed program holds only operands, operators and checked calls (no
   * parenthesis, comma or unknown function, and every call has at least one
   * argument); its operands are the operand tokens of the input in source
   * order; and it has no more items than the input has tokens.
   */
  lemma ParsedProgramShape(fns: map<Name, int>, input: seq<Byte>)
    requires ParseSpec(fns, input).Ok?
    ensures |input| < MaxInt16
    ensures var prog := ParseSpec(fns, input).value;
            && (forall i :: 0 <= i < |prog| ==> OutputItem(fns, prog[i]))
            && Operands(prog) == OperandTokens(TokensFrom(input, 0, TokenEOF))
            && |prog| <= |TokensFrom(input, 0, TokenEOF)|
  {
    var toks := TokensFrom(input, 0, TokenEOF);
    assert ParseSpec(fns, input) == Run(fns, Start, toks);
    assert Shaped(fns, Start);
    RunKept(fns, Start, toks);
  }

  /** An Illegal token anywhere in the token stream makes parsing fail. */
  lemma {:induction false} IllegalTokenFailsRun(fns: map<Name, int>, st: PState, toks: seq<Token>, i: nat)
    requires forall k :: 0 <= k < |toks| ==> InputKind(toks[k].Type)
    requires i < |toks| && toks[i].Type == TokenIllegal
    ensures Run(fns, st, toks).Err?
    decreases i
  {
    if i == 0 {
      assert Step(fns, st, toks[0]).Err?;
    } else if Step(fns, st, toks[0]).Ok? {
      var rest := toks[1..];
      assert rest[i - 1] == toks[i];
      IllegalTokenFailsRun(fns, Step(fns, st, toks[0]).value, rest, i - 1);
    }
  }

  lemma IllegalTokenFailsParse(fns: map<Name, int>, input: seq<Byte>, i: nat)
    requires |input| < MaxInt16
    requires i < |TokensFrom(input, 0, TokenEOF)| && TokensFrom(input, 0, TokenEOF)[i].Type == TokenIllegal
    ensures ParseSpec(fns, input).Err?
  {
    IllegalTokenFailsRun(fns, Start, TokensFrom(input, 0, TokenEOF), i);
  }

  /** A right parenthesis with no left parenthesis on the stack is an error. */
  lemma {:induction false} UnmatchedRightParenFails(fns: map<Name, int>, st: PState, position: int)
    requires forall i :: 0 <= i < |st.stack| ==> st.stack[i].token.Type != TokenLeftParen
    ensures CloseParen(fns, st, position).Err?
    decreases |st.stack|
  {
    if st.stack != [] && PopToOutput(fns, st).Ok? {
      UnmatchedRightParenFails(fns, PopToOutput(fns, st).value, position);
    }
  }

  /** A left parenthesis still on the stack at the end of input is an error. */
  lemma {:induction false} UnclosedLeftParenFails(fns: map<Name, int>, st: PState, i: nat)
    requires i < |st.stack| && st.stack[i].token.Type == TokenLeftParen
    ensures Drain(fns, st).Err?
    decreases |st.stack|
  {
    var top := st.stack[|st.stack| - 1];
    if top.token.Type != TokenLeftParen && top.token.Type != TokenRightParen && PopToOutput(fns, st).Ok? {
      UnclosedLeftParenFails(fns, PopToOutput(fns, st).value, i);
    }
  }

  /** A checked call's count is accepted exactly for a non-positive declared arity or an equal count. */
  lemma CheckFunctionArity(fns: map<Name, int>, item: RPNItem)
    requires item.token.Literal in fns
    ensures fns[item.token.Literal] <= 0 ==> CheckFunction(fns, item) == Pass
    ensures fns[item.token.Literal] > 0 ==> (CheckFunction(fns, item) == Pass <==> item.FuncArgCount == fns[item.token.Literal])
  {
  }
}
