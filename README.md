# decexpr, modelled in Dafny

decexpr evaluates arithmetic expressions over decimal numbers, for example
`-var1 * (round(x, 2) + 5.10)`. An expression goes through three stages:

1. **Lexing.** A byte-classification table (`charMap`) drives the `Lexer`,
   which turns the text into tokens: numbers, identifiers, function names,
   unary and binary operators, parentheses and commas. A `-` is unary
   only after the start of input, `(`, `,` or a binary operator. A number
   keeps its digits without the dot, together with the count of digits
   after the dot.
2. **Parsing.** The `Parser` converts the tokens to reverse Polish notation
   with the shunting-yard algorithm. It uses an operator stack, plus a
   stack that counts the arguments of each open function call. Every
   closed call is checked against a table of declared arities.
3. **Evaluating.** An `ExpressionEvaluator` runs the program on a stack of
   decimals. It looks up identifiers in a caller-supplied map and calls
   the registered functions. Each parsed program is kept in a cache keyed
   by the expression text. There are two cache policies: a map, or a no-op
   cache.

The Dafny model follows the Go code module by module:

| Dafny module | Go file |
|---|---|
| `CharClass` | char.go |
| `Tokens` | token.go |
| `Lexing`, `LexingProperties` | lexer.go |
| `Items` | item.go |
| `Stacks` | stack.go |
| `Parsing`, `ParsingProperties` | parser.go |
| `Functions` | functions.go |
| `Caching` | eval_cache.go |
| `Evaluation`, `EvaluationProperties` | eval.go |
| `ParsingExamples` | three expressions from parser_test.go, parsed token by token |
| `Scenarios` | one whole-pipeline example |

`Common` and `Decimals` hold shared types.

Each stateful Go type is a Dafny `class` whose methods are proved against
a pure specification function:

- `Lexer.Tokenize` is proved equal to `TokensFrom`/`TokenizeResult`.
- `Parser.Parse` is proved equal to `ParseSpec`, which is a fold of `Step` over the tokens followed by `Drain`.
- `ExpressionEvaluator.EvalRPN` is proved equal to `EvalProgram`.
- `ExpressionEvaluator.Eval` is proved equal to `EvalText`, whichever cache policy is used. The class invariant behind this says that every cached program is exactly what the parser makes of its key.

The properties themselves are lemmas about those functions.

Decimal arithmetic belongs to an external library (shopspring/decimal),
so it is a parameter here. `DecimalOps` is a record of the library
operations the code calls (add, sub, mul, div, mod, pow, round, truncate,
abs, floor, ceil, max, min, sum, avg and the integer part). Only the
operations whose results the code itself inspects are given concrete
meaning:

- `New`;
- `IsZero`;
- `Neg`;
- the exponent;
- the two zero values: `decimal.Decimal{}` is `ZeroValue`, and `decimal.Zero` is `Zero`.

The model follows the code as written, including these behaviours that a
reader of the documentation may not expect:

- `NumberStack.PopN` returns the topmost value first. A function therefore receives its arguments in reverse source order.
  - `round(5.3555, 2)` calls `Round(2, 5.3555)`.
  - That call fails, because its second argument, 5.3555, has a negative exponent (`Scenarios.RoundCallFailsEndToEnd`).
  - The table in eval_test.go:32-33 expects 5.36 and 5.35 instead.
- The comment at item.go:10-16 gives unary operators priority 3 and `^` right-to-left associativity. The code gives unary operators 4, the same as `^`. It pops every stacked item of equal or higher priority, so `^` groups left to right (`ParsingExamples.ParsePow`). The model follows the code.
- `round` and `trunc` are declared with 2 arguments, so the parser rejects their one-argument form. The one-argument branch of `Round`/`Trunc` is reachable only by calling the function directly.
- `NewExpressionEvaluator` gives the parser a copy of the arity table. `RegisterFunction` adds to the function map but not to that copy, so the parser rejects every call to a function registered later (`RegisteredFunctionUnused`).
- An empty or all-blank expression evaluates to `decimal.Decimal{}` rather than to an error (`EmptyExpressionIsZero`).
- `f()` is counted as a call with one argument. At run time it takes one value from the stack, or fails when the stack is empty.
- `Tokenize` reports an illegal byte at its offset + 1, because the scanner has already moved past it.
- A NUL byte inside the input classifies as end of input, so lexing stops there.
- `readNumber` always emits `TokenFloatNumber`, and no classification ever yields `CharInvalid`, so `isValidChar` is always true.
- The lexer tests in lexer_test.go name a `TokenNumber` kind that token.go does not define. The model uses token.go's kinds.

## Model

| member | source | states |
|---|---|---|
| `Common.WrapInt16` | token.go:55-61 | the `int16` conversion of a position: congruent modulo 2^16 and unchanged inside the 16-bit range |
| `Common.WrapInt32` | functions.go:51-64 | the `int32` conversion of a place count: in range, congruent modulo 2^32, unchanged inside the range |
| `CharClass.InitCharMap` | char.go:23-60 | the table the `init` loops build is, at every byte, the classification `CharMap` |
| `CharClass.FillRange` | char.go:31-43 | a fill loop writes its class over exactly the range and leaves every other entry as it was |
| `CharClass.FillEarly` | char.go:24-29 | the first stage sets NUL to EOF and the four whitespace bytes to whitespace, and nothing else |
| `CharClass.FillLate` | char.go:45-59 | the last stage sets `_`, `.`, the parentheses, the comma and the six operator bytes, and keeps every other entry |
| `CharClass.StagesGiveCharMap` | char.go:23-60 | the stages applied in the code's order give `CharMap` (later assignments override earlier ones) |
| `CharClass.OnlyNulIsEof` | char.go:25 | NUL and only NUL classifies as end of input |
| `CharClass.IsWhitespace` | char.go:63-65 | true exactly for space, tab, newline and carriage return |
| `CharClass.IsDigit` | char.go:67-69 | true exactly for `0`-`9` |
| `CharClass.IsLetter` | char.go:71-73 | true exactly for ASCII letters and `_` |
| `CharClass.IsDot` | char.go:75-77 | true exactly for `.` |
| `CharClass.IsOperatorChar` | char.go:79-81 | true exactly for `+ - * / % ^` |
| `CharClass.IsLeftParen` | char.go:83-85 | true exactly for `(` |
| `CharClass.IsRightParen` | char.go:87-89 | true exactly for `)` |
| `CharClass.IsComma` | char.go:91-93 | true exactly for `,` |
| `CharClass.IsValidChar` | char.go:95-97 | holds for every byte, since no byte classifies as invalid |
| `CharClass.LookupsAreExclusive` | char.go:63-93 | no byte is in two of the classes the lexer tests |
| `Tokens.TokenType.String` | token.go:19-46 | the eleven defined kinds get their own name and every other value "Unknown" |
| `Tokens.StringIsInjective` | token.go:19-46 | distinct defined kinds print differently, and none prints "Unknown" |
| `Tokens.NewToken` | token.go:55-61 | kind, literal and a zero exponent as given; the position is kept exactly when it fits in `int16` |
| `Lexing.WhitespaceEnd` | lexer.go:169-173 | the first offset at or after the start that holds no whitespace, with only whitespace skipped |
| `Lexing.IdentEnd` | lexer.go:121-132 | the end of the maximal run of letters and digits |
| `Lexing.NumberScan` | lexer.go:134-167 | the end of the number, its digits only, and at most as many fraction digits as digits, stopping at a non-digit |
| `Lexing.ScanToken` | lexer.go:40-95 | one call of `NextToken` on the text: a kind the lexer emits, progress past the start, and no offset beyond one past the input |
| `Lexing.TokensFrom` | lexer.go:97-109 | the tokens `NextToken` returns before the first EOF, all of kinds the lexer emits and none of them EOF |
| `Lexing.LexStop` | lexer.go:100-103 | the scan that ends tokenizing is an EOF or an Illegal token |
| `Lexing.TokenizeResult` | lexer.go:97-109 | tokenizing succeeds exactly when no token is Illegal, and then returns the tokens unchanged |
| `Lexing.TokenizeClean` | lexer.go:105-108 | a stream without Illegal tokens is returned as it is |
| `Lexing.TokenizeIllegal` | lexer.go:101-103 | the first Illegal token fails tokenizing with its literal and its offset + 1 |
| `Lexing.NewLexer` | lexer.go:21-38 | an input of `MaxInt16` bytes or more is refused; otherwise a fresh lexer over the input |
| `Lexing.Lexer.Raw` | lexer.go:26-33 | the lexer before its first `nextChar`: offset -1 and an EOF previous token |
| `Lexing.Lexer.NextChar` | lexer.go:111-119 | moves one byte on; the current byte is NUL past the end |
| `Lexing.Lexer.SkipWhitespace` | lexer.go:169-173 | moves to `WhitespaceEnd` |
| `Lexing.Lexer.ReadIdentifier` | lexer.go:121-132 | moves to `IdentEnd` and returns an Ident token holding the bytes passed over |
| `Lexing.Lexer.ReadNumber` | lexer.go:134-167 | moves to the end `NumberScan` finds and returns a FloatNumber token with its digits and fraction length |
| `Lexing.Lexer.NextToken` | lexer.go:40-95 | returns the token `ScanToken` predicts, leaves the offset where it predicts, and records the token as previous |
| `Lexing.Lexer.Advance` | lexer.go:100-105 | one loop step of `Tokenize`: the tokens still to come and the final scan are unchanged by taking one token |
| `Lexing.Lexer.Tokenize` | lexer.go:97-109 | returns `TokenizeResult` of the tokens the lexer produces from its current state, and stops on the scan `LexStop` predicts |
| `LexingProperties.ExhaustedInputStaysEof` | lexer.go:84-85 | once past the input, every further call yields EOF and moves one on |
| `LexingProperties.FractionScan` | lexer.go:142-161 | after the dot, the scanned text is dot-free, its digits are the text, and the fraction length is its length |
| `LexingProperties.NumberScanShape` | lexer.go:134-167 | the scanned text is the digits with at most one dot inserted before the last `exp` digits; a second dot stops the scan |
| `LexingProperties.DigitBeforeText` | lexer.go:154-160 | a digit in front of a number text adds one leading digit and keeps the fraction length |
| `LexingProperties.DotBeforeText` | lexer.go:143-151 | a dot in front of a dot-free digit run makes all its digits fraction digits |
| `LexingProperties.NumberToken` | lexer.go:69-74 | a digit starts a FloatNumber token at its offset whose literal is all digits |
| `LexingProperties.MinusKind` | lexer.go:48-57 | `-` is unary exactly after EOF, `(`, `,` or a binary operator |
| `LexingProperties.IdentifierToken` | lexer.go:75-83 | a letter starts a maximal letter/digit run, a Function token when `(` follows at once, else an Ident |
| `LexingProperties.TokenPosition` | lexer.go:43 | a token starts at the first non-blank byte at or after the scan offset |
| `LexingProperties.UnhandledByteIsIllegal` | lexer.go:86-87 | any other byte is an Illegal token spelled as Go's `string(byte)`: the byte itself below 0x80, its two-byte UTF-8 encoding from 0x80 on |
| `Lexing.ByteString` | lexer.go:87 | Go's one-byte `string` conversion: the byte itself below 0x80, otherwise two bytes that UTF-8-decode back to it |
| `LexingProperties.IllegalTokenFailsTokenize` | lexer.go:101-103 | an Illegal token anywhere in the stream makes tokenizing fail |
| `LexingProperties.LexFiveTenths` | lexer_test.go:65-68 | "5.10" is one number with digits "510" and two fraction digits |
| `LexingProperties.LexUnaryAfterOperator` | lexer_test.go:103-110 | "5 + -10" lexes with the `-` unary, at the offsets the test lists |
| `LexingProperties.LexMinusAfterUnary` | lexer.go:48-57 | in "--5" the second `-` is binary, since a unary operator is not among the contexts that make `-` unary |
| `Decimals.Pow10` | item.go:39 | powers of ten are positive |
| `Decimals.New` | item.go:39 | `decimal.New(v, -e)` stands for v / 10^e |
| `Decimals.IsZero` | eval.go:161 | a decimal is zero exactly when its value is zero |
| `Decimals.Neg` | eval.go:134 | negation negates the value and keeps the exponent |
| `Items.ParseInt64` | item.go:34-39 | `strconv.ParseInt(s, 10, 64)` on a digit string: its value when it fits in 64 bits, a range error otherwise, a syntax error for a non-numeric string |
| `Items.NewRPNItem` | item.go:25-67 | the item keeps its token; priorities 5 (function), 4 (unary), the operator table (unknown operator an error), 0 otherwise; a number is its digits scaled by its fraction length |
| `Items.PriorityOrder` | item.go:80-87 | `+ -` below `* / %` below `^`, which equals unary, below function calls; the table holds exactly the six operators |
| `Items.NumberItemValue` | item.go:33-40 | a number token of at most 64 bits becomes an item whose value is the literal divided by 10^exp |
| `Items.DigitsValueExample` | item.go:34 | the digits "510" read as 510 |
| `Stacks.PopTop` | stack.go:26-36 | pops the last element; nothing to pop on an empty stack |
| `Stacks.IncTop` | stack.go:76-82 | adds one to the top counter and nothing else |
| `Stacks.TakeTop` | stack.go:114-127 | takes n values topmost first, and fails exactly when fewer than n are stacked |
| `Stacks.PushThenPop` | stack.go:22-36 | a pop returns what was just pushed and restores the stack |
| `Stacks.TakeWhatWasPushed` | stack.go:114-127 | taking as many as were pushed returns them reversed |
| `Stacks.TakeTopTwice` | stack.go:114-127 | taking m then n is taking m + n |
| `Stacks.StackItems.constructor` | stack.go:16-20 | an empty operator stack |
| `Stacks.StackItems.Push` | stack.go:22-24 | appends the item on top |
| `Stacks.StackItems.Pop` | stack.go:26-36 | removes and returns the top, or nil on an empty stack |
| `Stacks.StackItems.Peek` | stack.go:38-44 | returns the top without removing it, or nil |
| `Stacks.StackItems.Len` | stack.go:46-48 | the number of stacked items |
| `Stacks.ArgStack.constructor` | stack.go:54-58 | an empty counter stack |
| `Stacks.ArgStack.Push` | stack.go:60-62 | opens a call with count 1 |
| `Stacks.ArgStack.Pop` | stack.go:64-74 | removes and returns the top count, 0 on an empty stack |
| `Stacks.ArgStack.Inc` | stack.go:76-82 | adds one to the top count; no change on an empty stack |
| `Stacks.ArgStack.Len` | stack.go:84-86 | the number of open calls |
| `Stacks.NumberStack.constructor` | stack.go:92-96 | an empty value stack |
| `Stacks.NumberStack.Push` | stack.go:98-100 | appends the value on top |
| `Stacks.NumberStack.Pop` | stack.go:102-112 | removes and returns the top, the zero decimal on an empty stack |
| `Stacks.NumberStack.PopN` | stack.go:114-127 | `TakeTop`: the top n values, topmost first, and the rest left; an error with the stack unchanged when fewer than n |
| `Stacks.NumberStack.Len` | stack.go:129-131 | the number of stacked values |
| `Stacks.PopNScenario` | stack_test.go:11-38 | pushing 10, 30, 40, 60: PopN(5) fails, PopN(3) gives 60, 40, 30 and leaves 10, PopN(1) gives 10 and leaves nothing |
| `Parsing.CheckFunction` | parser.go:141-155 | an unknown name is an error; a known name passes exactly when its arity is not positive or equals the count |
| `Parsing.Parser.constructor` | parser.go:11-15 | a parser over the given arity table |
| `Parsing.Parser.FinishItem` | parser.go:52-58 | gives a function item its counted arguments and checks it, as `Finalize` says |
| `Parsing.Parser.PopHigher` | parser.go:43-61 | the operator loop is `PopWhileHigher` on the stacks it mutates |
| `Parsing.Parser.PopToMatchingParen` | parser.go:66-88 | the right-parenthesis loop is `CloseParen` |
| `Parsing.Parser.PopToOpenParen` | parser.go:92-110 | the comma loop is `PopToLeftParen` |
| `Parsing.Parser.DrainStack` | parser.go:117-136 | the final loop is `Drain` |
| `Parsing.Parser.Apply` | parser.go:39-114 | one token's case is `Step` on the output and the two stacks |
| `Parsing.Parser.Parse` | parser.go:17-139 | the result is `ParseSpec` of the text: lexing, every token's step, then the drain |
| `ParsingProperties.PopToOutputKept` | parser.go:43-61 | moving one item keeps the state well formed and the operands in order |
| `ParsingProperties.PopWhileHigherKept` | parser.go:43-61 | the operator loop keeps the state well formed and the operands in order |
| `ParsingProperties.CloseParenKept` | parser.go:66-88 | the right-parenthesis loop keeps the state well formed and the operands in order |
| `ParsingProperties.PopToLeftParenKept` | parser.go:92-110 | the comma loop keeps the state well formed and the operands in order |
| `ParsingProperties.DrainKept` | parser.go:117-136 | the drained program holds only operands, operators and checked calls, with the operands in order |
| `ParsingProperties.MovedOne` | parser.go:43-60 | moving one item sends the top of the stack to the output, a call with the counter that belongs to it, which is dropped |
| `ParsingProperties.MovedTrans` | parser.go:43-61 | moving n items and then m more is moving n + m items, each with its own counter |
| `ParsingProperties.HigherRunStart` | parser.go:43-50 | the bottom of the longest run of items of priority at least the given one at the top of the stack |
| `ParsingProperties.ParenRunStart` | parser.go:93-98 | the bottom of the run of items above the topmost left parenthesis |
| `ParsingProperties.PopWhileHigherMoves` | parser.go:43-61 | the operator loop moves exactly the run `HigherRunStart` finds, topmost first, so equal priorities leave (left association) and the remaining top binds less tightly |
| `ParsingProperties.PopWhileHigherFails` | parser.go:52-57 | the operator loop fails exactly when a call in that run, with its own counter, is refused by the arity check |
| `ParsingProperties.PopToLeftParenMoves` | parser.go:93-108 | the comma loop moves exactly the items above the topmost left parenthesis, topmost first |
| `ParsingProperties.CloseParenIsPopToLeftParen` | parser.go:66-88 | the right-parenthesis loop is the comma loop, then removing the left parenthesis, and an error when none is there |
| `ParsingProperties.DrainMoves` | parser.go:117-136 | a successful drain moves the whole stack to the output, topmost first, each call with its own counter |
| `ParsingProperties.StepKept` | parser.go:39-114 | every token keeps the state well formed, appends itself to the operands when it is one, and adds at most one item |
| `ParsingProperties.OperandStepKept` | parser.go:40-41 | a number or identifier goes straight to the program |
| `ParsingProperties.OperatorStepKept` | parser.go:42-63 | an operator keeps the state well formed; the items it moves are exactly the run of priority at least its own at the top of the stack, each leaving with its own count, and it is stacked on what remains |
| `ParsingProperties.OpenStepKept` | parser.go:64-91 | a left parenthesis is stacked with priority 0 and no new counter; a function is stacked with the function priority, opens a counter of 1, and becomes the innermost open call, leaving with that counter |
| `ParsingProperties.CommaStepKept` | parser.go:92-110 | a comma moves exactly the items above the topmost left parenthesis, keeps it, then adds one to the top counter and leaves every other counter as it was |
| `ParsingProperties.CommaCountsTopCall` | parser.go:92-110 | after its pops, a comma adds one to the count the innermost open call will leave with and changes no other stacked item's count |
| `ParsingProperties.RunKept` | parser.go:27-115 | the whole token loop keeps the invariant; the program's operands are the input's operand tokens in order |
| `ParsingProperties.ParsedProgramShape` | parser.go:17-139 | a parsed program holds no parenthesis, comma or unknown call, every call has at least one argument and an accepted count, and the operands are the input's in source order |
| `ParsingProperties.IllegalTokenFailsRun` | parser.go:28-31 | an Illegal token anywhere in the stream fails the parse |
| `ParsingProperties.IllegalTokenFailsParse` | parser.go:28-31 | an Illegal token in the lexed text fails the parse |
| `ParsingProperties.UnmatchedRightParenFails` | parser.go:85-88 | `)` with no `(` on the stack is an error |
| `ParsingProperties.UnclosedLeftParenFails` | parser.go:121-122 | a `(` still open at the end is an error |
| `ParsingProperties.CheckFunctionArity` | parser.go:148-152 | the count is checked only against a positive declared arity |
| `ParsingExamples.RunPow` | parser.go:42-63 | the tokens of "2^3^2" run to the program 2 3 ^ 2 ^: the second `^` pops the first, since equal priorities associate left |
| `ParsingExamples.ParsePow` | item.go:10-16 | the parser turns "2^3^2" into 2 3 ^ 2 ^, not the right-to-left grouping the comment describes |
| `ParsingExamples.LexPrec` | lexer.go:40-109 | "3 + 4 * 2 / (1 - 5)^2" lexes to its thirteen tokens at their offsets |
| `ParsingExamples.RunPrec` | parser.go:27-136 | those tokens run to 3 4 2 * 1 5 - 2 ^ / + |
| `ParsingExamples.ParsePrec` | parser_test.go:31-32 | "3 + 4 * 2 / (1 - 5)^2" parses to 3 4 2 * 1 5 - 2 ^ / +, as the test expects |
| `ParsingExamples.LexSum` | lexer.go:40-109 | "sum(1 +5 , max(3,10), min(5, -6))" lexes to its twenty-two tokens, the `-` before 6 unary |
| `ParsingExamples.DrainSum` | parser.go:117-136 | the drain closes `sum` with the count of 3 its two commas gave it |
| `ParsingExamples.RunSum` | parser.go:27-136 | with sum, max and min variadic, those tokens run to 1 5 + 3 10 max:2 5 6 -. min:2 sum:3 |
| `ParsingExamples.ParseSum` | parser_test.go:43-44 | "sum(1 +5 , max(3,10), min(5, -6))" parses to 1 5 + 3 10 max:2 5 6 -. min:2 sum:3, as the test expects |
| `Functions.Variadic` | functions.go:27-49 | max/min/sum/avg never fail: the zero decimal for no argument, else the library call on first and rest |
| `Functions.Scaled` | functions.go:51-64 | round/trunc accept one argument (0 places) or two whose second has no negative exponent (its integer part, as `int32`, places); any other count is an error |
| `Functions.Single` | functions.go:66-87 | abs/floor/ceil succeed exactly with one argument |
| `Functions.BuiltinArities` | functions.go:15-25 | the nine built-ins and their declared arities |
| `Functions.DeclaredCountsAccepted` | functions.go:15-110 | a call with the count its arity allows never fails for the count; round/trunc then fail only on the second argument's exponent |
| `Caching.Lookup` | eval_cache.go:36-46 | `Get` on a map: the stored program and true exactly when the key is present, else nothing and false |
| `Caching.EvalMapCache.constructor` | eval_cache.go:21-25 | an empty map cache |
| `Caching.EvalMapCache.Put` | eval_cache.go:27-34 | stores or replaces the program of the key |
| `Caching.EvalMapCache.Get` | eval_cache.go:36-46 | answers as `Lookup` |
| `Caching.EvalNoopCache.Get` | eval_cache.go:58-60 | never finds anything |
| `Caching.EvalCache.Put` | eval_cache.go:27-56 | the map policy records the program; the no-op policy keeps nothing |
| `Caching.EvalCache.Get` | eval_cache.go:36-60 | finds exactly what the policy holds |
| `Caching.GetAfterPut` | eval_cache.go:27-46 | a get after a put of the same key finds what was put |
| `Caching.LastPutWins` | eval_cache.go:27-34 | the later put on a key replaces the earlier one |
| `Caching.PutLeavesOtherKeys` | eval_cache.go:27-46 | a put on one key leaves every other key's answer unchanged |
| `Evaluation.FinalValue` | eval.go:213-219 | one value left is the result; none gives the zero decimal; more is an error |
| `Evaluation.ParsedCountsValid` | eval.go:187-193 | every call in a parsed program has a count of at least 0, so `PopN` is never asked for a negative count |
| `Evaluation.ArityOf` | eval.go:31-34 | the parser's table has the same names as the function map, each with its declared arity |
| `Evaluation.ArityTable` | eval.go:31-34 | the copying loop builds `ArityOf` |
| `Evaluation.ExpressionEvaluator.constructor` | eval.go:30-49 | the functions given, a parser over their arities, the policy chosen, an empty cache |
| `Evaluation.ExpressionEvaluator.ParseAndCache` | eval.go:51-66 | reports the parser's error for the text, or success, and afterwards the cache holds the parsed program under the text (map policy) |
| `Evaluation.ExpressionEvaluator.Eval` | eval.go:68-88 | the result is `EvalText`: parse (or a cache hit, which gives the same program), then run; the cache invariant is kept |
| `Evaluation.ExpressionEvaluator.RegisterFunction` | eval.go:90-105 | a known name is refused and nothing changes; a new name is added with arity -1 |
| `Evaluation.ExpressionEvaluator.ExecOne` | eval.go:112-208 | one item's case of the evaluation loop is `ExecItem` on the value stack |
| `Evaluation.ExpressionEvaluator.ExecBinary` | eval.go:140-179 | a binary operator pops right then left and pushes `ApplyBinary`'s result |
| `Evaluation.ExpressionEvaluator.EvalRPN` | eval.go:107-220 | the result is `EvalProgram`: every item in turn, then `FinalValue` |
| `EvaluationProperties.OperandOrder` | eval.go:147-173 | the left operand is the deeper value: `a - b` computes a - b, for each of the six operators |
| `EvaluationProperties.DivisionByZeroCase` | eval.go:160-171 | `/` and `%` fail with division by zero exactly when the right operand is zero |
| `EvaluationProperties.BinaryMissingOperand` | eval.go:141-145 | a binary operator fails for a missing operand exactly when fewer than two values are stacked |
| `EvaluationProperties.UnsupportedBinary` | eval.go:174-176 | any other operator literal is unsupported |
| `EvaluationProperties.UnaryMinus` | eval.go:124-139 | unary minus replaces the top with its negation, and fails on an empty stack |
| `EvaluationProperties.FunctionArgumentsReversed` | eval.go:180-204 | a call pops its count of values and passes them to the callable topmost first; a callable's error becomes the call's error |
| `EvaluationProperties.FunctionErrors` | eval.go:181-191 | an unknown name, and too few values, are errors |
| `EvaluationProperties.IdentifierLookup` | eval.go:115-123 | an identifier pushes its bound value, and an unbound one is an error |
| `EvaluationProperties.ItemHeight` | eval.go:112-208 | each item changes the stack height by its arity balance and leaves the values below its operands untouched |
| `EvaluationProperties.ProgramHeight` | eval.go:110-211 | a successful run changes the height by the program's total balance |
| `EvaluationProperties.ExecAllAppend` | eval.go:110-211 | running two programs one after the other is running them joined |
| `EvaluationProperties.EvalProgramHeight` | eval.go:213-219 | a program that evaluates has a total balance of 0 or 1 |
| `EvaluationProperties.EmptyExpressionIsZero` | eval.go:213-219 | an empty or blank expression evaluates to the zero decimal |
| `EvaluationProperties.UnusedEntryIgnored` | eval.go:180-204 | a function that a program never calls does not affect its run |
| `EvaluationProperties.ParsedCallsKnown` | parser.go:141-147 | every call in a parsed program names an entry of the parser's table |
| `EvaluationProperties.RegisteredFunctionUnused` | eval.go:90-105 | registering a new function does not change any expression's result, because the parser's table does not get it |
| `EvaluationProperties.KnownCallsNeverUnknown` | eval.go:181-185 | a program whose calls are all in the function map never fails with an unknown function |
| `EvaluationProperties.EvalNeverUnknownFunction` | eval.go:82-85 | with the table the constructor builds, an evaluation error after a successful parse is wrapped, and is never an unknown function |
| `EvaluationProperties.NumberPushes` | eval.go:113-114 | a number item pushes its value |
| `EvaluationProperties.RoundArgumentsReversed` | eval_test.go:32 | the program for `round(5.3555, 2)` fails: `Round` receives 2 first and 5.3555 second |
| `EvaluationProperties.RoundCallFails` | functions.go:56-58 | with 5.3555 as its second argument, round refuses it |
| `EvaluationProperties.EvalTwiceCached` | eval.go:68-88 | evaluating the same text twice with a map cache gives the same result; the second is a cache hit exactly when the text parses |
| `EvaluationProperties.RegisterTwice` | eval.go:94-97 | a second registration of the same name is refused |
| `EvaluationProperties.RegisterThenEval` | eval.go:90-105 | after registering a new function, every text evaluates as it did before |
| `Scenarios.LexRoundCall` | eval_test.go:32 | "round(5.3555, 2)" lexes to a function name, `(`, 5.3555, `,`, 2 and `)` |
| `Scenarios.ParseRoundCall` | eval_test.go:32 | and parses to 5.3555, 2, round with two arguments |
| `Scenarios.RoundCallFailsEndToEnd` | eval_test.go:32-33 | the evaluator with the built-ins fails on "round(5.3555, 2)" with round's second-argument error, where the test table expects 5.36 |

## Left out

- The decimal library (shopspring/decimal) is not part of this model. Its operations are parameters (`DecimalOps`); only `New`, `IsZero`, `Neg`, the exponent and the zero values are concrete.
- Error messages are not modelled; each error is a datatype constructor that carries its literal and position. `pkg/errors` wrapping is modelled only as the `InExpression` wrapper that `Eval` adds.
- Locking (`sync.RWMutex`) and concurrent use of an evaluator are not modelled.
- `Default`, `SetDefault`, the package-level `Eval` and `RegisterFunction`, and the atomic pointer behind them (eval.go:11-21, 222-228) are left out. They only forward to one shared evaluator.
- The Go program shares the `functions` map between the default evaluator and the package variable. A registration through one is therefore visible through the other. The model gives each evaluator its own map value.
- `RPNItem` pointers are values. No item is changed after it leaves the parser, so sharing between the cache and a run is not observable.
- Slice capacities (`make(..., n)`) and the `defaultIdentSize`/`defaultNumberSize` hints are not modelled. Neither are the benchmarks.
- `Stacks.NumberStack.PopN`: a negative count passes the length check and then always panics in `make` at stack.go:119. The model requires n >= 0, and the evaluator only passes counts that the parser made non-negative.
- `Items.NewRPNItem`: the panic in its `default` branch (item.go:62-63) is a precondition (`ItemKind`). Of the kinds the lexer emits, only Illegal (lexer.go:86-87) falls outside `ItemKind`. The parser rejects it at parser.go:28-31, before it calls `NewRPNItem`.
- `Parsing.Parser.Apply`: the `default` branch of the parser's switch (parser.go:111-113) is not modelled. Of the kinds that pass the Illegal check and `NewRPNItem`, only `TokenIntNumber` has no case of its own. The lexer never emits it (`ScannedKind`), so `Step` requires a kind the lexer emits. If it did arrive, Go's `Wrapf(err, ...)` would wrap the nil `err` to nil, and `Parse` would return `(nil, nil)`: an empty program and no error.
- `Parsing.Parser.Parse`: its contract ties the result to `ParseSpec`. Priorities and left association are stated per operator (`OperatorStepPops`, `PopWhileHigherMoves`), and argument counts per token (`OpenStepKept`, `CommaCountsTopCall`, `Moved`). They are also proved on the parser_test.go expressions in `ParsingExamples`. There is no single statement over a whole program that it is the precedence-correct postfix form of the input.
- `ParsingProperties.CommaCountsTopCall`: the rule that a call leaves with one plus the number of commas at its own nesting level is proved step by step (a call opens a counter of 1 in `OpenStepKept`, each comma adds one to the innermost open call's counter here, and a call leaves with its own counter in `Moved`), and on the parser_test.go examples in `ParsingExamples`; it is not stated as one property over a whole token sequence.
- `Caching.EvalNoopCache.Put` does nothing and has no contract beyond changing nothing.
- `Evaluation.ExpressionEvaluator.Eval`: the model states the result for an evaluator whose cache agrees with its parser. The Go map cache could disagree only if a caller put foreign programs into it.
