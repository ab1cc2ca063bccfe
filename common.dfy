/**
 * Shared vocabulary of the expression engine: bytes, fixed-width integer
 * conversions, the error taxonomy and the Option/Result/Outcome wrappers.
 */
module Common {

  /** One byte of an expression's text (Go indexes strings by byte). */
  type Byte = c: char | c as int < 256 witness '\0'

  /** Identifier and function names, operator literals, digit strings. */
  type Name = seq<Byte>

  /** Go's `math.MaxInt16`. */
  const MaxInt16: int := 32767
  const MaxInt64: int := 0x7fff_ffff_ffff_ffff
  const MinInt64: int := -0x8000_0000_0000_0000

  type Int16 = x: int | -32768 <= x <= 32767

  /** The value of Go's conversion `int16(x)`: two's-complement wrap-around. */
  function WrapInt16(x: int): (r: Int16)
    ensures (r - x) % 65536 == 0
    ensures -32768 <= x <= 32767 ==> r == x
  {
    var m := x % 65536;
    if m >= 32768 then m - 65536 else m
  }

  /** The value of Go's conversion `int32(x)`: two's-complement wrap-around. */
  function WrapInt32(x: int): (r: int)
    ensures -0x8000_0000 <= r < 0x8000_0000
    ensures (r - x) % 0x1_0000_0000 == 0
    ensures -0x8000_0000 <= x < 0x8000_0000 ==> r == x
  {
    var m := x % 0x1_0000_0000;
    if m >= 0x8000_0000 then m - 0x1_0000_0000 else m
  }

  function Last<T>(s: seq<T>): T
    requires s != []
  {
    s[|s| - 1]
  }

  function ButLast<T>(s: seq<T>): seq<T>
    requires s != []
  {
    s[..|s| - 1]
  }

  /** `s` in the opposite order. */
  function Reverse<T>(s: seq<T>): (r: seq<T>)
    ensures |r| == |s|
    ensures forall i :: 0 <= i < |s| ==> r[i] == s[|s| - 1 - i]
  {
    seq(|s|, i requires 0 <= i < |s| => s[|s| - 1 - i])
  }

  lemma ReverseReverse<T>(s: seq<T>)
    ensures Reverse(Reverse(s)) == s
  {
  }

  lemma ReverseAppend<T>(a: seq<T>, b: seq<T>)
    ensures Reverse(a + b) == Reverse(b) + Reverse(a)
  {
  }

  lemma ConcatAssoc<T>(a: seq<T>, b: seq<T>, c: seq<T>)
    ensures (a + b) + c == a + (b + c)
  {
  }

  /** Every failure the engine reports, by kind (message texts are not modelled). */
  datatype Error =
    | InputTooLong
    | IllegalToken(literal: Name, position: int)
    | NumberSyntax(literal: Name)
    | NumberOutOfRange(literal: Name)
    | UnknownOperator(literal: Name)
    | UnexpectedToken(literal: Name, position: int)
    | UnmatchedRightParen(position: int)
    | UnclosedLeftParen(position: int)
    | StrayRightParen(position: int)
    | UnknownFunction(name: Name, position: int)
    | ArityMismatch(name: Name, position: int)
    | UnboundIdent(name: Name, position: int)
    | MissingOperand(literal: Name, position: int)
    | UnsupportedOperator(literal: Name, position: int)
    | DivisionByZero(position: int)
    | FunctionUnderflow(name: Name, position: int)
    | StackTooShort
    | FunctionFailed(name: Name, position: int, cause: Error)
    | UnknownTokenType(literal: Name, position: int)
    | StackNotEmpty
    | BadArgumentCount
    | BadSecondArgument
    | AlreadyRegistered(name: Name)
    | InExpression(expression: Name, cause: Error)

  datatype Option<T> = None | Some(value: T)

  /** A value or the error that replaced it (Go's `(T, error)` pair). */
  datatype Result<T> = Ok(value: T) | Err(error: Error) {
    predicate IsFailure() {
      Err?
    }

    function PropagateFailure<U>(): Result<U>
      requires Err?
    {
      Err(error)
    }

    function Extract(): T
      requires Ok?
    {
      value
    }
  }

  /** Success or the error of an operation that returns only `error` in Go. */
  datatype Outcome = Pass | Fail(error: Error)
}
