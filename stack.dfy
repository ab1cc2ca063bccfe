/**
 * The three stacks of the engine: operator items for the parser, the
 * per-call argument counters, and values for the evaluator. Each is a
 * class over a sequence field whose last element is the top; the functions
 * `PopTop`, `IncTop` and `TakeTop` say what their operations do.
 */
module Stacks {
  import opened Common
  import opened Decimals
  import opened Items

  /** Removing the top of a stack: the top, if there is one, and what remains. */
  function PopTop<T>(s: seq<T>): (r: (Option<T>, seq<T>))
    ensures r.0.None? <==> s == []
    ensures r.0.None? ==> r.1 == s
    ensures r.0.Some? ==> r.1 + [r.0.value] == s
  {
    if s == [] then (None, s) else (Some(s[|s| - 1]), s[..|s| - 1])
  }

  /** The top of a stack, or `dflt` when it is empty. */
  function TopOr<T>(s: seq<T>, dflt: T): T {
    if s == [] then dflt else s[|s| - 1]
  }

  /** The counters with the top one incremented; an empty stack stays empty. */
  function IncTop(s: seq<int>): (r: seq<int>)
    ensures |r| == |s|
    ensures forall i :: 0 <= i < |s| - 1 ==> r[i] == s[i]
    ensures s != [] ==> r[|s| - 1] == s[|s| - 1] + 1
  {
    if s == [] then s else s[|s| - 1 := s[|s| - 1] + 1]
  }

  /**
   * Removing the top `n` values: they come out topmost-first, and the rest
   * is the stack below them. A stack of fewer than `n` values is an error.
   */
  function TakeTop<T>(s: seq<T>, n: nat): (r: Result<(seq<T>, seq<T>)>)
    ensures r.Err? <==> |s| < n
    ensures r.Err? ==> r.error == StackTooShort
    ensures r.Ok? ==> |r.value.0| == n && r.value.1 + Reverse(r.value.0) == s
  {
    if |s| < n then Err(StackTooShort)
    else
      var taken := Reverse(s[|s| - n..]);
      ReverseReverse(s[|s| - n..]);
      Ok((taken, s[..|s| - n]))
  }

  /** Popping what was just pushed gives it back and restores the stack. */
  lemma PushThenPop<T>(s: seq<T>, x: T)
    ensures PopTop(s + [x]) == (Some(x), s)
  {
    assert (s + [x])[..|s|] == s;
  }

  /** Taking `n` values after pushing `n` gives them back in reverse push order. */
  lemma TakeWhatWasPushed<T>(s: seq<T>, xs: seq<T>)
    ensures TakeTop(s + xs, |xs|) == Ok((Reverse(xs), s))
  {
    assert (s + xs)[|s|..] == xs;
    assert (s + xs)[..|s|] == s;
  }

  /** Taking `m` and then `n` values is taking `m + n` at once. */
  lemma TakeTopTwice<T>(s: seq<T>, m: nat, n: nat)
    requires m + n <= |s|
    ensures TakeTop(s, m).Ok? && TakeTop(TakeTop(s, m).value.1, n).Ok?
    ensures TakeTop(s, m + n)
            == Ok((TakeTop(s, m).value.0 + TakeTop(TakeTop(s, m).value.1, n).value.0,
                   TakeTop(TakeTop(s, m).value.1, n).value.1))
  {
    var k := |s|;
    var first := s[k - m..];
    var rest := s[..k - m];
    assert rest[|rest| - n..] + first == s[k - m - n..];
    assert rest[..|rest| - n] == s[..k - m - n];
    ReverseAppend(rest[|rest| - n..], first);
  }

  class StackItems {
    var Items: seq<RPNItem>

    constructor ()
      ensures Items == []
    {
      Items := [];
    }

    method Push(item: RPNItem)
      modifies this
      ensures Items == old(Items) + [item]
    {
      Items := Items + [item];
    }

    /** Removes and returns the top item; `None` (Go's nil) on an empty stack, which stays as it is. */
    method Pop() returns (item: Option<RPNItem>)
      modifies this
      ensures (item, Items) == PopTop(old(Items))
    {
      if |Items| == 0 {
        return None;
      }
      item := Some(Items[|Items| - 1]);
      Items := Items[..|Items| - 1];
    }

    /** The top item without removing it. */
    method Peek() returns (item: Option<RPNItem>)
      ensures item == PopTop(Items).0
    {
      if |Items| == 0 {
        return None;
      }
      return Some(Items[|Items| - 1]);
    }

    function Len(): (n: nat)
      reads this
      ensures n == |Items|
    {
      |Items|
    }
  }

  class ArgStack {
    var args: seq<int>

    constructor ()
      ensures args == []
    {
      args := [];
    }

    /** Opens a counter for a new call; it starts at 1. */
    method Push()
      modifies this
      ensures args == old(args) + [1]
    {
      args := args + [1];
    }

    /** Removes and returns the top counter; 0 on an empty stack. */
    method Pop() returns (v: int)
      modifies this
      ensures v == TopOr(old(args), 0) && args == PopTop(old(args)).1
    {
      if |args| == 0 {
        return 0;
      }
      v := args[|args| - 1];
      args := args[..|args| - 1];
    }

    /** Counts one more argument of the innermost call. */
    method Inc()
      modifies this
      ensures args == IncTop(old(args))
    {
      if |args| == 0 {
        return;
      }
      args := args[|args| - 1 := args[|args| - 1] + 1];
    }

    function Len(): (n: nat)
      reads this
      ensures n == |args|
    {
      |args|
    }
  }

  class NumberStack {
    var numbers: seq<Decimal>

    constructor ()
      ensures numbers == []
    {
      numbers := [];
    }

    method Push(value: Decimal)
      modifies this
      ensures numbers == old(numbers) + [value]
    {
      numbers := numbers + [value];
    }

    /** Removes and returns the top value; the zero decimal on an empty stack. */
    method Pop() returns (v: Decimal)
      modifies this
      ensures v == TopOr(old(numbers), ZeroValue) && numbers == PopTop(old(numbers)).1
    {
      if |numbers| == 0 {
        return ZeroValue;
      }
      v := numbers[|numbers| - 1];
      numbers := numbers[..|numbers| - 1];
    }

    /**
     * Removes the top `n` values and returns them topmost-first; with fewer
     * than `n` values it fails and leaves the stack as it was.
     */
    method PopN(n: int) returns (r: Result<seq<Decimal>>)
      requires n >= 0
      modifies this
      ensures TakeTop(old(numbers), n).Err? ==> r == Err(StackTooShort) && numbers == old(numbers)
      ensures TakeTop(old(numbers), n).Ok? ==>
                r == Ok(TakeTop(old(numbers), n).value.0) && numbers == TakeTop(old(numbers), n).value.1
    {
      if |numbers| < n {
        return Err(StackTooShort);
      }
      var res: seq<Decimal> := [];
      var i := |numbers| - 1;
      while i >= |numbers| - n
        invariant n <= |numbers| && numbers == old(numbers)
        invariant |numbers| - n - 1 <= i <= |numbers| - 1
        invariant res == Reverse(numbers[i + 1..])
        decreases i
      {
        assert numbers[i..] == [numbers[i]] + numbers[i + 1..];
        ReverseAppend([numbers[i]], numbers[i + 1..]);
        res := res + [numbers[i]];
        i := i - 1;
      }
      numbers := numbers[..|numbers| - n];
      return Ok(res);
    }

    function Len(): (n: nat)
      reads this
      ensures n == |numbers|
    {
      |numbers|
    }
  }

  /**
   * Four values pushed; asking for five fails and changes nothing; three
   * come back topmost-first leaving the bottom one; the last one then empties the stack.
   */
  method PopNScenario(v1: Decimal, v2: Decimal, v3: Decimal, v4: Decimal)
    returns (tooMany: Result<seq<Decimal>>, three: Result<seq<Decimal>>, left: seq<Decimal>,
             one: Result<seq<Decimal>>, empty: seq<Decimal>)
    ensures tooMany == Err(StackTooShort)
    ensures three == Ok([v4, v3, v2]) && left == [v1]
    ensures one == Ok([v1]) && empty == []
  {
    var stack := new NumberStack();
    stack.Push(v1);
    stack.Push(v2);
    stack.Push(v3);
    stack.Push(v4);
    tooMany := stack.PopN(5);
    assert stack.numbers == [v1] + [v2, v3, v4];
    TakeWhatWasPushed([v1], [v2, v3, v4]);
    assert Reverse([v2, v3, v4]) == [v4, v3, v2];
    three := stack.PopN(3);
    left := stack.numbers;
    assert stack.numbers == [] + [v1];
    TakeWhatWasPushed([], [v1]);
    assert Reverse([v1]) == [v1];
    one := stack.PopN(1);
    empty := stack.numbers;
  }
}
