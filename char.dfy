/**
 * The byte classifier: a 256-entry table from byte to category, filled once
 * at start-up, and the one-category lookups every other component uses.
 */
module CharClass {
  import opened Common

  /**
   * The categories of a byte. `Unassigned` is the zero value of Go's
   * `CharType`, which no named constant denotes: every byte the
   * initialisation does not mention keeps it. It differs from `CharInvalid`,
   * which the initialisation never assigns.
   */
  datatype CharType =
    | Unassigned
    | CharInvalid
    | CharWhitespace
    | CharDigit
    | CharLetter
    | CharDot
    | CharOperator
    | CharLeftParen
    | CharRightParen
    | CharComma
    | CharEOF

  /** The table as it stands once the initialisation has run. */
  function CharMap(ch: Byte): CharType {
    if ch == '\0' then CharEOF
    else if ch == ' ' || ch == '\t' || ch == '\n' || ch == '\r' then CharWhitespace
    else if '0' <= ch <= '9' then CharDigit
    else if 'a' <= ch <= 'z' || 'A' <= ch <= 'Z' || ch == '_' then CharLetter
    else if ch == '.' then CharDot
    else if ch == '(' then CharLeftParen
    else if ch == ')' then CharRightParen
    else if ch == ',' then CharComma
    else if ch == '+' || ch == '-' || ch == '*' || ch == '/' || ch == '%' || ch == '^' then CharOperator
    else Unassigned
  }

  /** The table before the three range loops: byte 0 and the whitespace bytes. */
  function EarlyEntry(i: int): CharType {
    if i == 0 then CharEOF
    else if i == ' ' as int || i == '\t' as int || i == '\n' as int || i == '\r' as int then CharWhitespace
    else Unassigned
  }

  /** The table after the range loops, before the single assignments that follow them. */
  function RangeEntry(i: int): CharType {
    if '0' as int <= i <= '9' as int then CharDigit
    else if 'a' as int <= i <= 'z' as int || 'A' as int <= i <= 'Z' as int then CharLetter
    else EarlyEntry(i)
  }

  /** The entry the single assignments after the loops give byte `i`, if any. */
  function LateEntry(i: int): Option<CharType> {
    if i == '_' as int then Some(CharLetter)
    else if i == '.' as int then Some(CharDot)
    else if i == '(' as int then Some(CharLeftParen)
    else if i == ')' as int then Some(CharRightParen)
    else if i == ',' as int then Some(CharComma)
    else if i == '+' as int || i == '-' as int || i == '*' as int || i == '/' as int
            || i == '%' as int || i == '^' as int then Some(CharOperator)
    else None
  }

  /** The three stages together give the table. */
  lemma StagesGiveCharMap(ch: Byte)
    ensures CharMap(ch) == (if LateEntry(ch as int).Some? then LateEntry(ch as int).value else RangeEntry(ch as int))
  {
  }

  /** Sets every entry from `lo` to `hi` inclusive to `c` (one `for ch := lo; ch <= hi; ch++` loop). */
  method FillRange(m: array<CharType>, lo: int, hi: int, c: CharType)
    requires 0 <= lo <= hi < m.Length
    modifies m
    ensures forall i :: 0 <= i < m.Length ==> m[i] == (if lo <= i <= hi then c else old(m[i]))
  {
    for ch := lo to hi + 1
      invariant forall i :: 0 <= i < m.Length ==> m[i] == (if lo <= i < ch then c else old(m[i]))
    {
      m[ch] := c;
    }
  }

  /** Byte 0 and the four whitespace bytes, on a table that holds only `Unassigned`. */
  method FillEarly(m: array<CharType>)
    requires m.Length == 256
    requires forall i :: 0 <= i < 256 ==> m[i] == Unassigned
    modifies m
    ensures forall i :: 0 <= i < 256 ==> m[i] == EarlyEntry(i)
  {
    m[0] := CharEOF;
    m[' ' as int] := CharWhitespace;
    m['\t' as int] := CharWhitespace;
    m['\n' as int] := CharWhitespace;
    m['\r' as int] := CharWhitespace;
  }

  /** The single assignments that follow the range loops. */
  method FillLate(m: array<CharType>)
    requires m.Length == 256
    modifies m
    ensures forall i :: 0 <= i < 256 ==> m[i] == (if LateEntry(i).Some? then LateEntry(i).value else old(m[i]))
  {
    m['_' as int] := CharLetter;
    m['.' as int] := CharDot;
    m['(' as int] := CharLeftParen;
    m[')' as int] := CharRightParen;
    m[',' as int] := CharComma;
    m['+' as int] := CharOperator;
    m['-' as int] := CharOperator;
    m['*' as int] := CharOperator;
    m['/' as int] := CharOperator;
    m['%' as int] := CharOperator;
    m['^' as int] := CharOperator;
  }

  /**
   * Fills a fresh 256-entry table in the order the start-up code does:
   * byte 0, the whitespace bytes, the digit, lower-case and upper-case
   * loops, then '_', the punctuation and the six operator bytes.
   */
  method InitCharMap() returns (m: array<CharType>)
    ensures fresh(m) && m.Length == 256
    ensures forall ch: Byte :: m[ch as int] == CharMap(ch)
  {
    m := new CharType[256](_ => Unassigned);
    FillEarly(m);
    FillRange(m, '0' as int, '9' as int, CharDigit);
    FillRange(m, 'a' as int, 'z' as int, CharLetter);
    FillRange(m, 'A' as int, 'Z' as int, CharLetter);
    assert forall i :: 0 <= i < 256 ==> m[i] == RangeEntry(i);
    FillLate(m);
    forall ch: Byte
      ensures m[ch as int] == CharMap(ch)
    {
      StagesGiveCharMap(ch);
    }
  }

  function IsWhitespace(ch: Byte): (r: bool)
    ensures r <==> ch == ' ' || ch == '\t' || ch == '\n' || ch == '\r'
  {
    CharMap(ch) == CharWhitespace
  }

  function IsDigit(ch: Byte): (r: bool)
    ensures r <==> '0' <= ch <= '9'
  {
    CharMap(ch) == CharDigit
  }

  function IsLetter(ch: Byte): (r: bool)
    ensures r <==> 'a' <= ch <= 'z' || 'A' <= ch <= 'Z' || ch == '_'
  {
    CharMap(ch) == CharLetter
  }

  function IsDot(ch: Byte): (r: bool)
    ensures r <==> ch == '.'
  {
    CharMap(ch) == CharDot
  }

  function IsOperatorChar(ch: Byte): (r: bool)
    ensures r <==> ch == '+' || ch == '-' || ch == '*' || ch == '/' || ch == '%' || ch == '^'
  {
    CharMap(ch) == CharOperator
  }

  function IsLeftParen(ch: Byte): (r: bool)
    ensures r <==> ch == '('
  {
    CharMap(ch) == CharLeftParen
  }

  function IsRightParen(ch: Byte): (r: bool)
    ensures r <==> ch == ')'
  {
    CharMap(ch) == CharRightParen
  }

  function IsComma(ch: Byte): (r: bool)
    ensures r <==> ch == ','
  {
    CharMap(ch) == CharComma
  }

  /**
   * True unless the entry is `CharInvalid`. No byte is ever assigned that
   * category (bytes left out keep `Unassigned`), so every byte is "valid".
   */
  function IsValidChar(ch: Byte): (r: bool)
    ensures r
  {
    CharMap(ch) != CharInvalid
  }

  /** Byte 0 is the only end-of-input byte. */
  lemma OnlyNulIsEof(ch: Byte)
    ensures CharMap(ch) == CharEOF <==> ch == '\0'
  {
  }

  /** A byte satisfies at most one of the category lookups. */
  lemma LookupsAreExclusive(ch: Byte)
    ensures IsWhitespace(ch) ==> !IsDigit(ch) && !IsLetter(ch) && !IsDot(ch) && !IsOperatorChar(ch)
                                 && !IsLeftParen(ch) && !IsRightParen(ch) && !IsComma(ch)
    ensures IsDigit(ch) ==> !IsLetter(ch) && !IsDot(ch) && !IsOperatorChar(ch)
                            && !IsLeftParen(ch) && !IsRightParen(ch) && !IsComma(ch)
    ensures IsLetter(ch) ==> !IsDot(ch) && !IsOperatorChar(ch) && !IsLeftParen(ch)
                             && !IsRightParen(ch) && !IsComma(ch)
    ensures IsDot(ch) ==> !IsOperatorChar(ch) && !IsLeftParen(ch) && !IsRightParen(ch) && !IsComma(ch)
    ensures IsOperatorChar(ch) ==> !IsLeftParen(ch) && !IsRightParen(ch) && !IsComma(ch)
    ensures IsLeftParen(ch) ==> !IsRightParen(ch) && !IsComma(ch)
    ensures IsRightParen(ch) ==> !IsComma(ch)
  {
  }
}
