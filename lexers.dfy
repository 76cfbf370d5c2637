/** The primitive lexers of the ledger grammar: the line counter, mandatory blanks,
    line endings and two-digit numbers. */
module Lexers {
  import opened Parsing

  /** `line_number`: the current line, read without consuming input. */
  function LineNumber(s: State): (r: Reply<int>)
    ensures Sound(s, r)
    ensures r.Ok? && r.value == s.line && r.tag == Empty && r.rest == s
  {
    Ok(s.line, Empty, s)
  }

  predicate IsBlank(c: char) {
    c == ' ' || c == '\t'
  }

  /** `whitespace`: a non-empty run of spaces and tabs, all of it. */
  function Whitespace(s: State): (r: Reply<string>)
    ensures Sound(s, r) && !r.Abort?
    ensures r.Fail? <==> s.text == [] || !IsBlank(s.text[0])
    ensures r.Fail? ==> r.tag == Empty
    ensures r.Ok? ==> r.tag == Consumed && |r.rest.text| <= |s.text| && r.value == Taken(s, r.rest)
    ensures r.Ok? ==> r.rest.text == s.text[Run(s.text, IsBlank)..]
    ensures r.Ok? ==> r.value != [] && forall i :: 0 <= i < |r.value| ==> IsBlank(r.value[i])
    ensures r.Ok? ==> r.rest.text == [] || !IsBlank(r.rest.text[0])
  {
    Many1(s, IsBlank)
  }

  /** `p.skip(whitespace)`, where `r` is the reply of `p` at `s`: the value of `p`, which
      must be followed by at least one blank; the blanks are consumed and dropped. */
  function SkipBlank<T>(s: State, r: Reply<T>): (q: Reply<T>)
    requires Sound(s, r)
    ensures Sound(s, q)
    ensures q.Ok? <==> r.Ok? && r.rest.text != [] && IsBlank(r.rest.text[0])
    ensures q.Ok? ==> q.value == r.value && q.tag == Consumed
    ensures q.Ok? ==> q.rest.text == r.rest.text[Run(r.rest.text, IsBlank)..]
    ensures q.Fail? ==> r.Ok? || q == r
    ensures r.Ok? && r.tag == Consumed && !q.Ok? ==> q.Fail? && q.tag == Consumed
    ensures q.Abort? <==> r.Abort?
  {
    match r
    case Fail(tag, left) => Fail(tag, left)
    case Abort(left) => Abort(left)
    case Ok(v, tag, t) => Seq(tag, s, t, Map(t, Whitespace(t), _ => v))
  }

  /** A production followed by exactly one blank and then by a non-blank: the blank is
      skipped and the value kept. */
  lemma SkipOneBlank<T>(s: State, r: Reply<T>, t: seq<char>)
    requires Sound(s, r) && r.Ok? && r.rest.text == [' '] + t && (t == [] || !IsBlank(t[0]))
    ensures var q := SkipBlank(s, r);
      q.Ok? && q.value == r.value && q.rest.text == t
  {
    RunExact([' '], t, IsBlank);
  }

  /** `crlf()`: a carriage return followed by a line feed; its value is the line feed. */
  function Crlf(s: State): (r: Reply<char>)
    ensures Sound(s, r) && !r.Abort?
    ensures r.Ok? <==> |s.text| >= 2 && s.text[0] == '\r' && s.text[1] == '\n'
    ensures r.Ok? ==> r.value == '\n' && r.tag == Consumed && r.rest == Next(Next(s))
    ensures r.Fail? && r.tag == Empty <==> s.text == [] || s.text[0] != '\r'
  {
    match Char(s, '\r')
    case Fail(tag, left) => Fail(tag, left)
    case Ok(_, _, t) => Seq(Consumed, s, t, Char(t, '\n'))
  }

  /** `line_ending`: "\r\n" or "\n", both reported as "\n". A carriage return that is
      not followed by a line feed is a failure after consumption, so no alternative is
      tried after it. */
  function LineEnding(s: State): (r: Reply<string>)
    ensures Sound(s, r) && !r.Abort?
    ensures r.Ok? <==>
      || (s.text != [] && s.text[0] == '\n')
      || (|s.text| >= 2 && s.text[0] == '\r' && s.text[1] == '\n')
    ensures r.Ok? ==> r.value == "\n" && r.tag == Consumed && |r.rest.text| <= |s.text|
    ensures r.Ok? ==> Taken(s, r.rest) == if s.text[0] == '\r' then "\r\n" else "\n"
    ensures r.Fail? && r.tag == Empty <==> s.text == [] || (s.text[0] != '\r' && s.text[0] != '\n')
  {
    var crlf := Map(s, Crlf(s), (c: char) => [c]);
    var newline := Map(s, Char(s, '\n'), (c: char) => [c]);
    var r := Or(s, crlf, newline);
    if r.Ok? && s.text[0] == '\r' then
      ReachesTrans(s, Next(s), Next(Next(s)));
      r
    else
      r
  }

  predicate IsDigit(c: char) {
    '0' <= c <= '9'
  }

  function DigitValue(c: char): (n: nat)
    requires IsDigit(c)
    ensures n < 10
  {
    c as int - '0' as int
  }

  /** The digit character whose value is `n`. */
  function DigitChar(n: nat): (c: char)
    requires n < 10
    ensures IsDigit(c) && DigitValue(c) == n
  {
    (n + '0' as int) as char
  }

  /** `two_digits_to_int`: the number written by a tens digit and a units digit. The
      source unwraps the digit conversions, so it demands digits of its callers. */
  function TwoDigitsToInt(x: char, y: char): (n: int)
    requires IsDigit(x) && IsDigit(y)
    ensures 0 <= n <= 99
    ensures n / 10 == DigitValue(x) && n % 10 == DigitValue(y)
  {
    10 * DigitValue(x) + DigitValue(y)
  }

  /** Every number from 0 to 99 is written by exactly one pair of digits, and
      `TwoDigitsToInt` reads it back. */
  lemma TwoDigitsToIntRoundTrip(n: int)
    requires 0 <= n <= 99
    ensures TwoDigitsToInt(DigitChar(n / 10), DigitChar(n % 10)) == n
  {
  }

  lemma TwoDigitsToIntInjective(x: char, y: char, x': char, y': char)
    requires IsDigit(x) && IsDigit(y) && IsDigit(x') && IsDigit(y')
    requires TwoDigitsToInt(x, y) == TwoDigitsToInt(x', y')
    ensures x == x' && y == y'
  {
    assert DigitValue(x) == DigitValue(x') && DigitValue(y) == DigitValue(y');
  }

  /** `two_digits`: exactly two digits, read as a number from 0 to 99. */
  function TwoDigits(s: State): (r: Reply<int>)
    ensures Sound(s, r) && !r.Abort?
    ensures r.Ok? <==> |s.text| >= 2 && IsDigit(s.text[0]) && IsDigit(s.text[1])
    ensures r.Ok? ==> r.value == TwoDigitsToInt(s.text[0], s.text[1])
    ensures r.Ok? ==> r.tag == Consumed && r.rest == Next(Next(s))
    ensures r.Fail? && r.tag == Empty <==> s.text == [] || !IsDigit(s.text[0])
  {
    match Satisfy(s, IsDigit)
    case Fail(tag, left) => Fail(tag, left)
    case Ok(x, _, t) =>
      Seq(Consumed, s, t,
        match Satisfy(t, IsDigit)
        case Fail(tag, left) => Fail(tag, left)
        case Ok(y, _, u) => Ok(TwoDigitsToInt(x, y), Consumed, u))
  }
}
