/** The date grammar: a run of year digits, a dash, two month digits, a dash and two
    day digits. Month and day are not range-checked. */
module Dates {
  import opened Parsing
  import opened Lexers
  import opened Types

  /** The largest value of a 32-bit signed integer, the width of `Date.year`. */
  const I32Max: int := 0x7fff_ffff

  predicate AllDigits(ds: seq<char>) {
    forall i :: 0 <= i < |ds| ==> IsDigit(ds[i])
  }

  /** The number a run of decimal digits denotes (leading zeros allowed). */
  function DecimalValue(ds: seq<char>): nat
    requires AllDigits(ds)
    decreases |ds|
  {
    if ds == [] then 0 else 10 * DecimalValue(ds[..|ds| - 1]) + DigitValue(ds[|ds| - 1])
  }

  /** The decimal numeral of `n` without leading zeros: `DecimalValue` reads it back. */
  function Decimal(n: nat): (ds: seq<char>)
    ensures ds != [] && AllDigits(ds) && DecimalValue(ds) == n
    decreases n
  {
    if n < 10 then
      [DigitChar(n)]
    else
      var ds := Decimal(n / 10) + [DigitChar(n % 10)];
      assert ds[..|ds| - 1] == Decimal(n / 10);
      ds
  }

  /** `str::parse::<i32>` applied to a run of digits: its value, or `None` where the
      conversion reports an error (an empty run, or a value above `I32Max`). */
  function ParseI32(ds: seq<char>): (r: Option<int>)
    requires AllDigits(ds)
    ensures r.Some? <==> ds != [] && DecimalValue(ds) <= I32Max
    ensures r.Some? ==> r.value == DecimalValue(ds)
  {
    if ds == [] || DecimalValue(ds) > I32Max then None else Some(DecimalValue(ds))
  }

  /** Length of the year digits at the front of `t`. */
  function YearLength(t: seq<char>): nat {
    Run(t, IsDigit)
  }

  /** The dates the grammar can produce: a year that fits 32 bits, and month and day
      that two digits can write. */
  predicate ValidDate(d: Date) {
    0 <= d.year <= I32Max && 0 <= d.month <= 99 && 0 <= d.day <= 99
  }

  /** `t` starts with a date as the grammar writes it: digits, '-', two digits, '-',
      two digits (the year digits may be absent). */
  predicate DatePattern(t: seq<char>) {
    var n := YearLength(t);
    && |t| >= n + 6
    && t[n] == '-' && IsDigit(t[n + 1]) && IsDigit(t[n + 2])
    && t[n + 3] == '-' && IsDigit(t[n + 4]) && IsDigit(t[n + 5])
  }

  /** The value of the date that `t` starts with: the year digits as a number, the
      month and day as two-digit numbers. */
  function DateValue(t: seq<char>): Date
    requires DatePattern(t)
  {
    var n := YearLength(t);
    assert AllDigits(t[..n]);
    Date(DecimalValue(t[..n]), TwoDigitsToInt(t[n + 1], t[n + 2]), TwoDigitsToInt(t[n + 4], t[n + 5]))
  }

  /** `char('-')` followed by `two_digits()`: one dash-separated date field. */
  function DashTwoDigits(s: State): (r: Reply<int>)
    ensures Sound(s, r) && !r.Abort?
    ensures r.Ok? <==> |s.text| >= 3 && s.text[0] == '-' && IsDigit(s.text[1]) && IsDigit(s.text[2])
    ensures r.Ok? ==> r.value == TwoDigitsToInt(s.text[1], s.text[2]) && r.tag == Consumed
    ensures r.Ok? ==> r.rest.text == s.text[3..]
    ensures r.Fail? && r.tag == Empty <==> s.text == [] || s.text[0] != '-'
  {
    match Char(s, '-')
    case Fail(tag, left) => Fail(tag, left)
    case Ok(_, _, t) => Seq(Consumed, s, t, TwoDigits(t))
  }

  /** The month and day fields of a date, each introduced by a dash. */
  function MonthDay(s: State): (r: Reply<(int, int)>)
    ensures Sound(s, r) && !r.Abort?
    ensures r.Ok? <==> |s.text| >= 6 && s.text[0] == '-' && IsDigit(s.text[1]) && IsDigit(s.text[2])
                        && s.text[3] == '-' && IsDigit(s.text[4]) && IsDigit(s.text[5])
    ensures r.Ok? ==> r.tag == Consumed && r.rest.text == s.text[6..]
    ensures r.Ok? ==> r.value == (TwoDigitsToInt(s.text[1], s.text[2]), TwoDigitsToInt(s.text[4], s.text[5]))
    ensures r.Fail? && r.tag == Empty <==> s.text == [] || s.text[0] != '-'
  {
    match DashTwoDigits(s)
    case Fail(tag, left) => Fail(tag, left)
    case Ok(month, _, t) =>
      Seq(Consumed, s, t,
        match DashTwoDigits(t)
        case Fail(tag, left) => Fail(tag, left)
        case Ok(day, _, u) => Ok((month, day), Consumed, u))
  }

  /** `date`: the sequence (year digits, '-', two digits, '-', two digits), grouped here
      as the year digits followed by `MonthDay`, which consumes and fails the same way.
      When the whole pattern has matched, the year digits are converted with
      `parse().unwrap()`, which panics on an empty year or one beyond 32 bits: the
      model aborts there instead of failing. */
  function ParseDate(s: State): (r: Reply<Date>)
    ensures Sound(s, r)
    ensures r.Ok? ==> r.tag == Consumed
    ensures r.Fail? && r.tag == Empty <==> s.text == [] || !(IsDigit(s.text[0]) || s.text[0] == '-')
  {
    var m := Many(s, IsDigit);
    Seq(m.tag, s, m.rest, DateAfterYear(m.rest, m.value))
  }

  /** The month and the day after the year digits `year`, and the conversion of the
      year once both have been read. */
  function DateAfterYear(s: State, year: seq<char>): (r: Reply<Date>)
    requires AllDigits(year)
    ensures Sound(s, r)
    ensures r.Ok? ==> r.tag == Consumed
    ensures r.Fail? && r.tag == Empty <==> s.text == [] || s.text[0] != '-'
  {
    match MonthDay(s)
    case Fail(tag, left) => Fail(tag, left)
    case Ok(md, _, s1) =>
      match ParseI32(year)
      case None => Abort(|s1.text|)
      case Some(y) => Ok(Date(y, md.0, md.1), Consumed, s1)
  }

  /** `DateAfterYear` succeeds or aborts exactly when the month and day are there, and
      aborts exactly when the year does not convert. */
  lemma DateAfterYearSpec(s: State, year: seq<char>)
    requires AllDigits(year)
    ensures var r := DateAfterYear(s, year); var md := MonthDay(s);
      && (r.Ok? || r.Abort? <==> md.Ok?)
      && (r.Abort? <==> md.Ok? && ParseI32(year).None?)
      && (r.Ok? ==> r.value == Date(DecimalValue(year), md.value.0, md.value.1) && r.rest == md.rest)
  {
  }

  /** What `date` computes, against the reference definitions above: it succeeds or
      panics exactly when the input starts with the date pattern; it panics exactly
      when the year digits are absent or exceed 32 bits; otherwise the value is the
      date written there and the rest is what follows the day digits. */
  lemma ParseDateSpec(s: State)
    ensures var r := ParseDate(s);
      && (r.Ok? || r.Abort? <==> DatePattern(s.text))
      && (r.Abort? <==> DatePattern(s.text) && (YearLength(s.text) == 0 || DateValue(s.text).year > I32Max))
      && (r.Ok? ==> r.value == DateValue(s.text) && r.rest.text == s.text[YearLength(s.text) + 6..])
      && (r.Ok? ==> ValidDate(r.value))
  {
    var m := Many(s, IsDigit);
    ParseDateStep(s);
    YearThenMonthDay(s);
    DateAfterYearSpec(m.rest, m.value);
  }

  /** `date` replies as `DateAfterYear` does after the year digits. */
  lemma ParseDateStep(s: State)
    ensures var m := Many(s, IsDigit); var d := DateAfterYear(m.rest, m.value); var r := ParseDate(s);
      && (r.Ok? <==> d.Ok?) && (r.Abort? <==> d.Abort?)
      && (r.Ok? ==> r.value == d.value && r.rest == d.rest)
  {
  }

  /** The month and day after the year digits are there exactly when the text starts
      with the date pattern, and then they are the month and day of its date. */
  lemma YearThenMonthDay(s: State)
    ensures var m := Many(s, IsDigit); var md := MonthDay(m.rest);
      && (md.Ok? <==> DatePattern(s.text))
      && (md.Ok? ==> var d := DateValue(s.text);
            && md.rest.text == s.text[YearLength(s.text) + 6..]
            && md.value == (d.month, d.day) && d.year == DecimalValue(m.value))
  {
    var n := YearLength(s.text);
    var m := Many(s, IsDigit);
    assert m.value == s.text[..n] && m.rest.text == s.text[n..];
    var md := MonthDay(m.rest);
    if md.Ok? {
      assert md.rest.text == s.text[n..][6..] == s.text[n + 6..];
    }
  }

  /** A date written the way the grammar reads it back: the year without leading
      zeros, month and day with two digits each. */
  function DateText(d: Date): seq<char>
    requires ValidDate(d)
  {
    Decimal(d.year)
      + ['-', DigitChar(d.month / 10), DigitChar(d.month % 10)]
      + ['-', DigitChar(d.day / 10), DigitChar(d.day % 10)]
  }

  /** Every date whose fields fit is read back from its text, whatever follows it. */
  lemma DateRoundTrip(s: State, d: Date, rest: seq<char>)
    requires ValidDate(d) && s.text == DateText(d) + rest
    ensures var r := ParseDate(s);
      r.Ok? && r.value == d && r.rest.text == rest
  {
    var y := Decimal(d.year);
    var fields := ['-', DigitChar(d.month / 10), DigitChar(d.month % 10)]
      + ['-', DigitChar(d.day / 10), DigitChar(d.day % 10)];
    var t := s.text;
    assert t == y + (fields + rest);
    RunExact(y, fields + rest, IsDigit);
    assert YearLength(t) == |y|;
    assert t[|y|..|y| + 6] == fields;
    assert DatePattern(t);
    assert t[..|y|] == y;
    TwoDigitsToIntRoundTrip(d.month);
    TwoDigitsToIntRoundTrip(d.day);
    assert DateValue(t) == d;
    assert t[|y| + 6..] == rest;
    ParseDateSpec(s);
  }
}
