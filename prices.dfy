/** The price database grammar: one price entry per line, each a `P` marker, a date, a
    symbol and the amount the symbol was worth on that date. */
module Prices {
  import opened Parsing
  import opened Lexers
  import opened Types
  import opened Dates
  import opened Amounts

  /** The prices the grammar produces: every part is one its own grammar produces. */
  predicate ValidPrice(p: Price) {
    ValidDate(p.date) && ValidSymbol(p.symbol) && ValidAmount(p.amount)
  }

  /** How a price entry is written: `P`, the date, the symbol and the amount, one space
      between each two of them. */
  function PriceText(p: Price): seq<char>
    requires ValidPrice(p)
  {
    ['P', ' '] + DateText(p.date) + [' '] + SymbolText(p.symbol) + [' '] + AmountText(p.amount)
  }

  /** `char('P').skip(whitespace)`: the marker of a price entry and the blanks after it. */
  function PriceMark(s: State): (r: Reply<char>)
    ensures Sound(s, r) && !r.Abort?
    ensures r.Fail? && r.tag == Empty <==> s.text == [] || s.text[0] != 'P'
    ensures r.Ok? ==> r.tag == Consumed && r.rest.text == s.text[1..][Run(s.text[1..], IsBlank)..]
    ensures r.Ok? <==> |s.text| >= 2 && s.text[0] == 'P' && IsBlank(s.text[1])
  {
    SkipBlank(s, Char(s, 'P'))
  }

  /** `symbol.skip(whitespace)` followed by `amount`: the last two fields of a price
      entry. */
  function SymbolAndAmount(s: State): (r: Reply<(Symbol, Amount)>)
    ensures Sound(s, r) && !r.Abort?
    ensures r.Fail? && r.tag == Empty <==> s.text == [] || (s.text[0] != '"' && !IsUnquotedChar(s.text[0]))
    ensures r.Ok? ==> r.tag == Consumed && AmountEnd(r.value.1, r.rest.text)
  {
    var y := SkipBlank(s, ParseSymbol(s));
    SymbolAndBlank(s);
    if y.Fail? then Fail(y.tag, y.left)
    else Seq(Consumed, s, y.rest, AmountAfterSymbol(y.rest, y.value))
  }

  /** `symbol.skip(whitespace)` never panics, fails without consuming exactly where
      `symbol` does, and consumes whenever it succeeds. */
  lemma SymbolAndBlank(s: State)
    ensures var y := SkipBlank(s, ParseSymbol(s));
      && !y.Abort?
      && (y.Fail? && y.tag == Empty <==> s.text == [] || (s.text[0] != '"' && !IsUnquotedChar(s.text[0])))
      && (y.Ok? ==> y.tag == Consumed)
  {
  }

  /** The amount after the symbol `sym`, paired with it. */
  function AmountAfterSymbol(s: State, sym: Symbol): (r: Reply<(Symbol, Amount)>)
    ensures Sound(s, r) && !r.Abort?
    ensures r.Ok? <==> ParseAmount(s).Ok?
    ensures r.Ok? ==> r.tag == Consumed && r.value == (sym, ParseAmount(s).value)
    ensures r.Ok? ==> r.rest == ParseAmount(s).rest && AmountEnd(r.value.1, r.rest.text)
  {
    var q := ParseAmount(s);
    if q.Fail? then Fail(q.tag, q.left) else Ok((sym, q.value), q.tag, q.rest)
  }

  /** `date.skip(whitespace)` followed by the symbol and the amount: a price entry after
      its marker. The date panics as `date` does. */
  function DateSymbolAmount(s: State): (r: Reply<Price>)
    ensures Sound(s, r)
    ensures r.Fail? && r.tag == Empty <==> s.text == [] || !(IsDigit(s.text[0]) || s.text[0] == '-')
    ensures r.Ok? ==> r.tag == Consumed && AmountEnd(r.value.amount, r.rest.text)
  {
    var d := SkipBlank(s, ParseDate(s));
    DateAndBlank(s);
    if d.Fail? then Fail(d.tag, d.left)
    else if d.Abort? then Abort(d.left)
    else Seq(Consumed, s, d.rest, PriceAfterDate(d.rest, d.value))
  }

  /** `date.skip(whitespace)` fails without consuming exactly where `date` does, and
      consumes whenever it succeeds. */
  lemma DateAndBlank(s: State)
    ensures var d := SkipBlank(s, ParseDate(s));
      && (d.Fail? && d.tag == Empty <==> s.text == [] || !(IsDigit(s.text[0]) || s.text[0] == '-'))
      && (d.Ok? ==> d.tag == Consumed)
  {
  }

  /** The symbol and the amount after the date `d`, and the price they make with it. */
  function PriceAfterDate(s: State, d: Date): (r: Reply<Price>)
    ensures Sound(s, r) && !r.Abort?
    ensures r.Ok? ==> r.tag == Consumed && r.value.date == d && AmountEnd(r.value.amount, r.rest.text)
  {
    match SymbolAndAmount(s)
    case Fail(tag, left) => Fail(tag, left)
    case Ok(f, _, s1) => Ok(Price(d, f.0, f.1), Consumed, s1)
  }

  /** `price`: the marker, the date, the symbol and the amount, each of the first three
      followed by mandatory blanks. */
  function ParsePrice(s: State): (r: Reply<Price>)
    ensures Sound(s, r)
    ensures r.Fail? && r.tag == Empty <==> s.text == [] || s.text[0] != 'P'
    ensures r.Ok? ==> r.tag == Consumed && AmountEnd(r.value.amount, r.rest.text)
  {
    match PriceMark(s)
    case Fail(tag, left) => Fail(tag, left)
    case Ok(_, _, s1) => Seq(Consumed, s, s1, DateSymbolAmount(s1))
  }

  /** The last entry of a non-empty list. */
  function Last(ps: seq<Price>): Price
    requires ps != []
  {
    ps[|ps| - 1]
  }

  /** The last entry after putting `p` in front of `more`. */
  lemma LastAfterFirst(p: Price, more: seq<Price>)
    ensures Last([p] + more) == if more == [] then p else Last(more)
  {
  }

  /** `t` does not start with a line break. */
  predicate NoLineBreak(t: seq<char>) {
    t == [] || (t[0] != '\n' && t[0] != '\r')
  }

  /** Every entry of `ps` is a price the grammar produces. */
  predicate AllValid(ps: seq<Price>) {
    forall i :: 0 <= i < |ps| ==> ValidPrice(ps[i])
  }

  /** The entries after the first, each written on a line of its own: a line feed in
      front of each. */
  function LinesText(ps: seq<Price>): seq<char>
    requires AllValid(ps)
  {
    if ps == [] then [] else ['\n'] + PriceText(ps[0]) + LinesText(ps[1..])
  }

  /** How a price database is written: its entries in order, joined by line feeds,
      with no line feed after the last one. */
  function PriceDbText(ps: seq<Price>): seq<char>
    requires AllValid(ps)
  {
    if ps == [] then [] else PriceText(ps[0]) + LinesText(ps[1..])
  }

  /** `rest` cannot continue the database `ps` written before it: it does not start a
      first entry after an empty database, and otherwise starts neither a line break
      nor a continuation of the last amount. */
  predicate DbEnd(ps: seq<Price>, rest: seq<char>) {
    if ps == [] then rest == [] || rest[0] != 'P'
    else NoLineBreak(rest) && AmountEnd(Last(ps).amount, rest)
  }

  /** `line_ending.with(price)`: a line break and the price entry on the next line. */
  function NextPrice(s: State): (r: Reply<Price>)
    ensures Sound(s, r)
    ensures r.Fail? && r.tag == Empty <==> NoLineBreak(s.text)
    ensures r.Ok? ==> r.tag == Consumed && AmountEnd(r.value.amount, r.rest.text)
  {
    match LineEnding(s)
    case Fail(tag, left) => Fail(tag, left)
    case Ok(_, _, s1) => Seq(Consumed, s, s1, ParsePrice(s1))
  }

  /** `many(line_ending.with(price))`: the entries after the first. It stops where no
      line break follows; a line break that is not followed by an entry fails the
      whole repetition after consumption. */
  function PriceTail(s: State): (r: Reply<seq<Price>>)
    ensures Sound(s, r)
    ensures r.Fail? ==> r.tag == Consumed
    ensures r.Ok? ==> NoLineBreak(r.rest.text)
    ensures r.Ok? && r.value == [] ==> r.rest == s
    ensures r.Ok? && r.value != [] ==> AmountEnd(Last(r.value).amount, r.rest.text)
    decreases |s.text|
  {
    match NextPrice(s)
    case Fail(tag, left) => if tag == Empty then Ok([], Empty, s) else Fail(Consumed, left)
    case Abort(left) => Abort(left)
    case Ok(p, _, s1) =>
      match PriceTail(s1)
      case Fail(_, left) => Fail(Consumed, left)
      case Abort(left) => Abort(left)
      case Ok(more, tag, s2) =>
        LastAfterFirst(p, more);
        Seq(Consumed, s, s1, Ok([p] + more, tag, s2))
  }

  /** `sep_by1(price, line_ending)`: a first entry, then the entries after it. */
  function PriceEntries(s: State): (r: Reply<seq<Price>>)
    ensures Sound(s, r)
    ensures r.Fail? && r.tag == Empty <==> s.text == [] || s.text[0] != 'P'
    ensures r.Ok? ==> r.value != [] && r.tag == Consumed && NoLineBreak(r.rest.text)
    ensures r.Ok? && r.value != [] ==> AmountEnd(Last(r.value).amount, r.rest.text)
  {
    match ParsePrice(s)
    case Fail(tag, left) => Fail(tag, left)
    case Abort(left) => Abort(left)
    case Ok(p, _, s1) => Seq(Consumed, s, s1, EntriesAfter(s1, p))
  }

  /** The entries after the first entry `p`, which ended where `s` starts, with `p` in
      front of them. */
  function EntriesAfter(s: State, p: Price): (r: Reply<seq<Price>>)
    requires AmountEnd(p.amount, s.text)
    ensures Sound(s, r)
    ensures r.Fail? ==> r.tag == Consumed
    ensures r.Ok? ==> r.value != [] && r.value[0] == p && NoLineBreak(r.rest.text)
    ensures r.Ok? && r.value != [] ==> AmountEnd(Last(r.value).amount, r.rest.text)
  {
    match PriceTail(s)
    case Fail(_, left) => Fail(Consumed, left)
    case Abort(left) => Abort(left)
    case Ok(more, tag, s1) =>
      LastAfterFirst(p, more);
      Ok([p] + more, tag, s1)
  }

  /** `price_db`: `sep_by(price, line_ending)`, the entries in order. A text that does
      not start with an entry gives no entries and consumes nothing; once an entry has
      started, every later failure fails the whole database. */
  function ParsePriceDb(s: State): (r: Reply<seq<Price>>)
    ensures Sound(s, r)
    ensures r.Fail? ==> r.tag == Consumed
    ensures r.Ok? && r.value == [] <==> s.text == [] || s.text[0] != 'P'
    ensures r.Ok? && r.value == [] ==> r.rest == s
    ensures r.Ok? && r.value != [] ==> r.tag == Consumed && NoLineBreak(r.rest.text)
    ensures r.Ok? && r.value != [] ==> AmountEnd(Last(r.value).amount, r.rest.text)
  {
    Or(s, PriceEntries(s), Ok([], Empty, s))
  }

  // ---------------------------------------------------------------------------------
  // How the stages compose

  /** `SymbolAndAmount` succeeds exactly when the symbol with its blanks and then the
      amount do, and pairs their values. */
  lemma SymbolAndAmountStep(s: State)
    ensures var y := SkipBlank(s, ParseSymbol(s)); var r := SymbolAndAmount(s);
      && (r.Ok? <==> y.Ok? && ParseAmount(y.rest).Ok?)
      && (r.Ok? ==> r.value == (y.value, ParseAmount(y.rest).value) && r.rest == ParseAmount(y.rest).rest)
  {
  }

  /** `DateSymbolAmount` succeeds exactly when the date with its blanks and then the
      symbol and amount do, and builds the price from their values. */
  lemma DateSymbolAmountStep(s: State)
    ensures var d := SkipBlank(s, ParseDate(s)); var r := DateSymbolAmount(s);
      && (r.Ok? <==> d.Ok? && SymbolAndAmount(d.rest).Ok?)
      && (r.Ok? ==> var f := SymbolAndAmount(d.rest).value;
                    r.value == Price(d.value, f.0, f.1) && r.rest == SymbolAndAmount(d.rest).rest)
  {
  }

  /** `ParsePrice` succeeds exactly when the marker and then the rest of the entry do. */
  lemma ParsePriceStep(s: State)
    ensures var m := PriceMark(s); var r := ParsePrice(s);
      && (r.Ok? <==> m.Ok? && DateSymbolAmount(m.rest).Ok?)
      && (r.Ok? ==> r.value == DateSymbolAmount(m.rest).value && r.rest == DateSymbolAmount(m.rest).rest)
  {
  }

  // ---------------------------------------------------------------------------------
  // Single entries

  /** Every price `price` reads is one whose date, symbol and amount are read back by
      their own grammars. */
  lemma PriceValid(s: State)
    requires ParsePrice(s).Ok?
    ensures ValidPrice(ParsePrice(s).value)
  {
    ParsePriceStep(s);
    var m := PriceMark(s);
    DateSymbolAmountStep(m.rest);
    ParseDateSpec(m.rest);
    var d := SkipBlank(m.rest, ParseDate(m.rest));
    SymbolAndAmountStep(d.rest);
    var y := SkipBlank(d.rest, ParseSymbol(d.rest));
    AmountSpec(y.rest);
  }

  /** A produced amount is written starting with a non-blank. */
  lemma AmountTextStart(a: Amount)
    requires ValidAmount(a)
    ensures AmountText(a) != [] && !IsBlank(AmountText(a)[0])
  {
    QuantityStart(a.value);
    SymbolStart(a.symbol);
    if a.format.SymbolLeft() {
      assert AmountText(a)[0] == SymbolText(a.symbol)[0];
    } else {
      assert AmountText(a)[0] == a.value[0];
    }
  }

  /** The text of a price entry and what follows it, regrouped field by field. */
  lemma PriceTextFields(p: Price, rest: seq<char>)
    requires ValidPrice(p)
    ensures var t3 := AmountText(p.amount) + rest;
      var t2 := SymbolText(p.symbol) + ([' '] + t3);
      var t1 := DateText(p.date) + ([' '] + t2);
      PriceText(p) + rest == ['P'] + ([' '] + t1)
  {
  }

  /** A symbol, one blank and an amount are read back, whatever follows that cannot
      continue the amount. */
  lemma SymbolAndAmountRoundTrip(s: State, p: Price, rest: seq<char>)
    requires ValidPrice(p) && AmountEnd(p.amount, rest)
    requires s.text == SymbolText(p.symbol) + ([' '] + (AmountText(p.amount) + rest))
    ensures var r := SymbolAndAmount(s);
      r.Ok? && r.value == (p.symbol, p.amount) && r.rest.text == rest
  {
    var t3 := AmountText(p.amount) + rest;
    AmountTextStart(p.amount);
    SymbolRoundTrip(s, p.symbol, [' '] + t3);
    SkipOneBlank(s, ParseSymbol(s), t3);
    AmountRoundTrip(SkipBlank(s, ParseSymbol(s)).rest, p.amount, rest);
    SymbolAndAmountStep(s);
  }

  /** A date, one blank, a symbol, one blank and an amount are read back, whatever
      follows that cannot continue the amount. */
  lemma DateSymbolAmountRoundTrip(s: State, p: Price, rest: seq<char>, t2: seq<char>)
    requires ValidPrice(p) && AmountEnd(p.amount, rest)
    requires t2 == SymbolText(p.symbol) + ([' '] + (AmountText(p.amount) + rest))
    requires s.text == DateText(p.date) + ([' '] + t2)
    ensures var r := DateSymbolAmount(s);
      r.Ok? && r.value == p && r.rest.text == rest
  {
    SymbolStart(p.symbol);
    DateRoundTrip(s, p.date, [' '] + t2);
    SkipOneBlank(s, ParseDate(s), t2);
    SymbolAndAmountRoundTrip(SkipBlank(s, ParseDate(s)).rest, p, rest);
    DateSymbolAmountStep(s);
  }

  /** Every price the grammar produces is read back from its text, whatever follows
      that cannot continue its amount. */
  lemma PriceRoundTrip(s: State, p: Price, rest: seq<char>)
    requires ValidPrice(p) && AmountEnd(p.amount, rest)
    requires s.text == PriceText(p) + rest
    ensures var r := ParsePrice(s);
      r.Ok? && r.value == p && r.rest.text == rest
  {
    var t2 := SymbolText(p.symbol) + ([' '] + (AmountText(p.amount) + rest));
    var t1 := DateText(p.date) + ([' '] + t2);
    PriceTextFields(p, rest);
    RunExact([' '], t1, IsBlank);
    assert PriceMark(s).rest.text == t1;
    DateSymbolAmountRoundTrip(PriceMark(s).rest, p, rest, t2);
    ParsePriceStep(s);
  }

  // ---------------------------------------------------------------------------------
  // The database

  /** `NextPrice` succeeds exactly when a line break and then an entry do. */
  lemma NextPriceStep(s: State)
    ensures var e := LineEnding(s); var r := NextPrice(s);
      && (r.Ok? <==> e.Ok? && ParsePrice(e.rest).Ok?)
      && (r.Ok? ==> r.value == ParsePrice(e.rest).value && r.rest == ParsePrice(e.rest).rest)
      && (e.Ok? && ParsePrice(e.rest).Fail? ==> r.Fail? && r.tag == Consumed)
  {
  }

  /** A line feed is one line ending; what follows it is left. */
  lemma LineFeed(s: State, t: seq<char>)
    requires s.text == ['\n'] + t
    ensures LineEnding(s).Ok? && LineEnding(s).rest.text == t
  {
    var e := LineEnding(s);
    assert Taken(s, e.rest) == "\n";
    assert s.text == "\n" + e.rest.text;
  }

  /** How `PriceTail` puts the entry after a line break in front of the later ones. */
  lemma PriceTailStep(s: State)
    requires NextPrice(s).Ok? && PriceTail(NextPrice(s).rest).Ok?
    ensures var n := NextPrice(s); var q := PriceTail(n.rest);
      PriceTail(s).Ok? && PriceTail(s).value == [n.value] + q.value && PriceTail(s).rest == q.rest
  {
  }

  /** The entries after the first of a list of produced prices are produced prices. */
  lemma AllValidRest(ps: seq<Price>)
    requires ps != [] && AllValid(ps)
    ensures ValidPrice(ps[0]) && AllValid(ps[1..])
  {
  }

  /** The lines after the first entry, regrouped around their first line. */
  lemma LinesTextFirst(ps: seq<Price>, rest: seq<char>)
    requires ps != [] && AllValid(ps) && AllValid(ps[1..])
    ensures LinesText(ps) + rest == ['\n'] + (PriceText(ps[0]) + (LinesText(ps[1..]) + rest))
  {
  }

  /** Lines of entries start with a line feed. */
  lemma LinesTextStart(ps: seq<Price>, rest: seq<char>)
    requires ps != [] && AllValid(ps)
    ensures (LinesText(ps) + rest)[0] == '\n'
  {
  }

  /** An entry followed by a line break is not continued by it. */
  lemma EndsBeforeBreak(a: Amount, t: seq<char>)
    requires t != [] && t[0] == '\n'
    ensures AmountEnd(a, t)
  {
  }

  /** The entries after the first, each on a line of its own, are read back in order,
      whatever follows that cannot continue the last of them. */
  lemma {:induction false} PriceTailRoundTrip(s: State, ps: seq<Price>, rest: seq<char>)
    requires AllValid(ps) && NoLineBreak(rest) && (ps != [] ==> AmountEnd(Last(ps).amount, rest))
    requires s.text == LinesText(ps) + rest
    ensures var r := PriceTail(s);
      r.Ok? && r.value == ps && r.rest.text == rest
    decreases |ps|
  {
    if ps == [] {
      assert s.text == rest;
    } else {
      AllValidRest(ps);
      LinesTextFirst(ps, rest);
      var x := LinesText(ps[1..]) + rest;
      if ps[1..] != [] {
        LinesTextStart(ps[1..], rest);
        EndsBeforeBreak(ps[0].amount, x);
        assert Last(ps[1..]) == Last(ps);
      } else {
        assert x == rest;
      }
      LineFeed(s, PriceText(ps[0]) + x);
      PriceRoundTrip(LineEnding(s).rest, ps[0], x);
      NextPriceStep(s);
      PriceTailRoundTrip(NextPrice(s).rest, ps[1..], rest);
      PriceTailStep(s);
      SplitFirst(ps);
    }
  }

  /** How `PriceEntries` puts the first entry in front of the later ones. */
  lemma PriceEntriesStep(s: State)
    requires ParsePrice(s).Ok? && PriceTail(ParsePrice(s).rest).Ok?
    ensures var p := ParsePrice(s); var q := PriceTail(p.rest);
      PriceEntries(s).Ok? && PriceEntries(s).value == [p.value] + q.value && PriceEntries(s).rest == q.rest
  {
  }

  /** The text of a non-empty database, regrouped around its first entry. */
  lemma PriceDbTextFirst(ps: seq<Price>, rest: seq<char>)
    requires ps != [] && AllValid(ps) && AllValid(ps[1..])
    ensures PriceDbText(ps) + rest == PriceText(ps[0]) + (LinesText(ps[1..]) + rest)
  {
  }

  /** The first entry of a list is ended by the lines after it, or by `rest` when it
      is the only one. */
  lemma FirstEntryEnd(ps: seq<Price>, rest: seq<char>)
    requires ps != [] && AllValid(ps) && (|ps| == 1 ==> AmountEnd(ps[0].amount, rest))
    ensures ValidPrice(ps[0]) && AllValid(ps[1..])
    ensures AmountEnd(ps[0].amount, LinesText(ps[1..]) + rest)
    ensures |ps| > 1 ==> Last(ps[1..]) == Last(ps)
  {
    AllValidRest(ps);
    if |ps| > 1 {
      LinesTextStart(ps[1..], rest);
      EndsBeforeBreak(ps[0].amount, LinesText(ps[1..]) + rest);
    }
  }

  /** A non-empty database, written one entry per line, is read back by
      `sep_by1(price, line_ending)`. */
  lemma PriceEntriesRoundTrip(s: State, ps: seq<Price>, rest: seq<char>)
    requires ps != [] && AllValid(ps) && DbEnd(ps, rest)
    requires s.text == PriceDbText(ps) + rest
    ensures var r := PriceEntries(s);
      r.Ok? && r.value == ps && r.rest.text == rest
  {
    FirstEntryEnd(ps, rest);
    PriceDbTextFirst(ps, rest);
    PriceRoundTrip(s, ps[0], LinesText(ps[1..]) + rest);
    PriceTailRoundTrip(ParsePrice(s).rest, ps[1..], rest);
    PriceEntriesStep(s);
    SplitFirst(ps);
  }

  /** A carriage return before a line feed changes nothing: after "\r\n" the next
      entry is read exactly as after "\n", with the same rest and line. */
  lemma NextPriceCrlf(t: seq<char>, line: nat)
    ensures NextPrice(State(['\r', '\n'] + t, line)) == NextPrice(State(['\n'] + t, line))
  {
    var a := State(['\r', '\n'] + t, line);
    var b := State(['\n'] + t, line);
    var ea := LineEnding(a);
    var eb := LineEnding(b);
    assert Taken(a, ea.rest) == "\r\n" && Taken(b, eb.rest) == "\n";
    assert Newlines("\r\n") == 1 && Newlines("\n") == 1;
    assert ea.rest == State(t, line + 1) == eb.rest;
  }

  /** So the entries after a "\r\n" separator are those after a "\n" separator: the
      round trips below, stated for "\n", hold separator by separator for "\r\n". */
  lemma PriceTailCrlf(t: seq<char>, line: nat)
    ensures PriceTail(State(['\r', '\n'] + t, line)) == PriceTail(State(['\n'] + t, line))
  {
    NextPriceCrlf(t, line);
  }

  /** A database of N entries, written one entry per line, is read back as those N
      entries in order, whatever follows that cannot continue it. An empty text gives
      an empty database. */
  lemma PriceDbRoundTrip(s: State, ps: seq<Price>, rest: seq<char>)
    requires AllValid(ps) && DbEnd(ps, rest)
    requires s.text == PriceDbText(ps) + rest
    ensures var r := ParsePriceDb(s);
      r.Ok? && r.value == ps && r.rest.text == rest
  {
    if ps == [] {
      assert s.text == rest;
    } else {
      PriceEntriesRoundTrip(s, ps, rest);
    }
  }

  /** After the entries that precede it, a line break followed by no further entry
      fails the repetition after consumption. */
  lemma {:induction false} PriceTailBreak(s: State, ps: seq<Price>, t: seq<char>)
    requires AllValid(ps) && (t == [] || t[0] != 'P')
    requires s.text == LinesText(ps) + (['\n'] + t)
    ensures PriceTail(s).Fail?
    decreases |ps|
  {
    if ps == [] {
      assert s.text == ['\n'] + t;
      LineFeed(s, t);
      NextPriceStep(s);
    } else {
      FirstEntryEnd(ps, ['\n'] + t);
      LinesTextFirst(ps, ['\n'] + t);
      var x := LinesText(ps[1..]) + (['\n'] + t);
      LineFeed(s, PriceText(ps[0]) + x);
      PriceRoundTrip(LineEnding(s).rest, ps[0], x);
      NextPriceStep(s);
      PriceTailBreak(NextPrice(s).rest, ps[1..], t);
    }
  }

  /** A database whose last entry is followed by a line break, at the end of the
      input or before text that starts no entry, is rejected as a whole: the line
      ending is consumed and no entry follows it. */
  lemma PriceDbTrailingBreak(s: State, ps: seq<Price>, t: seq<char>)
    requires ps != [] && AllValid(ps) && (t == [] || t[0] != 'P')
    requires s.text == PriceDbText(ps) + (['\n'] + t)
    ensures ParsePriceDb(s).Fail? && ParsePriceDb(s).tag == Consumed
  {
    FirstEntryEnd(ps, ['\n'] + t);
    PriceDbTextFirst(ps, ['\n'] + t);
    PriceRoundTrip(s, ps[0], LinesText(ps[1..]) + (['\n'] + t));
    PriceTailBreak(ParsePrice(s).rest, ps[1..], t);
  }
}
