/** The grammar's own examples, read back: a date, the four kinds of header, the four
    amount formats, one price entry, a database of that one entry, and a database of
    three entries on three lines. */
module Cases {
  import opened Parsing
  import opened Lexers
  import opened Types
  import opened Dates
  import opened Headers
  import opened Amounts
  import opened Prices

  function Dollars(q: string): Amount {
    Amount(q, Symbol("$", false), SymbolLeftNoSpace)
  }

  /** "MUTF2351" was worth $5.42 on 2015-10-23. */
  function First(): Price {
    Price(Date(2015, 10, 23), Symbol("MUTF2351", true), Dollars("5.42"))
  }

  /** "MUTF2351" was worth $5.42 on 2015-10-25. */
  function Single(): Price {
    Price(Date(2015, 10, 25), Symbol("MUTF2351", true), Dollars("5.42"))
  }

  /** "MUTF2351" was worth $5.98 on 2015-10-25. */
  function Second(): Price {
    Price(Date(2015, 10, 25), Symbol("MUTF2351", true), Dollars("5.98"))
  }

  /** AAPL was worth $313.38 on 2015-10-25. */
  function Third(): Price {
    Price(Date(2015, 10, 25), Symbol("AAPL", false), Dollars("313.38"))
  }

  lemma YearText()
    ensures Decimal(2015) == "2015"
  {
    assert Decimal(2) == "2";
    assert Decimal(20) == Decimal(2) + ['0'];
    assert Decimal(201) == Decimal(20) + ['1'];
    assert Decimal(2015) == Decimal(201) + ['5'];
  }

  lemma CasesValid()
    ensures ValidPrice(First()) && ValidPrice(Single()) && ValidPrice(Second()) && ValidPrice(Third())
  {
    assert ValidQuantity("5.42") && ValidQuantity("5.98") && ValidQuantity("313.38");
  }

  /** The price entry lines of the examples. */
  const FirstLine: string := "P 2015-10-23 \"MUTF2351\" $5.42"
  const SingleLine: string := "P 2015-10-25 \"MUTF2351\" $5.42"
  const SecondLine: string := "P 2015-10-25 \"MUTF2351\" $5.98"
  const ThirdLine: string := "P 2015-10-25 AAPL $313.38"

  /** The text of a price entry from the texts of its fields. */
  lemma PriceTextOf(p: Price, d: seq<char>, y: seq<char>, a: seq<char>)
    requires ValidPrice(p) && DateText(p.date) == d && SymbolText(p.symbol) == y && AmountText(p.amount) == a
    ensures PriceText(p) == ['P', ' '] + d + [' '] + y + [' '] + a
  {
  }

  lemma DatesText()
    ensures DateText(Date(2015, 10, 23)) == "2015-10-23"
    ensures DateText(Date(2015, 10, 25)) == "2015-10-25"
  {
    YearText();
  }

  lemma MoreDatesText()
    ensures DateText(Date(2015, 10, 17)) == "2015-10-17"
    ensures DateText(Date(2015, 10, 20)) == "2015-10-20"
  {
    YearText();
  }

  /** `date` reads "2015-10-17" as year 2015, month 10, day 17. */
  lemma DateExample(s: State)
    requires s.text == "2015-10-17"
    ensures var r := ParseDate(s); r.Ok? && r.value == Date(2015, 10, 17) && r.rest.text == []
  {
    MoreDatesText();
    DateRoundTrip(s, Date(2015, 10, 17), []);
  }

  /** The amount lines of the examples. */
  const LeftNoSpaceLine: string := "$13,245.00"
  const LeftWithSpaceLine: string := "$ 13,245.00"
  const RightNoSpaceLine: string := "13,245.463AAPL"
  const RightWithSpaceLine: string := "13,245.463 \"MUTF2351\""
  const LeftAmountLine: string := "$13,245.46"

  function Dollar(): Symbol { Symbol("$", false) }
  function Apple(): Symbol { Symbol("AAPL", false) }
  function Fund(): Symbol { Symbol("MUTF2351", true) }

  /** The symbols of the amount examples, and how they are written. */
  lemma ExampleSymbols()
    ensures ValidSymbol(Dollar()) && SymbolText(Dollar()) == "$"
    ensures ValidSymbol(Apple()) && SymbolText(Apple()) == "AAPL"
    ensures ValidSymbol(Fund()) && SymbolText(Fund()) == "\"MUTF2351\""
  {
  }

  /** A comma-free numeral, a grouping comma and more digits and dots: a written
      quantity whose value drops that comma. */
  lemma Grouped(a: string, b: string)
    requires WrittenQuantity(a) && ',' !in a && AllOf(b, IsDigitOrDot)
    ensures WrittenQuantity(a + [','] + b) && RemoveCommas(a + [','] + b) == a + b
  {
    assert AllOf(b, IsQuantityChar);
    WrittenGrouped(a, b);
    assert forall c :: c in b ==> c != ',';
    RemoveOneComma(a, b);
  }

  /** The pieces of the grouped numerals: the thousands and what follows the comma. */
  lemma NumeralParts()
    ensures WrittenQuantity("13") && ',' !in "13"
    ensures AllOf("245.00", IsDigitOrDot) && AllOf("245.463", IsDigitOrDot) && AllOf("245.46", IsDigitOrDot)
  {
  }

  /** The grouped numerals of the amount examples, and their values without commas. */
  lemma Numeral245()
    ensures WrittenQuantity("13,245.00") && RemoveCommas("13,245.00") == "13245.00"
  {
    NumeralParts();
    Grouped("13", "245.00");
    Split245();
  }

  /** A grouped numeral, regrouped around its comma (a verifier aid, like the other
      `Split` lemmas below). */
  lemma Split245()
    ensures "13" + [','] + "245.00" == "13,245.00" && "13" + "245.00" == "13245.00"
  {
  }

  lemma Numeral463()
    ensures WrittenQuantity("13,245.463") && RemoveCommas("13,245.463") == "13245.463"
  {
    NumeralParts();
    Grouped("13", "245.463");
    Split463();
  }

  lemma Split463()
    ensures "13" + [','] + "245.463" == "13,245.463" && "13" + "245.463" == "13245.463"
  {
  }

  lemma Numeral46()
    ensures WrittenQuantity("13,245.46") && RemoveCommas("13,245.46") == "13245.46"
  {
    NumeralParts();
    Grouped("13", "245.46");
    Split46();
  }

  lemma Split46()
    ensures "13" + [','] + "245.46" == "13,245.46" && "13" + "245.46" == "13245.46"
  {
  }

  /** Each amount line, cut at its fields. Like the other `Split` and `Fields` lemmas, these only regroup
      literal text so that the verifier need not cut long literals inside the parser
      proofs; they model nothing of the parser. */
  lemma LeftNoSpaceFields()
    ensures LeftNoSpaceLine == "$" + ("13,245.00" + [])
  {
  }

  lemma LeftWithSpaceFields()
    ensures LeftWithSpaceLine == "$" + ([' '] + ("13,245.00" + []))
  {
  }

  lemma RightNoSpaceFields()
    ensures RightNoSpaceLine == "13,245.463" + ("AAPL" + [])
  {
  }

  lemma RightWithSpaceFields()
    ensures RightWithSpaceLine == "13,245.463" + ([' '] + ("\"MUTF2351\"" + []))
  {
  }

  lemma LeftAmountFields()
    ensures LeftAmountLine == "$" + ("13,245.46" + [])
  {
  }

  /** "$13,245.00": symbol left, no space, commas dropped. */
  lemma SymbolLeftNoSpaceExample(s: State)
    requires s.text == LeftNoSpaceLine
    ensures var r := SymbolThenQuantity(s);
      r.Ok? && r.value == Amount("13245.00", Dollar(), SymbolLeftNoSpace) && r.rest.text == []
  {
    Numeral245();
    ExampleSymbols();
    LeftNoSpaceFields();
    SymbolLeftReads(s, Dollar(), false, "13,245.00", []);
  }

  /** "$ 13,245.00": symbol left, with a space. */
  lemma SymbolLeftWithSpaceExample(s: State)
    requires s.text == LeftWithSpaceLine
    ensures var r := SymbolThenQuantity(s);
      r.Ok? && r.value == Amount("13245.00", Dollar(), SymbolLeftWithSpace) && r.rest.text == []
  {
    Numeral245();
    ExampleSymbols();
    LeftWithSpaceFields();
    SymbolLeftReads(s, Dollar(), true, "13,245.00", []);
  }

  /** "13,245.463AAPL": symbol right, no space. */
  lemma SymbolRightNoSpaceExample(s: State)
    requires s.text == RightNoSpaceLine
    ensures var r := QuantityThenSymbol(s);
      r.Ok? && r.value == Amount("13245.463", Apple(), SymbolRightNoSpace) && r.rest.text == []
  {
    Numeral463();
    ExampleSymbols();
    RightNoSpaceFields();
    SymbolRightReads(s, "13,245.463", false, Apple(), []);
  }

  /** The quoted symbol after a quantity and a space: symbol right, with a space. */
  lemma SymbolRightWithSpaceExample(s: State)
    requires s.text == RightWithSpaceLine
    ensures var r := QuantityThenSymbol(s);
      r.Ok? && r.value == Amount("13245.463", Fund(), SymbolRightWithSpace) && r.rest.text == []
  {
    Numeral463();
    ExampleSymbols();
    RightWithSpaceFields();
    SymbolRightReads(s, "13,245.463", true, Fund(), []);
  }

  /** `amount` takes the symbol-first form for a text that starts with a symbol. */
  lemma AmountLeftExample(s: State)
    requires s.text == LeftAmountLine
    ensures var r := ParseAmount(s);
      r.Ok? && r.value == Amount("13245.46", Dollar(), SymbolLeftNoSpace) && r.rest.text == []
  {
    Numeral46();
    ExampleSymbols();
    LeftAmountFields();
    SymbolLeftReads(s, Dollar(), false, "13,245.46", []);
  }

  /** `amount` takes the quantity-first form for a text that starts with a digit. */
  lemma AmountRightExample(s: State)
    requires s.text == RightWithSpaceLine
    ensures var r := ParseAmount(s);
      r.Ok? && r.value == Amount("13245.463", Fund(), SymbolRightWithSpace) && r.rest.text == []
  {
    SymbolRightWithSpaceExample(s);
  }

  /** The headers of the examples, all on the first line and dated 2015-10-20. */
  function FullHeader(): Header {
    Header(1, Date(2015, 10, 20), Cleared, Some("conf# abc-123"), "Payee ", Some("Comment"))
  }

  function CodeOnlyHeader(): Header {
    Header(1, Date(2015, 10, 20), Uncleared, Some("conf# abc-123"), "Payee", None)
  }

  function CommentOnlyHeader(): Header {
    Header(1, Date(2015, 10, 20), Cleared, None, "Payee ", Some("Comment"))
  }

  function BareHeader(): Header {
    Header(1, Date(2015, 10, 20), Cleared, None, "Payee", None)
  }

  lemma FieldsValid()
    ensures AllOf("conf# abc-123", IsCodeChar)
    ensures AllOf("Payee ", IsPayeeChar) && AllOf("Payee", IsPayeeChar)
    ensures AllOf("Comment", IsCommentChar)
  {
  }

  lemma HeadersValid()
    ensures ValidHeader(FullHeader()) && ValidHeader(CodeOnlyHeader())
    ensures ValidHeader(CommentOnlyHeader()) && ValidHeader(BareHeader())
  {
    FieldsValid();
    assert ValidDate(Date(2015, 10, 20));
  }

  /** The header lines of the examples. */
  const FullLine: string := "2015-10-20 * (conf# abc-123) Payee ;Comment"
  const CodeOnlyLine: string := "2015-10-20 ! (conf# abc-123) Payee"
  const CommentOnlyLine: string := "2015-10-20 * Payee ;Comment"
  const BareLine: string := "2015-10-20 * Payee"

  /** Each example header line, cut at its fields. Like the other `Split` and `Fields` lemmas, these only regroup
      literal text so that the verifier need not cut long literals inside the parser
      proofs; they model nothing of the parser. */
  lemma FullFields()
    ensures FullLine
      == "2015-10-20" + [' ', '*', ' '] + (['('] + "conf# abc-123" + [')', ' ']) + "Payee " + ([';'] + "Comment")
  {
  }

  lemma CodeOnlyFields()
    ensures CodeOnlyLine
      == "2015-10-20" + [' ', '!', ' '] + (['('] + "conf# abc-123" + [')', ' ']) + "Payee" + []
  {
  }

  lemma CommentOnlyFields()
    ensures CommentOnlyLine == "2015-10-20" + [' ', '*', ' '] + [] + "Payee " + ([';'] + "Comment")
  {
  }

  lemma BareFields()
    ensures BareLine == "2015-10-20" + [' ', '*', ' '] + [] + "Payee" + []
  {
  }

  /** The example headers are written as the example lines. */
  lemma FullText()
    ensures ValidHeader(FullHeader()) && HeaderText(FullHeader()) == FullLine
  {
    HeadersValid();
    MoreDatesText();
    FullFields();
  }

  lemma CodeOnlyText()
    ensures ValidHeader(CodeOnlyHeader()) && HeaderText(CodeOnlyHeader()) == CodeOnlyLine
  {
    HeadersValid();
    MoreDatesText();
    CodeOnlyFields();
  }

  lemma CommentOnlyText()
    ensures ValidHeader(CommentOnlyHeader()) && HeaderText(CommentOnlyHeader()) == CommentOnlyLine
  {
    HeadersValid();
    MoreDatesText();
    CommentOnlyFields();
  }

  lemma BareText()
    ensures ValidHeader(BareHeader()) && HeaderText(BareHeader()) == BareLine
  {
    HeadersValid();
    MoreDatesText();
    BareFields();
  }

  /** A header on the first line, read back from the text of a valid header. */
  lemma HeaderExample(s: State, h: Header)
    requires ValidHeader(h) && h.lineNumber == 1 && s.line == 1 && s.text == HeaderText(h)
    ensures var r := ParseHeader(s); r.Ok? && r.value == h && r.rest.text == []
  {
    assert s.text + [] == s.text;
    HeaderRoundTrip(h, [], 1);
  }

  /** A full header: status `*`, a code, a payee that keeps its trailing space, and a
      comment without its `;`. */
  lemma FullHeaderExample(s: State)
    requires s == Start(FullLine)
    ensures var r := ParseHeader(s); r.Ok? && r.value == FullHeader() && r.rest.text == []
  {
    FullText();
    HeaderExample(s, FullHeader());
  }

  /** Status `!` and a code, no comment. */
  lemma CodeOnlyHeaderExample(s: State)
    requires s == Start(CodeOnlyLine)
    ensures var r := ParseHeader(s); r.Ok? && r.value == CodeOnlyHeader() && r.rest.text == []
  {
    CodeOnlyText();
    HeaderExample(s, CodeOnlyHeader());
  }

  /** A comment, no code. */
  lemma CommentOnlyHeaderExample(s: State)
    requires s == Start(CommentOnlyLine)
    ensures var r := ParseHeader(s); r.Ok? && r.value == CommentOnlyHeader() && r.rest.text == []
  {
    CommentOnlyText();
    HeaderExample(s, CommentOnlyHeader());
  }

  /** Neither a code nor a comment. */
  lemma BareHeaderExample(s: State)
    requires s == Start(BareLine)
    ensures var r := ParseHeader(s); r.Ok? && r.value == BareHeader() && r.rest.text == []
  {
    BareText();
    HeaderExample(s, BareHeader());
  }

  /** Each example line, cut at its fields. Like the other `Split` and `Fields` lemmas, these only regroup
      literal text so that the verifier need not cut long literals inside the parser
      proofs; they model nothing of the parser. */
  lemma FirstFields()
    ensures FirstLine == ['P', ' '] + "2015-10-23" + [' '] + "\"MUTF2351\"" + [' '] + "$5.42"
  {
  }

  lemma SingleFields()
    ensures SingleLine == ['P', ' '] + "2015-10-25" + [' '] + "\"MUTF2351\"" + [' '] + "$5.42"
  {
  }

  lemma SecondFields()
    ensures SecondLine == ['P', ' '] + "2015-10-25" + [' '] + "\"MUTF2351\"" + [' '] + "$5.98"
  {
  }

  lemma ThirdFields()
    ensures ThirdLine == ['P', ' '] + "2015-10-25" + [' '] + "AAPL" + [' '] + "$313.38"
  {
  }

  /** The example entries are valid and written as the example lines. */
  lemma ExampleTexts()
    ensures ValidPrice(First()) && PriceText(First()) == FirstLine
    ensures ValidPrice(Single()) && PriceText(Single()) == SingleLine
    ensures ValidPrice(Second()) && PriceText(Second()) == SecondLine
    ensures ValidPrice(Third()) && PriceText(Third()) == ThirdLine
  {
    CasesValid();
    DatesText();
    FirstFields();
    SingleFields();
    SecondFields();
    ThirdFields();
    PriceTextOf(First(), "2015-10-23", "\"MUTF2351\"", "$5.42");
    PriceTextOf(Single(), "2015-10-25", "\"MUTF2351\"", "$5.42");
    PriceTextOf(Second(), "2015-10-25", "\"MUTF2351\"", "$5.98");
    PriceTextOf(Third(), "2015-10-25", "AAPL", "$313.38");
  }

  /** `price` reads the quoted-symbol entry with a dollar amount. */
  lemma SinglePrice(s: State)
    requires s.text == SingleLine
    ensures var r := ParsePrice(s); r.Ok? && r.value == Single() && r.rest.text == []
  {
    ExampleTexts();
    PriceRoundTrip(s, Single(), []);
  }

  /** `price_db` reads the same entry alone as a database of one entry. */
  lemma SingleDb(s: State)
    requires s.text == SingleLine
    ensures var r := ParsePriceDb(s); r.Ok? && r.value == [Single()] && r.rest.text == []
  {
    ExampleTexts();
    assert PriceDbText([Single()]) == PriceText(Single());
    PriceDbRoundTrip(s, [Single()], []);
  }

  /** The text of the entries after the first, one and two of them. */
  lemma OneLine(c: Price)
    requires ValidPrice(c)
    ensures AllValid([c]) && LinesText([c]) == ['\n'] + PriceText(c)
  {
    assert [c][0] == c && [c][1..] == [];
  }

  lemma TwoLines(b: Price, c: Price)
    requires ValidPrice(b) && ValidPrice(c)
    ensures AllValid([b, c]) && LinesText([b, c]) == ['\n'] + PriceText(b) + ['\n'] + PriceText(c)
  {
    OneLine(c);
    assert [b, c][0] == b && [b, c][1..] == [c];
  }

  /** The text of a database of three entries. */
  lemma ThreeLines(a: Price, b: Price, c: Price)
    requires ValidPrice(a) && ValidPrice(b) && ValidPrice(c)
    ensures AllValid([a, b, c])
    ensures PriceDbText([a, b, c]) == PriceText(a) + ['\n'] + PriceText(b) + ['\n'] + PriceText(c)
  {
    TwoLines(b, c);
    assert [a, b, c][0] == a && [a, b, c][1..] == [b, c];
    assert PriceDbText([a, b, c]) == PriceText(a) + LinesText([b, c]);
    JoinThree(PriceText(a), PriceText(b), PriceText(c));
  }

  /** Three texts joined by line feeds, regrouped after the first. */
  lemma JoinThree(x: seq<char>, y: seq<char>, z: seq<char>)
    ensures x + (['\n'] + y + ['\n'] + z) == x + ['\n'] + y + ['\n'] + z
  {
  }

  /** `price_db` reads three entries on three lines as three prices, in order. */
  lemma ThreeDb(s: State)
    requires s.text == FirstLine + ['\n'] + SecondLine + ['\n'] + ThirdLine
    ensures var r := ParsePriceDb(s);
      r.Ok? && r.value == [First(), Second(), Third()] && r.rest.text == []
  {
    ExampleTexts();
    ThreeLines(First(), Second(), Third());
    PriceDbRoundTrip(s, [First(), Second(), Third()], []);
  }
}
