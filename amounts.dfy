/** Quantities, symbols and amounts: a number written with optional grouping commas, a
    currency or security name, and the two layouts that put them together. */
module Amounts {
  import opened Parsing
  import opened Lexers
  import opened Types

  // ---------------------------------------------------------------------------------
  // Quantities

  predicate IsQuantityChar(c: char) {
    IsDigit(c) || c == ',' || c == '.'
  }

  predicate IsDigitOrDot(c: char) {
    IsDigit(c) || c == '.'
  }

  /** `str::replace(",", "")`: the text with every comma removed and every other
      character kept, in order. */
  function RemoveCommas(t: string): string {
    if t == [] then [] else (if t[0] == ',' then [] else [t[0]]) + RemoveCommas(t[1..])
  }

  /** Removing the commas drops every comma and keeps every other character as many
      times as it occurs. */
  lemma {:induction false} RemoveCommasKeeps(t: string)
    ensures ',' !in RemoveCommas(t)
    ensures multiset(RemoveCommas(t)) == multiset(t)[',' := 0]
    decreases |t|
  {
    if t != [] {
      RemoveCommasKeeps(t[1..]);
      assert t == [t[0]] + t[1..];
    }
  }

  lemma {:induction false} RemoveCommasAppend(a: string, b: string)
    ensures RemoveCommas(a + b) == RemoveCommas(a) + RemoveCommas(b)
    decreases |a|
  {
    if a == [] {
      assert a + b == b;
    } else {
      assert (a + b)[0] == a[0] && (a + b)[1..] == a[1..] + b;
      RemoveCommasAppend(a[1..], b);
    }
  }

  /** A text without commas is left as it is. */
  lemma {:induction false} RemoveCommasNone(t: string)
    requires ',' !in t
    ensures RemoveCommas(t) == t
    decreases |t|
  {
    if t != [] {
      assert t[0] in t && t[1..] == t[..][1..];
      assert forall c :: c in t[1..] ==> c in t;
      RemoveCommasNone(t[1..]);
    }
  }

  /** One grouping comma between two comma-free texts is dropped. */
  lemma RemoveOneComma(a: string, b: string)
    requires ',' !in a && ',' !in b
    ensures RemoveCommas(a + [','] + b) == a + b
  {
    calc {
      RemoveCommas(a + [','] + b);
    == { RemoveCommasAppend(a + [','], b); }
      RemoveCommas(a + [',']) + RemoveCommas(b);
    == { RemoveCommasAppend(a, [',']); assert RemoveCommas([',']) == []; }
      RemoveCommas(a) + RemoveCommas(b);
    == { RemoveCommasNone(a); RemoveCommasNone(b); }
      a + b;
    }
  }

  /** Removing the commas twice is removing them once. */
  lemma RemoveCommasIdempotent(t: string)
    ensures RemoveCommas(RemoveCommas(t)) == RemoveCommas(t)
  {
    RemoveCommasKeeps(t);
    RemoveCommasNone(RemoveCommas(t));
  }

  /** Removing the commas from digits, commas and dots leaves digits and dots. */
  lemma {:induction false} RemoveCommasDigits(t: string)
    requires AllOf(t, IsQuantityChar)
    ensures AllOf(RemoveCommas(t), IsDigitOrDot)
    decreases |t|
  {
    if t != [] {
      RemoveCommasDigits(t[1..]);
    }
  }

  /** Length of the minus sign `t` starts with: 1 or 0. */
  function SignLength(t: seq<char>): nat {
    if t != [] && t[0] == '-' then 1 else 0
  }

  /** The quantities the grammar produces: an optional minus sign, a digit, then only
      digits and dots. */
  predicate ValidQuantity(q: string) {
    var k := SignLength(q);
    |q| > k && IsDigit(q[k]) && AllOf(q[k + 1..], IsDigitOrDot)
  }

  /** A quantity as it may be written: an optional minus sign, a digit, then digits,
      grouping commas and dots. The number of dots is not checked. */
  predicate WrittenQuantity(w: string) {
    var k := SignLength(w);
    |w| > k && IsDigit(w[k]) && AllOf(w[k + 1..], IsQuantityChar)
  }

  /** Length of the written quantity `t` starts with, 0 where it starts with none. */
  function QuantityLength(t: seq<char>): nat {
    var k := SignLength(t);
    if |t| > k && IsDigit(t[k]) then k + 1 + Run(t[k + 1..], IsQuantityChar) else 0
  }

  /** Every quantity the grammar produces is a written quantity without commas. */
  lemma ValidQuantityWritten(q: string)
    requires ValidQuantity(q)
    ensures WrittenQuantity(q) && RemoveCommas(q) == q
  {
    var k := SignLength(q);
    assert q == q[..k + 1] + q[k + 1..];
    assert forall c :: c in q ==> c != ',';
    RemoveCommasNone(q);
  }

  /** `optional(char('-'))`, mapped to the sign text `"-"` or `""`. */
  function ParseSign(s: State): (r: Reply<string>)
    ensures Sound(s, r) && r.Ok?
    ensures r.value == if SignLength(s.text) == 1 then "-" else ""
    ensures r.rest.text == s.text[SignLength(s.text)..]
  {
    var Ok(sign, tag, t) := Optional(s, Char(s, '-'));
    Ok(if sign.Some? then "-" else "", tag, t)
  }

  /** Removing the commas from a written quantity gives a quantity the grammar can
      produce. */
  lemma WrittenValid(w: string)
    requires WrittenQuantity(w)
    ensures ValidQuantity(RemoveCommas(w))
  {
    var k := SignLength(w);
    var head, tail := w[..k + 1], w[k + 1..];
    assert w == head + tail;
    RemoveCommasAppend(head, tail);
    assert ',' !in head;
    RemoveCommasNone(head);
    RemoveCommasDigits(tail);
    var q := head + RemoveCommas(tail);
    assert SignLength(q) == k && q[k] == w[k];
    assert q[k + 1..] == RemoveCommas(tail);
  }

  /** The first digit and the digits, commas and dots after the sign; the value is the
      sign, the digit and the rest, with the commas removed. */
  function QuantityDigits(s: State, sign: string): (r: Reply<string>)
    requires sign == "" || sign == "-"
    ensures Sound(s, r) && !r.Abort?
    ensures r.Ok? <==> s.text != [] && IsDigit(s.text[0])
    ensures r.Fail? ==> r.tag == Empty
    ensures r.Ok? ==> r.tag == Consumed
    ensures r.Ok? ==> r.rest.text == [] || !IsQuantityChar(r.rest.text[0])
  {
    match Satisfy(s, IsDigit)
    case Fail(tag, left) => Fail(tag, left)
    case Ok(d, _, s1) =>
      var m := Many(s1, IsQuantityChar);
      Seq(Consumed, s, s1, Ok(RemoveCommas(sign + ([d] + m.value)), m.tag, m.rest))
  }

  /** `quantity`: an optional `-`, a digit, then digits, commas and dots, all of which
      are consumed; the value is that text without its commas. A `-` that is not
      followed by a digit is a failure after consumption. */
  function ParseQuantity(s: State): (r: Reply<string>)
    ensures Sound(s, r) && !r.Abort?
    ensures r.Fail? && r.tag == Empty <==> s.text == [] || !(IsDigit(s.text[0]) || s.text[0] == '-')
    ensures r.Ok? ==> r.tag == Consumed
    ensures r.Ok? ==> r.rest.text == [] || !IsQuantityChar(r.rest.text[0])
  {
    var Ok(sign, tag, s1) := ParseSign(s);
    Seq(tag, s, s1, QuantityDigits(s1, sign))
  }

  /** How `QuantityDigits` puts the first digit in front of the run after it. */
  lemma DigitsStep(s: State, sign: string)
    requires sign == "" || sign == "-"
    requires s.text != [] && IsDigit(s.text[0])
    ensures var q := QuantityDigits(s, sign); var m := Many(Next(s), IsQuantityChar);
      q.Ok? && q.value == RemoveCommas(sign + ([s.text[0]] + m.value)) && q.rest == m.rest
  {
  }

  /** The first character of a text and the run after it. */
  lemma FirstAndRun(u: seq<char>, p: char -> bool)
    requires u != []
    ensures 1 + Run(u[1..], p) <= |u|
    ensures [u[0]] + u[1..][..Run(u[1..], p)] == u[..1 + Run(u[1..], p)]
    ensures u[1..][Run(u[1..], p)..] == u[1 + Run(u[1..], p)..]
  {
  }

  /** After the sign, the digit and the run of digits, commas and dots are consumed. */
  lemma QuantityDigitsSpec(s: State, sign: string)
    requires sign == "" || sign == "-"
    requires s.text != [] && IsDigit(s.text[0])
    ensures var r := QuantityDigits(s, sign); var n := 1 + Run(s.text[1..], IsQuantityChar);
      r.Ok? && n <= |s.text| && r.value == RemoveCommas(sign + s.text[..n]) && r.rest.text == s.text[n..]
  {
    DigitsStep(s, sign);
    ManyIsRun(Next(s), IsQuantityChar);
    FirstAndRun(s.text, IsQuantityChar);
  }

  /** The sign and the text after it, put back together. */
  lemma SignAndDigits(t: seq<char>, n: nat)
    requires SignLength(t) + n <= |t|
    ensures (if SignLength(t) == 1 then "-" else "") + t[SignLength(t)..][..n] == t[..SignLength(t) + n]
  {
  }

  /** Slices of `u` around a quantity of length `k + m` whose sign has length `k`. */
  lemma SliceFacts(u: seq<char>, k: nat, m: nat)
    requires k < |u| && m == 1 + Run(u[k + 1..], IsQuantityChar)
    ensures k + m <= |u|
    ensures u[k..][1..] == u[k + 1..]
    ensures u[k..][m..] == u[k + m..]
  {
  }

  /** How `ParseQuantity` passes on the reply after the sign. */
  lemma QuantityStep(s: State)
    requires ParseSign(s).rest.text != [] && IsDigit(ParseSign(s).rest.text[0])
    ensures var g := ParseSign(s); var q := QuantityDigits(g.rest, g.value);
      ParseQuantity(s).Ok? && ParseQuantity(s).value == q.value && ParseQuantity(s).rest == q.rest
  {
  }

  /** The written quantity at the front of `u`, when it starts with one. */
  lemma WrittenPrefix(u: seq<char>, k: nat, m: nat)
    requires k == SignLength(u) && |u| > k && IsDigit(u[k])
    requires m == 1 + Run(u[k + 1..], IsQuantityChar)
    ensures k + m <= |u| && QuantityLength(u) == k + m
    ensures WrittenQuantity(u[..k + m])
  {
    RunPrefix(u[k + 1..], IsQuantityChar);
    assert u[..k + m][k + 1..] == u[k + 1..][..m - 1];
  }

  /** Where the input starts with a written quantity, `quantity` consumes all of it
      and returns it with its commas removed. */
  lemma QuantityOk(s: State, k: nat, m: nat)
    requires k == SignLength(s.text) && |s.text| > k && IsDigit(s.text[k])
    requires m == 1 + Run(s.text[k + 1..], IsQuantityChar)
    ensures var r := ParseQuantity(s);
      k + m <= |s.text| && r.Ok? && r.value == RemoveCommas(s.text[..k + m]) && r.rest.text == s.text[k + m..]
  {
    var u, g := s.text, ParseSign(s);
    var t := g.rest.text;
    assert t == u[k..];
    SliceFacts(u, k, m);
    assert t[1..] == u[k + 1..];
    QuantityDigitsSpec(g.rest, g.value);
    var q := QuantityDigits(g.rest, g.value);
    assert q.value == RemoveCommas(g.value + t[..m]) && q.rest.text == t[m..];
    SignAndDigits(u, m);
    assert g.value + t[..m] == u[..k + m];
    QuantityStep(s);
  }

  /** What `quantity` computes, against the reference definitions above: it succeeds
      exactly when the input starts with a written quantity, consumes all of it, and
      returns it with its commas removed. */
  lemma QuantitySpec(s: State)
    ensures var r := ParseQuantity(s); var n := QuantityLength(s.text);
      && (r.Ok? <==> n > 0)
      && (r.Ok? ==> n <= |s.text| && WrittenQuantity(s.text[..n]) && r.value == RemoveCommas(s.text[..n]))
      && (r.Ok? ==> r.rest.text == s.text[n..])
      && (r.Ok? ==> ValidQuantity(r.value))
  {
    var k := SignLength(s.text);
    if |s.text| > k && IsDigit(s.text[k]) {
      var m := 1 + Run(s.text[k + 1..], IsQuantityChar);
      WrittenPrefix(s.text, k, m);
      WrittenValid(s.text[..k + m]);
      QuantityOk(s, k, m);
    }
  }

  /** Every written quantity is read back as its text without commas, up to the first
      character that cannot continue it. */
  lemma QuantityRoundTrip(s: State, w: string, rest: seq<char>)
    requires WrittenQuantity(w) && (rest == [] || !IsQuantityChar(rest[0]))
    requires s.text == w + rest
    ensures var r := ParseQuantity(s);
      r.Ok? && r.value == RemoveCommas(w) && r.rest.text == rest
  {
    var k := SignLength(w);
    assert SignLength(s.text) == k;
    assert s.text[k + 1..] == w[k + 1..] + rest;
    RunExact(w[k + 1..], rest, IsQuantityChar);
    assert QuantityLength(s.text) == |w|;
    assert s.text[..|w|] == w;
    QuantitySpec(s);
  }

  /** A grouping comma and more digits and dots extend a written quantity. */
  lemma WrittenGrouped(a: string, b: string)
    requires WrittenQuantity(a) && AllOf(b, IsQuantityChar)
    ensures WrittenQuantity(a + [','] + b)
  {
    var w := a + [','] + b;
    var k := SignLength(a);
    assert w[k + 1..] == a[k + 1..] + [','] + b;
  }

  /** The grouped numerals of the examples below, and their values without commas. */
  lemma NegativeNumeral()
    ensures WrittenQuantity("-1,110.38") && RemoveCommas("-1,110.38") == "-1110.38"
  {
    assert "-1,110.38" == "-1" + [','] + "110.38";
    WrittenGrouped("-1", "110.38");
    assert "-1" + "110.38" == "-1110.38";
    RemoveOneComma("-1", "110.38");
  }

  lemma GroupedNumeral()
    ensures WrittenQuantity("2,314") && RemoveCommas("2,314") == "2314"
  {
    assert "2,314" == "2" + [','] + "314";
    assert "2" + "314" == "2314";
    RemoveOneComma("2", "314");
  }

  /** Grouping commas are dropped from the value: "-1,110.38" reads as "-1110.38",
      with nothing left over. */
  lemma NegativeQuantityExample(s: State)
    requires s.text == "-1,110.38"
    ensures var r := ParseQuantity(s); r.Ok? && r.value == "-1110.38" && r.rest.text == []
  {
    NegativeNumeral();
    QuantityRoundTrip(s, s.text, []);
  }

  /** "2,314" reads as "2314", with nothing left over. */
  lemma GroupedQuantityExample(s: State)
    requires s.text == "2,314"
    ensures var r := ParseQuantity(s); r.Ok? && r.value == "2314" && r.rest.text == []
  {
    GroupedNumeral();
    QuantityRoundTrip(s, s.text, []);
  }

  // ---------------------------------------------------------------------------------
  // Symbols

  predicate IsQuotedChar(c: char) {
    c != '"' && c != '\r' && c != '\n'
  }

  /** A character an unquoted symbol may contain: none of `-`, the digits, `;`, space,
      `"`, tab, carriage return or line feed. */
  predicate IsUnquotedChar(c: char) {
    c != '-' && !IsDigit(c) && c != ';' && c != ' ' && c != '"' && c != '\t' && c != '\r' && c != '\n'
  }

  /** The symbols the grammar produces: a non-empty name made of the characters its
      form allows. */
  predicate ValidSymbol(sym: Symbol) {
    && sym.value != []
    && (sym.quoted ==> AllOf(sym.value, IsQuotedChar))
    && (!sym.quoted ==> AllOf(sym.value, IsUnquotedChar))
  }

  /** `t` cannot continue the symbol written before it. */
  predicate SymbolEnd(sym: Symbol, t: seq<char>) {
    sym.quoted || t == [] || !IsUnquotedChar(t[0])
  }

  /** How a symbol is written: between double quotes when it is quoted. */
  function SymbolText(sym: Symbol): seq<char> {
    if sym.quoted then ['"'] + sym.value + ['"'] else sym.value
  }

  /** The name of a quoted symbol after its opening quote, and the closing quote. */
  function QuotedBody(s: State): (r: Reply<string>)
    ensures Sound(s, r) && !r.Abort?
    ensures r.Fail? && r.tag == Empty <==> s.text == [] || !IsQuotedChar(s.text[0])
    ensures r.Ok? <==> 0 < Run(s.text, IsQuotedChar) < |s.text| && s.text[Run(s.text, IsQuotedChar)] == '"'
    ensures r.Ok? ==> r.tag == Consumed && |r.value| == Run(s.text, IsQuotedChar)
    ensures r.Ok? ==> r.value == s.text[..|r.value|] && r.rest.text == s.text[|r.value| + 1..]
  {
    match Many1(s, IsQuotedChar)
    case Fail(tag, left) => Fail(tag, left)
    case Ok(body, _, s1) => Seq(Consumed, s, s1, Map(s1, Char(s1, '"'), _ => body))
  }

  /** `quoted_symbol`: a non-empty name without quotes or line breaks, between double
      quotes; the value drops the quotes. */
  function QuotedSymbol(s: State): (r: Reply<Symbol>)
    ensures Sound(s, r) && !r.Abort?
    ensures r.Fail? && r.tag == Empty <==> s.text == [] || s.text[0] != '"'
    ensures r.Ok? ==> r.tag == Consumed && r.value.quoted && ValidSymbol(r.value)
    ensures var t := if s.text == [] then [] else s.text[1..]; var n := Run(t, IsQuotedChar);
      && (r.Ok? <==> s.text != [] && s.text[0] == '"' && 0 < n < |t| && t[n] == '"')
      && (r.Ok? ==> r.value.value == t[..n] && r.rest.text == t[n + 1..])
  {
    match Char(s, '"')
    case Fail(tag, left) => Fail(tag, left)
    case Ok(_, _, s1) =>
      Seq(Consumed, s, s1,
        match QuotedBody(s1)
        case Fail(tag, left) => Fail(tag, left)
        case Ok(v, tag, s2) => Ok(Symbol(v, true), tag, s2))
  }

  /** `unquoted_symbol`: the longest non-empty run of characters an unquoted symbol may
      contain. */
  function UnquotedSymbol(s: State): (r: Reply<Symbol>)
    ensures Sound(s, r) && !r.Abort?
    ensures r.Fail? <==> s.text == [] || !IsUnquotedChar(s.text[0])
    ensures r.Fail? ==> r.tag == Empty
    ensures r.Ok? ==> r.tag == Consumed && !r.value.quoted && ValidSymbol(r.value)
    ensures r.Ok? ==> |r.value.value| <= |s.text| && r.value.value == s.text[..|r.value.value|]
    ensures r.Ok? ==> r.rest.text == s.text[|r.value.value|..]
    ensures r.Ok? ==> SymbolEnd(r.value, r.rest.text)
  {
    match Many1(s, IsUnquotedChar)
    case Fail(tag, left) => Fail(tag, left)
    case Ok(v, tag, t) => Ok(Symbol(v, false), tag, t)
  }

  /** `symbol`: the quoted form is tried first. Since no unquoted symbol starts with a
      double quote, a symbol is quoted exactly when its text starts with one, and a
      broken quoted symbol is a failure after consumption. */
  function ParseSymbol(s: State): (r: Reply<Symbol>)
    ensures Sound(s, r) && !r.Abort?
    ensures r.Fail? && r.tag == Empty <==> s.text == [] || (s.text[0] != '"' && !IsUnquotedChar(s.text[0]))
    ensures r.Ok? ==> r.tag == Consumed && ValidSymbol(r.value)
    ensures r.Ok? ==> (r.value.quoted <==> s.text[0] == '"')
    ensures r.Ok? && !r.value.quoted ==> r.value.value[0] == s.text[0]
    ensures r.Ok? ==> SymbolEnd(r.value, r.rest.text)
  {
    Or(s, QuotedSymbol(s), UnquotedSymbol(s))
  }

  /** A quoted symbol is read back from between its quotes, whatever follows. */
  lemma QuotedSymbolRoundTrip(s: State, v: string, rest: seq<char>)
    requires v != [] && AllOf(v, IsQuotedChar)
    requires s.text == ['"'] + v + ['"'] + rest
    ensures var r := ParseSymbol(s);
      r.Ok? && r.value == Symbol(v, true) && r.rest.text == rest
  {
    var s1 := Next(s);
    assert s1.text == v + (['"'] + rest);
    RunExact(v, ['"'] + rest, IsQuotedChar);
    var b := QuotedBody(s1);
    assert b.Ok? && b.value == v && b.rest.text == rest;
  }

  /** An unquoted symbol is read back up to the first character it may not contain. */
  lemma UnquotedSymbolRoundTrip(s: State, v: string, rest: seq<char>)
    requires v != [] && AllOf(v, IsUnquotedChar) && (rest == [] || !IsUnquotedChar(rest[0]))
    requires s.text == v + rest
    ensures var r := ParseSymbol(s);
      r.Ok? && r.value == Symbol(v, false) && r.rest.text == rest
  {
    RunExact(v, rest, IsUnquotedChar);
    var u := UnquotedSymbol(s);
    assert u.value.value == s.text[..|v|] == v;
  }

  /** Every symbol the grammar produces is read back from its text. */
  lemma SymbolRoundTrip(s: State, sym: Symbol, rest: seq<char>)
    requires ValidSymbol(sym) && SymbolEnd(sym, rest)
    requires s.text == SymbolText(sym) + rest
    ensures var r := ParseSymbol(s);
      r.Ok? && r.value == sym && r.rest.text == rest
  {
    if sym.quoted {
      QuotedSymbolRoundTrip(s, sym.value, rest);
    } else {
      UnquotedSymbolRoundTrip(s, sym.value, rest);
    }
  }

  // ---------------------------------------------------------------------------------
  // Amounts

  /** The amounts the grammar produces. With the symbol written right after the
      quantity and no blank between them, an unquoted symbol cannot start with a
      character that would continue the quantity. */
  predicate ValidAmount(a: Amount) {
    && ValidQuantity(a.value)
    && ValidSymbol(a.symbol)
    && (a.format == SymbolRightNoSpace && !a.symbol.quoted ==> !IsQuantityChar(a.symbol.value[0]))
  }

  /** `t` cannot continue the amount written before it. */
  predicate AmountEnd(a: Amount, t: seq<char>) {
    if a.format.SymbolLeft() then t == [] || !IsQuantityChar(t[0]) else SymbolEnd(a.symbol, t)
  }

  /** The separator of a format: one space, or nothing. */
  function Spacing(f: AmountFormat): seq<char> {
    if f.WithSpace() then " " else ""
  }

  /** How an amount is written: symbol and quantity in the order of its format, one
      space between them when the format asks for it. */
  function AmountText(a: Amount): seq<char> {
    if a.format.SymbolLeft() then SymbolText(a.symbol) + Spacing(a.format) + a.value
    else a.value + Spacing(a.format) + SymbolText(a.symbol)
  }

  /** `optional(whitespace)`: whether blanks come next; all of them are consumed. */
  function OptionalBlanks(s: State): (r: Reply<bool>)
    ensures Sound(s, r) && r.Ok?
    ensures r.value <==> s.text != [] && IsBlank(s.text[0])
    ensures !r.value ==> r.rest == s
    ensures r.value ==> r.rest.text == s.text[Run(s.text, IsBlank)..]
  {
    var Ok(ws, tag, t) := Optional(s, Whitespace(s));
    Ok(ws.Some?, tag, t)
  }

  /** One blank before a non-blank is consumed. */
  lemma OneBlank(s: State, t: seq<char>)
    requires s.text == [' '] + t && (t == [] || !IsBlank(t[0]))
    ensures var r := OptionalBlanks(s); r.value && r.rest.text == t
  {
    RunExact([' '], t, IsBlank);
  }

  /** `(optional(whitespace), quantity)`: whether blanks came first, and the quantity. */
  function BlanksThenQuantity(s: State): (r: Reply<(bool, string)>)
    ensures Sound(s, r) && !r.Abort?
    ensures r.Ok? ==> r.tag == Consumed
    ensures r.Ok? ==> r.rest.text == [] || !IsQuantityChar(r.rest.text[0])
  {
    var Ok(spaced, tag, s1) := OptionalBlanks(s);
    Seq(tag, s, s1,
      match ParseQuantity(s1)
      case Fail(tag', left) => Fail(tag', left)
      case Ok(q, tag', s2) => Ok((spaced, q), tag', s2))
  }

  /** `amount_symbol_then_quantity`: a symbol, optional blanks and a quantity. The
      format puts the symbol on the left, with a space exactly when blanks follow the
      symbol. */
  function SymbolThenQuantity(s: State): (r: Reply<Amount>)
    ensures Sound(s, r) && !r.Abort?
    ensures r.Fail? && r.tag == Empty <==> s.text == [] || (s.text[0] != '"' && !IsUnquotedChar(s.text[0]))
    ensures r.Ok? ==> r.tag == Consumed && r.value.format.SymbolLeft() && ValidSymbol(r.value.symbol)
    ensures r.Ok? ==> AmountEnd(r.value, r.rest.text)
  {
    match ParseSymbol(s)
    case Fail(tag, left) => Fail(tag, left)
    case Ok(sym, _, s1) =>
      match BlanksThenQuantity(s1)
      case Fail(_, left) => Fail(Consumed, left)
      case Ok(bq, tag, s2) =>
        Seq(Consumed, s, s1, Ok(Amount(bq.1, sym, if bq.0 then SymbolLeftWithSpace else SymbolLeftNoSpace), tag, s2))
  }

  /** `amount_quantity_then_symbol`: a quantity, optional blanks and a symbol. The
      format puts the symbol on the right, with a space exactly when blanks follow the
      quantity. */
  function QuantityThenSymbol(s: State): (r: Reply<Amount>)
    ensures Sound(s, r) && !r.Abort?
    ensures r.Fail? && r.tag == Empty <==> s.text == [] || !(IsDigit(s.text[0]) || s.text[0] == '-')
    ensures r.Ok? ==> r.tag == Consumed && !r.value.format.SymbolLeft() && ValidSymbol(r.value.symbol)
    ensures r.Ok? ==> AmountEnd(r.value, r.rest.text)
  {
    match ParseQuantity(s)
    case Fail(tag, left) => Fail(tag, left)
    case Ok(q, _, s1) =>
      match SymbolAfterQuantity(s1, q)
      case Fail(_, left) => Fail(Consumed, left)
      case Ok(a, tag, s2) => Seq(Consumed, s, s1, Ok(a, tag, s2))
  }

  /** The end of `amount_quantity_then_symbol` once the quantity `q` has been read:
      optional blanks and a symbol. */
  function SymbolAfterQuantity(s: State, q: string): (r: Reply<Amount>)
    ensures Sound(s, r) && !r.Abort?
    ensures r.Ok? ==> r.tag == Consumed && r.value.value == q && !r.value.format.SymbolLeft()
    ensures r.Ok? ==> ValidSymbol(r.value.symbol) && AmountEnd(r.value, r.rest.text)
  {
    var Ok(spaced, tag, s1) := OptionalBlanks(s);
    Seq(tag, s, s1, RightSymbol(s1, q, spaced))
  }

  /** The symbol written after the quantity `q`, with or without blanks before it. */
  function RightSymbol(s: State, q: string, spaced: bool): (r: Reply<Amount>)
    ensures Sound(s, r) && !r.Abort?
    ensures r.Ok? ==> r.tag == Consumed && r.value.value == q && !r.value.format.SymbolLeft()
    ensures r.Ok? ==> ValidSymbol(r.value.symbol) && AmountEnd(r.value, r.rest.text)
  {
    match ParseSymbol(s)
    case Fail(tag, left) => Fail(tag, left)
    case Ok(sym, tag, s1) => Ok(Amount(q, sym, if spaced then SymbolRightWithSpace else SymbolRightNoSpace), tag, s1)
  }

  /** `amount`: symbol first, else quantity first. No symbol starts with a digit or
      `-`, so such a text always goes to the quantity-first form, and any other text
      to the symbol-first form. */
  function ParseAmount(s: State): (r: Reply<Amount>)
    ensures Sound(s, r) && !r.Abort?
    ensures r == if s.text != [] && (IsDigit(s.text[0]) || s.text[0] == '-') then QuantityThenSymbol(s)
                 else SymbolThenQuantity(s)
    ensures r.Ok? ==> r.tag == Consumed && AmountEnd(r.value, r.rest.text)
  {
    Or(s, SymbolThenQuantity(s), QuantityThenSymbol(s))
  }

  /** How `SymbolThenQuantity` assembles the symbol, the blanks and the quantity. */
  lemma SymbolThenQuantityStep(s: State)
    requires ParseSymbol(s).Ok?
    requires ParseQuantity(OptionalBlanks(ParseSymbol(s).rest).rest).Ok?
    ensures var p := ParseSymbol(s); var b := OptionalBlanks(p.rest); var q := ParseQuantity(b.rest);
      var r := SymbolThenQuantity(s);
      && r.Ok? && r.rest == q.rest
      && r.value == Amount(q.value, p.value, if b.value then SymbolLeftWithSpace else SymbolLeftNoSpace)
  {
  }

  /** How `QuantityThenSymbol` assembles the quantity, the blanks and the symbol. */
  lemma QuantityThenSymbolStep(s: State)
    requires ParseQuantity(s).Ok?
    requires ParseSymbol(OptionalBlanks(ParseQuantity(s).rest).rest).Ok?
    ensures var q := ParseQuantity(s); var b := OptionalBlanks(q.rest); var p := ParseSymbol(b.rest);
      var r := QuantityThenSymbol(s);
      && r.Ok? && r.rest == p.rest
      && r.value == Amount(q.value, p.value, if b.value then SymbolRightWithSpace else SymbolRightNoSpace)
  {
  }

  /** A produced quantity starts with a minus sign or a digit, so neither a blank nor a
      character of an unquoted symbol; and it has no commas. */
  lemma QuantityStart(q: string)
    requires ValidQuantity(q)
    ensures q != [] && (IsDigit(q[0]) || q[0] == '-')
    ensures !IsBlank(q[0]) && !IsUnquotedChar(q[0])
    ensures WrittenQuantity(q) && RemoveCommas(q) == q
  {
    ValidQuantityWritten(q);
  }

  /** The written symbol starts with a double quote or with the first character of the
      unquoted name: neither a blank, a digit nor a minus sign. */
  lemma SymbolStart(sym: Symbol)
    requires ValidSymbol(sym)
    ensures SymbolText(sym) != [] && !IsBlank(SymbolText(sym)[0])
    ensures !IsDigit(SymbolText(sym)[0]) && SymbolText(sym)[0] != '-'
    ensures sym.quoted ==> SymbolText(sym)[0] == '"'
    ensures !sym.quoted ==> SymbolText(sym)[0] == sym.value[0]
  {
    assert sym.quoted ==> IsQuotedChar(sym.value[0]);
    assert !sym.quoted ==> IsUnquotedChar(sym.value[0]);
  }

  /** The text of an amount with the symbol on the left, and what follows it,
      regrouped around the symbol. */
  lemma SymbolLeftText(a: Amount, rest: seq<char>)
    requires a.format.SymbolLeft()
    ensures AmountText(a) + rest
      == SymbolText(a.symbol) + (if a.format.WithSpace() then [' '] + (a.value + rest) else a.value + rest)
  {
  }

  /** The text of an amount with the symbol on the right, and what follows it,
      regrouped around the quantity. */
  lemma SymbolRightText(a: Amount, rest: seq<char>)
    requires !a.format.SymbolLeft()
    ensures AmountText(a) + rest
      == a.value + (if a.format.WithSpace() then [' '] + (SymbolText(a.symbol) + rest) else SymbolText(a.symbol) + rest)
  {
  }

  /** An amount with the symbol on the left, written as its format says, is read
      back, whatever follows that cannot continue the quantity. */
  lemma SymbolLeftRoundTrip(s: State, a: Amount, rest: seq<char>)
    requires ValidAmount(a) && a.format.SymbolLeft() && AmountEnd(a, rest)
    requires s.text == AmountText(a) + rest
    ensures var r := SymbolThenQuantity(s);
      r.Ok? && r.value == a && r.rest.text == rest
  {
    QuantityStart(a.value);
    SymbolLeftText(a, rest);
    SymbolLeftReads(s, a.symbol, a.format.WithSpace(), a.value, rest);
  }

  /** A symbol, optionally one blank, and a written quantity are read as the amount
      with the symbol on the left: the quantity loses its commas, and the format has a
      space exactly when the blank is there. */
  lemma SymbolLeftReads(s: State, sym: Symbol, spaced: bool, w: string, rest: seq<char>)
    requires ValidSymbol(sym) && WrittenQuantity(w) && (rest == [] || !IsQuantityChar(rest[0]))
    requires s.text == SymbolText(sym) + (if spaced then [' '] + (w + rest) else w + rest)
    ensures var r := SymbolThenQuantity(s);
      && r.Ok? && r.rest.text == rest
      && r.value == Amount(RemoveCommas(w), sym, if spaced then SymbolLeftWithSpace else SymbolLeftNoSpace)
  {
    var after := if spaced then [' '] + (w + rest) else w + rest;
    assert after[0] == if spaced then ' ' else w[0];
    SymbolRoundTrip(s, sym, after);
    BlanksQuantityRoundTrip(ParseSymbol(s).rest, spaced, w, rest);
    SymbolThenQuantityStep(s);
  }

  /** Optional blanks and a written quantity, as they follow a symbol on the left, are
      read back. */
  lemma BlanksQuantityRoundTrip(t: State, spaced: bool, w: string, rest: seq<char>)
    requires WrittenQuantity(w) && (rest == [] || !IsQuantityChar(rest[0]))
    requires t.text == if spaced then [' '] + (w + rest) else w + rest
    ensures var b := OptionalBlanks(t); var q := ParseQuantity(b.rest);
      b.value == spaced && q.Ok? && q.value == RemoveCommas(w) && q.rest.text == rest
  {
    assert (w + rest)[0] == w[0];
    if spaced {
      OneBlank(t, w + rest);
    }
    QuantityRoundTrip(OptionalBlanks(t).rest, w, rest);
  }

  /** An amount with the symbol on the right, written as its format says, is read
      back, whatever follows that cannot continue the symbol. */
  lemma SymbolRightRoundTrip(s: State, a: Amount, rest: seq<char>)
    requires ValidAmount(a) && !a.format.SymbolLeft() && AmountEnd(a, rest)
    requires s.text == AmountText(a) + rest
    ensures var r := QuantityThenSymbol(s);
      r.Ok? && r.value == a && r.rest.text == rest
  {
    QuantityStart(a.value);
    SymbolRightText(a, rest);
    SymbolRightReads(s, a.value, a.format.WithSpace(), a.symbol, rest);
  }

  /** A written quantity, optionally one blank, and a symbol are read as the amount with
      the symbol on the right: the quantity loses its commas, and the format has a
      space exactly when the blank is there. Without the blank, an unquoted symbol
      must not start with a character that would continue the quantity. */
  lemma SymbolRightReads(s: State, w: string, spaced: bool, sym: Symbol, rest: seq<char>)
    requires ValidSymbol(sym) && WrittenQuantity(w) && SymbolEnd(sym, rest)
    requires spaced || sym.quoted || !IsQuantityChar(sym.value[0])
    requires s.text == w + (if spaced then [' '] + (SymbolText(sym) + rest) else SymbolText(sym) + rest)
    ensures var r := QuantityThenSymbol(s);
      && r.Ok? && r.rest.text == rest
      && r.value == Amount(RemoveCommas(w), sym, if spaced then SymbolRightWithSpace else SymbolRightNoSpace)
  {
    SymbolStart(sym);
    var after := if spaced then [' '] + (SymbolText(sym) + rest) else SymbolText(sym) + rest;
    assert after[0] == if spaced then ' ' else SymbolText(sym)[0];
    QuantityRoundTrip(s, w, after);
    BlanksSymbolRoundTrip(ParseQuantity(s).rest, spaced, sym, rest);
    QuantityThenSymbolStep(s);
  }

  /** Optional blanks and a symbol, as they follow a quantity on the left, are read
      back. */
  lemma BlanksSymbolRoundTrip(t: State, spaced: bool, sym: Symbol, rest: seq<char>)
    requires ValidSymbol(sym) && SymbolEnd(sym, rest)
    requires t.text == if spaced then [' '] + (SymbolText(sym) + rest) else SymbolText(sym) + rest
    ensures var b := OptionalBlanks(t); var p := ParseSymbol(b.rest);
      b.value == spaced && p.Ok? && p.value == sym && p.rest.text == rest
  {
    SymbolStart(sym);
    if spaced {
      OneBlank(t, SymbolText(sym) + rest);
    }
    SymbolRoundTrip(OptionalBlanks(t).rest, sym, rest);
  }

  /** Every amount the grammar produces is read back from its text, in its own
      format, whatever follows that cannot continue it. */
  lemma AmountRoundTrip(s: State, a: Amount, rest: seq<char>)
    requires ValidAmount(a) && AmountEnd(a, rest)
    requires s.text == AmountText(a) + rest
    ensures var r := ParseAmount(s);
      r.Ok? && r.value == a && r.rest.text == rest
  {
    QuantityStart(a.value);
    SymbolStart(a.symbol);
    if a.format.SymbolLeft() {
      assert s.text[0] == SymbolText(a.symbol)[0];
      SymbolLeftRoundTrip(s, a, rest);
    } else {
      assert s.text[0] == a.value[0];
      SymbolRightRoundTrip(s, a, rest);
    }
  }

  /** Where `quantity` gives up on text that starts no written quantity: at the start
      when there is no `-`, and just after the `-` (a consumed failure) when no digit
      follows it. */
  lemma QuantityFailsAt(s: State)
    requires QuantityLength(s.text) == 0
    ensures var r := ParseQuantity(s);
      && r.Fail? && r.left == |s.text| - SignLength(s.text)
      && (r.tag == Consumed <==> SignLength(s.text) == 1)
  {
    var g := ParseSign(s);
    assert g.rest.text == [] || !IsDigit(g.rest.text[0]);
  }

  /** `amount` on a symbol, an optional blank and text that starts no quantity: the
      failure counts as consumed and is reported where the quantity was expected, after
      its `-` when there is one, not at the start of the amount. */
  lemma SymbolLeftFailsAtQuantity(s: State, sym: Symbol, spaced: bool, t: seq<char>)
    requires ValidSymbol(sym) && QuantityLength(t) == 0 && (t == [] || !IsBlank(t[0]))
    requires SymbolEnd(sym, if spaced then [' '] + t else t)
    requires s.text == SymbolText(sym) + (if spaced then [' '] + t else t)
    ensures var r := ParseAmount(s);
      r.Fail? && r.tag == Consumed && r.left == |t| - SignLength(t)
  {
    var u := if spaced then [' '] + t else t;
    SymbolStart(sym);
    assert s.text[0] == SymbolText(sym)[0];
    SymbolRoundTrip(s, sym, u);
    var p := ParseSymbol(s);
    if spaced {
      OneBlank(p.rest, t);
    }
    var b := OptionalBlanks(p.rest);
    assert b.rest.text == t;
    QuantityFailsAt(b.rest);
  }

  /** A quoted name between its quotes, at the front of `t`. */
  lemma QuotedSlices(t: seq<char>, v: string, u: seq<char>)
    requires t == ['"'] + u && |v| < |u| && v == u[..|v|] && u[|v|] == '"'
    ensures t[..|v| + 2] == ['"'] + v + ['"'] && t[|v| + 2..] == u[|v| + 1..]
  {
  }

  /** A symbol consumes exactly its written text. */
  lemma SymbolConsumed(s: State)
    requires ParseSymbol(s).Ok?
    ensures var r := ParseSymbol(s); var n := |SymbolText(r.value)|;
      n <= |s.text| && s.text[..n] == SymbolText(r.value) && r.rest.text == s.text[n..]
  {
    if s.text[0] == '"' {
      var b := QuotedBody(Next(s));
      QuotedSlices(s.text, b.value, Next(s).text);
    }
  }

  /** `SymbolThenQuantity` succeeds only when both of its parts do. */
  lemma SymbolThenQuantityParts(s: State)
    requires SymbolThenQuantity(s).Ok?
    ensures ParseSymbol(s).Ok? && ParseQuantity(OptionalBlanks(ParseSymbol(s).rest).rest).Ok?
  {
  }

  /** `QuantityThenSymbol` succeeds only when both of its parts do. */
  lemma QuantityThenSymbolParts(s: State)
    requires QuantityThenSymbol(s).Ok?
    ensures ParseQuantity(s).Ok? && ParseSymbol(OptionalBlanks(ParseQuantity(s).rest).rest).Ok?
  {
  }

  /** What `SymbolThenQuantity` reads: the symbol's own text first, and a space in
      the format exactly when a blank follows that text. */
  lemma SymbolThenQuantitySpec(s: State)
    requires SymbolThenQuantity(s).Ok?
    ensures var r := SymbolThenQuantity(s); var n := |SymbolText(r.value.symbol)|;
      && n < |s.text| && s.text[..n] == SymbolText(r.value.symbol)
      && (r.value.format.WithSpace() <==> IsBlank(s.text[n]))
  {
    SymbolThenQuantityFields(s);
    SymbolAndBlanks(s);
  }

  /** The symbol of a symbol-first amount, and its spacing, come from the symbol and
      the blanks that were read. */
  lemma SymbolThenQuantityFields(s: State)
    requires SymbolThenQuantity(s).Ok?
    ensures ParseSymbol(s).Ok? && ParseQuantity(OptionalBlanks(ParseSymbol(s).rest).rest).Ok?
    ensures var a := SymbolThenQuantity(s).value;
      && a.symbol == ParseSymbol(s).value
      && (a.format.WithSpace() <==> OptionalBlanks(ParseSymbol(s).rest).value)
  {
    SymbolThenQuantityParts(s);
    SymbolThenQuantityStep(s);
  }

  /** The symbol at the front of `s`, and whether blanks follow its text. */
  lemma SymbolAndBlanks(s: State)
    requires ParseSymbol(s).Ok? && ParseQuantity(OptionalBlanks(ParseSymbol(s).rest).rest).Ok?
    ensures var p := ParseSymbol(s); var n := |SymbolText(p.value)|;
      && n < |s.text| && s.text[..n] == SymbolText(p.value)
      && (OptionalBlanks(p.rest).value <==> IsBlank(s.text[n]))
  {
    SymbolConsumed(s);
    var p := ParseSymbol(s);
    QuantityAfterBlanks(p.rest);
    assert s.text[|SymbolText(p.value)|] == p.rest.text[0];
  }

  /** A quantity after optional blanks needs some text, and blanks were read exactly
      when that text starts with one. */
  lemma QuantityAfterBlanks(t: State)
    requires ParseQuantity(OptionalBlanks(t).rest).Ok?
    ensures t.text != [] && (OptionalBlanks(t).value <==> IsBlank(t.text[0]))
  {
  }

  /** `SymbolThenQuantity` produces only amounts the grammar can read back. */
  lemma SymbolThenQuantityValid(s: State)
    requires SymbolThenQuantity(s).Ok?
    ensures ValidAmount(SymbolThenQuantity(s).value)
  {
    SymbolThenQuantityParts(s);
    SymbolThenQuantityStep(s);
    QuantitySpec(OptionalBlanks(ParseSymbol(s).rest).rest);
  }

  /** What `QuantityThenSymbol` reads: the written quantity first, with its commas
      dropped in the value, a space in the format exactly when a blank follows it,
      and a produced amount. */
  lemma QuantityThenSymbolSpec(s: State)
    requires QuantityThenSymbol(s).Ok?
    ensures var r := QuantityThenSymbol(s); var n := QuantityLength(s.text);
      && 0 < n < |s.text| && r.value.value == RemoveCommas(s.text[..n])
      && (r.value.format.WithSpace() <==> IsBlank(s.text[n]))
      && ValidAmount(r.value)
  {
    QuantityThenSymbolParts(s);
    QuantityThenSymbolStep(s);
    QuantitySpec(s);
    var q := ParseQuantity(s);
    var b := OptionalBlanks(q.rest);
    var p := ParseSymbol(b.rest);
  }

  /** What `amount` reads: a produced amount; the symbol is on the left exactly when
      the text does not start with a digit or a minus sign; and the format has a space
      exactly when a blank follows the part written first. */
  lemma AmountSpec(s: State)
    requires ParseAmount(s).Ok?
    ensures var a := ParseAmount(s).value;
      var n := if a.format.SymbolLeft() then |SymbolText(a.symbol)| else QuantityLength(s.text);
      && ValidAmount(a)
      && s.text != [] && (a.format.SymbolLeft() <==> !(IsDigit(s.text[0]) || s.text[0] == '-'))
      && 0 < n < |s.text| && (a.format.WithSpace() <==> IsBlank(s.text[n]))
  {
    if s.text != [] && (IsDigit(s.text[0]) || s.text[0] == '-') {
      QuantityThenSymbolSpec(s);
    } else {
      SymbolThenQuantitySpec(s);
      SymbolThenQuantityValid(s);
      SymbolStart(ParseAmount(s).value.symbol);
    }
  }
}
