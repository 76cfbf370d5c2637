/** The transaction header grammar: date, status, optional code, payee and optional
    comment on one line, stamped with the line it starts on. */
module Headers {
  import opened Parsing
  import opened Lexers
  import opened Types
  import opened Dates

  /** `status`: `*` gives `Cleared`, `!` gives `Uncleared`, anything else fails
      without consuming. */
  function ParseStatus(s: State): (r: Reply<TransactionStatus>)
    ensures Sound(s, r) && !r.Abort?
    ensures r.Ok? <==> s.text != [] && (s.text[0] == '*' || s.text[0] == '!')
    ensures r.Ok? ==> r.value == (if s.text[0] == '*' then Cleared else Uncleared)
    ensures r.Ok? ==> r.tag == Consumed && r.rest == Next(s)
    ensures r.Fail? ==> r.tag == Empty
  {
    Or(s, Map(s, Char(s, '*'), _ => Cleared), Map(s, Char(s, '!'), _ => Uncleared))
  }

  /** The character written by each status: `ParseStatus` reads it back. */
  function StatusChar(st: TransactionStatus): (c: char)
    ensures c == '*' || c == '!'
  {
    if st == Cleared then '*' else '!'
  }

  predicate IsCodeChar(c: char) {
    c != '\r' && c != '\n' && c != ')'
  }

  predicate IsPayeeChar(c: char) {
    c != ';' && c != '\n' && c != '\r'
  }

  predicate IsCommentChar(c: char) {
    c != '\r' && c != '\n'
  }

  /** `t` is empty or starts a new line: nothing of the current line is left. */
  predicate AtLineEnd(t: seq<char>) {
    t == [] || t[0] == '\r' || t[0] == '\n'
  }

  /** `char(')')` after the code text `body`, keeping `body` as the value. */
  function CloseParen(s: State, body: string): (r: Reply<string>)
    ensures Sound(s, r) && !r.Abort?
    ensures r.Ok? <==> s.text != [] && s.text[0] == ')'
    ensures r.Ok? ==> r.value == body && r.tag == Consumed && r.rest.text == s.text[1..]
    ensures r.Fail? ==> r.tag == Empty && r.left == |s.text|
  {
    match Char(s, ')')
    case Fail(tag, left) => Fail(tag, left)
    case Ok(_, _, t) => Ok(body, Consumed, t)
  }

  /** The text of a code after its `(`: the longest run of code characters, which
      must be closed by `)`. */
  function CodeBody(s: State): (r: Reply<string>)
    ensures Sound(s, r) && !r.Abort?
    ensures r.Ok? <==> Run(s.text, IsCodeChar) < |s.text| && s.text[Run(s.text, IsCodeChar)] == ')'
    ensures r.Ok? ==> r.tag == Consumed && |r.value| == Run(s.text, IsCodeChar)
    ensures r.Ok? ==> r.value == s.text[..|r.value|] && r.rest.text == s.text[|r.value| + 1..]
    ensures r.Fail? ==> r.left == |s.text| - Run(s.text, IsCodeChar)
  {
    var m := Many(s, IsCodeChar);
    Seq(m.tag, s, m.rest, CloseParen(m.rest, m.value))
  }

  /** `code`: a parenthesised text without line breaks or `)`; the value drops the
      parentheses and may be empty. */
  function ParseCode(s: State): (r: Reply<string>)
    ensures Sound(s, r) && !r.Abort?
    ensures r.Fail? && r.tag == Empty <==> s.text == [] || s.text[0] != '('
    ensures r.Ok? ==> r.tag == Consumed && AllOf(r.value, IsCodeChar)
  {
    match Char(s, '(')
    case Fail(tag, left) => Fail(tag, left)
    case Ok(_, _, s1) => Seq(Consumed, s, s1, CodeBody(s1))
  }

  /** `payee`: the longest non-empty text up to a `;` or a line break, trailing blanks
      included. */
  function ParsePayee(s: State): (r: Reply<string>)
    ensures Sound(s, r) && !r.Abort?
    ensures r.Fail? <==> s.text == [] || !IsPayeeChar(s.text[0])
    ensures r.Fail? ==> r.tag == Empty
    ensures r.Ok? ==> r.tag == Consumed && r.value != [] && AllOf(r.value, IsPayeeChar)
    ensures r.Ok? ==> |r.value| <= |s.text| && r.value == s.text[..|r.value|] && r.rest.text == s.text[|r.value|..]
    ensures r.Ok? ==> r.rest.text == [] || r.rest.text[0] == ';' || AtLineEnd(r.rest.text)
  {
    Many1(s, IsPayeeChar)
  }

  /** `comment`: a `;` and the rest of the line; the value drops the `;` and keeps
      any blank after it. */
  function ParseComment(s: State): (r: Reply<string>)
    ensures Sound(s, r) && !r.Abort?
    ensures r.Fail? <==> s.text == [] || s.text[0] != ';'
    ensures r.Fail? ==> r.tag == Empty
    ensures r.Ok? ==> r.tag == Consumed && |s.text| > |r.value| && AllOf(r.value, IsCommentChar)
    ensures r.Ok? ==> |r.value| == Run(s.text[1..], IsCommentChar)
    ensures r.Ok? ==> s.text[..|r.value| + 1] == [';'] + r.value && r.rest.text == s.text[|r.value| + 1..]
    ensures r.Ok? ==> AtLineEnd(r.rest.text)
  {
    match Char(s, ';')
    case Fail(tag, left) => Fail(tag, left)
    case Ok(_, _, s1) =>
      var m := Many(s1, IsCommentChar);
      FirstThenPrefix(s.text, |m.value|);
      Seq(Consumed, s, s1, m)
  }

  /** `(payee, optional(comment))`, the end of a header. */
  function PayeeAndComment(s: State): (r: Reply<(string, Option<string>)>)
    ensures Sound(s, r) && !r.Abort?
    ensures r.Fail? <==> s.text == [] || !IsPayeeChar(s.text[0])
    ensures r.Fail? ==> r.tag == Empty
    ensures r.Ok? ==> r.tag == Consumed && AtLineEnd(r.rest.text)
    ensures r.Ok? ==> r.value.0 != [] && AllOf(r.value.0, IsPayeeChar) && r.value.0[0] == s.text[0]
    ensures r.Ok? && r.value.1.Some? ==> AllOf(r.value.1.value, IsCommentChar)
  {
    match ParsePayee(s)
    case Fail(tag, left) => Fail(tag, left)
    case Ok(payee, _, s1) =>
      Seq(Consumed, s, s1, Map(s1, Optional(s1, ParseComment(s1)), c => (payee, c)))
  }

  /** The payee and the optional comment after the optional code `code`. */
  function PayeeAfterCode(s: State, code: Option<string>): (r: Reply<(Option<string>, string, Option<string>)>)
    ensures Sound(s, r) && !r.Abort?
    ensures r.Fail? ==> r.tag == Empty
    ensures r.Ok? ==> r.tag == Consumed && AtLineEnd(r.rest.text) && r.value.0 == code
    ensures r.Ok? ==> r.value.1 != [] && AllOf(r.value.1, IsPayeeChar) && r.value.1[0] == s.text[0]
    ensures r.Ok? && r.value.2.Some? ==> AllOf(r.value.2.value, IsCommentChar)
  {
    match PayeeAndComment(s)
    case Fail(tag, left) => Fail(tag, left)
    case Ok(pc, tag, s2) => Ok((code, pc.0, pc.1), tag, s2)
  }

  /** `(optional(code.skip(whitespace)), payee, optional(comment))`: a code is tried
      only where the text starts with `(`, and once it is there it must be closed and
      followed by blanks. */
  function CodePayeeComment(s: State): (r: Reply<(Option<string>, string, Option<string>)>)
    ensures Sound(s, r) && !r.Abort?
    ensures r.Ok? ==> r.tag == Consumed && AtLineEnd(r.rest.text)
    ensures r.Ok? ==> r.value.1 != [] && AllOf(r.value.1, IsPayeeChar)
    ensures r.Ok? && r.value.0.Some? ==> !IsBlank(r.value.1[0])
    ensures r.Ok? && r.value.0.None? ==> r.value.1[0] == s.text[0] && s.text[0] != '('
    ensures r.Ok? && r.value.0.Some? ==> AllOf(r.value.0.value, IsCodeChar)
    ensures r.Ok? && r.value.2.Some? ==> AllOf(r.value.2.value, IsCommentChar)
  {
    match Optional(s, SkipBlank(s, ParseCode(s)))
    case Fail(tag, left) => Fail(tag, left)
    case Ok(code, tag, s1) => Seq(tag, s, s1, PayeeAfterCode(s1, code))
  }

  /** `status.skip(whitespace)` followed by `CodePayeeComment`. */
  function StatusToEnd(s: State): (r: Reply<(TransactionStatus, Option<string>, string, Option<string>)>)
    ensures Sound(s, r) && !r.Abort?
    ensures r.Ok? ==> r.tag == Consumed && AtLineEnd(r.rest.text)
    ensures r.Ok? ==> r.value.0 == (if s.text[0] == '*' then Cleared else Uncleared)
    ensures r.Ok? ==> r.value.2 != [] && AllOf(r.value.2, IsPayeeChar) && !IsBlank(r.value.2[0])
    ensures r.Ok? && r.value.1.None? ==> r.value.2[0] != '('
    ensures r.Ok? && r.value.1.Some? ==> AllOf(r.value.1.value, IsCodeChar)
    ensures r.Ok? && r.value.3.Some? ==> AllOf(r.value.3.value, IsCommentChar)
  {
    match SkipBlank(s, ParseStatus(s))
    case Fail(tag, left) => Fail(tag, left)
    case Ok(status, _, s1) =>
      match CodePayeeComment(s1)
      case Fail(tag, left) => Fail(Consumed, left)
      case Ok(cpc, tag, s2) => Seq(Consumed, s, s1, Ok((status, cpc.0, cpc.1, cpc.2), tag, s2))
  }

  /** The headers the grammar can produce; `HeaderText` writes each of them so that
      `ParseHeader` reads it back. */
  predicate ValidHeader(h: Header) {
    && ValidDate(h.date)
    && (h.code.Some? ==> AllOf(h.code.value, IsCodeChar))
    && h.payee != [] && AllOf(h.payee, IsPayeeChar) && !IsBlank(h.payee[0])
    && (h.code.None? ==> h.payee[0] != '(')
    && (h.comment.Some? ==> AllOf(h.comment.value, IsCommentChar))
  }

  /** `header`: the line number where the header starts, then the date and the status
      each followed by blanks, an optional code followed by blanks, the payee and an
      optional comment. A header always runs to the end of its line. */
  function ParseHeader(s: State): (r: Reply<Header>)
    ensures Sound(s, r)
    ensures r.Fail? && r.tag == Empty <==> s.text == [] || !(IsDigit(s.text[0]) || s.text[0] == '-')
    ensures r.Ok? ==> r.value.lineNumber == s.line
    ensures r.Ok? ==> ValidHeader(r.value)
    ensures r.Ok? ==> r.tag == Consumed && AtLineEnd(r.rest.text)
  {
    var Ok(line, _, _) := LineNumber(s);
    ParseDateSpec(s);
    match SkipBlank(s, ParseDate(s))
    case Fail(tag, left) => Fail(tag, left)
    case Abort(left) => Abort(left)
    case Ok(date, _, s1) =>
      Seq(Consumed, s, s1,
        Map(s1, StatusToEnd(s1), (f: (TransactionStatus, Option<string>, string, Option<string>)) => Header(line, date, f.0, f.1, f.2, f.3)))
  }

  /** How a header is written back: the date, one space, the status, one space, the
      code in parentheses and one space when there is one, the payee, then `;` and the
      comment when there is one. */
  function HeaderText(h: Header): seq<char>
    requires ValidHeader(h)
  {
    DateText(h.date) + [' ', StatusChar(h.status), ' '] + CodeText(h.code) + h.payee + CommentText(h.comment)
  }

  function CodeText(code: Option<string>): seq<char> {
    if code.Some? then ['('] + code.value + [')', ' '] else []
  }

  function CommentText(comment: Option<string>): seq<char> {
    if comment.Some? then [';'] + comment.value else []
  }

  /** A comment is read back up to the line break that follows it. */
  lemma CommentRoundTrip(s: State, c: string, rest: seq<char>)
    requires AllOf(c, IsCommentChar) && AtLineEnd(rest)
    requires s.text == [';'] + c + rest
    ensures var r := ParseComment(s);
      r.Ok? && r.value == c && r.rest.text == rest
  {
    assert s.text[1..] == c + rest;
    RunExact(c, rest, IsCommentChar);
    var r := ParseComment(s);
    assert |r.value| == |c|;
    assert r.value == s.text[1..|c| + 1] == c;
  }

  /** A payee is read back up to the first character it may not contain. */
  lemma PayeeRoundTrip(s: State, payee: string, tail: seq<char>)
    requires payee != [] && AllOf(payee, IsPayeeChar) && (tail == [] || !IsPayeeChar(tail[0]))
    requires s.text == payee + tail
    ensures var p := ParsePayee(s); p.Ok? && p.value == payee && p.rest.text == tail
  {
    RunExact(payee, tail, IsPayeeChar);
  }

  /** How `PayeeAndComment` adds the comment, when there is one, to the payee. */
  lemma PayeeThenComment(s: State)
    requires ParsePayee(s).Ok?
    ensures var p := ParsePayee(s); var c := ParseComment(p.rest);
      PayeeAndComment(s)
        == if c.Ok? then Ok((p.value, Some(c.value)), Consumed, c.rest) else Ok((p.value, None), Consumed, p.rest)
  {
  }

  /** A payee at the end of its line is read back without a comment. */
  lemma PayeeOnlyRoundTrip(s: State, payee: string, rest: seq<char>)
    requires payee != [] && AllOf(payee, IsPayeeChar) && AtLineEnd(rest)
    requires s.text == payee + rest
    ensures var r := PayeeAndComment(s);
      r.Ok? && r.value == (payee, None) && r.rest.text == rest
  {
    PayeeRoundTrip(s, payee, rest);
    PayeeThenComment(s);
  }

  /** A payee and the comment after it are read back. */
  lemma PayeeCommentRoundTrip(s: State, payee: string, c: string, rest: seq<char>)
    requires payee != [] && AllOf(payee, IsPayeeChar) && AllOf(c, IsCommentChar) && AtLineEnd(rest)
    requires s.text == payee + ([';'] + c + rest)
    ensures var r := PayeeAndComment(s);
      r.Ok? && r.value == (payee, Some(c)) && r.rest.text == rest
  {
    PayeeRoundTrip(s, payee, [';'] + c + rest);
    PayeeThenComment(s);
    CommentRoundTrip(ParsePayee(s).rest, c, rest);
  }

  /** A payee and an optional comment are read back as written. */
  lemma PayeeAndCommentRoundTrip(s: State, payee: string, comment: Option<string>, rest: seq<char>)
    requires payee != [] && AllOf(payee, IsPayeeChar)
    requires comment.Some? ==> AllOf(comment.value, IsCommentChar)
    requires AtLineEnd(rest)
    requires s.text == payee + CommentText(comment) + rest
    ensures var r := PayeeAndComment(s);
      r.Ok? && r.value == (payee, comment) && r.rest.text == rest
  {
    if comment.Some? {
      assert s.text == payee + ([';'] + comment.value + rest);
      PayeeCommentRoundTrip(s, payee, comment.value, rest);
    } else {
      assert s.text == payee + rest;
      PayeeOnlyRoundTrip(s, payee, rest);
    }
  }

  /** A code is read back up to its closing parenthesis. */
  lemma CodeRoundTrip(s: State, c: string, t: seq<char>)
    requires AllOf(c, IsCodeChar)
    requires s.text == ['('] + c + [')'] + t
    ensures var r := ParseCode(s);
      r.Ok? && r.value == c && r.rest.text == t
  {
    var s1 := Next(s);
    assert s1.text == c + ([')'] + t);
    RunExact(c, [')'] + t, IsCodeChar);
    var b := CodeBody(s1);
    assert b.Ok? && b.value == c && b.rest.text == t;
    assert ParseCode(s) == Seq(Consumed, s, s1, b);
  }

  /** Without a code, `CodePayeeComment` reads the payee and comment from where it
      starts. */
  lemma NoCodeRoundTrip(s: State, payee: string, comment: Option<string>, rest: seq<char>)
    requires payee != [] && AllOf(payee, IsPayeeChar) && payee[0] != '('
    requires comment.Some? ==> AllOf(comment.value, IsCommentChar)
    requires AtLineEnd(rest)
    requires s.text == payee + CommentText(comment) + rest
    ensures var r := CodePayeeComment(s);
      r.Ok? && r.value == (None, payee, comment) && r.rest.text == rest
  {
    var k := ParseCode(s);
    assert k.Fail? && k.tag == Empty;
    var o := Optional(s, SkipBlank(s, k));
    assert o == Ok(None, Empty, s);
    PayeeAndCommentRoundTrip(s, payee, comment, rest);
    var q := PayeeAndComment(s);
    assert CodePayeeComment(s) == Seq(Empty, s, s, Map(s, q, (pc: (string, Option<string>)) => (None, pc.0, pc.1)));
  }

  /** A code and the one blank written after it are read back, up to the first
      non-blank. */
  lemma CodeAndBlankRoundTrip(s: State, c: string, t: seq<char>)
    requires AllOf(c, IsCodeChar) && t != [] && !IsBlank(t[0])
    requires s.text == ['('] + c + [')', ' '] + t
    ensures var m := SkipBlank(s, ParseCode(s));
      m.Ok? && m.value == c && m.rest.text == t
  {
    assert s.text == ['('] + c + [')'] + ([' '] + t);
    CodeRoundTrip(s, c, [' '] + t);
    SkipOneBlank(s, ParseCode(s), t);
  }

  /** How `CodePayeeComment` combines a code followed by blanks with what comes after
      them. */
  lemma CodeThenPayee(s: State)
    requires SkipBlank(s, ParseCode(s)).Ok?
    requires PayeeAndComment(SkipBlank(s, ParseCode(s)).rest).Ok?
    ensures var m := SkipBlank(s, ParseCode(s));
      var q := PayeeAndComment(m.rest);
      CodePayeeComment(s) == Ok((Some(m.value), q.value.0, q.value.1), Consumed, q.rest)
  {
  }

  /** An optional code, the payee and an optional comment are read back as written,
      provided the payee cannot be mistaken for a code or for blanks after one. */
  lemma CodePayeeCommentRoundTrip(s: State, code: Option<string>, payee: string, comment: Option<string>,
                                  rest: seq<char>, pc: seq<char>)
    requires code.Some? ==> AllOf(code.value, IsCodeChar)
    requires payee != [] && AllOf(payee, IsPayeeChar) && !IsBlank(payee[0])
    requires code.None? ==> payee[0] != '('
    requires comment.Some? ==> AllOf(comment.value, IsCommentChar)
    requires AtLineEnd(rest)
    requires pc == payee + CommentText(comment) + rest && s.text == CodeText(code) + pc
    ensures var r := CodePayeeComment(s);
      r.Ok? && r.value == (code, payee, comment) && r.rest.text == rest
  {
    assert pc[0] == payee[0];
    if code.None? {
      assert s.text == pc;
      NoCodeRoundTrip(s, payee, comment, rest);
    } else {
      CodeAndBlankRoundTrip(s, code.value, pc);
      PayeeAndCommentRoundTrip(SkipBlank(s, ParseCode(s)).rest, payee, comment, rest);
      CodeThenPayee(s);
    }
  }

  /** How `StatusToEnd` combines the status followed by blanks with what comes after
      them. */
  lemma StatusThenRest(s: State)
    requires SkipBlank(s, ParseStatus(s)).Ok?
    requires CodePayeeComment(SkipBlank(s, ParseStatus(s)).rest).Ok?
    ensures var m := SkipBlank(s, ParseStatus(s));
      var q := CodePayeeComment(m.rest);
      StatusToEnd(s) == Ok((m.value, q.value.0, q.value.1, q.value.2), Consumed, q.rest)
  {
  }

  /** A status and the one blank written after it are read back, up to the first
      non-blank. */
  lemma StatusAndBlankRoundTrip(s: State, st: TransactionStatus, t: seq<char>)
    requires t != [] && !IsBlank(t[0])
    requires s.text == [StatusChar(st), ' '] + t
    ensures var m := SkipBlank(s, ParseStatus(s));
      m.Ok? && m.value == st && m.rest.text == t
  {
    var r := ParseStatus(s);
    assert r.Ok? && r.value == st;
    assert r.rest.text == s.text[1..] == [' '] + t;
    SkipOneBlank(s, r, t);
  }

  /** The status, the code, the payee and the comment are read back as written. */
  lemma StatusToEndRoundTrip(s: State, h: Header, rest: seq<char>, pc: seq<char>, cpc: seq<char>)
    requires ValidHeader(h) && AtLineEnd(rest)
    requires pc == h.payee + CommentText(h.comment) + rest && cpc == CodeText(h.code) + pc
    requires s.text == [StatusChar(h.status), ' '] + cpc
    ensures var r := StatusToEnd(s);
      r.Ok? && r.value == (h.status, h.code, h.payee, h.comment) && r.rest.text == rest
  {
    assert cpc[0] == if h.code.Some? then '(' else h.payee[0];
    StatusAndBlankRoundTrip(s, h.status, cpc);
    CodePayeeCommentRoundTrip(SkipBlank(s, ParseStatus(s)).rest, h.code, h.payee, h.comment, rest, pc);
    StatusThenRest(s);
  }

  /** How `ParseHeader` combines the date followed by blanks with what comes after them. */
  lemma DateThenRest(s: State)
    requires SkipBlank(s, ParseDate(s)).Ok?
    requires StatusToEnd(SkipBlank(s, ParseDate(s)).rest).Ok?
    ensures var m := SkipBlank(s, ParseDate(s));
      var q := StatusToEnd(m.rest);
      ParseHeader(s) == Ok(Header(s.line, m.value, q.value.0, q.value.1, q.value.2, q.value.3), Consumed, q.rest)
  {
  }

  /** The text of a header followed by `rest`, regrouped field by field. */
  lemma HeaderTextFields(h: Header, rest: seq<char>, pc: seq<char>, cpc: seq<char>, after: seq<char>)
    requires ValidHeader(h)
    requires pc == h.payee + CommentText(h.comment) + rest && cpc == CodeText(h.code) + pc
    requires after == [StatusChar(h.status), ' '] + cpc
    ensures HeaderText(h) + rest == DateText(h.date) + ([' '] + after)
  {
  }

  /** A date and the one blank written after it are read back, up to the first
      non-blank. */
  lemma DateAndBlankRoundTrip(s: State, d: Date, t: seq<char>)
    requires ValidDate(d) && t != [] && !IsBlank(t[0])
    requires s.text == DateText(d) + ([' '] + t)
    ensures var m := SkipBlank(s, ParseDate(s));
      m.Ok? && m.value == d && m.rest.text == t
  {
    DateRoundTrip(s, d, [' '] + t);
    SkipOneBlank(s, ParseDate(s), t);
  }

  /** The fields of a header, written one after the other, are read back. */
  lemma HeaderFieldsRoundTrip(s: State, h: Header, rest: seq<char>, pc: seq<char>, cpc: seq<char>, after: seq<char>)
    requires ValidHeader(h) && h.lineNumber == s.line && AtLineEnd(rest)
    requires pc == h.payee + CommentText(h.comment) + rest && cpc == CodeText(h.code) + pc
    requires after == [StatusChar(h.status), ' '] + cpc
    requires s.text == DateText(h.date) + ([' '] + after)
    ensures var r := ParseHeader(s);
      r.Ok? && r.value == h && r.rest.text == rest
  {
    DateAndBlankRoundTrip(s, h.date, after);
    StatusToEndRoundTrip(SkipBlank(s, ParseDate(s)).rest, h, rest, pc, cpc);
    DateThenRest(s);
  }

  /** Every header the grammar can produce is read back from its text, stamped with the
      line the text starts on, whatever line break or end of input follows it. */
  lemma HeaderRoundTrip(h: Header, rest: seq<char>, line: nat)
    requires ValidHeader(h) && h.lineNumber == line && AtLineEnd(rest)
    ensures var r := ParseHeader(State(HeaderText(h) + rest, line));
      r.Ok? && r.value == h && r.rest.text == rest
  {
    var pc := h.payee + CommentText(h.comment) + rest;
    var cpc := CodeText(h.code) + pc;
    var after := [StatusChar(h.status), ' '] + cpc;
    HeaderTextFields(h, rest, pc, cpc, after);
    HeaderFieldsRoundTrip(State(HeaderText(h) + rest, line), h, rest, pc, cpc, after);
  }
}
