/** The account grammar: alphanumeric sub-account names separated by colons. */
module Accounts {
  import opened Parsing
  import opened Lexers

  /** `alpha_num()`, restricted to ASCII letters and digits. */
  predicate IsAlphaNum(c: char) {
    ('a' <= c <= 'z') || ('A' <= c <= 'Z') || IsDigit(c)
  }

  predicate AlphaNumName(t: seq<char>) {
    t != [] && forall i :: 0 <= i < |t| ==> IsAlphaNum(t[i])
  }

  /** Every name in `segs` is a sub-account name. */
  predicate AllNames(segs: seq<string>) {
    segs == [] || (AlphaNumName(segs[0]) && AllNames(segs[1..]))
  }

  /** `t` does not continue an account: it is empty or starts with neither a letter, a
      digit nor a colon. */
  predicate AccountEnd(t: seq<char>) {
    t == [] || (!IsAlphaNum(t[0]) && t[0] != ':')
  }

  /** `sub_account`: the longest non-empty run of letters and digits. */
  function ParseSubAccount(s: State): (r: Reply<string>)
    ensures Sound(s, r) && !r.Abort?
    ensures r.Fail? <==> s.text == [] || !IsAlphaNum(s.text[0])
    ensures r.Fail? ==> r.tag == Empty
    ensures r.Ok? ==> r.tag == Consumed && AlphaNumName(r.value) && |r.rest.text| <= |s.text|
    ensures r.Ok? ==> r.value == Taken(s, r.rest) && |r.value| == Run(s.text, IsAlphaNum)
    ensures r.Ok? ==> r.rest.text == [] || !IsAlphaNum(r.rest.text[0])
  {
    Many1(s, IsAlphaNum)
  }

  /** `char(':').with(sub_account)`: a colon and the sub-account after it. */
  function ColonSubAccount(s: State): (r: Reply<string>)
    ensures Sound(s, r) && !r.Abort?
    ensures r.Fail? && r.tag == Empty <==> s.text == [] || s.text[0] != ':'
    ensures r.Ok? <==> |s.text| >= 2 && s.text[0] == ':' && IsAlphaNum(s.text[1])
    ensures r.Ok? ==> r.tag == Consumed && AlphaNumName(r.value) && |r.rest.text| < |s.text|
    ensures r.Ok? ==> Taken(s, r.rest) == [':'] + r.value && |r.value| == Run(s.text[1..], IsAlphaNum)
    ensures r.Ok? ==> r.rest.text == [] || !IsAlphaNum(r.rest.text[0])
  {
    match Char(s, ':')
    case Fail(tag, left) => Fail(tag, left)
    case Ok(_, _, s1) =>
      var r := ParseSubAccount(s1);
      assert s1.text == s.text[1..];
      if r.Ok? then
        ReachesTrans(s, s1, r.rest);
        Seq(Consumed, s, s1, r)
      else
        Seq(Consumed, s, s1, r)
  }

  /** The text of the sub-accounts after the first: each preceded by a colon. */
  function TailText(segs: seq<string>): seq<char> {
    if segs == [] then [] else [':'] + segs[0] + TailText(segs[1..])
  }

  /** The text of an account: its sub-accounts joined with colons. */
  function AccountText(segs: seq<string>): seq<char>
    requires segs != []
  {
    segs[0] + TailText(segs[1..])
  }

  /** `many(char(':').with(sub_account))`: the remaining sub-accounts. It stops before a
      text that does not start with a colon; a colon that is not followed by a
      sub-account fails the whole repetition after consumption. */
  function AccountTail(s: State): (r: Reply<seq<string>>)
    ensures Sound(s, r) && !r.Abort?
    ensures r.Fail? ==> r.tag == Consumed
    ensures r.Ok? ==> |r.rest.text| <= |s.text|
    ensures r.Ok? ==> AllNames(r.value)
    ensures r.Ok? ==> r.rest.text == [] || r.rest.text[0] != ':'
    ensures r.Ok? && r.value == [] ==> r.rest == s
    ensures r.Ok? && r.value != [] ==> r.rest.text == [] || !IsAlphaNum(r.rest.text[0])
    decreases |s.text|
  {
    match ColonSubAccount(s)
    case Fail(tag, left) => if tag == Empty then Ok([], Empty, s) else Fail(Consumed, left)
    case Ok(seg, _, s1) =>
      match AccountTail(s1)
      case Fail(_, left) => Fail(Consumed, left)
      case Ok(more, tag, s2) =>
        var segs := [seg] + more;
        assert segs[0] == seg && segs[1..] == more;
        Seq(Consumed, s, s1, Ok(segs, tag, s2))
  }

  /** `account`: `sep_by1(sub_account, char(':'))`, the sub-account names in order. The
      consumed text is exactly the names joined with colons, and an account never
      stops before a letter, a digit or a colon. */
  function ParseAccount(s: State): (r: Reply<seq<string>>)
    ensures Sound(s, r) && !r.Abort?
    ensures r.Fail? && r.tag == Empty <==> s.text == [] || !IsAlphaNum(s.text[0])
    ensures r.Ok? ==> r.tag == Consumed && r.value != [] && |r.rest.text| < |s.text|
    ensures r.Ok? ==> AllNames(r.value)
    ensures r.Ok? ==> AccountEnd(r.rest.text)
  {
    match ParseSubAccount(s)
    case Fail(tag, left) => Fail(tag, left)
    case Ok(first, _, s1) =>
      match AccountTail(s1)
      case Fail(_, left) => Fail(Consumed, left)
      case Ok(more, tag, s2) =>
        var segs := [first] + more;
        assert segs[0] == first && segs[1..] == more;
        Seq(Consumed, s, s1, Ok(segs, tag, s2))
  }

  /** The text `AccountTail` consumes is its names, each after a colon. */
  lemma {:induction false} AccountTailConsumed(s: State)
    requires AccountTail(s).Ok?
    ensures var r := AccountTail(s);
      Taken(s, r.rest) == TailText(r.value)
    decreases |s.text|
  {
    var c := ColonSubAccount(s);
    if c.Ok? {
      var q := AccountTail(c.rest);
      AccountTailConsumed(c.rest);
      var segs := [c.value] + q.value;
      assert segs[0] == c.value && segs[1..] == q.value;
      if q.tag == Consumed {
        ReachesTrans(s, c.rest, q.rest);
      }
    }
  }

  /** Joining the names of an account with colons gives back exactly the text it
      consumed, in order. */
  lemma AccountConsumed(s: State)
    requires ParseAccount(s).Ok?
    ensures var r := ParseAccount(s);
      Taken(s, r.rest) == AccountText(r.value)
  {
    var p := ParseSubAccount(s);
    var q := AccountTail(p.rest);
    AccountTailConsumed(p.rest);
    var segs := [p.value] + q.value;
    assert segs[0] == p.value && segs[1..] == q.value;
    if q.tag == Consumed {
      ReachesTrans(s, p.rest, q.rest);
    }
  }

  /** A sub-account name is read back up to the first character that cannot continue
      it. */
  lemma SubAccountRoundTrip(s: State, seg: string, t: seq<char>)
    requires AlphaNumName(seg) && (t == [] || !IsAlphaNum(t[0]))
    requires s.text == seg + t
    ensures var r := ParseSubAccount(s);
      r.Ok? && r.value == seg && r.rest.text == t
  {
    RunExact(seg, t, IsAlphaNum);
    var r := ParseSubAccount(s);
    assert r.value == s.text[..|seg|] == seg;
  }

  /** A colon and a sub-account name are read back, up to the first character that
      cannot continue the name. */
  lemma ColonSubAccountRoundTrip(s: State, seg: string, t: seq<char>)
    requires AlphaNumName(seg) && (t == [] || !IsAlphaNum(t[0]))
    requires s.text == [':'] + seg + t
    ensures var r := ColonSubAccount(s);
      r.Ok? && r.value == seg && r.rest.text == t
  {
    assert Next(s).text == seg + t;
    SubAccountRoundTrip(Next(s), seg, t);
  }

  /** How `AccountTail` extends the sub-accounts after one colon-separated name. */
  lemma AccountTailStep(s: State)
    requires ColonSubAccount(s).Ok? && AccountTail(ColonSubAccount(s).rest).Ok?
    ensures var c := ColonSubAccount(s);
      var q := AccountTail(c.rest);
      AccountTail(s).Ok? && AccountTail(s).value == [c.value] + q.value && AccountTail(s).rest == q.rest
  {
  }

  /** The text of a non-empty tail, regrouped around its first name. */
  lemma TailTextFirst(segs: seq<string>, rest: seq<char>)
    requires segs != [] && AllNames(segs[1..])
    ensures TailText(segs) + rest == [':'] + segs[0] + (TailText(segs[1..]) + rest)
    ensures var t := TailText(segs[1..]) + rest; AccountEnd(rest) ==> t == [] || !IsAlphaNum(t[0])
  {
    if segs[1..] != [] {
      assert TailText(segs[1..])[0] == ':';
    }
  }

  /** The sub-accounts after the first, each written after a colon, are read back in
      order. */
  lemma {:induction false} AccountTailRoundTrip(s: State, segs: seq<string>, rest: seq<char>)
    requires AllNames(segs)
    requires AccountEnd(rest) && s.text == TailText(segs) + rest
    ensures var r := AccountTail(s);
      r.Ok? && r.value == segs && r.rest.text == rest
    decreases |segs|
  {
    if segs == [] {
      assert s.text == rest;
    } else {
      SplitFirst(segs);
      TailTextFirst(segs, rest);
      ColonSubAccountRoundTrip(s, segs[0], TailText(segs[1..]) + rest);
      AccountTailRoundTrip(ColonSubAccount(s).rest, segs[1..], rest);
      AccountTailStep(s);
    }
  }

  /** How `ParseAccount` puts the first name in front of the others. */
  lemma AccountStep(s: State)
    requires ParseSubAccount(s).Ok? && AccountTail(ParseSubAccount(s).rest).Ok?
    ensures var p := ParseSubAccount(s);
      var q := AccountTail(p.rest);
      ParseAccount(s).Ok? && ParseAccount(s).value == [p.value] + q.value && ParseAccount(s).rest == q.rest
  {
  }

  /** The text of an account, regrouped around its first name. */
  lemma AccountTextFirst(segs: seq<string>, rest: seq<char>)
    requires segs != [] && AllNames(segs[1..])
    ensures AccountText(segs) + rest == segs[0] + (TailText(segs[1..]) + rest)
    ensures var t := TailText(segs[1..]) + rest; AccountEnd(rest) ==> t == [] || !IsAlphaNum(t[0])
  {
    if segs[1..] != [] {
      assert TailText(segs[1..])[0] == ':';
    }
  }

  /** Every account is read back from its colon-separated text, whatever follows it
      that cannot continue an account. */
  lemma AccountRoundTrip(s: State, segs: seq<string>, rest: seq<char>)
    requires segs != [] && AllNames(segs)
    requires AccountEnd(rest) && s.text == AccountText(segs) + rest
    ensures var r := ParseAccount(s);
      r.Ok? && r.value == segs && r.rest.text == rest
  {
    SplitFirst(segs);
    AccountTextFirst(segs, rest);
    SubAccountRoundTrip(s, segs[0], TailText(segs[1..]) + rest);
    AccountTailRoundTrip(ParseSubAccount(s).rest, segs[1..], rest);
    AccountStep(s);
  }
}
