/** The cursor, the reply type and the combinator semantics that every production of
    the ledger grammar is built from: sequencing, ordered choice, optional parsers and
    repetition over single characters.

    Like the combinator library the grammar is written in, a reply remembers whether
    the parser consumed input before it finished. That tag decides backtracking: a
    choice tries its second alternative, and an optional parser yields `None`, only
    after a failure that consumed nothing. */
module Parsing {

  datatype Option<+T> = None | Some(value: T)

  /** The input not yet consumed and the 1-based number of the line it starts on. */
  datatype State = State(text: seq<char>, line: nat)

  /** The state a parse of a whole input starts from: nothing consumed, line 1. */
  function Start(input: seq<char>): State {
    State(input, 1)
  }

  /** Whether a parser consumed input before it succeeded or failed. */
  datatype Tag = Consumed | Empty

  /** The outcome of one production applied to a state.
      - `Ok`: the value, whether input was consumed, and the state after it.
      - `Fail`: a syntax failure; `left` is the number of characters that were still
        unconsumed where the failure was detected, so `|input| - left` is its offset.
      - `Abort`: the program stops (a panic in the host language); no combinator
        recovers from it. */
  datatype Reply<+T> =
    | Ok(value: T, tag: Tag, rest: State)
    | Fail(tag: Tag, left: nat)
    | Abort(left: nat)

  /** Number of line feeds in `t`: each one advances the line counter. */
  function Newlines(t: seq<char>): nat {
    if t == [] then 0 else (if t[0] == '\n' then 1 else 0) + Newlines(t[1..])
  }

  /** The characters consumed on the way from `s` to `t`. */
  function Taken(s: State, t: State): seq<char>
    requires |t.text| <= |s.text|
  {
    s.text[..|s.text| - |t.text|]
  }

  /** `t` is what is left of `s` after consuming a prefix: consumed ++ rest == input,
      and the line counter advanced by the line feeds consumed. */
  ghost predicate Reaches(s: State, t: State) {
    && |t.text| <= |s.text|
    && s.text == Taken(s, t) + t.text
    && t.line == s.line + Newlines(Taken(s, t))
  }

  /** The invariant every production keeps, stated once: a success without consumption
      leaves the state as it was, a success with consumption moves to a proper suffix,
      and a failure is reported at the start (empty) or strictly inside (consumed). */
  ghost predicate Sound<T>(s: State, r: Reply<T>) {
    match r
    case Ok(_, Empty, t) => t == s
    case Ok(_, Consumed, t) => |t.text| < |s.text| && Reaches(s, t)
    case Fail(Empty, left) => left == |s.text|
    case Fail(Consumed, left) => left < |s.text|
    case Abort(left) => left <= |s.text|
  }

  lemma {:induction false} NewlinesAppend(a: seq<char>, b: seq<char>)
    ensures Newlines(a + b) == Newlines(a) + Newlines(b)
  {
    if a != [] {
      assert (a + b)[0] == a[0] && (a + b)[1..] == a[1..] + b;
      NewlinesAppend(a[1..], b);
      calc {
        Newlines(a + b);
        (if a[0] == '\n' then 1 else 0) + Newlines(a[1..] + b);
        (if a[0] == '\n' then 1 else 0) + Newlines(a[1..]) + Newlines(b);
        Newlines(a) + Newlines(b);
      }
    } else {
      assert a + b == b;
    }
  }

  lemma ReachesTrans(s: State, m: State, t: State)
    requires Reaches(s, m) && Reaches(m, t)
    ensures Reaches(s, t)
    ensures Taken(s, t) == Taken(s, m) + Taken(m, t)
  {
    var x, y := Taken(s, m), Taken(m, t);
    assert s.text == (x + y) + t.text;
    assert Taken(s, t) == x + y;
    NewlinesAppend(x, y);
  }

  /** The state after consuming one character. */
  function Next(s: State): (t: State)
    requires s.text != []
    ensures Reaches(s, t) && Taken(s, t) == [s.text[0]] && t.text == s.text[1..]
  {
    assert s.text == [s.text[0]] + s.text[1..];
    State(s.text[1..], s.line + if s.text[0] == '\n' then 1 else 0)
  }

  /** `satisfy(p)`: one character for which `p` holds; an empty failure otherwise. */
  function Satisfy(s: State, p: char -> bool): (r: Reply<char>)
    ensures Sound(s, r) && !r.Abort?
    ensures r.Ok? <==> s.text != [] && p(s.text[0])
    ensures r.Ok? ==> r.value == s.text[0] && r.tag == Consumed && r.rest == Next(s)
    ensures r.Fail? ==> r.tag == Empty
  {
    if s.text != [] && p(s.text[0]) then Ok(s.text[0], Consumed, Next(s))
    else Fail(Empty, |s.text|)
  }

  /** `char(c)`: exactly the character `c`. */
  function Char(s: State, c: char): (r: Reply<char>)
    ensures Sound(s, r) && !r.Abort?
    ensures r.Ok? <==> s.text != [] && s.text[0] == c
    ensures r.Ok? ==> r.value == c && r.tag == Consumed && r.rest == Next(s)
    ensures r.Fail? ==> r.tag == Empty
  {
    Satisfy(s, x => x == c)
  }

  /** The state after consuming the first `n` characters. */
  function Advance(s: State, n: nat): (t: State)
    requires n <= |s.text|
    ensures Reaches(s, t) && t.text == s.text[n..] && Taken(s, t) == s.text[..n]
  {
    assert s.text == s.text[..n] + s.text[n..];
    State(s.text[n..], s.line + Newlines(s.text[..n]))
  }

  /** `many(satisfy(p))`: the longest prefix of characters satisfying `p`. It never
      fails, and it stops at the first character that does not match. */
  function Many(s: State, p: char -> bool): (r: Reply<seq<char>>)
    ensures r.Ok? && Sound(s, r)
    ensures |r.rest.text| <= |s.text| && r.value == Taken(s, r.rest)
    ensures |r.value| == Run(s.text, p) && r.rest.text == s.text[|r.value|..]
    ensures forall i :: 0 <= i < |r.value| ==> p(r.value[i])
    ensures r.rest.text == [] || !p(r.rest.text[0])
  {
    var n := Run(s.text, p);
    if n == 0 then Ok([], Empty, s) else Ok(s.text[..n], Consumed, Advance(s, n))
  }

  /** `many1(satisfy(p))`: one character satisfying `p`, then `many`; the same run as
      `many`, which here is not empty. */
  function Many1(s: State, p: char -> bool): (r: Reply<seq<char>>)
    ensures Sound(s, r) && !r.Abort?
    ensures r.Ok? <==> s.text != [] && p(s.text[0])
    ensures r.Fail? ==> r.tag == Empty
    ensures r.Ok? ==> r.tag == Consumed && |r.rest.text| <= |s.text| && r.value == Taken(s, r.rest)
    ensures r.Ok? ==> |r.value| == Run(s.text, p) && r.rest.text == s.text[|r.value|..]
    ensures r.Ok? ==> r.value != [] && forall i :: 0 <= i < |r.value| ==> p(r.value[i])
    ensures r.Ok? ==> r.rest.text == [] || !p(r.rest.text[0])
  {
    if s.text != [] && p(s.text[0]) then Many(s, p) else Fail(Empty, |s.text|)
  }

  /** The same reply, marked as having consumed input. */
  function Commit<T>(r: Reply<T>): Reply<T> {
    match r
    case Ok(v, _, t) => Ok(v, Consumed, t)
    case Fail(_, left) => Fail(Consumed, left)
    case Abort(left) => Abort(left)
  }

  /** Sequencing: `r` is the reply of the parsers that run from `mid`, which the earlier
      parsers reached from `s` with tag `first`. Once anything has been consumed every
      later outcome, success or failure, counts as consumed. */
  function Seq<T>(first: Tag, s: State, mid: State, r: Reply<T>): (q: Reply<T>)
    requires Sound(s, Ok((), first, mid)) && Sound(mid, r)
    ensures Sound(s, q)
    ensures q == if first == Consumed then Commit(r) else r
  {
    if first == Empty then r
    else
      match r
      case Ok(v, tag, t) =>
        if tag == Consumed then ReachesTrans(s, mid, t); Ok(v, Consumed, t)
        else Ok(v, Consumed, t)
      case Fail(_, left) => Fail(Consumed, left)
      case Abort(left) => Abort(left)
  }

  /** `p.or(q)` at state `s`: the second alternative runs from the same state, and only
      when the first failed without consuming input. */
  function Or<T>(s: State, first: Reply<T>, second: Reply<T>): (r: Reply<T>)
    requires Sound(s, first) && Sound(s, second)
    ensures Sound(s, r)
    ensures r == if first.Fail? && first.tag == Empty then second else first
  {
    if first.Fail? && first.tag == Empty then second else first
  }

  /** `optional(p)` at state `s`: `None`, consuming nothing, exactly when `p` failed
      without consuming input. */
  function Optional<T>(s: State, r: Reply<T>): (q: Reply<Option<T>>)
    requires Sound(s, r)
    ensures Sound(s, q)
    ensures q.Ok? <==> r.Ok? || (r.Fail? && r.tag == Empty)
    ensures r.Ok? ==> q == Ok(Some(r.value), r.tag, r.rest)
    ensures r.Fail? && r.tag == Empty ==> q == Ok(None, Empty, s)
    ensures r.Fail? && r.tag == Consumed ==> q == Fail(Consumed, r.left)
    ensures r.Abort? ==> q == Abort(r.left)
  {
    match r
    case Ok(v, tag, t) => Ok(Some(v), tag, t)
    case Fail(Empty, _) => Ok(None, Empty, s)
    case Fail(Consumed, left) => Fail(Consumed, left)
    case Abort(left) => Abort(left)
  }

  /** `p.map(f)` at state `s`: the same reply with its value transformed. */
  function Map<A, B>(s: State, r: Reply<A>, f: A -> B): (q: Reply<B>)
    requires Sound(s, r)
    ensures Sound(s, q)
    ensures q.Ok? == r.Ok? && q.Fail? == r.Fail? && q.Abort? == r.Abort?
    ensures r.Ok? ==> q == Ok(f(r.value), r.tag, r.rest)
    ensures r.Fail? ==> q == Fail(r.tag, r.left)
    ensures r.Abort? ==> q == Abort(r.left)
  {
    match r
    case Ok(v, tag, t) => Ok(f(v), tag, t)
    case Fail(tag, left) => Fail(tag, left)
    case Abort(left) => Abort(left)
  }

  /** The first character of `t` and the `n` characters after it. */
  lemma FirstThenPrefix(t: seq<char>, n: nat)
    requires n < |t|
    ensures t[..n + 1] == [t[0]] + t[1..][..n] && t[n + 1..] == t[1..][n..]
  {
  }

  /** A non-empty list is its first element in front of the others. */
  lemma SplitFirst<T>(xs: seq<T>)
    requires xs != []
    ensures [xs[0]] + xs[1..] == xs
  {
  }

  /** Every character of `t` satisfies `p`. */
  predicate AllOf(t: seq<char>, p: char -> bool) {
    forall i :: 0 <= i < |t| ==> p(t[i])
  }

  /** Length of the longest prefix of `t` whose characters all satisfy `p`. */
  function Run(t: seq<char>, p: char -> bool): (n: nat)
    ensures n <= |t|
    ensures forall i :: 0 <= i < n ==> p(t[i])
    ensures n == |t| || !p(t[n])
  {
    if t != [] && p(t[0]) then 1 + Run(t[1..], p) else 0
  }

  /** The run itself is made of characters satisfying `p`. */
  lemma RunPrefix(t: seq<char>, p: char -> bool)
    ensures AllOf(t[..Run(t, p)], p)
  {
  }

  /** A run is determined by where it stops. */
  lemma {:induction false} RunExact(a: seq<char>, t: seq<char>, p: char -> bool)
    requires forall i :: 0 <= i < |a| ==> p(a[i])
    requires t == [] || !p(t[0])
    ensures Run(a + t, p) == |a|
  {
    if a == [] {
      assert a + t == t;
    } else {
      assert (a + t)[0] == a[0] && (a + t)[1..] == a[1..] + t;
      RunExact(a[1..], t, p);
    }
  }

  /** `many(satisfy(p))` consumes exactly the run of `p` characters. */
  lemma ManyIsRun(s: State, p: char -> bool)
    ensures Many(s, p).value == s.text[..Run(s.text, p)]
    ensures Many(s, p).rest.text == s.text[Run(s.text, p)..]
  {
    var r := Many(s, p);
    assert |s.text| - |r.rest.text| == Run(s.text, p);
  }
}
