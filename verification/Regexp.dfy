/**
  The part of Go's regular expressions that globs compile to: their text, how
  it is read (a stack of open groups, as Go's parser does it), and what they
  match.
 */
module Regexp {
  import opened Wrappers

  datatype Re =
    | Never
    | Empty
    | Char(c: char)
    | AnyChar               // any but a newline
    | NotSlash
    | Begin
    | End
    | Star(r: Re)
    | Opt(r: Re)
    | Cat(a: Re, b: Re)
    | Or(a: Re, b: Re)

  datatype Token = Hat | Dollar | Dot | Stars | Quest | Slashless | Open | Close | Bar | Lit(c: char)

  /** The characters a literal needs a backslash for. */
  predicate Special(c: char) {
    c in "\\.+*?()|[]{}^$"
  }

  function Quote(c: char): string {
    if Special(c) then ['\\', c] else [c]
  }

  function Cons(t: Token, rest: Option<seq<Token>>): Option<seq<Token>> {
    match rest
    case Some(ts) => Some([t] + ts)
    case None => None
  }

  /** The tokens of an expression's text; None if it is not one, or is beyond what globs need. */
  function Lex(s: string): Option<seq<Token>> {
    if s == "" then Some([])
    else
      var c := s[0];
      if c == '\\' then if |s| >= 2 && Special(s[1]) then Cons(Lit(s[1]), Lex(s[2..])) else None
      else if "(?:" <= s then Cons(Open, Lex(s[3..]))
      else if "[^/]" <= s then Cons(Slashless, Lex(s[4..]))
      else if c == '^' then Cons(Hat, Lex(s[1..]))
      else if c == '$' then Cons(Dollar, Lex(s[1..]))
      else if c == '.' then Cons(Dot, Lex(s[1..]))
      else if c == '*' then Cons(Stars, Lex(s[1..]))
      else if c == '?' then Cons(Quest, Lex(s[1..]))
      else if c == ')' then Cons(Close, Lex(s[1..]))
      else if c == '|' then Cons(Bar, Lex(s[1..]))
      else if Special(c) then None
      else Cons(Lit(c), Lex(s[1..]))
  }

  /** A group being read: its finished alternatives, and the one it is in. */
  datatype Frame = Frame(alts: Re, cur: Re)

  function Push(st: seq<Frame>, r: Re): seq<Frame>
    requires st != []
  {
    var top := st[|st| - 1];
    st[..|st| - 1] + [top.(cur := Cat(top.cur, r))]
  }

  /** A repetition applies to what was read last, once. */
  function Repeat(st: seq<Frame>, star: bool): Option<seq<Frame>>
    requires st != []
  {
    var top := st[|st| - 1];
    if !top.cur.Cat? || top.cur.b.Star? || top.cur.b.Opt? then None
    else
      var last := if star then Star(top.cur.b) else Opt(top.cur.b);
      Some(st[..|st| - 1] + [top.(cur := Cat(top.cur.a, last))])
  }

  function Step(st: seq<Frame>, t: Token): (r: Option<seq<Frame>>)
    requires st != []
    ensures r.Some? ==> r.value != []
  {
    var n := |st| - 1;
    match t
    case Hat => Some(Push(st, Begin))
    case Dollar => Some(Push(st, End))
    case Dot => Some(Push(st, AnyChar))
    case Slashless => Some(Push(st, NotSlash))
    case Lit(c) => Some(Push(st, Char(c)))
    case Stars => Repeat(st, true)
    case Quest => Repeat(st, false)
    case Open => Some(st + [Frame(Never, Empty)])
    case Close => if n == 0 then None else Some(Push(st[..n], Or(st[n].alts, st[n].cur)))
    case Bar => Some(st[..n] + [Frame(Or(st[n].alts, st[n].cur), Empty)])
  }

  function Run(st: seq<Frame>, ts: seq<Token>): (r: Option<seq<Frame>>)
    requires st != []
    ensures r.Some? ==> r.value != []
    decreases |ts|
  {
    if ts == [] then Some(st)
    else match Step(st, ts[0])
         case Some(st') => Run(st', ts[1..])
         case None => None
  }

  const Fresh: seq<Frame> := [Frame(Never, Empty)]

  /** Compiles an expression's text: every group has to be closed. */
  function Compile(s: string): Option<Re> {
    match Lex(s)
    case None => None
    case Some(ts) =>
      match Run(Fresh, ts)
      case None => None
      case Some(st) => if |st| == 1 then Some(Or(st[0].alts, st[0].cur)) else None
  }

  /** A position from i to j. */
  predicate Between(i: int, k: int, j: int) { i <= k <= j }

  /** r matches s from position i to j. */
  ghost predicate Matches(r: Re, s: string, i: int, j: int)
    requires 0 <= i <= j <= |s|
    decreases r, j - i
  {
    match r
    case Never => false
    case Empty => i == j
    case Char(c) => j == i + 1 && s[i] == c
    case AnyChar => j == i + 1 && s[i] != '\n'
    case NotSlash => j == i + 1 && s[i] != '/'
    case Begin => i == j == 0
    case End => i == j == |s|
    case Star(q) => i == j || exists k :: i < k <= j && Matches(q, s, i, k) && Matches(r, s, k, j)
    case Opt(q) => i == j || Matches(q, s, i, j)
    case Cat(a, b) => exists k :: Between(i, k, j) && Matches(a, s, i, k) && Matches(b, s, k, j)
    case Or(a, b) => Matches(a, s, i, j) || Matches(b, s, i, j)
  }

  /** The expression matches somewhere in the text. */
  ghost predicate MatchString(r: Re, s: string) {
    exists i, j :: 0 <= i <= j <= |s| && Matches(r, s, i, j)
  }

  // --- reading ------------------------------------------------------------------

  lemma {:induction false} RunConcat(st: seq<Frame>, a: seq<Token>, b: seq<Token>)
    requires st != []
    ensures Run(st, a + b) == match Run(st, a) case Some(mid) => Run(mid, b) case None => None
    decreases |a|
  {
    if a == [] {
      assert a + b == b;
    } else {
      assert (a + b)[0] == a[0] && (a + b)[1..] == a[1..] + b;
      match Step(st, a[0])
      case Some(mid) => RunConcat(mid, a[1..], b);
      case None =>
    }
  }

  lemma RunOne(st: seq<Frame>, t: Token)
    requires st != []
    ensures Run(st, [t]) == Step(st, t)
  {
    assert [t][1..] == [];
  }

  lemma {:induction false} StarOfOne(q: Re, s: string, i: int, j: int)
    requires 0 <= i <= j <= |s| && (q == AnyChar || q == NotSlash)
    ensures Matches(Star(q), s, i, j) <==> forall k :: i <= k < j ==> s[k] != (if q == AnyChar then '\n' else '/')
    decreases j - i
  {
    if i < j {
      StarOfOne(q, s, i + 1, j);
      StarSteps(q, s, i, j);
      assert Matches(q, s, i, i + 1) <==> s[i] != (if q == AnyChar then '\n' else '/');
    }
  }

  lemma StarSteps(q: Re, s: string, i: int, j: int)
    requires 0 <= i < j <= |s| && (q == AnyChar || q == NotSlash)
    ensures Matches(Star(q), s, i, j) <==> Matches(q, s, i, i + 1) && Matches(Star(q), s, i + 1, j)
  {
    var r := Star(q);
    assert Matches(r, s, i, j) <==> exists k :: i < k <= j && Matches(q, s, i, k) && Matches(r, s, k, j);
    assert forall k :: i < k <= j && Matches(q, s, i, k) ==> k == i + 1;
  }
}
