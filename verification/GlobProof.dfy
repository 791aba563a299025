/**
  What a glob means, independently of the expression written for it: each brace
  stands for one of its alternatives, and a choice of alternatives is a row of
  parts each matching a piece of the path. The compiler agrees with it.
 */
module GlobProof {
  import opened Wrappers
  import opened Regexp
  import opened Glob

  // --- meaning -------------------------------------------------------------------

  /** A glob with its braces matched up: a row of parts and choices. */
  datatype Row = Nil | Then(head: Item, tail: Row)
  datatype Item = Leaf(t: Part) | Choice(alts: Alts)
  datatype Alts = Only(row: Row) | More(row: Row, rest: Alts)

  predicate IsLeaf(t: Part) { t.One? || t.Seg? || t.Span? || t.Dirs? || t.Plain? }

  predicate Good(row: Row) { row.Nil? || (GoodItem(row.head) && Good(row.tail)) }

  predicate GoodItem(item: Item) { if item.Leaf? then IsLeaf(item.t) else GoodAlts(item.alts) }

  predicate GoodAlts(alts: Alts) { Good(alts.row) && (alts.More? ==> GoodAlts(alts.rest)) }

  /** The parts a row is written with. */
  function Flat(row: Row): seq<Part> {
    match row
    case Nil => []
    case Then(Leaf(t), tail) => [t] + Flat(tail)
    case Then(Choice(alts), tail) => [Brace] + FlatAlts(alts) + [EndBrace] + Flat(tail)
  }

  function FlatAlts(alts: Alts): seq<Part> {
    match alts
    case Only(row) => Flat(row)
    case More(row, rest) => Flat(row) + [Comma] + FlatAlts(rest)
  }

  /** w is what one choice of alternatives makes of a row. */
  ghost predicate Chooses(row: Row, w: seq<Part>)
    decreases row
  {
    match row
    case Nil => w == []
    case Then(Leaf(t), tail) => w != [] && w[0] == t && Chooses(tail, w[1..])
    case Then(Choice(alts), tail) =>
      exists k :: 0 <= k <= |w| && ChoosesOne(alts, w[..k]) && Chooses(tail, w[k..])
  }

  ghost predicate ChoosesOne(alts: Alts, w: seq<Part>)
    decreases alts
  {
    Chooses(alts.row, w) || (alts.More? && ChoosesOne(alts.rest, w))
  }

  /**
    What one part matches: `?` and `*` stay within a name, `**` does not, `**`
    with its slash is nothing or whole directories.
   */
  predicate PartMatches(t: Part, s: string, i: int, j: int)
    requires 0 <= i <= j <= |s|
  {
    match t
    case One => j == i + 1 && s[i] != '/'
    case Seg => forall k :: i <= k < j ==> s[k] != '/'
    case Span => true
    case Dirs => i == j || s[j - 1] == '/'
    case Plain(c) => j == i + 1 && s[i] == c
    case _ => false
  }

  /** The parts match consecutive pieces of s, from position i to j. */
  ghost predicate WordMatches(w: seq<Part>, s: string, i: int, j: int)
    requires 0 <= i <= j <= |s|
    decreases |w|
  {
    if w == [] then i == j
    else exists k :: Between(i, k, j) && PartMatches(w[0], s, i, k) && WordMatches(w[1..], s, k, j)
  }

  /** w is a choice of the row that matches s from position i on. */
  ghost predicate ChoiceMatches(row: Row, w: seq<Part>, s: string, i: nat) {
    i <= |s| && Chooses(row, w) && WordMatches(w, s, i, |s|)
  }

  // --- the same by pieces ----------------------------------------------------------

  ghost predicate RowMatches(row: Row, s: string, i: int, j: int)
    requires 0 <= i <= j <= |s|
    decreases row
  {
    match row
    case Nil => i == j
    case Then(item, tail) => exists k :: Between(i, k, j) && ItemMatches(item, s, i, k) && RowMatches(tail, s, k, j)
  }

  ghost predicate ItemMatches(item: Item, s: string, i: int, j: int)
    requires 0 <= i <= j <= |s|
    decreases item
  {
    match item
    case Leaf(t) => PartMatches(t, s, i, j)
    case Choice(alts) => AltsMatch(alts, s, i, j)
  }

  ghost predicate AltsMatch(alts: Alts, s: string, i: int, j: int)
    requires 0 <= i <= j <= |s|
    decreases alts
  {
    RowMatches(alts.row, s, i, j) || (alts.More? && AltsMatch(alts.rest, s, i, j))
  }

  lemma {:induction false} WordConcat(a: seq<Part>, b: seq<Part>, s: string, i: int, j: int)
    requires 0 <= i <= j <= |s|
    ensures WordMatches(a + b, s, i, j) <==>
        exists k :: Between(i, k, j) && WordMatches(a, s, i, k) && WordMatches(b, s, k, j)
    decreases |a|
  {
    if a == [] {
      assert a + b == b;
      assert WordMatches(b, s, i, j) ==> WordMatches(a, s, i, i) && WordMatches(b, s, i, j);
    } else {
      assert (a + b)[0] == a[0] && (a + b)[1..] == a[1..] + b;
      forall m | i <= m <= j
        ensures WordMatches(a[1..] + b, s, m, j) <==>
            exists k :: Between(m, k, j) && WordMatches(a[1..], s, m, k) && WordMatches(b, s, k, j)
      {
        WordConcat(a[1..], b, s, m, j);
      }
      if WordMatches(a + b, s, i, j) {
        var m :| Between(i, m, j) && PartMatches(a[0], s, i, m) && WordMatches(a[1..] + b, s, m, j);
        var k :| Between(m, k, j) && WordMatches(a[1..], s, m, k) && WordMatches(b, s, k, j);
        assert WordMatches(a, s, i, k);
      }
      if k :| Between(i, k, j) && WordMatches(a, s, i, k) && WordMatches(b, s, k, j) {
        var m :| Between(i, m, k) && PartMatches(a[0], s, i, m) && WordMatches(a[1..], s, m, k);
        assert WordMatches(a[1..] + b, s, m, j);
      }
    }
  }

  // A choice that matches is found piece by piece.
  lemma {:induction false} RowOfWord(row: Row, w: seq<Part>, s: string, i: int, j: int)
    requires 0 <= i <= j <= |s| && Chooses(row, w) && WordMatches(w, s, i, j)
    ensures RowMatches(row, s, i, j)
    decreases row
  {
    match row
    case Nil =>
    case Then(Leaf(t), tail) =>
      var k :| Between(i, k, j) && PartMatches(w[0], s, i, k) && WordMatches(w[1..], s, k, j);
      RowOfWord(tail, w[1..], s, k, j);
      assert ItemMatches(row.head, s, i, k);
    case Then(Choice(alts), tail) =>
      var m :| 0 <= m <= |w| && ChoosesOne(alts, w[..m]) && Chooses(tail, w[m..]);
      assert w == w[..m] + w[m..];
      WordConcat(w[..m], w[m..], s, i, j);
      var k :| Between(i, k, j) && WordMatches(w[..m], s, i, k) && WordMatches(w[m..], s, k, j);
      AltsOfWord(alts, w[..m], s, i, k);
      RowOfWord(tail, w[m..], s, k, j);
      assert ItemMatches(row.head, s, i, k);
  }

  lemma {:induction false} AltsOfWord(alts: Alts, w: seq<Part>, s: string, i: int, j: int)
    requires 0 <= i <= j <= |s| && ChoosesOne(alts, w) && WordMatches(w, s, i, j)
    ensures AltsMatch(alts, s, i, j)
    decreases alts
  {
    if Chooses(alts.row, w) {
      RowOfWord(alts.row, w, s, i, j);
    } else {
      AltsOfWord(alts.rest, w, s, i, j);
    }
  }

  // Pieces that match make a choice that does.
  lemma {:induction false} WordOfRow(row: Row, s: string, i: int, j: int) returns (w: seq<Part>)
    requires 0 <= i <= j <= |s| && RowMatches(row, s, i, j)
    ensures Chooses(row, w) && WordMatches(w, s, i, j)
    decreases row
  {
    match row
    case Nil => w := [];
    case Then(Leaf(t), tail) =>
      var k :| Between(i, k, j) && ItemMatches(row.head, s, i, k) && RowMatches(tail, s, k, j);
      var v := WordOfRow(tail, s, k, j);
      w := [t] + v;
      assert w[0] == t && w[1..] == v;
      assert PartMatches(w[0], s, i, k) && WordMatches(w[1..], s, k, j);
    case Then(Choice(alts), tail) =>
      var k :| Between(i, k, j) && ItemMatches(row.head, s, i, k) && RowMatches(tail, s, k, j);
      var u := WordOfAlts(alts, s, i, k);
      var v := WordOfRow(tail, s, k, j);
      w := u + v;
      assert w[..|u|] == u && w[|u|..] == v;
      assert ChoosesOne(alts, w[..|u|]) && Chooses(tail, w[|u|..]);
      WordConcat(u, v, s, i, j);
  }

  lemma {:induction false} WordOfAlts(alts: Alts, s: string, i: int, j: int) returns (w: seq<Part>)
    requires 0 <= i <= j <= |s| && AltsMatch(alts, s, i, j)
    ensures ChoosesOne(alts, w) && WordMatches(w, s, i, j)
    decreases alts
  {
    if RowMatches(alts.row, s, i, j) {
      w := WordOfRow(alts.row, s, i, j);
    } else {
      w := WordOfAlts(alts.rest, s, i, j);
    }
  }

  // --- the expression a row compiles to -------------------------------------------------

  function LeafRe(t: Part): Re
    requires IsLeaf(t)
  {
    match t
    case One => NotSlash
    case Seg => Star(NotSlash)
    case Span => Star(AnyChar)
    case Dirs => Opt(Or(Never, Cat(Cat(Empty, Star(AnyChar)), Char('/'))))
    case Plain(c) => Char(c)
  }

  function RowRe(cur: Re, row: Row): Re
    requires Good(row)
    decreases row
  {
    match row
    case Nil => cur
    case Then(item, tail) => RowRe(Cat(cur, ItemRe(item)), tail)
  }

  function ItemRe(item: Item): Re
    requires GoodItem(item)
    decreases item
  {
    match item
    case Leaf(t) => LeafRe(t)
    case Choice(alts) => AltsRe(Never, alts)
  }

  function AltsRe(acc: Re, alts: Alts): Re
    requires GoodAlts(alts)
    decreases alts
  {
    var r := Or(acc, RowRe(Empty, alts.row));
    if alts.Only? then r else AltsRe(r, alts.rest)
  }

  // `.` matches anything but a newline, and a path has none.
  lemma LeafMeans(t: Part, s: string, i: int, j: int)
    requires IsLeaf(t) && 0 <= i <= j <= |s| && '\n' !in s
    ensures Matches(LeafRe(t), s, i, j) <==> PartMatches(t, s, i, j)
  {
    match t
    case Seg => StarOfOne(NotSlash, s, i, j);
    case Span => StarOfOne(AnyChar, s, i, j);
    case Dirs => DirsMean(s, i, j);
    case _ =>
  }

  lemma DirsMean(s: string, i: int, j: int)
    requires 0 <= i <= j <= |s| && '\n' !in s
    ensures Matches(LeafRe(Dirs), s, i, j) <==> i == j || s[j - 1] == '/'
  {
    var body := Cat(Cat(Empty, Star(AnyChar)), Char('/'));
    var before := Cat(Empty, Star(AnyChar));
    if i < j {
      StarOfOne(AnyChar, s, i, j - 1);
      assert Matches(Empty, s, i, i) && Matches(Star(AnyChar), s, i, j - 1);
      assert Matches(before, s, i, j - 1);
      assert Matches(Char('/'), s, j - 1, j) <==> s[j - 1] == '/';
      assert forall k :: i <= k <= j && Matches(Char('/'), s, k, j) ==> k == j - 1;
    }
    assert Matches(body, s, i, j) <==> i < j && s[j - 1] == '/';
    assert Matches(Or(Never, body), s, i, j) <==> Matches(body, s, i, j);
  }

  lemma {:induction false} RowMeans(cur: Re, row: Row, s: string, i: int, j: int)
    requires Good(row) && 0 <= i <= j <= |s| && '\n' !in s
    ensures Matches(RowRe(cur, row), s, i, j) <==>
        exists k :: Between(i, k, j) && Matches(cur, s, i, k) && RowMatches(row, s, k, j)
    decreases row, 1
  {
    match row
    case Nil => assert Matches(cur, s, i, j) ==> RowMatches(row, s, j, j);
    case Then(item, tail) =>
      var r := ItemRe(item);
      RowMeans(Cat(cur, r), tail, s, i, j);
      forall a, b | i <= a <= b <= j ensures Matches(r, s, a, b) <==> ItemMatches(item, s, a, b) {
        ItemMeans(item, s, a, b);
      }
      Regroup(cur, r, item, tail, s, i, j);
  }

  lemma CatMeans(a: Re, b: Re, s: string, i: int, j: int)
    requires 0 <= i <= j <= |s|
    ensures Matches(Cat(a, b), s, i, j) <==> exists k :: Between(i, k, j) && Matches(a, s, i, k) && Matches(b, s, k, j)
  {
  }

  lemma ThenMeans(item: Item, tail: Row, s: string, i: int, j: int)
    requires 0 <= i <= j <= |s|
    ensures RowMatches(Then(item, tail), s, i, j)
            <==> exists k :: Between(i, k, j) && ItemMatches(item, s, i, k) && RowMatches(tail, s, k, j)
  {
  }

  // What follows cur, grouped with it or with the rest of the row.
  lemma Regroup(cur: Re, r: Re, item: Item, tail: Row, s: string, i: int, j: int)
    requires 0 <= i <= j <= |s|
    requires forall a, b :: i <= a <= b <= j ==> (Matches(r, s, a, b) <==> ItemMatches(item, s, a, b))
    ensures (exists k :: Between(i, k, j) && Matches(Cat(cur, r), s, i, k) && RowMatches(tail, s, k, j))
            <==> exists k :: Between(i, k, j) && Matches(cur, s, i, k) && RowMatches(Then(item, tail), s, k, j)
  {
    hide Matches, RowMatches, ItemMatches;
    if k :| Between(i, k, j) && Matches(Cat(cur, r), s, i, k) && RowMatches(tail, s, k, j) {
      var m := RegroupRight(cur, r, item, tail, s, i, k, j);
    }
    if m :| Between(i, m, j) && Matches(cur, s, i, m) && RowMatches(Then(item, tail), s, m, j) {
      var k := RegroupLeft(cur, r, item, tail, s, i, m, j);
    }
  }

  lemma RegroupRight(cur: Re, r: Re, item: Item, tail: Row, s: string, i: int, k: int, j: int) returns (m: int)
    requires 0 <= i <= k <= j <= |s|
    requires forall a, b :: i <= a <= b <= j ==> (Matches(r, s, a, b) <==> ItemMatches(item, s, a, b))
    requires Matches(Cat(cur, r), s, i, k) && RowMatches(tail, s, k, j)
    ensures Between(i, m, j) && Matches(cur, s, i, m) && RowMatches(Then(item, tail), s, m, j)
  {
    CatMeans(cur, r, s, i, k);
    m :| Between(i, m, k) && Matches(cur, s, i, m) && Matches(r, s, m, k);
    ThenMeans(item, tail, s, m, j);
    hide Matches, RowMatches, ItemMatches;
    assert Between(m, k, j) && ItemMatches(item, s, m, k);
  }

  lemma RegroupLeft(cur: Re, r: Re, item: Item, tail: Row, s: string, i: int, m: int, j: int) returns (k: int)
    requires 0 <= i <= m <= j <= |s|
    requires forall a, b :: i <= a <= b <= j ==> (Matches(r, s, a, b) <==> ItemMatches(item, s, a, b))
    requires Matches(cur, s, i, m) && RowMatches(Then(item, tail), s, m, j)
    ensures Between(i, k, j) && Matches(Cat(cur, r), s, i, k) && RowMatches(tail, s, k, j)
  {
    ThenMeans(item, tail, s, m, j);
    k :| Between(m, k, j) && ItemMatches(item, s, m, k) && RowMatches(tail, s, k, j);
    CatMeans(cur, r, s, i, k);
    hide Matches, RowMatches, ItemMatches;
    assert Between(i, m, k) && Matches(r, s, m, k);
  }

  lemma {:induction false} ItemMeans(item: Item, s: string, i: int, j: int)
    requires GoodItem(item) && 0 <= i <= j <= |s| && '\n' !in s
    ensures Matches(ItemRe(item), s, i, j) <==> ItemMatches(item, s, i, j)
    decreases item, 0
  {
    match item
    case Leaf(t) => LeafMeans(t, s, i, j);
    case Choice(alts) => AltsMean(Never, alts, s, i, j);
  }

  lemma {:induction false} AltsMean(acc: Re, alts: Alts, s: string, i: int, j: int)
    requires GoodAlts(alts) && 0 <= i <= j <= |s| && '\n' !in s
    ensures Matches(AltsRe(acc, alts), s, i, j) <==> Matches(acc, s, i, j) || AltsMatch(alts, s, i, j)
    decreases alts, 0
  {
    RowMeans(Empty, alts.row, s, i, j);
    assert Matches(RowRe(Empty, alts.row), s, i, j) <==> RowMatches(alts.row, s, i, j) by {
      assert Matches(Empty, s, i, i);
    }
    var r := Or(acc, RowRe(Empty, alts.row));
    assert Matches(r, s, i, j) <==> Matches(acc, s, i, j) || RowMatches(alts.row, s, i, j);
    if alts.More? {
      AltsMean(r, alts.rest, s, i, j);
    }
  }

  // --- reading what was written ---------------------------------------------------------

  /** The tokens a part is read as. */
  function Read(t: Part): seq<Token> {
    match t
    case One => [Slashless]
    case Seg => [Slashless, Stars]
    case Span => [Dot, Stars]
    case Dirs => [Open, Dot, Stars, Lit('/'), Close, Quest]
    case Brace => [Open]
    case Comma => [Bar]
    case EndBrace => [Close]
    case Plain(c) => [Lit(c)]
  }

  function ReadAll(ts: seq<Part>): seq<Token> {
    if ts == [] then [] else Read(ts[0]) + ReadAll(ts[1..])
  }

  lemma {:induction false} ReadConcat(a: seq<Part>, b: seq<Part>)
    ensures ReadAll(a + b) == ReadAll(a) + ReadAll(b)
    decreases |a|
  {
    if a == [] {
      assert a + b == b;
    } else {
      assert (a + b)[0] == a[0] && (a + b)[1..] == a[1..] + b;
      ReadConcat(a[1..], b);
    }
  }

  lemma ReadOne(t: Part)
    ensures ReadAll([t]) == Read(t)
  {
    assert [t][1..] == [];
  }

  lemma LexQuoted(c: char, rest: string)
    ensures Lex(Quote(c) + rest) == Cons(Lit(c), Lex(rest))
  {
    if Special(c) {
      assert (Quote(c) + rest)[2..] == rest;
    } else {
      var s := Quote(c) + rest;
      assert s[1..] == rest && s[0] == c;
      assert c != '(' && c != '[' by { assert Special('(') && Special('['); }
      assert c != '^' && c != '$' && c != '.' && c != '*' && c != '?' && c != ')' && c != '|' && c != '\\' by {
        assert Special('^') && Special('$') && Special('.') && Special('*') && Special('?') && Special(')')
            && Special('|') && Special('\\');
      }
    }
  }

  // The tokens of a text that begins with a written part.
  lemma LexWritten(t: Part, rest: string)
    requires Lex(rest).Some?
    ensures Lex(Written(t) + rest) == Some(Read(t) + Lex(rest).value)
  {
    hide Lex;
    var x := Lex(rest).value;
    assert forall a: Token, b: Token :: [a] + ([b] + x) == [a, b] + x;
    match t
    case One => LexSlashless(rest);
    case Seg =>
      assert Written(t) + rest == "[^/]" + ("*" + rest);
      LexSlashless("*" + rest);
      LexOne("*", rest);
    case Span =>
      assert Written(t) + rest == "." + ("*" + rest);
      LexOne(".", "*" + rest);
      LexOne("*", rest);
    case Dirs => LexDirs(rest);
    case Brace => LexOpen(rest);
    case Comma => LexOne("|", rest);
    case EndBrace => LexOne(")", rest);
    case Plain(c) => LexQuoted(c, rest);
  }

  lemma LexOne(c: string, rest: string)
    requires c in {".", "*", "?", ")", "|", "^", "$"}
    ensures Lex(c + rest) == Cons(match c[0]
                                  case '.' => Dot case '*' => Stars case '?' => Quest case ')' => Close
                                  case '|' => Bar case '^' => Hat case _ => Dollar, Lex(rest))
  {
    var s := c + rest;
    assert s[0] == c[0] && s[1..] == rest;
    assert !("(?:" <= s) && !("[^/]" <= s);
  }

  lemma LexOpen(rest: string)
    ensures Lex("(?:" + rest) == Cons(Open, Lex(rest))
  {
    var s := "(?:" + rest;
    assert s[..3] == "(?:" && s[3..] == rest;
  }

  lemma LexSlashless(rest: string)
    ensures Lex("[^/]" + rest) == Cons(Slashless, Lex(rest))
  {
    var s := "[^/]" + rest;
    assert s[..4] == "[^/]" && s[4..] == rest;
  }

  lemma LexDirs(rest: string)
    requires Lex(rest).Some?
    ensures Lex("(?:.*/)?" + rest) == Some(Read(Dirs) + Lex(rest).value)
  {
    hide Lex;
    var s1 := "?" + rest;
    var s2 := ")" + s1;
    var s3 := "/" + s2;
    var s4 := "*" + s3;
    var s5 := "." + s4;
    LexOne("?", rest);
    LexOne(")", s1);
    assert Quote('/') == "/";
    LexQuoted('/', s2);
    LexOne("*", s3);
    LexOne(".", s4);
    LexOpen(s5);
    assert "(?:.*/)?" + rest == "(?:" + s5;
    var x := Lex(rest).value;
    assert [Open] + ([Dot] + ([Stars] + ([Lit('/')] + ([Close] + ([Quest] + x))))) == Read(Dirs) + x;
  }

  lemma {:induction false} LexAll(ts: seq<Part>, rest: string)
    requires Lex(rest).Some?
    ensures Lex(WrittenAll(ts) + rest) == Some(ReadAll(ts) + Lex(rest).value)
    decreases |ts|
  {
    hide Lex, Written, Read;
    if ts == [] {
      assert WrittenAll(ts) + rest == rest;
      assert ReadAll(ts) + Lex(rest).value == Lex(rest).value;
    } else {
      LexAll(ts[1..], rest);
      LexWritten(ts[0], WrittenAll(ts[1..]) + rest);
      assert WrittenAll(ts) + rest == Written(ts[0]) + (WrittenAll(ts[1..]) + rest);
      assert ReadAll(ts) + Lex(rest).value == Read(ts[0]) + (ReadAll(ts[1..]) + Lex(rest).value);
    }
  }

  lemma LexText(pattern: string)
    ensures Lex(Text(pattern)) == Some([Hat] + ReadAll(Parts(Prepared(pattern), 0)) + [Dollar])
  {
    var ts := Parts(Prepared(pattern), 0);
    assert "$" + "" == "$" && Lex("") == Some([]) && [Dollar] + [] == [Dollar];
    hide Lex, WrittenAll, ReadAll, Parts;
    LexOne("$", "");
    LexAll(ts, "$");
    LexOne("^", WrittenAll(ts) + "$");
    assert Text(pattern) == "^" + (WrittenAll(ts) + "$");
    assert [Hat] + (ReadAll(ts) + [Dollar]) == [Hat] + ReadAll(ts) + [Dollar];
  }

  // --- parsing ------------------------------------------------------------------------------

  lemma StepTop(st: seq<Frame>, f: Frame, t: Token)
    requires t.Dot? || t.Slashless? || t.Lit? || t.Open? || t.Bar? || t.Hat? || t.Dollar?
    ensures Step(st + [f], t) == Some(
              match t
              case Open => st + [f] + [Frame(Never, Empty)]
              case Bar => st + [Frame(Or(f.alts, f.cur), Empty)]
              case _ => st + [f.(cur := Cat(f.cur, match t
                                                   case Dot => AnyChar case Slashless => NotSlash case Lit(c) => Char(c)
                                                   case Hat => Begin case _ => End))])
  {
    assert (st + [f])[..|st|] == st;
  }

  lemma StepClose(st: seq<Frame>, f: Frame, g: Frame)
    ensures Step(st + [f] + [g], Close) == Some(st + [f.(cur := Cat(f.cur, Or(g.alts, g.cur)))])
  {
    assert (st + [f] + [g])[..|st| + 1] == st + [f];
    assert (st + [f])[..|st|] == st;
  }

  lemma StepRepeat(st: seq<Frame>, f: Frame, star: bool)
    requires f.cur.Cat? && !f.cur.b.Star? && !f.cur.b.Opt?
    ensures Step(st + [f], if star then Stars else Quest)
            == Some(st + [f.(cur := Cat(f.cur.a, if star then Star(f.cur.b) else Opt(f.cur.b)))])
  {
    assert (st + [f])[..|st|] == st;
  }

  lemma RunFirst(st: seq<Frame>, t: Token, ts: seq<Token>)
    requires st != [] && Step(st, t).Some?
    ensures Run(st, [t] + ts) == Run(Step(st, t).value, ts)
  {
    assert ([t] + ts)[1..] == ts;
  }

  lemma RunTwo(st: seq<Frame>, a: Token, b: Token)
    requires st != [] && Step(st, a).Some?
    ensures Run(st, [a, b]) == Step(Step(st, a).value, b)
  {
    assert [a, b] == [a] + [b];
    RunFirst(st, a, [b]);
    RunOne(Step(st, a).value, b);
  }

  // A leaf's tokens add its expression to the group being read.
  lemma RunLeaf(st: seq<Frame>, f: Frame, t: Part)
    requires IsLeaf(t)
    ensures Run(st + [f], Read(t)) == Some(st + [f.(cur := Cat(f.cur, LeafRe(t)))])
  {
    match t
    case One =>
      StepTop(st, f, Slashless);
      RunOne(st + [f], Slashless);
    case Plain(c) =>
      StepTop(st, f, Lit(c));
      RunOne(st + [f], Lit(c));
    case Seg =>
      StepTop(st, f, Slashless);
      StepRepeat(st, f.(cur := Cat(f.cur, NotSlash)), true);
      RunTwo(st + [f], Slashless, Stars);
    case Span =>
      StepTop(st, f, Dot);
      StepRepeat(st, f.(cur := Cat(f.cur, AnyChar)), true);
      RunTwo(st + [f], Dot, Stars);
    case Dirs => RunDirs(st, f);
  }

  lemma RunDirs(st: seq<Frame>, f: Frame)
    ensures Run(st + [f], Read(Dirs)) == Some(st + [f.(cur := Cat(f.cur, LeafRe(Dirs)))])
  {
    hide Step, Run;
    var st1 := st + [f];
    var f1 := Frame(Never, Empty);
    var f2 := f1.(cur := Cat(Empty, AnyChar));
    var f3 := f1.(cur := Cat(Empty, Star(AnyChar)));
    var f4 := f1.(cur := Cat(f3.cur, Char('/')));
    var g := f.(cur := Cat(f.cur, Or(Never, f4.cur)));
    StepTop(st, f, Open);
    StepTop(st1, f1, Dot);
    StepRepeat(st1, f2, true);
    StepTop(st1, f3, Lit('/'));
    StepClose(st, f, f4);
    StepRepeat(st, g, false);
    RunFirst(st1, Open, [Dot, Stars, Lit('/'), Close, Quest]);
    RunFirst(st1 + [f1], Dot, [Stars, Lit('/'), Close, Quest]);
    RunFirst(st1 + [f2], Stars, [Lit('/'), Close, Quest]);
    RunFirst(st1 + [f3], Lit('/'), [Close, Quest]);
    RunTwo(st1 + [f4], Close, Quest);
    assert Read(Dirs) == [Open] + [Dot, Stars, Lit('/'), Close, Quest];
    assert [Dot, Stars, Lit('/'), Close, Quest] == [Dot] + [Stars, Lit('/'), Close, Quest];
    assert [Stars, Lit('/'), Close, Quest] == [Stars] + [Lit('/'), Close, Quest];
    assert [Lit('/'), Close, Quest] == [Lit('/')] + [Close, Quest];
  }

  lemma {:induction false} RunRow(st: seq<Frame>, f: Frame, row: Row)
    requires Good(row)
    ensures Run(st + [f], ReadAll(Flat(row))) == Some(st + [f.(cur := RowRe(f.cur, row))])
    decreases row
  {
    match row
    case Nil =>
    case Then(item, tail) =>
      var r := ItemRe(item);
      RunItem(st, f, item);
      RunRow(st, f.(cur := Cat(f.cur, r)), tail);
      ReadConcat(FlatItem(item), Flat(tail));
      FlatThen(item, tail);
      RunConcat(st + [f], ReadAll(FlatItem(item)), ReadAll(Flat(tail)));
  }

  function FlatItem(item: Item): seq<Part> {
    match item
    case Leaf(t) => [t]
    case Choice(alts) => [Brace] + FlatAlts(alts) + [EndBrace]
  }

  lemma FlatThen(item: Item, tail: Row)
    ensures Flat(Then(item, tail)) == FlatItem(item) + Flat(tail)
  {
  }

  lemma {:induction false} RunItem(st: seq<Frame>, f: Frame, item: Item)
    requires GoodItem(item)
    ensures Run(st + [f], ReadAll(FlatItem(item))) == Some(st + [f.(cur := Cat(f.cur, ItemRe(item)))])
    decreases item
  {
    match item
    case Leaf(t) =>
      ReadOne(t);
      RunLeaf(st, f, t);
    case Choice(alts) =>
      var inner := ReadAll(FlatAlts(alts));
      ReadConcat([Brace] + FlatAlts(alts), [EndBrace]);
      ReadConcat([Brace], FlatAlts(alts));
      ReadOne(Brace);
      ReadOne(EndBrace);
      assert ReadAll(FlatItem(item)) == [Open] + (inner + [Close]);
      StepTop(st, f, Open);
      RunFirst(st + [f], Open, inner + [Close]);
      var g := RunAlts(st + [f], Never, alts);
      RunConcat(st + [f] + [Frame(Never, Empty)], inner, [Close]);
      StepClose(st, f, g);
      RunOne(st + [f] + [g], Close);
  }

  lemma ReadMore(row: Row, rest: Alts)
    ensures ReadAll(FlatAlts(More(row, rest))) == ReadAll(Flat(row)) + ([Bar] + ReadAll(FlatAlts(rest)))
  {
    ReadConcat(Flat(row) + [Comma], FlatAlts(rest));
    ReadConcat(Flat(row), [Comma]);
    ReadOne(Comma);
  }

  lemma RunBar(st: seq<Frame>, f: Frame, a: seq<Token>, g: Frame, next: seq<Token>)
    requires Run(st + [f], a) == Some(st + [g])
    ensures Run(st + [f], a + ([Bar] + next)) == Run(st + [Frame(Or(g.alts, g.cur), Empty)], next)
  {
    StepTop(st, g, Bar);
    RunConcat(st + [f], a, [Bar] + next);
    RunFirst(st + [g], Bar, next);
  }

  lemma {:induction false} RunAlts(st: seq<Frame>, acc: Re, alts: Alts) returns (g: Frame)
    requires GoodAlts(alts)
    ensures Run(st + [Frame(acc, Empty)], ReadAll(FlatAlts(alts))) == Some(st + [g])
    ensures Or(g.alts, g.cur) == AltsRe(acc, alts)
    decreases alts
  {
    hide Run, RowRe, ReadAll, Flat;
    RunRow(st, Frame(acc, Empty), alts.row);
    g := Frame(acc, RowRe(Empty, alts.row));
    if alts.More? {
      ReadMore(alts.row, alts.rest);
      RunBar(st, Frame(acc, Empty), ReadAll(Flat(alts.row)), g, ReadAll(FlatAlts(alts.rest)));
      g := RunAlts(st, Or(g.alts, g.cur), alts.rest);
    }
  }

  // --- closed braces --------------------------------------------------------------------------

  /** No brace ends, and no comma separates, outside of a brace. */
  predicate Nested(ts: seq<Part>, depth: nat) {
    ts == [] || ((ts[0] == EndBrace || ts[0] == Comma ==> depth > 0) && Nested(ts[1..], Deeper(depth, ts[0])))
  }

  lemma {:induction false} PartsNest(p: string, depth: nat)
    ensures Nested(Parts(p, depth), depth)
    decreases |p|
  {
    if p != "" {
      var (t, n) := First(p, depth);
      PartsNest(p[n..], Deeper(depth, t));
      assert Parts(p, depth)[1..] == Parts(p[n..], Deeper(depth, t));
    }
  }

  // Reading never fails, and ends with one group more than there are open braces.
  lemma {:induction false} RunDepth(st: seq<Frame>, ts: seq<Part>, depth: nat)
    requires |st| == depth + 1 && Nested(ts, depth)
    ensures Run(st, ReadAll(ts)).Some? && |Run(st, ReadAll(ts)).value| == OpenAfter(ts, depth) + 1
    decreases |ts|
  {
    if ts != [] {
      var top := st[depth];
      assert st == st[..depth] + [top];
      var t := ts[0];
      RunConcat(st, Read(t), ReadAll(ts[1..]));
      if IsLeaf(t) {
        RunLeaf(st[..depth], top, t);
      } else if t == Brace {
        RunOne(st, Open);
      } else if t == Comma {
        RunOne(st, Bar);
      } else {
        RunOne(st, Close);
      }
      RunDepth(Run(st, Read(t)).value, ts[1..], Deeper(depth, t));
    }
  }

  /** What Compile makes of a glob's tokens. */
  lemma TextRuns(pattern: string)
    ensures var ts := Parts(Prepared(pattern), 0);
            Run(Fresh, [Hat] + ReadAll(ts) + [Dollar]) ==
            match Run([Frame(Never, Cat(Empty, Begin))], ReadAll(ts))
            case Some(st) => Some(Push(st, End))
            case None => None
  {
    var ts := Parts(Prepared(pattern), 0);
    assert Fresh == [] + [Frame(Never, Empty)];
    StepTop([], Frame(Never, Empty), Hat);
    assert [] + [Frame(Never, Cat(Empty, Begin))] == [Frame(Never, Cat(Empty, Begin))];
    assert [Hat] + ReadAll(ts) + [Dollar] == [Hat] + (ReadAll(ts) + [Dollar]);
    RunFirst(Fresh, Hat, ReadAll(ts) + [Dollar]);
    RunConcat([Frame(Never, Cat(Empty, Begin))], ReadAll(ts), [Dollar]);
    match Run([Frame(Never, Cat(Empty, Begin))], ReadAll(ts))
    case Some(st) => RunOne(st, Dollar);
    case None =>
  }

  /** The expression written for a glob is a valid one exactly when every brace of the glob is closed. */
  lemma CompilesWhenClosed(pattern: string)
    ensures Compile(Text(pattern)).Some? <==> OpenAfter(Parts(Prepared(pattern), 0), 0) == 0
  {
    LexText(pattern);
    TextRuns(pattern);
    PartsNest(Prepared(pattern), 0);
    RunDepth([Frame(Never, Cat(Empty, Begin))], Parts(Prepared(pattern), 0), 0);
  }

  // --- the main theorem --------------------------------------------------------------------------

  lemma NestedStep(ts: seq<Part>, depth: nat)
    requires ts != [] && Nested(ts, depth)
    ensures Nested(ts[1..], Deeper(depth, ts[0])) && OpenAfter(ts[1..], Deeper(depth, ts[0])) == OpenAfter(ts, depth)
    ensures depth == 0 ==> ts[0] != Comma && ts[0] != EndBrace
  {
  }

  lemma CutTwice(ts: seq<Part>, m: nat, k: nat)
    requires m + k <= |ts|
    ensures ts[..m + k] == ts[..m] + ts[m..][..k] && ts[m + k..] == ts[m..][k..]
  {
  }

  // Reads a row off the parts, up to the comma or brace that ends it.
  lemma {:induction false} ReadRow(ts: seq<Part>, depth: nat) returns (row: Row, n: nat)
    requires Nested(ts, depth) && OpenAfter(ts, depth) == 0
    ensures Good(row) && n <= |ts| && ts[..n] == Flat(row)
    ensures depth == 0 ==> n == |ts|
    ensures depth > 0 ==> n < |ts| && (ts[n] == Comma || ts[n] == EndBrace)
    ensures Nested(ts[n..], depth) && OpenAfter(ts[n..], depth) == 0
    decreases |ts|, 1
  {
    if ts == [] || ts[0] == Comma || ts[0] == EndBrace {
      row, n := Nil, 0;
      assert ts[0..] == ts;
    } else {
      NestedStep(ts, depth);
      hide Nested, OpenAfter;
      var item, m := ReadItem(ts, depth);
      var tail, k := ReadRow(ts[m..], depth);
      row, n := Then(item, tail), m + k;
      FlatThen(item, tail);
      CutTwice(ts, m, k);
    }
  }

  lemma {:induction false} ReadItem(ts: seq<Part>, depth: nat) returns (item: Item, n: nat)
    requires Nested(ts, depth) && OpenAfter(ts, depth) == 0
    requires ts != [] && ts[0] != Comma && ts[0] != EndBrace
    ensures GoodItem(item) && 0 < n <= |ts| && ts[..n] == FlatItem(item)
    ensures Nested(ts[n..], depth) && OpenAfter(ts[n..], depth) == 0
    decreases |ts|, 0
  {
    NestedStep(ts, depth);
    if ts[0] == Brace {
      hide Nested, OpenAfter;
      var rest := ts[1..];
      var alts, m := ReadAlts(rest, depth + 1);
      item, n := Choice(alts), m + 2;
      NestedStep(rest[m..], depth + 1);
      assert rest[m..][1..] == ts[m + 2..];
      assert ts[..m + 2] == [ts[0]] + rest[..m] + [rest[m]];
    } else {
      item, n := Leaf(ts[0]), 1;
    }
  }

  lemma {:induction false} ReadAlts(ts: seq<Part>, depth: nat) returns (alts: Alts, n: nat)
    requires depth > 0 && Nested(ts, depth) && OpenAfter(ts, depth) == 0
    ensures GoodAlts(alts) && n < |ts| && ts[..n] == FlatAlts(alts) && ts[n] == EndBrace
    ensures Nested(ts[n..], depth) && OpenAfter(ts[n..], depth) == 0
    decreases |ts|, 2
  {
    hide Nested, OpenAfter, Flat;
    var row, k := ReadRow(ts, depth);
    if ts[k] == EndBrace {
      alts, n := Only(row), k;
    } else {
      NestedStep(ts[k..], depth);
      assert ts[k..][1..] == ts[k + 1..];
      var rest, m := ReadAlts(ts[k + 1..], depth);
      alts, n := More(row, rest), k + 1 + m;
      CutTwice(ts, k + 1, m);
      assert ts[..k + 1] == ts[..k] + [ts[k]];
    }
  }

  /** A glob whose braces are all closed is a row of parts and choices. */
  lemma ClosedIsARow(pattern: string) returns (row: Row)
    requires OpenAfter(Parts(Prepared(pattern), 0), 0) == 0
    ensures Good(row) && Flat(row) == Parts(Prepared(pattern), 0)
  {
    var ts := Parts(Prepared(pattern), 0);
    PartsNest(Prepared(pattern), 0);
    var n;
    row, n := ReadRow(ts, 0);
    assert ts[..n] == ts;
  }

  lemma CompilesTo(pattern: string, row: Row)
    requires Good(row) && Flat(row) == Parts(Prepared(pattern), 0)
    ensures Compile(Text(pattern)) == Some(Or(Never, Cat(RowRe(Cat(Empty, Begin), row), End)))
  {
    LexText(pattern);
    TextRuns(pattern);
    RunRow([], Frame(Never, Cat(Empty, Begin)), row);
    assert [] + [Frame(Never, Cat(Empty, Begin))] == [Frame(Never, Cat(Empty, Begin))];
  }

  lemma OrMeans(a: Re, b: Re, s: string, i: int, j: int)
    requires 0 <= i <= j <= |s|
    ensures Matches(Or(a, b), s, i, j) <==> Matches(a, s, i, j) || Matches(b, s, i, j)
  {
  }

  // The anchors make the match one of the whole text.
  const Start: Re := Cat(Empty, Begin)

  // Nothing but the empty stretch at the start matches what anchors the expression.
  lemma StartMeans(s: string, i: int, k: int)
    requires 0 <= i <= k <= |s|
    ensures Matches(Start, s, i, k) <==> i == k == 0
  {
    CatMeans(Empty, Begin, s, i, k);
    assert Matches(Empty, s, i, i) && Between(i, i, k);
  }

  lemma AnchoredRow(row: Row, s: string, i: int, k: int)
    requires Good(row) && '\n' !in s && 0 <= i <= k <= |s|
    ensures Matches(RowRe(Start, row), s, i, k) <==> i == 0 && RowMatches(row, s, 0, k)
  {
    hide Matches, RowRe, RowMatches, Good;
    RowMeans(Start, row, s, i, k);
    forall m | Between(i, m, k) ensures Matches(Start, s, i, m) <==> i == m == 0 {
      StartMeans(s, i, m);
    }
    assert Between(0, 0, k);
  }

  lemma EndMeans(s: string, k: int, j: int)
    requires 0 <= k <= j <= |s|
    ensures Matches(End, s, k, j) <==> k == j == |s|
  {
  }

  lemma AnchoredMeans(row: Row, s: string)
    requires Good(row) && '\n' !in s
    ensures MatchString(Or(Never, Cat(RowRe(Cat(Empty, Begin), row), End)), s) <==> RowMatches(row, s, 0, |s|)
  {
    var r := RowRe(Start, row);
    var re := Or(Never, Cat(r, End));
    hide Matches, RowRe, RowMatches, Good;
    if i, j :| 0 <= i <= j <= |s| && Matches(re, s, i, j) {
      OrMeans(Never, Cat(r, End), s, i, j);
      CatMeans(r, End, s, i, j);
      var k :| Between(i, k, j) && Matches(r, s, i, k) && Matches(End, s, k, j);
      EndMeans(s, k, j);
      AnchoredRow(row, s, i, k);
    }
    if RowMatches(row, s, 0, |s|) {
      AnchoredRow(row, s, 0, |s|);
      EndMeans(s, |s|, |s|);
      assert Between(0, |s|, |s|);
      CatMeans(r, End, s, 0, |s|);
      OrMeans(Never, Cat(r, End), s, 0, |s|);
      assert Matches(re, s, 0, |s|);
    }
  }

  /**
    The compiled glob matches a path (of no newlines) exactly when one choice
    of its brace alternatives, read part by part, does.
   */
  lemma GlobMeans(pattern: string, row: Row, path: string)
    requires Good(row) && Flat(row) == Parts(Prepared(pattern), 0) && '\n' !in path
    ensures Compile(Text(pattern)).Some?
    ensures MatchString(Compile(Text(pattern)).value, path)
            <==> exists w :: ChoiceMatches(row, w, path, 0)
  {
    CompilesTo(pattern, row);
    AnchoredMeans(row, path);
    RowIsAChoice(row, path);
    hide Compile, MatchString, Chooses, WordMatches, RowMatches, Text, Parts, Flat, Good, RowRe, Prepared;
  }

  lemma RowIsAChoice(row: Row, s: string)
    ensures RowMatches(row, s, 0, |s|) <==> exists w :: ChoiceMatches(row, w, s, 0)
  {
    if RowMatches(row, s, 0, |s|) {
      var w := WordOfRow(row, s, 0, |s|);
      assert ChoiceMatches(row, w, s, 0);
    }
    if w :| ChoiceMatches(row, w, s, 0) {
      RowOfWord(row, w, s, 0, |s|);
    }
  }

  // --- names ------------------------------------------------------------------------------------

  /** Where a path's last name begins. */
  function NameAt(path: string): (n: nat)
    ensures n <= |path| && (n == 0 || path[n - 1] == '/') && (forall k :: n <= k < |path| ==> path[k] != '/')
  {
    if path == "" || path[|path| - 1] == '/' then |path| else NameAt(path[..|path| - 1])
  }

  /** Parts that stay within a name. */
  predicate InName(ts: seq<Part>) {
    forall i :: 0 <= i < |ts| ==> ts[i] != Span && ts[i] != Dirs && ts[i] != Plain('/')
  }

  lemma InNameBoth(a: seq<Part>, b: seq<Part>)
    ensures InName(a + b) <==> InName(a) && InName(b)
  {
    assert forall i :: 0 <= i < |a| ==> (a + b)[i] == a[i];
    assert forall i :: 0 <= i < |b| ==> (a + b)[|a| + i] == b[i];
  }

  lemma {:induction false} PartsInName(p: string, depth: nat)
    requires '/' !in p && forall k :: 0 <= k < |p| - 1 ==> !(p[k] == '*' && p[k + 1] == '*')
    ensures InName(Parts(p, depth))
    decreases |p|
  {
    if p != "" {
      var (t, n) := First(p, depth);
      FirstAt(p, 0, depth);
      assert p[0..] == p && n == 1;
      PartsInName(p[1..], Deeper(depth, t));
      InNameBoth([t], Parts(p[1..], Deeper(depth, t)));
    }
  }

  lemma {:induction false} ChosenInName(row: Row, w: seq<Part>)
    requires Chooses(row, w) && InName(Flat(row))
    ensures InName(w)
    decreases row
  {
    match row
    case Nil =>
    case Then(Leaf(t), tail) =>
      InNameBoth([t], Flat(tail));
      ChosenInName(tail, w[1..]);
      InNameBoth([t], w[1..]);
      assert w == [t] + w[1..];
    case Then(Choice(alts), tail) =>
      var k :| 0 <= k <= |w| && ChoosesOne(alts, w[..k]) && Chooses(tail, w[k..]);
      InNameBoth([Brace] + FlatAlts(alts) + [EndBrace], Flat(tail));
      InNameBoth([Brace] + FlatAlts(alts), [EndBrace]);
      InNameBoth([Brace], FlatAlts(alts));
      OneInName(alts, w[..k]);
      ChosenInName(tail, w[k..]);
      InNameBoth(w[..k], w[k..]);
      assert w == w[..k] + w[k..];
  }

  lemma {:induction false} OneInName(alts: Alts, w: seq<Part>)
    requires ChoosesOne(alts, w) && InName(FlatAlts(alts))
    ensures InName(w)
    decreases alts
  {
    if alts.More? {
      InNameBoth(Flat(alts.row) + [Comma], FlatAlts(alts.rest));
      InNameBoth(Flat(alts.row), [Comma]);
    }
    if Chooses(alts.row, w) {
      ChosenInName(alts.row, w);
    } else {
      OneInName(alts.rest, w);
    }
  }

  lemma {:induction false} NamesHaveNoSlash(w: seq<Part>, s: string, i: int, j: int)
    requires 0 <= i <= j <= |s| && InName(w) && WordMatches(w, s, i, j)
    ensures forall k :: i <= k < j ==> s[k] != '/'
    decreases |w|
  {
    if w != [] {
      var k :| Between(i, k, j) && PartMatches(w[0], s, i, k) && WordMatches(w[1..], s, k, j);
      InNameBoth([w[0]], w[1..]);
      assert w == [w[0]] + w[1..];
      NamesHaveNoSlash(w[1..], s, k, j);
    }
  }

  /**
    A glob with no slash and no `**` matches a path exactly when one of its
    choices matches the path's last name, whatever the directories before it.
   */
  lemma NamesMatchAnywhere(pattern: string, row: Row, path: string)
    requires '/' !in pattern && forall k :: 0 <= k < |pattern| - 1 ==> !(pattern[k] == '*' && pattern[k + 1] == '*')
    requires Good(row) && Flat(row) == Parts(pattern, 0) && '\n' !in path
    ensures Compile(Text(pattern)).Some?
    ensures MatchString(Compile(Text(pattern)).value, path)
            <==> exists w :: ChoiceMatches(row, w, path, NameAt(path))
  {
    PreparedName(pattern);
    GlobMeans(pattern, Then(Leaf(Dirs), row), path);
    PartsInName(pattern, 0);
    ChoicesOfName(row, path);
    hide Compile, MatchString, Text, Parts, Good, Prepared, Chooses, WordMatches;
  }

  lemma ChoicesOfName(row: Row, path: string)
    requires InName(Flat(row))
    ensures (exists v :: ChoiceMatches(Then(Leaf(Dirs), row), v, path, 0))
            <==> exists w :: ChoiceMatches(row, w, path, NameAt(path))
  {
    if v :| ChoiceMatches(Then(Leaf(Dirs), row), v, path, 0) {
      NameOfWhole(row, v, path);
      assert ChoiceMatches(row, v[1..], path, NameAt(path));
    }
    if w :| ChoiceMatches(row, w, path, NameAt(path)) {
      WholeOfName(row, w, path);
      assert ChoiceMatches(Then(Leaf(Dirs), row), [Dirs] + w, path, 0);
    }
  }

  lemma NameOfWhole(row: Row, v: seq<Part>, path: string)
    requires InName(Flat(row)) && Chooses(Then(Leaf(Dirs), row), v) && WordMatches(v, path, 0, |path|)
    ensures Chooses(row, v[1..]) && WordMatches(v[1..], path, NameAt(path), |path|)
  {
    var k :| Between(0, k, |path|) && PartMatches(v[0], path, 0, k) && WordMatches(v[1..], path, k, |path|);
    ChosenInName(row, v[1..]);
    NamesHaveNoSlash(v[1..], path, k, |path|);
    assert k == NameAt(path);
  }

  lemma WholeOfName(row: Row, w: seq<Part>, path: string)
    requires Chooses(row, w) && WordMatches(w, path, NameAt(path), |path|)
    ensures Chooses(Then(Leaf(Dirs), row), [Dirs] + w) && WordMatches([Dirs] + w, path, 0, |path|)
  {
    var v := [Dirs] + w;
    assert v[0] == Dirs && v[1..] == w;
    assert Between(0, NameAt(path), |path|) && PartMatches(v[0], path, 0, NameAt(path));
  }

  lemma PreparedName(pattern: string)
    requires '/' !in pattern
    ensures Parts(Prepared(pattern), 0) == [Dirs] + Parts(pattern, 0)
  {
    var p := Prepared(pattern);
    assert |pattern| > 1 ==> pattern[1] != '/';
    assert p[..3] == "**/" && p[3..] == pattern;
  }
}
