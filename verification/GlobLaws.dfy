/**
  What a glob is: how it is read into parts, and which paths its expression
  matches, by how it is written and not by what it is made into.
 */
module GlobLaws {
  import opened Wrappers
  import opened Regexp
  import opened Glob
  import opened GlobProof

  // --- how a glob is read ----------------------------------------------------------------------

  function Spelled(t: Part): (s: string)
    ensures s != ""
  {
    match t
    case One => "?"
    case Seg => "*"
    case Span => "**"
    case Dirs => "**/"
    case Brace => "{"
    case Comma => ","
    case EndBrace => "}"
    case Plain(c) => [c]
  }

  function SpelledAll(ts: seq<Part>): string {
    if ts == [] then "" else Spelled(ts[0]) + SpelledAll(ts[1..])
  }

  /** A part is the longest that can be read there, with `depth` braces open and `rest` after it. */
  predicate IsLongest(t: Part, depth: nat, rest: string) {
    match t
    case Plain(c) => c != '*' && c != '?' && c != '{' && (depth > 0 ==> c != '}' && c != ',')
    case Seg => rest == "" || rest[0] != '*'
    case Span => rest == "" || rest[0] != '/'
    case Comma => depth > 0
    case EndBrace => depth > 0
    case _ => true
  }

  /** Reading from the left, with the braces that are open counted. */
  predicate Reading(ts: seq<Part>, depth: nat)
    decreases |ts|
  {
    ts == [] ||
    (IsLongest(ts[0], depth, SpelledAll(ts[1..]))
     && Reading(ts[1..], match ts[0] case Brace => depth + 1 case EndBrace => if depth > 0 then depth - 1 else 0
                                     case _ => depth))
  }

  lemma FirstIsLongest(t: Part, depth: nat, rest: string)
    ensures IsLongest(t, depth, rest) ==> First(Spelled(t) + rest, depth) == (t, |Spelled(t)|)
  {
    var p := Spelled(t) + rest;
    assert |Spelled(t)| == 1 ==> p[0] == Spelled(t)[0] && p[1..] == rest;
    assert |p| > 1 && |Spelled(t)| == 1 ==> p[1] == rest[0];
    assert t == Dirs ==> p[..3] == "**/";
    assert t == Span ==> p[..2] == "**" && (|p| > 2 ==> p[2] == rest[0]);
    assert "**" <= p ==> p[0] == '*' && p[1] == '*';
    assert "**/" <= p ==> p[2] == '/';
  }

  lemma LongestIsFirst(p: string, depth: nat)
    requires p != ""
    ensures var (t, n) := First(p, depth); p == Spelled(t) + p[n..] && n == |Spelled(t)| && IsLongest(t, depth, p[n..])
  {
    var (t, n) := First(p, depth);
    assert p == p[..n] + p[n..];
    assert |p| > 1 && p[0] == '*' && p[1] == '*' ==> p[..2] == "**";
    assert |p| > 2 && p[..2] == "**" && p[2] == '/' ==> p[..3] == "**/";
    assert p[..1] == [p[0]];
  }

  /** A glob's parts spell it, each the longest there is; and they are the only ones that do. */
  lemma {:induction false} PartsAreTheReading(p: string, depth: nat)
    ensures SpelledAll(Parts(p, depth)) == p && Reading(Parts(p, depth), depth)
    decreases |p|
  {
    if p != "" {
      var (t, n) := First(p, depth);
      LongestIsFirst(p, depth);
      PartsAreTheReading(p[n..], Deeper(depth, t));
      assert Parts(p, depth)[1..] == Parts(p[n..], Deeper(depth, t));
    }
  }

  lemma {:induction false} OnlyOneReading(ts: seq<Part>, depth: nat)
    requires Reading(ts, depth)
    ensures Parts(SpelledAll(ts), depth) == ts
    decreases |ts|
  {
    if ts != [] {
      var rest := SpelledAll(ts[1..]);
      FirstIsLongest(ts[0], depth, rest);
      assert (Spelled(ts[0]) + rest)[|Spelled(ts[0])|..] == rest;
      OnlyOneReading(ts[1..], Deeper(depth, ts[0]));
    }
  }

  // --- which paths it matches ------------------------------------------------------------------

  /** A glob with a slash matches whole paths, from their beginning. */
  lemma SlashedGlobsAreAnchored(pattern: string, row: Row, path: string)
    requires '/' in pattern && !("./" <= pattern)
    requires Good(row) && Flat(row) == Parts(pattern, 0) && '\n' !in path
    ensures Compile(Text(pattern)).Some?
    ensures MatchString(Compile(Text(pattern)).value, path) <==> exists w :: ChoiceMatches(row, w, path, 0)
  {
    GlobMeans(pattern, row, path);
    hide Compile, MatchString, Chooses, WordMatches, Text, Parts, Flat, Good;
  }

  /** One without a slash matches in any directory, like the same after `**` and a slash. */
  lemma NamesAreAnywhere(pattern: string, row: Row, path: string)
    requires '/' !in pattern && Good(row) && Flat(row) == Parts(pattern, 0) && '\n' !in path
    ensures Compile(Text(pattern)).Some?
    ensures MatchString(Compile(Text(pattern)).value, path)
            <==> exists w :: ChoiceMatches(Then(Leaf(Dirs), row), w, path, 0)
  {
    PreparedName(pattern);
    GlobMeans(pattern, Then(Leaf(Dirs), row), path);
    hide Compile, MatchString, Chooses, WordMatches, Text, Parts, Prepared;
  }

  /** A leading dot and slash is of no account. */
  lemma DotSlashIsDropped(pattern: string)
    requires !("./" <= pattern)
    ensures Compile(Text("./" + pattern)) == Compile(Text(pattern))
  {
    assert ("./" + pattern)[2..] == pattern && "./" <= "./" + pattern;
    hide Compile, Parts, WrittenAll;
  }

  /** Only one: with another, it is a directory of the path like any. */
  lemma OneDotSlashIsDropped(pattern: string, row: Row, path: string)
    requires '/' in pattern && Good(row) && Flat(row) == Parts(pattern, 0) && '\n' !in path
    ensures Compile(Text("./" + pattern)).Some?
    ensures MatchString(Compile(Text("./" + pattern)).value, path) <==> exists w :: ChoiceMatches(row, w, path, 0)
  {
    assert ("./" + pattern)[2..] == pattern && "./" <= "./" + pattern;
    GlobMeans("./" + pattern, row, path);
    hide Compile, MatchString, Chooses, WordMatches, Text, Parts, Flat, Good;
  }
}
