/**
  The compiler from globs to regular expressions: what it writes is a regular
  expression exactly when every brace is closed, and then it matches a path
  exactly when one choice of brace alternatives does.
 */
module Glob {
  import opened Regexp

  /** A glob's parts: `?`, `*`, `**`, `**` with its slash, braces, commas in braces, and everything else. */
  datatype Part = One | Seg | Span | Dirs | Brace | Comma | EndBrace | Plain(c: char)

  function Prepared(pattern: string): string {
    var p := if "./" <= pattern then pattern[2..] else pattern;
    if '/' in p then p else "**/" + p
  }

  /** The first part of a glob, with `depth` braces open, and its length. */
  function First(p: string, depth: nat): (r: (Part, nat))
    requires p != ""
    ensures 1 <= r.1 <= |p|
  {
    if "**/" <= p then (Dirs, 3)
    else if "**" <= p then (Span, 2)
    else if p[0] == '*' then (Seg, 1)
    else if p[0] == '?' then (One, 1)
    else if p[0] == '{' then (Brace, 1)
    else if p[0] == '}' && depth > 0 then (EndBrace, 1)
    else if p[0] == ',' && depth > 0 then (Comma, 1)
    else (Plain(p[0]), 1)
  }

  function Deeper(depth: nat, t: Part): nat {
    if t == Brace then depth + 1 else if t == EndBrace && depth > 0 then depth - 1 else depth
  }

  function Parts(p: string, depth: nat): seq<Part>
    decreases |p|
  {
    if p == "" then []
    else var (t, n) := First(p, depth);
         [t] + Parts(p[n..], Deeper(depth, t))
  }

  /** How many braces are still open at the end. */
  function OpenAfter(ts: seq<Part>, depth: nat): nat {
    if ts == [] then depth else OpenAfter(ts[1..], Deeper(depth, ts[0]))
  }

  function Written(t: Part): string {
    match t
    case One => "[^/]"
    case Seg => "[^/]*"
    case Span => ".*"
    case Dirs => "(?:.*/)?"
    case Brace => "(?:"
    case Comma => "|"
    case EndBrace => ")"
    case Plain(c) => Quote(c)
  }

  function WrittenAll(ts: seq<Part>): string {
    if ts == [] then "" else Written(ts[0]) + WrittenAll(ts[1..])
  }

  /** The expression's text for a glob. */
  function Text(pattern: string): string {
    "^" + WrittenAll(Parts(Prepared(pattern), 0)) + "$"
  }

  lemma PartsUnfold(p: string, i: nat, depth: nat, b: string)
    requires i < |p|
    ensures var (t, n) := First(p[i..], depth);
            && p[i..][n..] == p[i + n..]
            && b + WrittenAll(Parts(p[i..], depth))
                == (b + Written(t)) + WrittenAll(Parts(p[i + n..], Deeper(depth, t)))
  {
    var (t, n) := First(p[i..], depth);
    assert p[i..][n..] == p[i + n..];
    assert Parts(p[i..], depth) == [t] + Parts(p[i + n..], Deeper(depth, t));
    hide First, Parts, Written, WrittenAll;
    WrittenFirst(t, Parts(p[i + n..], Deeper(depth, t)), b);
  }

  lemma WrittenFirst(t: Part, rest: seq<Part>, b: string)
    ensures b + WrittenAll([t] + rest) == (b + Written(t)) + WrittenAll(rest)
  {
    hide Written;
    assert ([t] + rest)[1..] == rest;
  }

  lemma PartsEnd(p: string, b: string, depth: nat)
    ensures b + WrittenAll(Parts(p[|p|..], depth)) == b
  {
  }

  // The first part as the loop below finds it.
  lemma FirstAt(p: string, i: nat, depth: nat)
    requires i < |p|
    ensures First(p[i..], depth) ==
            if p[i] == '*' && i + 1 < |p| && p[i + 1] == '*'
            then if i + 2 < |p| && p[i + 2] == '/' then (Dirs, 3) else (Span, 2)
            else (if p[i] == '*' then Seg
                  else if p[i] == '?' then One
                  else if p[i] == '{' then Brace
                  else if p[i] == '}' && depth > 0 then EndBrace
                  else if p[i] == ',' && depth > 0 then Comma
                  else Plain(p[i]), 1)
  {
    var q := p[i..];
    assert "**" <= q <==> |q| >= 2 && q[0] == '*' && q[1] == '*';
    assert "**/" <= q <==> |q| >= 3 && q[0] == '*' && q[1] == '*' && q[2] == '/';
  }

  /** Writes the expression for a glob in one pass. */
  method GlobRegexp(pattern: string) returns (text: string)
    ensures text == Text(pattern)
  {
    hide First, Parts, WrittenAll, Quote;
    var p := if "./" <= pattern then pattern[2..] else pattern;
    if '/' !in p {
      p := "**/" + p;
    }
    text := "^";
    var depth := 0;
    var i := 0;
    assert p[0..] == p;
    while i < |p|
      invariant 0 <= i <= |p|
      invariant "^" + WrittenAll(Parts(p, 0)) == text + WrittenAll(Parts(p[i..], depth))
    {
      FirstAt(p, i, depth);
      PartsUnfold(p, i, depth, text);
      ghost var part, text0, i0, depth0 := First(p[i..], depth), text, i, depth;
      var c := p[i];
      if c == '*' && i + 1 < |p| && p[i + 1] == '*' {
        i := i + 1;
        if i + 1 < |p| && p[i + 1] == '/' {
          i := i + 1;
          text := text + "(?:.*/)?";
        } else {
          text := text + ".*";
        }
      } else if c == '*' {
        text := text + "[^/]*";
      } else if c == '?' {
        text := text + "[^/]";
      } else if c == '{' {
        depth := depth + 1;
        text := text + "(?:";
      } else if c == '}' && depth > 0 {
        depth := depth - 1;
        text := text + ")";
      } else if c == ',' && depth > 0 {
        text := text + "|";
      } else {
        text := text + Quote(c);
      }
      i := i + 1;
      assert i == i0 + part.1 && text == text0 + Written(part.0) && depth == Deeper(depth0, part.0);
    }
    PartsEnd(p, text, depth);
    text := text + "$";
  }
}
