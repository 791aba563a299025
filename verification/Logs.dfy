/**
  Two bounded logs against the unbounded ones they stand for: a ring of lines
  that says what the last lines written were, and a buffer that keeps the last
  bytes written.
 */
module Logs {

  function Last<T>(s: seq<T>, n: nat): seq<T> {
    if |s| <= n then s else s[|s| - n..]
  }

  /** The complete lines of a text, and what follows the last newline. */
  datatype Text = Text(lines: seq<string>, rest: string)

  function Read(s: string): Text {
    if s == "" then Text([], "")
    else
      var t := Read(s[..|s| - 1]);
      var c := s[|s| - 1];
      if c == '\n' then Text(t.lines + [t.rest], "") else Text(t.lines, t.rest + [c])
  }

  lemma {:induction false} ReadMore(s: string, part: string)
    requires '\n' !in part
    ensures Read(s + part) == Text(Read(s).lines, Read(s).rest + part)
    decreases |part|
  {
    if part == "" {
      assert s + part == s && Read(s).rest + part == Read(s).rest;
    } else {
      var n := |part| - 1;
      assert (s + part)[..|s| + n] == s + part[..n] && (s + part)[|s| + n] == part[n];
      ReadMore(s, part[..n]);
      assert Read(s).rest + part == Read(s).rest + part[..n] + [part[n]];
    }
  }

  lemma ReadLine(s: string, part: string)
    requires '\n' !in part
    ensures Read(s + part + "\n") == Text(Read(s).lines + [Read(s).rest + part], "")
  {
    ReadMore(s, part);
    assert (s + part + "\n")[..|s + part|] == s + part;
  }

  /** Lines, each with its newline. */
  function Spelled(lines: seq<string>): string {
    if lines == [] then "" else Spelled(lines[..|lines| - 1]) + lines[|lines| - 1] + "\n"
  }

  /** Reading takes nothing away: the lines and the rest spell the text, and hold no newlines. */
  lemma {:induction false} LinesSpell(s: string)
    ensures Spelled(Read(s).lines) + Read(s).rest == s
    ensures '\n' !in Read(s).rest && forall i :: 0 <= i < |Read(s).lines| ==> '\n' !in Read(s).lines[i]
    decreases |s|
  {
    if s != "" {
      var t, c := Read(s[..|s| - 1]), s[|s| - 1];
      LinesSpell(s[..|s| - 1]);
      assert s == Spelled(t.lines) + t.rest + [c];
      assert (t.lines + [t.rest])[..|t.lines|] == t.lines;
    }
  }

  lemma LastSnoc<T>(s: seq<T>, x: T, n: nat)
    requires n > 0
    ensures Last(s + [x], n) == if |s| < n then Last(s, n) + [x] else Last(s, n)[1..] + [x]
  {
  }

  lemma LastConcat<T>(s: seq<T>, more: seq<T>, n: nat)
    ensures Last(s + more, n) == Last(Last(s, n) + more, n)
  {
  }

  lemma NextPlace(at: nat, n: nat)
    requires at < n
    ensures (at + 1) % n == if at + 1 == n then 0 else at + 1
  {
  }

  // Overwriting the oldest of a full ring and moving on drops it and adds the newest.
  lemma Turn<T>(s: seq<T>, at: nat, x: T)
    requires at < |s|
    ensures var t, next := s[at := x], if at + 1 == |s| then 0 else at + 1;
            t[next..] + t[..next] == (s[at..] + s[..at])[1..] + [x]
  {
    var t := s[at := x];
    assert (s[at..] + s[..at])[1..] == s[at + 1..] + s[..at];
    assert t[..at + 1] == s[..at] + [x];
    if at + 1 == |s| {
      assert t[0..] + t[..0] == t == s[..at] + [x];
    } else {
      assert t[at + 1..] == s[at + 1..];
    }
  }

  method IndexOf(s: string, c: char) returns (i: int)
    ensures -1 <= i < |s|
    ensures i == -1 ==> c !in s
    ensures i >= 0 ==> s[i] == c && c !in s[..i]
  {
    i := 0;
    while i < |s|
      invariant 0 <= i <= |s| && c !in s[..i]
    {
      if s[i] == c {
        return i;
      }
      assert s[..i + 1] == s[..i] + [s[i]];
      i := i + 1;
    }
    assert s[..|s|] == s;
    i := -1;
  }

  /** Remembers output by lines, up to max of them: an old one goes when a new one comes. */
  class Ring {
    const max: nat
    var lines: seq<string>
    var next: nat
    var partial: string
    ghost var written: string      // everything ever written

    ghost predicate Valid()
      reads this
    {
      && max > 0
      && |lines| <= max && (if |lines| < max then next == 0 else next < max)
      && lines[next..] + lines[..next] == Last(Read(written).lines, max)
      && partial == Read(written).rest
    }

    constructor (max: nat)
      requires max > 0
      ensures Valid() && written == "" && this.max == max
    {
      this.max := max;
      lines, next, partial, written := [], 0, "", "";
    }

    method Add(line: string)
      requires max > 0 && |lines| <= max && (if |lines| < max then next == 0 else next < max)
      modifies `lines, `next
      ensures |lines| <= max && (if |lines| < max then next == 0 else next < max)
      ensures var was := old(lines[next..] + lines[..next]);
              lines[next..] + lines[..next] == if |was| < max then was + [line] else was[1..] + [line]
    {
      if |lines| < max {
        lines := lines + [line];
        return;
      }
      Turn(lines, next, line);
      NextPlace(next, max);
      lines := lines[next := line];
      next := (next + 1) % max;
    }

    /** Takes output, in pieces of any size: each newline completes a line. */
    method Write(p: string)
      requires Valid()
      modifies this
      ensures Valid() && written == old(written) + p
    {
      hide Read, Last;
      var buf := partial + p;
      ghost var seen := Begun(written);
      assert seen + buf == written + p;
      while true
        invariant |lines| <= max && (if |lines| < max then next == 0 else next < max)
        invariant seen + buf == written + p && written == old(written)
        invariant Read(seen).rest == ""
        invariant lines[next..] + lines[..next] == Last(Read(seen).lines, max)
        decreases |buf|
      {
        var i := IndexOf(buf, '\n');
        if i < 0 {
          break;
        }
        LineDone(seen, buf, i, max);
        Add(buf[..i]);
        seen := seen + buf[..i] + "\n";
        buf := buf[i + 1..];
      }
      ReadMore(seen, buf);
      assert "" + buf == buf;
      partial := buf;
      written := written + p;
    }

    /** A window of n on the end of what is remembered, or all of it if n is not positive. */
    method Tail(n: int) returns (r: seq<string>)
      requires Valid()
      ensures var kept := Last(Read(written).lines, max);
              r == if n > 0 then Last(kept, n) else kept
    {
      r := lines[next..] + lines[..next];
      if n > 0 && n < |r| {
        r := r[|r| - n..];
      }
    }
  }

  // The text up to its unfinished line ends with a newline, or is empty.
  lemma {:induction false} Begun(s: string) returns (seen: string)
    ensures seen + Read(s).rest == s && Read(seen) == Text(Read(s).lines, "")
    decreases |s|
  {
    if s == "" {
      seen := "";
    } else {
      var before, c := s[..|s| - 1], s[|s| - 1];
      if c == '\n' {
        seen := s;
      } else {
        seen := Begun(before);
        assert seen + (Read(before).rest + [c]) == seen + Read(before).rest + [c] == s;
      }
    }
  }

  // The line up to position i of what is left is complete.
  lemma LineDone(seen: string, buf: string, i: nat, max: nat)
    requires i < |buf| && buf[i] == '\n' && '\n' !in buf[..i] && Read(seen).rest == "" && max > 0
    ensures seen + buf == seen + buf[..i] + "\n" + buf[i + 1..]
    ensures Read(seen + buf[..i] + "\n") == Text(Read(seen).lines + [buf[..i]], "")
    ensures var was, now := Last(Read(seen).lines, max), Last(Read(seen + buf[..i] + "\n").lines, max);
            now == if |was| < max then was + [buf[..i]] else was[1..] + [buf[..i]]
  {
    hide Read, Last;
    ReadLine(seen, buf[..i]);
    assert "" + buf[..i] == buf[..i];
    LastSnoc(Read(seen).lines, buf[..i], max);
    LastLength(Read(seen).lines, max);
    assert buf == buf[..i] + "\n" + buf[i + 1..];
  }

  lemma LastLength<T>(s: seq<T>, n: nat)
    ensures |Last(s, n)| == if |s| < n then |s| else n
  {
  }

  /** Kept lines seen through a smaller window are the newest of all lines. */
  lemma TailIsTheNewest(s: string, n: nat, max: nat)
    ensures Last(Last(Read(s).lines, max), n) == Last(Read(s).lines, if n < max then n else max)
  {
  }

  type byte = x: int | 0 <= x < 256

  /** A byte that begins a character in UTF-8. */
  predicate RuneStart(b: byte) { !(0x80 <= b < 0xC0) }

  /** A byte that begins a character of n bytes in UTF-8 (RFC 3629, section 3). */
  predicate Leads(b: byte, n: nat) {
    match n
    case 1 => b < 0x80
    case 2 => 0xC0 <= b < 0xE0
    case 3 => 0xE0 <= b < 0xF0
    case 4 => 0xF0 <= b < 0xF8
    case _ => false
  }

  predicate Continues(b: byte) { 0x80 <= b < 0xC0 }

  /** The first character, of n bytes, is whole. */
  predicate WholeFirst(s: seq<byte>, n: nat) {
    1 <= n <= |s| && Leads(s[0], n) && forall i :: 1 <= i < n ==> Continues(s[i])
  }

  /** Text of whole characters. */
  ghost predicate Whole(s: seq<byte>)
    decreases |s|
  {
    s == [] || exists n: nat :: WholeFirst(s, n) && Whole(s[n..])
  }

  lemma {:induction false} WholeFrom(s: seq<byte>, i: nat)
    requires Whole(s) && i <= |s| && (i < |s| ==> RuneStart(s[i]))
    ensures Whole(s[i..])
    decreases |s|
  {
    if 0 < i < |s| {
      var n: nat :| WholeFirst(s, n) && Whole(s[n..]);
      assert n <= i;
      assert s[n..][i - n..] == s[i..];
      WholeFrom(s[n..], i - n);
    } else if i == 0 {
      assert s[0..] == s;
    }
  }

  /** In text of whole characters no more than three bytes in a row begin none. */
  lemma {:induction false} FewContinue(s: seq<byte>, i: nat, j: nat)
    requires Whole(s) && i <= j <= |s| && forall k :: i <= k < j ==> !RuneStart(s[k])
    ensures j - i <= 3
    decreases |s|
  {
    if i < j {
      var n: nat :| WholeFirst(s, n) && Whole(s[n..]);
      assert n < |s| ==> RuneStart(s[n..][0]) && s[n..][0] == s[n];
      if n <= i {
        FewContinue(s[n..], i - n, j - n);
      }
    }
  }

  lemma WholeTail(s: seq<byte>, cut: nat, k: nat)
    requires Whole(s) && cut + k <= |s| && (cut == k == 0 || cut + k == |s| || RuneStart(s[cut + k]))
    requires forall i :: 0 <= i < k ==> !RuneStart(s[cut..][i])
    ensures Whole(s[cut..][k..]) && k <= 3
  {
    assert s[0..] == s;
    assert s[cut..][k..] == s[cut + k..];
    assert forall i :: cut <= i < cut + k ==> s[i] == s[cut..][i - cut];
    FewContinue(s, cut, cut + k);
    if cut + k > 0 {
      WholeFrom(s, cut + k);
    }
    hide Whole;
  }

  lemma KeptIs(written: seq<byte>, max: nat, kept: seq<byte>, cut: nat)
    requires kept == Last(written, max) && cut + |kept| == |written|
    ensures kept == written[cut..]
  {
  }

  /** Remembers output by bytes, up to max of them, and how many it had to cut. */
  class TailBuffer {
    const max: nat
    var buf: seq<byte>
    var cut: nat
    ghost var written: seq<byte>

    ghost predicate Valid()
      reads this
    {
      buf == Last(written, max) && cut + |buf| == |written|
    }

    constructor (max: nat)
      ensures Valid() && written == [] && this.max == max
    {
      this.max := max;
      buf, cut, written := [], 0, [];
    }

    method Write(p: seq<byte>) returns (n: nat)
      requires Valid()
      modifies this
      ensures Valid() && written == old(written) + p && n == |p|
    {
      LastConcat(written, p, max);
      buf := buf + p;
      written := written + p;
      var over := |buf| - max;
      if over > 0 {
        buf := buf[over..];
        cut := cut + over;
      }
      n := |p|;
    }

    /** What is kept, without the rest of a character whose beginning was cut off. */
    method String() returns (s: seq<byte>)
      requires Valid()
      ensures cut == 0 ==> s == written
      ensures exists k :: 0 <= k <= |buf| && s == buf[k..] && (forall i :: 0 <= i < k ==> !RuneStart(buf[i]))
      ensures cut > 0 && s != [] ==> RuneStart(s[0])
      ensures Whole(written) ==> Whole(s) && |s| + 3 >= |buf|
    {
      KeptIs(written, max, buf, cut);
      hide Last, Whole, RuneStart;
      s := buf;
      ghost var k := 0;
      if cut > 0 {
        while |s| > 0 && !RuneStart(s[0])
          invariant 0 <= k <= |buf| && s == buf[k..]
          invariant forall i :: 0 <= i < k ==> !RuneStart(buf[i])
        {
          s := s[1..];
          k := k + 1;
        }
      }
      assert s == buf[k..];
      if Whole(written) {
        WholeTail(written, cut, k);
      }
    }
  }
}
