/**
  Base32 as the two-factor secrets use it (RFC 4648, section 6, without
  padding), in the 32-bit arithmetic of the source: bytes and letters are the
  same number, the letters' with zero bits added at the end, however often the
  32-bit accumulator overflows.
 */
module Base32 {
  type byte = x: int | 0 <= x < 256
  type digit = x: int | 0 <= x < 32

  const ALPHABET := "ABCDEFGHIJKLMNOPQRSTUVWXYZ234567"
  const WORD := 0x1_0000_0000

  function Pow2(k: nat): nat
    ensures Pow2(k) > 0
  {
    if k == 0 then 1 else 2 * Pow2(k - 1)
  }

  /** The number a row of digits is written for, most significant first. */
  function Num(ds: seq<int>, base: nat): int {
    if ds == [] then 0 else Num(ds[..|ds| - 1], base) * base + ds[|ds| - 1]
  }

  predicate IsLetter(c: char) { 'A' <= c <= 'Z' || '2' <= c <= '7' }

  /** A letter's place in the alphabet. */
  function Index(c: char): digit
    requires IsLetter(c)
  {
    if c >= 'A' then (c - 'A') as int else 26 + (c - '2') as int
  }

  function Upper(c: char): char {
    if 'a' <= c <= 'z' then c - 'a' + 'A' else c
  }

  /** The letters of a text, whatever their case and whatever stands between them. */
  function Clean(s: string): (r: string)
    ensures forall i :: 0 <= i < |r| ==> IsLetter(r[i])
  {
    if s == "" then "" else Clean(s[..|s| - 1]) + (if IsLetter(Upper(s[|s| - 1])) then [Upper(s[|s| - 1])] else [])
  }

  function Digits(s: string): (r: seq<int>)
    requires forall i :: 0 <= i < |s| ==> IsLetter(s[i])
    ensures |r| == |s| && forall i :: 0 <= i < |r| ==> 0 <= r[i] < 32
  {
    seq(|s|, i requires 0 <= i < |s| => Index(s[i]))
  }

  /** The alphabet is A to Z, then 2 to 7 (RFC 4648, section 6). */
  lemma TheAlphabet(d: nat)
    requires d < 32
    ensures |ALPHABET| == 32
    ensures ALPHABET[d] == if d < 26 then 'A' + d as char else '2' + (d - 26) as char
  {
  }

  lemma Letters(d: digit)
    ensures d < |ALPHABET| && IsLetter(ALPHABET[d]) && Index(ALPHABET[d]) == d
  {
    TheAlphabet(d);
    hide ALPHABET;
  }

  /** A letter stands for its place in the alphabet. */
  lemma LettersInOrder(c: char)
    requires IsLetter(c)
    ensures Index(c) < |ALPHABET| && ALPHABET[Index(c)] == c
  {
    TheAlphabet(Index(c));
    hide ALPHABET;
  }

  // --- what the two methods compute -----------------------------------------------------

  /** The text is the bytes' number, in as few letters as hold its bits, with zero bits after it. */
  ghost predicate Encodes(bytes: seq<byte>, text: string) {
    && |text| == (8 * |bytes| + 4) / 5
    && (forall i :: 0 <= i < |text| ==> IsLetter(text[i]))
    && Num(Digits(text), 32) == Num(bytes, 256) * Pow2(5 * |text| - 8 * |bytes|)
  }

  /** The bytes are the letters' number, as many whole ones as there are bits for; left-over bits are dropped. */
  ghost predicate Decodes(text: string, bytes: seq<byte>) {
    var ds := Digits(Clean(text));
    && |bytes| == 5 * |ds| / 8
    && Num(bytes, 256) == Num(ds, 32) / Pow2(5 * |ds| - 8 * |bytes|)
  }

  // --- arithmetic ---------------------------------------------------------------------------

  lemma {:induction false} Pow2Add(a: nat, b: nat)
    ensures Pow2(a + b) == Pow2(a) * Pow2(b)
  {
    if b > 0 {
      Pow2Add(a, b - 1);
    }
  }

  lemma Division(x: int, m: int, q: int, r: int)
    requires m > 0 && x == q * m + r && 0 <= r < m
    ensures x / m == q && x % m == r
  {
    var d := x / m - q;
    assert x == (x / m) * m + x % m;
    assert d * m == r - x % m;
    assert d >= 1 ==> d * m >= m;
    assert d <= -1 ==> d * m <= -m;
  }

  // The low bits of a number are those of what is left after dropping higher ones.
  lemma LowBits(x: int, m: int, k: int)
    requires m > 0 && k > 0
    ensures m * k > 0 && (x % (m * k)) % m == x % m
  {
    assert m * k > 0;
    var q := x / (m * k);
    assert x == q * (m * k) + x % (m * k);
    var y := x % (m * k);
    assert y == (y / m) * m + y % m;
    assert x == (q * k + y / m) * m + y % m by {
      assert q * (m * k) == (q * k) * m;
      assert (q * k + y / m) * m == (q * k) * m + (y / m) * m;
    }
    Division(x, m, q * k + y / m, y % m);
  }

  // The next group of bits, and the rest.
  lemma TopBits(v: int, p: int, g: int)
    requires v >= 0 && p > 0 && g > 0
    ensures g * p > 0 && v % (g * p) == ((v / p) % g) * p + v % p
  {
    assert g * p > 0;
    var q, r := v / p, v % p;
    var a, c := q / g, q % g;
    DivMod(v, p);
    DivMod(q, g);
    Distribute(a, g, c, p, r);
    Within(c, g, p, r);
    Division(v, g * p, a, c * p + r);
  }

  lemma DivMod(v: int, p: int)
    requires p > 0
    ensures v == (v / p) * p + v % p && 0 <= v % p < p
  {
  }

  lemma NumSnoc(ds: seq<int>, d: int, base: nat)
    ensures Num(ds + [d], base) == Num(ds, base) * base + d
  {
    assert (ds + [d])[..|ds|] == ds;
  }

  lemma DigitsSnoc(s: string, c: char)
    requires IsLetter(c) && forall i :: 0 <= i < |s| ==> IsLetter(s[i])
    ensures Digits(s + [c]) == Digits(s) + [Index(c)]
  {
  }

  // --- the accumulator ----------------------------------------------------------------------

  /** What was read is what was written, followed by the accumulator's last bits. */
  ghost predicate Holds(read: int, written: int, value: int, bits: nat) {
    value >= 0 && read == written * Pow2(bits) + value % Pow2(bits)
  }

  lemma Distribute(w: int, p: int, low: int, h: int, d: int)
    ensures (w * p + low) * h + d == w * (p * h) + (low * h + d)
  {
  }

  lemma Within(low: int, p: int, h: int, d: int)
    requires 0 <= low < p && 0 <= d < h
    ensures 0 <= low * h + d < p * h
  {
    assert low * h <= (p - 1) * h;
    assert (p - 1) * h == p * h - h;
  }

  // Digits below a place move up with it.
  lemma Shifted(value: int, p: int, h: int, d: int)
    requires value >= 0 && p > 0 && 0 <= d < h
    ensures p * h > 0 && (value * h + d) % (p * h) == (value % p) * h + d && (value * h + d) / (p * h) == value / p
  {
    var low := value % p;
    Within(low, p, h, d);
    Distribute(value / p, p, low, h, d);
    assert value == (value / p) * p + low;
    Division(value * h + d, p * h, value / p, low * h + d);
  }

  // The accumulator stays within 32 bits.
  lemma StaysAWord(value: int, d: int, g: nat)
    requires value >= 0 && 0 <= d < Pow2(g) && g <= 32
    ensures 0 <= (value * Pow2(g)) % WORD + d < WORD
  {
    WordIsPow2();
    var h, k := Pow2(g), Pow2(32 - g);
    Pow2Add(32 - g, g);
    Shifted(value, k, h, 0);
    Within(value % k, k, h, d);
  }

  // Shifting g bits in keeps it, though the accumulator has only 32.
  lemma ShiftIn(read: int, written: int, value: int, bits: nat, d: int, g: nat)
    requires Holds(read, written, value, bits) && 0 <= d < Pow2(g) && bits + g <= 32
    ensures Holds(read * Pow2(g) + d, written, (value * Pow2(g)) % WORD + d, bits + g)
  {
    Pow2Add(bits, g);
    WordIsPow2();
    Pow2Add(bits + g, 32 - bits - g);
    hide Pow2;
    ShiftedWord(read, written, value, Pow2(bits), Pow2(g), Pow2(32 - bits - g), d);
  }

  // With h to shift by, in a word of p * h * k.
  lemma ShiftedWord(read: int, written: int, value: int, p: int, h: int, k: int, d: int)
    requires p > 0 && k > 0 && 0 <= d < h && value >= 0 && read == written * p + value % p
    ensures p * h > 0 && (p * h) * k > 0
    ensures var v := (value * h) % ((p * h) * k) + d;
            v >= 0 && read * h + d == written * (p * h) + v % (p * h)
  {
    Shifted(value, p, h, d);
    SameLowBits(value * h, d, p * h, k);
    Distribute(written, p, value % p, h, d);
  }

  lemma WordIsPow2()
    ensures Pow2(32) == WORD
  {
    assert Pow2(8) == 256;
    Pow2Add(8, 8);
    Pow2Add(16, 16);
  }

  lemma SameLowBits(x: int, d: int, m: int, k: int)
    requires m > 0 && k > 0
    ensures m * k > 0 && (x % (m * k) + d) % m == (x + d) % m
  {
    assert m * k > 0;
    var q := x / (m * k);
    var y := x % (m * k) + d;
    assert x + d == q * (m * k) + y;
    assert y == (y / m) * m + y % m;
    assert x + d == (q * k + y / m) * m + y % m by {
      assert q * (m * k) == (q * k) * m;
      assert (q * k + y / m) * m == (q * k) * m + (y / m) * m;
    }
    Division(x + d, m, q * k + y / m, y % m);
  }

  // Taking the top g of its bits keeps it.
  lemma ShiftOut(read: int, written: int, value: int, bits: nat, g: nat)
    requires Holds(read, written, value, bits) && bits >= g
    ensures var d := (value / Pow2(bits - g)) % Pow2(g);
            0 <= d < Pow2(g) && Holds(read, written * Pow2(g) + d, value, bits - g)
  {
    var p, h := Pow2(bits - g), Pow2(g);
    Pow2Add(g, bits - g);
    hide Pow2;
    TopBits(value, p, h);
    var d := (value / p) % h;
    Distribute(written, h, d, p, value % p);
  }

  // The last bits, with zeros after them, make the last group.
  lemma ShiftEnd(read: int, written: int, value: int, bits: nat, g: nat)
    requires Holds(read, written, value, bits) && bits <= g <= 32
    ensures var d := ((value * Pow2(g - bits)) % WORD) % Pow2(g);
            && 0 <= d < Pow2(g)
            && read * Pow2(g - bits) == written * Pow2(g) + d
  {
    var p, z := Pow2(bits), Pow2(g - bits);
    Pow2Add(bits, g - bits);
    WordIsPow2();
    Pow2Add(g, 32 - g);
    hide Pow2;
    LowBits(value * z, Pow2(g), Pow2(32 - g));
    Shifted(value, p, z, 0);
    Distribute(written, p, value % p, z, 0);
  }

  /** The accumulator's bits from a place on, as the source takes them: an unsigned shift and a mask. */
  function Taken(value: int, shift: nat, mask: nat): int
    requires 0 <= value < WORD && mask > 0
  {
    (value / Pow2(shift)) % mask
  }

  lemma Powers()
    ensures Pow2(5) == 32 && Pow2(8) == 256
  {
  }

  /** The accumulator's last bits, shifted up to a whole letter and masked. */
  function Rest(value: int, shift: nat, mask: nat): int
    requires mask > 0
  {
    ((value * Pow2(shift)) % WORD) % mask
  }

  lemma NothingYet()
    ensures Num([], 256) == 0 && Num(Digits(""), 32) == 0 && Holds(0, 0, 0, 0)
  {
  }

  // Writes one letter.
  lemma NextLetter(read: int, text: string, value: int, bits: nat)
    requires forall k :: 0 <= k < |text| ==> IsLetter(text[k])
    requires Holds(read, Num(Digits(text), 32), value, bits) && bits >= 5 && value < WORD
    ensures 0 <= Taken(value, bits - 5, 32) < 32
    ensures var c := ALPHABET[Taken(value, bits - 5, 32)];
            IsLetter(c) && Holds(read, Num(Digits(text + [c]), 32), value, bits - 5)
  {
    Powers();
    ShiftOut(read, Num(Digits(text), 32), value, bits, 5);
    var d := Taken(value, bits - 5, 32);
    Letters(d);
    DigitsSnoc(text, ALPHABET[d]);
    NumSnoc(Digits(text), d, 32);
  }

  // Reads one more group of g bits.
  lemma NextGroup(ds: seq<int>, i: nat, base: nat, written: int, value: int, bits: nat, g: nat)
    requires i < |ds| && base == Pow2(g) && 0 <= ds[i] < base && bits + g <= 32
    requires Holds(Num(ds[..i], base), written, value, bits)
    ensures var v := (value * base) % WORD + ds[i];
            0 <= v < WORD && Holds(Num(ds[..i + 1], base), written, v, bits + g)
  {
    StaysAWord(value, ds[i], g);
    ShiftIn(Num(ds[..i], base), written, value, bits, ds[i], g);
    assert ds[..i + 1] == ds[..i] + [ds[i]];
    NumSnoc(ds[..i], ds[i], base);
  }

  lemma AllRead(bytes: seq<byte>, text: string, value: int)
    requires 5 * |text| == 8 * |bytes| && forall k :: 0 <= k < |text| ==> IsLetter(text[k])
    requires Holds(Num(bytes, 256), Num(Digits(text), 32), value, 0)
    ensures Encodes(bytes, text)
  {
  }

  lemma LastLetter(bytes: seq<byte>, text: string, value: int, bits: nat)
    requires 0 < bits < 5 && 5 * |text| + bits == 8 * |bytes| && forall k :: 0 <= k < |text| ==> IsLetter(text[k])
    requires Holds(Num(bytes, 256), Num(Digits(text), 32), value, bits)
    ensures 0 <= Rest(value, 5 - bits, 32) < 32
    ensures Encodes(bytes, text + [ALPHABET[Rest(value, 5 - bits, 32)]])
  {
    Powers();
    hide Pow2, Num, Digits;
    ShiftEnd(Num(bytes, 256), Num(Digits(text), 32), value, bits, 5);
    var d := Rest(value, 5 - bits, 32);
    Letters(d);
    DigitsSnoc(text, ALPHABET[d]);
    NumSnoc(Digits(text), d, 32);
  }

  lemma Whole(ds: seq<int>)
    ensures ds[..|ds|] == ds && ds[..0] == []
  {
  }

  /** Encodes bytes, 5 bits a letter. */
  method Encode(bytes: seq<byte>) returns (text: string)
    ensures Encodes(bytes, text)
  {
    hide Holds, Num, Digits, Index, Encodes, Taken, Rest;
    Powers();
    NothingYet();
    Whole(bytes);
    var bits, value := 0, 0;
    text := "";
    for i := 0 to |bytes|
      invariant 0 <= bits < 5 && 0 <= value < WORD
      invariant 5 * |text| + bits == 8 * i
      invariant forall k :: 0 <= k < |text| ==> IsLetter(text[k])
      invariant Holds(Num(bytes[..i], 256), Num(Digits(text), 32), value, bits)
    {
      NextGroup(bytes, i, 256, Num(Digits(text), 32), value, bits, 8);
      value := (value * 256) % WORD + bytes[i];
      bits := bits + 8;
      while bits >= 5
        invariant 0 <= bits <= 12 && 0 <= value < WORD
        invariant 5 * |text| + bits == 8 * (i + 1)
        invariant forall k :: 0 <= k < |text| ==> IsLetter(text[k])
        invariant Holds(Num(bytes[..i + 1], 256), Num(Digits(text), 32), value, bits)
      {
        NextLetter(Num(bytes[..i + 1], 256), text, value, bits);
        text := text + [ALPHABET[Taken(value, bits - 5, 32)]];
        bits := bits - 5;
      }
    }
    if bits > 0 {
      LastLetter(bytes, text, value, bits);
      text := text + [ALPHABET[Rest(value, 5 - bits, 32)]];
    } else {
      AllRead(bytes, text, value);
    }
  }

  // Puts one byte.
  lemma NextByte(read: int, bytes: seq<byte>, value: int, bits: nat)
    requires Holds(read, Num(bytes, 256), value, bits) && bits >= 8 && value < WORD
    ensures var b := Taken(value, bits - 8, 256);
            0 <= b < 256 && Holds(read, Num(bytes + [b], 256), value, bits - 8)
  {
    Powers();
    ShiftOut(read, Num(bytes, 256), value, bits, 8);
    NumSnoc(bytes, Taken(value, bits - 8, 256), 256);
  }

  lemma AllDecoded(s: string, bytes: seq<byte>, value: int, bits: nat)
    requires 0 <= bits < 8 && 8 * |bytes| + bits == 5 * |Clean(s)|
    requires Holds(Num(Digits(Clean(s)), 32), Num(bytes, 256), value, bits)
    ensures Decodes(s, bytes)
  {
    var ds := Digits(Clean(s));
    Division(Num(ds, 32), Pow2(bits), Num(bytes, 256), value % Pow2(bits));
  }

  /** Decodes the letters of a text, 8 bits a byte. */
  method Decode(s: string) returns (bytes: seq<byte>)
    ensures Decodes(s, bytes)
  {
    hide Holds, Num, Clean, Index, Decodes, Taken;
    var letters := Clean(s);
    ghost var ds := Digits(letters);
    Powers();
    NothingYet();
    Whole(ds);
    var bits, value := 0, 0;
    bytes := [];
    for i := 0 to |letters|
      invariant 0 <= bits < 8 && 0 <= value < WORD
      invariant 8 * |bytes| + bits == 5 * i
      invariant Holds(Num(ds[..i], 32), Num(bytes, 256), value, bits)
    {
      NextGroup(ds, i, 32, Num(bytes, 256), value, bits, 5);
      value := (value * 32) % WORD + Index(letters[i]);
      bits := bits + 5;
      if bits >= 8 {
        NextByte(Num(ds[..i + 1], 32), bytes, value, bits);
        bytes := bytes + [Taken(value, bits - 8, 256)];
        bits := bits - 8;
      }
    }
    AllDecoded(s, bytes, value, bits);
  }

  // --- round trips --------------------------------------------------------------------------

  lemma {:induction false} NumIsInjective(a: seq<int>, b: seq<int>, base: nat)
    requires |a| == |b| && base > 0 && Num(a, base) == Num(b, base)
    requires forall i :: 0 <= i < |a| ==> 0 <= a[i] < base && 0 <= b[i] < base
    ensures a == b
    decreases |a|
  {
    if a != [] {
      var n := |a| - 1;
      Division(Num(a, base), base, Num(a[..n], base), a[n]);
      Division(Num(b, base), base, Num(b[..n], base), b[n]);
      NumIsInjective(a[..n], b[..n], base);
      assert a == a[..n] + [a[n]] && b == b[..n] + [b[n]];
    }
  }

  lemma {:induction false} CleanLetters(s: string)
    requires forall i :: 0 <= i < |s| ==> IsLetter(s[i])
    ensures Clean(s) == s
    decreases |s|
  {
    if s != "" {
      CleanLetters(s[..|s| - 1]);
      assert s == s[..|s| - 1] + [s[|s| - 1]];
    }
  }

  /** Decoding what was encoded gives the bytes back. */
  lemma RoundTrip(bytes: seq<byte>, text: string, back: seq<byte>)
    requires Encodes(bytes, text) && Decodes(text, back)
    ensures back == bytes
  {
    CleanLetters(text);
    var pad := 5 * |text| - 8 * |bytes|;
    assert |back| == |bytes|;
    Division(Num(bytes, 256) * Pow2(pad), Pow2(pad), Num(bytes, 256), 0);
    NumIsInjective(back, bytes, 256);
  }

  /** A text decodes to one thing only, and neither case nor what stands between the letters matters. */
  lemma OnlyLettersMatter(s: string, t: string, a: seq<byte>, b: seq<byte>)
    requires Clean(s) == Clean(t) && Decodes(s, a) && Decodes(t, b)
    ensures a == b
  {
    NumIsInjective(a, b, 256);
  }

  lemma {:induction false} CleanConcat(s: string, t: string)
    ensures Clean(s + t) == Clean(s) + Clean(t)
    decreases |t|
  {
    if t == "" {
      assert s + t == s;
    } else {
      assert (s + t)[..|s| + |t| - 1] == s + t[..|t| - 1];
      CleanConcat(s, t[..|t| - 1]);
    }
  }

  /** Separators anywhere in a text, and lower case anywhere, leave its letters as they are. */
  lemma CleanIgnores(s: string, c: char, t: string)
    ensures !IsLetter(Upper(c)) ==> Clean(s + [c] + t) == Clean(s + t)
    ensures 'a' <= c <= 'z' ==> Clean(s + [c] + t) == Clean(s + [c - 'a' + 'A'] + t)
  {
    CleanConcat(s + [c], t);
    CleanConcat(s, [c]);
    CleanConcat(s, t);
    if 'a' <= c <= 'z' {
      CleanConcat(s + [c - 'a' + 'A'], t);
      CleanConcat(s, [c - 'a' + 'A']);
    }
  }
}
