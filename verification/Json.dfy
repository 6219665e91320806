/** JSON string literals: decoding, and every way RFC 8259 section 7 allows to write a text. */
module Json {
  import opened Common

  const REPLACEMENT: char := 0xFFFD as char

  function HexDigit(c: char): (r: Option<nat>)
    ensures r.Some? ==> r.value < 16
  {
    if '0' <= c <= '9' then Some((c - '0') as int)
    else if 'a' <= c <= 'f' then Some((c - 'a') as int + 10)
    else if 'A' <= c <= 'F' then Some((c - 'A') as int + 10)
    else None
  }

  /** The value of the escape \uXXXX that text starts with, if it starts with one. */
  function Unit(text: string): (r: Option<nat>)
    ensures r.Some? ==> r.value < 0x1_0000 && |text| >= 6
  {
    if |text| < 6 || text[0] != '\\' || text[1] != 'u' then None
    else
      var a, b, c, d := HexDigit(text[2]), HexDigit(text[3]), HexDigit(text[4]), HexDigit(text[5]);
      if a.None? || b.None? || c.None? || d.None? then None
      else Some(0x1000 * a.value + 0x100 * b.value + 0x10 * c.value + d.value)
  }

  predicate HighSurrogate(v: nat) { 0xD800 <= v < 0xDC00 }
  predicate LowSurrogate(v: nat) { 0xDC00 <= v < 0xE000 }

  function Combine(high: nat, low: nat): char
    requires HighSurrogate(high) && LowSurrogate(low)
  {
    (0x1_0000 + 0x400 * (high - 0xD800) + (low - 0xDC00)) as char
  }

  /** The character after a backslash, for the two-character escapes. */
  function ShortEscape(c: char): Option<char> {
    match c
    case '"' => Some('"')
    case '\\' => Some('\\')
    case '/' => Some('/')
    case 'b' => Some(8 as char)
    case 'f' => Some(12 as char)
    case 'n' => Some('\n')
    case 'r' => Some('\r')
    case 't' => Some('\t')
    case _ => None
  }

  /** The first character written at the start of body, and how much of body writes it. A surrogate without its
      partner stands for the replacement character. */
  function Head(body: string): (r: Option<(char, nat)>)
    requires body != ""
    ensures r.Some? ==> 1 <= r.value.1 <= |body|
  {
    if body[0] == '\\' then
      if |body| >= 2 && ShortEscape(body[1]).Some? then Some((ShortEscape(body[1]).value, 2))
      else
        var first := Unit(body);
        if first.None? then None
        else if HighSurrogate(first.value) then
          var second := Unit(body[6..]);
          if second.Some? && LowSurrogate(second.value) then Some((Combine(first.value, second.value), 12))
          else Some((REPLACEMENT, 6))
        else if LowSurrogate(first.value) then Some((REPLACEMENT, 6))
        else Some((first.value as char, 6))
    else if body[0] == '"' || body[0] < ' ' then None
    else Some((body[0], 1))
  }

  /** The text between the quotes of a literal, decoded. */
  function Decode(body: string): Result<string>
    decreases |body|
  {
    if body == "" then Ok("")
    else
      var head := Head(body);
      if head.None? then Err
      else
        var rest := Decode(body[head.value.1..]);
        if rest.Err? then Err else Ok([head.value.0] + rest.value)
  }

  /** A whole literal, quotes included. */
  function DecodeLiteral(literal: string): Result<string> {
    if |literal| >= 2 && literal[0] == '"' && literal[|literal| - 1] == '"' then Decode(literal[1..|literal| - 1])
      else Err
  }

  // ---- the ways to write a character, by section 7 of RFC 8259 ----

  /** The two-character escapes and what they stand for. */
  predicate WritesShort(text: string, c: char) {
    || (text == ['\\', '"'] && c == '"')
    || (text == ['\\', '\\'] && c == '\\')
    || (text == ['\\', '/'] && c == '/')
    || (text == ['\\', 'b'] && c == 8 as char)
    || (text == ['\\', 'f'] && c == 12 as char)
    || (text == ['\\', 'n'] && c == 10 as char)
    || (text == ['\\', 'r'] && c == 13 as char)
    || (text == ['\\', 't'] && c == 9 as char)
  }

  /** c is the hex digit of d, in either case. */
  predicate DigitOf(c: char, d: nat) {
    if d < 10 then c as int == 0x30 + d
    else d < 16 && (c as int == 0x61 + (d - 10) || c as int == 0x41 + (d - 10))
  }

  /** Hex digit number k of n, counted from the right. */
  function HexAt(n: nat, k: nat): nat { if k == 0 then n % 16 else HexAt(n / 16, k - 1) }

  /** These are the digits, after \u. */
  predicate Spelt(text: string, a: nat, b: nat, c: nat, d: nat)
    requires |text| == 6
  {
    && text[0] == '\\' && text[1] == 'u'
    && DigitOf(text[2], a) && DigitOf(text[3], b) && DigitOf(text[4], c) && DigitOf(text[5], d)
  }

  /** Text writes the code unit n as \uXXXX, each digit in either case. */
  predicate WritesUnit(text: string, n: nat) {
    n < 0x1_0000 && |text| == 6 && Spelt(text, HexAt(n, 3), HexAt(n, 2), HexAt(n, 1), HexAt(n, 0))
  }

  /** Text writes c: as itself, by a two-character escape, by its code unit, or, beyond the basic plane, by its two
      surrogates. */
  predicate Writes(text: string, c: char) {
    || (text == [c] && c >= ' ' && c != '"' && c != '\\')
    || WritesShort(text, c)
    || WritesUnit(text, c as int)
    || (c as int >= 0x1_0000 && |text| == 12
        && WritesUnit(text[..6], 0xD800 + (c as int - 0x1_0000) / 0x400)
        && WritesUnit(text[6..], 0xDC00 + (c as int - 0x1_0000) % 0x400))
  }

  /** The text starts with a low surrogate, written as a code unit. */
  ghost predicate StartsLow(text: string) {
    |text| >= 6 && exists n: nat :: 0xDC00 <= n < 0xE000 && WritesUnit(text[..6], n)
  }

  /** A surrogate escape standing alone, before what does not start with its partner. */
  ghost predicate LoneSurrogate(text: string, rest: string) {
    exists n: nat :: WritesUnit(text, n) && (0xDC00 <= n < 0xE000 || (0xD800 <= n < 0xDC00 && !StartsLow(rest)))
  }

  lemma HexDigitIs(c: char, d: nat)
    requires d < 16
    ensures HexDigit(c) == Some(d) <==> DigitOf(c, d)
  {
  }

  lemma HexSum(n: nat)
    requires n < 0x1_0000
    ensures HexAt(n, 3) < 16 && HexAt(n, 2) < 16 && HexAt(n, 1) < 16 && HexAt(n, 0) < 16
    ensures n == 0x1000 * HexAt(n, 3) + 0x100 * HexAt(n, 2) + 0x10 * HexAt(n, 1) + HexAt(n, 0)
  {
    var m := n / 16;
    var l := m / 16;
    assert n == 16 * m + n % 16 && m == 16 * l + m % 16 && l == 16 * (l / 16) + l % 16 && l / 16 < 16;
    assert HexAt(n, 3) == HexAt(m, 2) == HexAt(l, 1) == HexAt(l / 16, 0);
    assert HexAt(n, 2) == HexAt(m, 1) == HexAt(l, 0);
    assert HexAt(n, 1) == HexAt(m, 0);
  }

  lemma SameNumber(a: nat, b: nat, c: nat, d: nat, e: nat, f: nat, g: nat, h: nat)
    requires a < 16 && b < 16 && c < 16 && d < 16 && e < 16 && f < 16 && g < 16 && h < 16
    ensures 0x1000 * a + 0x100 * b + 0x10 * c + d == 0x1000 * e + 0x100 * f + 0x10 * g + h <==>
      a == e && b == f && c == g && d == h
  {
  }

  /** The number four optional digits make. */
  function Number(a: Option<nat>, b: Option<nat>, c: Option<nat>, d: Option<nat>): Option<nat> {
    if a.None? || b.None? || c.None? || d.None? then None
    else Some(0x1000 * a.value + 0x100 * b.value + 0x10 * c.value + d.value)
  }

  lemma UnitIsNumber(text: string)
    requires |text| == 6
    ensures Unit(text) == if text[0] != '\\' || text[1] != 'u' then None
                          else Number(HexDigit(text[2]), HexDigit(text[3]), HexDigit(text[4]), HexDigit(text[5]))
  {
  }

  lemma SpeltReads(text: string, a: nat, b: nat, c: nat, d: nat)
    requires |text| == 6 && Spelt(text, a, b, c, d)
    ensures Unit(text) == Some(0x1000 * a + 0x100 * b + 0x10 * c + d)
  {
    UnitIsNumber(text);
    HexDigitIs(text[2], a);
    HexDigitIs(text[3], b);
    HexDigitIs(text[4], c);
    HexDigitIs(text[5], d);
  }

  lemma ReadsSpelt(text: string, w: nat, x: nat, y: nat, z: nat)
    requires |text| == 6 && text[0] == '\\' && text[1] == 'u'
    requires HexDigit(text[2]) == Some(w) && HexDigit(text[3]) == Some(x)
    requires HexDigit(text[4]) == Some(y) && HexDigit(text[5]) == Some(z)
    ensures Spelt(text, w, x, y, z)
  {
    HexDigitIs(text[2], w);
    HexDigitIs(text[3], x);
    HexDigitIs(text[4], y);
    HexDigitIs(text[5], z);
  }

  lemma ReadsIs(text: string, n: nat, a: nat, b: nat, c: nat, d: nat)
    requires |text| == 6 && a < 16 && b < 16 && c < 16 && d < 16 && n == 0x1000 * a + 0x100 * b + 0x10 * c + d
    requires Unit(text) == Some(n)
    ensures Spelt(text, a, b, c, d)
  {
    UnitIsNumber(text);
    var w, x, y, z := HexDigit(text[2]), HexDigit(text[3]), HexDigit(text[4]), HexDigit(text[5]);
    ReadsSpelt(text, w.value, x.value, y.value, z.value);
    SameNumber(w.value, x.value, y.value, z.value, a, b, c, d);
  }

  /** The decoder reads a code unit exactly where one is written. */
  lemma UnitIs(text: string, n: nat)
    requires |text| == 6 && n < 0x1_0000
    ensures Unit(text) == Some(n) <==> WritesUnit(text, n)
  {
    HexSum(n);
    if WritesUnit(text, n) { SpeltReads(text, HexAt(n, 3), HexAt(n, 2), HexAt(n, 1), HexAt(n, 0)); }
    if Unit(text) == Some(n) { ReadsIs(text, n, HexAt(n, 3), HexAt(n, 2), HexAt(n, 1), HexAt(n, 0)); }
  }

  lemma UnitWritten(text: string)
    requires |text| == 6 && Unit(text).Some?
    ensures WritesUnit(text, Unit(text).value)
  {
    UnitIs(text, Unit(text).value);
  }

  /** And a two-character escape exactly where the table has one. */
  lemma ShortIs(text: string, c: char)
    ensures WritesShort(text, c) <==> |text| == 2 && text[0] == '\\' && ShortEscape(text[1]) == Some(c)
  {
  }

  /** Two surrogates stand for one code point and back. */
  lemma SurrogatesOf(c: char, high: nat, low: nat)
    requires HighSurrogate(high) && LowSurrogate(low)
    ensures Combine(high, low) == c <==>
      c as int >= 0x1_0000 && high == 0xD800 + (c as int - 0x1_0000) / 0x400
      && low == 0xDC00 + (c as int - 0x1_0000) % 0x400
  {
  }

  function Flatten(pieces: seq<string>): string {
    if pieces == [] then "" else pieces[0] + Flatten(pieces[1..])
  }

  ghost predicate Escaping(pieces: seq<string>, s: string) {
    |pieces| == |s| && forall i {:trigger Writes(pieces[i], s[i])} | 0 <= i < |s| :: Writes(pieces[i], s[i])
  }

  lemma EscapingTail(pieces: seq<string>, s: string)
    requires Escaping(pieces, s) && s != ""
    ensures pieces != [] && Writes(pieces[0], s[0]) && Escaping(pieces[1..], s[1..])
  {
    assert Writes(pieces[0], s[0]);
    forall i {:trigger Writes(pieces[1..][i], s[1..][i])} | 0 <= i < |s| - 1 ensures Writes(pieces[1..][i], s[1..][i]) {
      assert Writes(pieces[i + 1], s[i + 1]);
    }
  }

  lemma UnitPrefix(text: string, rest: string)
    requires |text| >= 6
    ensures Unit(text + rest) == Unit(text[..6])
  {
  }

  lemma UnitReads(text: string, rest: string, n: nat)
    requires WritesUnit(text, n)
    ensures Unit(text + rest) == Some(n)
  {
    UnitIs(text, n);
    UnitPrefix(text, rest);
    assert text[..6] == text;
  }

  /** A pair is read as one character. */
  lemma PairReads(text: string, rest: string, c: char)
    requires c as int >= 0x1_0000 && |text| == 12
    requires WritesUnit(text[..6], 0xD800 + (c as int - 0x1_0000) / 0x400)
    requires WritesUnit(text[6..], 0xDC00 + (c as int - 0x1_0000) % 0x400)
    ensures Head(text + rest) == Some((c, 12))
  {
    var high, low := 0xD800 + (c as int - 0x1_0000) / 0x400, 0xDC00 + (c as int - 0x1_0000) % 0x400;
    assert text + rest == text[..6] + (text[6..] + rest) && (text + rest)[6..] == text[6..] + rest;
    UnitReads(text[..6], text[6..] + rest, high);
    UnitReads(text[6..], rest, low);
    SurrogatesOf(c, high, low);
    HeadOfPair(text + rest, high, low);
  }

  lemma HeadOfPair(body: string, high: nat, low: nat)
    requires Unit(body) == Some(high) && Unit(body[6..]) == Some(low) && HighSurrogate(high) && LowSurrogate(low)
    ensures Head(body) == Some((Combine(high, low), 12))
  {
  }

  /** Whatever follows, the decoder reads a written character back and stops behind it. */
  lemma HeadReads(text: string, rest: string, c: char)
    requires Writes(text, c)
    ensures text != "" && Head(text + rest) == Some((c, |text|))
  {
    ShortIs(text, c);
    if WritesUnit(text, c as int) {
      UnitReads(text, rest, c as int);
    } else if |text| == 12 {
      PairReads(text, rest, c);
    }
  }

  /** Each piece writes its character, or is a lone surrogate read as U+FFFD. */
  ghost predicate LooseEscaping(pieces: seq<string>, s: string) {
    && |pieces| == |s|
    && forall i {:trigger Piece(pieces, s, i)} | 0 <= i < |s| :: Piece(pieces, s, i)
  }

  ghost predicate Piece(pieces: seq<string>, s: string, i: nat)
    requires i < |pieces| && i < |s|
  {
    Writes(pieces[i], s[i]) || (s[i] == 0xFFFD as char && LoneSurrogate(pieces[i], Flatten(pieces[i + 1..])))
  }

  lemma LoneReads(text: string, rest: string)
    requires LoneSurrogate(text, rest)
    ensures text != "" && Head(text + rest) == Some((0xFFFD as char, |text|))
  {
    var n: nat :| WritesUnit(text, n) && (0xDC00 <= n < 0xE000 || (0xD800 <= n < 0xDC00 && !StartsLow(rest)));
    UnitReads(text, rest, n);
    StartsLowIs(rest);
    assert (text + rest)[6..] == rest;
  }

  lemma LooseTail(pieces: seq<string>, s: string)
    requires LooseEscaping(pieces, s) && s != ""
    ensures pieces != [] && Piece(pieces, s, 0) && LooseEscaping(pieces[1..], s[1..])
  {
    assert Piece(pieces, s, 0);
    forall i | 0 <= i < |s| - 1 ensures Piece(pieces[1..], s[1..], i) {
      assert Piece(pieces, s, i + 1);
      assert pieces[1..][i + 1..] == pieces[i + 2..];
    }
  }

  /** Any escaping of s, lone surrogates included, decodes to s. */
  lemma {:induction false} DecodeReadsLoosely(pieces: seq<string>, s: string)
    requires LooseEscaping(pieces, s)
    ensures Decode(Flatten(pieces)) == Ok(s)
    decreases |pieces|
  {
    if pieces != [] {
      var rest := Flatten(pieces[1..]);
      LooseTail(pieces, s);
      if Writes(pieces[0], s[0]) { HeadReads(pieces[0], rest, s[0]); } else { LoneReads(pieces[0], rest); }
      assert (pieces[0] + rest)[|pieces[0]|..] == rest;
      DecodeReadsLoosely(pieces[1..], s[1..]);
      assert s == [s[0]] + s[1..];
    }
  }

  /** So any proper escaping of s decodes to s. */
  lemma DecodeReads(pieces: seq<string>, s: string)
    requires Escaping(pieces, s)
    ensures Decode(Flatten(pieces)) == Ok(s)
  {
    forall i | 0 <= i < |s| ensures Piece(pieces, s, i) { assert Writes(pieces[i], s[i]); }
    DecodeReadsLoosely(pieces, s);
  }

  /** A code unit at the start of a body. */
  lemma UnitStarts(body: string)
    requires |body| >= 6
    ensures Unit(body) == Unit(body[..6])
    ensures Unit(body).Some? ==> WritesUnit(body[..6], Unit(body).value)
  {
    assert body[..6] + body[6..] == body;
    UnitPrefix(body[..6], body[6..]);
    assert body[..6][..6] == body[..6];
    if Unit(body).Some? { UnitWritten(body[..6]); }
  }

  lemma StartsLowIs(rest: string)
    ensures StartsLow(rest) <==> Unit(rest).Some? && LowSurrogate(Unit(rest).value)
  {
    if |rest| >= 6 {
      UnitStarts(rest);
      forall n: nat | WritesUnit(rest[..6], n) ensures Unit(rest[..6]) == Some(n) { UnitIs(rest[..6], n); }
    }
  }

  /** The first unit is half of a pair, or stands alone. */
  lemma PairWrites(body: string)
    requires |body| >= 12 && Unit(body).Some? && HighSurrogate(Unit(body).value)
    requires Unit(body[6..]).Some? && LowSurrogate(Unit(body[6..]).value)
    ensures Writes(body[..12], Combine(Unit(body).value, Unit(body[6..]).value))
  {
    var high, low := Unit(body).value, Unit(body[6..]).value;
    UnitStarts(body);
    UnitStarts(body[6..]);
    TwoUnits(body);
    WrittenPair(body[..12], high, low);
  }

  lemma WrittenPair(text: string, high: nat, low: nat)
    requires |text| == 12 && HighSurrogate(high) && LowSurrogate(low)
    requires WritesUnit(text[..6], high) && WritesUnit(text[6..], low)
    ensures Writes(text, Combine(high, low))
  {
    SurrogatesOf(Combine(high, low), high, low);
  }

  lemma TwoUnits(body: string)
    requires |body| >= 12
    ensures body[..12][..6] == body[..6] && body[..12][6..] == body[6..][..6]
  {
  }

  lemma EscapeWrites(body: string)
    requires |body| >= 6 && Unit(body).Some? && ShortEscape(body[1]).None?
    ensures Head(body).Some?
    ensures var (c, n) := Head(body).value;
      n <= |body| && (Writes(body[..n], c) || (c == 0xFFFD as char && LoneSurrogate(body[..n], body[n..])))
  {
    UnitStarts(body);
    StartsLowIs(body[6..]);
    if HighSurrogate(Unit(body).value) && StartsLow(body[6..]) { PairWrites(body); }
  }

  lemma HeadWrites(body: string)
    requires body != "" && Head(body).Some?
    ensures var (c, n) := Head(body).value;
      Writes(body[..n], c) || (c == 0xFFFD as char && LoneSurrogate(body[..n], body[n..]))
  {
    if body[0] == '\\' {
      if |body| >= 2 && ShortEscape(body[1]).Some? {
        ShortIs(body[..2], ShortEscape(body[1]).value);
      } else {
        EscapeWrites(body);
      }
    }
  }

  lemma LooseCons(first: string, c: char, pieces: seq<string>, s: string)
    requires LooseEscaping(pieces, s)
    requires Writes(first, c) || (c == 0xFFFD as char && LoneSurrogate(first, Flatten(pieces)))
    ensures LooseEscaping([first] + pieces, [c] + s)
  {
    var all, text := [first] + pieces, [c] + s;
    assert all[1..] == pieces;
    forall i | 0 <= i < |text| ensures Piece(all, text, i) {
      if i > 0 {
        assert Piece(pieces, s, i - 1);
        assert all[i + 1..] == pieces[i..];
      }
    }
  }

  /** And nothing else decodes: a body the decoder accepts is an escaping of what it returns, up to lone surrogates. */
  lemma {:induction false} DecodeOnlyReads(body: string) returns (pieces: seq<string>)
    requires Decode(body).Ok?
    ensures Flatten(pieces) == body && LooseEscaping(pieces, Decode(body).value)
    decreases |body|
  {
    if body == "" {
      pieces := [];
    } else {
      var (c, n) := Head(body).value;
      HeadWrites(body);
      var rest := DecodeOnlyReads(body[n..]);
      LooseCons(body[..n], c, rest, Decode(body[n..]).value);
      pieces := [body[..n]] + rest;
      assert pieces[1..] == rest;
      assert body == body[..n] + body[n..];
    }
  }
}
