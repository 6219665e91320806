/** Getting the prerendered state out of a page: find the marker, walk the string literal after it, decode it. */
module Scanner {
  import opened Common
  import opened Json

  const MARKER := "__PRERENDERED_STATE__"
  const QUOTE := '"'

  datatype Extraction = State(text: string) | NoMarker | NoQuote | Unterminated | BadLiteral

  // ---- what is being looked for ----

  predicate OccursAt(pattern: string, s: string, k: nat) { k + |pattern| <= |s| && s[k..k + |pattern|] == pattern }

  /** Where pattern first occurs in s at k or later. */
  function IndexFrom(s: string, pattern: string, k: nat): (r: Option<nat>)
    requires k <= |s|
    ensures r.Some? ==> k <= r.value && OccursAt(pattern, s, r.value)
    decreases |s| - k
  {
    if OccursAt(pattern, s, k) then Some(k)
    else if k == |s| then None
    else IndexFrom(s, pattern, k + 1)
  }

  /** How many backslashes stand directly before position k, counting back no further than the opening quote. */
  function Backslashes(s: string, open: nat, k: nat): nat
    requires k <= |s|
  {
    if k <= open + 1 || s[k - 1] != '\\' then 0 else 1 + Backslashes(s, open, k - 1)
  }

  /** A quote that no backslash escapes. */
  predicate Closes(s: string, open: nat, k: nat) {
    open < k < |s| && s[k] == '"' && Backslashes(s, open, k) % 2 == 0
  }

  function CloseFrom(s: string, open: nat, k: nat): (r: Option<nat>)
    requires open < k <= |s|
    ensures r.Some? ==> k <= r.value && Closes(s, open, r.value)
    decreases |s| - k
  {
    if Closes(s, open, k) then Some(k)
    else if k == |s| then None
    else CloseFrom(s, open, k + 1)
  }

  /** The search returns k exactly when pattern occurs there and nowhere between. */
  lemma {:induction false} IndexIs(s: string, pattern: string, from: nat, k: nat)
    requires from <= |s| && from <= k
    ensures IndexFrom(s, pattern, from) == Some(k) <==>
      OccursAt(pattern, s, k) && forall j | from <= j < k :: !OccursAt(pattern, s, j)
    decreases |s| - from
  {
    if !OccursAt(pattern, s, from) && from < |s| && from < k { IndexIs(s, pattern, from + 1, k); }
  }

  lemma {:induction false} IndexNone(s: string, pattern: string, from: nat)
    requires from <= |s|
    ensures IndexFrom(s, pattern, from).None? <==> forall j | from <= j <= |s| :: !OccursAt(pattern, s, j)
    decreases |s| - from
  {
    if !OccursAt(pattern, s, from) && from < |s| { IndexNone(s, pattern, from + 1); }
  }

  lemma {:induction false} CloseIs(s: string, open: nat, from: nat, k: nat)
    requires open < from <= |s| && from <= k
    ensures CloseFrom(s, open, from) == Some(k) <==> Closes(s, open, k) && forall j | from <= j < k ::
      !Closes(s, open, j)
    decreases |s| - from
  {
    if !Closes(s, open, from) && from < |s| && from < k { CloseIs(s, open, from + 1, k); }
  }

  lemma {:induction false} CloseNone(s: string, open: nat, from: nat)
    requires open < from <= |s|
    ensures CloseFrom(s, open, from).None? <==> forall j | from <= j <= |s| :: !Closes(s, open, j)
    decreases |s| - from
  {
    if !Closes(s, open, from) && from < |s| { CloseNone(s, open, from + 1); }
  }

  /** The literal from its opening quote to its closing one, decoded. */
  function Inner(html: string, open: nat, close: nat): Extraction
    requires open < close < |html|
  {
    var inner := DecodeLiteral(html[open..close + 1]);
    if inner.Err? then BadLiteral else State(inner.value)
  }

  /** The text between an opening quote and the first unescaped quote behind it, decoded. */
  function LiteralAt(html: string, open: nat): Extraction
    requires open < |html|
  {
    var close := CloseFrom(html, open, open + 1);
    if close.None? then Unterminated else Inner(html, open, close.value)
  }

  /** The literal at the first quote behind the first marker. */
  function ExtractBy(marker: string, html: string): Extraction {
    var start := IndexFrom(html, marker, 0);
    if start.None? then NoMarker
    else
      var open := IndexFrom(html, [QUOTE], start.value);
      if open.None? then NoQuote else LiteralAt(html, open.value)
  }

  function Extract(html: string): Extraction { ExtractBy(MARKER, html) }

  lemma BetweenQuotes(s: string, open: nat, close: nat)
    requires open < close < |s|
    ensures s[open..close + 1][1..close - open] == s[open + 1..close]
  {
    var literal := s[open..close + 1];
    var a, b := literal[1..close - open], s[open + 1..close];
    assert |a| == |b|;
    forall i | 0 <= i < |a| ensures a[i] == b[i] { assert a[i] == literal[i + 1]; }
  }

  lemma InnerIs(html: string, open: nat, close: nat)
    requires open < close < |html|
    ensures var body := html[open + 1..close];
      Inner(html, open, close) ==
        if html[open] == QUOTE && html[close] == QUOTE && Decode(body).Ok? then State(Decode(body).value)
          else BadLiteral
  {
    BetweenQuotes(html, open, close);
  }

  // ---- the walk ----

  /** Behind an even run of backslashes, a backslash and whatever follows it are no closing quote. */
  lemma SkipEscape(s: string, open: nat, i: nat)
    requires open < i < |s| && s[i] == '\\' && Backslashes(s, open, i) % 2 == 0
    ensures !Closes(s, open, i) && !Closes(s, open, i + 1)
    ensures i + 2 <= |s| ==> Backslashes(s, open, i + 2) % 2 == 0
  {
    assert Backslashes(s, open, i + 1) == 1 + Backslashes(s, open, i);
  }

  /** The source's loop: a backslash skips two positions, which may step over the end of the page. */
  method WalkLiteral(html: string, quoteStart: nat) returns (r: Extraction)
    requires quoteStart < |html|
    ensures r == LiteralAt(html, quoteStart)
  {
    var i := quoteStart + 1;
    while i < |html|
      invariant quoteStart < i <= |html| + 1
      invariant i <= |html| ==> Backslashes(html, quoteStart, i) % 2 == 0
      invariant CloseFrom(html, quoteStart, quoteStart + 1) == if i <= |html| then CloseFrom(html, quoteStart, i)
        else None
      decreases |html| + 1 - i
    {
      if html[i] == '\\' {
        SkipEscape(html, quoteStart, i);
        i := i + 2;
        continue;
      }
      if html[i] == QUOTE {
        assert Closes(html, quoteStart, i);
        var inner := DecodeLiteral(html[quoteStart..i + 1]);
        return if inner.Err? then BadLiteral else State(inner.value);
      }
      i := i + 1;
    }
    r := Unterminated;
  }

  method ExtractPrerenderedState(html: string) returns (r: Extraction)
    ensures r == Extract(html)
  {
    var start := IndexFrom(html, MARKER, 0);
    if start.None? { return NoMarker; }
    var quote := IndexFrom(html, [QUOTE], start.value);
    if quote.None? { return NoQuote; }
    r := WalkLiteral(html, quote.value);
  }

  // ---- main results ----

  /** The scanner stops at the first quote with an even run of backslashes before it. */
  lemma StopsAtFirstClose(html: string, open: nat, k: nat)
    requires Closes(html, open, k) && forall j: nat | j < k :: !Closes(html, open, j)
    ensures LiteralAt(html, open) == Inner(html, open, k)
  {
    CloseIs(html, open, open + 1, k);
  }

  /** It reports an unterminated literal exactly when there is no such quote. */
  lemma UnterminatedExactly(html: string, open: nat)
    requires open < |html|
    ensures LiteralAt(html, open) == Unterminated <==> forall k: nat :: !Closes(html, open, k)
  {
    CloseNone(html, open, open + 1);
  }

  /** A marker is missing exactly when it occurs nowhere, the quote exactly when none follows the first marker. */
  lemma {:induction false} MissingExactly(marker: string, html: string)
    ensures ExtractBy(marker, html) == NoMarker <==> forall k: nat :: !OccursAt(marker, html, k)
    ensures ExtractBy(marker, html) == NoQuote <==>
      exists k: nat :: OccursAt(marker, html, k) && (forall j: nat | j < k :: !OccursAt(marker, html, j))
                       && forall j: nat | k <= j :: !OccursAt([QUOTE], html, j)
  {
    IndexNone(html, marker, 0);
    var start := IndexFrom(html, marker, 0);
    if start.Some? {
      IndexIs(html, marker, 0, start.value);
      IndexNone(html, [QUOTE], start.value);
    }
    forall k: nat | OccursAt(marker, html, k) && forall j: nat | j < k :: !OccursAt(marker, html, j)
      ensures start == Some(k)
    {
      IndexIs(html, marker, 0, k);
    }
  }

  ghost predicate NoClose(s: string, open: nat, lo: nat, hi: nat) {
    forall k | lo <= k < hi :: !Closes(s, open, k)
  }

  lemma NoCloseJoins(s: string, open: nat, lo: nat, mid: nat, hi: nat)
    requires NoClose(s, open, lo, mid) && NoClose(s, open, mid, hi)
    ensures NoClose(s, open, lo, hi)
  {
  }

  /** Scanning an escape: no closing quote in it, an even run of backslashes behind it. */
  lemma EscapeIsSkipped(s: string, open: nat, b: nat, piece: string)
    requires open < b && OccursAt(piece, s, b) && |piece| >= 2 && piece[0] == '\\'
    requires forall k | 2 <= k < |piece| :: piece[k] != '"' && piece[k] != '\\'
    requires Backslashes(s, open, b) % 2 == 0
    ensures NoClose(s, open, b, b + |piece|)
    ensures Backslashes(s, open, b + |piece|) % 2 == 0
  {
    assert forall k | 0 <= k < |piece| :: s[b + k] == piece[k];
    SkipEscape(s, open, b);
    forall k | b <= k < b + |piece| ensures !Closes(s, open, k) {
      if k >= b + 2 { assert s[k] == piece[k - b]; }
    }
    if |piece| > 2 { assert s[b + |piece| - 1] == piece[|piece| - 1]; }
  }

  /** Scanning a piece that writes one character: the same. */
  lemma PieceIsSkipped(s: string, open: nat, b: nat, piece: string, c: char)
    requires open < b && OccursAt(piece, s, b) && Writes(piece, c)
    requires Backslashes(s, open, b) % 2 == 0
    ensures NoClose(s, open, b, b + |piece|)
    ensures Backslashes(s, open, b + |piece|) % 2 == 0
  {
    if piece == [c] && c != '"' && c != '\\' {
      assert s[b..b + 1][0] == s[b];
    } else if WritesUnit(piece, c as int) {
      UnitIsQuiet(piece, c as int);
      EscapeIsSkipped(s, open, b, piece);
    } else if |piece| == 12 {
      var high, low := 0xD800 + (c as int - 0x1_0000) / 0x400, 0xDC00 + (c as int - 0x1_0000) % 0x400;
      PairIsSkipped(s, open, b, piece[..6], high, piece[6..], low);
      assert piece == piece[..6] + piece[6..];
    } else {
      EscapeIsSkipped(s, open, b, piece);
    }
  }

  lemma PairIsSkipped(s: string, open: nat, b: nat, p: string, m: nat, q: string, n: nat)
    requires open < b && OccursAt(p + q, s, b) && WritesUnit(p, m) && WritesUnit(q, n)
    requires Backslashes(s, open, b) % 2 == 0
    ensures NoClose(s, open, b, b + |p + q|)
    ensures Backslashes(s, open, b + |p + q|) % 2 == 0
  {
    OccursSplit(p, q, s, b);
    UnitIsQuiet(p, m);
    EscapeIsSkipped(s, open, b, p);
    UnitIsQuiet(q, n);
    EscapeIsSkipped(s, open, b + |p|, q);
    NoCloseJoins(s, open, b, b + |p|, b + |p + q|);
  }

  /** Behind its backslash, a code unit escape has neither quotes nor backslashes. */
  lemma UnitIsQuiet(text: string, n: nat)
    requires WritesUnit(text, n)
    ensures text[0] == '\\' && forall k | 1 <= k < 6 :: text[k] != '"' && text[k] != '\\'
  {
    UnitIs(text, n);
    DigitsAreQuiet(text);
  }

  lemma DigitsAreQuiet(text: string)
    requires |text| == 6 && Unit(text).Some?
    ensures text[0] == '\\' && forall k | 1 <= k < 6 :: text[k] != '"' && text[k] != '\\'
  {
  }

  lemma OccursSplit(p: string, q: string, s: string, b: nat)
    requires OccursAt(p + q, s, b)
    ensures OccursAt(p, s, b) && OccursAt(q, s, b + |p|)
  {
    var whole := s[b..b + |p + q|];
    assert whole[..|p|] == p && whole[|p|..] == q;
    assert s[b..b + |p|] == whole[..|p|];
    assert s[b + |p|..b + |p| + |q|] == whole[|p|..];
  }

  lemma {:induction false} BodyIsSkipped(s: string, open: nat, b: nat, pieces: seq<string>, text: string)
    requires open < b && OccursAt(Flatten(pieces), s, b) && Escaping(pieces, text)
    requires Backslashes(s, open, b) % 2 == 0
    ensures NoClose(s, open, b, b + |Flatten(pieces)|)
    ensures Backslashes(s, open, b + |Flatten(pieces)|) % 2 == 0
    decreases |pieces|
  {
    if pieces != [] {
      OccursSplit(pieces[0], Flatten(pieces[1..]), s, b);
      EscapingTail(pieces, text);
      PieceIsSkipped(s, open, b, pieces[0], text[0]);
      var mid := b + |pieces[0]|;
      BodyIsSkipped(s, open, mid, pieces[1..], text[1..]);
      NoCloseJoins(s, open, b, mid, mid + |Flatten(pieces[1..])|);
    }
  }

  lemma MarkerHasNoQuote()
    ensures forall k | 0 <= k < |MARKER| :: MARKER[k] != '"'
  {
  }

  /** A character of a text in the middle of another. */
  lemma Inside(s: string, pre: string, mid: string, post: string, j: nat)
    requires s == pre + mid + post && |pre| <= j < |pre| + |mid|
    ensures s[j] == mid[j - |pre|]
  {
  }

  /** No quote from any occurrence of m that reaches past the prefix up to the end of the gap. */
  lemma QuoteFree(html: string, m: string, prefix: string, gap: string, rest: string, start: nat, j: nat)
    requires html == prefix + m + gap + rest
    requires (forall k | 0 <= k < |m| :: m[k] != '"') && '"' !in gap
    requires OccursAt(m, html, start) && |prefix| < start + |m| && start <= |prefix|
    requires start <= j < |prefix| + |m| + |gap|
    ensures html[j] != '"'
  {
    if j < start + |m| {
      assert html[j] == html[start..start + |m|][j - start];
    } else if j < |prefix| + |m| {
      assert html == prefix + m + (gap + rest);
      Inside(html, prefix, m, gap + rest, j);
    } else {
      Inside(html, prefix + m, gap, rest, j);
    }
  }

  /** An occurrence that ends within the prefix is one of the prefix. */
  lemma Within(html: string, m: string, prefix: string, rest: string, start: nat)
    requires html == prefix + rest && OccursAt(m, html, start) && start + |m| <= |prefix|
    ensures OccursAt(m, prefix, start)
  {
    assert prefix[start..start + |m|] == html[start..start + |m|];
  }

  /** A marker without quotes, a prefix without the marker, a gap without quotes. */
  ghost predicate Unambiguous(m: string, prefix: string, gap: string) {
    && m != "" && (forall k | 0 <= k < |m| :: m[k] != '"')
    && (forall k: nat :: !OccursAt(m, prefix, k))
    && '"' !in gap
  }

  /** The first quote behind the first marker is the one behind the gap, even if the prefix ends in the beginning of
      a marker, so that the first occurrence overlaps the intended one. */
  lemma OpeningQuote(html: string, m: string, prefix: string, gap: string, rest: string)
    requires Unambiguous(m, prefix, gap) && rest != "" && rest[0] == QUOTE
    requires html == prefix + m + gap + rest
    ensures |prefix| + |m| + |gap| < |html| && ExtractBy(m, html) == LiteralAt(html, |prefix| + |m| + |gap|)
  {
    var open := |prefix| + |m| + |gap|;
    assert OccursAt(m, html, |prefix|);
    IndexNone(html, m, 0);
    var start := IndexFrom(html, m, 0).value;
    assert |prefix| < start + |m| by {
      assert html == prefix + (m + gap + rest);
      if start + |m| <= |prefix| { Within(html, m, prefix, m + gap + rest, start); }
    }
    IndexIs(html, m, 0, start);
    assert OccursAt([QUOTE], html, open);
    forall j | start <= j < open ensures !OccursAt([QUOTE], html, j) {
      QuoteFree(html, m, prefix, gap, rest, start, j);
      assert html[j..j + 1][0] == html[j];
    }
    IndexIs(html, [QUOTE], start, open);
  }

  /** A literal with this body opens here. */
  ghost predicate LiteralHere(html: string, open: nat, body: string) {
    && open + 1 + |body| < |html| && html[open] == QUOTE && html[open + 1 + |body|] == QUOTE
    && html[open + 1..open + 1 + |body|] == body
  }

  lemma LiteralRoundTrip(html: string, open: nat, pieces: seq<string>, text: string)
    requires LiteralHere(html, open, Flatten(pieces)) && Escaping(pieces, text)
    ensures LiteralAt(html, open) == State(text)
  {
    var close := open + 1 + |Flatten(pieces)|;
    BodyIsSkipped(html, open, open + 1, pieces, text);
    StopsAtFirstClose(html, open, close);
    DecodeReads(pieces, text);
    InnerIs(html, open, close);
  }

  /** A page: the prefix, the marker, the gap, the literal and what follows. */
  function Page(marker: string, prefix: string, gap: string, body: string, suffix: string): string {
    prefix + marker + gap + ([QUOTE] + body + [QUOTE] + suffix)
  }

  lemma LiteralIsHere(front: string, body: string, suffix: string)
    ensures LiteralHere(front + ([QUOTE] + body + [QUOTE] + suffix), |front|, body)
  {
  }

  lemma PageOpens(m: string, prefix: string, gap: string, body: string, suffix: string)
    ensures var html, open := Page(m, prefix, gap, body, suffix), |prefix| + |m| + |gap|;
      open < |html| && (Unambiguous(m, prefix, gap) ==> ExtractBy(m, html) == LiteralAt(html, open))
  {
    if Unambiguous(m, prefix, gap) {
      OpeningQuote(Page(m, prefix, gap, body, suffix), m, prefix, gap, [QUOTE] + body + [QUOTE] + suffix);
    }
  }

  lemma PageDecodes(m: string, prefix: string, gap: string, pieces: seq<string>, text: string, suffix: string)
    ensures var html, open := Page(m, prefix, gap, Flatten(pieces), suffix), |prefix| + |m| + |gap|;
      open < |html| && (Escaping(pieces, text) ==> LiteralAt(html, open) == State(text))
  {
    LiteralIsHere(prefix + m + gap, Flatten(pieces), suffix);
    if Escaping(pieces, text) {
      LiteralRoundTrip(Page(m, prefix, gap, Flatten(pieces), suffix), |prefix| + |m| + |gap|, pieces, text);
    }
  }

  /** Round trip: whatever text is embedded, by whatever valid escaping, behind any prefix without the marker and any
      gap without a quote, and whatever follows, extraction returns exactly that text. */
  lemma ExtractionRoundTrip(prefix: string, gap: string, pieces: seq<string>, text: string, suffix: string)
    requires forall k: nat :: !OccursAt("__PRERENDERED_STATE__", prefix, k)
    requires '"' !in gap
    requires Escaping(pieces, text)
    ensures Extract(Page("__PRERENDERED_STATE__", prefix, gap, Flatten(pieces), suffix)) == State(text)
  {
    MarkerHasNoQuote();
    PageOpens(MARKER, prefix, gap, Flatten(pieces), suffix);
    PageDecodes(MARKER, prefix, gap, pieces, text, suffix);
  }

  lemma InnerWasEmbedded(html: string, open: nat, close: nat, text: string) returns (pieces: seq<string>)
    requires open < close < |html| && Inner(html, open, close) == State(text)
    ensures html[open + 1..close] == Flatten(pieces) && LooseEscaping(pieces, text)
  {
    InnerIs(html, open, close);
    pieces := DecodeOnlyReads(html[open + 1..close]);
  }

  /** Conversely, what extraction returns stands there: behind the first marker and the first quote, up to the first
      unescaped quote, is an escaping of it, lone surrogates aside. */
  lemma ExtractedWasEmbedded(m: string, html: string, text: string)
    returns (start: nat, open: nat, close: nat, pieces: seq<string>)
    requires ExtractBy(m, html) == State(text)
    ensures IndexFrom(html, m, 0) == Some(start) && start <= |html| && IndexFrom(html, [QUOTE], start) == Some(open)
    ensures Closes(html, open, close) && forall j | open < j < close :: !Closes(html, open, j)
    ensures html[open + 1..close] == Flatten(pieces) && LooseEscaping(pieces, text)
  {
    start := IndexFrom(html, m, 0).value;
    open := IndexFrom(html, [QUOTE], start).value;
    close := CloseFrom(html, open, open + 1).value;
    CloseIs(html, open, open + 1, close);
    pieces := InnerWasEmbedded(html, open, close, text);
  }
}
