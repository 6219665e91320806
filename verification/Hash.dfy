/** The snapshot key: a digest of NUL-terminated parts. */
module Hash {
  const NUL: char := 0 as char

  /** SHA-256 taken as injective: a digest is known by the text that was hashed. */
  datatype Digest = Sha256(hashed: string)

  /** Each part followed by a NUL. */
  function Frame(parts: seq<string>): string {
    if parts == [] then "" else Frame(parts[..|parts| - 1]) + parts[|parts| - 1] + [NUL]
  }

  function Sum(parts: seq<string>): Digest { Sha256(Frame(parts)) }

  /** The running hasher. */
  class Hasher {
    var written: string

    constructor ()
      ensures written == ""
    {
      written := "";
    }

    method Write(s: string)
      modifies this
      ensures written == old(written) + s
    {
      written := written + s;
    }
  }

  method Sha256NewSum(parts: seq<string>) returns (d: Digest)
    ensures d == Sum(parts)
  {
    var h := new Hasher();
    for i := 0 to |parts|
      invariant fresh(h) && h.written == Frame(parts[..i])
    {
      assert parts[..i + 1][..i] == parts[..i];
      h.Write(parts[i]);
      h.Write([NUL]);
    }
    assert parts[..|parts|] == parts;
    d := Sha256(h.written);
  }

  // ---- reading a framed text back ----

  /** The part that is being read, and the parts completed by their NUL. */
  function Unframe(text: string): (r: (seq<string>, string)) {
    if text == "" then ([], "")
    else
      var (done, open) := Unframe(text[..|text| - 1]);
      var c := text[|text| - 1];
      if c == NUL then (done + [open], "") else (done, open + [c])
  }

  predicate NulFree(s: string) { NUL !in s }

  ghost predicate AllNulFree(parts: seq<string>) { forall p | p in parts :: NulFree(p) }

  lemma {:induction false} UnframePlain(text: string, part: string)
    requires NulFree(part)
    ensures Unframe(text + part) == (Unframe(text).0, Unframe(text).1 + part)
  {
    if part == "" {
      assert text + part == text;
      assert Unframe(text).1 + part == Unframe(text).1;
    } else {
      var n := |part| - 1;
      assert part[n] in part;
      assert (text + part)[..|text + part| - 1] == text + part[..n];
      UnframePlain(text, part[..n]);
      assert Unframe(text).1 + part[..n] + [part[n]] == Unframe(text).1 + part;
    }
  }

  lemma {:induction false} UnframeFrame(parts: seq<string>)
    requires AllNulFree(parts)
    ensures Unframe(Frame(parts)) == (parts, "")
  {
    if parts != [] {
      var n := |parts| - 1;
      UnframeFrame(parts[..n]);
      var text := Frame(parts[..n]) + parts[n];
      UnframePlain(Frame(parts[..n]), parts[n]);
      assert (text + [NUL])[..|text + [NUL]| - 1] == text;
      assert "" + parts[n] == parts[n];
      assert parts[..n] + [parts[n]] == parts;
    }
  }

  /** What Unframe returns never holds a NUL. */
  lemma {:induction false} UnframeNulFree(text: string)
    ensures AllNulFree(Unframe(text).0) && NulFree(Unframe(text).1)
  {
    if text != "" {
      UnframeNulFree(text[..|text| - 1]);
    }
  }

  /** The framing can be read back exactly when no part holds a NUL. */
  lemma ReadableIffNulFree(parts: seq<string>)
    ensures Unframe(Frame(parts)).0 == parts <==> AllNulFree(parts)
  {
    UnframeNulFree(Frame(parts));
    if AllNulFree(parts) { UnframeFrame(parts); }
  }

  /** Distinct NUL-free part lists never share a digest. */
  lemma SumInjective(a: seq<string>, b: seq<string>)
    requires AllNulFree(a) && AllNulFree(b)
    ensures Sum(a) == Sum(b) <==> a == b
  {
    UnframeFrame(a);
    UnframeFrame(b);
  }

  /** With a NUL inside a part two different listing states do share one. */
  lemma SumCollidesOnNul()
    ensures var a, b := [[NUL], "", "", ""], ["", [NUL], "", ""]; a != b && Sum(a) == Sum(b)
  {
    var a, b := [[NUL], "", "", ""], ["", [NUL], "", ""];
    assert a[0] != b[0];
    FourFrame([NUL], "", "", "");
    FourFrame("", [NUL], "", "");
    assert [NUL] + [NUL] + "" + [NUL] + "" + [NUL] + "" + [NUL] == "" + [NUL] + [NUL] + [NUL] + "" + [NUL] + "" + [NUL];
  }

  lemma FourFrame(p: string, q: string, r: string, s: string)
    ensures Frame([p, q, r, s]) == p + [NUL] + q + [NUL] + r + [NUL] + s + [NUL]
  {
    assert [p, q, r, s][..3] == [p, q, r];
    assert [p, q, r][..2] == [p, q];
    assert [p, q][..1] == [p];
    assert [p][..0] == [];
    assert Frame([p]) == "" + p + [NUL] == p + [NUL];
    assert Frame([p, q]) == p + [NUL] + q + [NUL];
    assert Frame([p, q, r]) == p + [NUL] + q + [NUL] + r + [NUL];
  }
}
