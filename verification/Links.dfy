/** Listing links of a page: what the two extraction loops collect, and what that collection is. */
module Links {
  import opened Common
  import Pipeline

  /** What came back from the site: no usable answer, or a status and the href of every anchor, in order. A page
      that cannot be parsed is Unreadable. */
  datatype Answer = Unreachable | Unreadable(status: int) | Page(status: int, anchors: seq<Option<string>>)
  {
    function Status(): int { if Unreachable? then 0 else status }
  }

  /** The enricher takes an href as it stands. */
  const AS_IS: string -> string := href => href

  predicate HasPrefix(s: string, prefix: string) { prefix <= s }

  predicate IsListingURL(href: string) {
    HasPrefix(href, "https://www.olx.ua/d/") || HasPrefix(href, "https://www.olx.ua/uk/d/")
  }

  /** The link an anchor contributes, if any. clean resolves and cleans; "" means it could not. */
  function Link(clean: string -> string, anchor: Option<string>): Option<string> {
    if anchor.Some? && clean(anchor.value) != "" && IsListingURL(clean(anchor.value)) then Some(clean(anchor.value))
      else None
  }

  /** The accepted links of a page, repetitions included. */
  function Accepted(clean: string -> string, anchors: seq<Option<string>>): seq<string> {
    if anchors == [] then []
    else
      var n := |anchors| - 1;
      var link := Link(clean, anchors[n]);
      Accepted(clean, anchors[..n]) + if link.Some? then [link.value] else []
  }

  /** Each element once, where it first occurs. */
  function Dedup<T(==)>(xs: seq<T>): seq<T> {
    if xs == [] then []
    else
      var n := |xs| - 1;
      Dedup(xs[..n]) + if xs[n] in xs[..n] then [] else [xs[n]]
  }

  /** The answer classified: transient failures are errors, any other refusal is an empty page. */
  function Extracted(clean: string -> string, a: Answer): Result<seq<string>> {
    if a.Unreachable? || Pipeline.Transient(a.Status()) then Err
    else if a.Status() >= 400 then Ok([])
    else if a.Unreadable? then Err
    else Ok(Dedup(Accepted(clean, a.anchors)))
  }

  lemma OneMore(clean: string -> string, anchors: seq<Option<string>>, i: nat)
    requires i < |anchors|
    ensures var before, link := Accepted(clean, anchors[..i]), Link(clean, anchors[i]);
      var after := Accepted(clean, anchors[..i + 1]);
      if link.None? then after == before
      else after == before + [link.value]
           && Dedup(after) == if link.value in before then Dedup(before) else Dedup(before) + [link.value]
  {
    assert anchors[..i + 1][..i] == anchors[..i];
    var before, after := Accepted(clean, anchors[..i]), Accepted(clean, anchors[..i + 1]);
    if Link(clean, anchors[i]).Some? { assert after[..|before|] == before; }
  }

  /** Discovery's extraction: every href is resolved and cleaned before it is judged. */
  method FetchListingURLs(clean: string -> string, a: Answer) returns (r: Result<seq<string>>)
    ensures r == Extracted(clean, a)
    ensures r.Err? <==> a.Unreachable? || a.status >= 500 || a.status == 429 || (a.Unreadable? && a.status < 400)
    ensures !a.Unreachable? && 400 <= a.status < 500 && a.status != 429 ==> r == Ok([])
    ensures a.Page? && a.status < 400 ==> r.Ok? && Lists(clean, a.anchors, r.value)
  {
    if a.Unreachable? { return Err; }
    if a.Status() >= 500 || a.Status() == 429 { return Err; }
    if a.Status() >= 400 { return Ok([]); }
    if a.Unreadable? { return Err; }
    var seen: set<string> := {};
    var urls := [];
    for i := 0 to |a.anchors|
      invariant forall u :: u in seen <==> u in Accepted(clean, a.anchors[..i])
      invariant urls == Dedup(Accepted(clean, a.anchors[..i]))
    {
      OneMore(clean, a.anchors, i);
      if a.anchors[i].None? { continue; }
      var abs := clean(a.anchors[i].value);
      if abs == "" || !IsListingURL(abs) { continue; }
      if abs in seen { continue; }
      seen := seen + {abs};
      urls := urls + [abs];
    }
    assert a.anchors[..|a.anchors|] == a.anchors;
    ExtractedIs(clean, a, urls);
    r := Ok(urls);
  }

  /** The enricher's extraction: hrefs are judged as they stand. */
  method FetchProfile(a: Answer) returns (r: Result<seq<string>>)
    ensures r == Extracted(AS_IS, a)
    ensures r.Err? <==> a.Unreachable? || a.status >= 500 || a.status == 429 || (a.Unreadable? && a.status < 400)
    ensures !a.Unreachable? && 400 <= a.status < 500 && a.status != 429 ==> r == Ok([])
    ensures a.Page? && a.status < 400 ==> r.Ok? && Lists(AS_IS, a.anchors, r.value)
  {
    if a.Unreachable? { return Err; }
    if a.Status() >= 500 || a.Status() == 429 { return Err; }
    if a.Status() >= 400 { return Ok([]); }
    if a.Unreadable? { return Err; }
    var seen: set<string> := {};
    var urls := [];
    for i := 0 to |a.anchors|
      invariant forall u :: u in seen <==> u in Accepted(AS_IS, a.anchors[..i])
      invariant urls == Dedup(Accepted(AS_IS, a.anchors[..i]))
    {
      OneMore(AS_IS, a.anchors, i);
      if a.anchors[i].None? { continue; }
      var href := a.anchors[i].value;
      if !IsListingURL(href) { continue; }
      if href in seen { continue; }
      seen := seen + {href};
      urls := urls + [href];
    }
    assert a.anchors[..|a.anchors|] == a.anchors;
    ExtractedIs(AS_IS, a, urls);
    r := Ok(urls);
  }

  // ---- what Dedup is ----

  ghost predicate Distinct<T(!new)>(xs: seq<T>) { forall i, j | 0 <= i < j < |xs| :: xs[i] != xs[j] }

  ghost predicate SameElements<T(!new)>(xs: seq<T>, ys: seq<T>) { forall x :: x in xs <==> x in ys }

  /** Where x first occurs. */
  function First<T(==)>(xs: seq<T>, x: T): (k: nat)
    requires x in xs
    ensures k < |xs| && xs[k] == x && x !in xs[..k]
  {
    if xs[0] == x then 0 else
      var k := First(xs[1..], x) + 1;
      assert xs[..k] == [xs[0]] + xs[1..][..k - 1];
      k
  }

  /** ys lists elements of xs in the order of their first occurrence. */
  ghost predicate InFirstOrder<T(!new)>(xs: seq<T>, ys: seq<T>) {
    && (forall y | y in ys :: y in xs)
    && forall i, j | 0 <= i < j < |ys| :: First(xs, ys[i]) < First(xs, ys[j])
  }

  lemma FirstIs<T>(xs: seq<T>, x: T, k: nat)
    requires k < |xs| && xs[k] == x && x !in xs[..k]
    ensures First(xs, x) == k
  {
    var f := First(xs, x);
    assert forall i | 0 <= i < k :: xs[i] in xs[..k];
    assert forall i | 0 <= i < f :: xs[i] in xs[..f];
  }

  lemma FirstStays<T>(xs: seq<T>, n: nat, x: T)
    requires n <= |xs| && x in xs[..n]
    ensures First(xs, x) == First(xs[..n], x)
  {
    var j := First(xs[..n], x);
    assert xs[..n][..j] == xs[..j];
    FirstIs(xs, x, j);
  }

  /** Dedup keeps exactly the elements, once each, in first-occurrence order. */
  lemma {:induction false} DedupIs<T(!new)>(xs: seq<T>)
    ensures Distinct(Dedup(xs)) && SameElements(xs, Dedup(xs)) && InFirstOrder(xs, Dedup(xs))
  {
    if xs != [] {
      var n := |xs| - 1;
      var rest, d := Dedup(xs[..n]), Dedup(xs);
      DedupIs(xs[..n]);
      assert xs == xs[..n] + [xs[n]];
      forall i, j | 0 <= i < j < |d| ensures First(xs, d[i]) < First(xs, d[j]) {
        assert d[i] in xs[..n];
        FirstStays(xs, n, d[i]);
        if j < |rest| {
          assert d[j] in xs[..n];
          FirstStays(xs, n, d[j]);
        } else {
          FirstIs(xs, d[j], n);
        }
      }
    }
  }

  /** And it is the only sequence that does. */
  lemma {:induction false} OnlyDedup<T(!new)>(xs: seq<T>, ys: seq<T>, zs: seq<T>)
    requires Distinct(ys) && SameElements(xs, ys) && InFirstOrder(xs, ys)
    requires Distinct(zs) && SameElements(xs, zs) && InFirstOrder(xs, zs)
    ensures ys == zs
  {
    SameLength(ys, zs);
    SameLength(zs, ys);
    AgreeUpTo(xs, ys, zs, |ys|);
  }

  lemma {:induction false} SameLength<T(!new)>(ys: seq<T>, zs: seq<T>)
    requires Distinct(ys) && forall y | y in ys :: y in zs
    ensures |ys| <= |zs|
    decreases |ys|
  {
    if ys != [] {
      var n := |ys| - 1;
      assert ys[n] in ys;
      var k :| 0 <= k < |zs| && zs[k] == ys[n];
      var rest := zs[..k] + zs[k + 1..];
      forall y | y in ys[..n] ensures y in rest {
        var i :| 0 <= i < n && ys[i] == y;
        assert ys[i] in ys;
        var j :| 0 <= j < |zs| && zs[j] == y;
        if j < k { assert rest[j] == y; } else { assert rest[j - 1] == y; }
      }
      SameLength(ys[..n], rest);
    }
  }

  lemma {:induction false} AgreeUpTo<T(!new)>(xs: seq<T>, ys: seq<T>, zs: seq<T>, n: nat)
    requires Distinct(ys) && SameElements(xs, ys) && InFirstOrder(xs, ys)
    requires Distinct(zs) && SameElements(xs, zs) && InFirstOrder(xs, zs)
    requires n <= |ys| == |zs|
    ensures ys[..n] == zs[..n]
  {
    if n > 0 {
      var k := n - 1;
      AgreeUpTo(xs, ys, zs, k);
      assert ys[k] in zs && zs[k] in ys;
      var i :| 0 <= i < |zs| && zs[i] == ys[k];
      var j :| 0 <= j < |ys| && ys[j] == zs[k];
      assert forall m | 0 <= m < k :: ys[m] == ys[..k][m] == zs[..k][m] == zs[m];
      assert ys[..n] == ys[..k] + [ys[k]] && zs[..n] == zs[..k] + [zs[k]];
    }
  }

  // ---- main results ----

  /** Anchor i has an href, the href cleans to u, and u is a listing link. */
  ghost predicate Gives(clean: string -> string, anchors: seq<Option<string>>, i: nat, u: string) {
    && i < |anchors| && anchors[i].Some? && clean(anchors[i].value) == u
    && ("https://www.olx.ua/d/" <= u || "https://www.olx.ua/uk/d/" <= u)
  }

  ghost predicate Given(clean: string -> string, anchors: seq<Option<string>>, u: string) {
    exists i: nat :: Gives(clean, anchors, i, u)
  }

  /** Some anchor gives u before any gives v. */
  ghost predicate GivenBefore(clean: string -> string, anchors: seq<Option<string>>, u: string, v: string) {
    exists i: nat :: Gives(clean, anchors, i, u) && forall j: nat | j <= i :: !Gives(clean, anchors, j, v)
  }

  lemma LinkGives(clean: string -> string, anchors: seq<Option<string>>, i: nat, u: string)
    requires i < |anchors|
    ensures Link(clean, anchors[i]) == Some(u) <==> Gives(clean, anchors, i, u)
  {
  }

  lemma GivesWithin(clean: string -> string, anchors: seq<Option<string>>, n: nat, i: nat, u: string)
    requires n <= |anchors|
    ensures Gives(clean, anchors[..n], i, u) <==> i < n && Gives(clean, anchors, i, u)
  {
  }

  lemma {:induction false} AcceptedGiven(clean: string -> string, anchors: seq<Option<string>>, u: string)
    ensures u in Accepted(clean, anchors) <==> Given(clean, anchors, u)
  {
    if anchors != [] {
      var n := |anchors| - 1;
      AcceptedGiven(clean, anchors[..n], u);
      LinkGives(clean, anchors, n, u);
      if u in Accepted(clean, anchors[..n]) {
        var i: nat :| Gives(clean, anchors[..n], i, u);
        GivesWithin(clean, anchors, n, i, u);
      }
      if Given(clean, anchors, u) {
        var i: nat :| Gives(clean, anchors, i, u);
        GivesWithin(clean, anchors, n, i, u);
      }
    }
  }

  /** What is collected is what some anchor of the page gives. */
  lemma AcceptedIs(clean: string -> string, anchors: seq<Option<string>>, u: string)
    ensures u in Accepted(clean, anchors) <==> exists a {:trigger a in anchors} ::
      && a in anchors && a.Some? && clean(a.value) == u && u != ""
      && ("https://www.olx.ua/d/" <= u || "https://www.olx.ua/uk/d/" <= u)
  {
    AcceptedGiven(clean, anchors, u);
    if Given(clean, anchors, u) {
      var i: nat :| Gives(clean, anchors, i, u);
      assert anchors[i] in anchors;
    }
    forall a | a in anchors && a.Some? && clean(a.value) == u
      && ("https://www.olx.ua/d/" <= u || "https://www.olx.ua/uk/d/" <= u)
      ensures Given(clean, anchors, u)
    {
      var i: nat :| i < |anchors| && anchors[i] == a;
      assert Gives(clean, anchors, i, u);
    }
  }

  lemma {:induction false} AcceptedPrefix(clean: string -> string, anchors: seq<Option<string>>, n: nat)
    requires n <= |anchors|
    ensures |Accepted(clean, anchors[..n])| <= |Accepted(clean, anchors)|
    ensures Accepted(clean, anchors)[..|Accepted(clean, anchors[..n])|] == Accepted(clean, anchors[..n])
    decreases |anchors|
  {
    var m := |anchors| - 1;
    if n == |anchors| {
      assert anchors[..n] == anchors;
    } else {
      assert anchors[..m][..n] == anchors[..n];
      AcceptedPrefix(clean, anchors[..m], n);
    }
  }

  lemma OneIsFirst(clean: string -> string, anchors: seq<Option<string>>, u: string, v: string)
    requires u != v && Given(clean, anchors, v) && !GivenBefore(clean, anchors, u, v)
    ensures GivenBefore(clean, anchors, v, u)
  {
    var k: nat :| Gives(clean, anchors, k, v);
    var i := FirstGiving(clean, anchors, v, k);
    forall j: nat | j <= i ensures !Gives(clean, anchors, j, u) {
      assert Gives(clean, anchors, j, u) ==> exists l: nat :: l <= j && Gives(clean, anchors, l, v);
    }
  }

  /** The order of first occurrence in the collection is the order in which the anchors give them. */
  lemma OrderIs(clean: string -> string, anchors: seq<Option<string>>, u: string, v: string)
    requires u in Accepted(clean, anchors) && v in Accepted(clean, anchors)
    ensures First(Accepted(clean, anchors), u) < First(Accepted(clean, anchors), v) <==>
      GivenBefore(clean, anchors, u, v)
  {
    if GivenBefore(clean, anchors, u, v) {
      FirstBefore(clean, anchors, u, v);
    } else if u != v {
      AcceptedGiven(clean, anchors, v);
      OneIsFirst(clean, anchors, u, v);
      FirstBefore(clean, anchors, v, u);
    }
  }

  lemma {:induction false} FirstGiving(clean: string -> string, anchors: seq<Option<string>>, u: string, k: nat)
    returns (i: nat)
    requires Gives(clean, anchors, k, u)
    ensures Gives(clean, anchors, i, u) && forall j: nat | j < i :: !Gives(clean, anchors, j, u)
    decreases k
  {
    if j: nat :| j < k && Gives(clean, anchors, j, u) {
      i := FirstGiving(clean, anchors, u, j);
    } else {
      i := k;
    }
  }

  lemma GivenEarly(clean: string -> string, anchors: seq<Option<string>>, i: nat, u: string, v: string)
    requires Gives(clean, anchors, i, u) && forall j: nat | j <= i :: !Gives(clean, anchors, j, v)
    ensures u in Accepted(clean, anchors[..i + 1]) && v !in Accepted(clean, anchors[..i + 1])
  {
    AcceptedGiven(clean, anchors[..i + 1], u);
    AcceptedGiven(clean, anchors[..i + 1], v);
    GivesWithin(clean, anchors, i + 1, i, u);
    if Given(clean, anchors[..i + 1], v) {
      var j: nat :| Gives(clean, anchors[..i + 1], j, v);
      GivesWithin(clean, anchors, i + 1, j, v);
    }
  }

  lemma FirstInPrefix<T>(xs: seq<T>, n: nat, x: T, y: T)
    requires n <= |xs| && x in xs[..n] && y !in xs[..n] && y in xs
    ensures x in xs && First(xs, x) < First(xs, y)
  {
    FirstStays(xs, n, x);
    forall i | 0 <= i < n ensures xs[i] in xs[..n] { assert xs[..n][i] == xs[i]; }
  }

  lemma FirstBefore(clean: string -> string, anchors: seq<Option<string>>, u: string, v: string)
    requires GivenBefore(clean, anchors, u, v) && v in Accepted(clean, anchors)
    ensures u in Accepted(clean, anchors) && First(Accepted(clean, anchors), u) < First(Accepted(clean, anchors), v)
  {
    var i: nat :| Gives(clean, anchors, i, u) && forall j: nat | j <= i :: !Gives(clean, anchors, j, v);
    GivenEarly(clean, anchors, i, u, v);
    AcceptedPrefix(clean, anchors, i + 1);
    FirstInPrefix(Accepted(clean, anchors), |Accepted(clean, anchors[..i + 1])|, u, v);
  }

  /** A list of links: all that the anchors give, once each, in the order in which they first give them. */
  ghost predicate Lists(clean: string -> string, anchors: seq<Option<string>>, urls: seq<string>) {
    && (forall u :: u in urls <==> Given(clean, anchors, u))
    && (forall i, j | 0 <= i < j < |urls| :: urls[i] != urls[j] && GivenBefore(clean, anchors, urls[i], urls[j]))
  }

  /** A readable page yields, once each and in the order they first appear, exactly the cleaned links that look like
      listings; both loops meet this one specification. */
  lemma ExtractedIs(clean: string -> string, a: Answer, urls: seq<string>)
    requires a.Page? && a.status < 400
    ensures Extracted(clean, a) == Ok(urls) <==> Lists(clean, a.anchors, urls)
  {
    var xs := Accepted(clean, a.anchors);
    DedupIs(xs);
    forall u ensures u in xs <==> Given(clean, a.anchors, u) { AcceptedGiven(clean, a.anchors, u); }
    ListsIs(clean, a.anchors, Dedup(xs));
    ListsIs(clean, a.anchors, urls);
    if Lists(clean, a.anchors, urls) { OnlyDedup(xs, urls, Dedup(xs)); }
  }

  lemma ListsIs(clean: string -> string, anchors: seq<Option<string>>, urls: seq<string>)
    ensures var xs := Accepted(clean, anchors);
      Lists(clean, anchors, urls) <==> Distinct(urls) && SameElements(xs, urls) && InFirstOrder(xs, urls)
  {
    var xs := Accepted(clean, anchors);
    forall u ensures u in xs <==> Given(clean, anchors, u) { AcceptedGiven(clean, anchors, u); }
    if SameElements(xs, urls) || (forall u :: u in urls <==> Given(clean, anchors, u)) {
      assert SameElements(xs, urls) && forall u :: u in urls <==> Given(clean, anchors, u);
      forall i, j | 0 <= i < j < |urls|
        ensures First(xs, urls[i]) < First(xs, urls[j]) <==> GivenBefore(clean, anchors, urls[i], urls[j])
      {
        assert urls[i] in urls && urls[j] in urls;
        OrderIs(clean, anchors, urls[i], urls[j]);
      }
    }
  }

  /** What the enricher takes as it stands are the hrefs of the page that look like listings. */
  lemma HrefsAsTheyStand(a: Answer, u: string)
    requires a.Page? && a.status < 400
    ensures Extracted(AS_IS, a).Ok?
    ensures u in Extracted(AS_IS, a).value <==>
      Some(u) in a.anchors && ("https://www.olx.ua/d/" <= u || "https://www.olx.ua/uk/d/" <= u)
  {
    ExtractedIs(AS_IS, a, Extracted(AS_IS, a).value);
    AcceptedIs(AS_IS, a.anchors, u);
    AcceptedGiven(AS_IS, a.anchors, u);
  }

  /** What the pipeline assumes of the links it is handed. */
  lemma ExtractedAreLinks(clean: string -> string, a: Answer)
    requires Extracted(clean, a).Ok?
    ensures Pipeline.Links(Extracted(clean, a).value)
    ensures forall u | u in Extracted(clean, a).value ::
      "https://www.olx.ua/d/" <= u || "https://www.olx.ua/uk/d/" <= u
  {
    if a.Page? && a.status < 400 {
      var xs := Accepted(clean, a.anchors);
      DedupIs(xs);
      forall u | u in Dedup(xs) ensures u != "" && ("https://www.olx.ua/d/" <= u || "https://www.olx.ua/uk/d/" <= u) {
        AcceptedIs(clean, a.anchors, u);
      }
    }
  }
}
