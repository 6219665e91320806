/** From a stored page to what the parser stores: the embedded state when there is one, the title otherwise. */
module Page {
  import opened Common
  import opened Store
  import Pipeline
  import Scanner

  /** The fields of the embedded advertisement the parser reads. price is its two-decimal text if the value is above
      zero; a zero time is None; idText is the id in decimal. */
  datatype Ad = Ad(
    id: int, idText: string, url: string, title: string, status: string, price: Option<Amount>, currency: string,
    business: bool, uuid: string, name: string, registered: Option<Time>, details: Details)

  function ProfileURL(uuid: string): string { if uuid == "" then "" else "https://www.olx.ua/uk/user/" + uuid + "/" }

  function SellerOf(uuid: string, name: string, profileUrl: string, business: bool,
                    registered: Option<Time>): SellerParams {
    SellerParams(uuid, SellerCols(Text(name), Text(profileUrl), business, None, None, None, "parser"), registered)
  }

  const STUB_DESCRIPTION := "(fallback parse \U{2014} __PRERENDERED_STATE__ not present)"

  const STUB_DETAILS := Details(Some(STUB_DESCRIPTION), None, None, None, None, None, None, None, None, "{}", "parser")

  /** fragment is the digest prefix of the page url, title the page's title element. */
  function Fallback(pageUrl: string, title: string, fragment: string): Parsed {
    Parsed(SellerOf("stub-user-" + fragment, "Stub Seller", pageUrl, false, None),
           ParsedListing("stub-listing-" + fragment, pageUrl, DefaultIfEmpty(title, "(no title)"), "", None, "",
                         STUB_DETAILS))
  }

  /** decode reads the state as JSON; readable says whether the page parses as HTML. */
  function Parse(pageUrl: string, html: string, decode: string -> Option<Ad>, readable: bool, title: string,
                 fragment: string)
    : Result<Parsed>
  {
    var e := Scanner.Extract(html);
    if !e.State? then (if readable then Ok(Fallback(pageUrl, title, fragment)) else Err)
    else
      var ad := decode(e.text);
      if ad.None? || ad.value.id == 0 || ad.value.uuid == "" then Err
      else
        var a := ad.value;
        Ok(Parsed(SellerOf(a.uuid, a.name, ProfileURL(a.uuid), a.business, a.registered),
                  ParsedListing(a.idText, a.url, a.title, a.status, a.price,
                                if a.price.Some? then a.currency else "", a.details)))
  }

  /** With an embedded state each field of the advertisement reaches its own column, an empty text as NULL; a state that
      does not decode, or names no advertisement or no seller, is an error. */
  lemma StateIsParsed(pageUrl: string, html: string, decode: string -> Option<Ad>, readable: bool, title: string,
                      fragment: string)
    requires Scanner.Extract(html).State?
    ensures var ad, r := decode(Scanner.Extract(html).text), Parse(pageUrl, html, decode, readable, title, fragment);
      && (r.Ok? <==> ad.Some? && ad.value.id != 0 && ad.value.uuid != "")
      && (r.Ok? ==>
          var a, s, l := ad.value, r.value.seller, r.value.listing;
          && s.olxUserId == a.uuid && s.registeredAt == a.registered && s.cols.isBusiness == a.business
          && s.cols.displayName == (if a.name == "" then None else Some(a.name))
          && s.cols.profileUrl == Some("https://www.olx.ua/uk/user/" + a.uuid + "/")
          && s.cols.raw == "parser" && s.cols.phoneHash == s.cols.avatarUrl == s.cols.location == None
          && l.olxListingId == a.idText && l.url == a.url && l.title == a.title && l.status == a.status
          && l.price == a.price && l.currency == (if a.price.None? then "" else a.currency) && l.details == a.details)
  {
  }

  /** Without one, whichever way it is missing, the page still yields a listing: ids made from its url, its own url and
      title, no price; it is an error only if the page cannot be read at all. */
  lemma FallbackIsParsed(pageUrl: string, html: string, decode: string -> Option<Ad>, readable: bool, title: string,
                         fragment: string)
    requires !Scanner.Extract(html).State?
    ensures var r := Parse(pageUrl, html, decode, readable, title, fragment);
      && (r.Ok? <==> readable)
      && (r.Ok? ==>
          var s, l := r.value.seller, r.value.listing;
          && s.olxUserId == "stub-user-" + fragment && l.olxListingId == "stub-listing-" + fragment
          && s.cols.displayName == Some("Stub Seller") && !s.cols.isBusiness && s.registeredAt == None
          && s.cols.profileUrl == (if pageUrl == "" then None else Some(pageUrl)) && l.url == pageUrl
          && l.title == (if title == "" then "(no title)" else title)
          && l.status == "" && l.price == None && l.currency == "")
  {
  }

  /** What the pipeline assumes of a parsed page holds of every page: a seller id, and no profile url only for a page
      that has no url itself. An unpriced listing has no currency, so its state cannot change by currency alone. */
  lemma ParseMeetsAssumption(pageUrl: string, html: string, decode: string -> Option<Ad>, readable: bool,
                             title: string, fragment: string)
    requires Parse(pageUrl, html, decode, readable, title, fragment).Ok?
    ensures var r := Parse(pageUrl, html, decode, readable, title, fragment).value;
      Pipeline.ParsedFrom(pageUrl, r) && (r.listing.price.None? ==> r.listing.currency == "")
  {
    var e := Scanner.Extract(html);
    if !e.State? { assert |"stub-user-" + fragment| >= |"stub-user-"|; }
  }

  /** A page with an embedded text is parsed from that text and nothing else: what surrounds it, and how its
      characters are escaped, makes no difference. */
  lemma OnlyTheEmbeddedTextCounts(pageUrl: string, decode: string -> Option<Ad>, readable: bool, title: string,
                                  fragment: string, text: string,
                                  prefix: string, gap: string, pieces: seq<string>, suffix: string,
                                  prefix': string, gap': string, pieces': seq<string>, suffix': string)
    requires forall k: nat :: !Scanner.OccursAt(Scanner.MARKER, prefix, k)
    requires forall k: nat :: !Scanner.OccursAt(Scanner.MARKER, prefix', k)
    requires '"' !in gap && '"' !in gap'
    requires Scanner.Json.Escaping(pieces, text) && Scanner.Json.Escaping(pieces', text)
    ensures Parse(pageUrl, Scanner.Page(Scanner.MARKER, prefix, gap, Scanner.Json.Flatten(pieces), suffix), decode,
                  readable, title, fragment)
         == Parse(pageUrl, Scanner.Page(Scanner.MARKER, prefix', gap', Scanner.Json.Flatten(pieces'), suffix'), decode,
                  readable, title, fragment)
  {
    Scanner.ExtractionRoundTrip(prefix, gap, pieces, text, suffix);
    Scanner.ExtractionRoundTrip(prefix', gap', pieces', text, suffix');
  }
}
