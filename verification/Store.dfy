/** The Postgres tables as values and the statements that change them as functions. */
module Store {
  import opened Common
  import opened Hash

  type Time = nat

  // ---- rows ----

  /** The seller columns an upsert overwrites. None is NULL. */
  datatype SellerCols = SellerCols(
    displayName: Option<string>, profileUrl: Option<string>, isBusiness: bool,
    phoneHash: Option<string>, avatarUrl: Option<string>, location: Option<string>, raw: string)

  datatype SellerRow = SellerRow(
    id: nat, cols: SellerCols, registeredAt: Option<Time>,
    firstSeen: Time, lastSeen: Time, lastScraped: Time, created: Time, updated: Time,
    lastEnriched: Option<Time>, manualLabel: Option<string>)

  datatype SellerParams = SellerParams(olxUserId: string, cols: SellerCols, registeredAt: Option<Time>)

  /** Listing columns no later statement computes with. */
  datatype Details = Details(
    description: Option<string>, dealType: Option<string>, propertyType: Option<string>,
    city: Option<string>, district: Option<string>, address: Option<string>,
    lat: Option<real>, lon: Option<real>, postedAt: Option<Time>, attributes: string, raw: string)

  /** The listing columns an upsert overwrites: all but the key and the url. */
  datatype ListingCols = ListingCols(
    sellerId: nat, title: Option<string>, price: Option<Amount>, currency: Option<string>, status: string,
    details: Details)

  datatype ListingRow = ListingRow(
    id: nat, url: string, cols: ListingCols,
    firstSeen: Time, lastSeen: Time, lastScraped: Time, created: Time, updated: Time)

  datatype SnapshotRow = SnapshotRow(
    price: Option<Amount>, currency: Option<string>, status: Option<string>, title: Option<string>, capturedAt: Time)

  datatype FetchRow = FetchRow(id: nat, url: string, status: int, html: Option<string>, fetchedAt: Time)

  /** A price as its two-decimal text; the stored number and the hash both come from it. */
  type Amount = s: string | s != "" && NulFree(s) witness "0.00"

  /** What the parser hands over for one page. */
  datatype ParsedListing = ParsedListing(
    olxListingId: string, url: string, title: string, status: string, price: Option<Amount>, currency: string,
    details: Details)

  datatype Parsed = Parsed(seller: SellerParams, listing: ParsedListing)

  /** The tables keyed by their unique columns, and the id sequences. */
  datatype Tables = Tables(
    sellers: map<string, SellerRow>,
    listings: map<string, ListingRow>,
    snapshots: map<(nat, Digest), SnapshotRow>,
    fetches: seq<FetchRow>,
    nextSeller: nat, nextListing: nat, nextFetch: nat)

  const NO_ROWS := Tables(map[], map[], map[], [], 1, 1, 1)

  /** Seller ids are unique and below their sequence. */
  ghost predicate IdsUnique(t: Tables) {
    && (forall u | u in t.sellers :: t.sellers[u].id < t.nextSeller)
    && (forall u, v | u in t.sellers && v in t.sellers && t.sellers[u].id == t.sellers[v].id :: u == v)
  }

  // ---- column helpers ----

  /** Empty text is stored as NULL. */
  function Text(s: string): Option<string> { if s == "" then None else Some(s) }

  function DefaultIfEmpty(s: string, fallback: string): string { if s == "" then fallback else s }

  function Coalesce<T>(a: Option<T>, b: Option<T>): Option<T> { if a.Some? then a else b }

  function PriceText(p: Option<Amount>): string { if p.Some? then p.value else "" }

  /** The four parts that make a listing state. */
  function StateParts(l: ParsedListing): seq<string> { [l.title, l.status, PriceText(l.price), l.currency] }

  /** A TEXT column cannot hold a NUL. */
  predicate Storable(l: ParsedListing) { NulFree(l.title) && NulFree(l.status) && NulFree(l.currency) }

  // ---- statements as functions ----

  function UpsertSeller(t: Tables, p: SellerParams, now: Time): Tables {
    var row :=
      if p.olxUserId in t.sellers then
        var row := t.sellers[p.olxUserId];
        row.(cols := p.cols, registeredAt := Coalesce(row.registeredAt, p.registeredAt),
             lastSeen := now, lastScraped := now, updated := now)
      else SellerRow(t.nextSeller, p.cols, p.registeredAt, now, now, now, now, now, None, None);
    t.(sellers := t.sellers[p.olxUserId := row], nextSeller := t.nextSeller + 1)
  }

  function ColsOf(l: ParsedListing, sellerId: nat): ListingCols {
    ListingCols(sellerId, Text(l.title), l.price, Text(l.currency), DefaultIfEmpty(l.status, "active"), l.details)
  }

  function UpsertListing(t: Tables, l: ParsedListing, sellerId: nat, now: Time): Tables {
    var row :=
      if l.olxListingId in t.listings then
        t.listings[l.olxListingId].(cols := ColsOf(l, sellerId), lastSeen := now, lastScraped := now, updated := now)
      else ListingRow(t.nextListing, l.url, ColsOf(l, sellerId), now, now, now, now, now);
    t.(listings := t.listings[l.olxListingId := row], nextListing := t.nextListing + 1)
  }

  function SnapshotOf(l: ParsedListing, now: Time): SnapshotRow {
    SnapshotRow(l.price, Text(l.currency), Text(l.status), Text(l.title), now)
  }

  /** Do nothing when the (listing, hash) pair is already there. */
  function InsertSnapshot(t: Tables, listingId: nat, l: ParsedListing, now: Time): Tables {
    var key := (listingId, Sum(StateParts(l)));
    if key in t.snapshots then t else t.(snapshots := t.snapshots[key := SnapshotOf(l, now)])
  }

  function MarkSellerEnriched(t: Tables, id: nat, now: Time): Tables {
    t.(sellers := map u | u in t.sellers ::
         if t.sellers[u].id == id then t.sellers[u].(lastEnriched := Some(now), updated := now) else t.sellers[u])
  }

  /** An empty label clears; anything but owner and agency violates the check. */
  function LabelSeller(t: Tables, user: string, value: string, now: Time): Result<Tables> {
    if user !in t.sellers then Ok(t)
    else if value !in {"", "owner", "agency"} then Err
    else Ok(t.(sellers := t.sellers[user := t.sellers[user].(manualLabel := Text(value), updated := now)]))
  }

  function InsertFetch(t: Tables, url: string, status: int, html: Option<string>, now: Time): Tables {
    t.(fetches := t.fetches + [FetchRow(t.nextFetch, url, status, html, now)], nextFetch := t.nextFetch + 1)
  }

  /** The whole parse transaction. */
  function CommitParse(t: Tables, r: Parsed, now: Time): Result<Tables> {
    if !Storable(r.listing) then Err
    else
      var t1 := UpsertSeller(t, r.seller, now);
      var t2 := UpsertListing(t1, r.listing, t1.sellers[r.seller.olxUserId].id, now);
      Ok(InsertSnapshot(t2, t2.listings[r.listing.olxListingId].id, r.listing, now))
  }

  // ---- the latest fetch of a url ----

  function Latest(rows: seq<FetchRow>, url: string): Option<FetchRow> {
    if rows == [] then None
    else
      var best := Latest(rows[..|rows| - 1], url);
      var row := rows[|rows| - 1];
      if row.url == url && (best.None? || row.fetchedAt >= best.value.fetchedAt) then Some(row) else best
  }

  /** Latest is the newest row of its url, and is missing only when the url has none. */
  lemma {:induction false} LatestIsNewest(rows: seq<FetchRow>, url: string)
    ensures Latest(rows, url).None? <==> forall r | r in rows :: r.url != url
    ensures Latest(rows, url).Some? ==>
      var best := Latest(rows, url).value;
      best in rows && best.url == url && forall r | r in rows && r.url == url :: r.fetchedAt <= best.fetchedAt
  {
    if rows != [] {
      LatestIsNewest(rows[..|rows| - 1], url);
      assert rows == rows[..|rows| - 1] + [rows[|rows| - 1]];
    }
  }
}
