/** The same tables as an object whose methods run the statements. */
module Database {
  import opened Common
  import opened Hash
  import opened Store

  class Database {
    var sellers: map<string, SellerRow>
    var listings: map<string, ListingRow>
    var snapshots: map<(nat, Digest), SnapshotRow>
    var fetches: seq<FetchRow>
    var nextSeller: nat
    var nextListing: nat
    var nextFetch: nat

    function T(): Tables
      reads this
    {
      Tables(sellers, listings, snapshots, fetches, nextSeller, nextListing, nextFetch)
    }

    constructor ()
      ensures T() == NO_ROWS
    {
      sellers, listings, snapshots, fetches := map[], map[], map[], [];
      nextSeller, nextListing, nextFetch := 1, 1, 1;
    }

    method UpsertSeller(p: SellerParams, now: Time) returns (row: SellerRow)
      modifies this
      ensures T() == Store.UpsertSeller(old(T()), p, now)
      ensures row == T().sellers[p.olxUserId]
    {
      if p.olxUserId in sellers {
        row := sellers[p.olxUserId];
        row := row.(cols := p.cols, lastSeen := now, lastScraped := now, updated := now);
        if row.registeredAt.None? { row := row.(registeredAt := p.registeredAt); }
      } else {
        row := SellerRow(nextSeller, p.cols, p.registeredAt, now, now, now, now, now, None, None);
      }
      nextSeller := nextSeller + 1;
      sellers := sellers[p.olxUserId := row];
    }

    method UpsertListing(l: ParsedListing, sellerId: nat, now: Time) returns (row: ListingRow)
      modifies this
      ensures T() == Store.UpsertListing(old(T()), l, sellerId, now)
      ensures row == T().listings[l.olxListingId]
    {
      if l.olxListingId in listings {
        row := listings[l.olxListingId];
        row := row.(cols := ColsOf(l, sellerId), lastSeen := now, lastScraped := now, updated := now);
      } else {
        row := ListingRow(nextListing, l.url, ColsOf(l, sellerId), now, now, now, now, now);
      }
      nextListing := nextListing + 1;
      listings := listings[l.olxListingId := row];
    }

    method InsertListingSnapshot(listingId: nat, l: ParsedListing, hash: Digest, now: Time) returns (affected: nat)
      requires hash == Sum(StateParts(l))
      modifies this
      ensures T() == InsertSnapshot(old(T()), listingId, l, now)
      ensures affected == if (listingId, hash) in old(snapshots) then 0 else 1
    {
      if (listingId, hash) in snapshots { return 0; }
      snapshots := snapshots[(listingId, hash) := SnapshotOf(l, now)];
      affected := 1;
    }

    method MarkEnriched(id: nat, now: Time)
      modifies this
      ensures T() == MarkSellerEnriched(old(T()), id, now)
    {
      sellers := map u | u in sellers ::
        if sellers[u].id == id then sellers[u].(lastEnriched := Some(now), updated := now) else sellers[u];
    }

    method Label(user: string, value: string, now: Time) returns (ok: bool)
      modifies this
      ensures ok == LabelSeller(old(T()), user, value, now).Ok?
      ensures !ok <==> user in old(sellers) && value != "" && value != "owner" && value != "agency"
      ensures T() == if ok then LabelSeller(old(T()), user, value, now).value else old(T())
    {
      if user !in sellers { return true; }
      if value != "" && value != "owner" && value != "agency" { return false; }
      sellers := sellers[user := sellers[user].(manualLabel := Text(value), updated := now)];
      ok := true;
    }

    method AddFetch(url: string, status: int, html: Option<string>, now: Time) returns (row: FetchRow)
      modifies this
      ensures T() == InsertFetch(old(T()), url, status, html, now)
      ensures fetches == old(fetches) + [FetchRow(old(nextFetch), url, status, html, now)]
      ensures row == T().fetches[|T().fetches| - 1]
    {
      row := FetchRow(nextFetch, url, status, html, now);
      nextFetch := nextFetch + 1;
      fetches := fetches + [row];
    }

    /** Scan for the newest row of the url. */
    method GetLatestFetchByURL(url: string) returns (r: Option<FetchRow>)
      ensures r == Latest(fetches, url)
    {
      r := None;
      for i := 0 to |fetches|
        invariant r == Latest(fetches[..i], url)
      {
        assert fetches[..i + 1][..i] == fetches[..i];
        if fetches[i].url == url && (r.None? || fetches[i].fetchedAt >= r.value.fetchedAt) {
          r := Some(fetches[i]);
        }
      }
      assert fetches[..|fetches|] == fetches;
    }

    /** The parser's transaction. Statement number failAt errs (0, 1, 2), or the commit does (3), or nothing does.
        Either everything is stored or no table changes; only the id sequences keep what they handed out. */
    method ParseTransaction(r: Parsed, now: Time, failAt: nat) returns (ok: bool, affected: nat)
      modifies this
      ensures ok <==> failAt > 3 && 0 as char !in r.listing.title && 0 as char !in r.listing.status
                      && 0 as char !in r.listing.currency
      ensures ok ==> CommitParse(old(T()), r, now) == Ok(T())
      ensures ok ==> affected == |snapshots| - |old(snapshots)|
      ensures !ok ==> T() == old(T()).(nextSeller := nextSeller, nextListing := nextListing)
                      && nextSeller >= old(nextSeller) && nextListing >= old(nextListing)
    {
      var sellers0, listings0, snapshots0 := sellers, listings, snapshots;
      ok, affected := false, 0;
      label transaction: {
        if failAt == 0 { break transaction; }
        var seller := UpsertSeller(r.seller, now);
        if failAt == 1 || !Storable(r.listing) { break transaction; }
        var listing := UpsertListing(r.listing, seller.id, now);
        if failAt == 2 { break transaction; }
        var hash := Sha256NewSum(StateParts(r.listing));
        affected := InsertListingSnapshot(listing.id, r.listing, hash, now);
        ok := failAt != 3;
      }
      if !ok {
        sellers, listings, snapshots := sellers0, listings0, snapshots0;
        affected := 0;
      }
    }
  }
}
