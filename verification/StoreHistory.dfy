/** What each stored row is after any history of statements: read off the history, not off the statements. */
module StoreHistory {
  import opened Common
  import opened Hash
  import opened Store

  /** A parse transaction, one that failed after taking ids, an enrichment stamp, a label, a stored page. */
  datatype Op =
    | Parse(r: Parsed, now: Time)
    | Abort(sellerIds: nat, listingIds: nat)
    | Mark(id: nat, now: Time)
    | Label(user: string, value: string, now: Time)
    | Fetch(url: string, status: int, html: Option<string>, now: Time)

  function Step(t: Tables, op: Op): Tables {
    match op
    case Parse(r, now) => if Storable(r.listing) then CommitParse(t, r, now).value
      else t.(nextSeller := t.nextSeller + 1)
    case Abort(m, n) => t.(nextSeller := t.nextSeller + m, nextListing := t.nextListing + n)
    case Mark(id, now) => MarkSellerEnriched(t, id, now)
    case Label(user, value, now) => (var r := LabelSeller(t, user, value, now); if r.Ok? then r.value else t)
    case Fetch(url, status, html, now) => InsertFetch(t, url, status, html, now)
  }

  function Run(ops: seq<Op>): Tables {
    if ops == [] then NO_ROWS else Step(Run(ops[..|ops| - 1]), ops[|ops| - 1])
  }

  // ---- reading a history ----

  function First(ops: seq<Op>, p: Op -> bool): (r: Option<nat>)
    ensures r.Some? ==> r.value < |ops| && p(ops[r.value])
  {
    if ops == [] then None
    else
      var n := |ops| - 1;
      var k := First(ops[..n], p);
      if k.Some? then k else if p(ops[n]) then Some(n) else None
  }

  function Last(ops: seq<Op>, p: Op -> bool): (r: Option<nat>)
    ensures r.Some? ==> r.value < |ops| && p(ops[r.value])
  {
    if ops == [] then None
    else
      var n := |ops| - 1;
      if p(ops[n]) then Some(n) else Last(ops[..n], p)
  }

  lemma {:induction false} FirstIs(ops: seq<Op>, p: Op -> bool)
    ensures First(ops, p).None? <==> forall i | 0 <= i < |ops| :: !p(ops[i])
    ensures First(ops, p).Some? ==> forall i | 0 <= i < First(ops, p).value :: !p(ops[i])
  {
    if ops != [] {
      var n := |ops| - 1;
      FirstIs(ops[..n], p);
      assert forall i | 0 <= i < n :: ops[..n][i] == ops[i];
    }
  }

  lemma {:induction false} LastIs(ops: seq<Op>, p: Op -> bool)
    ensures Last(ops, p).None? <==> forall i | 0 <= i < |ops| :: !p(ops[i])
    ensures Last(ops, p).Some? ==> forall i | Last(ops, p).value < i < |ops| :: !p(ops[i])
  {
    if ops != [] {
      var n := |ops| - 1;
      LastIs(ops[..n], p);
      assert forall i | 0 <= i < n :: ops[..n][i] == ops[i];
    }
  }

  predicate OfSeller(op: Op, user: string) { op.Parse? && Storable(op.r.listing) && op.r.seller.olxUserId == user }
  predicate OfListing(op: Op, key: string) { op.Parse? && Storable(op.r.listing) && op.r.listing.olxListingId == key }

  function ParseOf(user: string): Op -> bool { (op: Op) => OfSeller(op, user) }
  function RegisteredBy(user: string): Op -> bool { (op: Op) => OfSeller(op, user) && op.r.seller.registeredAt.Some? }
  function MarkOf(id: nat): Op -> bool { (op: Op) => op.Mark? && op.id == id }
  function LabelOf(user: string): Op -> bool {
    (op: Op) => op.Label? && op.user == user && op.value in {"", "owner", "agency"}
  }
  function Touching(user: string, id: nat): Op -> bool {
    (op: Op) => OfSeller(op, user) || MarkOf(id)(op) || LabelOf(user)(op)
  }
  function ParseOfListing(key: string): Op -> bool { (op: Op) => OfListing(op, key) }

  // ---- seller rows ----

  /** The row a history leaves for a seller: id and first-seen times from its first parse, the registration date from
      the first parse that has one, the other columns from the last parse, the stamp and the label from the last
      mark and the last accepted label since the row exists, and updated from the last of all these. */
  ghost predicate SellerRowIs(ops: seq<Op>, user: string, row: SellerRow) {
    var first, last := First(ops, ParseOf(user)), Last(ops, ParseOf(user));
    && first.Some? && last.Some?
    && row.id == Run(ops[..first.value]).nextSeller
    && row.created == row.firstSeen == ops[first.value].now
    && row.cols == ops[last.value].r.seller.cols
    && row.lastSeen == row.lastScraped == ops[last.value].now
    && (var k := First(ops, RegisteredBy(user));
        row.registeredAt == if k.Some? then ops[k.value].r.seller.registeredAt else None)
    && (var k := Last(ops, MarkOf(row.id));
        row.lastEnriched == if k.Some? && k.value > first.value then Some(ops[k.value].now) else None)
    && (var k := Last(ops, LabelOf(user));
        row.manualLabel == if k.Some? && k.value > first.value then Text(ops[k.value].value) else None)
    && (var k := Last(ops, Touching(user, row.id)); k.Some? && row.updated == ops[k.value].now)
  }

  lemma NewSeller(ops: seq<Op>, op: Op, user: string)
    requires user !in Run(ops).sellers && First(ops, ParseOf(user)).None? && OfSeller(op, user)
    requires First(ops, RegisteredBy(user)).None?
    ensures user in Run(ops + [op]).sellers && SellerRowIs(ops + [op], user, Run(ops + [op]).sellers[user])
  {
    var all := ops + [op];
    assert all[..|ops|] == ops;
  }

  /** What one statement does to an existing seller row. */
  lemma SellerStep(t: Tables, op: Op, user: string)
    requires user in t.sellers
    ensures user in Step(t, op).sellers
    ensures var row, row' := t.sellers[user], Step(t, op).sellers[user];
      && row'.id == row.id && row'.created == row.created && row'.firstSeen == row.firstSeen
      && row'.cols == (if OfSeller(op, user) then op.r.seller.cols else row.cols)
      && row'.lastSeen == (if OfSeller(op, user) then op.now else row.lastSeen)
      && row'.lastScraped == (if OfSeller(op, user) then op.now else row.lastScraped)
      && row'.registeredAt ==
           (if row.registeredAt.None? && OfSeller(op, user) then op.r.seller.registeredAt else row.registeredAt)
      && row'.lastEnriched == (if MarkOf(row.id)(op) then Some(op.now) else row.lastEnriched)
      && row'.manualLabel == (if LabelOf(user)(op) then Text(op.value) else row.manualLabel)
      && row'.updated == (if Touching(user, row.id)(op) then op.now else row.updated)
  {
  }

  lemma Snoc(ops: seq<Op>, op: Op, p: Op -> bool)
    ensures First(ops + [op], p) == if First(ops, p).Some? then First(ops, p) else if p(op) then Some(|ops|) else None
    ensures Last(ops + [op], p) == if p(op) then Some(|ops|) else Last(ops, p)
  {
    assert (ops + [op])[..|ops|] == ops;
  }

  lemma OldSeller(ops: seq<Op>, op: Op, user: string)
    requires user in Run(ops).sellers && SellerRowIs(ops, user, Run(ops).sellers[user])
    ensures user in Run(ops + [op]).sellers && SellerRowIs(ops + [op], user, Run(ops + [op]).sellers[user])
  {
    var all, row := ops + [op], Run(ops).sellers[user];
    assert Run(all) == Step(Run(ops), op) by { assert all[..|ops|] == ops; }
    SellerStep(Run(ops), op, user);
    Snoc(ops, op, ParseOf(user));
    Snoc(ops, op, RegisteredBy(user));
    Snoc(ops, op, MarkOf(row.id));
    Snoc(ops, op, LabelOf(user));
    Snoc(ops, op, Touching(user, row.id));
    var first := First(ops, ParseOf(user)).value;
    assert all[..first] == ops[..first];
  }

  /** One row per seller ever committed, and the row is what the history says. */
  lemma {:induction false} SellerRows(ops: seq<Op>, user: string)
    ensures user in Run(ops).sellers <==> First(ops, ParseOf(user)).Some?
    ensures user in Run(ops).sellers ==> SellerRowIs(ops, user, Run(ops).sellers[user])
  {
    if ops != [] {
      var n := |ops| - 1;
      SellerRows(ops[..n], user);
      assert ops == ops[..n] + [ops[n]];
      if user in Run(ops[..n]).sellers {
        OldSeller(ops[..n], ops[n], user);
      } else if OfSeller(ops[n], user) {
        FirstIs(ops[..n], ParseOf(user));
        FirstIs(ops[..n], RegisteredBy(user));
        NewSeller(ops[..n], ops[n], user);
      }
    }
  }

  // ---- listing rows ----

  lemma RunSnoc(ops: seq<Op>, op: Op)
    ensures Run(ops + [op]) == Step(Run(ops), op)
  {
    assert (ops + [op])[..|ops|] == ops;
  }

  lemma ListingStep(t: Tables, op: Op, key: string)
    ensures key in Step(t, op).listings <==> key in t.listings || OfListing(op, key)
    ensures key in t.listings ==>
      var row, row' := t.listings[key], Step(t, op).listings[key];
      if OfListing(op, key) then
        op.r.seller.olxUserId in Step(t, op).sellers
        && row' == row.(cols := ColsOf(op.r.listing, Step(t, op).sellers[op.r.seller.olxUserId].id),
                        lastSeen := op.now, lastScraped := op.now, updated := op.now)
      else row' == row
    ensures key !in t.listings && OfListing(op, key) ==>
      op.r.seller.olxUserId in Step(t, op).sellers
      && Step(t, op).listings[key] == ListingRow(t.nextListing, op.r.listing.url,
           ColsOf(op.r.listing, Step(t, op).sellers[op.r.seller.olxUserId].id), op.now, op.now, op.now, op.now, op.now)
  {
  }

  /** The row a history leaves for a listing: id, url and first-seen times from its first parse, everything else from
      its last, which also names the seller. */
  ghost predicate ListingRowIs(ops: seq<Op>, key: string, row: ListingRow) {
    var first, last := First(ops, ParseOfListing(key)), Last(ops, ParseOfListing(key));
    && first.Some? && last.Some?
    && row.id == Run(ops[..first.value]).nextListing
    && row.url == ops[first.value].r.listing.url
    && row.created == row.firstSeen == ops[first.value].now
    && row.lastSeen == row.lastScraped == row.updated == ops[last.value].now
    && (var user := ops[last.value].r.seller.olxUserId;
        user in Run(ops).sellers && row.cols == ColsOf(ops[last.value].r.listing, Run(ops).sellers[user].id))
  }

  lemma NewListing(ops: seq<Op>, op: Op, key: string)
    requires key !in Run(ops).listings && First(ops, ParseOfListing(key)).None? && OfListing(op, key)
    ensures key in Run(ops + [op]).listings && ListingRowIs(ops + [op], key, Run(ops + [op]).listings[key])
  {
    RunSnoc(ops, op);
    Snoc(ops, op, ParseOfListing(key));
    ListingStep(Run(ops), op, key);
    assert (ops + [op])[..|ops|] == ops;
  }

  lemma OldListing(ops: seq<Op>, op: Op, key: string)
    requires key in Run(ops).listings && ListingRowIs(ops, key, Run(ops).listings[key])
    ensures key in Run(ops + [op]).listings && ListingRowIs(ops + [op], key, Run(ops + [op]).listings[key])
  {
    RunSnoc(ops, op);
    Snoc(ops, op, ParseOfListing(key));
    ListingStep(Run(ops), op, key);
    SellerStep(Run(ops), op, ops[Last(ops, ParseOfListing(key)).value].r.seller.olxUserId);
    var first := First(ops, ParseOfListing(key)).value;
    assert (ops + [op])[..first] == ops[..first];
  }

  /** One row per listing ever committed, and the row is what the history says. */
  lemma {:induction false} ListingRows(ops: seq<Op>, key: string)
    ensures key in Run(ops).listings <==> First(ops, ParseOfListing(key)).Some?
    ensures key in Run(ops).listings ==> ListingRowIs(ops, key, Run(ops).listings[key])
  {
    if ops != [] {
      var n := |ops| - 1;
      ListingRows(ops[..n], key);
      assert ops == ops[..n] + [ops[n]];
      Snoc(ops[..n], ops[n], ParseOfListing(key));
      ListingStep(Run(ops[..n]), ops[n], key);
      if key in Run(ops[..n]).listings {
        OldListing(ops[..n], ops[n], key);
      } else if OfListing(ops[n], key) {
        NewListing(ops[..n], ops[n], key);
      }
    }
  }

  /** The same parse again, at once: only timestamps move (and the id sequences). */
  lemma ReplayMovesOnlyTimes(t: Tables, r: Parsed, now: Time, later: Time)
    requires Storable(r.listing)
    ensures var t1 := Step(t, Parse(r, now));
      var t2 := Step(t1, Parse(r, later));
      var user, key := r.seller.olxUserId, r.listing.olxListingId;
      && user in t1.sellers && key in t1.listings
      && t2.sellers == t1.sellers[user := t1.sellers[user].(lastSeen := later, lastScraped := later, updated := later)]
      && t2.listings == t1.listings[key := t1.listings[key].(lastSeen := later, lastScraped := later, updated := later)]
      && t2.snapshots == t1.snapshots && t2.fetches == t1.fetches
  {
  }

  // ---- snapshots ----

  function TextOf(s: Option<string>): string { if s.Some? then s.value else "" }

  /** The listing state a snapshot row holds, read back from its columns. */
  function RowParts(row: SnapshotRow): seq<string> {
    [TextOf(row.title), TextOf(row.status), PriceText(row.price), TextOf(row.currency)]
  }

  /** Listing ids are unique, and snapshots belong to listings. */
  ghost predicate IdsOk(t: Tables) {
    && ListingsKeyed(t)
    && (forall k | k in t.snapshots :: k.0 < t.nextListing)
  }

  ghost predicate ListingsKeyed(t: Tables) {
    && (forall key | key in t.listings :: t.listings[key].id < t.nextListing)
    && (forall i, j | i in t.listings && j in t.listings && t.listings[i].id == t.listings[j].id :: i == j)
  }

  ghost predicate RowsReadBack(t: Tables) {
    forall k | k in t.snapshots :: k.1 == Sum(RowParts(t.snapshots[k])) && AllNulFree(RowParts(t.snapshots[k]))
  }

  lemma StatePartsNulFree(l: ParsedListing)
    requires Storable(l)
    ensures AllNulFree(StateParts(l))
  {
  }

  lemma SnapshotReadsBack(l: ParsedListing, now: Time)
    ensures RowParts(SnapshotOf(l, now)) == StateParts(l)
  {
  }

  lemma StepListingsKeyed(t: Tables, op: Op)
    requires ListingsKeyed(t)
    ensures ListingsKeyed(Step(t, op)) && t.nextListing <= Step(t, op).nextListing
  {
    var t' := Step(t, op);
    forall i, j | i in t'.listings && j in t'.listings && t'.listings[i].id == t'.listings[j].id ensures i == j {
      ListingStep(t, op, i);
      ListingStep(t, op, j);
    }
    forall key | key in t'.listings ensures t'.listings[key].id < t'.nextListing { ListingStep(t, op, key); }
  }

  lemma StepIds(t: Tables, op: Op)
    requires IdsOk(t)
    ensures IdsOk(Step(t, op))
  {
    StepListingsKeyed(t, op);
    SnapshotStep(t, op);
  }

  lemma {:induction false} StepReadsBack(t: Tables, op: Op)
    requires RowsReadBack(t)
    ensures RowsReadBack(Step(t, op))
  {
    if op.Parse? && Storable(op.r.listing) {
      StatePartsNulFree(op.r.listing);
      SnapshotReadsBack(op.r.listing, op.now);
    }
  }

  lemma {:induction false} RunOk(ops: seq<Op>)
    ensures IdsOk(Run(ops)) && RowsReadBack(Run(ops))
  {
    if ops != [] {
      RunOk(ops[..|ops| - 1]);
      StepIds(Run(ops[..|ops| - 1]), ops[|ops| - 1]);
      StepReadsBack(Run(ops[..|ops| - 1]), ops[|ops| - 1]);
    }
  }

  /** The listing states ever committed for a listing. */
  function Tuples(ops: seq<Op>, key: string): set<seq<string>> {
    set k | 0 <= k < |ops| && OfListing(ops[k], key) :: StateParts(ops[k].r.listing)
  }

  lemma TuplesSnoc(ops: seq<Op>, op: Op, key: string)
    ensures Tuples(ops + [op], key) == Tuples(ops, key) + if OfListing(op, key) then {StateParts(op.r.listing)} else {}
  {
    var all := ops + [op];
    forall p | p in Tuples(ops, key) + (if OfListing(op, key) then {StateParts(op.r.listing)} else {})
      ensures p in Tuples(all, key) {
      if p in Tuples(ops, key) {
        var k :| 0 <= k < |ops| && OfListing(ops[k], key) && p == StateParts(ops[k].r.listing);
        assert all[k] == ops[k];
      } else {
        assert all[|ops|] == op;
      }
    }
  }

  /** A key of the snapshot table under listing id stands for a committed state. */
  ghost predicate KeysAre(t: Tables, id: nat, tuples: set<seq<string>>) {
    && (forall p | p in tuples :: (id, Sum(p)) in t.snapshots)
    && (forall h | (id, h) in t.snapshots :: exists p :: p in tuples && h == Sum(p))
  }

  /** A statement adds at most the snapshot of the state it commits, under the id of its listing. */
  lemma SnapshotStep(t: Tables, op: Op)
    ensures forall k | k in t.snapshots :: k in Step(t, op).snapshots && Step(t, op).snapshots[k] == t.snapshots[k]
    ensures if op.Parse? && Storable(op.r.listing) then
        op.r.listing.olxListingId in Step(t, op).listings
        && Step(t, op).snapshots.Keys ==
           t.snapshots.Keys + {(Step(t, op).listings[op.r.listing.olxListingId].id, Sum(StateParts(op.r.listing)))}
      else Step(t, op).snapshots == t.snapshots
  {
  }

  lemma StepKeys(t: Tables, op: Op, key: string, tuples: set<seq<string>>)
    requires IdsOk(t) && IdsOk(Step(t, op))
    requires if key in t.listings then KeysAre(t, t.listings[key].id, tuples) else tuples == {}
    requires key in Step(t, op).listings
    ensures KeysAre(Step(t, op), Step(t, op).listings[key].id, tuples + if OfListing(op, key)
                    then {StateParts(op.r.listing)} else {})
  {
    ListingStep(t, op, key);
    SnapshotStep(t, op);
    var t', id := Step(t, op), Step(t, op).listings[key].id;
    var more := tuples + if OfListing(op, key) then {StateParts(op.r.listing)} else {};
    forall h | (id, h) in t'.snapshots ensures exists p :: p in more && h == Sum(p) {
      if (id, h) in t.snapshots {
        assert key in t.listings;
        var p :| p in tuples && h == Sum(p);
        assert p in more;
      } else {
        assert op.r.listing.olxListingId == key;
        assert StateParts(op.r.listing) in more;
      }
    }
  }

  lemma {:induction false} SnapshotKeys(ops: seq<Op>, key: string)
    ensures if key in Run(ops).listings then KeysAre(Run(ops), Run(ops).listings[key].id, Tuples(ops, key))
      else Tuples(ops, key) == {}
  {
    if ops != [] {
      var n := |ops| - 1;
      SnapshotKeys(ops[..n], key);
      RunOk(ops[..n]);
      assert ops == ops[..n] + [ops[n]];
      TuplesSnoc(ops[..n], ops[n], key);
      ListingStep(Run(ops[..n]), ops[n], key);
      RunOk(ops);
      if key in Run(ops).listings { StepKeys(Run(ops[..n]), ops[n], key, Tuples(ops[..n], key)); }
    }
  }

  // ---- main results on snapshots ----

  /** The keys of a listing's snapshot rows. */
  function KeysOf(t: Tables, id: nat): set<(nat, Digest)> { set k | k in t.snapshots && k.0 == id }

  lemma TuplesNulFree(ops: seq<Op>, key: string)
    ensures forall p | p in Tuples(ops, key) :: AllNulFree(p)
  {
    forall p | p in Tuples(ops, key) ensures AllNulFree(p) {
      var k :| 0 <= k < |ops| && OfListing(ops[k], key) && p == StateParts(ops[k].r.listing);
      StatePartsNulFree(ops[k].r.listing);
    }
  }

  lemma {:induction false} SameSize<A(!new), B(!new)>(xs: set<A>, ys: set<B>, f: A -> B)
    requires forall x | x in xs :: f(x) in ys
    requires forall x, x' | x in xs && x' in xs && f(x) == f(x') :: x == x'
    requires forall y | y in ys :: exists x :: x in xs && f(x) == y
    ensures |xs| == |ys|
    decreases |xs|
  {
    if xs == {} {
      assert ys == {};
    } else {
      var x :| x in xs;
      forall y | y in ys - {f(x)} ensures exists z :: z in xs - {x} && f(z) == y {
        var z :| z in xs && f(z) == y;
        assert z in xs - {x};
      }
      SameSize(xs - {x}, ys - {f(x)}, f);
    }
  }

  /** After any history the snapshot rows of a listing are in bijection with the distinct states ever committed for
      it: each state has its row, each row reads back as its state, and no two rows read the same. */
  lemma {:induction false} SnapshotsMatchStates(ops: seq<Op>, key: string)
    requires key in Run(ops).listings
    ensures var t, id := Run(ops), Run(ops).listings[key].id;
      && (forall p | p in Tuples(ops, key) :: (id, Sum(p)) in t.snapshots && RowParts(t.snapshots[(id, Sum(p))]) == p)
      && (forall k | k in KeysOf(t, id) :: RowParts(t.snapshots[k]) in Tuples(ops, key))
      && (forall j, k | j in KeysOf(t, id) && k in KeysOf(t, id)
          && RowParts(t.snapshots[j]) == RowParts(t.snapshots[k]) :: j == k)
      && |KeysOf(t, id)| == |Tuples(ops, key)|
  {
    var t, id, tuples := Run(ops), Run(ops).listings[key].id, Tuples(ops, key);
    RunOk(ops);
    SnapshotKeys(ops, key);
    TuplesNulFree(ops, key);
    forall p | p in tuples ensures (id, Sum(p)) in t.snapshots && RowParts(t.snapshots[(id, Sum(p))]) == p {
      SumInjective(p, RowParts(t.snapshots[(id, Sum(p))]));
    }
    forall k | k in KeysOf(t, id) ensures RowParts(t.snapshots[k]) in tuples {
      assert (id, k.1) in t.snapshots;
      var p :| p in tuples && k.1 == Sum(p);
      SumInjective(p, RowParts(t.snapshots[k]));
    }
    SameSize(tuples, KeysOf(t, id), p => (id, Sum(p)));
  }

  /** The current state of a listing is always among its snapshots, column by column, except that an empty status
      is NULL in the snapshot and the default in the listing. */
  lemma CurrentStateHasSnapshot(ops: seq<Op>, key: string)
    requires key in Run(ops).listings
    ensures var t, row := Run(ops), Run(ops).listings[key];
      exists k :: k in KeysOf(t, row.id) && var snap := t.snapshots[k];
        && TextOf(snap.title) == TextOf(row.cols.title) && snap.price == row.cols.price
        && TextOf(snap.currency) == TextOf(row.cols.currency)
        && row.cols.status == DefaultIfEmpty(TextOf(snap.status), "active")
  {
    var t, row := Run(ops), Run(ops).listings[key];
    ListingRows(ops, key);
    SnapshotsMatchStates(ops, key);
    var last := Last(ops, ParseOfListing(key)).value;
    var l := ops[last].r.listing;
    var p := StateParts(l);
    assert p in Tuples(ops, key);
    var snap := t.snapshots[(row.id, Sum(p))];
    assert (row.id, Sum(p)) in KeysOf(t, row.id);
    assert p[0] == l.title && p[1] == l.status && p[2] == PriceText(l.price) && p[3] == l.currency;
    assert RowParts(snap)[0] == l.title && RowParts(snap)[1] == l.status
        && RowParts(snap)[2] == PriceText(l.price) && RowParts(snap)[3] == l.currency;
  }

  /** Committing a state the listing has been in before adds no row: not on a replay, and not on the way back from
      another state. */
  lemma KnownStateAddsNothing(ops: seq<Op>, r: Parsed, now: Time)
    requires Storable(r.listing) && StateParts(r.listing) in Tuples(ops, r.listing.olxListingId)
    ensures Run(ops + [Parse(r, now)]).snapshots == Run(ops).snapshots
  {
    var op, key := Parse(r, now), r.listing.olxListingId;
    RunSnoc(ops, op);
    SnapshotKeys(ops, key);
    ListingStep(Run(ops), op, key);
    SnapshotStep(Run(ops), op);
  }

  /** A new state adds exactly one. */
  lemma NewStateAddsOne(ops: seq<Op>, r: Parsed, now: Time)
    requires Storable(r.listing) && StateParts(r.listing) !in Tuples(ops, r.listing.olxListingId)
    ensures var t' := Run(ops + [Parse(r, now)]); var key := r.listing.olxListingId;
      key in t'.listings
      && var added := (t'.listings[key].id, Sum(StateParts(r.listing)));
      && added !in Run(ops).snapshots && t'.snapshots == Run(ops).snapshots[added := SnapshotOf(r.listing, now)]
      && t'.snapshots[added].capturedAt == now && t'.snapshots[added].price == r.listing.price
      && RowParts(t'.snapshots[added]) == StateParts(r.listing)
  {
    var op, key := Parse(r, now), r.listing.olxListingId;
    RunSnoc(ops, op);
    RunOk(ops);
    SnapshotKeys(ops, key);
    TuplesNulFree(ops, key);
    ListingStep(Run(ops), op, key);
    StatePartsNulFree(r.listing);
    var added := (Run(ops + [op]).listings[key].id, Sum(StateParts(r.listing)));
    if key in Run(ops).listings && added in Run(ops).snapshots {
      var p :| p in Tuples(ops, key) && added.1 == Sum(p);
      SumInjective(p, StateParts(r.listing));
      assert false;
    }
  }
}
