/** The four stage handlers as they are written: one loop of effects each, and the runs of the crawler they are. */
module Handlers {
  import opened Common
  import opened Hash
  import opened Tasks
  import opened Topology
  import opened Consumer
  import P = RetryProtocol
  import opened Store
  import opened Pipeline
  import opened Publisher
  import opened Database
  import Links

  // ---- what a handler does, as a value ----

  /** How it came back, the tables it left, and the publishes it tried. */
  datatype Did = Did(outcome: Outcome, t: Tables, tried: seq<P.Sent>)

  /** Publishing a plan in order, stopping at the first error: what is tried, and whether all of it was confirmed. */
  datatype Sends = Sends(tried: seq<P.Sent>, outcome: Outcome)

  predicate Confirms(w: Wire) { AttemptOf(w).outcome == Nil }

  /** How many of the next n calls are confirmed before one is not. */
  function Streak(wires: nat -> Wire, from: nat, n: nat): (k: nat)
    ensures k <= n
  {
    if n == 0 then 0
    else
      var k := Streak(wires, from, n - 1);
      if k < n - 1 then k else if Confirms(wires(from + n - 1)) then n else n - 1
  }

  function SendAll(wires: nat -> Wire, from: nat, todo: seq<P.Sent>): Sends {
    var k := Streak(wires, from, |todo|);
    if k == |todo| then Sends(todo, Nil) else Sends(todo[..k + 1], Error)
  }

  function Nothing(o: Outcome, t: Tables): Did { Did(o, t, []) }

  /** Discovery: early stands for a search url that does not parse or an interrupted rate limiter. */
  function Discovers(c: Settings, wires: nat -> Wire, from: nat, b: Body, early: bool,
                     page: Result<seq<string>>): Sends {
    if b.NotJson? || b.searchUrl == "" then Sends([], Error)
    else if NormalPage(b.page) > c.maxPage then Sends([], Nil)
    else if early || page.Err? then Sends([], Error)
    else SendAll(wires, from, PagePlan(b.searchUrl, NormalPage(b.page), page.value, c.maxPage))
  }

  /** The site's answer to a fetch: none, or a status and a body. */
  datatype Reply = NoReply | Reply(status: int, html: string)

  /** Where the database or the limiter fails, if it does. */
  datatype Trouble = AtLookup | AtLimiter | AtWrite | NoTrouble

  function Fetches(c: Settings, wires: nat -> Wire, from: nat, t: Tables, b: Body, now: Time,
                   trouble: Trouble, reply: Reply): Did {
    if b.NotJson? || b.url == "" then Nothing(Error, t)
    else if c.minRefetch > 0 && trouble == AtLookup then Nothing(Error, t)
    else if FetchGateCloses(c, t, b.url, now) then Nothing(Nil, t)
    else if trouble == AtLimiter || reply.NoReply? || Transient(reply.status) || trouble == AtWrite then
      Nothing(Error, t)
    else if reply.status >= 400 then Nothing(Nil, InsertFetch(t, b.url, reply.status, None, now))
    else
      var s := SendAll(wires, from, [P.Sent(LISTINGS_PARSE, ParseTask(t.nextFetch, b.url))]);
      Did(s.outcome, InsertFetch(t, b.url, reply.status, Some(reply.html), now), s.tried)
  }

  /** The enricher: a stamp comes only after every publish was confirmed. */
  function Enriches(c: Settings, wires: nat -> Wire, from: nat, t: Tables, b: Body, now: Time,
                    trouble: Trouble, profile: Result<seq<string>>): Did {
    if b.NotJson? || b.olxUserId == "" || trouble == AtLookup then Nothing(Error, t)
    else if b.olxUserId !in t.sellers || Fresh(c, t, b.olxUserId, now) then Nothing(Nil, t)
    else
      var row := t.sellers[b.olxUserId];
      var marked := if trouble == AtWrite then t else MarkSellerEnriched(t, row.id, now);
      var end := if trouble == AtWrite then Error else Nil;
      if row.cols.profileUrl == None || row.cols.profileUrl == Some("") then Did(end, marked, [])
      else if trouble == AtLimiter || profile.Err? then Nothing(Error, t)
      else
        var s := SendAll(wires, from, FetchPlan(profile.value));
        if s.outcome != Nil then Did(s.outcome, t, s.tried) else Did(end, marked, s.tried)
  }

  /** The parser: seller, listing and snapshot in one transaction, then the enrich task. failAt is the statement
      that fails, if one does. */
  function Parses(wires: nat -> Wire, from: nat, t: Tables, b: Body, now: Time,
                  trouble: Trouble, parsed: Result<Parsed>, failAt: nat): Did {
    if b.NotJson? || b.fetchId == 0 || trouble == AtLookup || FindFetch(t, b.fetchId).None? then Nothing(Error, t)
    else if FindFetch(t, b.fetchId).value.html.None? then Nothing(Nil, t)
    else if parsed.Err? || failAt <= 3 || CommitParse(t, parsed.value, now).Err? then Nothing(Error, t)
    else
      var s := SendAll(wires, from, [P.Sent(SELLERS_ENRICH, EnrichTask(parsed.value.seller.olxUserId))]);
      Did(s.outcome, CommitParse(t, parsed.value, now).value, s.tried)
  }

  // ---- a plan, publish by publish ----

  lemma {:induction false} StreakHead(wires: nat -> Wire, from: nat, n: nat)
    requires n > 0
    ensures Streak(wires, from, n) == if Confirms(wires(from)) then 1 + Streak(wires, from + 1, n - 1) else 0
  {
    if n > 1 { StreakHead(wires, from, n - 1); }
  }

  lemma FirstSend(wires: nat -> Wire, from: nat, todo: seq<P.Sent>)
    requires todo != []
    ensures SendAll(wires, from, todo) ==
      if !Confirms(wires(from)) then Sends([todo[0]], Error)
      else var rest := SendAll(wires, from + 1, todo[1..]); Sends([todo[0]] + rest.tried, rest.outcome)
  {
    StreakHead(wires, from, |todo|);
    var k := Streak(wires, from + 1, |todo| - 1);
    if k < |todo| - 1 { assert todo[..k + 2] == [todo[0]] + todo[1..][..k + 1]; }
  }

  // ---- the handlers ----

  function FrameOf(s: P.Sent): Frame { Frame(EXCHANGE_WORK, s.queue, s.body, map[]) }

  function FramesOf(todo: seq<P.Sent>): (r: seq<Frame>)
    ensures |r| == |todo|
  {
    if todo == [] then [] else FramesOf(todo[..|todo| - 1]) + [FrameOf(todo[|todo| - 1])]
  }

  lemma FramesSnoc(todo: seq<P.Sent>, i: nat)
    requires i < |todo|
    ensures FramesOf(todo[..i + 1]) == FramesOf(todo[..i]) + [FrameOf(todo[i])]
  {
    assert todo[..i + 1][..i] == todo[..i];
  }

  lemma {:induction false} StreakStops(wires: nat -> Wire, from: nat, i: nat, n: nat)
    requires i < n && Streak(wires, from, i) == i && !Confirms(wires(from + i))
    ensures Streak(wires, from, n) == i
    decreases n
  {
    if i < n - 1 { StreakStops(wires, from, i, n - 1); }
  }

  /** The frames on the channel after the first i publishes of a plan, all confirmed. */
  ghost predicate Sent(wires: nat -> Wire, frames: seq<Frame>, frames0: seq<Frame>, plan: seq<P.Sent>, i: nat) {
    i <= |plan| && frames == frames0 + FramesOf(plan[..i]) && Streak(wires, |frames0|, i) == i
  }

  lemma Starts(wires: nat -> Wire, frames: seq<Frame>, plan: seq<P.Sent>)
    ensures Sent(wires, frames, frames, plan, 0)
  {
    assert frames + [] == frames;
  }

  /** The next publish: confirmed, the loop goes on; failed, this was all. */
  lemma OneSend(wires: nat -> Wire, frames: seq<Frame>, frames0: seq<Frame>, plan: seq<P.Sent>, i: nat)
    requires Sent(wires, frames, frames0, plan, i) && i < |plan|
    ensures |frames| == |frames0| + i
    ensures var frames' := frames + [FrameOf(plan[i])];
      if Confirms(wires(|frames|)) then Sent(wires, frames', frames0, plan, i + 1)
      else
        && SendAll(wires, |frames0|, plan) == Sends(plan[..i + 1], Error)
        && frames' == frames0 + FramesOf(plan[..i + 1])
  {
    FramesSnoc(plan, i);
    if !Confirms(wires(|frames|)) { StreakStops(wires, |frames0|, i, |plan|); }
  }

  lemma Ends(wires: nat -> Wire, frames: seq<Frame>, frames0: seq<Frame>, plan: seq<P.Sent>)
    requires Sent(wires, frames, frames0, plan, |plan|)
    ensures SendAll(wires, |frames0|, plan) == Sends(plan, Nil) && frames == frames0 + FramesOf(plan)
  {
    assert plan[..|plan|] == plan;
  }

  // ---- what the handlers do, said of the calls and rows themselves ----

  /** The calls made since then: the plan in order, up to and including the first that the broker did not confirm. */
  ghost predicate Made(wires: nat -> Wire, before: seq<Frame>, after: seq<Frame>, plan: seq<Frame>, outcome: Outcome) {
    if forall n | |before| <= n < |before| + |plan| :: Acked(wires, n) then after == before + plan && outcome == Nil
    else
      && outcome == Error
      && exists k: nat :: k < |plan| && StopsAt(wires, |before|, k) && after == before + plan[..k + 1]
  }

  /** The broker confirmed call number n. */
  predicate Acked(wires: nat -> Wire, n: nat) { wires(n) == Wire.Ack }

  /** Call number k from there is the first that is not confirmed. */
  ghost predicate StopsAt(wires: nat -> Wire, from: nat, k: nat) {
    !Acked(wires, from + k) && forall n | from <= n < from + k :: Acked(wires, n)
  }

  /** One fetch task a link. */
  function LinkFrames(urls: seq<string>): (r: seq<Frame>)
    ensures |r| == |urls|
    ensures forall k | 0 <= k < |urls| ::
      r[k] == Frame("olx.work", "listings.fetch", Json("", 0, urls[k], 0, ""), map[])
  {
    seq(|urls|, k requires 0 <= k < |urls| =>
      Frame("olx.work", "listings.fetch", Json("", 0, urls[k], 0, ""), map[]))
  }

  /** Some stored row of the url is younger than the interval. */
  ghost predicate Young(rows: seq<FetchRow>, url: string, now: Time, interval: nat) {
    exists r :: r in rows && r.url == url && r.fetchedAt >= 1 && now - r.fetchedAt < interval
  }

  lemma GateIsYoung(c: Settings, t: Tables, url: string, now: Time)
    ensures FetchGateCloses(c, t, url, now) <==> c.minRefetch > 0 && Young(t.fetches, url, now, c.minRefetch)
  {
    LatestIsNewest(t.fetches, url);
  }

  lemma {:induction false} FramesAt(todo: seq<P.Sent>, k: nat)
    requires k < |todo|
    ensures FramesOf(todo)[k] == FrameOf(todo[k])
  {
    var n := |todo| - 1;
    if k < n { FramesAt(todo[..n], k); }
  }

  lemma {:induction false} StreakIs(wires: nat -> Wire, from: nat, n: nat)
    ensures forall j | from <= j < from + Streak(wires, from, n) :: Acked(wires, j)
    ensures Streak(wires, from, n) < n ==> !Acked(wires, from + Streak(wires, from, n))
  {
    if n > 0 { StreakIs(wires, from, n - 1); }
  }

  lemma FramesOfPrefix(todo: seq<P.Sent>, k: nat)
    requires k <= |todo|
    ensures FramesOf(todo[..k]) == FramesOf(todo)[..k]
  {
    forall i | 0 <= i < k ensures FramesOf(todo[..k])[i] == FramesOf(todo)[i] {
      FramesAt(todo[..k], i);
      FramesAt(todo, i);
    }
  }

  /** SendAll is that. */
  lemma SendAllMade(wires: nat -> Wire, before: seq<Frame>, todo: seq<P.Sent>)
    ensures var s := SendAll(wires, |before|, todo);
      Made(wires, before, before + FramesOf(s.tried), FramesOf(todo), s.outcome)
  {
    var k := Streak(wires, |before|, |todo|);
    StreakIs(wires, |before|, |todo|);
    if k < |todo| {
      FramesOfPrefix(todo, k + 1);
      assert StopsAt(wires, |before|, k);
    }
  }

  lemma LinkFramesAre(urls: seq<string>, more: seq<P.Sent>)
    requires |more| <= 1
    ensures FramesOf(FetchPlan(urls) + more) == LinkFrames(urls) + if more == [] then [] else [FrameOf(more[0])]
  {
    FetchPlanIs(urls);
    var plan, frames := FetchPlan(urls) + more, LinkFrames(urls) + if more == [] then [] else [FrameOf(more[0])];
    forall k | 0 <= k < |plan| ensures FramesOf(plan)[k] == frames[k] { FramesAt(plan, k); }
  }

  lemma OneFrame(sent: P.Sent)
    ensures FramesOf([sent]) == [FrameOf(sent)]
  {
    FramesAt([sent], 0);
  }

  // ---- the four effects ----

  /** An answer the site would not stand by: worth another try. */
  predicate Unusable(a: Links.Answer) {
    a.Unreachable? || a.status >= 500 || a.status == 429 || (a.Unreadable? && a.status < 400)
  }

  /** The links of an answer that can be used; a refusal is a page without links. */
  ghost predicate LinksOf(clean: string -> string, a: Links.Answer, urls: seq<string>) {
    if a.Page? && a.status < 400 then Links.Lists(clean, a.anchors, urls) else urls == []
  }

  /** Discovery: a bad task or an unusable answer is an error, a page past the last is dropped; otherwise every link of
      the page goes to the fetcher, and then the next page back to discovery. */
  ghost predicate DiscoverEffect(c: Settings, wires: nat -> Wire, before: seq<Frame>, after: seq<Frame>, body: Body,
                                 early: bool, clean: string -> string, answer: Links.Answer, outcome: Outcome) {
    if body.NotJson? || body.searchUrl == "" then outcome == Error && after == before
    else
      var page := if body.page <= 0 then 1 else body.page;
      if page > c.maxPage then outcome == Nil && after == before
      else if early || Unusable(answer) then outcome == Error && after == before
      else exists urls ::
        && LinksOf(clean, answer, urls)
        && Made(wires, before, after, LinkFrames(urls) + NextPage(body.searchUrl, page, |urls|, c.maxPage), outcome)
  }

  /** The call for the next page, if this one had links and is not the last allowed. */
  function NextPage(searchUrl: string, page: int, links: nat, maxPage: nat): seq<Frame> {
    if links > 0 && page < maxPage
    then [Frame("olx.work", "listings.discover", Json(searchUrl, page + 1, "", 0, ""), map[])] else []
  }

  /** The fetcher: a young row of the url drops the task, a transient answer is an error, anything else becomes one
      row; a page is stored as it came and its row handed to the parser. */
  ghost predicate FetchEffect(c: Settings, wires: nat -> Wire, before: seq<Frame>, after: seq<Frame>, t: Tables,
                              t': Tables, body: Body, now: Time, trouble: Trouble, reply: Reply, outcome: Outcome) {
    if body.NotJson? || body.url == "" || (c.minRefetch > 0 && trouble == AtLookup) then
      outcome == Error && t' == t && after == before
    else if c.minRefetch > 0 && Young(t.fetches, body.url, now, c.minRefetch) then
      outcome == Nil && t' == t && after == before
    else if trouble == AtLimiter || trouble == AtWrite || reply.NoReply? || reply.status >= 500 || reply.status == 429
    then outcome == Error && t' == t && after == before
    else
      var html := if reply.status < 400 then Some(reply.html) else None;
      && t' == t.(fetches := t.fetches + [FetchRow(t.nextFetch, body.url, reply.status, html, now)],
                  nextFetch := t.nextFetch + 1)
      && if reply.status >= 400 then outcome == Nil && after == before
         else Made(wires, before, after,
                   [Frame("olx.work", "listings.parse", Json("", 0, body.url, t.nextFetch, ""), map[])], outcome)
  }

  /** The sellers with that id are stamped and nothing else changes, unless the write fails. */
  ghost predicate Stamps(t: Tables, t': Tables, id: nat, now: Time, trouble: Trouble, outcome: Outcome) {
    if trouble == AtWrite then t' == t && outcome == Error
    else
      && outcome == Nil && t' == t.(sellers := t'.sellers) && t'.sellers.Keys == t.sellers.Keys
      && forall u | u in t.sellers :: t'.sellers[u] ==
           if t.sellers[u].id == id then t.sellers[u].(lastEnriched := Some(now), updated := now) else t.sellers[u]
  }

  /** The enricher: unknown and freshly stamped sellers are dropped; a seller without a profile url is stamped at once;
      a profile that could not be read is an error and no stamp; otherwise every link goes to the fetcher, and the
      stamp comes only when all of them were confirmed. */
  ghost predicate EnrichEffect(c: Settings, wires: nat -> Wire, before: seq<Frame>, after: seq<Frame>, t: Tables,
                               t': Tables, body: Body, now: Time, trouble: Trouble, answer: Links.Answer,
                               outcome: Outcome) {
    if body.NotJson? || body.olxUserId == "" || trouble == AtLookup then outcome == Error && t' == t && after == before
    else if body.olxUserId !in t.sellers then outcome == Nil && t' == t && after == before
    else
      var row := t.sellers[body.olxUserId];
      if row.lastEnriched.Some? && now - row.lastEnriched.value < c.freshness then
        outcome == Nil && t' == t && after == before
      else if row.cols.profileUrl == None || row.cols.profileUrl == Some("") then
        after == before && Stamps(t, t', row.id, now, trouble, outcome)
      else if trouble == AtLimiter || Unusable(answer) then outcome == Error && t' == t && after == before
      else exists urls ::
        && LinksOf(Links.AS_IS, answer, urls)
        && if forall n | |before| <= n < |before| + |urls| :: Acked(wires, n) then
             after == before + LinkFrames(urls) && Stamps(t, t', row.id, now, trouble, outcome)
           else Made(wires, before, after, LinkFrames(urls), outcome) && t' == t
  }

  /** Tables that differ at most in the ids handed out for nothing. */
  ghost predicate UpToIds(t: Tables, t': Tables) { t'.(nextSeller := t.nextSeller, nextListing := t.nextListing) == t }

  /** The tables hold what was parsed: seller, listing under that seller, and a snapshot of the listing's state. */
  ghost predicate Holds(t: Tables, r: Parsed, now: Time) {
    var user, key := r.seller.olxUserId, r.listing.olxListingId;
    && user in t.sellers && key in t.listings
    && t.sellers[user].cols == r.seller.cols && t.sellers[user].lastScraped == now
    && t.listings[key].cols.sellerId == t.sellers[user].id && t.listings[key].lastScraped == now
    && t.listings[key].cols.details == r.listing.details && t.listings[key].cols.price == r.listing.price
    && (t.listings[key].cols.title == if r.listing.title == "" then None else Some(r.listing.title))
    && (t.listings[key].cols.currency == if r.listing.currency == "" then None else Some(r.listing.currency))
    && (t.listings[key].cols.status == if r.listing.status == "" then "active" else r.listing.status)
    && (t.listings[key].id,
        Sum([r.listing.title, r.listing.status, if r.listing.price.Some? then r.listing.price.value else "",
             r.listing.currency])) in t.snapshots
  }

  /** The parser: no row is an error, a row without html is dropped; a page that does not parse, or a transaction that
      fails, is an error and leaves no trace; otherwise what was parsed is stored and the seller goes to the
      enricher. */
  ghost predicate ParseEffect(wires: nat -> Wire, before: seq<Frame>, after: seq<Frame>, t: Tables, t': Tables,
                              body: Body, now: Time, trouble: Trouble, parsed: Result<Parsed>, failAt: nat,
                              outcome: Outcome) {
    if body.NotJson? || body.fetchId == 0 || trouble == AtLookup || !(1 <= body.fetchId <= |t.fetches|) then
      outcome == Error && t' == t && after == before
    else if t.fetches[body.fetchId - 1].html.None? then outcome == Nil && t' == t && after == before
    else if parsed.Err? || failAt <= 3 || !Storable(parsed.value.listing) then
      outcome == Error && UpToIds(t, t') && after == before
    else
      && Holds(t', parsed.value, now)
      && Made(wires, before, after,
              [Frame("olx.work", "sellers.enrich", Json("", 0, "", 0, parsed.value.seller.olxUserId), map[])], outcome)
  }

  lemma PageIsMade(wires: nat -> Wire, before: seq<Frame>, searchUrl: string, page: int, urls: seq<string>,
                   maxPage: nat)
    ensures var s := SendAll(wires, |before|, PagePlan(searchUrl, page, urls, maxPage));
      Made(wires, before, before + FramesOf(s.tried), LinkFrames(urls) + NextPage(searchUrl, page, |urls|, maxPage),
           s.outcome)
  {
    SendAllMade(wires, before, PagePlan(searchUrl, page, urls, maxPage));
    LinkFramesAre(urls, if |urls| > 0 && page < maxPage
      then [P.Sent(LISTINGS_DISCOVER, DiscoverTask(searchUrl, page + 1))] else []);
  }

  lemma LinksExtracted(clean: string -> string, answer: Links.Answer)
    ensures Links.Extracted(clean, answer).Err? <==> Unusable(answer)
    ensures Links.Extracted(clean, answer).Ok? ==> LinksOf(clean, answer, Links.Extracted(clean, answer).value)
  {
    if answer.Page? && answer.status < 400 {
      Links.ExtractedIs(clean, answer, Links.Extracted(clean, answer).value);
    }
  }

  lemma DiscoversIs(c: Settings, wires: nat -> Wire, before: seq<Frame>, b: Body, early: bool,
                    clean: string -> string, answer: Links.Answer)
    ensures var did := Discovers(c, wires, |before|, b, early, Links.Extracted(clean, answer));
      DiscoverEffect(c, wires, before, before + FramesOf(did.tried), b, early, clean, answer, did.outcome)
  {
    LinksExtracted(clean, answer);
    var found := Links.Extracted(clean, answer);
    if b.Json? && found.Ok? {
      PageIsMade(wires, before, b.searchUrl, NormalPage(b.page), found.value, c.maxPage);
    }
    assert before + [] == before;
  }

  lemma FetchesIs(c: Settings, wires: nat -> Wire, before: seq<Frame>, t: Tables, b: Body, now: Time,
                  trouble: Trouble, reply: Reply)
    ensures var did := Fetches(c, wires, |before|, t, b, now, trouble, reply);
      FetchEffect(c, wires, before, before + FramesOf(did.tried), t, did.t, b, now, trouble, reply, did.outcome)
  {
    if b.Json? {
      GateIsYoung(c, t, b.url, now);
      var sent := P.Sent(LISTINGS_PARSE, ParseTask(t.nextFetch, b.url));
      SendAllMade(wires, before, [sent]);
      OneFrame(sent);
    }
    assert before + [] == before;
  }

  lemma ProfileIsMade(wires: nat -> Wire, before: seq<Frame>, urls: seq<string>)
    ensures var s := SendAll(wires, |before|, FetchPlan(urls));
      && Made(wires, before, before + FramesOf(s.tried), LinkFrames(urls), s.outcome)
      && (s.outcome == Nil <==> forall n | |before| <= n < |before| + |urls| :: Acked(wires, n))
  {
    SendAllMade(wires, before, FetchPlan(urls));
    LinkFramesAre(urls, []);
    assert FetchPlan(urls) + [] == FetchPlan(urls) && LinkFrames(urls) + [] == LinkFrames(urls);
  }

  lemma MarkStamps(t: Tables, id: nat, now: Time, trouble: Trouble)
    ensures Stamps(t, if trouble == AtWrite then t else MarkSellerEnriched(t, id, now), id, now, trouble,
                   if trouble == AtWrite then Error else Nil)
  {
  }

  lemma EnrichesIs(c: Settings, wires: nat -> Wire, before: seq<Frame>, t: Tables, b: Body, now: Time,
                   trouble: Trouble, answer: Links.Answer)
    ensures var did := Enriches(c, wires, |before|, t, b, now, trouble, Links.Extracted(Links.AS_IS, answer));
      EnrichEffect(c, wires, before, before + FramesOf(did.tried), t, did.t, b, now, trouble, answer, did.outcome)
  {
    LinksExtracted(Links.AS_IS, answer);
    var found := Links.Extracted(Links.AS_IS, answer);
    if b.Json? && b.olxUserId in t.sellers {
      MarkStamps(t, t.sellers[b.olxUserId].id, now, trouble);
      if found.Ok? { ProfileIsMade(wires, before, found.value); }
    }
    assert before + [] == before;
  }

  lemma CommitHolds(t: Tables, r: Parsed, now: Time)
    requires CommitParse(t, r, now).Ok?
    ensures Holds(CommitParse(t, r, now).value, r, now)
  {
  }

  lemma ParsesIs(wires: nat -> Wire, before: seq<Frame>, t: Tables, b: Body, now: Time, trouble: Trouble,
                 parsed: Result<Parsed>, failAt: nat)
    ensures var did := Parses(wires, |before|, t, b, now, trouble, parsed, failAt);
      ParseEffect(wires, before, before + FramesOf(did.tried), t, did.t, b, now, trouble, parsed, failAt, did.outcome)
  {
    if parsed.Ok? {
      if Storable(parsed.value.listing) { CommitHolds(t, parsed.value, now); }
      var sent := P.Sent(SELLERS_ENRICH, EnrichTask(parsed.value.seller.olxUserId));
      SendAllMade(wires, before, [sent]);
      OneFrame(sent);
    }
    assert before + [] == before;
  }

  /** The fan-out loop of discovery and enrichment: one fetch task a link, up to the first error. */
  method PublishLinks(pub: Publisher, urls: seq<string>, ghost plan: seq<P.Sent>) returns (err: bool)
    requires FetchPlan(urls) <= plan
    modifies pub
    ensures var sends := SendAll(pub.wires, |old(pub.frames)|, plan);
      if err then sends.outcome == Error && pub.frames == old(pub.frames) + FramesOf(sends.tried)
      else Sent(pub.wires, pub.frames, old(pub.frames), plan, |urls|)
  {
    FetchPlanIs(urls);
    Starts(pub.wires, pub.frames, plan);
    for i := 0 to |urls|
      invariant Sent(pub.wires, pub.frames, old(pub.frames), plan, i)
    {
      OneSend(pub.wires, pub.frames, old(pub.frames), plan, i);
      assert plan[i] == FetchPlan(urls)[i];
      err := pub.Publish(LISTINGS_FETCH, FetchTask(urls[i]));
      if err { return; }
    }
    err := false;
  }

  lemma PlanStartsWithLinks(searchUrl: string, page: int, urls: seq<string>, maxPage: nat)
    ensures var plan, more := PagePlan(searchUrl, page, urls, maxPage), |urls| > 0 && page < maxPage;
      && FetchPlan(urls) <= plan && |plan| == |urls| + (if more then 1 else 0)
      && (more ==> plan[|urls|] == P.Sent(LISTINGS_DISCOVER, DiscoverTask(searchUrl, page + 1)))
  {
    FetchPlanIs(urls);
  }

  /** The one publish a handler ends with. */
  method PublishOne(pub: Publisher, queue: string, task: Body) returns (outcome: Outcome)
    modifies pub
    ensures var sends := SendAll(pub.wires, |old(pub.frames)|, [P.Sent(queue, task)]);
      outcome == sends.outcome && pub.frames == old(pub.frames) + FramesOf(sends.tried)
  {
    ghost var plan := [P.Sent(queue, task)];
    Starts(pub.wires, pub.frames, plan);
    OneSend(pub.wires, pub.frames, old(pub.frames), plan, 0);
    var err := pub.Publish(queue, task);
    if err { return Error; }
    Ends(pub.wires, pub.frames, old(pub.frames), plan);
    outcome := Nil;
  }

  /** A page's publishes: every link, then the next page. */
  method PublishPage(pub: Publisher, searchUrl: string, page: int, urls: seq<string>, maxPage: nat)
    returns (outcome: Outcome)
    modifies pub
    ensures var sends := SendAll(pub.wires, |old(pub.frames)|, PagePlan(searchUrl, page, urls, maxPage));
      outcome == sends.outcome && pub.frames == old(pub.frames) + FramesOf(sends.tried)
  {
    ghost var plan := PagePlan(searchUrl, page, urls, maxPage);
    PlanStartsWithLinks(searchUrl, page, urls, maxPage);
    var err := PublishLinks(pub, urls, plan);
    if err { return Error; }
    if |urls| > 0 && page < maxPage {
      OneSend(pub.wires, pub.frames, old(pub.frames), plan, |urls|);
      err := pub.Publish(LISTINGS_DISCOVER, DiscoverTask(searchUrl, page + 1));
      if err { return Error; }
    }
    Ends(pub.wires, pub.frames, old(pub.frames), plan);
    outcome := Nil;
  }

  method HandleDiscover(c: Settings, pub: Publisher, body: Body, early: bool, clean: string -> string,
                        answer: Links.Answer)
    returns (outcome: Outcome)
    modifies pub
    ensures var did := Discovers(c, pub.wires, |old(pub.frames)|, body, early, Links.Extracted(clean, answer));
      outcome == did.outcome && pub.frames == old(pub.frames) + FramesOf(did.tried)
    ensures DiscoverEffect(c, pub.wires, old(pub.frames), pub.frames, body, early, clean, answer, outcome)
  {
    DiscoversIs(c, pub.wires, pub.frames, body, early, clean, answer);
    if body.NotJson? { return Error; }
    if body.searchUrl == "" { return Error; }
    var page := if body.page <= 0 then 1 else body.page;
    if page > c.maxPage { return Nil; }
    if early { return Error; }
    var found := Links.FetchListingURLs(clean, answer);
    if found.Err? { return Error; }
    outcome := PublishPage(pub, body.searchUrl, page, found.value, c.maxPage);
  }

  method HandleFetch(c: Settings, db: Database, pub: Publisher, body: Body, now: Time, trouble: Trouble, reply: Reply)
    returns (outcome: Outcome)
    modifies db, pub
    ensures var did := Fetches(c, pub.wires, |old(pub.frames)|, old(db.T()), body, now, trouble, reply);
      outcome == did.outcome && db.T() == did.t && pub.frames == old(pub.frames) + FramesOf(did.tried)
    ensures FetchEffect(c, pub.wires, old(pub.frames), pub.frames, old(db.T()), db.T(), body, now, trouble, reply,
                        outcome)
  {
    FetchesIs(c, pub.wires, pub.frames, db.T(), body, now, trouble, reply);
    if body.NotJson? { return Error; }
    if body.url == "" { return Error; }
    if c.minRefetch > 0 {
      if trouble == AtLookup { return Error; }
      var latest := db.GetLatestFetchByURL(body.url);
      if latest.Some? && RecentlyFetched(latest.value.fetchedAt, now, c.minRefetch) { return Nil; }
    }
    if trouble == AtLimiter { return Error; }
    if reply.NoReply? || reply.status >= 500 || reply.status == 429 { return Error; }
    if trouble == AtWrite { return Error; }
    if reply.status >= 400 {
      var _ := db.AddFetch(body.url, reply.status, None, now);
      return Nil;
    }
    var row := db.AddFetch(body.url, reply.status, Some(reply.html), now);
    outcome := PublishOne(pub, LISTINGS_PARSE, ParseTask(row.id, body.url));
  }

  method HandleEnrich(c: Settings, db: Database, pub: Publisher, body: Body, now: Time, trouble: Trouble,
                      answer: Links.Answer)
    returns (outcome: Outcome)
    modifies db, pub
    ensures var did := Enriches(c, pub.wires, |old(pub.frames)|, old(db.T()), body, now, trouble,
                                Links.Extracted(Links.AS_IS, answer));
      outcome == did.outcome && db.T() == did.t && pub.frames == old(pub.frames) + FramesOf(did.tried)
    ensures EnrichEffect(c, pub.wires, old(pub.frames), pub.frames, old(db.T()), db.T(), body, now, trouble, answer,
                         outcome)
  {
    EnrichesIs(c, pub.wires, pub.frames, db.T(), body, now, trouble, answer);
    if body.NotJson? { return Error; }
    if body.olxUserId == "" { return Error; }
    if trouble == AtLookup { return Error; }
    if body.olxUserId !in db.sellers { return Nil; }
    var seller := db.sellers[body.olxUserId];
    if seller.lastEnriched.Some? && now - seller.lastEnriched.value < c.freshness { return Nil; }
    if seller.cols.profileUrl == None || seller.cols.profileUrl == Some("") {
      if trouble == AtWrite { return Error; }
      db.MarkEnriched(seller.id, now);
      return Nil;
    }
    if trouble == AtLimiter { return Error; }
    var found := Links.FetchProfile(answer);
    if found.Err? { return Error; }
    var urls := found.value;
    ghost var plan := FetchPlan(urls);
    FetchPlanIs(urls);
    var err := PublishLinks(pub, urls, plan);
    if err { return Error; }
    Ends(pub.wires, pub.frames, old(pub.frames), plan);
    if trouble == AtWrite { return Error; }
    db.MarkEnriched(seller.id, now);
    outcome := Nil;
  }

  method HandleParse(db: Database, pub: Publisher, body: Body, now: Time, trouble: Trouble, parsed: Result<Parsed>,
                     failAt: nat)
    returns (outcome: Outcome)
    modifies db, pub
    ensures var did := Parses(pub.wires, |old(pub.frames)|, old(db.T()), body, now, trouble, parsed, failAt);
      outcome == did.outcome && UpToIds(did.t, db.T()) && (did.t != old(db.T()) ==> db.T() == did.t)
      && pub.frames == old(pub.frames) + FramesOf(did.tried)
    ensures ParseEffect(pub.wires, old(pub.frames), pub.frames, old(db.T()), db.T(), body, now, trouble, parsed, failAt,
                        outcome)
  {
    ParsesIs(pub.wires, pub.frames, db.T(), body, now, trouble, parsed, failAt);
    if body.NotJson? { return Error; }
    if body.fetchId == 0 { return Error; }
    if trouble == AtLookup { return Error; }
    if !(1 <= body.fetchId <= |db.fetches|) { return Error; }
    if db.fetches[body.fetchId - 1].html.None? { return Nil; }
    if parsed.Err? { return Error; }
    var ok, _ := db.ParseTransaction(parsed.value, now, failAt);
    if !ok { return Error; }
    outcome := PublishOne(pub, SELLERS_ENRICH, EnrichTask(parsed.value.seller.olxUserId));
  }
}
