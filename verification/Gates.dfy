/** What the two time gates buy when each of the two queues is handled one delivery at a time. */
module Gates {
  import opened Common
  import opened Topology
  import P = RetryProtocol
  import opened Store
  import opened Pipeline

  /** A handler past a gate sits in the queue of that gate. */
  ghost predicate KindOk(s: Pipe, id: nat) {
    id in s.work ==>
      && id in s.p.msgs && s.p.msgs[id].unacked
      && (s.work[id].Fetching? ==> s.p.msgs[id].queue == LISTINGS_FETCH)
      && (s.work[id].Profile? || (s.work[id].Sending? && s.work[id].last.Stamp?)
          ==> s.p.msgs[id].queue == SELLERS_ENRICH)
  }

  ghost predicate Kinds(c: Settings, s: Pipe) {
    Base(c, s) && forall id: nat {:trigger KindOk(s, id)} :: KindOk(s, id)
  }

  /** A delivery that is out keeps its queue until it is settled or taken back. */
  lemma EventKeepsOut(c: P.Config, p: P.State, e: P.Event, k: nat)
    requires P.Inv(c, p) && P.Enabled(c, p, e)
    requires k in p.tasks && p.tasks[k] == P.Handling && e != P.ChannelLost(k) && !(e.HandlerReturns? && e.id == k)
    ensures var p' := P.Apply(p, e);
      && k in p.msgs && k in p'.msgs && p'.msgs[k] == p.msgs[k]
      && k in p'.tasks && p'.tasks[k] == P.Handling
  {
    P.ApplyDirect(c, p, e);
    assert P.IdOk(c, p, k) && P.IdOk(c, p, p.next);
    if e.Promote? { assert P.IdOk(c, p, e.id); }
  }

  /** What an action does to the message under a handler that keeps running. */
  lemma StepKeepsOut(c: Settings, s: Pipe, a: Action, k: nat)
    requires Base(c, s) && Enabled(c, s, a)
    requires k in s.work && k in Apply(c, s, a).work
    ensures var s' := Apply(c, s, a);
      k in s.p.msgs && k in s'.p.msgs && s'.p.msgs[k] == s.p.msgs[k] && s.p.msgs[k].unacked
  {
    assert WorkOk(s, k) && P.IdOk(c.proto, s.p, k);
    var s' := Apply(c, s, a);
    match a
    case Broker(e) => EventKeepsOut(c.proto, s.p, e, k);
    case External(q, body) => EventKeepsOut(c.proto, s.p, P.Publish(q, body), k);
    case Call(id) => EventKeepsOut(c.proto, s.p, P.Start(id), k);
    case Send(id, attempt) =>
      assert WorkOk(s, id);
      if attempt.taken {
        var e := P.Publish(s.work[id].todo[0].queue, s.work[id].todo[0].body);
        EventKeepsOut(c.proto, s.p, e, k);
        P.StepKeeps(c.proto, s.p, e);
      }
    case _ =>
  }

  lemma CallOut(c: Settings, s: Pipe, a: Action, k: nat)
    requires Base(c, s) && Enabled(c, s, a)
    requires k !in s.work && k in Apply(c, s, a).work
    ensures a == Call(k) && Apply(c, s, a).work[k] == Begin
    ensures k in Apply(c, s, a).p.msgs && Apply(c, s, a).p.msgs[k].unacked
  {
    P.ApplyDirect(c.proto, s.p, P.Start(k));
    assert P.IdOk(c.proto, s.p, k);
  }

  lemma StepKinds(c: Settings, s: Pipe, a: Action)
    requires Kinds(c, s) && Enabled(c, s, a)
    ensures Kinds(c, Apply(c, s, a))
  {
    StepKeepsBase(c, s, a);
    forall k: nat ensures KindOk(Apply(c, s, a), k) {
      assert KindOk(s, k);
      if k in Apply(c, s, a).work {
        if k in s.work { StepKeepsOut(c, s, a, k); } else { CallOut(c, s, a, k); }
      }
    }
  }

  /** Two running handlers of a serial queue are the same handler. */
  lemma Alone(c: Settings, s: Pipe, i: nat, j: nat)
    requires Kinds(c, s) && i in s.work && j in s.work
    requires i in s.p.msgs && j in s.p.msgs && s.p.msgs[i].queue == s.p.msgs[j].queue
    requires s.p.msgs[i].queue in c.proto.serial
    ensures i == j
  {
    assert KindOk(s, i) && KindOk(s, j) && P.PairOk(c.proto, s.p, i, j);
  }

  // ---- the fetch gate ----

  ghost predicate Clear(c: Settings, rows: seq<FetchRow>, url: string, now: Time) {
    forall i | 0 <= i < |rows| && rows[i].url == url :: now - rows[i].fetchedAt >= c.minRefetch
  }

  ghost predicate Spaced(c: Settings, rows: seq<FetchRow>) {
    forall i, j | 0 <= i < j < |rows| && rows[i].url == rows[j].url ::
      rows[j].fetchedAt - rows[i].fetchedAt >= c.minRefetch
  }

  ghost predicate Past(rows: seq<FetchRow>, now: Time) {
    forall i | 0 <= i < |rows| :: 1 <= rows[i].fetchedAt <= now
  }

  ghost predicate FetchOk(c: Settings, s: Pipe, id: nat) {
    id in s.work && s.work[id].Fetching? ==> Clear(c, s.t.fetches, s.work[id].url, s.p.now)
  }

  ghost predicate FetchInv(c: Settings, s: Pipe) {
    && Kinds(c, s) && s.p.now >= 1
    && Spaced(c, s.t.fetches) && Past(s.t.fetches, s.p.now)
    && forall id: nat {:trigger FetchOk(c, s, id)} :: FetchOk(c, s, id)
  }

  lemma OpenGateIsClear(c: Settings, s: Pipe, url: string)
    requires Past(s.t.fetches, s.p.now) && !FetchGateCloses(c, s.t, url, s.p.now)
    ensures Clear(c, s.t.fetches, url, s.p.now)
  {
    LatestIsNewest(s.t.fetches, url);
  }

  /** Only storing a page adds a fetch row. */
  lemma RowsAfter(c: Settings, s: Pipe, a: Action)
    requires Enabled(c, s, a)
    ensures var rows := Apply(c, s, a).t.fetches;
      if a.StoreFetch? then
        |rows| == |s.t.fetches| + 1 && rows[..|s.t.fetches|] == s.t.fetches
        && rows[|s.t.fetches|].url == s.work[a.id].url && rows[|s.t.fetches|].fetchedAt == s.p.now
      else rows == s.t.fetches
  {
  }

  lemma AppendSpaced(c: Settings, rows: seq<FetchRow>, row: FetchRow)
    requires Spaced(c, rows) && Clear(c, rows, row.url, row.fetchedAt)
    ensures Spaced(c, rows + [row])
  {
  }

  lemma RowsStaySpaced(c: Settings, s: Pipe, a: Action)
    requires FetchInv(c, s) && Enabled(c, s, a) && s.p.now <= Apply(c, s, a).p.now
    ensures Spaced(c, Apply(c, s, a).t.fetches) && Past(Apply(c, s, a).t.fetches, Apply(c, s, a).p.now)
  {
    var rows, rows' := s.t.fetches, Apply(c, s, a).t.fetches;
    RowsAfter(c, s, a);
    if a.StoreFetch? {
      assert FetchOk(c, s, a.id);
      AppendSpaced(c, rows, rows'[|rows|]);
      assert rows' == rows + [rows'[|rows|]];
    }
  }

  lemma FetchStep(c: Settings, s: Pipe, a: Action)
    requires FetchInv(c, s) && Enabled(c, s, a) && LISTINGS_FETCH in c.proto.serial
    ensures FetchInv(c, Apply(c, s, a))
  {
    StepKinds(c, s, a);
    StepLater(c, s, a);
    RowsStaySpaced(c, s, a);
    forall id: nat ensures FetchOk(c, Apply(c, s, a), id) { FetchStepId(c, s, a, id); }
  }

  lemma FetchStepId(c: Settings, s: Pipe, a: Action, id: nat)
    requires FetchInv(c, s) && Enabled(c, s, a) && LISTINGS_FETCH in c.proto.serial
    ensures FetchOk(c, Apply(c, s, a), id)
  {
    var s' := Apply(c, s, a);
    StepLater(c, s, a);
    RowsAfter(c, s, a);
    assert FetchOk(c, s, id);
    if id in s'.work && s'.work[id].Fetching? {
      if id !in s.work { CallOut(c, s, a, id); }
      else if a.StoreFetch? {
        assert KindOk(s, id) && KindOk(s, a.id);
        Alone(c, s, id, a.id);
      } else if a == PassFetchGate(id) {
        OpenGateIsClear(c, s, s'.work[id].url);
      }
    }
  }

  lemma {:induction false} FetchInvAlways(c: Settings, s: Pipe, acts: seq<Action>, u: Pipe)
    requires FetchInv(c, s) && Reaches(c, s, acts, u) && LISTINGS_FETCH in c.proto.serial
    ensures FetchInv(c, u)
    decreases |acts|
  {
    if acts != [] {
      FetchStep(c, s, acts[0]);
      FetchInvAlways(c, Apply(c, s, acts[0]), acts[1..], u);
    }
  }

  /** Over a whole run, retries and duplicates included, two stored fetches of one url are at least the refetch
      interval apart. */
  lemma FetchesSpaced(c: Settings, topo: Topology, now: nat, acts: seq<Action>, u: Pipe, i: nat, j: nat)
    requires GoodSettings(c) && Ready(topo, WORK_QUEUES) && now >= 1
    requires LISTINGS_FETCH in c.proto.serial
    requires Reaches(c, Init(topo, now), acts, u)
    requires i < j < |u.t.fetches| && u.t.fetches[i].url == u.t.fetches[j].url
    ensures u.t.fetches[j].fetchedAt - u.t.fetches[i].fetchedAt >= c.minRefetch
  {
    InitBase(c, topo, now);
    FetchInvAlways(c, Init(topo, now), acts, u);
  }

  // ---- the freshness gate ----

  ghost predicate Due(c: Settings, t: Tables, user: string, now: Time) {
    && user in t.sellers
    && (t.sellers[user].lastEnriched.Some? ==> now - t.sellers[user].lastEnriched.value >= c.freshness)
  }

  function UserOf(w: Work): string {
    if w.Profile? then w.user else if w.Sending? && w.last.Stamp? then w.last.user else ""
  }

  predicate Enriching(w: Work) { w.Profile? || (w.Sending? && w.last.Stamp?) }

  ghost predicate EnrichOk(c: Settings, s: Pipe, id: nat) {
    id in s.work && Enriching(s.work[id]) ==> Due(c, s.t, UserOf(s.work[id]), s.p.now)
  }

  ghost predicate StampsSpaced(c: Settings, es: seq<Stamped>) {
    forall i, j | 0 <= i < j < |es| && es[i].user == es[j].user :: es[j].at - es[i].at >= c.freshness
  }

  /** The table remembers each seller's newest stamp. */
  ghost predicate StampsSeen(s: Pipe) {
    forall i | 0 <= i < |s.stamps| ::
      && s.stamps[i].user in s.t.sellers
      && s.t.sellers[s.stamps[i].user].lastEnriched.Some?
      && s.stamps[i].at <= s.t.sellers[s.stamps[i].user].lastEnriched.value
  }

  ghost predicate EnrichInv(c: Settings, s: Pipe) {
    && Kinds(c, s) && IdsUnique(s.t) && StampsSpaced(c, s.stamps) && StampsSeen(s)
    && (forall u | u in s.t.sellers && s.t.sellers[u].lastEnriched.Some? ::
          s.t.sellers[u].lastEnriched.value <= s.p.now)
    && forall id: nat {:trigger EnrichOk(c, s, id)} :: EnrichOk(c, s, id)
  }

  /** Only a Mark touches last_enriched_at, and only its seller's; an upsert leaves the column alone. */
  lemma EnrichedAfter(c: Settings, s: Pipe, a: Action, u: string)
    requires IdsUnique(s.t) && Enabled(c, s, a)
    ensures var t' := Apply(c, s, a).t;
      && (u in s.t.sellers ==> u in t'.sellers)
      && (u in t'.sellers ==>
          t'.sellers[u].lastEnriched ==
            if a.Mark? && s.work[a.id].last.user == u then Some(s.p.now)
            else if u in s.t.sellers then s.t.sellers[u].lastEnriched
            else None)
  {
  }

  lemma IdsUniqueAfter(c: Settings, s: Pipe, a: Action)
    requires IdsUnique(s.t) && Enabled(c, s, a)
    ensures IdsUnique(Apply(c, s, a).t)
  {
    var t' := Apply(c, s, a).t;
    if a.StoreParse? {
      assert t'.sellers == UpsertSeller(s.t, a.r.seller, s.p.now).sellers;
      assert t'.nextSeller == s.t.nextSeller + 1;
    }
  }

  lemma EnrichStepId(c: Settings, s: Pipe, a: Action, id: nat)
    requires EnrichInv(c, s) && Enabled(c, s, a) && SELLERS_ENRICH in c.proto.serial
    ensures EnrichOk(c, Apply(c, s, a), id)
  {
    var s' := Apply(c, s, a);
    StepLater(c, s, a);
    assert EnrichOk(c, s, id);
    if id in s'.work && Enriching(s'.work[id]) {
      if id !in s.work { CallOut(c, s, a, id); }
      else {
        EnrichedAfter(c, s, a, UserOf(s'.work[id]));
        if a.Mark? {
          assert KindOk(s, id) && KindOk(s, a.id);
          Alone(c, s, id, a.id);
        }
      }
    }
  }

  lemma {:induction false} EnrichStepStamps(c: Settings, s: Pipe, a: Action)
    requires EnrichInv(c, s) && Enabled(c, s, a)
    ensures StampsSpaced(c, Apply(c, s, a).stamps) && StampsSeen(Apply(c, s, a))
  {
    var s' := Apply(c, s, a);
    if a.Mark? { assert EnrichOk(c, s, a.id); }
    forall i | 0 <= i < |s'.stamps|
      ensures s'.stamps[i].user in s'.t.sellers && s'.t.sellers[s'.stamps[i].user].lastEnriched.Some?
      ensures s'.stamps[i].at <= s'.t.sellers[s'.stamps[i].user].lastEnriched.value
    {
      EnrichedAfter(c, s, a, s'.stamps[i].user);
    }
  }

  lemma EnrichStep(c: Settings, s: Pipe, a: Action)
    requires EnrichInv(c, s) && Enabled(c, s, a) && SELLERS_ENRICH in c.proto.serial
    ensures EnrichInv(c, Apply(c, s, a))
  {
    var s' := Apply(c, s, a);
    StepKinds(c, s, a);
    StepLater(c, s, a);
    IdsUniqueAfter(c, s, a);
    EnrichStepStamps(c, s, a);
    forall u | u in s'.t.sellers && s'.t.sellers[u].lastEnriched.Some?
      ensures s'.t.sellers[u].lastEnriched.value <= s'.p.now
    {
      EnrichedAfter(c, s, a, u);
    }
    forall id: nat ensures EnrichOk(c, s', id) { EnrichStepId(c, s, a, id); }
  }

  lemma {:induction false} EnrichInvAlways(c: Settings, s: Pipe, acts: seq<Action>, u: Pipe)
    requires EnrichInv(c, s) && Reaches(c, s, acts, u) && SELLERS_ENRICH in c.proto.serial
    ensures EnrichInv(c, u)
    decreases |acts|
  {
    if acts != [] {
      EnrichStep(c, s, acts[0]);
      EnrichInvAlways(c, Apply(c, s, acts[0]), acts[1..], u);
    }
  }

  /** A handler that has just been called returns nil at once exactly where its stage stops: a page past the last one, a
      young row of the url, a stored row without html, a seller unknown or freshly stamped. */
  lemma SkipIs(c: Settings, s: Pipe, id: nat)
    requires id in s.work && s.work[id] == Begin && id in s.p.msgs && s.p.msgs[id].body.Json?
    ensures var b, q := s.p.msgs[id].body, s.p.msgs[id].queue;
      Enabled(c, s, Skip(id)) <==>
        || (q == "listings.discover" && b.searchUrl != "" && (if b.page <= 0 then 1 else b.page) > c.maxPage)
        || (q == "listings.fetch" && b.url != "" && c.minRefetch > 0 && exists r ::
              r in s.t.fetches && r.url == b.url && r.fetchedAt >= 1 && s.p.now - r.fetchedAt < c.minRefetch)
        || (q == "listings.parse" && 1 <= b.fetchId <= |s.t.fetches| && s.t.fetches[b.fetchId - 1].html.None?)
        || (q == "sellers.enrich" && b.olxUserId != ""
            && (b.olxUserId !in s.t.sellers
                || (s.t.sellers[b.olxUserId].lastEnriched.Some?
                    && s.p.now - s.t.sellers[b.olxUserId].lastEnriched.value < c.freshness)))
  {
    LatestIsNewest(s.t.fetches, s.p.msgs[id].body.url);
  }

  /** And goes on exactly where it does not: discovery with a page still allowed, the fetcher with no young row of the
      url, the parser with a stored page and a parse that commits. */
  lemma GoesOnIs(c: Settings, s: Pipe, id: nat, urls: seq<string>, r: Parsed)
    requires id in s.work && id in s.p.msgs && s.p.msgs[id].body.Json?
    ensures var b, q, w := s.p.msgs[id].body, s.p.msgs[id].queue, s.work[id];
      && (Enabled(c, s, ReadPage(id, urls)) <==>
          w == Begin && q == "listings.discover" && b.searchUrl != ""
          && (if b.page <= 0 then 1 else b.page) <= c.maxPage && Links(urls))
      && (Enabled(c, s, PassFetchGate(id)) <==>
          w == Begin && q == "listings.fetch" && b.url != "" && (c.minRefetch > 0 ==> forall r ::
            r in s.t.fetches && r.url == b.url && r.fetchedAt >= 1 ==> s.p.now - r.fetchedAt >= c.minRefetch))
      && (Enabled(c, s, StoreParse(id, r)) ==>
          w == Begin && q == "listings.parse" && 1 <= b.fetchId <= |s.t.fetches|
          && s.t.fetches[b.fetchId - 1].html.Some? && CommitParse(s.t, r, s.p.now).Ok?)
  {
    LatestIsNewest(s.t.fetches, s.p.msgs[id].body.url);
  }

  /** What comes later: only an answer worth storing is stored, a profile is read once, and a stamp or a return needs
      every publish done. */
  lemma GoesOnLaterIs(c: Settings, s: Pipe, id: nat, urls: seq<string>, status: int, html: string)
    requires id in s.work
    ensures var w := s.work[id];
      && (Enabled(c, s, StoreFetch(id, status, html)) <==> w.Fetching? && status < 500 && status != 429)
      && (Enabled(c, s, ReadProfile(id, urls)) <==> w.Profile? && Links(urls))
      && (Enabled(c, s, Mark(id)) <==> w.Sending? && w.todo == [] && w.last.Stamp? && w.last.user in s.t.sellers)
      && (Enabled(c, s, Return(id)) <==> w == Sending([], Done))
  {
  }

  /** The enrichment gate of a stored seller is closed exactly inside the window of its stamp, and open at once when the
      window has passed. */
  lemma EnrichGateIs(c: Settings, s: Pipe, id: nat)
    requires At(s, id, SELLERS_ENRICH) && s.p.msgs[id].body.olxUserId in s.t.sellers
    requires s.p.msgs[id].body.olxUserId != ""
    ensures var stamp := s.t.sellers[s.p.msgs[id].body.olxUserId].lastEnriched;
      && (Enabled(c, s, Skip(id)) <==> stamp.Some? && s.p.now < stamp.value + c.freshness)
      && (Enabled(c, s, PassEnrichGate(id)) <==> stamp.None? || s.p.now >= stamp.value + c.freshness)
  {
    assert LISTINGS_DISCOVER[0] == LISTINGS_FETCH[0] == LISTINGS_PARSE[0] == 'l' && SELLERS_ENRICH[0] == 's';
  }

  /** Over a whole run, two enrichment stamps of one seller are at least the freshness window apart. */
  lemma StampsOfOneSellerSpaced(c: Settings, topo: Topology, now: nat, acts: seq<Action>, u: Pipe, i: nat, j: nat)
    requires GoodSettings(c) && Ready(topo, WORK_QUEUES)
    requires SELLERS_ENRICH in c.proto.serial
    requires Reaches(c, Init(topo, now), acts, u)
    requires i < j < |u.stamps| && u.stamps[i].user == u.stamps[j].user
    ensures u.stamps[j].at - u.stamps[i].at >= c.freshness
  {
    InitBase(c, topo, now);
    EnrichInvAlways(c, Init(topo, now), acts, u);
  }
}
