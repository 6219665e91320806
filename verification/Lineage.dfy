/** Where tasks come from: a parse task names a stored page, an enrich task a stored seller, a listing its seller. */
module Lineage {
  import opened Common
  import opened Topology
  import opened Consumer
  import P = RetryProtocol
  import opened Store
  import opened Pipeline

  /** Nobody publishes parse or enrich tasks by hand. */
  predicate NoHandMadeTask(a: Action) {
    a.External? ==> a.queue != LISTINGS_PARSE && a.queue != SELLERS_ENRICH
  }

  predicate HasProfile(row: SellerRow) { row.cols.profileUrl.Some? && row.cols.profileUrl.value != "" }

  ghost predicate SentOk(t: Tables, sent: P.Sent) {
    && (sent.queue == LISTINGS_PARSE ==>
        && sent.body.Json? && sent.body.url != ""
        && FindFetch(t, sent.body.fetchId).Some?
        && FindFetch(t, sent.body.fetchId).value.html.Some?
        && FindFetch(t, sent.body.fetchId).value.url == sent.body.url)
    && (sent.queue == SELLERS_ENRICH ==>
        && sent.body.Json? && sent.body.olxUserId != "" && sent.body.olxUserId in t.sellers)
  }

  ghost predicate TodoOk(t: Tables, w: Work) {
    && (w.Sending? ==> forall k | 0 <= k < |w.todo| :: SentOk(t, w.todo[k]))
    && (w.Fetching? ==> w.url != "")
    && (w.Profile? ==> w.user in t.sellers)
    && (w.Sending? && w.last.Stamp? ==> w.last.user in t.sellers)
  }

  /** Fetch ids are serial, every seller has a profile, ids are below their sequence, every listing's seller exists. */
  ghost predicate TablesOk(t: Tables) {
    && t.nextFetch == |t.fetches| + 1
    && (forall i | 0 <= i < |t.fetches| :: t.fetches[i].id == i + 1)
    && (forall u | u in t.sellers :: HasProfile(t.sellers[u]))
    && (forall l | l in t.listings :: ListingOwned(t, l))
  }

  ghost predicate ListingOwned(t: Tables, l: string)
    requires l in t.listings
  {
    exists u :: u in t.sellers && t.sellers[u].id == t.listings[l].cols.sellerId
  }

  ghost predicate MsgOk(s: Pipe, id: nat) {
    && (id in s.p.routed ==> SentOk(s.t, s.p.routed[id]))
    && (id in s.work ==> TodoOk(s.t, s.work[id]))
  }

  ghost predicate Inv(c: Settings, s: Pipe) {
    && Base(c, s)
    && TablesOk(s.t)
    && forall id: nat {:trigger MsgOk(s, id)} :: MsgOk(s, id)
  }

  /** What the tables never lose. */
  ghost predicate Grows(t: Tables, t': Tables) {
    && |t.fetches| <= |t'.fetches| && t.fetches == t'.fetches[..|t.fetches|]
    && forall u | u in t.sellers :: u in t'.sellers && t'.sellers[u].id == t.sellers[u].id
  }

  lemma MsgGrows(s: Pipe, t': Tables, id: nat)
    requires MsgOk(s, id) && Grows(s.t, t')
    ensures MsgOk(s.(t := t'), id)
  {
    forall sent: P.Sent | SentOk(s.t, sent) ensures SentOk(t', sent) {
      if sent.queue == LISTINGS_PARSE {
        assert t'.fetches[sent.body.fetchId - 1] == t'.fetches[..|s.t.fetches|][sent.body.fetchId - 1];
      }
    }
  }

  lemma CommitGrows(t: Tables, r: Parsed, now: Time)
    requires CommitParse(t, r, now).Ok?
    requires TablesOk(t) && r.seller.cols.profileUrl.Some? && r.seller.cols.profileUrl.value != ""
    ensures var t' := CommitParse(t, r, now).value;
      Grows(t, t') && TablesOk(t') && r.seller.olxUserId in t'.sellers
  {
    var user := r.seller.olxUserId;
    var t' := CommitParse(t, r, now).value;
    assert t'.fetches == t.fetches && t'.nextFetch == t.nextFetch;
    assert t.fetches == t'.fetches[..|t.fetches|];
    forall l | l in t'.listings ensures ListingOwned(t', l) {
      if l == r.listing.olxListingId {
        assert user in t'.sellers && t'.sellers[user].id == t'.listings[l].cols.sellerId;
      } else {
        assert ListingOwned(t, l);
        var u :| u in t.sellers && t.sellers[u].id == t.listings[l].cols.sellerId;
        assert u in t'.sellers && t'.sellers[u].id == t.sellers[u].id;
      }
    }
  }

  lemma MarkGrows(t: Tables, id: nat, now: Time)
    requires TablesOk(t)
    ensures Grows(t, MarkSellerEnriched(t, id, now)) && TablesOk(MarkSellerEnriched(t, id, now))
  {
    var t' := MarkSellerEnriched(t, id, now);
    assert t.fetches == t'.fetches[..|t.fetches|];
    forall l | l in t'.listings ensures ListingOwned(t', l) {
      assert ListingOwned(t, l);
      var u :| u in t.sellers && t.sellers[u].id == t.listings[l].cols.sellerId;
      assert u in t'.sellers && t'.sellers[u].id == t.sellers[u].id;
    }
  }

  lemma FetchGrows(t: Tables, url: string, status: int, html: Option<string>, now: Time)
    requires TablesOk(t)
    ensures var t' := InsertFetch(t, url, status, html, now);
      && Grows(t, t') && TablesOk(t')
      && FindFetch(t', t.nextFetch) == Some(FetchRow(t.nextFetch, url, status, html, now))
  {
    var t' := InsertFetch(t, url, status, html, now);
    assert t.fetches == t'.fetches[..|t.fetches|];
    forall l | l in t'.listings ensures ListingOwned(t', l) { assert ListingOwned(t, l); }
  }

  // ---- every action keeps it ----

  /** A protocol event other than a publish routes nothing new. */
  lemma EventRoutes(c: P.Config, p: P.State, e: P.Event, k: nat)
    requires P.Inv(c, p) && P.Enabled(c, p, e)
    ensures var p' := P.Apply(p, e);
      && (k in p'.routed <==> k in p.routed || (e.Publish? && e.queue in c.queues && k == p.next))
      && (k in p.routed ==> p'.routed[k] == p.routed[k])
      && (e.Publish? && e.queue in c.queues && k == p.next ==> p'.routed[k] == P.Sent(e.queue, e.body))
  {
    P.ApplyDirect(c, p, e);
    assert P.IdOk(c, p, k) && P.IdOk(c, p, p.next);
  }

  lemma FinishId(c: Settings, s: Pipe, id: nat, outcome: Outcome, k: nat)
    requires Base(c, s) && id in s.work && MsgOk(s, k)
    ensures MsgOk(Finish(s, id, outcome), k)
  {
    assert WorkOk(s, id);
    EventRoutes(c.proto, s.p, P.HandlerReturns(id, outcome), k);
  }

  lemma PublishId(c: Settings, s: Pipe, sent: P.Sent, k: nat)
    requires Base(c, s) && P.Enabled(c.proto, s.p, P.Publish(sent.queue, sent.body))
    requires MsgOk(s, k) && SentOk(s.t, sent)
    ensures MsgOk(PublishNext(s, sent), k)
  {
    EventRoutes(c.proto, s.p, P.Publish(sent.queue, sent.body), k);
  }

  lemma SendId(c: Settings, s: Pipe, id: nat, attempt: P.Attempt, k: nat)
    requires Base(c, s) && Enabled(c, s, Send(id, attempt)) && MsgOk(s, k) && MsgOk(s, id)
    ensures MsgOk(Apply(c, s, Send(id, attempt)), k)
  {
    var w := s.work[id];
    assert WorkOk(s, id);
    var s1 := if attempt.taken then PublishNext(s, w.todo[0]) else s;
    if attempt.taken {
      PublishId(c, s, w.todo[0], k);
      PublishKeepsBase(c, s, w.todo[0]);
    }
    if attempt.outcome != Nil { FinishId(c, s1, id, attempt.outcome, k); }
  }

  /** A running handler holds a task that was routed to its stage. */
  lemma RunningTask(c: Settings, s: Pipe, id: nat)
    requires Inv(c, s) && id in s.work
    ensures id in s.p.msgs && id in s.p.routed
    ensures s.p.routed[id] == P.Sent(s.p.msgs[id].queue, s.p.msgs[id].body)
    ensures SentOk(s.t, s.p.routed[id])
  {
    assert WorkOk(s, id) && P.IdOk(c.proto, s.p, id) && MsgOk(s, id);
    P.OutAtHome(c.proto, s.p, id);
  }

  lemma QueueNamesDiffer()
    ensures LISTINGS_FETCH != LISTINGS_PARSE && LISTINGS_FETCH != SELLERS_ENRICH
    ensures LISTINGS_DISCOVER != LISTINGS_PARSE && LISTINGS_DISCOVER != SELLERS_ENRICH
      && LISTINGS_PARSE != SELLERS_ENRICH
    ensures LISTINGS_DISCOVER != LISTINGS_FETCH
  {
    assert LISTINGS_FETCH[9] == 'f' && LISTINGS_PARSE[9] == 'p' && LISTINGS_DISCOVER[9] == 'd';
    assert SELLERS_ENRICH[0] == 's' && LISTINGS_FETCH[0] == 'l' && LISTINGS_PARSE[0] == 'l'
      && LISTINGS_DISCOVER[0] == 'l';
  }

  lemma InnerTables(c: Settings, s: Pipe, a: Action)
    requires Inv(c, s) && Inner(a) && Enabled(c, s, a)
    ensures Grows(s.t, Apply(c, s, a).t) && TablesOk(Apply(c, s, a).t)
    ensures a.StoreFetch? && a.status < 400 ==>
      FindFetch(Apply(c, s, a).t, s.t.nextFetch)
        == Some(FetchRow(s.t.nextFetch, s.work[a.id].url, a.status, Some(a.html), s.p.now))
    ensures a.StoreParse? ==> a.r.seller.olxUserId in Apply(c, s, a).t.sellers
  {
    assert s.t.fetches == s.t.fetches[..|s.t.fetches|];
    match a {
      case StoreFetch(id, status, html) =>
        FetchGrows(s.t, s.work[id].url, status, if status >= 400 then None else Some(html), s.p.now);
      case StoreParse(id, r) =>
        RunningTask(c, s, id);
        CommitGrows(s.t, r, s.p.now);
      case Mark(id) => MarkGrows(s.t, s.t.sellers[s.work[id].last.user].id, s.p.now);
      case _ =>
    }
  }

  lemma InnerTodo(c: Settings, s: Pipe, a: Action)
    requires Inv(c, s) && Inner(a) && Enabled(c, s, a)
    ensures TodoOk(Apply(c, s, a).t, Apply(c, s, a).work[a.id])
  {
    QueueNamesDiffer();
    assert MsgOk(s, a.id);
    InnerTables(c, s, a);
    RunningTask(c, s, a.id);
    if a.ReadPage? || a.ReadProfile? { FetchPlanIs(a.urls); }
  }

  lemma InnerKeeps(c: Settings, s: Pipe, a: Action)
    requires Inv(c, s) && Inner(a) && Enabled(c, s, a)
    ensures Inv(c, Apply(c, s, a))
  {
    var s' := Apply(c, s, a);
    StepKeepsBase(c, s, a);
    InnerTables(c, s, a);
    InnerTodo(c, s, a);
    forall k: nat ensures MsgOk(s', k) {
      assert MsgOk(s, k);
      MsgGrows(s, s'.t, k);
    }
  }

  lemma StepKeeps(c: Settings, s: Pipe, a: Action)
    requires Inv(c, s) && Enabled(c, s, a) && NoHandMadeTask(a)
    ensures Inv(c, Apply(c, s, a))
  {
    if Inner(a) {
      InnerKeeps(c, s, a);
    } else {
      StepKeepsBase(c, s, a);
      var s' := Apply(c, s, a);
      forall k: nat ensures MsgOk(s', k) {
        assert MsgOk(s, k);
        match a {
          case Broker(e) => EventRoutes(c.proto, s.p, e, k);
          case External(q, body) => PublishId(c, s, P.Sent(q, body), k);
          case Call(id) => EventRoutes(c.proto, s.p, P.Start(id), k);
          case Send(id, attempt) => assert MsgOk(s, id); SendId(c, s, id, attempt, k);
          case Skip(id) => FinishId(c, s, id, Nil, k);
          case Fail(id, outcome) => FinishId(c, s, id, outcome, k);
          case Return(id) => FinishId(c, s, id, Nil, k);
          case _ =>
        }
      }
    }
  }

  lemma {:induction false} InvAlways(c: Settings, s: Pipe, acts: seq<Action>, u: Pipe)
    requires Inv(c, s) && Reaches(c, s, acts, u)
    requires forall a | a in acts :: NoHandMadeTask(a)
    ensures Inv(c, u)
    decreases |acts|
  {
    if acts != [] {
      StepKeeps(c, s, acts[0]);
      InvAlways(c, Apply(c, s, acts[0]), acts[1..], u);
    }
  }

  // ---- main results ----

  /** In every reachable state, for any number of failures: a parse task names a stored page of the same url, an
      enrich task a stored seller, and a listing a stored seller. */
  lemma LineageHolds(c: Settings, topo: Topology, now: nat, acts: seq<Action>, u: Pipe)
    requires GoodSettings(c) && Ready(topo, WORK_QUEUES)
    requires Reaches(c, Init(topo, now), acts, u)
    requires forall a | a in acts :: NoHandMadeTask(a)
    ensures forall id | id in u.p.routed && u.p.routed[id].queue == LISTINGS_PARSE ::
      && u.p.routed[id].body.Json?
      && var row := FindFetch(u.t, u.p.routed[id].body.fetchId);
      row.Some? && row.value.html.Some? && row.value.url == u.p.routed[id].body.url
    ensures forall id | id in u.p.routed && u.p.routed[id].queue == SELLERS_ENRICH ::
      u.p.routed[id].body.Json? && u.p.routed[id].body.olxUserId in u.t.sellers
    ensures forall l | l in u.t.listings ::
      exists user :: user in u.t.sellers && u.t.sellers[user].id == u.t.listings[l].cols.sellerId
  {
    InitBase(c, topo, now);
    InvAlways(c, Init(topo, now), acts, u);
    forall id | id in u.p.routed ensures SentOk(u.t, u.p.routed[id]) { assert MsgOk(u, id); }
    forall l | l in u.t.listings ensures ListingOwned(u.t, l) {}
  }

  /** So four branches never run: a parse task without a page or without html, an enrich task for an unknown
      seller or for one without a profile. */
  lemma DefensiveBranchesUnreachable(c: Settings, topo: Topology, now: nat, acts: seq<Action>, u: Pipe, id: nat)
    requires GoodSettings(c) && Ready(topo, WORK_QUEUES)
    requires Reaches(c, Init(topo, now), acts, u)
    requires forall a | a in acts :: NoHandMadeTask(a)
    requires id in u.work
    ensures At(u, id, LISTINGS_PARSE) ==> FindFetch(u.t, u.p.msgs[id].body.fetchId).Some? && !Enabled(c, u, Skip(id))
    ensures At(u, id, SELLERS_ENRICH) ==>
      && u.p.msgs[id].body.olxUserId in u.t.sellers
      && HasProfile(u.t.sellers[u.p.msgs[id].body.olxUserId])
      && (Enabled(c, u, Skip(id)) ==> Fresh(c, u.t, u.p.msgs[id].body.olxUserId, u.p.now))
  {
    InitBase(c, topo, now);
    InvAlways(c, Init(topo, now), acts, u);
    QueueNamesDiffer();
    RunningTask(c, u, id);
  }
}
