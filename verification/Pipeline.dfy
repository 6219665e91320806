/** The whole crawler: the retry protocol, the four handlers split at every effect, and the tables. */
module Pipeline {
  import opened Common
  import opened Tasks
  import opened Topology
  import opened Consumer
  import P = RetryProtocol
  import opened Store

  /** Worker settings. minRefetch 0 switches the fetch gate off. */
  datatype Settings = Settings(proto: P.Config, maxPage: nat, minRefetch: nat, freshness: nat)

  /** What a handler still has to do once its publishes are out. Stamp carries the profile links it fanned out
      and the id the next message had when the profile was read. */
  datatype Final = Done | Stamp(user: string, urls: seq<string>, since: nat)

  /** Where a running handler stands. */
  datatype Work =
    | Begin
    | Fetching(url: string)
    | Profile(user: string)
    | Sending(todo: seq<P.Sent>, last: Final)

  datatype Stamped = Stamped(user: string, at: Time, urls: seq<string>, since: nat, until: nat)

  /** The message that stored a fetch row, and the id the next message had at that moment. */
  datatype Origin = Origin(message: nat, since: nat)

  /** The last two fields are history: enrichment stamps, and where each fetch row comes from. */
  datatype Pipe = Pipe(
    p: P.State,
    work: map<nat, Work>,
    t: Tables,
    stamps: seq<Stamped>,
    origin: map<nat, Origin>)

  datatype Action =
    | Broker(e: P.Event)                      // deliveries, settlements, expiry, crashes, the clock
    | External(queue: string, body: Body)     // scheduler or hand-published task
    | Call(id: nat)                           // dispatch calls the handler
    | Skip(id: nat)                           // nil at once: a gate or a stop condition
    | Fail(id: nat, outcome: Outcome)         // error or panic, at any point
    | ReadPage(id: nat, urls: seq<string>)
    | PassFetchGate(id: nat)
    | StoreFetch(id: nat, status: int, html: string)
    | StoreParse(id: nat, r: Parsed)
    | PassEnrichGate(id: nat)
    | ReadProfile(id: nat, urls: seq<string>)
    | Send(id: nat, attempt: P.Attempt)
    | Mark(id: nat)
    | Return(id: nat)

  // ---- the decisions the handlers take ----

  function NormalPage(page: int): int { if page <= 0 then 1 else page }

  function RecentlyFetched(fetchedAt: Time, now: Time, interval: nat): bool {
    if interval == 0 || fetchedAt == 0 then false else now - fetchedAt < interval
  }

  predicate FetchGateCloses(c: Settings, t: Tables, url: string, now: Time) {
    var latest := Latest(t.fetches, url);
    c.minRefetch > 0 && latest.Some? && RecentlyFetched(latest.value.fetchedAt, now, c.minRefetch)
  }

  predicate Fresh(c: Settings, t: Tables, user: string, now: Time) {
    && user in t.sellers && t.sellers[user].lastEnriched.Some?
    && now - t.sellers[user].lastEnriched.value < c.freshness
  }

  /** Fetch rows are looked up by their serial id. */
  function FindFetch(t: Tables, id: int): Option<FetchRow> {
    if 1 <= id <= |t.fetches| then Some(t.fetches[id - 1]) else None
  }

  predicate Transient(status: int) { status >= 500 || status == 429 }

  function FetchPlan(urls: seq<string>): seq<P.Sent> {
    if urls == [] then [] else FetchPlan(urls[..|urls| - 1]) + [P.Sent(LISTINGS_FETCH, FetchTask(urls[|urls| - 1]))]
  }

  /** Discovery publishes every link, then the next page if this one had links and is not the last allowed. */
  function PagePlan(searchUrl: string, page: int, urls: seq<string>, maxPage: nat): seq<P.Sent> {
    FetchPlan(urls)
    + if |urls| > 0 && page < maxPage then [P.Sent(LISTINGS_DISCOVER, DiscoverTask(searchUrl, page + 1))] else []
  }

  /** What link extraction returns: distinct, non-empty urls. */
  ghost predicate Links(urls: seq<string>) {
    (forall u | u in urls :: u != "") && forall i, j | 0 <= i < j < |urls| :: urls[i] != urls[j]
  }

  /** What parsing a page can return: a seller id, and a profile url that is either built from it or the page url. */
  predicate ParsedFrom(url: string, r: Parsed) {
    && r.seller.olxUserId != ""
    && r.seller.cols.profileUrl != Some("")
    && (r.seller.cols.profileUrl == None ==> url == "")
  }

  // ---- actions ----

  /** Handler id is at Begin with a decodable body from queue q. */
  predicate At(s: Pipe, id: nat, q: string) {
    id in s.work && s.work[id] == Begin && id in s.p.msgs && s.p.msgs[id].queue == q && s.p.msgs[id].body.Json?
  }

  predicate CanSkip(c: Settings, s: Pipe, id: nat)
    requires id in s.p.msgs && s.p.msgs[id].body.Json?
  {
    var b := s.p.msgs[id].body;
    || (At(s, id, LISTINGS_DISCOVER) && b.searchUrl != "" && NormalPage(b.page) > c.maxPage)
    || (At(s, id, LISTINGS_FETCH) && b.url != "" && FetchGateCloses(c, s.t, b.url, s.p.now))
    || (At(s, id, LISTINGS_PARSE) && b.fetchId != 0
        && var row := FindFetch(s.t, b.fetchId); row.Some? && row.value.html.None?)
    || (At(s, id, SELLERS_ENRICH) && b.olxUserId != ""
        && (b.olxUserId !in s.t.sellers || Fresh(c, s.t, b.olxUserId, s.p.now)))
  }

  ghost predicate Enabled(c: Settings, s: Pipe, a: Action) {
    match a
    case Broker(e) =>
      !e.Publish? && !e.Start? && !e.HandlerReturns? && P.Enabled(c.proto, s.p, e)
    case External(q, body) => P.Enabled(c.proto, s.p, P.Publish(q, body))
    case Call(id) => P.Enabled(c.proto, s.p, P.Start(id))
    case Skip(id) => id in s.p.msgs && s.p.msgs[id].body.Json? && CanSkip(c, s, id)
    case Fail(id, outcome) => id in s.work && outcome != Nil
    case ReadPage(id, urls) =>
      && At(s, id, LISTINGS_DISCOVER) && Links(urls)
      && s.p.msgs[id].body.searchUrl != "" && NormalPage(s.p.msgs[id].body.page) <= c.maxPage
    case PassFetchGate(id) =>
      && At(s, id, LISTINGS_FETCH) && s.p.msgs[id].body.url != ""
      && !FetchGateCloses(c, s.t, s.p.msgs[id].body.url, s.p.now)
    case StoreFetch(id, status, html) => id in s.work && s.work[id].Fetching? && !Transient(status)
    case StoreParse(id, r) =>
      && At(s, id, LISTINGS_PARSE) && s.p.msgs[id].body.fetchId != 0
      && (var row := FindFetch(s.t, s.p.msgs[id].body.fetchId); row.Some? && row.value.html.Some?)
      && ParsedFrom(s.p.msgs[id].body.url, r) && CommitParse(s.t, r, s.p.now).Ok?
    case PassEnrichGate(id) =>
      && At(s, id, SELLERS_ENRICH) && s.p.msgs[id].body.olxUserId in s.t.sellers
      && s.p.msgs[id].body.olxUserId != "" && !Fresh(c, s.t, s.p.msgs[id].body.olxUserId, s.p.now)
    case ReadProfile(id, urls) => id in s.work && s.work[id].Profile? && Links(urls)
    case Send(id, attempt) => id in s.work && s.work[id].Sending? && s.work[id].todo != [] && attempt.Possible()
    case Mark(id) => id in s.work && s.work[id].Sending? && s.work[id].todo == [] && s.work[id].last.Stamp?
                     && s.work[id].last.user in s.t.sellers
    case Return(id) => id in s.work && s.work[id] == Sending([], Done)
  }

  /** The protocol events behind an action, in order. */
  function Events(s: Pipe, a: Action): seq<P.Event> {
    match a
    case Broker(e) => [e]
    case External(q, body) => [P.Publish(q, body)]
    case Call(id) => [P.Start(id)]
    case Skip(id) => [P.HandlerReturns(id, Nil)]
    case Fail(id, outcome) => [P.HandlerReturns(id, outcome)]
    case Send(id, attempt) =>
      (if attempt.taken && id in s.work && s.work[id].Sending? && s.work[id].todo != []
       then [P.Publish(s.work[id].todo[0].queue, s.work[id].todo[0].body)] else [])
      + (if attempt.outcome != Nil then [P.HandlerReturns(id, attempt.outcome)] else [])
    case Return(id) => [P.HandlerReturns(id, Nil)]
    case _ => []
  }

  function Finish(s: Pipe, id: nat, outcome: Outcome): Pipe {
    s.(p := P.Apply(s.p, P.HandlerReturns(id, outcome)), work := s.work - {id})
  }

  function PublishNext(s: Pipe, sent: P.Sent): Pipe {
    s.(p := P.Apply(s.p, P.Publish(sent.queue, sent.body)))
  }

  ghost function Apply(c: Settings, s: Pipe, a: Action): Pipe
    requires Enabled(c, s, a)
  {
    match a
    case Broker(e) =>
      s.(p := P.Apply(s.p, e), work := if e.ChannelLost? then s.work - {e.id} else s.work)
    case External(q, body) => PublishNext(s, P.Sent(q, body))
    case Call(id) => s.(p := P.Apply(s.p, P.Start(id)), work := s.work[id := Begin])
    case Skip(id) => Finish(s, id, Nil)
    case Fail(id, outcome) => Finish(s, id, outcome)
    case ReadPage(id, urls) =>
      var b := s.p.msgs[id].body;
      s.(work := s.work[id := Sending(PagePlan(b.searchUrl, NormalPage(b.page), urls, c.maxPage), Done)])
    case PassFetchGate(id) => s.(work := s.work[id := Fetching(s.p.msgs[id].body.url)])
    case StoreFetch(id, status, html) =>
      var url := s.work[id].url;
      if status >= 400 then
        s.(t := InsertFetch(s.t, url, status, None, s.p.now), work := s.work[id := Sending([], Done)],
           origin := s.origin[s.t.nextFetch := Origin(id, s.p.next)])
      else
        s.(t := InsertFetch(s.t, url, status, Some(html), s.p.now),
           work := s.work[id := Sending([P.Sent(LISTINGS_PARSE, ParseTask(s.t.nextFetch, url))], Done)],
           origin := s.origin[s.t.nextFetch := Origin(id, s.p.next)])
    case StoreParse(id, r) =>
      s.(t := CommitParse(s.t, r, s.p.now).value,
         work := s.work[id := Sending([P.Sent(SELLERS_ENRICH, EnrichTask(r.seller.olxUserId))], Done)])
    case PassEnrichGate(id) =>
      var user := s.p.msgs[id].body.olxUserId;
      var profile := s.t.sellers[user].cols.profileUrl;
      s.(work := s.work[id := if profile == None || profile == Some("") then Sending([], Stamp(user, [], s.p.next))
                              else Profile(user)])
    case ReadProfile(id, urls) =>
      s.(work := s.work[id := Sending(FetchPlan(urls), Stamp(s.work[id].user, urls, s.p.next))])
    case Send(id, attempt) =>
      var w := s.work[id];
      var s1 := if attempt.taken then PublishNext(s, w.todo[0]) else s;
      if attempt.outcome == Nil then s1.(work := s1.work[id := w.(todo := w.todo[1..])])
      else Finish(s1, id, attempt.outcome)
    case Mark(id) =>
      var f := s.work[id].last;
      s.(t := MarkSellerEnriched(s.t, s.t.sellers[f.user].id, s.p.now),
         work := s.work[id := Sending([], Done)],
         stamps := s.stamps + [Stamped(f.user, s.p.now, f.urls, f.since, s.p.next)])
    case Return(id) => Finish(s, id, Nil)
  }

  ghost predicate Reaches(c: Settings, s: Pipe, acts: seq<Action>, u: Pipe)
    decreases |acts|
  {
    if acts == [] then s == u
    else Enabled(c, s, acts[0]) && Reaches(c, Apply(c, s, acts[0]), acts[1..], u)
  }

  ghost predicate Reachable(c: Settings, s: Pipe, u: Pipe) {
    exists acts :: Reaches(c, s, acts, u)
  }

  lemma {:induction false} Concat(c: Settings, s: Pipe, a: seq<Action>, u: Pipe, b: seq<Action>, v: Pipe)
    requires Reaches(c, s, a, u) && Reaches(c, u, b, v)
    ensures Reaches(c, s, a + b, v)
    decreases |a|
  {
    if a == [] {
      assert a + b == b;
    } else {
      assert (a + b)[1..] == a[1..] + b;
      Concat(c, Apply(c, s, a[0]), a[1..], u, b, v);
    }
  }

  /** An empty database, an empty broker with the declared topology, and a clock past its zero value. */
  function Init(topo: Topology, now: nat): Pipe {
    Pipe(P.Init(topo, now), map[], NO_ROWS, [], map[])
  }

  ghost predicate GoodSettings(c: Settings) {
    c.proto.queues == WORK_QUEUES && c.maxPage > 0 && c.freshness > 0
  }

  // ---- the base invariant: protocol facts, and handlers run exactly where the protocol says they do ----

  ghost predicate WorkOk(s: Pipe, id: nat) {
    && (id in s.work <==> id in s.p.tasks && s.p.tasks[id] == P.Handling)
    && (id in s.work && s.work[id].Sending? ==> forall k | 0 <= k < |s.work[id].todo| ::
        s.work[id].todo[k].queue in WORK_QUEUES)
  }

  ghost predicate Base(c: Settings, s: Pipe) {
    && c.proto.queues == WORK_QUEUES
    && P.Inv(c.proto, s.p)
    && forall id: nat {:trigger WorkOk(s, id)} :: WorkOk(s, id)
  }

  lemma InitBase(c: Settings, topo: Topology, now: nat)
    requires GoodSettings(c) && Ready(topo, WORK_QUEUES)
    ensures Base(c, Init(topo, now))
  {
    P.InitInv(c.proto, topo, now);
  }

  lemma {:induction false} FetchPlanIs(urls: seq<string>)
    ensures |FetchPlan(urls)| == |urls|
    ensures forall k | 0 <= k < |urls| :: FetchPlan(urls)[k] == P.Sent(LISTINGS_FETCH, FetchTask(urls[k]))
  {
    if urls != [] { FetchPlanIs(urls[..|urls| - 1]); }
  }

  lemma PagePlanQueues(searchUrl: string, page: int, urls: seq<string>, maxPage: nat)
    ensures forall k | 0 <= k < |PagePlan(searchUrl, page, urls, maxPage)| ::
      PagePlan(searchUrl, page, urls, maxPage)[k].queue in WORK_QUEUES
  {
    FetchPlanIs(urls);
    StageQueues();
  }

  lemma StageQueues()
    ensures LISTINGS_DISCOVER in WORK_QUEUES && LISTINGS_FETCH in WORK_QUEUES
    ensures LISTINGS_PARSE in WORK_QUEUES && SELLERS_ENRICH in WORK_QUEUES
  {
    assert WORK_QUEUES[0] == LISTINGS_DISCOVER && WORK_QUEUES[1] == LISTINGS_FETCH;
    assert WORK_QUEUES[2] == LISTINGS_PARSE && WORK_QUEUES[3] == SELLERS_ENRICH;
  }

  /** What a protocol event does to the set of running handlers. */
  lemma HandlingAfter(c: P.Config, p: P.State, e: P.Event, k: nat)
    requires P.Inv(c, p) && P.Enabled(c, p, e)
    ensures var p' := P.Apply(p, e);
      (k in p'.tasks && p'.tasks[k] == P.Handling) <==>
      (e == P.Start(k) || (k in p.tasks && p.tasks[k] == P.Handling && e != P.ChannelLost(k)
                           && !(e.HandlerReturns? && e.id == k)))
  {
    P.ApplyDirect(c, p, e);
    assert P.IdOk(c, p, k);
    if e.Promote? { assert P.IdOk(c, p, e.id); }
  }

  lemma FinishKeepsBase(c: Settings, s: Pipe, id: nat, outcome: Outcome)
    requires Base(c, s) && id in s.work
    ensures Base(c, Finish(s, id, outcome))
  {
    var e := P.HandlerReturns(id, outcome);
    assert WorkOk(s, id);
    P.StepKeeps(c.proto, s.p, e);
    forall k: nat ensures WorkOk(Finish(s, id, outcome), k) {
      assert WorkOk(s, k);
      HandlingAfter(c.proto, s.p, e, k);
    }
  }

  lemma PublishKeepsBase(c: Settings, s: Pipe, sent: P.Sent)
    requires Base(c, s) && P.Enabled(c.proto, s.p, P.Publish(sent.queue, sent.body))
    ensures Base(c, PublishNext(s, sent))
  {
    var e := P.Publish(sent.queue, sent.body);
    P.StepKeeps(c.proto, s.p, e);
    forall k: nat ensures WorkOk(PublishNext(s, sent), k) {
      assert WorkOk(s, k);
      HandlingAfter(c.proto, s.p, e, k);
    }
  }

  /** Changing what a running handler has left to do. */
  lemma WorkKeepsBase(c: Settings, s: Pipe, u: Pipe, id: nat, w: Work)
    requires Base(c, s) && id in s.work && u.p == s.p && u.work == s.work[id := w]
    requires w.Sending? ==> forall k | 0 <= k < |w.todo| :: w.todo[k].queue in WORK_QUEUES
    ensures Base(c, u)
  {
    forall k: nat ensures WorkOk(u, k) { assert WorkOk(s, k) && WorkOk(s, id); }
  }

  lemma SendKeepsBase(c: Settings, s: Pipe, id: nat, attempt: P.Attempt)
    requires Base(c, s) && Enabled(c, s, Send(id, attempt))
    ensures Base(c, Apply(c, s, Send(id, attempt)))
  {
    var w := s.work[id];
    assert WorkOk(s, id);
    var s1 := if attempt.taken then PublishNext(s, w.todo[0]) else s;
    if attempt.taken { PublishKeepsBase(c, s, w.todo[0]); }
    if attempt.outcome == Nil {
      WorkKeepsBase(c, s1, Apply(c, s, Send(id, attempt)), id, w.(todo := w.todo[1..]));
    } else {
      FinishKeepsBase(c, s1, id, attempt.outcome);
    }
  }

  lemma BrokerKeepsBase(c: Settings, s: Pipe, e: P.Event)
    requires Base(c, s) && Enabled(c, s, Broker(e))
    ensures Base(c, Apply(c, s, Broker(e)))
  {
    P.StepKeeps(c.proto, s.p, e);
    forall k: nat ensures WorkOk(Apply(c, s, Broker(e)), k) {
      assert WorkOk(s, k);
      HandlingAfter(c.proto, s.p, e, k);
    }
  }

  lemma CallKeepsBase(c: Settings, s: Pipe, id: nat)
    requires Base(c, s) && Enabled(c, s, Call(id))
    ensures Base(c, Apply(c, s, Call(id)))
  {
    P.StepKeeps(c.proto, s.p, P.Start(id));
    forall k: nat ensures WorkOk(Apply(c, s, Call(id)), k) {
      assert WorkOk(s, k);
      HandlingAfter(c.proto, s.p, P.Start(id), k);
    }
  }

  /** Actions inside a running handler that leave the broker alone. */
  predicate Inner(a: Action) {
    a.ReadPage? || a.PassFetchGate? || a.StoreFetch? || a.StoreParse? || a.PassEnrichGate? || a.ReadProfile? || a.Mark?
  }

  lemma InnerKeepsBase(c: Settings, s: Pipe, a: Action)
    requires Base(c, s) && Inner(a) && Enabled(c, s, a)
    ensures Base(c, Apply(c, s, a))
  {
    StageQueues();
    if a.ReadPage? {
      var b := s.p.msgs[a.id].body;
      PagePlanQueues(b.searchUrl, NormalPage(b.page), a.urls, c.maxPage);
    } else if a.ReadProfile? {
      FetchPlanIs(a.urls);
    }
    WorkKeepsBase(c, s, Apply(c, s, a), a.id, Apply(c, s, a).work[a.id]);
  }

  lemma StepKeepsBase(c: Settings, s: Pipe, a: Action)
    requires Base(c, s) && Enabled(c, s, a)
    ensures Base(c, Apply(c, s, a))
  {
    match a
    case Broker(e) => BrokerKeepsBase(c, s, e);
    case External(q, body) => PublishKeepsBase(c, s, P.Sent(q, body));
    case Call(id) => CallKeepsBase(c, s, id);
    case Skip(id) => FinishKeepsBase(c, s, id, Nil);
    case Fail(id, outcome) => FinishKeepsBase(c, s, id, outcome);
    case Return(id) => FinishKeepsBase(c, s, id, Nil);
    case Send(id, attempt) => SendKeepsBase(c, s, id, attempt);
    case _ => InnerKeepsBase(c, s, a);
  }

  lemma {:induction false} BaseAlways(c: Settings, s: Pipe, acts: seq<Action>, u: Pipe)
    requires Base(c, s) && Reaches(c, s, acts, u)
    ensures Base(c, u)
    decreases |acts|
  {
    if acts != [] {
      StepKeepsBase(c, s, acts[0]);
      BaseAlways(c, Apply(c, s, acts[0]), acts[1..], u);
    }
  }

  // ---- the pipeline runs the protocol ----

  lemma StepProjects(c: Settings, s: Pipe, a: Action)
    requires Base(c, s) && Enabled(c, s, a)
    ensures P.Reaches(c.proto, s.p, Events(s, a), Apply(c, s, a).p)
  {
    if a.Send? {
      var w := s.work[a.id];
      assert WorkOk(s, a.id);
      var es := Events(s, a);
      if a.attempt.taken {
        var e := P.Publish(w.todo[0].queue, w.todo[0].body);
        P.StepKeeps(c.proto, s.p, e);
        HandlingAfter(c.proto, s.p, e, a.id);
        assert es[1..] == if a.attempt.outcome != Nil then [P.HandlerReturns(a.id, a.attempt.outcome)] else [];
      }
      assert [P.HandlerReturns(a.id, a.attempt.outcome)][1..] == [];
    } else if |Events(s, a)| == 1 {
      assert Events(s, a)[1..] == [];
      if a.Skip? || a.Fail? || a.Return? { assert WorkOk(s, a.id); }
    }
  }

  /** Routed messages stay on record; ids and the clock only grow. */
  ghost predicate Later(p: P.State, p': P.State) {
    p.next <= p'.next && p.now <= p'.now && forall k | k in p.routed :: k in p'.routed && p'.routed[k] == p.routed[k]
  }

  lemma EventLater(c: P.Config, p: P.State, e: P.Event)
    requires P.Inv(c, p) && P.Enabled(c, p, e)
    ensures Later(p, P.Apply(p, e))
  {
    P.ApplyDirect(c, p, e);
    assert P.IdOk(c, p, p.next);
  }

  lemma {:induction false} EventsLater(c: P.Config, p: P.State, es: seq<P.Event>, p': P.State)
    requires P.Inv(c, p) && P.Reaches(c, p, es, p')
    ensures Later(p, p')
    decreases |es|
  {
    if es != [] {
      EventLater(c, p, es[0]);
      P.StepKeeps(c, p, es[0]);
      EventsLater(c, P.Apply(p, es[0]), es[1..], p');
    }
  }

  lemma StepLater(c: Settings, s: Pipe, a: Action)
    requires Base(c, s) && Enabled(c, s, a)
    ensures Later(s.p, Apply(c, s, a).p)
  {
    StepProjects(c, s, a);
    EventsLater(c.proto, s.p, Events(s, a), Apply(c, s, a).p);
  }

  lemma {:induction false} ReachesConcat(c: P.Config, s: P.State, es: seq<P.Event>, u: P.State, fs: seq<P.Event>,
                                         v: P.State)
    requires P.Reaches(c, s, es, u) && P.Reaches(c, u, fs, v)
    ensures P.Reaches(c, s, es + fs, v)
    decreases |es|
  {
    if es == [] {
      assert es + fs == fs;
    } else {
      assert (es + fs)[1..] == es[1..] + fs;
      ReachesConcat(c, P.Apply(s, es[0]), es[1..], u, fs, v);
    }
  }

  /** Every run of the crawler is, message by message, a run of the retry protocol. */
  lemma {:induction false} RunProjects(c: Settings, s: Pipe, acts: seq<Action>, u: Pipe) returns (es: seq<P.Event>)
    requires Base(c, s) && Reaches(c, s, acts, u)
    ensures P.Reaches(c.proto, s.p, es, u.p)
    decreases |acts|
  {
    if acts == [] {
      es := [];
    } else {
      StepProjects(c, s, acts[0]);
      StepKeepsBase(c, s, acts[0]);
      var rest := RunProjects(c, Apply(c, s, acts[0]), acts[1..], u);
      ReachesConcat(c.proto, s.p, Events(s, acts[0]), Apply(c, s, acts[0]).p, rest, u.p);
      es := Events(s, acts[0]) + rest;
    }
  }

  /** So nothing the crawler ever routes to a stage is lost, whatever fails and wherever it crashes. */
  lemma PipelineLosesNothing(c: Settings, topo: Topology, now: nat, acts: seq<Action>, u: Pipe)
    requires GoodSettings(c) && Ready(topo, WORK_QUEUES)
    requires Reaches(c, Init(topo, now), acts, u)
    ensures forall id | id in u.p.routed :: id in u.p.handled || P.StillLive(u.p, id) || P.DeadCopy(u.p, id)
  {
    InitBase(c, topo, now);
    var es := RunProjects(c, Init(topo, now), acts, u);
    P.NoMessageLost(c.proto, topo, now, es, u.p);
  }
}
