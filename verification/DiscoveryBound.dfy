/** How many discover messages one bootstrap can cause: a tree with a branch for every handler run of a page. */
module DiscoveryBound {
  import opened Common
  import opened Tasks
  import opened Topology
  import opened Consumer
  import P = RetryProtocol
  import opened Pipeline
  import opened Sums
  import L = Lineage
  import T = Termination

  // ---- the bound ----

  /** Discover messages a task at this page may lead to, itself included, when a message is handled at most so
      many times. */
  function Tree(maxPage: nat, tries: nat, page: int): nat
    decreases maxPage - page
  {
    1 + if page < maxPage then tries * Tree(maxPage, tries, page + 1) else 0
  }

  function Power(r: nat, k: nat): nat { if k == 0 then 1 else r * Power(r, k - 1) }

  /** 1 + r + ... + r^n */
  function PowerSum(r: nat, n: nat): nat { if n == 0 then 1 else PowerSum(r, n - 1) + Power(r, n) }

  lemma {:induction false} PowerSumShifts(r: nat, n: nat)
    ensures PowerSum(r, n + 1) == 1 + r * PowerSum(r, n)
  {
    assert PowerSum(r, n + 1) == PowerSum(r, n) + r * Power(r, n);
    if n == 0 {
      assert Power(r, 0) == 1;
    } else {
      PowerSumShifts(r, n - 1);
      Distribute(r, PowerSum(r, n - 1), Power(r, n));
    }
  }

  lemma {:induction false} TreeIsPowerSum(maxPage: nat, tries: nat, page: int)
    requires page <= maxPage
    ensures Tree(maxPage, tries, page) == PowerSum(tries, maxPage - page)
    decreases maxPage - page
  {
    if page < maxPage {
      TreeIsPowerSum(maxPage, tries, page + 1);
      PowerSumShifts(tries, maxPage - page - 1);
    }
  }

  lemma {:induction false} PowerSumOfOne(n: nat)
    ensures Power(1, n) == 1 && PowerSum(1, n) == n + 1
  {
    if n > 0 { PowerSumOfOne(n - 1); }
  }

  // ---- what a message can still cause ----

  /** What a new discover message costs: itself and everything below it. */
  function NewPages(c: Settings, tries: nat, sent: P.Sent): nat {
    if sent.queue != LISTINGS_DISCOVER then 0
    else if sent.body.Json? then Tree(c.maxPage, tries, NormalPage(sent.body.page))
    else 1
  }

  function TodoPages(c: Settings, tries: nat, todo: seq<P.Sent>): nat {
    if todo == [] then 0 else NewPages(c, tries, todo[0]) + TodoPages(c, tries, todo[1..])
  }

  /** What one handler run of a task may cause. */
  function RunPages(c: Settings, tries: nat, sent: P.Sent): nat {
    if sent.queue == LISTINGS_DISCOVER && sent.body.Json? && NormalPage(sent.body.page) < c.maxPage
    then Tree(c.maxPage, tries, NormalPage(sent.body.page) + 1) else 0
  }

  function WorkPages(c: Settings, tries: nat, w: Work, run: nat): nat {
    if w.Sending? then TodoPages(c, tries, w.todo) else run
  }

  /** How often a run calls the handler of message id. */
  function Calls(acts: seq<Action>, id: nat): nat {
    if acts == [] then 0 else (if acts[0] == Call(id) then 1 else 0) + Calls(acts[1..], id)
  }

  /** A routed message counts itself, if it is a discover message, what its running handler may still cause, and a
      branch for every call that the rest of the run has for it. */
  function Cost(c: Settings, tries: nat, rest: seq<Action>, s: Pipe, id: nat): nat
    requires id in s.p.routed
  {
    var run := RunPages(c, tries, s.p.routed[id]);
    (if s.p.routed[id].queue == LISTINGS_DISCOVER then 1 else 0)
    + Calls(rest, id) * run
    + if id in s.work then WorkPages(c, tries, s.work[id], run) else 0
  }

  ghost function Costs(c: Settings, tries: nat, rest: seq<Action>, s: Pipe): map<nat, nat> {
    map id | id in s.p.routed :: Cost(c, tries, rest, s, id)
  }

  function After(c: Settings, tries: nat, rest: seq<Action>, s: Pipe, k: nat): nat {
    if k in s.p.routed then Cost(c, tries, rest, s, k) else 0
  }

  /** Nothing new, and message id no more to come than before. */
  ghost predicate NoMore(c: Settings, tries: nat, rest: seq<Action>, s: Pipe, s': Pipe, id: nat)
    requires id in s.p.routed
  {
    After(c, tries, rest, s', id) + After(c, tries, rest, s', s.p.next) <= Cost(c, tries, rest, s, id)
  }

  lemma Fewer(m: nat, n: nat, x: nat)
    requires m <= n
    ensures m * x <= n * x
  {
    Distribute(x, m, n - m);
  }

  // ---- moves, the handler call apart ----

  /** The broker calls nobody and publishes nothing; a crash only ends a handler. */
  lemma BrokerMove(c: Settings, tries: nat, rest: seq<Action>, s: Pipe, e: P.Event)
    requires Base(c, s) && Enabled(c, s, Broker(e)) && T.Subject(e).Some?
    ensures T.Subject(e).value in s.p.routed && NoMore(c, tries, rest, s, Apply(c, s, Broker(e)), T.Subject(e).value)
  {
    var id := T.Subject(e).value;
    P.ApplyDirect(c.proto, s.p, e);
    assert P.IdOk(c.proto, s.p, id) && P.IdOk(c.proto, s.p, s.p.next);
    L.EventRoutes(c.proto, s.p, e, id);
    L.EventRoutes(c.proto, s.p, e, s.p.next);
    if e.Deliver? || e.ChannelLost? { P.OutAtHome(c.proto, s.p, id); }
  }

  lemma FinishMove(c: Settings, tries: nat, rest: seq<Action>, s: Pipe, id: nat, outcome: Outcome)
    requires Base(c, s) && id in s.work
    ensures id in s.p.routed && NoMore(c, tries, rest, s, Finish(s, id, outcome), id)
  {
    T.RunningHere(c, s, id);
    assert P.IdOk(c.proto, s.p, s.p.next);
  }

  // ---- plans ----

  lemma {:induction false} PagesSnoc(c: Settings, tries: nat, todo: seq<P.Sent>, sent: P.Sent)
    ensures TodoPages(c, tries, todo + [sent]) == TodoPages(c, tries, todo) + NewPages(c, tries, sent)
  {
    if todo == [] {
      assert todo + [sent] == [sent];
      assert [sent][1..] == [];
    } else {
      assert (todo + [sent])[1..] == todo[1..] + [sent];
      PagesSnoc(c, tries, todo[1..], sent);
    }
  }

  lemma {:induction false} LinksArePageless(c: Settings, tries: nat, urls: seq<string>)
    ensures TodoPages(c, tries, FetchPlan(urls)) == 0
  {
    if urls != [] {
      var n := |urls| - 1;
      LinksArePageless(c, tries, urls[..n]);
      PagesSnoc(c, tries, FetchPlan(urls[..n]), P.Sent(LISTINGS_FETCH, FetchTask(urls[n])));
      L.QueueNamesDiffer();
    }
  }

  /** A page plan holds at most the one next page. */
  lemma PlanPages(c: Settings, tries: nat, searchUrl: string, page: int, urls: seq<string>)
    requires page >= 1
    ensures TodoPages(c, tries, PagePlan(searchUrl, page, urls, c.maxPage))
            <= RunPages(c, tries, P.Sent(LISTINGS_DISCOVER, DiscoverTask(searchUrl, page)))
  {
    LinksArePageless(c, tries, urls);
    if |urls| > 0 && page < c.maxPage {
      PagesSnoc(c, tries, FetchPlan(urls), P.Sent(LISTINGS_DISCOVER, DiscoverTask(searchUrl, page + 1)));
    } else {
      assert FetchPlan(urls) + [] == FetchPlan(urls);
    }
  }

  lemma WorkMove(c: Settings, tries: nat, rest: seq<Action>, s: Pipe, s': Pipe, id: nat)
    requires Base(c, s) && id in s.work && s'.p == s.p && id in s'.work
    requires id in s.p.routed ==>
      WorkPages(c, tries, s'.work[id], RunPages(c, tries, s.p.routed[id]))
        <= WorkPages(c, tries, s.work[id], RunPages(c, tries, s.p.routed[id]))
    ensures id in s.p.routed && NoMore(c, tries, rest, s, s', id)
  {
    T.RunningHere(c, s, id);
    assert P.IdOk(c.proto, s.p, s.p.next);
  }

  lemma PageMove(c: Settings, tries: nat, rest: seq<Action>, s: Pipe, id: nat, urls: seq<string>)
    requires Base(c, s) && Enabled(c, s, ReadPage(id, urls))
    ensures id in s.p.routed && NoMore(c, tries, rest, s, Apply(c, s, ReadPage(id, urls)), id)
  {
    T.RunningHere(c, s, id);
    PlanPages(c, tries, s.p.msgs[id].body.searchUrl, NormalPage(s.p.msgs[id].body.page), urls);
    WorkMove(c, tries, rest, s, Apply(c, s, ReadPage(id, urls)), id);
  }

  lemma OtherInnerMove(c: Settings, tries: nat, rest: seq<Action>, s: Pipe, a: Action)
    requires Base(c, s) && Enabled(c, s, a)
    requires a.PassFetchGate? || a.StoreFetch? || a.StoreParse? || a.PassEnrichGate? || a.ReadProfile? || a.Mark?
    ensures a.id in s.p.routed && NoMore(c, tries, rest, s, Apply(c, s, a), a.id)
  {
    L.QueueNamesDiffer();
    var s' := Apply(c, s, a);
    var todo := if s'.work[a.id].Sending? then s'.work[a.id].todo else [];
    assert TodoPages(c, tries, todo) == 0 by {
      if a.ReadProfile? { LinksArePageless(c, tries, a.urls); }
      else if |todo| == 1 { assert todo[1..] == []; }
    }
    WorkMove(c, tries, rest, s, s', a.id);
  }

  /** A new message costs no more than its tree, if the rest of the run does not call it more often than allowed. */
  lemma PublishedCost(c: Settings, tries: nat, rest: seq<Action>, s: Pipe, sent: P.Sent)
    requires Base(c, s) && sent.queue in WORK_QUEUES
    requires sent.queue == LISTINGS_DISCOVER ==> Calls(rest, s.p.next) <= tries
    ensures var s' := PublishNext(s, sent);
      && s.p.next in s'.p.routed && s.p.next !in s.work && s'.p.routed[s.p.next] == sent
      && Cost(c, tries, rest, s', s.p.next) <= NewPages(c, tries, sent)
  {
    P.ApplyDirect(c.proto, s.p, P.Publish(sent.queue, sent.body));
    assert WorkOk(s, s.p.next) && P.IdOk(c.proto, s.p, s.p.next);
    if sent.queue == LISTINGS_DISCOVER { Fewer(Calls(rest, s.p.next), tries, RunPages(c, tries, sent)); }
  }

  /** Is this action the publish of a discover task that the rest of the run calls too often? */
  ghost predicate Affordable(c: Settings, tries: nat, rest: seq<Action>, s: Pipe, a: Action)
    requires Enabled(c, s, a)
  {
    var s' := Apply(c, s, a);
    s.p.next in s'.p.routed && s'.p.routed[s.p.next].queue == LISTINGS_DISCOVER ==> Calls(rest, s.p.next) <= tries
  }

  /** What the broker took is the one new message, and it is not handled yet. */
  lemma SendRoutes(c: Settings, s: Pipe, id: nat, attempt: P.Attempt)
    requires Base(c, s) && Enabled(c, s, Send(id, attempt)) && attempt.taken && id in s.p.routed
    ensures var s1, s' := PublishNext(s, s.work[id].todo[0]), Apply(c, s, Send(id, attempt));
      && s'.p.routed == s1.p.routed == s.p.routed[s.p.next := s.work[id].todo[0]]
      && s.p.next !in s.p.routed && s.p.next !in s.work && s.p.next !in s'.work
  {
    assert WorkOk(s, id) && WorkOk(s, s.p.next) && P.IdOk(c.proto, s.p, s.p.next);
    PublishRoutes(c, s, s.work[id].todo[0]);
  }

  lemma PublishRoutes(c: Settings, s: Pipe, sent: P.Sent)
    requires Base(c, s) && sent.queue in WORK_QUEUES
    ensures PublishNext(s, sent).p.routed == s.p.routed[s.p.next := sent]
  {
    P.ApplyDirect(c.proto, s.p, P.Publish(sent.queue, sent.body));
  }

  /** What the handler's own message can still cause has shrunk by the cost of what it sent. */
  lemma SentCost(c: Settings, tries: nat, rest: seq<Action>, s: Pipe, id: nat, attempt: P.Attempt)
    requires Enabled(c, s, Send(id, attempt)) && attempt.taken && id in s.p.routed && s.p.next !in s.p.routed
    requires Apply(c, s, Send(id, attempt)).p.routed == s.p.routed[s.p.next := s.work[id].todo[0]]
    requires s.p.next !in s.work
    ensures After(c, tries, rest, Apply(c, s, Send(id, attempt)), id) + NewPages(c, tries, s.work[id].todo[0])
            <= Cost(c, tries, rest, s, id)
    ensures var sent := s.work[id].todo[0];
      After(c, tries, rest, Apply(c, s, Send(id, attempt)), s.p.next)
        == (if sent.queue == LISTINGS_DISCOVER then 1 else 0) + Calls(rest, s.p.next) * RunPages(c, tries, sent)
  {
  }

  lemma SendMove(c: Settings, tries: nat, rest: seq<Action>, s: Pipe, id: nat, attempt: P.Attempt)
    requires Base(c, s) && Enabled(c, s, Send(id, attempt)) && Affordable(c, tries, rest, s, Send(id, attempt))
    ensures id in s.p.routed && NoMore(c, tries, rest, s, Apply(c, s, Send(id, attempt)), id)
  {
    T.RunningHere(c, s, id);
    assert WorkOk(s, id);
    if attempt.taken {
      var sent := s.work[id].todo[0];
      SendRoutes(c, s, id, attempt);
      PublishedCost(c, tries, rest, s, sent);
      SentCost(c, tries, rest, s, id, attempt);
    } else {
      FinishMove(c, tries, rest, s, id, attempt.outcome);
    }
  }

  lemma ActorMove(c: Settings, tries: nat, rest: seq<Action>, s: Pipe, a: Action, id: nat)
    requires Base(c, s) && Enabled(c, s, a) && Affordable(c, tries, rest, s, a) && T.Actor(a) == Some(id) && !a.Call?
    ensures id in s.p.routed && NoMore(c, tries, rest, s, Apply(c, s, a), id)
  {
    match a
    case Broker(e) => BrokerMove(c, tries, rest, s, e);
    case Skip(_) => FinishMove(c, tries, rest, s, id, Nil);
    case Fail(_, outcome) => FinishMove(c, tries, rest, s, id, outcome);
    case Return(_) => FinishMove(c, tries, rest, s, id, Nil);
    case ReadPage(_, urls) => PageMove(c, tries, rest, s, id, urls);
    case Send(_, attempt) => SendMove(c, tries, rest, s, id, attempt);
    case _ => OtherInnerMove(c, tries, rest, s, a);
  }

  lemma FrameCost(c: Settings, tries: nat, rest: seq<Action>, s: Pipe, s': Pipe, k: nat)
    requires k in s.p.routed && T.FrameAt(s, s', k)
    ensures k in s'.p.routed && Cost(c, tries, rest, s', k) == Cost(c, tries, rest, s, k)
  {
  }

  /** Everybody but the one the action is about, and the one it may add, costs what it did. */
  lemma OthersCost(c: Settings, tries: nat, rest: seq<Action>, s: Pipe, a: Action, id: nat)
    requires Base(c, s) && Enabled(c, s, a) && T.Actor(a) == Some(id)
    ensures var m, m' := Costs(c, tries, rest, s), Costs(c, tries, rest, Apply(c, s, a));
      && s.p.next !in m
      && (forall k | k in m && k != id :: k in m' && m'[k] == m[k])
      && (forall k | k in m' :: k in m || k == s.p.next || k == id)
  {
    var s' := Apply(c, s, a);
    assert P.IdOk(c.proto, s.p, s.p.next);
    forall k | k in s'.p.routed ensures k in s.p.routed || k == s.p.next || k == id {
      if k != id && k != s.p.next { T.ActionFrame(c, s, a, k); }
    }
    forall k | k in s.p.routed && k != id
      ensures k in s'.p.routed && Cost(c, tries, rest, s', k) == Cost(c, tries, rest, s, k)
    {
      assert P.IdOk(c.proto, s.p, k);
      T.ActionFrame(c, s, a, k);
      FrameCost(c, tries, rest, s, s', k);
    }
  }

  lemma ActorStep(c: Settings, tries: nat, rest: seq<Action>, s: Pipe, a: Action, id: nat)
    requires Base(c, s) && Enabled(c, s, a) && Affordable(c, tries, rest, s, a) && T.Actor(a) == Some(id) && !a.Call?
    ensures Sum(Costs(c, tries, rest, Apply(c, s, a))) <= Sum(Costs(c, tries, rest, s))
  {
    ActorMove(c, tries, rest, s, a, id);
    OthersCost(c, tries, rest, s, a, id);
    SumChange(Costs(c, tries, rest, s), Costs(c, tries, rest, Apply(c, s, a)), id, s.p.next);
  }

  lemma ExternalCost(c: Settings, tries: nat, rest: seq<Action>, s: Pipe, q: string, body: Body, k: nat)
    requires Base(c, s) && Enabled(c, s, External(q, body)) && k in s.p.routed
    ensures var s' := Apply(c, s, External(q, body));
      k in s'.p.routed && Cost(c, tries, rest, s', k) == Cost(c, tries, rest, s, k)
  {
    assert P.IdOk(c.proto, s.p, k);
    T.EventFrame(c.proto, s.p, P.Publish(q, body), k);
    FrameCost(c, tries, rest, s, Apply(c, s, External(q, body)), k);
  }

  lemma ExternalStep(c: Settings, tries: nat, rest: seq<Action>, s: Pipe, q: string, body: Body)
    requires Base(c, s) && Enabled(c, s, External(q, body)) && q != LISTINGS_DISCOVER
    ensures Sum(Costs(c, tries, rest, Apply(c, s, External(q, body)))) <= Sum(Costs(c, tries, rest, s))
  {
    var m, m' := Costs(c, tries, rest, s), Costs(c, tries, rest, Apply(c, s, External(q, body)));
    forall k | k in m ensures k in m' && m'[k] == m[k] { ExternalCost(c, tries, rest, s, q, body, k); }
    assert P.IdOk(c.proto, s.p, s.p.next);
    forall k | k in m' && k !in m ensures k == s.p.next && m'[k] == 0 {
      L.EventRoutes(c.proto, s.p, P.Publish(q, body), k);
      PublishedCost(c, tries, rest, s, P.Sent(q, body));
    }
    SumGrown(m, m', s.p.next);
  }

  /** The call itself: the branch the rest of the run had for it is now the handler's. */
  lemma CallStep(c: Settings, tries: nat, s: Pipe, acts: seq<Action>, id: nat)
    requires Base(c, s) && acts != [] && acts[0] == Call(id) && Enabled(c, s, acts[0])
    ensures Sum(Costs(c, tries, acts[1..], Apply(c, s, acts[0]))) <= Sum(Costs(c, tries, acts, s))
  {
    var s', rest := Apply(c, s, Call(id)), acts[1..];
    assert P.IdOk(c.proto, s.p, id) && WorkOk(s, id);
    assert s'.p.routed == s.p.routed;
    forall k | k in s.p.routed ensures Cost(c, tries, rest, s', k) == Cost(c, tries, acts, s, k) {
      if k == id { Distribute(RunPages(c, tries, s.p.routed[id]), Calls(rest, id), 1); }
    }
    assert Costs(c, tries, rest, s') == Costs(c, tries, acts, s);
  }

  /** No discover task from outside. */
  predicate OwnTasks(acts: seq<Action>) { forall a | a in acts :: a.External? ==> a.queue != LISTINGS_DISCOVER }

  lemma CostStep(c: Settings, tries: nat, s: Pipe, acts: seq<Action>)
    requires Base(c, s) && acts != [] && Enabled(c, s, acts[0]) && OwnTasks(acts)
    requires Affordable(c, tries, acts[1..], s, acts[0])
    ensures Sum(Costs(c, tries, acts[1..], Apply(c, s, acts[0]))) <= Sum(Costs(c, tries, acts, s))
  {
    var a, rest := acts[0], acts[1..];
    if a.Call? {
      CallStep(c, tries, s, acts, a.id);
    } else {
      assert Costs(c, tries, acts, s) == Costs(c, tries, rest, s);
      if T.Actor(a).Some? {
        ActorStep(c, tries, rest, s, a, T.Actor(a).value);
      } else if a.External? {
        ExternalStep(c, tries, rest, s, a.queue, a.body);
      } else {
        assert Costs(c, tries, rest, Apply(c, s, a)) == Costs(c, tries, rest, s);
      }
    }
  }

  /** Every discover message that ever reached the broker. */
  function Discovered(s: Pipe): set<nat> {
    set id | id in s.p.routed && s.p.routed[id].queue == LISTINGS_DISCOVER
  }

  /** No discover message of u is handled more than so many times. */
  ghost predicate CalledAtMost(acts: seq<Action>, u: Pipe, tries: nat) {
    forall id | id in Discovered(u) :: Calls(acts, id) <= tries
  }

  lemma {:induction false} RunLater(c: Settings, s: Pipe, acts: seq<Action>, u: Pipe)
    requires Base(c, s) && Reaches(c, s, acts, u)
    ensures Later(s.p, u.p)
    decreases |acts|
  {
    if acts != [] {
      StepLater(c, s, acts[0]);
      StepKeepsBase(c, s, acts[0]);
      RunLater(c, Apply(c, s, acts[0]), acts[1..], u);
    }
  }

  lemma {:induction false} RunCosts(c: Settings, tries: nat, s: Pipe, acts: seq<Action>, u: Pipe)
    requires Base(c, s) && Reaches(c, s, acts, u) && OwnTasks(acts) && CalledAtMost(acts, u, tries)
    ensures Sum(Costs(c, tries, [], u)) <= Sum(Costs(c, tries, acts, s))
    decreases |acts|
  {
    if acts != [] {
      var s' := Apply(c, s, acts[0]);
      StepKeepsBase(c, s, acts[0]);
      RunLater(c, s', acts[1..], u);
      StepLater(c, s, acts[0]);
      assert s.p.next in Discovered(s') ==> s.p.next in Discovered(u);
      assert CalledAtMost(acts[1..], u, tries) by {
        forall id | id in Discovered(u) ensures Calls(acts[1..], id) <= tries {}
      }
      CostStep(c, tries, s, acts);
      RunCosts(c, tries, s', acts[1..], u);
    }
  }

  // ---- main results ----

  lemma {:induction false} CountBelowSum(ids: set<nat>, m: map<nat, nat>)
    requires forall id | id in ids :: id in m && m[id] >= 1
    ensures |ids| <= Sum(m)
    decreases |ids|
  {
    if ids != {} {
      var id :| id in ids;
      CountBelowSum(ids - {id}, m - {id});
      SumTake(m, id);
    }
  }

  /** One discover task in an otherwise empty system. */
  function Bootstrap(topo: Topology, now: nat, searchUrl: string, page: int): Pipe {
    PublishNext(Init(topo, now), P.Sent(LISTINGS_DISCOVER, DiscoverTask(searchUrl, page)))
  }

  lemma BootstrapBase(c: Settings, topo: Topology, now: nat, searchUrl: string, page: int)
    requires GoodSettings(c) && Ready(topo, WORK_QUEUES)
    ensures Base(c, Bootstrap(topo, now, searchUrl, page))
    ensures var s := Bootstrap(topo, now, searchUrl, page);
      s.p.routed == map[0 := P.Sent(LISTINGS_DISCOVER, DiscoverTask(searchUrl, page))] && s.work == map[]
      && s.p.tasks == map[] && s.p.rejections == map[0 := 0] && s.p.next == 1
  {
    InitBase(c, topo, now);
    StageQueues();
    PublishKeepsBase(c, Init(topo, now), P.Sent(LISTINGS_DISCOVER, DiscoverTask(searchUrl, page)));
    P.ApplyDirect(c.proto, Init(topo, now).p, P.Publish(LISTINGS_DISCOVER, DiscoverTask(searchUrl, page)));
  }

  function Bound(c: Settings, tries: nat, page: int): nat {
    if NormalPage(page) <= c.maxPage then PowerSum(tries, c.maxPage - NormalPage(page)) else 1
  }

  lemma BootstrapCost(c: Settings, topo: Topology, now: nat, searchUrl: string, page: int, tries: nat,
                      acts: seq<Action>)
    requires GoodSettings(c) && Ready(topo, WORK_QUEUES) && Calls(acts, 0) <= tries
    ensures Sum(Costs(c, tries, acts, Bootstrap(topo, now, searchUrl, page))) <= Bound(c, tries, page)
  {
    var s := Bootstrap(topo, now, searchUrl, page);
    var sent := P.Sent(LISTINGS_DISCOVER, DiscoverTask(searchUrl, page));
    BootstrapBase(c, topo, now, searchUrl, page);
    InitBase(c, topo, now);
    StageQueues();
    PublishedCost(c, tries, acts, Init(topo, now), sent);
    var nothing: map<nat, nat> := map[];
    SumPut(nothing, 0, Cost(c, tries, acts, s, 0));
    assert Costs(c, tries, acts, s) == nothing[0 := Cost(c, tries, acts, s, 0)];
    assert nothing - {0} == nothing;
    if NormalPage(page) <= c.maxPage { TreeIsPowerSum(c.maxPage, tries, NormalPage(page)); }
  }

  /** Handled at most so many times each, the messages of one bootstrap number at most 1 + r + ... + r^(pages left),
      whatever crashes or fails. */
  lemma DiscoveryIsBounded(c: Settings, topo: Topology, now: nat, searchUrl: string, page: int, tries: nat,
                           acts: seq<Action>, u: Pipe)
    requires GoodSettings(c) && Ready(topo, WORK_QUEUES)
    requires Reaches(c, Bootstrap(topo, now, searchUrl, page), acts, u) && OwnTasks(acts)
    requires CalledAtMost(acts, u, tries)
    ensures |Discovered(u)| <= Bound(c, tries, page)
  {
    var s := Bootstrap(topo, now, searchUrl, page);
    BootstrapBase(c, topo, now, searchUrl, page);
    RunLater(c, s, acts, u);
    assert 0 in Discovered(u);
    BootstrapCost(c, topo, now, searchUrl, page, tries, acts);
    RunCosts(c, tries, s, acts, u);
    CountBelowSum(Discovered(u), Costs(c, tries, [], u));
  }

  // ---- the retry budget bounds the calls, but for crashes ----

  /** How often a run loses the delivery of message id. */
  function Losses(acts: seq<Action>, id: nat): nat {
    if acts == [] then 0 else (if acts[0] == Broker(P.ChannelLost(id)) then 1 else 0) + Losses(acts[1..], id)
  }

  /** Handler calls that the protocol state accounts for: one for each rejection, and one more unless the message
      waits or is still to be handled. */
  function Spent(p: P.State, id: nat): int {
    if id !in p.routed then 0
    else
      P.RejectionsOf(p, id)
      + if id in p.msgs && (!p.msgs[id].unacked
                            || (id in p.tasks && p.tasks[id] in {P.AtGate, P.Settling(NackRequeue)})) then 0 else 1
  }

  lemma SettleSpent(c: P.Config, p: P.State, k: nat, id: nat)
    requires P.IdOk(c, p, id) && P.IdOk(c, p, k) && P.Enabled(c, p, P.Event.Settle(k))
    ensures Spent(P.Direct(c, p, P.Event.Settle(k)), id) >= Spent(p, id)
  {
  }

  lemma OtherSpent(c: P.Config, p: P.State, e: P.Event, id: nat)
    requires P.IdOk(c, p, id) && P.IdOk(c, p, p.next) && P.Enabled(c, p, e) && !e.Settle? && !e.Start?
    requires e.Promote? || e.Expire? ==> e.id in p.routed && P.IdOk(c, p, e.id)
    ensures Spent(P.Direct(c, p, e), id) >= Spent(p, id) - (if e == P.ChannelLost(id) then 1 else 0)
  {
  }

  lemma StartSpent(c: P.Config, p: P.State, id: nat)
    requires P.Inv(c, p) && P.Enabled(c, p, P.Start(id))
    ensures Spent(P.Apply(p, P.Start(id)), id) == Spent(p, id) + 1
    ensures id in p.routed && Spent(p, id) < c.Budget(p.routed[id].queue)
  {
    assert P.IdOk(c, p, id);
    P.OutAtHome(c, p, id);
  }

  lemma EventSpent(c: P.Config, p: P.State, e: P.Event, id: nat)
    requires P.Inv(c, p) && P.Enabled(c, p, e)
    ensures Spent(P.Apply(p, e), id) >= Spent(p, id) + (if e == P.Start(id) then 1 else 0)
                                        - (if e == P.ChannelLost(id) then 1 else 0)
    ensures e == P.Start(id) ==> id in p.routed && Spent(p, id) < c.Budget(p.routed[id].queue)
  {
    if e.Start? {
      if e.id == id { StartSpent(c, p, id); }
    } else {
      P.ApplyDirect(c, p, e);
      assert P.IdOk(c, p, id) && P.IdOk(c, p, p.next);
      if e.Settle? || e.Promote? || e.Expire? { assert P.IdOk(c, p, e.id); }
      if e.Settle? { SettleSpent(c, p, e.id, id); } else { OtherSpent(c, p, e, id); }
    }
  }

  lemma {:induction false} EventsSpent(c: P.Config, p: P.State, es: seq<P.Event>, p': P.State, id: nat)
    requires P.Inv(c, p) && P.Reaches(c, p, es, p') && P.Start(id) !in es && P.ChannelLost(id) !in es
    ensures Spent(p', id) >= Spent(p, id)
    decreases |es|
  {
    if es != [] {
      EventSpent(c, p, es[0], id);
      P.StepKeeps(c, p, es[0]);
      EventsSpent(c, P.Apply(p, es[0]), es[1..], p', id);
    }
  }

  lemma StepSpent(c: Settings, s: Pipe, a: Action, id: nat)
    requires Base(c, s) && Enabled(c, s, a)
    ensures Spent(Apply(c, s, a).p, id) >= Spent(s.p, id) + (if a == Call(id) then 1 else 0)
                                           - (if a == Broker(P.ChannelLost(id)) then 1 else 0)
    ensures a == Call(id) ==> id in s.p.routed && Spent(s.p, id) < c.proto.Budget(s.p.routed[id].queue)
  {
    if a.Call? {
      EventSpent(c.proto, s.p, P.Start(a.id), id);
    } else if a.Broker? {
      EventSpent(c.proto, s.p, a.e, id);
    } else {
      StepProjects(c, s, a);
      EventsSpent(c.proto, s.p, Events(s, a), Apply(c, s, a).p, id);
    }
  }

  lemma {:induction false} SpentAndCalls(c: Settings, s: Pipe, acts: seq<Action>, u: Pipe, id: nat)
    requires Base(c, s) && Reaches(c, s, acts, u) && id in u.p.routed && Calls(acts, id) > 0
    ensures Spent(s.p, id) + Calls(acts, id) <= c.proto.Budget(u.p.routed[id].queue) + Losses(acts, id)
    decreases |acts|
  {
    var s' := Apply(c, s, acts[0]);
    StepSpent(c, s, acts[0], id);
    StepKeepsBase(c, s, acts[0]);
    if Calls(acts[1..], id) > 0 { SpentAndCalls(c, s', acts[1..], u, id); }
    RunLater(c, s, acts, u);
  }

  /** From an empty crawler on, a message is handled at most MaxRetries times, five if that is not set, and once more
      for each crash under it. */
  lemma CallsWithinBudget(c: Settings, topo: Topology, now: nat, acts: seq<Action>, u: Pipe, id: nat, setting: int)
    requires GoodSettings(c) && Ready(topo, WORK_QUEUES)
    requires Reaches(c, Init(topo, now), acts, u) && id in u.p.routed && c.proto.SetTo(u.p.routed[id].queue, setting)
    ensures Calls(acts, id) <= (if setting <= 0 then 5 else setting) + Losses(acts, id)
  {
    InitBase(c, topo, now);
    if Calls(acts, id) > 0 { SpentAndCalls(c, Init(topo, now), acts, u, id); }
  }

  lemma CallsBounded(c: Settings, s: Pipe, acts: seq<Action>, u: Pipe, crashes: nat)
    requires Base(c, s) && Reaches(c, s, acts, u)
    requires forall id | id in Discovered(u) :: Losses(acts, id) <= crashes
    ensures CalledAtMost(acts, u, c.proto.Budget(LISTINGS_DISCOVER) + crashes)
  {
    forall id | id in Discovered(u) ensures Calls(acts, id) <= c.proto.Budget(LISTINGS_DISCOVER) + crashes {
      assert P.IdOk(c.proto, s.p, id);
      if Calls(acts, id) > 0 { SpentAndCalls(c, s, acts, u, id); }
    }
  }

  /** With at most so many crashes under each discover message, the retry budget and they bound the handler runs. */
  lemma CrashBound(c: Settings, topo: Topology, now: nat, searchUrl: string, page: int, setting: int, crashes: nat,
                   acts: seq<Action>, u: Pipe)
    requires GoodSettings(c) && Ready(topo, WORK_QUEUES) && c.proto.SetTo(LISTINGS_DISCOVER, setting)
    requires Reaches(c, Bootstrap(topo, now, searchUrl, page), acts, u) && OwnTasks(acts)
    requires forall id | id in Discovered(u) :: Losses(acts, id) <= crashes
    ensures |Discovered(u)| <= Bound(c, (if setting <= 0 then 5 else setting) + crashes, page)
  {
    var s := Bootstrap(topo, now, searchUrl, page);
    BootstrapBase(c, topo, now, searchUrl, page);
    CallsBounded(c, s, acts, u, crashes);
    DiscoveryIsBounded(c, topo, now, searchUrl, page, c.proto.Budget(LISTINGS_DISCOVER) + crashes, acts, u);
  }

  // ---- when nothing fails ----

  /** No crash, no error return, no panic. */
  predicate FailureFree(a: Action) {
    !(a.Broker? && a.e.ChannelLost?) && !a.Fail? && (a.Send? ==> a.attempt.outcome == Nil)
  }

  ghost predicate Unrejected(p: P.State, id: nat) {
    (id in p.rejections ==> p.rejections[id] == 0)
      && (id in p.tasks && p.tasks[id].Settling? ==> p.tasks[id].how == Settlement.Ack)
  }

  ghost predicate NoneRejected(p: P.State) {
    forall id: nat {:trigger Unrejected(p, id)} :: Unrejected(p, id)
  }

  lemma EventUnrejected(c: P.Config, p: P.State, e: P.Event, k: nat)
    requires P.Inv(c, p) && P.Enabled(c, p, e) && NoneRejected(p) && (e.HandlerReturns? ==> e.outcome == Nil)
    ensures Unrejected(P.Apply(p, e), k)
  {
    P.ApplyDirect(c, p, e);
    assert Unrejected(p, k);
    if T.Subject(e).Some? { assert Unrejected(p, T.Subject(e).value) && P.IdOk(c, p, T.Subject(e).value); }
  }

  lemma {:induction false} EventsUnrejected(c: P.Config, p: P.State, es: seq<P.Event>, p': P.State)
    requires P.Inv(c, p) && P.Reaches(c, p, es, p') && NoneRejected(p)
    requires forall e | e in es :: e.HandlerReturns? ==> e.outcome == Nil
    ensures NoneRejected(p')
    decreases |es|
  {
    if es != [] {
      forall k: nat ensures Unrejected(P.Apply(p, es[0]), k) { EventUnrejected(c, p, es[0], k); }
      P.StepKeeps(c, p, es[0]);
      EventsUnrejected(c, P.Apply(p, es[0]), es[1..], p');
    }
  }

  /** Without a failure nothing is rejected, so nothing is handled twice. */
  lemma {:induction false} HandledOnce(c: Settings, s: Pipe, acts: seq<Action>, u: Pipe, id: nat)
    requires Base(c, s) && NoneRejected(s.p) && Reaches(c, s, acts, u) && forall a | a in acts :: FailureFree(a)
    ensures NoneRejected(u.p) && Spent(s.p, id) + Calls(acts, id) <= Spent(u.p, id) <= 1
    decreases |acts|
  {
    if acts == [] {
      assert Unrejected(s.p, id);
    } else {
      var a := acts[0];
      assert FailureFree(a);
      StepSpent(c, s, a, id);
      StepProjects(c, s, a);
      EventsUnrejected(c.proto, s.p, Events(s, a), Apply(c, s, a).p);
      StepKeepsBase(c, s, a);
      HandledOnce(c, Apply(c, s, a), acts[1..], u, id);
    }
  }

  lemma AllHandledOnce(c: Settings, s: Pipe, acts: seq<Action>, u: Pipe)
    requires Base(c, s) && NoneRejected(s.p) && Reaches(c, s, acts, u) && forall a | a in acts :: FailureFree(a)
    ensures CalledAtMost(acts, u, 1)
  {
    forall id | id in Discovered(u) ensures Calls(acts, id) <= 1 {
      assert P.IdOk(c.proto, s.p, id);
      HandledOnce(c, s, acts, u, id);
    }
  }

  /** When nothing fails there is at most one message a page. */
  lemma FailureFreeBound(c: Settings, topo: Topology, now: nat, searchUrl: string, page: int, acts: seq<Action>,
                         u: Pipe)
    requires GoodSettings(c) && Ready(topo, WORK_QUEUES) && NormalPage(page) <= c.maxPage
    requires Reaches(c, Bootstrap(topo, now, searchUrl, page), acts, u) && OwnTasks(acts)
    requires forall a | a in acts :: FailureFree(a)
    ensures |Discovered(u)| <= c.maxPage - NormalPage(page) + 1
  {
    var s := Bootstrap(topo, now, searchUrl, page);
    BootstrapBase(c, topo, now, searchUrl, page);
    assert forall id :: Unrejected(s.p, id);
    AllHandledOnce(c, s, acts, u);
    DiscoveryIsBounded(c, topo, now, searchUrl, page, 1, acts, u);
    PowerSumOfOne(c.maxPage - NormalPage(page));
  }

  // ---- which pages, whatever fails ----

  ghost predicate NextPage(c: Settings, searchUrl: string, first: int, sent: P.Sent) {
    sent.queue == LISTINGS_DISCOVER ==>
      sent.body.Json? && sent.body.searchUrl == searchUrl && first < sent.body.page <= c.maxPage
  }

  ghost predicate NextPages(c: Settings, searchUrl: string, first: int, todo: seq<P.Sent>) {
    forall k | 0 <= k < |todo| :: NextPage(c, searchUrl, first, todo[k])
  }

  ghost predicate PagesOk(c: Settings, searchUrl: string, page: int, s: Pipe, id: nat) {
    && (id in s.p.routed ==>
        s.p.routed[id] == P.Sent(LISTINGS_DISCOVER, DiscoverTask(searchUrl, page))
        || NextPage(c, searchUrl, NormalPage(page), s.p.routed[id]))
    && (id in s.p.routed && id != 0 ==> NextPage(c, searchUrl, NormalPage(page), s.p.routed[id]))
    && (id in s.work && s.work[id].Sending? ==> NextPages(c, searchUrl, NormalPage(page), s.work[id].todo))
  }

  ghost predicate Pages(c: Settings, searchUrl: string, page: int, s: Pipe) {
    Base(c, s) && s.p.next >= 1 && forall id: nat {:trigger PagesOk(c, searchUrl, page, s, id)} ::
      PagesOk(c, searchUrl, page, s, id)
  }

  lemma InnerPages(c: Settings, searchUrl: string, page: int, s: Pipe, a: Action, id: nat)
    requires Pages(c, searchUrl, page, s) && Enabled(c, s, a) && Inner(a)
    ensures PagesOk(c, searchUrl, page, Apply(c, s, a), id)
  {
    assert PagesOk(c, searchUrl, page, s, id);
    L.QueueNamesDiffer();
    if a.ReadPage? || a.ReadProfile? { FetchPlanIs(a.urls); }
    if a.ReadPage? { T.RunningHere(c, s, a.id); assert PagesOk(c, searchUrl, page, s, a.id); }
  }

  lemma PublishPages(c: Settings, searchUrl: string, page: int, s: Pipe, sent: P.Sent, id: nat)
    requires Pages(c, searchUrl, page, s) && P.Enabled(c.proto, s.p, P.Publish(sent.queue, sent.body))
    requires NextPage(c, searchUrl, NormalPage(page), sent)
    ensures PagesOk(c, searchUrl, page, PublishNext(s, sent), id)
  {
    assert PagesOk(c, searchUrl, page, s, id);
    L.EventRoutes(c.proto, s.p, P.Publish(sent.queue, sent.body), id);
  }

  lemma FinishPages(c: Settings, searchUrl: string, page: int, s: Pipe, k: nat, outcome: Outcome, id: nat)
    requires PagesOk(c, searchUrl, page, s, id)
    ensures PagesOk(c, searchUrl, page, Finish(s, k, outcome), id)
  {
  }

  lemma SendPages(c: Settings, searchUrl: string, page: int, s: Pipe, k: nat, attempt: P.Attempt, id: nat)
    requires Pages(c, searchUrl, page, s) && Enabled(c, s, Send(k, attempt))
    ensures PagesOk(c, searchUrl, page, Apply(c, s, Send(k, attempt)), id)
  {
    assert PagesOk(c, searchUrl, page, s, id) && WorkOk(s, k) && PagesOk(c, searchUrl, page, s, k);
    var s1 := if attempt.taken then PublishNext(s, s.work[k].todo[0]) else s;
    if attempt.taken { PublishPages(c, searchUrl, page, s, s.work[k].todo[0], id); }
    assert PagesOk(c, searchUrl, page, s1, id);
    FinishPages(c, searchUrl, page, s1, k, attempt.outcome, id);
  }

  lemma StepPages(c: Settings, searchUrl: string, page: int, s: Pipe, a: Action, id: nat)
    requires Pages(c, searchUrl, page, s) && Enabled(c, s, a) && (a.External? ==> a.queue != LISTINGS_DISCOVER)
    ensures PagesOk(c, searchUrl, page, Apply(c, s, a), id)
  {
    assert PagesOk(c, searchUrl, page, s, id);
    if Inner(a) {
      InnerPages(c, searchUrl, page, s, a, id);
    } else if a.Send? {
      SendPages(c, searchUrl, page, s, a.id, a.attempt, id);
    } else if a.Broker? {
      L.EventRoutes(c.proto, s.p, a.e, id);
    } else if a.Call? {
      L.EventRoutes(c.proto, s.p, P.Start(a.id), id);
    } else if a.External? {
      PublishPages(c, searchUrl, page, s, P.Sent(a.queue, a.body), id);
    }
  }

  lemma {:induction false} PagesAlways(c: Settings, searchUrl: string, page: int, s: Pipe, acts: seq<Action>, u: Pipe)
    requires Pages(c, searchUrl, page, s) && Reaches(c, s, acts, u)
    requires OwnTasks(acts)
    ensures Pages(c, searchUrl, page, u)
    decreases |acts|
  {
    if acts != [] {
      var s1 := Apply(c, s, acts[0]);
      forall id: nat ensures PagesOk(c, searchUrl, page, s1, id) { StepPages(c, searchUrl, page, s, acts[0], id); }
      StepKeepsBase(c, s, acts[0]);
      StepLater(c, s, acts[0]);
      PagesAlways(c, searchUrl, page, s1, acts[1..], u);
    }
  }

  /** Whatever crashes or fails, every discover message after the bootstrap is for the same search and a later page,
      never one past the last allowed. */
  lemma NeverPastLastPage(c: Settings, topo: Topology, now: nat, searchUrl: string, page: int, acts: seq<Action>,
                          u: Pipe, id: nat)
    requires GoodSettings(c) && Ready(topo, WORK_QUEUES)
    requires Reaches(c, Bootstrap(topo, now, searchUrl, page), acts, u)
    requires OwnTasks(acts)
    requires id in Discovered(u) && id != 0
    ensures u.p.routed[id].body.Json? && u.p.routed[id].body.searchUrl == searchUrl
    ensures NormalPage(page) < u.p.routed[id].body.page <= c.maxPage
  {
    var s := Bootstrap(topo, now, searchUrl, page);
    BootstrapBase(c, topo, now, searchUrl, page);
    forall k: nat ensures PagesOk(c, searchUrl, page, s, k) {}
    PagesAlways(c, searchUrl, page, s, acts, u);
    assert PagesOk(c, searchUrl, page, u, id);
  }
}
