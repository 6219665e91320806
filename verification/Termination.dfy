/** Left alone inside one freshness window, the crawler stops: a potential bounds the length of every run. */
module Termination {
  import opened Common
  import opened Tasks
  import opened XDeath
  import opened Topology
  import opened Consumer
  import P = RetryProtocol
  import opened Store
  import opened Pipeline
  import opened Sums
  import G = Gates
  import L = Lineage

  /** The window the clock stays in, the most links any page yields, and the sellers that exist. */
  datatype Window = Window(start: nat, deadline: nat, maxLinks: nat, users: set<string>)

  ghost predicate GoodWindow(c: Settings, w: Window) {
    w.start <= w.deadline < w.start + c.freshness && SELLERS_ENRICH in c.proto.serial
  }

  /** The scheduler is silent, pages stay within the bounds, and the clock inside the window. */
  predicate Bounded(w: Window, s: Pipe, a: Action) {
    && !a.External?
    && (a.ReadPage? || a.ReadProfile? ==> |a.urls| <= w.maxLinks)
    && (a.StoreParse? ==> a.r.seller.olxUserId in w.users)
    && (a.Broker? && a.e.Tick? ==> s.p.now + a.e.d <= w.deadline)
  }

  /** A crash, a failed or panicking promotion, a failed publish, or an error once effects have begun. Failures
      before any effect, such as a transient fetch, are not faults: the retry budget pays for them. */
  predicate Fault(s: Pipe, a: Action) {
    match a
    case Broker(e) => e.ChannelLost? || (e.Promote? && e.attempt.outcome != Nil)
    case Fail(id, outcome) => id in s.work && s.work[id].Sending?
    case Send(id, attempt) => attempt.outcome != Nil
    case _ => false
  }

  // ---- weights: what a message can still cause, in actions ----

  function Rounds(c: Settings, q: string): nat { 8 * c.proto.Budget(q) + 6 }

  function PayParse(c: Settings): nat { Rounds(c, SELLERS_ENRICH) + 1 }
  function PayFetch(c: Settings): nat { Rounds(c, LISTINGS_PARSE) + PayParse(c) + 1 }

  /** Publishing n fetch tasks. */
  function PayLinks(c: Settings, n: nat): nat {
    if n == 0 then 0 else PayLinks(c, n - 1) + Rounds(c, LISTINGS_FETCH) + PayFetch(c) + 1
  }

  function PayPage(c: Settings, links: nat, page: nat): nat
    decreases if page <= c.maxPage then c.maxPage - page else 0
  {
    PayLinks(c, links)
    + if page < c.maxPage then Rounds(c, LISTINGS_DISCOVER) + PayPage(c, links, page + 1) + 1 else 0
  }

  /** What the one successful handling of a task may publish. */
  function Pay(c: Settings, links: nat, q: string, b: Body): nat {
    if q == LISTINGS_DISCOVER then (if b.Json? && NormalPage(b.page) <= c.maxPage
                                    then PayPage(c, links, NormalPage(b.page)) else 0)
    else if q == LISTINGS_FETCH then PayFetch(c)
    else if q == LISTINGS_PARSE then PayParse(c)
    else 0
  }

  function NewCost(c: Settings, links: nat, sent: P.Sent): nat {
    Rounds(c, sent.queue) + Pay(c, links, sent.queue, sent.body)
  }

  function TodoCost(c: Settings, links: nat, todo: seq<P.Sent>): nat {
    if todo == [] then 0 else NewCost(c, links, todo[0]) + 1 + TodoCost(c, links, todo[1..])
  }

  function Minus(a: int, b: int): nat { if a > b then a - b else 0 }

  function WorkCost(c: Settings, links: nat, w: Work, left: nat, pay: nat): nat {
    match w
    case Begin => 8 * left + 4 + pay
    case Fetching(_) => 8 * left + 3 + pay
    case Profile(_) => 8 * left + 3 + pay
    case Sending(todo, last) => TodoCost(c, links, todo) + if last.Stamp? then 3 else 2
  }

  /** The weight of one message, by where it is and how many rejections it has left. */
  function Weight(c: Settings, links: nat, s: Pipe, id: nat): nat
    requires id in s.p.msgs
  {
    if id !in s.p.routed then 0
    else
      var m, home := s.p.msgs[id], s.p.routed[id].queue;
      var left := Minus(c.proto.Budget(home), XDeathCount(m.headers));
      var pay := Pay(c, links, home, m.body);
      if !m.unacked then 8 * left + (if m.queue == home then 6 else 7) + pay
      else if id !in s.p.tasks then 0
      else
        match s.p.tasks[id]
        case AtGate => 8 * left + 5 + pay
        case Handling => if id in s.work then WorkCost(c, links, s.work[id], left, pay) else 0
        case Settling(Ack) => 1
        case Settling(NackRequeue) => 8 * left + 7 + pay
        case Settling(NackToRetry) => 8 * Minus(left, 1) + 8 + pay
  }

  ghost function Weights(c: Settings, links: nat, s: Pipe): map<nat, nat> {
    map id | id in s.p.msgs :: Weight(c, links, s, id)
  }

  // ---- sellers: two fan-outs are set aside until one starts, one until the stamp, none after it ----

  predicate StampedSince(s: Pipe, user: string, start: nat) {
    user in s.t.sellers && s.t.sellers[user].lastEnriched.Some? && s.t.sellers[user].lastEnriched.value >= start
  }

  predicate Fans(s: Pipe, id: nat, user: string) {
    id in s.work && s.work[id].Sending? && s.work[id].last.Stamp? && s.work[id].last.user == user
  }

  ghost predicate Fanning(s: Pipe, user: string) { exists id :: Fans(s, id, user) }

  /** What covers a whole fan-out. */
  function UnitPrice(c: Settings, w: Window): nat { PayLinks(c, w.maxLinks) + 1 }

  ghost function SetAside(c: Settings, w: Window, s: Pipe, user: string): nat {
    if StampedSince(s, user, w.start) then 0
    else if Fanning(s, user) then UnitPrice(c, w)
    else UnitPrice(c, w) + UnitPrice(c, w)
  }

  ghost function Reserves(c: Settings, w: Window, s: Pipe): map<string, nat> {
    map u | u in w.users :: SetAside(c, w, s, u)
  }

  /** No message weighs more than this. */
  function Heaviest(c: Settings, w: Window): nat {
    Rounds(c, LISTINGS_DISCOVER) + PayPage(c, w.maxLinks, 1)
    + Rounds(c, LISTINGS_FETCH) + PayFetch(c) + Rounds(c, LISTINGS_PARSE) + PayParse(c) + Rounds(c, SELLERS_ENRICH) + 2
  }

  function FaultPrice(c: Settings, w: Window): nat { 2 * Heaviest(c, w) + UnitPrice(c, w) + 1 }

  ghost function Potential(c: Settings, w: Window, s: Pipe): nat
    requires s.p.now <= w.deadline
  {
    Sum(Reserves(c, w, s)) + Sum(Weights(c, w.maxLinks, s)) + (w.deadline - s.p.now)
  }

  // ---- the invariant behind it ----

  ghost predicate Inv(c: Settings, w: Window, s: Pipe) {
    && GoodWindow(c, w) && c.maxPage >= 1
    && G.EnrichInv(c, s)
    && w.start <= s.p.now <= w.deadline
    && forall u | u in s.t.sellers :: u in w.users
  }

  // ---- bounds on weights ----

  lemma {:induction false} LinksCost(c: Settings, links: nat, urls: seq<string>)
    ensures TodoCost(c, links, FetchPlan(urls)) == PayLinks(c, |urls|)
  {
    if urls != [] {
      var n := |urls| - 1;
      LinksCost(c, links, urls[..n]);
      var last := P.Sent(LISTINGS_FETCH, FetchTask(urls[n]));
      CostSnoc(c, links, FetchPlan(urls[..n]), last);
      L.QueueNamesDiffer();
    }
  }

  lemma {:induction false} CostSnoc(c: Settings, links: nat, todo: seq<P.Sent>, sent: P.Sent)
    ensures TodoCost(c, links, todo + [sent]) == TodoCost(c, links, todo) + NewCost(c, links, sent) + 1
  {
    if todo == [] {
      assert todo + [sent] == [sent];
      assert [sent][1..] == [];
    } else {
      assert (todo + [sent])[1..] == todo[1..] + [sent];
      CostSnoc(c, links, todo[1..], sent);
    }
  }

  lemma {:induction false} PayLinksGrows(c: Settings, m: nat, n: nat)
    requires m <= n
    ensures PayLinks(c, m) <= PayLinks(c, n)
    decreases n
  {
    if m < n { PayLinksGrows(c, m, n - 1); }
  }

  lemma PageCost(c: Settings, links: nat, searchUrl: string, page: nat, urls: seq<string>)
    requires 1 <= page <= c.maxPage && |urls| <= links
    ensures TodoCost(c, links, PagePlan(searchUrl, page, urls, c.maxPage)) <= PayPage(c, links, page)
  {
    LinksCost(c, links, urls);
    PayLinksGrows(c, |urls|, links);
    if |urls| > 0 && page < c.maxPage {
      CostSnoc(c, links, FetchPlan(urls), P.Sent(LISTINGS_DISCOVER, DiscoverTask(searchUrl, page + 1)));
    } else {
      assert FetchPlan(urls) + [] == FetchPlan(urls);
    }
  }

  lemma {:induction false} PayPageShrinks(c: Settings, links: nat, p: nat, q: nat)
    requires p <= q <= c.maxPage
    ensures PayPage(c, links, q) <= PayPage(c, links, p)
    decreases q - p
  {
    if p < q { PayPageShrinks(c, links, p + 1, q); }
  }

  /** A queued task of a stage weighs at most Heaviest. */
  lemma NewCostBounded(c: Settings, w: Window, q: string, b: Body)
    requires q in WORK_QUEUES && c.maxPage >= 1
    ensures Rounds(c, q) + Pay(c, w.maxLinks, q, b) + 2 <= Heaviest(c, w)
  {
    assert q == LISTINGS_DISCOVER || q == LISTINGS_FETCH || q == LISTINGS_PARSE || q == SELLERS_ENRICH;
    if b.Json? && NormalPage(b.page) <= c.maxPage { PayPageShrinks(c, w.maxLinks, 1, NormalPage(b.page)); }
  }

  // ---- which message an action touches ----

  function Subject(e: P.Event): Option<nat> {
    match e
    case Publish(_, _) => None
    case Tick(_) => None
    case _ => Some(e.id)
  }

  /** Message k is as it was. */
  predicate SameAt(p: P.State, p': P.State, k: nat) {
    && (k in p'.msgs <==> k in p.msgs) && (k in p.msgs ==> p'.msgs[k] == p.msgs[k])
    && (k in p'.tasks <==> k in p.tasks) && (k in p.tasks ==> p'.tasks[k] == p.tasks[k])
    && (k in p'.routed <==> k in p.routed) && (k in p.routed ==> p'.routed[k] == p.routed[k])
  }

  lemma DirectFrame(c: P.Config, p: P.State, e: P.Event, k: nat)
    requires P.Enabled(c, p, e)
    requires e.Expire? ==> e.id in p.routed
    requires e.Settle? || e.Promote? ==> e.id in p.rejections && e.id in p.panics
    requires k != p.next && Subject(e) != Some(k)
    ensures SameAt(p, P.Direct(c, p, e), k)
  {
  }

  lemma DirectKeys(c: P.Config, p: P.State, e: P.Event, k: nat)
    requires P.Enabled(c, p, e)
    requires e.Expire? ==> e.id in p.routed
    requires e.Settle? || e.Promote? ==> e.id in p.rejections && e.id in p.panics
    ensures k in P.Direct(c, p, e).msgs ==> k in p.msgs || k == p.next
  {
  }

  /** An event touches its subject, and may add message next. */
  lemma EventFrame(c: P.Config, p: P.State, e: P.Event, k: nat)
    requires P.Inv(c, p) && P.Enabled(c, p, e)
    ensures k in P.Apply(p, e).msgs ==> k in p.msgs || k == p.next
    ensures k != p.next && Subject(e) != Some(k) ==> SameAt(p, P.Apply(p, e), k)
  {
    P.ApplyDirect(c, p, e);
    DirectKeys(c, p, e, k);
    if k != p.next && Subject(e) != Some(k) { DirectFrame(c, p, e, k); }
  }

  /** The weight of a message that may be gone. */
  function After(c: Settings, links: nat, s: Pipe, k: nat): nat {
    if k in s.p.msgs then Weight(c, links, s, k) else 0
  }

  /** If only message id changes and only next appears, so does the sum of weights. */
  lemma SumOfWeights(c: Settings, links: nat, s: Pipe, s': Pipe, id: nat)
    requires Base(c, s) && id in s.p.msgs
    requires forall k | k in s.p.msgs && k != id :: k in s'.p.msgs && Weight(c, links, s', k) == Weight(c, links, s, k)
    requires forall k | k in s'.p.msgs :: k in s.p.msgs || k == s.p.next
    ensures Sum(Weights(c, links, s')) ==
            Sum(Weights(c, links, s)) - Weight(c, links, s, id) + After(c, links, s', id)
              + After(c, links, s', s.p.next)
  {
    assert P.IdOk(c.proto, s.p, s.p.next) && P.IdOk(c.proto, s.p, id);
    SumChange(Weights(c, links, s), Weights(c, links, s'), id, s.p.next);
  }

  // ---- protocol moves ----

  /** What one protocol move does to its message: p is the state before, id the subject. */
  ghost predicate MoveOk(c: Settings, w: Window, s: Pipe, s': Pipe, id: nat, fault: bool)
    requires id in s.p.msgs
  {
    var links := w.maxLinks;
    var after := After(c, links, s', id) + After(c, links, s', s.p.next);
    && (!fault ==> after + 1 <= Weight(c, links, s, id))
    && after <= Weight(c, links, s, id) + Heaviest(c, w) + 2
  }

  lemma SimpleMove(c: Settings, w: Window, s: Pipe, e: P.Event)
    requires Base(c, s) && c.maxPage >= 1 && Enabled(c, s, Broker(e))
    requires e.Deliver? || e.SettleLost? || e.ChannelLost?
    ensures e.id in s.p.msgs && MoveOk(c, w, s, Apply(c, s, Broker(e)), e.id, e.ChannelLost?)
  {
    assert P.IdOk(c.proto, s.p, e.id) && P.IdOk(c.proto, s.p, s.p.next);
    if e.Deliver? || e.ChannelLost? { P.OutAtHome(c.proto, s.p, e.id); }
    if e.id in s.p.routed { NewCostBounded(c, w, s.p.routed[e.id].queue, s.p.msgs[e.id].body); }
  }

  lemma PromoteMove(c: Settings, w: Window, s: Pipe, id: nat, attempt: P.Attempt)
    requires Base(c, s) && Enabled(c, s, Broker(P.Promote(id, attempt)))
    ensures id in s.p.msgs && MoveOk(c, w, s, Apply(c, s, Broker(P.Promote(id, attempt))), id, attempt.outcome != Nil)
  {
    P.ApplyDirect(c.proto, s.p, P.Promote(id, attempt));
    assert P.IdOk(c.proto, s.p, id) && P.IdOk(c.proto, s.p, s.p.next);
    P.OutAtHome(c.proto, s.p, id);
  }

  lemma RejectedMove(c: Settings, w: Window, s: Pipe, id: nat)
    requires Base(c, s) && Enabled(c, s, Broker(P.Event.Settle(id))) && s.p.tasks[id].how == NackToRetry
    ensures id in s.p.msgs && MoveOk(c, w, s, Apply(c, s, Broker(P.Event.Settle(id))), id, false)
  {
    P.ApplyDirect(c.proto, s.p, P.Event.Settle(id));
    assert P.IdOk(c.proto, s.p, id) && P.IdOk(c.proto, s.p, s.p.next);
    P.OutAtHome(c.proto, s.p, id);
    RecordDeathCounts(s.p.msgs[id].headers, s.p.msgs[id].queue, REJECTED);
  }

  lemma SettleMove(c: Settings, w: Window, s: Pipe, id: nat)
    requires Base(c, s) && Enabled(c, s, Broker(P.Event.Settle(id)))
    ensures id in s.p.msgs && MoveOk(c, w, s, Apply(c, s, Broker(P.Event.Settle(id))), id, false)
  {
    if s.p.tasks[id].how == NackToRetry {
      RejectedMove(c, w, s, id);
    } else {
      assert P.IdOk(c.proto, s.p, id) && P.IdOk(c.proto, s.p, s.p.next);
      P.OutAtHome(c.proto, s.p, id);
    }
  }

  lemma ExpireMove(c: Settings, w: Window, s: Pipe, id: nat)
    requires Base(c, s) && Enabled(c, s, Broker(P.Expire(id)))
    ensures id in s.p.msgs && MoveOk(c, w, s, Apply(c, s, Broker(P.Expire(id))), id, false)
  {
    P.ApplyDirect(c.proto, s.p, P.Expire(id));
    assert P.IdOk(c.proto, s.p, id) && P.IdOk(c.proto, s.p, s.p.next);
    P.ExpiresFromRetry(c.proto, s.p, id);
    SiblingsDiffer(s.p.routed[id].queue, s.p.routed[id].queue);
    RecordDeathCounts(s.p.msgs[id].headers, s.p.msgs[id].queue, EXPIRED);
  }

  lemma BrokerMove(c: Settings, w: Window, s: Pipe, e: P.Event)
    requires Base(c, s) && c.maxPage >= 1 && Enabled(c, s, Broker(e)) && Subject(e).Some?
    ensures var id := Subject(e).value;
      id in s.p.msgs && MoveOk(c, w, s, Apply(c, s, Broker(e)), id, Fault(s, Broker(e)))
  {
    match e
    case Promote(id, attempt) => PromoteMove(c, w, s, id, attempt);
    case Settle(id) => SettleMove(c, w, s, id);
    case Expire(id) => ExpireMove(c, w, s, id);
    case _ => SimpleMove(c, w, s, e);
  }

  // ---- handler moves ----

  /** A running handler has a message with budget left, routed to its queue. */
  lemma RunningHere(c: Settings, s: Pipe, id: nat)
    requires Base(c, s) && id in s.work
    ensures id in s.p.msgs && id in s.p.routed && s.p.msgs[id].unacked && id < s.p.next
    ensures s.p.routed[id] == P.Sent(s.p.msgs[id].queue, s.p.msgs[id].body) && s.p.routed[id].queue in WORK_QUEUES
    ensures id in s.p.tasks && s.p.tasks[id] == P.Handling
    ensures 1 <= Minus(c.proto.Budget(s.p.routed[id].queue), XDeathCount(s.p.msgs[id].headers))
      <= c.proto.Budget(s.p.routed[id].queue)
    ensures s.p.next !in s.p.msgs
  {
    assert WorkOk(s, id) && P.IdOk(c.proto, s.p, id) && P.IdOk(c.proto, s.p, s.p.next);
    P.OutAtHome(c.proto, s.p, id);
  }

  lemma CallMove(c: Settings, w: Window, s: Pipe, id: nat)
    requires Base(c, s) && Enabled(c, s, Call(id))
    ensures id in s.p.msgs && MoveOk(c, w, s, Apply(c, s, Call(id)), id, false)
  {
    assert P.IdOk(c.proto, s.p, id) && P.IdOk(c.proto, s.p, s.p.next);
  }

  /** What a handler leaves behind when it returns. */
  lemma FinishedWeight(c: Settings, w: Window, s: Pipe, id: nat, outcome: Outcome)
    requires Base(c, s) && c.maxPage >= 1 && id in s.work
    ensures id in s.p.msgs && id in s.p.routed
    ensures var s', links := Finish(s, id, outcome), w.maxLinks;
      var home := s.p.routed[id].queue;
      var left := Minus(c.proto.Budget(home), XDeathCount(s.p.msgs[id].headers));
      && id in s'.p.msgs && s.p.next !in s'.p.msgs
      && Weight(c, links, s', id) == (if outcome == Nil then 1 else 8 * left + Pay(c, links, home, s.p.msgs[id].body))
      && Weight(c, links, s', id) <= Heaviest(c, w)
  {
    RunningHere(c, s, id);
    NewCostBounded(c, w, s.p.routed[id].queue, s.p.msgs[id].body);
  }

  lemma FinishMove(c: Settings, w: Window, s: Pipe, id: nat, outcome: Outcome)
    requires Base(c, s) && c.maxPage >= 1 && id in s.work
    requires outcome == Nil ==> s.work[id] == Begin || s.work[id] == Sending([], Done)
    ensures id in s.p.msgs && MoveOk(c, w, s, Finish(s, id, outcome), id, outcome != Nil && s.work[id].Sending?)
  {
    RunningHere(c, s, id);
    FinishedWeight(c, w, s, id, outcome);
  }

  /** Changing the work of a running handler changes its weight by the cost of the work. */
  lemma WorkMove(c: Settings, w: Window, s: Pipe, s': Pipe, id: nat)
    requires Base(c, s) && id in s.work && s'.p == s.p && id in s'.work
    ensures id in s.p.msgs && id in s.p.routed
    ensures var home := s.p.routed[id].queue;
      var left := Minus(c.proto.Budget(home), XDeathCount(s.p.msgs[id].headers));
      var pay := Pay(c, w.maxLinks, home, s.p.msgs[id].body);
      && Weight(c, w.maxLinks, s, id) == WorkCost(c, w.maxLinks, s.work[id], left, pay)
      && After(c, w.maxLinks, s', id) == WorkCost(c, w.maxLinks, s'.work[id], left, pay)
      && After(c, w.maxLinks, s', s.p.next) == 0
  {
    RunningHere(c, s, id);
  }

  lemma PageMove(c: Settings, w: Window, s: Pipe, id: nat, urls: seq<string>)
    requires Base(c, s) && Enabled(c, s, ReadPage(id, urls)) && |urls| <= w.maxLinks
    ensures id in s.p.msgs && MoveOk(c, w, s, Apply(c, s, ReadPage(id, urls)), id, false)
  {
    RunningHere(c, s, id);
    WorkMove(c, w, s, Apply(c, s, ReadPage(id, urls)), id);
    PageCost(c, w.maxLinks, s.p.msgs[id].body.searchUrl, NormalPage(s.p.msgs[id].body.page), urls);
  }

  lemma FetchMove(c: Settings, w: Window, s: Pipe, id: nat, status: int, html: string)
    requires Base(c, s) && G.Kinds(c, s) && Enabled(c, s, StoreFetch(id, status, html))
    ensures id in s.p.msgs && MoveOk(c, w, s, Apply(c, s, StoreFetch(id, status, html)), id, false)
  {
    RunningHere(c, s, id);
    L.QueueNamesDiffer();
    assert G.KindOk(s, id);
    WorkMove(c, w, s, Apply(c, s, StoreFetch(id, status, html)), id);
    OneCost(c, w.maxLinks, P.Sent(LISTINGS_PARSE, ParseTask(s.t.nextFetch, s.work[id].url)));
  }

  lemma ParseMove(c: Settings, w: Window, s: Pipe, id: nat, r: Parsed)
    requires Base(c, s) && Enabled(c, s, StoreParse(id, r))
    ensures id in s.p.msgs && MoveOk(c, w, s, Apply(c, s, StoreParse(id, r)), id, false)
  {
    RunningHere(c, s, id);
    L.QueueNamesDiffer();
    WorkMove(c, w, s, Apply(c, s, StoreParse(id, r)), id);
    OneCost(c, w.maxLinks, P.Sent(SELLERS_ENRICH, EnrichTask(r.seller.olxUserId)));
  }

  /** Reading a page, storing, passing a gate, marking: the broker does not move. */
  lemma InnerMove(c: Settings, w: Window, s: Pipe, a: Action)
    requires Base(c, s) && G.Kinds(c, s) && Inner(a) && Enabled(c, s, a) && Bounded(w, s, a)
    requires !a.ReadProfile?
    ensures a.id in s.p.msgs && MoveOk(c, w, s, Apply(c, s, a), a.id, false)
  {
    match a
    case ReadPage(id, urls) => PageMove(c, w, s, id, urls);
    case StoreFetch(id, status, html) => FetchMove(c, w, s, id, status, html);
    case StoreParse(id, r) => ParseMove(c, w, s, id, r);
    case PassFetchGate(id) => WorkMove(c, w, s, Apply(c, s, a), id);
    case PassEnrichGate(id) => WorkMove(c, w, s, Apply(c, s, a), id);
    case Mark(id) => WorkMove(c, w, s, Apply(c, s, a), id);
    case _ =>
  }

  lemma OneCost(c: Settings, links: nat, sent: P.Sent)
    ensures TodoCost(c, links, [sent]) == NewCost(c, links, sent) + 1
  {
    assert [sent][1..] == [];
  }

  /** Reading a profile may raise the weight by the price of one fan-out. */
  lemma ProfileMove(c: Settings, w: Window, s: Pipe, id: nat, urls: seq<string>)
    requires Base(c, s) && Enabled(c, s, ReadProfile(id, urls)) && |urls| <= w.maxLinks
    ensures id in s.p.msgs
    ensures var s' := Apply(c, s, ReadProfile(id, urls));
      After(c, w.maxLinks, s', id) + After(c, w.maxLinks, s', s.p.next) + 1
      <= Weight(c, w.maxLinks, s, id) + UnitPrice(c, w)
  {
    RunningHere(c, s, id);
    LinksCost(c, w.maxLinks, urls);
    PayLinksGrows(c, |urls|, w.maxLinks);
  }

  /** A new task has full rounds ahead of it. */
  lemma PublishedWeight(c: Settings, links: nat, s: Pipe, sent: P.Sent)
    requires Base(c, s) && sent.queue in WORK_QUEUES
    ensures var s' := PublishNext(s, sent);
      s.p.next in s'.p.msgs && Weight(c, links, s', s.p.next) == NewCost(c, links, sent)
  {
    P.ApplyDirect(c.proto, s.p, P.Publish(sent.queue, sent.body));
  }

  /** After a publish: the new task at full weight, everything of message id as before. */
  lemma PublishMove(c: Settings, w: Window, s: Pipe, id: nat, sent: P.Sent)
    requires Base(c, s) && c.maxPage >= 1 && id in s.work && sent.queue in WORK_QUEUES
    ensures var s', links := PublishNext(s, sent), w.maxLinks;
      && id in s.p.msgs && id in s'.p.msgs && Weight(c, links, s', id) == Weight(c, links, s, id)
      && s.p.next in s'.p.msgs && Weight(c, links, s', s.p.next) == NewCost(c, links, sent)
      && id in s'.work && s'.work == s.work && Base(c, s')
      && s'.p.next == s.p.next + 1
  {
    RunningHere(c, s, id);
    PublishedWeight(c, w.maxLinks, s, sent);
    EventFrame(c.proto, s.p, P.Publish(sent.queue, sent.body), id);
    PublishKeepsBase(c, s, sent);
    P.ApplyDirect(c.proto, s.p, P.Publish(sent.queue, sent.body));
  }

  lemma SentMove(c: Settings, w: Window, s: Pipe, id: nat)
    requires Base(c, s) && c.maxPage >= 1 && Enabled(c, s, Send(id, P.Attempt(true, Nil)))
    ensures var s' := Apply(c, s, Send(id, P.Attempt(true, Nil))); var links := w.maxLinks;
      id in s.p.msgs && After(c, links, s', id) + After(c, links, s', s.p.next) + 1 <= Weight(c, links, s, id)
  {
    assert WorkOk(s, id);
    var sent := s.work[id].todo[0];
    PublishMove(c, w, s, id, sent);
    var s1 := PublishNext(s, sent);
    var s' := Apply(c, s, Send(id, P.Attempt(true, Nil)));
    WorkMove(c, w, s1, s', id);
    assert Weight(c, w.maxLinks, s', s.p.next) == Weight(c, w.maxLinks, s1, s.p.next) by { RunningHere(c, s, id);
      NewIsIdle(c, s, sent); }
  }

  lemma NewIsIdle(c: Settings, s: Pipe, sent: P.Sent)
    requires Base(c, s) && sent.queue in WORK_QUEUES
    ensures var s' := PublishNext(s, sent); s.p.next in s'.p.msgs && !s'.p.msgs[s.p.next].unacked
  {
    P.ApplyDirect(c.proto, s.p, P.Publish(sent.queue, sent.body));
  }

  lemma SendFailedMove(c: Settings, w: Window, s: Pipe, id: nat, attempt: P.Attempt)
    requires Base(c, s) && c.maxPage >= 1 && Enabled(c, s, Send(id, attempt)) && attempt.outcome != Nil
    ensures var s' := Apply(c, s, Send(id, attempt)); var links := w.maxLinks;
      id in s.p.msgs && After(c, links, s', id) + After(c, links, s', s.p.next) <= Weight(c, links, s, id)
        + 2 * Heaviest(c, w)
  {
    RunningHere(c, s, id);
    assert WorkOk(s, id);
    var sent := s.work[id].todo[0];
    NewCostBounded(c, w, sent.queue, sent.body);
    var s1 := if attempt.taken then PublishNext(s, sent) else s;
    if attempt.taken {
      PublishMove(c, w, s, id, sent);
      NewIsIdle(c, s, sent);
    }
    FinishedWeight(c, w, s1, id, attempt.outcome);
    EventFrame(c.proto, s1.p, P.HandlerReturns(id, attempt.outcome), s.p.next);
  }

  // ---- what an action leaves alone ----

  /** The message an action is about; none for the clock and for outside publishes. */
  function Actor(a: Action): Option<nat> {
    match a
    case Broker(e) => Subject(e)
    case External(_, _) => None
    case _ => Some(a.id)
  }

  predicate FrameAt(s: Pipe, s': Pipe, k: nat) {
    && SameAt(s.p, s'.p, k)
    && (k in s'.work <==> k in s.work) && (k in s.work ==> s'.work[k] == s.work[k])
  }

  lemma SendFrame(c: Settings, s: Pipe, id: nat, attempt: P.Attempt, k: nat)
    requires Base(c, s) && Enabled(c, s, Send(id, attempt))
    ensures k in Apply(c, s, Send(id, attempt)).p.msgs ==> k in s.p.msgs || k == s.p.next
    ensures k != s.p.next && k != id ==> FrameAt(s, Apply(c, s, Send(id, attempt)), k)
  {
    assert WorkOk(s, id);
    var sent := s.work[id].todo[0];
    if attempt.taken { EventFrame(c.proto, s.p, P.Publish(sent.queue, sent.body), k); }
  }

  /** An action touches the message it is about, and may add message next. */
  lemma ActionFrame(c: Settings, s: Pipe, a: Action, k: nat)
    requires Base(c, s) && Enabled(c, s, a) && !a.External?
    ensures k in Apply(c, s, a).p.msgs ==> k in s.p.msgs || k == s.p.next
    ensures k != s.p.next && Actor(a) != Some(k) ==> FrameAt(s, Apply(c, s, a), k)
  {
    match a
    case Broker(e) => EventFrame(c.proto, s.p, e, k);
    case Call(id) => EventFrame(c.proto, s.p, P.Start(id), k);
    case Send(id, attempt) => SendFrame(c, s, id, attempt, k);
    case _ =>
  }

  lemma FrameWeight(c: Settings, links: nat, s: Pipe, s': Pipe, k: nat)
    requires k in s.p.msgs && FrameAt(s, s', k)
    ensures k in s'.p.msgs && Weight(c, links, s', k) == Weight(c, links, s, k)
  {
  }

  // ---- the messages' share of the potential ----

  /** What the one message an action is about, and the one it may add, weigh afterwards. */
  lemma ActorMove(c: Settings, w: Window, s: Pipe, a: Action, id: nat)
    requires G.Kinds(c, s) && c.maxPage >= 1 && Enabled(c, s, a) && Bounded(w, s, a) && Actor(a) == Some(id)
    ensures id in s.p.msgs
    ensures var s', links := Apply(c, s, a), w.maxLinks;
      After(c, links, s', id) + After(c, links, s', s.p.next) + 1 <= Weight(c, links, s, id)
        + (if Fault(s, a) then 2 * Heaviest(c, w) + 1 else 0) + (if a.ReadProfile? then UnitPrice(c, w) else 0)
  {
    match a
    case Broker(e) => BrokerMove(c, w, s, e);
    case Call(_) => CallMove(c, w, s, id);
    case Skip(_) => assert WorkOk(s, id); FinishMove(c, w, s, id, Nil);
    case Fail(_, outcome) => FinishMove(c, w, s, id, outcome);
    case Return(_) => FinishMove(c, w, s, id, Nil);
    case ReadProfile(_, urls) => ProfileMove(c, w, s, id, urls);
    case Send(_, attempt) =>
      if attempt.outcome == Nil { SentMove(c, w, s, id); } else { SendFailedMove(c, w, s, id, attempt); }
    case External(_, _) =>
    case ReadPage(_, _) => InnerMove(c, w, s, a);
    case PassFetchGate(_) => InnerMove(c, w, s, a);
    case StoreFetch(_, _, _) => InnerMove(c, w, s, a);
    case StoreParse(_, _) => InnerMove(c, w, s, a);
    case PassEnrichGate(_) => InnerMove(c, w, s, a);
    case Mark(_) => InnerMove(c, w, s, a);
  }

  /** The sum moves by what the acting message and the new one weigh. */
  lemma ActorSum(c: Settings, links: nat, s: Pipe, a: Action, id: nat)
    requires Base(c, s) && Enabled(c, s, a) && Actor(a) == Some(id) && id in s.p.msgs
    ensures var s' := Apply(c, s, a);
      Sum(Weights(c, links, s')) ==
      Sum(Weights(c, links, s)) - Weight(c, links, s, id) + After(c, links, s', id) + After(c, links, s', s.p.next)
  {
    var s' := Apply(c, s, a);
    assert P.IdOk(c.proto, s.p, s.p.next);
    forall k | k in s.p.msgs && k != id
      ensures k in s'.p.msgs && Weight(c, links, s', k) == Weight(c, links, s, k)
    {
      ActionFrame(c, s, a, k);
      FrameWeight(c, links, s, s', k);
    }
    forall k | k in s'.p.msgs ensures k in s.p.msgs || k == s.p.next { ActionFrame(c, s, a, k); }
    SumOfWeights(c, links, s, s', id);
  }

  lemma MessagesStep(c: Settings, w: Window, s: Pipe, a: Action)
    requires Inv(c, w, s) && Enabled(c, s, a) && Bounded(w, s, a) && Actor(a).Some?
    ensures Sum(Weights(c, w.maxLinks, Apply(c, s, a))) + 1 <= Sum(Weights(c, w.maxLinks, s))
        + (if Fault(s, a) then 2 * Heaviest(c, w) + 1 else 0) + (if a.ReadProfile? then UnitPrice(c, w) else 0)
  {
    var id := Actor(a).value;
    ActorMove(c, w, s, a, id);
    ActorSum(c, w.maxLinks, s, a, id);
  }

  /** The clock changes no weight. */
  lemma ClockStep(c: Settings, links: nat, s: Pipe, d: nat)
    requires Enabled(c, s, Broker(P.Tick(d)))
    ensures Weights(c, links, Apply(c, s, Broker(P.Tick(d)))) == Weights(c, links, s)
  {
    var s' := Apply(c, s, Broker(P.Tick(d)));
    forall k | k in s.p.msgs ensures Weight(c, links, s', k)
      == Weight(c, links, s, k) { FrameWeight(c, links, s, s', k); }
  }

  // ---- the sellers' share ----

  /** The seller an interrupted fan-out was for. */
  predicate Interrupts(s: Pipe, a: Action, user: string) {
    Fault(s, a) && Actor(a).Some? && Fans(s, Actor(a).value, user)
  }

  lemma StampsLast(c: Settings, w: Window, s: Pipe, a: Action, user: string)
    requires Inv(c, w, s) && Enabled(c, s, a)
    ensures StampedSince(s, user, w.start) ==> StampedSince(Apply(c, s, a), user, w.start)
    ensures a.Mark? && Fans(s, a.id, user) ==> StampedSince(Apply(c, s, a), user, w.start)
  {
    G.EnrichedAfter(c, s, a, user);
  }

  /** A fan-out under way goes on, unless it is the actor's own: then it is stamped or interrupted. */
  lemma FanGoesOn(c: Settings, w: Window, s: Pipe, a: Action, user: string, j: nat)
    requires Inv(c, w, s) && Enabled(c, s, a) && Bounded(w, s, a) && Fans(s, j, user)
    ensures Fans(Apply(c, s, a), j, user) || (a.Mark? && a.id == j) || (Interrupts(s, a, user) && Actor(a) == Some(j))
  {
    RunningHere(c, s, j);
    ActionFrame(c, s, a, j);
    if a.Skip? { assert WorkOk(s, a.id); }
  }

  lemma ReserveStep(c: Settings, w: Window, s: Pipe, a: Action, user: string)
    requires Inv(c, w, s) && Enabled(c, s, a) && Bounded(w, s, a)
    ensures SetAside(c, w, Apply(c, s, a), user) <= SetAside(c, w, s, user) + if Interrupts(s, a, user)
      then UnitPrice(c, w) else 0
  {
    StampsLast(c, w, s, a, user);
    if !StampedSince(s, user, w.start) && Fanning(s, user) {
      var j :| Fans(s, j, user);
      FanGoesOn(c, w, s, a, user, j);
    }
  }

  /** Reading a profile starts the one fan-out its seller gets. */
  lemma ProfileStartsFanOut(c: Settings, w: Window, s: Pipe, id: nat, urls: seq<string>)
    requires Inv(c, w, s) && Enabled(c, s, ReadProfile(id, urls))
    ensures var user := s.work[id].user;
      && user in w.users && !StampedSince(s, user, w.start) && !Fanning(s, user)
      && Fanning(Apply(c, s, ReadProfile(id, urls)), user)
  {
    var user := s.work[id].user;
    assert G.EnrichOk(c, s, id);
    assert G.KindOk(s, id);
    assert Fans(Apply(c, s, ReadProfile(id, urls)), id, user);
    forall j | Fans(s, j, user) ensures false {
      assert G.KindOk(s, j);
      G.Alone(c, s, id, j);
      assert false;
    }
  }

  lemma SumAllBut<K>(m: map<K, nat>, m': map<K, nat>, k: K)
    requires m.Keys == m'.Keys && k in m && forall j | j in m && j != k :: m'[j] <= m[j]
    ensures Sum(m') + m[k] <= Sum(m) + m'[k]
  {
    SumTake(m, k);
    SumTake(m', k);
    SumBelow(m' - {k}, m - {k});
  }

  lemma SellersStep(c: Settings, w: Window, s: Pipe, a: Action)
    requires Inv(c, w, s) && Enabled(c, s, a) && Bounded(w, s, a)
    ensures Sum(Reserves(c, w, Apply(c, s, a))) + (if a.ReadProfile? then UnitPrice(c, w) else 0)
            <= Sum(Reserves(c, w, s)) + if Fault(s, a) then UnitPrice(c, w) else 0
  {
    var m, m' := Reserves(c, w, s), Reserves(c, w, Apply(c, s, a));
    forall u | u in w.users ensures m'[u] <= m[u] + if Interrupts(s, a, u) then UnitPrice(c, w)
      else 0 { ReserveStep(c, w, s, a, u); }
    assert m.Keys == w.users == m'.Keys;
    if a.ReadProfile? {
      ProfileStartsFanOut(c, w, s, a.id, a.urls);
      SumAllBut(m, m', s.work[a.id].user);
    } else if Fault(s, a) && exists u :: u in w.users && Interrupts(s, a, u) {
      var v :| v in w.users && Interrupts(s, a, v);
      SumAllBut(m, m', v);
    } else {
      SumBelow(m', m);
    }
  }

  // ---- one step, then whole runs ----

  lemma EventNow(c: P.Config, p: P.State, e: P.Event)
    requires P.Inv(c, p) && P.Enabled(c, p, e)
    ensures P.Apply(p, e).now == p.now + if e.Tick? then e.d else 0
  {
    P.ApplyDirect(c, p, e);
  }

  lemma SendNow(c: Settings, s: Pipe, id: nat, attempt: P.Attempt)
    requires Base(c, s) && Enabled(c, s, Send(id, attempt))
    ensures Apply(c, s, Send(id, attempt)).p.now == s.p.now
  {
    assert WorkOk(s, id);
    if attempt.taken { EventNow(c.proto, s.p, P.Publish(s.work[id].todo[0].queue, s.work[id].todo[0].body)); }
  }

  lemma InnerNow(c: Settings, s: Pipe, a: Action)
    requires Inner(a) && Enabled(c, s, a)
    ensures Apply(c, s, a).p == s.p
  {
  }

  lemma FinishNow(s: Pipe, id: nat, outcome: Outcome)
    ensures Finish(s, id, outcome).p.now == s.p.now
  {
  }

  lemma NowAfter(c: Settings, s: Pipe, a: Action)
    requires Base(c, s) && Enabled(c, s, a)
    ensures Apply(c, s, a).p.now == s.p.now + if a.Broker? && a.e.Tick? then a.e.d else 0
  {
    if a.Broker? { EventNow(c.proto, s.p, a.e); }
    else if a.External? { EventNow(c.proto, s.p, P.Publish(a.queue, a.body)); }
    else if a.Send? { SendNow(c, s, a.id, a.attempt); }
    else if Inner(a) { InnerNow(c, s, a); }
    else if a.Call? { EventNow(c.proto, s.p, P.Start(a.id)); }
    else { FinishNow(s, a.id, if a.Fail? then a.outcome else Nil); }
  }

  lemma UsersAfter(c: Settings, s: Pipe, a: Action, user: string)
    requires Enabled(c, s, a) && user in Apply(c, s, a).t.sellers
    ensures user in s.t.sellers || (a.StoreParse? && user == a.r.seller.olxUserId)
  {
  }

  lemma StepKeeps(c: Settings, w: Window, s: Pipe, a: Action)
    requires Inv(c, w, s) && Enabled(c, s, a) && Bounded(w, s, a)
    ensures Inv(c, w, Apply(c, s, a))
  {
    var s' := Apply(c, s, a);
    G.EnrichStep(c, s, a);
    NowAfter(c, s, a);
    forall u | u in s'.t.sellers ensures u in w.users { UsersAfter(c, s, a, u); }
  }

  lemma StepDecreases(c: Settings, w: Window, s: Pipe, a: Action)
    requires Inv(c, w, s) && Enabled(c, s, a) && Bounded(w, s, a)
    ensures Apply(c, s, a).p.now <= w.deadline
    ensures Potential(c, w, Apply(c, s, a)) + 1 <= Potential(c, w, s) + if Fault(s, a) then FaultPrice(c, w) else 0
  {
    SellersStep(c, w, s, a);
    NowAfter(c, s, a);
    if Actor(a).Some? {
      MessagesStep(c, w, s, a);
    } else {
      ClockStep(c, w.maxLinks, s, a.e.d);
    }
  }

  /** A run from s to u inside the window with at most so many faults. */
  ghost predicate WindowRun(c: Settings, w: Window, s: Pipe, acts: seq<Action>, u: Pipe, faults: int)
    decreases |acts|
  {
    if acts == [] then s == u && faults >= 0
    else Enabled(c, s, acts[0]) && Bounded(w, s, acts[0])
         && WindowRun(c, w, Apply(c, s, acts[0]), acts[1..], u, faults - if Fault(s, acts[0]) then 1 else 0)
  }

  function Times(price: nat, n: nat): nat { if n == 0 then 0 else price + Times(price, n - 1) }

  lemma {:induction false} TimesIs(price: nat, n: nat)
    ensures Times(price, n) == price * n
  {
    if n > 0 { TimesIs(price, n - 1); }
  }

  /** The same run paid from a credit, a fixed price a fault. */
  ghost predicate PaidRun(c: Settings, w: Window, s: Pipe, acts: seq<Action>, price: nat, credit: int)
    decreases |acts|
  {
    if acts == [] then credit >= 0
    else Enabled(c, s, acts[0]) && Bounded(w, s, acts[0])
         && PaidRun(c, w, Apply(c, s, acts[0]), acts[1..], price, credit - if Fault(s, acts[0]) then price else 0)
  }

  lemma {:induction false} RunIsPaid(c: Settings, w: Window, s: Pipe, acts: seq<Action>, u: Pipe, price: nat,
                                     faults: int)
    requires WindowRun(c, w, s, acts, u, faults)
    ensures faults >= 0 && PaidRun(c, w, s, acts, price, Times(price, faults))
    decreases |acts|
  {
    if acts != [] {
      RunIsPaid(c, w, Apply(c, s, acts[0]), acts[1..], u, price, faults - if Fault(s, acts[0]) then 1 else 0);
    }
  }

  lemma {:induction false} RunLength(c: Settings, w: Window, s: Pipe, acts: seq<Action>, price: nat, credit: int)
    requires Inv(c, w, s) && PaidRun(c, w, s, acts, price, credit) && price == FaultPrice(c, w)
    ensures |acts| <= Potential(c, w, s) + credit
    decreases |acts|
  {
    if acts != [] {
      StepKeeps(c, w, s, acts[0]);
      RunLength(c, w, Apply(c, s, acts[0]), acts[1..], price, credit - if Fault(s, acts[0]) then price else 0);
      StepDecreases(c, w, s, acts[0]);
    }
  }

  // ---- main results ----

  /** From any state the crawler can be in, a run with the scheduler silent, the clock inside one freshness window,
      boundedly many links a page and finitely many faults is no longer than a number fixed by that state, the
      settings and the number of faults. */
  lemma {:induction false} EveryRunStops(c: Settings, topo: Topology, now: nat, before: seq<Action>, s: Pipe,
                                         w: Window, acts: seq<Action>, u: Pipe, faults: nat)
    requires GoodSettings(c) && Ready(topo, WORK_QUEUES) && GoodWindow(c, w)
    requires Reaches(c, Init(topo, now), before, s)
    requires w.start <= s.p.now <= w.deadline && s.t.sellers.Keys <= w.users
    requires WindowRun(c, w, s, acts, u, faults)
    ensures |acts| <= Potential(c, w, s) + FaultPrice(c, w) * faults
  {
    InitBase(c, topo, now);
    G.EnrichInvAlways(c, Init(topo, now), before, s);
    var price := FaultPrice(c, w);
    RunIsPaid(c, w, s, acts, u, price, faults);
    RunLength(c, w, s, acts, price, Times(price, faults));
    TimesIs(price, faults);
  }
}
