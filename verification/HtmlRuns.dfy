/** Runs that strand a stored page, and exactly which settings have none. */
module HtmlRuns {
  import opened Common
  import opened Tasks
  import opened Topology
  import opened Consumer
  import P = RetryProtocol
  import opened Store
  import opened Pipeline
  import opened HtmlClaim
  import opened HtmlOnce
  import L = Lineage

  const URL := "u"
  const BODY: Body := FetchTask(URL)
  const TASK := P.Sent(LISTINGS_FETCH, BODY)

  // ---- runs from state to state ----

  /** Some run leads from s to u; without a crash if so asked. */
  ghost predicate Leads(c: Settings, s: Pipe, u: Pipe, crashFree: bool) {
    exists acts :: Reaches(c, s, acts, u) && (crashFree ==> CrashFree(acts))
  }

  lemma LeadsOne(c: Settings, s: Pipe, a: Action)
    requires Base(c, s) && Enabled(c, s, a)
    ensures Leads(c, s, Apply(c, s, a), !(a.Broker? && a.e.ChannelLost?)) && Base(c, Apply(c, s, a))
  {
    assert [a][1..] == [];
    assert Reaches(c, s, [a], Apply(c, s, a));
    StepKeepsBase(c, s, a);
  }

  lemma LeadsOn(c: Settings, s: Pipe, u: Pipe, v: Pipe, f: bool, g: bool)
    requires Leads(c, s, u, f) && Leads(c, u, v, g)
    ensures Leads(c, s, v, f && g)
  {
    var a :| Reaches(c, s, a, u) && (f ==> CrashFree(a));
    var b :| Reaches(c, u, b, v) && (g ==> CrashFree(b));
    Concat(c, s, a, u, b, v);
    assert Reaches(c, s, a + b, v) && (f && g ==> CrashFree(a + b));
  }

  /** Two actions in a row, neither a crash. */
  lemma LeadsTwo(c: Settings, s: Pipe, a: Action, s1: Pipe, b: Action)
    requires Base(c, s) && Enabled(c, s, a) && s1 == Apply(c, s, a) && Enabled(c, s1, b)
    requires !(a.Broker? && a.e.ChannelLost?) && !(b.Broker? && b.e.ChannelLost?)
    ensures Leads(c, s, Apply(c, s1, b), true) && Base(c, Apply(c, s1, b))
  {
    LeadsOne(c, s, a);
    LeadsOne(c, s1, b);
    LeadsOn(c, s, s1, Apply(c, s1, b), true, true);
  }

  // ---- scenes: between two deliveries ----

  /** Nothing is out, no copy is dead, and all that was ever published are fetch tasks of the one url. */
  ghost predicate Still(c: Settings, s: Pipe) {
    && Base(c, s) && s.work == map[] && s.p.copies == map[]
    && (forall k | k in s.p.msgs :: !s.p.msgs[k].unacked)
    && (forall k | k in s.p.routed :: s.p.routed[k] == TASK)
  }

  /** Message id waits in the fetch queue with budget left. */
  ghost predicate Waits(c: Settings, s: Pipe, id: nat) {
    && id in s.p.msgs && s.p.msgs[id].queue == LISTINGS_FETCH
    && P.RejectionsOf(s.p, id) < c.proto.Budget(LISTINGS_FETCH)
  }

  /** Message id waits there after so many rejections. */
  ghost predicate Home(s: Pipe, id: nat, rejected: int) {
    id in s.p.msgs && s.p.msgs[id].queue == LISTINGS_FETCH && P.RejectionsOf(s.p, id) == rejected
  }

  /** Message id was parked in the retry queue at that time, after so many rejections. */
  ghost predicate Parked(s: Pipe, id: nat, since: nat, rejected: int) {
    && id in s.p.msgs && s.p.msgs[id].queue == RetryName(LISTINGS_FETCH) && s.p.msgs[id].since == since
    && P.RejectionsOf(s.p, id) == rejected
  }

  /** Nothing happened to message k. */
  ghost predicate Untouched(s: Pipe, u: Pipe, k: nat) {
    && (k in s.p.msgs <==> k in u.p.msgs) && (k in s.p.msgs ==> u.p.msgs[k] == s.p.msgs[k])
    && P.RejectionsOf(u.p, k) == P.RejectionsOf(s.p, k)
  }

  /** The tables and origins after message id stored one more page, or found the url gone. */
  ghost predicate OneMoreRow(s: Pipe, u: Pipe, id: nat, status: int, html: Option<string>) {
    && u.t == InsertFetch(s.t, URL, status, html, s.p.now)
    && u.origin == s.origin[s.t.nextFetch := Origin(id, s.p.next)]
  }

  ghost predicate SameRows(s: Pipe, u: Pipe) { u.t == s.t && u.origin == s.origin }

  // ---- one action or two ----

  lemma Publishes(c: Settings, s: Pipe, k: nat) returns (u: Pipe)
    requires Still(c, s)
    ensures Leads(c, s, u, true) && Still(c, u) && Waits(c, u, s.p.next) && SameRows(s, u)
    ensures u.p.now == s.p.now && u.p.next == s.p.next + 1 && P.RejectionsOf(u.p, s.p.next) == 0
    ensures k < s.p.next ==> Untouched(s, u, k)
  {
    StageQueues();
    P.ApplyDirect(c.proto, s.p, P.Publish(LISTINGS_FETCH, BODY));
    assert P.IdOk(c.proto, s.p, s.p.next);
    LeadsOne(c, s, External(LISTINGS_FETCH, BODY));
    u := Apply(c, s, External(LISTINGS_FETCH, BODY));
  }

  lemma TimePasses(c: Settings, s: Pipe, d: nat) returns (u: Pipe)
    requires Still(c, s) && d > 0
    ensures u == s.(p := s.p.(now := s.p.now + d)) && Leads(c, s, u, true) && Still(c, u)
  {
    LeadsOne(c, s, Broker(P.Tick(d)));
    u := Apply(c, s, Broker(P.Tick(d)));
  }

  /** A parked message comes back when its TTL has run out. */
  lemma Returns(c: Settings, s: Pipe, id: nat, since: nat, rejected: int, k: nat) returns (u: Pipe)
    requires Still(c, s) && Parked(s, id, since, rejected) && s.p.now >= since + RETRY_TTL
    ensures Leads(c, s, u, true) && Still(c, u) && Home(u, id, rejected) && SameRows(s, u)
    ensures u.p.now == s.p.now && u.p.next == s.p.next && (k != id ==> Untouched(s, u, k))
  {
    StageQueues();
    L.QueueNamesDiffer();
    assert P.IdOk(c.proto, s.p, id);
    RoutesWithinStage(s.p.topo, WORK_QUEUES, LISTINGS_FETCH);
    P.ApplyDirect(c.proto, s.p, P.Expire(id));
    LeadsOne(c, s, Broker(P.Expire(id)));
    u := Apply(c, s, Broker(P.Expire(id)));
  }

  /** Message id is out and its handler runs; nothing else is out. */
  ghost predicate Only(c: Settings, s: Pipe, id: nat) {
    && Base(c, s) && s.p.copies == map[] && id in s.p.msgs && s.p.msgs[id].unacked
    && s.p.msgs[id].queue == LISTINGS_FETCH && s.p.msgs[id].body == BODY
    && s.work.Keys == {id} && id in s.p.tasks && s.p.tasks[id] == P.Handling
    && (forall k | k in s.p.msgs && k != id :: !s.p.msgs[k].unacked)
    && (forall k | k in s.p.routed :: s.p.routed[k] == TASK)
  }

  /** The delivery of a message in the fetch queue. */
  lemma Delivered(c: Settings, s: Pipe, id: nat)
    requires Still(c, s) && Home(s, id, P.RejectionsOf(s.p, id))
    ensures Enabled(c, s, Broker(P.Deliver(id)))
    ensures var s1 := Apply(c, s, Broker(P.Deliver(id)));
      && s1 == s.(p := s.p.(msgs := s.p.msgs[id := s.p.msgs[id].(unacked := true)], tasks := s.p.tasks[id := P.AtGate]))
      && (Waits(c, s, id) ==> Enabled(c, s1, Call(id))) && s1.p.msgs[id].body == BODY
  {
    StageQueues();
    assert P.IdOk(c.proto, s.p, id);
    P.OutAtHome(c.proto, s.p, id);
  }

  /** Delivery and the handler call. */
  lemma Delivers(c: Settings, s: Pipe, id: nat, k: nat) returns (u: Pipe)
    requires Still(c, s) && Waits(c, s, id)
    ensures Leads(c, s, u, true) && Only(c, u, id) && u.work[id] == Begin && SameRows(s, u)
    ensures u.p.now == s.p.now && u.p.next == s.p.next && P.RejectionsOf(u.p, id) == P.RejectionsOf(s.p, id)
    ensures k != id ==> Untouched(s, u, k)
  {
    Delivered(c, s, id);
    var s1 := Apply(c, s, Broker(P.Deliver(id)));
    LeadsTwo(c, s, Broker(P.Deliver(id)), s1, Call(id));
    u := Apply(c, s1, Call(id));
  }

  /** The gate is open: the page is stored, or found gone, and a publish is left if there is one. */
  lemma Stores(c: Settings, s: Pipe, id: nat, status: int) returns (u: Pipe)
    requires Only(c, s, id) && s.work[id] == Begin && !FetchGateCloses(c, s.t, URL, s.p.now) && status in {200, 404}
    ensures Leads(c, s, u, true) && Only(c, u, id)
    ensures OneMoreRow(s, u, id, status, if status == 200 then Some("") else None) && u.p == s.p
    ensures u.work[id].Sending? && (if status == 200 then u.work[id].todo != [] else u.work[id] == Sending([], Done))
  {
    var s1 := Apply(c, s, PassFetchGate(id));
    LeadsTwo(c, s, PassFetchGate(id), s1, StoreFetch(id, status, ""));
    u := Apply(c, s1, StoreFetch(id, status, ""));
  }

  /** The consumer dies: the broker takes the delivery back. */
  lemma Crashes(c: Settings, s: Pipe, id: nat) returns (u: Pipe)
    requires Only(c, s, id) && P.RejectionsOf(s.p, id) < c.proto.Budget(LISTINGS_FETCH)
    ensures Leads(c, s, u, false) && Still(c, u) && Waits(c, u, id) && SameRows(s, u)
    ensures u.p.now == s.p.now && u.p.next == s.p.next
  {
    LeadsOne(c, s, Broker(P.ChannelLost(id)));
    u := Apply(c, s, Broker(P.ChannelLost(id)));
  }

  /** What the settlement of a finished handler leaves. */
  lemma Settled(c: Settings, s: Pipe, id: nat, outcome: Outcome, k: nat)
    requires Only(c, s, id)
    ensures var s1, e := Finish(s, id, outcome), P.Event.Settle(id);
      && Base(c, s1) && Enabled(c, s1, Broker(e))
      && var u := Apply(c, s1, Broker(e));
      && SameRows(s, u) && u.p.now == s.p.now && u.p.next == s.p.next
      && u.work == map[] && u.p.copies == map[] && u.p.routed == s.p.routed
      && (forall j | j in u.p.msgs :: !u.p.msgs[j].unacked) && (k != id ==> Untouched(s, u, k))
      && if outcome == Nil then id !in u.p.msgs else Parked(u, id, s.p.now, P.RejectionsOf(s.p, id) + 1)
  {
    var s1 := Finish(s, id, outcome);
    FinishKeepsBase(c, s, id, outcome);
    assert P.IdOk(c.proto, s1.p, id);
    P.ApplyDirect(c.proto, s1.p, P.Event.Settle(id));
  }

  /** The handler is over and its settlement reaches the broker. */
  lemma Settles(c: Settings, s: Pipe, id: nat, a: Action, outcome: Outcome, k: nat) returns (u: Pipe)
    requires Only(c, s, id) && Enabled(c, s, a) && !a.Broker? && Apply(c, s, a) == Finish(s, id, outcome)
    ensures Leads(c, s, u, true) && Still(c, u) && SameRows(s, u)
    ensures u.p.now == s.p.now && u.p.next == s.p.next && (k != id ==> Untouched(s, u, k))
    ensures if outcome == Nil then id !in u.p.msgs else Parked(u, id, s.p.now, P.RejectionsOf(s.p, id) + 1)
  {
    var s1 := Finish(s, id, outcome);
    Settled(c, s, id, outcome, k);
    LeadsTwo(c, s, a, s1, Broker(P.Event.Settle(id)));
    u := Apply(c, s1, Broker(P.Event.Settle(id)));
  }

  // ---- one whole handling ----

  /** The page is stored and its publish fails: the message is parked. */
  lemma StoresAndFails(c: Settings, s: Pipe, id: nat, k: nat) returns (u: Pipe)
    requires Still(c, s) && Waits(c, s, id) && !FetchGateCloses(c, s.t, URL, s.p.now)
    ensures Leads(c, s, u, true) && Still(c, u) && OneMoreRow(s, u, id, 200, Some(""))
    ensures u.p.now == s.p.now && u.p.next == s.p.next && (k != id ==> Untouched(s, u, k))
    ensures Parked(u, id, s.p.now, P.RejectionsOf(s.p, id) + 1)
  {
    var s1 := Delivers(c, s, id, k);
    var s2 := Stores(c, s1, id, 200);
    LeadsOn(c, s, s1, s2, true, true);
    u := Settles(c, s2, id, Send(id, P.Attempt(false, Error)), Error, k);
    LeadsOn(c, s, s2, u, true, true);
  }

  /** The page is stored and the consumer dies before the publish. */
  lemma StoresAndCrashes(c: Settings, s: Pipe, id: nat) returns (u: Pipe)
    requires Still(c, s) && Waits(c, s, id) && !FetchGateCloses(c, s.t, URL, s.p.now)
    ensures Leads(c, s, u, false) && Still(c, u) && Waits(c, u, id) && OneMoreRow(s, u, id, 200, Some(""))
    ensures u.p.now == s.p.now && u.p.next == s.p.next
  {
    var s1 := Delivers(c, s, id, id);
    var s2 := Stores(c, s1, id, 200);
    LeadsOn(c, s, s1, s2, true, true);
    u := Crashes(c, s2, id);
    LeadsOn(c, s, s2, u, true, false);
  }

  /** A young row of the url closes the gate: nil, ack, gone. */
  lemma GatedAway(c: Settings, s: Pipe, id: nat, k: nat) returns (u: Pipe)
    requires Still(c, s) && Waits(c, s, id) && FetchGateCloses(c, s.t, URL, s.p.now)
    ensures Leads(c, s, u, true) && Still(c, u) && id !in u.p.msgs && SameRows(s, u)
    ensures u.p.now == s.p.now && u.p.next == s.p.next && (k != id ==> Untouched(s, u, k))
  {
    var s1 := Delivers(c, s, id, k);
    u := Settles(c, s1, id, Skip(id), Nil, k);
    LeadsOn(c, s, s1, u, true, true);
  }

  /** The url turns out gone: a row without html, ack, nothing published. */
  lemma FoundGone(c: Settings, s: Pipe, id: nat) returns (u: Pipe)
    requires Still(c, s) && Waits(c, s, id) && !FetchGateCloses(c, s.t, URL, s.p.now)
    ensures Leads(c, s, u, true) && Still(c, u) && id !in u.p.msgs && OneMoreRow(s, u, id, 404, None)
    ensures u.p.next == s.p.next
  {
    var s1 := Delivers(c, s, id, id);
    var s2 := Stores(c, s1, id, 404);
    LeadsOn(c, s, s1, s2, true, true);
    u := Settles(c, s2, id, Return(id), Nil, id);
    LeadsOn(c, s, s2, u, true, true);
  }

  /** The handler fails before it does anything: the message is parked again. */
  lemma FailsAgain(c: Settings, s: Pipe, id: nat, since: nat, rejected: int, k: nat) returns (u: Pipe)
    requires Still(c, s) && Parked(s, id, since, rejected) && since <= s.p.now
    requires rejected < c.proto.Budget(LISTINGS_FETCH)
    ensures Leads(c, s, u, true) && Still(c, u) && SameRows(s, u) && Parked(u, id, u.p.now, rejected + 1)
    ensures u.p.next == s.p.next && (k != id ==> Untouched(s, u, k))
  {
    var s1 := TimePasses(c, s, RETRY_TTL);
    var s2 := Returns(c, s1, id, since, rejected, k);
    LeadsOn(c, s, s1, s2, true, true);
    var s3 := Delivers(c, s2, id, k);
    LeadsOn(c, s, s2, s3, true, true);
    u := Settles(c, s3, id, Fail(id, Error), Error, k);
    LeadsOn(c, s, s3, u, true, true);
  }

  /** It keeps failing until the budget is used up. */
  lemma {:induction false} UsesUp(c: Settings, s: Pipe, id: nat, since: nat, rejected: int, k: nat)
    returns (u: Pipe, at: nat)
    requires Still(c, s) && Parked(s, id, since, rejected) && since <= s.p.now
    requires rejected <= c.proto.Budget(LISTINGS_FETCH)
    ensures Leads(c, s, u, true) && Still(c, u) && SameRows(s, u)
    ensures at <= u.p.now && Parked(u, id, at, c.proto.Budget(LISTINGS_FETCH))
    ensures u.p.next == s.p.next && (k != id ==> Untouched(s, u, k))
    decreases c.proto.Budget(LISTINGS_FETCH) - rejected
  {
    if rejected == c.proto.Budget(LISTINGS_FETCH) {
      u, at := s, since;
      Stays(c, s);
    } else {
      var s1 := FailsAgain(c, s, id, since, rejected, k);
      u, at := UsesUp(c, s1, id, s1.p.now, rejected + 1, k);
      LeadsOn(c, s, s1, u, true, true);
    }
  }

  lemma Stays(c: Settings, s: Pipe)
    ensures Leads(c, s, s, true)
  {
    assert Reaches(c, s, [], s);
  }

  /** The promotion and its ack. */
  lemma Promoted(c: Settings, s: Pipe, id: nat)
    requires Base(c, s) && id in s.p.msgs && id in s.p.tasks && s.p.tasks[id] == P.AtGate
    requires P.RejectionsOf(s.p, id) == c.proto.Budget(LISTINGS_FETCH) && s.p.msgs[id].queue == LISTINGS_FETCH
    ensures var a, e := Broker(P.Promote(id, P.Attempt(true, Nil))), Broker(P.Event.Settle(id));
      && Enabled(c, s, a) && Enabled(c, Apply(c, s, a), e)
      && var u := Apply(c, Apply(c, s, a), e);
      && SameRows(s, u) && u.p.routed == s.p.routed && id !in u.p.msgs && u.p.copies.Keys == s.p.copies.Keys + {id}
      && forall k | k < s.p.next && k in u.p.msgs :: k in s.p.msgs
  {
    assert P.IdOk(c.proto, s.p, id) && P.IdOk(c.proto, s.p, s.p.next);
    P.ApplyDirect(c.proto, s.p, P.Promote(id, P.Attempt(true, Nil)));
  }

  /** With the budget used up it is promoted: a dead copy, and nothing left in the stage. */
  lemma Dies(c: Settings, s: Pipe, id: nat) returns (u: Pipe)
    requires Still(c, s) && Home(s, id, c.proto.Budget(LISTINGS_FETCH))
    ensures Leads(c, s, u, true) && SameRows(s, u) && u.p.routed == s.p.routed && id !in u.p.msgs
    ensures u.p.copies.Keys == {id} && forall k | k < s.p.next && k in u.p.msgs :: k in s.p.msgs
  {
    Delivered(c, s, id);
    LeadsOne(c, s, Broker(P.Deliver(id)));
    var s1 := Apply(c, s, Broker(P.Deliver(id)));
    var a := Broker(P.Promote(id, P.Attempt(true, Nil)));
    Promoted(c, s1, id);
    LeadsTwo(c, s1, a, Apply(c, s1, a), Broker(P.Event.Settle(id)));
    u := Apply(c, Apply(c, s1, a), Broker(P.Event.Settle(id)));
    LeadsOn(c, s, s1, u, true, true);
  }

  // ---- the gate ----

  /** A row of the url younger than the interval closes it. */
  lemma YoungRowCloses(c: Settings, t: Tables, now: nat, k: nat)
    requires k < |t.fetches| && t.fetches[k].url == URL
    requires 1 <= t.fetches[k].fetchedAt && now - t.fetches[k].fetchedAt < c.minRefetch
    requires forall r | r in t.fetches :: r.fetchedAt <= now
    ensures FetchGateCloses(c, t, URL, now)
  {
    LatestIsNewest(t.fetches, URL);
    assert t.fetches[k] in t.fetches;
  }

  /** Only old rows leave it open. */
  lemma OldRowsLeaveOpen(c: Settings, t: Tables, now: nat)
    requires forall r | r in t.fetches && r.url == URL :: now - r.fetchedAt >= c.minRefetch
    ensures !FetchGateCloses(c, t, URL, now)
  {
    LatestIsNewest(t.fetches, URL);
  }

  // ---- the runs ----

  /** From an empty crawler, a moment after it starts: one fetch task waits. */
  lemma Starts(c: Settings, topo: Topology, now: nat) returns (u: Pipe)
    requires GoodSettings(c) && Ready(topo, WORK_QUEUES)
    ensures Leads(c, Init(topo, now), u, true) && Still(c, u) && Waits(c, u, 0)
    ensures u.t == NO_ROWS && u.origin == map[] && u.p.now >= 1 && u.p.next == 1 && P.RejectionsOf(u.p, 0) == 0
    ensures !FetchGateCloses(c, u.t, URL, u.p.now)
  {
    var s0 := Init(topo, now);
    InitBase(c, topo, now);
    var s1 := TimePasses(c, s0, 1);
    u := Publishes(c, s1, 0);
    LeadsOn(c, s0, s1, u, true, true);
    OldRowsLeaveOpen(c, u.t, u.p.now);
  }

  /** The first row is a page stored by message 0. */
  ghost predicate FirstRow(s: Pipe) {
    |s.t.fetches| > 0 && s.t.fetches[0].html.Some? && s.t.fetches[0].id in s.origin
    && s.origin[s.t.fetches[0].id].message == 0
  }

  /** Where only fetch tasks were ever published and message 0 is gone, the first page was not handed on as read
      literally, and not at all if every later row is a page too. */
  lemma Stranded(s: Pipe)
    requires FirstRow(s) && 0 !in s.p.msgs && 0 !in s.p.copies && forall k | k in s.p.routed :: s.p.routed[k] == TASK
    ensures !LiteralClaim(s)
    ensures (forall j | 0 <= j < |s.t.fetches| :: s.t.fetches[j].html.Some?) ==> !Claim(s)
  {
    L.QueueNamesDiffer();
    forall r, m: nat ensures !RelayedBy(s, r, m) {
      if m in s.p.routed { assert s.p.routed[m] == TASK; }
    }
    assert !Pending(s, 0);
    if forall j | 0 <= j < |s.t.fetches| :: s.t.fetches[j].html.Some? {
      forall j: nat ensures !Answers(s, 0, j) {}
      assert !Answered(s, 0);
    }
  }

  /** Message 0 was the only one, and it is gone. */
  lemma OneIsOver(c: Settings, s: Pipe)
    requires Base(c, s) && s.p.next == 1 && 0 !in s.p.msgs
    ensures Over(s)
  {
    forall id | id in s.p.routed ensures !P.StillLive(s.p, id) { assert P.IdOk(c.proto, s.p, id); }
  }

  /** Any positive refetch interval: a crash between insert and publish strands the page at once. */
  lemma CrashStrandsPage(c: Settings, topo: Topology, now: nat) returns (u: Pipe)
    requires GoodSettings(c) && Ready(topo, WORK_QUEUES) && c.minRefetch > 0
    ensures Leads(c, Init(topo, now), u, false) && Over(u) && !Claim(u)
  {
    var s0 := Init(topo, now);
    var s1 := Starts(c, topo, now);
    var s2 := StoresAndCrashes(c, s1, 0);
    LeadsOn(c, s0, s1, s2, true, false);
    YoungRowCloses(c, s2.t, s2.p.now, 0);
    u := GatedAway(c, s2, 0, 0);
    LeadsOn(c, s0, s2, u, false, true);
    OneIsOver(c, u);
    Stranded(u);
  }

  /** Two fetch tasks for one url wait. */
  lemma TwoWait(c: Settings, topo: Topology, now: nat) returns (u: Pipe)
    requires GoodSettings(c) && Ready(topo, WORK_QUEUES)
    ensures Leads(c, Init(topo, now), u, true) && Still(c, u) && Waits(c, u, 0) && Waits(c, u, 1)
    ensures u.t == NO_ROWS && u.origin == map[] && P.RejectionsOf(u.p, 0) == 0 && u.p.next == 2
  {
    var s := Starts(c, topo, now);
    u := Publishes(c, s, 0);
    LeadsOn(c, Init(topo, now), s, u, true, true);
  }

  /** Message 0 stored the one page at that time and is parked. */
  ghost predicate OneStored(c: Settings, s: Pipe, at: Time) {
    && Still(c, s) && Parked(s, 0, at, 1) && FirstRow(s)
    && |s.t.fetches| == 1 && s.t.fetches[0].url == URL && s.t.fetches[0].fetchedAt == at && s.t.nextFetch == 2
    && s.t.fetches[0].id == 1
  }

  lemma FirstParks(c: Settings, topo: Topology, now: nat) returns (u: Pipe)
    requires GoodSettings(c) && Ready(topo, WORK_QUEUES)
    ensures Leads(c, Init(topo, now), u, true) && OneStored(c, u, u.p.now) && Waits(c, u, 1) && u.p.next == 2
  {
    var s := TwoWait(c, topo, now);
    OldRowsLeaveOpen(c, s.t, s.p.now);
    u := StoresAndFails(c, s, 0, 1);
    LeadsOn(c, Init(topo, now), s, u, true, true);
  }

  /** Both pages are stored, the second by message 1 just now; message 0 is parked since the first. */
  ghost predicate TwoStored(c: Settings, s: Pipe, at: Time) {
    && Still(c, s) && Parked(s, 0, at, 1) && FirstRow(s) && s.p.next == 2
    && |s.t.fetches| == 2 && s.t.fetches[0].fetchedAt <= s.p.now && s.t.fetches[1].html.Some?
    && s.t.fetches[1].url == URL && s.t.fetches[1].fetchedAt == s.p.now
  }

  /** When the gate is open again message 1 stores the page once more and is parked. */
  lemma SecondParks(c: Settings, s: Pipe, at: Time) returns (u: Pipe, n: int)
    requires OneStored(c, s, at) && Waits(c, s, 1) && s.p.now >= at + c.minRefetch && s.p.next == 2
    ensures Leads(c, s, u, true) && TwoStored(c, u, at) && u.p.now == s.p.now
    ensures n <= c.proto.Budget(LISTINGS_FETCH) && Parked(u, 1, u.p.now, n)
  {
    n := P.RejectionsOf(s.p, 1) + 1;
    OldRowsLeaveOpen(c, s.t, s.p.now);
    u := StoresAndFails(c, s, 1, 0);
  }

  /** Message 0 comes back to find the second page in the gate. */
  lemma FirstIsGated(c: Settings, s: Pipe, at: Time) returns (u: Pipe)
    requires TwoStored(c, s, at) && at + RETRY_TTL <= s.p.now
    requires c.minRefetch > 0 && c.proto.Budget(LISTINGS_FETCH) >= 2
    ensures Leads(c, s, u, true) && Still(c, u) && 0 !in u.p.msgs && SameRows(s, u)
    ensures u.p.now == s.p.now && u.p.next == 2 && Untouched(s, u, 1)
  {
    var s1 := Returns(c, s, 0, at, 1, 1);
    YoungRowCloses(c, s1.t, s1.p.now, 1);
    u := GatedAway(c, s1, 0, 1);
    LeadsOn(c, s, s1, u, true, true);
  }

  /** Message 1 fails until its budget is used up and comes back once more. */
  lemma SecondUsesUp(c: Settings, s: Pipe, since: nat, rejected: int) returns (u: Pipe)
    requires Still(c, s) && 0 !in s.p.msgs && s.p.next == 2 && Parked(s, 1, since, rejected)
    requires since <= s.p.now && rejected <= c.proto.Budget(LISTINGS_FETCH)
    ensures Leads(c, s, u, true) && Still(c, u) && SameRows(s, u) && 0 !in u.p.msgs && u.p.next == 2
    ensures Home(u, 1, c.proto.Budget(LISTINGS_FETCH))
  {
    var s1, at := UsesUp(c, s, 1, since, rejected, 0);
    var s2 := TimePasses(c, s1, RETRY_TTL);
    LeadsOn(c, s, s1, s2, true, true);
    u := Returns(c, s2, 1, at, c.proto.Budget(LISTINGS_FETCH), 0);
    LeadsOn(c, s, s2, u, true, true);
  }

  /** And is promoted: no message is left but its dead copy. */
  lemma SecondDies(c: Settings, s: Pipe) returns (u: Pipe)
    requires Still(c, s) && 0 !in s.p.msgs && s.p.next == 2 && Home(s, 1, c.proto.Budget(LISTINGS_FETCH))
    ensures Leads(c, s, u, true) && SameRows(s, u) && Over(u) && 0 !in u.p.msgs && 0 !in u.p.copies
    ensures forall k | k in u.p.routed :: u.p.routed[k] == TASK
  {
    assert P.IdOk(c.proto, s.p, 0);
    u := Dies(c, s, 1);
    forall id | id in u.p.routed ensures !P.StillLive(u.p, id) { assert P.IdOk(c.proto, s.p, id); }
  }

  lemma FirstIsGatedSecondReturns(c: Settings, s: Pipe, at: Time, rejected: int) returns (u: Pipe)
    requires TwoStored(c, s, at) && at + RETRY_TTL <= s.p.now
    requires Parked(s, 1, s.p.now, rejected) && rejected <= c.proto.Budget(LISTINGS_FETCH)
    requires c.minRefetch > 0 && c.proto.Budget(LISTINGS_FETCH) >= 2
    ensures Leads(c, s, u, true) && Still(c, u) && SameRows(s, u) && 0 !in u.p.msgs && u.p.next == 2
    ensures Home(u, 1, c.proto.Budget(LISTINGS_FETCH))
  {
    var s1 := FirstIsGated(c, s, at);
    u := SecondUsesUp(c, s1, s.p.now, rejected);
    LeadsOn(c, s, s1, u, true, true);
  }

  lemma TwoPagesStrand(c: Settings, s: Pipe, at: Time, u: Pipe)
    requires TwoStored(c, s, at) && SameRows(s, u) && 0 !in u.p.msgs && 0 !in u.p.copies
    requires forall k | k in u.p.routed :: u.p.routed[k] == TASK
    ensures !Claim(u)
  {
    Stranded(u);
  }

  /** So the first page is stranded for good: no message is left but a dead copy of the second. */
  lemma TwoStoredStrand(c: Settings, s: Pipe, at: Time, rejected: int) returns (u: Pipe)
    requires TwoStored(c, s, at) && at + RETRY_TTL <= s.p.now
    requires Parked(s, 1, s.p.now, rejected) && rejected <= c.proto.Budget(LISTINGS_FETCH)
    requires c.minRefetch > 0 && c.proto.Budget(LISTINGS_FETCH) >= 2
    ensures Leads(c, s, u, true) && Over(u) && !Claim(u)
  {
    var s2 := FirstIsGatedSecondReturns(c, s, at, rejected);
    u := SecondDies(c, s2);
    LeadsOn(c, s, s2, u, true, true);
    TwoPagesStrand(c, s, at, u);
  }

  /** Any positive refetch interval and a second try: failed publishes strand a page without a crash. Two messages
      name the url. Both store it and are parked, the second when the gate is open again; then the first comes back,
      finds the second's row in the gate and is acked; the second fails until it is dead. */
  lemma FailedPublishStrandsPage(c: Settings, topo: Topology, now: nat, setting: int) returns (u: Pipe)
    requires GoodSettings(c) && Ready(topo, WORK_QUEUES)
    requires c.minRefetch > 0 && c.proto.SetTo(LISTINGS_FETCH, setting) && setting != 1
    ensures Leads(c, Init(topo, now), u, true) && Over(u) && !Claim(u)
  {
    var s1 := FirstParks(c, topo, now);
    var s2 := TimePasses(c, s1, if c.minRefetch > RETRY_TTL then c.minRefetch else RETRY_TTL);
    LeadsOn(c, Init(topo, now), s1, s2, true, true);
    var s3, n := SecondParks(c, s2, s1.p.now);
    LeadsOn(c, Init(topo, now), s2, s3, true, true);
    u := TwoStoredStrand(c, s3, s1.p.now, n);
    LeadsOn(c, Init(topo, now), s3, u, true, true);
  }

  /** Gate off: a parked message comes back and finds the url gone. */
  lemma ReturnsToGone(c: Settings, s: Pipe) returns (u: Pipe)
    requires OneStored(c, s, s.p.now)
    requires c.minRefetch == 0 && c.proto.Budget(LISTINGS_FETCH) >= 2
    ensures Leads(c, s, u, true) && Still(c, u) && FirstRow(u) && 0 !in u.p.msgs && u.p.next == s.p.next
  {
    var s1 := TimePasses(c, s, RETRY_TTL);
    var s2 := Returns(c, s1, 0, s.p.now, 1, 0);
    LeadsOn(c, s, s1, s2, true, true);
    u := FoundGone(c, s2, 0);
    LeadsOn(c, s, s2, u, true, true);
  }

  /** One fetch task, stored and parked. */
  lemma OneParks(c: Settings, topo: Topology, now: nat) returns (u: Pipe)
    requires GoodSettings(c) && Ready(topo, WORK_QUEUES)
    ensures Leads(c, Init(topo, now), u, true) && OneStored(c, u, u.p.now) && u.p.next == 1
  {
    var s := Starts(c, topo, now);
    u := StoresAndFails(c, s, 0, 0);
    LeadsOn(c, Init(topo, now), s, u, true, true);
  }

  /** Gate off and a second try: the retry may find the url gone, store a row without html and ack. */
  lemma RetryFindsUrlGone(c: Settings, topo: Topology, now: nat, setting: int) returns (u: Pipe)
    requires GoodSettings(c) && Ready(topo, WORK_QUEUES)
    requires c.minRefetch == 0 && c.proto.SetTo(LISTINGS_FETCH, setting) && setting != 1
    ensures Leads(c, Init(topo, now), u, true) && Over(u) && !LiteralClaim(u)
  {
    var s1 := OneParks(c, topo, now);
    u := ReturnsToGone(c, s1);
    LeadsOn(c, Init(topo, now), s1, u, true, true);
    OneIsOver(c, u);
    Stranded(u);
  }

  /** Gate off: after a crash so may the redelivery, with any budget. */
  lemma RedeliveryFindsUrlGone(c: Settings, topo: Topology, now: nat) returns (u: Pipe)
    requires GoodSettings(c) && Ready(topo, WORK_QUEUES) && c.minRefetch == 0
    ensures Leads(c, Init(topo, now), u, false) && Over(u) && !LiteralClaim(u)
  {
    var s0 := Init(topo, now);
    var s1 := Starts(c, topo, now);
    var s2 := StoresAndCrashes(c, s1, 0);
    LeadsOn(c, s0, s1, s2, true, false);
    u := FoundGone(c, s2, 0);
    LeadsOn(c, s0, s2, u, false, true);
    OneIsOver(c, u);
    Stranded(u);
  }

  // ---- main results ----

  /** The claim holds in every reachable state exactly when the fetch gate is off, and so it is for those states where
      nothing is left to handle: what they miss is missed for good. */
  lemma ClaimIffGateOff(c: Settings, topo: Topology, now: nat)
    requires GoodSettings(c) && Ready(topo, WORK_QUEUES)
    ensures (forall u | Reachable(c, Init(topo, now), u) :: Claim(u)) <==> c.minRefetch == 0
    ensures (forall u | Reachable(c, Init(topo, now), u) && Over(u) :: Claim(u)) <==> c.minRefetch == 0
  {
    if c.minRefetch == 0 {
      forall u | Reachable(c, Init(topo, now), u) ensures Claim(u) {
        var acts :| Reaches(c, Init(topo, now), acts, u);
        ClaimWithGateOff(c, topo, now, acts, u);
      }
    } else {
      var u := CrashStrandsPage(c, topo, now);
    }
  }

  /** Without a crash exactly when the gate is off or there is no second try. */
  lemma CrashFreeClaimIff(c: Settings, topo: Topology, now: nat, setting: int)
    requires GoodSettings(c) && Ready(topo, WORK_QUEUES) && c.proto.SetTo(LISTINGS_FETCH, setting)
    ensures (forall u | ReachableCrashFree(c, Init(topo, now), u) :: Claim(u))
            <==> c.minRefetch == 0 || setting == 1
    ensures (forall u | ReachableCrashFree(c, Init(topo, now), u) && Over(u) :: Claim(u))
            <==> c.minRefetch == 0 || setting == 1
  {
    if c.minRefetch == 0 || setting == 1 {
      forall u | ReachableCrashFree(c, Init(topo, now), u) ensures Claim(u) {
        var acts :| Reaches(c, Init(topo, now), acts, u) && CrashFree(acts);
        if c.minRefetch == 0 {
          ClaimWithGateOff(c, topo, now, acts, u);
        } else {
          LiteralWithBudgetOne(c, topo, now, acts, u);
          LiteralIsStronger(u);
        }
      }
    } else {
      var u := FailedPublishStrandsPage(c, topo, now, setting);
    }
  }

  /** The comment read literally fails in some run whatever the settings. */
  lemma LiteralClaimFails(c: Settings, topo: Topology, now: nat) returns (u: Pipe)
    requires GoodSettings(c) && Ready(topo, WORK_QUEUES)
    ensures Reachable(c, Init(topo, now), u) && Over(u) && !LiteralClaim(u)
  {
    if c.minRefetch == 0 {
      u := RedeliveryFindsUrlGone(c, topo, now);
    } else {
      u := CrashStrandsPage(c, topo, now);
      if LiteralClaim(u) { LiteralIsStronger(u); }
    }
  }

  /** Without a crash it holds in every run exactly when there is no second try. */
  lemma CrashFreeLiteralIff(c: Settings, topo: Topology, now: nat, setting: int)
    requires GoodSettings(c) && Ready(topo, WORK_QUEUES) && c.proto.SetTo(LISTINGS_FETCH, setting)
    ensures (forall u | ReachableCrashFree(c, Init(topo, now), u) :: LiteralClaim(u))
            <==> setting == 1
    ensures (forall u | ReachableCrashFree(c, Init(topo, now), u) && Over(u) :: LiteralClaim(u))
            <==> setting == 1
  {
    if setting == 1 {
      forall u | ReachableCrashFree(c, Init(topo, now), u) ensures LiteralClaim(u) {
        var acts :| Reaches(c, Init(topo, now), acts, u) && CrashFree(acts);
        LiteralWithBudgetOne(c, topo, now, acts, u);
      }
    } else if c.minRefetch == 0 {
      var u := RetryFindsUrlGone(c, topo, now, setting);
    } else {
      var u := FailedPublishStrandsPage(c, topo, now, setting);
      if LiteralClaim(u) { LiteralIsStronger(u); }
    }
  }
}
