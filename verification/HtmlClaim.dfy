/** Is every stored page eventually handed to the parser? Only with the fetch gate off, and then up to a later 4xx. */
module HtmlClaim {
  import opened Common
  import opened Tasks
  import opened Topology
  import opened Consumer
  import P = RetryProtocol
  import opened Store
  import opened Pipeline
  import G = Gates
  import L = Lineage

  /** Message m is the parse task of a stored row and reached the parse queue after the row was stored. */
  ghost predicate RelayedBy(s: Pipe, r: FetchRow, m: nat) {
    && r.id in s.origin && s.origin[r.id].since <= m
    && m in s.p.routed && s.p.routed[m] == P.Sent(LISTINGS_PARSE, ParseTask(r.id, r.url))
  }

  ghost predicate Relayed(s: Pipe, r: FetchRow) { exists m: nat :: RelayedBy(s, r, m) }

  /** Stored row j deals with row i: it is row i or a newer row of the url, and its parse task reached the parse
      queue, or it is newer and found the url gone. */
  ghost predicate Answers(s: Pipe, i: nat, j: nat)
    requires i < |s.t.fetches|
  {
    && i <= j < |s.t.fetches| && s.t.fetches[j].url == s.t.fetches[i].url
    && if s.t.fetches[j].html.Some? then Relayed(s, s.t.fetches[j]) else i < j
  }

  ghost predicate Answered(s: Pipe, i: nat)
    requires i < |s.t.fetches|
  {
    exists j: nat :: Answers(s, i, j)
  }

  /** The message that stored row i is still in its stage or has a dead copy. */
  ghost predicate Pending(s: Pipe, i: nat)
    requires i < |s.t.fetches|
  {
    var r := s.t.fetches[i];
    r.id in s.origin && (P.StillLive(s.p, s.origin[r.id].message) || P.DeadCopy(s.p, s.origin[r.id].message))
  }

  ghost predicate Claim(s: Pipe) {
    forall i | 0 <= i < |s.t.fetches| && s.t.fetches[i].html.Some? :: Answered(s, i) || Pending(s, i)
  }

  // ---- gate off: the invariant ----

  /** What is left to do is the publish of the parse task of row j, which is row i or a newer row of its url. */
  ghost predicate OwedFor(rows: seq<FetchRow>, w: Work, i: nat, j: nat) {
    && i <= j < |rows| && rows[j].url == rows[i].url && rows[j].html.Some?
    && w == Sending([P.Sent(LISTINGS_PARSE, ParseTask(rows[j].id, rows[j].url))], Done)
  }

  ghost predicate Owed(rows: seq<FetchRow>, w: Work, i: nat) { exists j: nat :: OwedFor(rows, w, i, j) }

  /** A live originator that still owes row i: it is not about to be acked, and if it is past the insert then the
      parse task of this or a newer stored row of the url is its one remaining publish. */
  ghost predicate Owes(s: Pipe, o: nat, i: nat) {
    && o in s.p.msgs
    && !(o in s.p.tasks && s.p.tasks[o] == P.Settling(Ack))
    && (o in s.work && s.work[o].Sending? ==> Owed(s.t.fetches, s.work[o], i))
  }

  /** Row ids are used up, and each row knows its originator and when it was stored. */
  ghost predicate Dated(s: Pipe) {
    forall i | 0 <= i < |s.t.fetches| ::
      && s.t.fetches[i].id < s.t.nextFetch && s.t.fetches[i].id in s.origin
      && s.origin[s.t.fetches[i].id].since <= s.p.next
  }

  ghost predicate RowOk(s: Pipe, i: nat) {
    i < |s.t.fetches| ==>
      var r := s.t.fetches[i];
      && r.id in s.origin
      && var o := s.origin[r.id].message;
      && o in s.p.routed && s.p.routed[o].queue == LISTINGS_FETCH
      && s.p.routed[o].body.Json? && s.p.routed[o].body.url == r.url
      && (r.html.Some? ==> Answered(s, i) || o in s.p.copies || Owes(s, o, i))
  }

  ghost predicate FetchingOk(s: Pipe, id: nat) {
    id in s.work && s.work[id].Fetching? ==>
      && id in s.p.routed && s.p.routed[id].queue == LISTINGS_FETCH
      && s.p.routed[id].body.Json? && s.p.routed[id].body.url == s.work[id].url
  }

  ghost predicate Inv(c: Settings, s: Pipe) {
    && G.Kinds(c, s) && Dated(s)
    && (forall id: nat {:trigger FetchingOk(s, id)} :: FetchingOk(s, id))
    && (forall i: nat {:trigger RowOk(s, i)} :: RowOk(s, i))
  }

  /** The message under a running handler is the one that was routed to its queue. */
  lemma Running(c: Settings, s: Pipe, id: nat)
    requires Base(c, s) && id in s.work
    ensures id in s.p.msgs && id in s.p.routed && s.p.routed[id] == P.Sent(s.p.msgs[id].queue, s.p.msgs[id].body)
    ensures id in s.p.tasks && s.p.tasks[id] == P.Handling
  {
    assert WorkOk(s, id) && P.IdOk(c.proto, s.p, id);
    P.OutAtHome(c.proto, s.p, id);
  }

  lemma StepFetching(c: Settings, s: Pipe, a: Action, id: nat)
    requires Base(c, s) && Enabled(c, s, a) && FetchingOk(s, id)
    ensures FetchingOk(Apply(c, s, a), id)
  {
    StepLater(c, s, a);
    if a == PassFetchGate(id) { Running(c, s, id); }
  }

  /** What an action publishes, if it reaches the broker. */
  function Published(s: Pipe, a: Action): Option<P.Sent> {
    if a.External? then Some(P.Sent(a.queue, a.body))
    else if a.Send? && a.attempt.taken && a.id in s.work && s.work[a.id].Sending? && s.work[a.id].todo != [] then
      Some(s.work[a.id].todo[0])
    else None
  }

  lemma PublishedIsRouted(c: Settings, s: Pipe, a: Action)
    requires Base(c, s) && Enabled(c, s, a) && Published(s, a).Some?
    ensures var sent := Published(s, a).value;
      sent.queue in WORK_QUEUES ==> s.p.next in Apply(c, s, a).p.routed && Apply(c, s, a).p.routed[s.p.next] == sent
  {
    var sent := Published(s, a).value;
    if a.Send? { assert WorkOk(s, a.id); }
    P.ApplyDirect(c.proto, s.p, P.Publish(sent.queue, sent.body));
    if a.Send? && a.attempt.outcome != Nil {
      var s1 := PublishNext(s, sent);
      PublishKeepsBase(c, s, sent);
      assert WorkOk(s1, a.id);
      EventLater(c.proto, s1.p, P.HandlerReturns(a.id, a.attempt.outcome));
    }
  }

  // ---- what one protocol event does to an originator ----

  /** Acked away only by a settlement that was due, and due only after a nil return or a dead copy. */
  lemma EventKeepsLive(c: P.Config, p: P.State, e: P.Event, o: nat)
    requires P.Inv(c, p) && P.Enabled(c, p, e)
    requires o in p.routed
    ensures var p' := P.Apply(p, e);
      && (o in p.copies ==> o in p'.copies)
      && (o in p.msgs && !(o in p.tasks && p.tasks[o] == P.Settling(Ack)) && e != P.HandlerReturns(o, Nil) ==>
          o in p'.copies || (o in p'.msgs && !(o in p'.tasks && p'.tasks[o] == P.Settling(Ack))))
  {
    P.ApplyDirect(c, p, e);
    assert P.IdOk(c, p, o) && P.IdOk(c, p, p.next);
    if e.Promote? || e.Settle? { assert P.IdOk(c, p, e.id); }
  }

  // ---- what one action does to a row ----

  lemma RowsKept(c: Settings, s: Pipe, a: Action)
    requires Enabled(c, s, a)
    ensures var s' := Apply(c, s, a);
      && |s.t.fetches| <= |s'.t.fetches| && s.t.nextFetch <= s'.t.nextFetch
      && (forall i | 0 <= i < |s.t.fetches| :: s'.t.fetches[i] == s.t.fetches[i])
      && (forall k | k in s.origin && k < s.t.nextFetch :: k in s'.origin && s'.origin[k] == s.origin[k])
      && (!a.StoreFetch? ==> |s'.t.fetches| == |s.t.fetches|)
  {
  }

  /** The rows of s are still there, in place and with their origins. */
  ghost predicate RowsPrefix(s: Pipe, s': Pipe) {
    && |s.t.fetches| <= |s'.t.fetches|
    && (forall i | 0 <= i < |s.t.fetches| :: s'.t.fetches[i] == s.t.fetches[i])
    && (forall k | k in s.origin && k < s.t.nextFetch :: k in s'.origin && s'.origin[k] == s.origin[k])
  }

  lemma StepDated(c: Settings, s: Pipe, a: Action)
    requires Base(c, s) && Enabled(c, s, a) && Dated(s)
    ensures Dated(Apply(c, s, a))
  {
    RowsKept(c, s, a);
    StepLater(c, s, a);
  }

  lemma RelayedStays(s: Pipe, s': Pipe, j: nat, m: nat)
    requires j < |s.t.fetches| && Dated(s) && RowsPrefix(s, s') && Later(s.p, s'.p)
    requires RelayedBy(s, s.t.fetches[j], m)
    ensures RelayedBy(s', s'.t.fetches[j], m)
  {
  }

  lemma AnsweredStays(s: Pipe, s': Pipe, i: nat)
    requires i < |s.t.fetches| && Dated(s) && RowsPrefix(s, s') && Later(s.p, s'.p) && Answered(s, i)
    ensures Answered(s', i)
  {
    var j: nat :| Answers(s, i, j);
    if s.t.fetches[j].html.Some? {
      var m: nat :| RelayedBy(s, s.t.fetches[j], m);
      RelayedStays(s, s', j, m);
    }
    assert Answers(s', i, j);
  }

  lemma OwedStays(s: Pipe, s': Pipe, w: Work, i: nat)
    requires i < |s.t.fetches| && RowsPrefix(s, s') && Owed(s.t.fetches, w, i)
    ensures Owed(s'.t.fetches, w, i)
  {
    var j: nat :| OwedFor(s.t.fetches, w, i, j);
    assert OwedFor(s'.t.fetches, w, i, j);
  }

  /** Does the handler of message o move in this action? */
  predicate ActorIs(a: Action, o: nat) {
    match a
    case Broker(e) => false
    case External(q, body) => false
    case _ => a.id == o
  }

  lemma FinishKeepsOwing(c: Settings, s: Pipe, id: nat, outcome: Outcome, o: nat, i: nat)
    requires Base(c, s) && id in s.work && (id != o || outcome != Nil)
    requires i < |s.t.fetches| && o in s.p.routed && (o in s.p.copies || Owes(s, o, i))
    ensures o in Finish(s, id, outcome).p.copies || Owes(Finish(s, id, outcome), o, i)
  {
    assert WorkOk(s, id);
    EventKeepsLive(c.proto, s.p, P.HandlerReturns(id, outcome), o);
  }

  lemma PublishKeepsOwing(c: Settings, s: Pipe, sent: P.Sent, o: nat, i: nat)
    requires Base(c, s) && P.Enabled(c.proto, s.p, P.Publish(sent.queue, sent.body))
    requires i < |s.t.fetches| && o in s.p.routed && Owes(s, o, i)
    ensures var s' := PublishNext(s, sent); o in s'.p.routed && (o in s'.p.copies || Owes(s', o, i))
  {
    EventKeepsLive(c.proto, s.p, P.Publish(sent.queue, sent.body), o);
    EventLater(c.proto, s.p, P.Publish(sent.queue, sent.body));
  }

  lemma BrokerKeepsOwing(c: Settings, s: Pipe, a: Action, o: nat, i: nat)
    requires Base(c, s) && Enabled(c, s, a) && (a.Broker? || (a.Call? && a.id != o))
    requires i < |s.t.fetches| && o in s.p.routed && Owes(s, o, i)
    ensures o in Apply(c, s, a).p.copies || Owes(Apply(c, s, a), o, i)
  {
    EventKeepsLive(c.proto, s.p, if a.Broker? then a.e else P.Start(a.id), o);
  }

  lemma InnerKeepsOwing(c: Settings, s: Pipe, a: Action, o: nat, i: nat)
    requires Enabled(c, s, a) && Inner(a) && a.id != o
    requires i < |s.t.fetches| && Owes(s, o, i)
    ensures Owes(Apply(c, s, a), o, i)
  {
    RowsKept(c, s, a);
    if o in s.work && s.work[o].Sending? { OwedStays(s, Apply(c, s, a), s.work[o], i); }
  }

  /** Actions of others, and broker moves, leave an owing message owing, or give it a dead copy. */
  lemma OthersKeepOwing(c: Settings, s: Pipe, a: Action, o: nat, i: nat)
    requires Base(c, s) && Enabled(c, s, a) && !ActorIs(a, o)
    requires i < |s.t.fetches| && o in s.p.routed && Owes(s, o, i)
    ensures o in Apply(c, s, a).p.copies || Owes(Apply(c, s, a), o, i)
  {
    if Inner(a) { InnerKeepsOwing(c, s, a, o, i); }
    else if a.Broker? || a.Call? { BrokerKeepsOwing(c, s, a, o, i); }
    else if a.External? { PublishKeepsOwing(c, s, P.Sent(a.queue, a.body), o, i); }
    else if a.Send? { SendKeepsOwing(c, s, a.id, a.attempt, o, i); }
    else { FinishKeepsOwing(c, s, a.id, if a.Fail? then a.outcome else Nil, o, i); }
  }

  lemma SendKeepsOwing(c: Settings, s: Pipe, id: nat, attempt: P.Attempt, o: nat, i: nat)
    requires Base(c, s) && Enabled(c, s, Send(id, attempt)) && id != o
    requires i < |s.t.fetches| && o in s.p.routed && Owes(s, o, i)
    ensures o in Apply(c, s, Send(id, attempt)).p.copies || Owes(Apply(c, s, Send(id, attempt)), o, i)
  {
    assert WorkOk(s, id);
    var sent := s.work[id].todo[0];
    var s1 := if attempt.taken then PublishNext(s, sent) else s;
    if attempt.taken {
      PublishKeepsOwing(c, s, sent, o, i);
      PublishKeepsBase(c, s, sent);
    }
    if attempt.outcome != Nil { FinishKeepsOwing(c, s1, id, attempt.outcome, o, i); }
  }

  /** The owner publishes: row j is handed on, or the publish failed and the message goes round again. */
  lemma OwnerSends(c: Settings, s: Pipe, o: nat, attempt: P.Attempt, i: nat, j: nat)
    requires Base(c, s) && Dated(s) && Enabled(c, s, Send(o, attempt))
    requires i < |s.t.fetches| && o in s.p.routed && Owes(s, o, i) && OwedFor(s.t.fetches, s.work[o], i, j)
    ensures var s' := Apply(c, s, Send(o, attempt));
      && s'.t == s.t
      && (Relayed(s', s.t.fetches[j]) || o in s'.p.copies || (o !in s'.work && Owes(s', o, i)))
  {
    var s' := Apply(c, s, Send(o, attempt));
    if attempt.taken {
      StageQueues();
      PublishedIsRouted(c, s, Send(o, attempt));
      assert RelayedBy(s', s.t.fetches[j], s.p.next);
    } else {
      FinishKeepsOwing(c, s, o, attempt.outcome, o, i);
    }
  }

  lemma OwnerAnswers(c: Settings, s: Pipe, o: nat, attempt: P.Attempt, i: nat)
    requires Inv(c, s) && Enabled(c, s, Send(o, attempt))
    requires i < |s.t.fetches| && o in s.p.routed && Owes(s, o, i)
    ensures var s' := Apply(c, s, Send(o, attempt));
      s'.t == s.t && (Answered(s', i) || o in s'.p.copies || Owes(s', o, i))
  {
    var j: nat :| OwedFor(s.t.fetches, s.work[o], i, j);
    OwnerSends(c, s, o, attempt, i, j);
    if Relayed(Apply(c, s, Send(o, attempt)), s.t.fetches[j]) {
      assert Answers(Apply(c, s, Send(o, attempt)), i, j);
    }
  }

  lemma OwnerStores(c: Settings, s: Pipe, o: nat, status: int, html: string, i: nat)
    requires Inv(c, s) && Enabled(c, s, StoreFetch(o, status, html))
    requires i < |s.t.fetches| && RowOk(s, i) && o == s.origin[s.t.fetches[i].id].message && Owes(s, o, i)
    ensures var s' := Apply(c, s, StoreFetch(o, status, html));
      |s'.t.fetches| == |s.t.fetches| + 1 && s'.t.fetches[i] == s.t.fetches[i]
      && (Answered(s', i) || Owes(s', o, i))
  {
    var s', n := Apply(c, s, StoreFetch(o, status, html)), |s.t.fetches|;
    assert FetchingOk(s, o);
    assert s'.t.fetches[n].url == s.t.fetches[i].url;
    if status >= 400 {
      assert Answers(s', i, n);
    } else {
      assert OwedFor(s'.t.fetches, s'.work[o], i, n);
    }
  }

  /** With the gate off, no other action of a fetch handler ends without the page being handed on. */
  lemma OwnerMoves(c: Settings, s: Pipe, a: Action, o: nat, i: nat)
    requires Inv(c, s) && Enabled(c, s, a) && c.minRefetch == 0
    requires ActorIs(a, o) && !a.Send? && !a.StoreFetch?
    requires o in s.p.routed && s.p.routed[o].queue == LISTINGS_FETCH && Owes(s, o, i)
    requires i < |s.t.fetches|
    ensures o in Apply(c, s, a).p.copies || Owes(Apply(c, s, a), o, i)
  {
    L.QueueNamesDiffer();
    if o in s.work { Running(c, s, o); assert G.KindOk(s, o); }
    match a
    case Call(id) => EventKeepsLive(c.proto, s.p, P.Start(id), o);
    case Fail(id, outcome) => FinishKeepsOwing(c, s, id, outcome, o, i);
    case _ =>
  }

  lemma OldRow(c: Settings, s: Pipe, a: Action, i: nat)
    requires Inv(c, s) && Enabled(c, s, a) && c.minRefetch == 0
    requires i < |s.t.fetches|
    ensures RowOk(Apply(c, s, a), i)
  {
    var s' := Apply(c, s, a);
    var r := s.t.fetches[i];
    assert RowOk(s, i);
    var o := s.origin[r.id].message;
    RowsKept(c, s, a);
    StepLater(c, s, a);
    if r.html.Some? {
      if Answered(s, i) { AnsweredStays(s, s', i); }
      else if o in s.p.copies { CopiesStay(c, s, a, o); }
      else if !ActorIs(a, o) { OthersKeepOwing(c, s, a, o, i); }
      else if a.Send? { OwnerAnswers(c, s, o, a.attempt, i); }
      else if a.StoreFetch? { OwnerStores(c, s, o, a.status, a.html, i); }
      else { OwnerMoves(c, s, a, o, i); }
    }
  }

  lemma {:induction false} CopiesGrow(c: P.Config, p: P.State, es: seq<P.Event>, p': P.State, o: nat)
    requires P.Inv(c, p) && P.Reaches(c, p, es, p') && o in p.routed && o in p.copies
    ensures o in p'.copies
    decreases |es|
  {
    if es != [] {
      EventKeepsLive(c, p, es[0], o);
      EventLater(c, p, es[0]);
      P.StepKeeps(c, p, es[0]);
      CopiesGrow(c, P.Apply(p, es[0]), es[1..], p', o);
    }
  }

  lemma CopiesStay(c: Settings, s: Pipe, a: Action, o: nat)
    requires Base(c, s) && Enabled(c, s, a) && o in s.p.routed && o in s.p.copies
    ensures o in Apply(c, s, a).p.copies
  {
    StepProjects(c, s, a);
    CopiesGrow(c.proto, s.p, Events(s, a), Apply(c, s, a).p, o);
  }

  /** The row a fetch has just added. */
  lemma NewRow(c: Settings, s: Pipe, a: Action)
    requires Inv(c, s) && Enabled(c, s, a) && a.StoreFetch?
    ensures |Apply(c, s, a).t.fetches| == |s.t.fetches| + 1
    ensures RowOk(Apply(c, s, a), |s.t.fetches|)
  {
    var s', n := Apply(c, s, a), |s.t.fetches|;
    assert FetchingOk(s, a.id);
    Running(c, s, a.id);
    if a.status < 400 { assert OwedFor(s'.t.fetches, s'.work[a.id], n, n); }
  }

  lemma StepRow(c: Settings, s: Pipe, a: Action, i: nat)
    requires Inv(c, s) && Enabled(c, s, a) && c.minRefetch == 0
    ensures RowOk(Apply(c, s, a), i)
  {
    RowsKept(c, s, a);
    if i < |s.t.fetches| { OldRow(c, s, a, i); }
    else if a.StoreFetch? { NewRow(c, s, a); }
  }

  lemma StepKeeps(c: Settings, s: Pipe, a: Action)
    requires Inv(c, s) && Enabled(c, s, a) && c.minRefetch == 0
    ensures Inv(c, Apply(c, s, a))
  {
    var s' := Apply(c, s, a);
    G.StepKinds(c, s, a);
    StepDated(c, s, a);
    forall id: nat ensures FetchingOk(s', id) {
      assert FetchingOk(s, id);
      StepFetching(c, s, a, id);
    }
    forall i: nat ensures RowOk(s', i) { StepRow(c, s, a, i); }
  }

  lemma {:induction false} InvAlways(c: Settings, s: Pipe, acts: seq<Action>, u: Pipe)
    requires Inv(c, s) && Reaches(c, s, acts, u) && c.minRefetch == 0
    ensures Inv(c, u)
    decreases |acts|
  {
    if acts != [] {
      StepKeeps(c, s, acts[0]);
      InvAlways(c, Apply(c, s, acts[0]), acts[1..], u);
    }
  }

  /** Message m0 is the parse task of no stored row, and of none that comes. */
  ghost predicate Stray(s: Pipe, m0: nat) {
    && Dated(s) && m0 < s.p.next && m0 in s.p.routed
    && forall j | 0 <= j < |s.t.fetches| :: !RelayedBy(s, s.t.fetches[j], m0)
  }

  lemma StepStray(c: Settings, s: Pipe, a: Action, m0: nat)
    requires Base(c, s) && Enabled(c, s, a) && Stray(s, m0)
    ensures Stray(Apply(c, s, a), m0)
  {
    RowsKept(c, s, a);
    StepLater(c, s, a);
    StepDated(c, s, a);
  }

  lemma {:induction false} StrayAlways(c: Settings, s: Pipe, acts: seq<Action>, u: Pipe, m0: nat)
    requires Base(c, s) && Stray(s, m0) && Reaches(c, s, acts, u)
    ensures Stray(u, m0)
    decreases |acts|
  {
    if acts != [] {
      StepStray(c, s, acts[0], m0);
      StepKeepsBase(c, s, acts[0]);
      StrayAlways(c, Apply(c, s, acts[0]), acts[1..], u, m0);
    }
  }

  lemma {:induction false} DatedAlways(c: Settings, s: Pipe, acts: seq<Action>, u: Pipe)
    requires Base(c, s) && Dated(s) && Reaches(c, s, acts, u)
    ensures Base(c, u) && Dated(u)
    decreases |acts|
  {
    if acts != [] {
      StepDated(c, s, acts[0]);
      StepKeepsBase(c, s, acts[0]);
      DatedAlways(c, Apply(c, s, acts[0]), acts[1..], u);
    }
  }

  /** A hand-made parse task that names no row of its url stored so far hands nothing on, then or later: not even the
      row that gets the named id afterwards. */
  lemma StrayTaskAnswersNothing(c: Settings, topo: Topology, now: nat, before: seq<Action>, s: Pipe, fetchId: int,
                                url: string, after: seq<Action>, u: Pipe, j: nat)
    requires GoodSettings(c) && Ready(topo, WORK_QUEUES)
    requires Reaches(c, Init(topo, now), before, s)
    requires forall k | 0 <= k < |s.t.fetches| :: s.t.fetches[k].id != fetchId || s.t.fetches[k].url != url
    requires Enabled(c, s, External(LISTINGS_PARSE, ParseTask(fetchId, url)))
    requires Reaches(c, Apply(c, s, External(LISTINGS_PARSE, ParseTask(fetchId, url))), after, u)
    requires j < |u.t.fetches|
    ensures !RelayedBy(u, u.t.fetches[j], s.p.next)
  {
    var a := External(LISTINGS_PARSE, ParseTask(fetchId, url));
    InitBase(c, topo, now);
    DatedAlways(c, Init(topo, now), before, s);
    StepKeepsBase(c, s, a);
    StepDated(c, s, a);
    StageQueues();
    PublishedIsRouted(c, s, a);
    P.ApplyDirect(c.proto, s.p, P.Publish(a.queue, a.body));
    StrayAlways(c, Apply(c, s, a), after, u, s.p.next);
  }

  /** Gate off: in every reachable state every stored page is answered or its message is still there. */
  lemma ClaimWithGateOff(c: Settings, topo: Topology, now: nat, acts: seq<Action>, u: Pipe)
    requires GoodSettings(c) && Ready(topo, WORK_QUEUES)
    requires c.minRefetch == 0
    requires Reaches(c, Init(topo, now), acts, u)
    ensures Claim(u)
  {
    InitBase(c, topo, now);
    InvAlways(c, Init(topo, now), acts, u);
    forall i | 0 <= i < |u.t.fetches| && u.t.fetches[i].html.Some? ensures Answered(u, i) || Pending(u, i) {
      assert RowOk(u, i);
      var o := u.origin[u.t.fetches[i].id].message;
      if !Answered(u, i) {
        assert P.IdOk(c.proto, u.p, o);
        if o in u.p.copies { P.DeadCopyHolds(c.proto, u.p, o); }
      }
    }
  }
}
