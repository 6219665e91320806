/** The retry/dead protocol as a transition system: a broker, the deliveries being dispatched, and a history. */
module RetryProtocol {
  import opened Tasks
  import opened XDeath
  import opened Topology
  import opened Consumer

  /** A message on the broker. since is when it entered its current queue. */
  datatype Message = Message(body: Body, headers: Headers, queue: string, unacked: bool, since: nat)

  datatype Sent = Sent(queue: string, body: Body)

  /** Where dispatch stands with a delivery. */
  datatype Phase = AtGate | Handling | Settling(how: Settlement)

  /** The last five fields only record what happened: what was routed to a work queue, which messages a handler
      finished without error, how often each was rejected, how often promoting it panicked, and dead copies
      (message to copy, and copy to message). */
  datatype State = State(
    topo: Topology,
    msgs: map<nat, Message>,
    next: nat,
    now: nat,
    tasks: map<nat, Phase>,
    routed: map<nat, Sent>,
    handled: set<nat>,
    rejections: map<nat, int>,
    panics: map<nat, int>,
    copies: map<nat, nat>,
    origins: map<nat, nat>)

  /** The work queues, the retry setting of each consumer that has one, and the queues consumed one delivery at a
      time. */
  datatype Config = Config(queues: seq<string>, budgets: map<string, int>, serial: set<string>)
  {
    function Budget(q: string): nat {
      if q in budgets && budgets[q] > 0 then budgets[q] else 5
    }

    /** The consumer of q was given this retry setting; one that was given none has zero. */
    ghost predicate SetTo(q: string, setting: int) {
      if q in budgets then budgets[q] == setting else setting == 0
    }
  }

  /** The broker takes the message or not, and the call returns; a nil error means the broker took it. */
  datatype Attempt = Attempt(taken: bool, outcome: Outcome)
  {
    predicate Possible() { outcome == Nil ==> taken }
  }

  datatype Event =
    | Publish(queue: string, body: Body)
    | Deliver(id: nat)
    | Start(id: nat)                          // budget left: the handler is called
    | HandlerReturns(id: nat, outcome: Outcome)
    | Promote(id: nat, attempt: Attempt)      // budget used up: PublishDead is called
    | Settle(id: nat)                         // the ack or nack reaches the broker
    | SettleLost(id: nat)                     // it does not; dispatch is over all the same
    | ChannelLost(id: nat)                    // crash or dead channel: the broker takes the delivery back
    | Expire(id: nat)                         // the TTL of a retry queue runs out
    | Tick(d: nat)

  // ---- broker moves ----

  datatype Kind = Fresh | CopyOf(origin: nat) | Stray

  function PlaceOne(s: State, q: string, body: Body, headers: Headers, kind: Kind): State {
    s.(msgs := s.msgs[s.next := Message(body, headers, q, false, s.now)],
       next := s.next + 1,
       routed := if kind.Fresh? then s.routed[s.next := Sent(q, body)] else s.routed,
       rejections := if kind.Fresh? then s.rejections[s.next := 0] else s.rejections,
       panics := if kind.Fresh? then s.panics[s.next := 0] else s.panics,
       copies := if kind.CopyOf? then s.copies[kind.origin := s.next] else s.copies,
       origins := if kind.CopyOf? then s.origins[s.next := kind.origin] else s.origins)
  }

  /** One copy in every queue the exchange routes to; none at all when no binding matches. */
  function Place(s: State, qs: seq<string>, body: Body, headers: Headers, kind: Kind): State
    decreases |qs|
  {
    if qs == [] then s
    else Place(PlaceOne(s, qs[0], body, headers, kind), qs[1..], body, headers, kind)
  }

  function PublishWork(s: State, q: string, body: Body): State {
    Place(s, Route(s.topo, EXCHANGE_WORK, q), body, map[], Fresh)
  }

  function DeadHeaders(q: string): Headers {
    map["x-dead-reason" := Text("retries exhausted"), "x-original-queue" := Text(q)]
  }

  function PublishDead(s: State, id: nat): State
    requires id in s.msgs
  {
    var m := s.msgs[id];
    Place(s, Route(s.topo, EXCHANGE_DEAD, DeadName(m.queue)), m.body, DeadHeaders(m.queue), CopyOf(id))
  }

  /** The broker moves a message along its queue's dead-letter arguments; without a destination it is dropped. */
  function DeadLetter(s: State, id: nat, reason: string): State
    requires id in s.msgs
  {
    var m := s.msgs[id];
    var qs := if m.queue in s.topo.queues && s.topo.queues[m.queue].deadLetter.Some? then
                var t := s.topo.queues[m.queue].deadLetter.value; Route(s.topo, t.exchange, t.key)
              else [];
    var h := RecordDeath(m.headers, m.queue, reason);
    if qs == [] then s.(msgs := s.msgs - {id})
    else Place(s.(msgs := s.msgs[id := Message(m.body, h, qs[0], false, s.now)]), qs[1..], m.body, h, Stray)
  }

  function Requeue(s: State, id: nat): State
    requires id in s.msgs
  {
    s.(msgs := s.msgs[id := s.msgs[id].(unacked := false)])
  }

  // ---- events ----

  predicate Enabled(cfg: Config, s: State, e: Event) {
    match e
    case Publish(q, body) => q in cfg.queues || Route(s.topo, EXCHANGE_WORK, q) == []
    case Deliver(id) =>
      && id in s.msgs && !s.msgs[id].unacked && s.msgs[id].queue in cfg.queues
      && (s.msgs[id].queue in cfg.serial ==>
          forall k | k in s.msgs :: !(s.msgs[k].unacked && s.msgs[k].queue == s.msgs[id].queue))
    case Start(id) =>
      && id in s.tasks && s.tasks[id] == AtGate && id in s.msgs
      && XDeathCount(s.msgs[id].headers) < cfg.Budget(s.msgs[id].queue)
    case HandlerReturns(id, outcome) => id in s.tasks && s.tasks[id] == Handling
    case Promote(id, attempt) =>
      && id in s.tasks && s.tasks[id] == AtGate && id in s.msgs
      && XDeathCount(s.msgs[id].headers) >= cfg.Budget(s.msgs[id].queue)
      && attempt.Possible()
    case Settle(id) => id in s.tasks && s.tasks[id].Settling? && id in s.msgs
    case SettleLost(id) => id in s.tasks && s.tasks[id].Settling?
    case ChannelLost(id) => id in s.msgs && s.msgs[id].unacked
    case Expire(id) =>
      && id in s.msgs && !s.msgs[id].unacked && s.msgs[id].queue in s.topo.queues
      && var ttl := s.topo.queues[s.msgs[id].queue].ttl; ttl.Some? && s.now >= s.msgs[id].since + ttl.value
    case Tick(d) => d > 0
  }

  /** Events that move no message between queues. */
  predicate Simple(e: Event) {
    e.Deliver? || e.Start? || e.HandlerReturns? || e.SettleLost? || e.ChannelLost? || e.Tick?
  }

  function ApplySimple(s: State, e: Event): State
    requires Simple(e)
    requires e.Deliver? || e.ChannelLost? ==> e.id in s.msgs
  {
    match e
    case Deliver(id) => s.(msgs := s.msgs[id := s.msgs[id].(unacked := true)], tasks := s.tasks[id := AtGate])
    case Start(id) => s.(tasks := s.tasks[id := Handling])
    case HandlerReturns(id, outcome) =>
      s.(tasks := s.tasks[id := Settling(AfterHandler(outcome))],
         handled := if outcome == Nil then s.handled + {id} else s.handled)
    case SettleLost(id) => s.(tasks := s.tasks - {id})
    case ChannelLost(id) => Requeue(s, id).(tasks := s.tasks - {id})
    case Tick(d) => s.(now := s.now + d)
  }

  function Apply(s: State, e: Event): State
    requires e.Deliver? || e.Promote? || e.Settle? || e.ChannelLost? || e.Expire? ==> e.id in s.msgs
    requires e.Settle? ==> e.id in s.tasks && s.tasks[e.id].Settling?
  {
    match e
    case Publish(q, body) => PublishWork(s, q, body)
    case Promote(id, attempt) =>
      var s1 := if attempt.taken then PublishDead(s, id) else s;
      s1.(tasks := s1.tasks[id := Settling(AfterPromotion(attempt.outcome))],
          panics := if attempt.outcome == Panic && id in s1.panics then s1.panics[id := s1.panics[id] + 1]
            else s1.panics)
    case Settle(id) =>
      var s1 := s.(tasks := s.tasks - {id});
      (match s.tasks[id].how
       case Ack => s1.(msgs := s1.msgs - {id})
       case NackRequeue => Requeue(s1, id)
       case NackToRetry =>
         DeadLetter(s1.(rejections := if id in s1.rejections then s1.rejections[id := s1.rejections[id] + 1]
                        else s1.rejections),
                    id, REJECTED))
    case Expire(id) => DeadLetter(s, id, EXPIRED)
    case _ => ApplySimple(s, e)
  }

  /** t is reached from s by exactly these events. */
  ghost predicate Reaches(cfg: Config, s: State, es: seq<Event>, t: State)
    decreases |es|
  {
    if es == [] then s == t
    else Enabled(cfg, s, es[0]) && Reaches(cfg, Apply(s, es[0]), es[1..], t)
  }

  function Init(topo: Topology, now: nat): State {
    State(topo, map[], 0, now, map[], map[], {}, map[], map[], map[], map[])
  }

  // ---- with the declared topology every move has one destination ----

  lemma PlaceSingle(s: State, q: string, body: Body, headers: Headers, kind: Kind)
    ensures Place(s, [q], body, headers, kind) == PlaceOne(s, q, body, headers, kind)
  {
    assert [q][1..] == [];
  }

  function Rejected(m: Message, now: nat): Message {
    Message(m.body, RecordDeath(m.headers, m.queue, REJECTED), RetryName(m.queue), false, now)
  }

  function Expired(m: Message, home: string, now: nat): Message {
    Message(m.body, RecordDeath(m.headers, m.queue, EXPIRED), home, false, now)
  }

  /** What each event does once routing has been worked out: no topology, no lost message. */
  function Direct(cfg: Config, s: State, e: Event): State
    requires e.Deliver? || e.Promote? || e.Settle? || e.ChannelLost? || e.Expire? ==> e.id in s.msgs
    requires e.Settle? ==> e.id in s.tasks && s.tasks[e.id].Settling?
    requires e.Settle? || e.Promote? ==> e.id in s.rejections && e.id in s.panics
    requires e.Expire? ==> e.id in s.routed
  {
    match e
    case Publish(q, body) => if q in cfg.queues then PlaceOne(s, q, body, map[], Fresh) else s
    case Promote(id, attempt) =>
      var m := s.msgs[id];
      var s1 := if attempt.taken then PlaceOne(s, DeadName(m.queue), m.body, DeadHeaders(m.queue), CopyOf(id)) else s;
      s1.(tasks := s1.tasks[id := Settling(AfterPromotion(attempt.outcome))],
          panics := if attempt.outcome == Panic then s1.panics[id := s1.panics[id] + 1] else s1.panics)
    case Settle(id) =>
      var s1 := s.(tasks := s.tasks - {id});
      (match s.tasks[id].how
       case Ack => s1.(msgs := s1.msgs - {id})
       case NackRequeue => Requeue(s1, id)
       case NackToRetry =>
         s1.(rejections := s1.rejections[id := s1.rejections[id] + 1],
             msgs := s1.msgs[id := Rejected(s1.msgs[id], s.now)]))
    case Expire(id) => s.(msgs := s.msgs[id := Expired(s.msgs[id], s.routed[id].queue, s.now)])
    case _ => ApplySimple(s, e)
  }

  lemma PublishLands(cfg: Config, s: State, q: string, body: Body)
    requires Ready(s.topo, cfg.queues) && q in cfg.queues
    ensures PublishWork(s, q, body) == PlaceOne(s, q, body, map[], Fresh)
  {
    RoutesWithinStage(s.topo, cfg.queues, q);
    PlaceSingle(s, q, body, map[], Fresh);
  }

  lemma DeadPublishLands(cfg: Config, s: State, id: nat)
    requires Ready(s.topo, cfg.queues) && id in s.msgs && s.msgs[id].queue in cfg.queues
    ensures var m := s.msgs[id];
      PublishDead(s, id) == PlaceOne(s, DeadName(m.queue), m.body, DeadHeaders(m.queue), CopyOf(id))
  {
    var m := s.msgs[id];
    RoutesWithinStage(s.topo, cfg.queues, m.queue);
    PlaceSingle(s, DeadName(m.queue), m.body, DeadHeaders(m.queue), CopyOf(id));
  }

  lemma RejectionLands(cfg: Config, s: State, id: nat)
    requires Ready(s.topo, cfg.queues) && id in s.msgs && s.msgs[id].queue in cfg.queues
    ensures DeadLetter(s, id, REJECTED) == s.(msgs := s.msgs[id := Rejected(s.msgs[id], s.now)])
  {
    RoutesWithinStage(s.topo, cfg.queues, s.msgs[id].queue);
    assert [RetryName(s.msgs[id].queue)][1..] == [];
  }

  lemma ExpiryLands(cfg: Config, s: State, id: nat, q: string)
    requires Ready(s.topo, cfg.queues) && q in cfg.queues
    requires id in s.msgs && s.msgs[id].queue == RetryName(q)
    ensures DeadLetter(s, id, EXPIRED) == s.(msgs := s.msgs[id := Expired(s.msgs[id], q, s.now)])
  {
    RoutesWithinStage(s.topo, cfg.queues, q);
    assert [q][1..] == [];
  }

  /** Without a binding behind the dead-letter arguments a nack would lose the message. */
  lemma RejectionWithoutBindingLoses(s: State, id: nat)
    requires id in s.msgs && s.msgs[id].queue in s.topo.queues
    requires var dl := s.topo.queues[s.msgs[id].queue].deadLetter;
      dl.Some? ==> Route(s.topo, dl.value.exchange, dl.value.key) == []
    ensures id !in DeadLetter(s, id, REJECTED).msgs
  {
  }

  // ---- the invariant, one message id at a time ----

  /** A message routed to a work queue and still on the broker: it is in that queue or its retry sibling,
      unchanged, and its headers count its rejections. */
  ghost predicate LiveOk(s: State, id: nat)
    requires id in s.msgs && id in s.routed && id in s.rejections
  {
    var m, sent := s.msgs[id], s.routed[id];
    && m.body == sent.body
    && (m.queue == sent.queue || (m.queue == RetryName(sent.queue) && !m.unacked))
    && XDeathCount(m.headers) == s.rejections[id]
  }

  /** A dead copy sits in the dead queue of its origin's stage, with its origin's body. */
  ghost predicate CopyOk(s: State, id: nat)
    requires id in s.msgs
  {
    && id in s.origins && s.origins[id] in s.routed
    && s.msgs[id].queue == DeadName(s.routed[s.origins[id]].queue)
    && s.msgs[id].body == s.routed[s.origins[id]].body
    && !s.msgs[id].unacked
  }

  /** The budget: a rejection beyond it happens only when promoting the message panicked. */
  ghost predicate BudgetOk(cfg: Config, s: State, id: nat)
    requires id in s.routed && id in s.rejections && id in s.panics
  {
    var budget := cfg.Budget(s.routed[id].queue);
    && s.panics[id] >= 0
    && 0 <= s.rejections[id] <= budget + s.panics[id]
    && (id in s.tasks && s.tasks[id] == Handling ==> s.rejections[id] < budget)
    && (id in s.tasks && s.tasks[id] == Settling(NackToRetry) ==> s.rejections[id] < budget + s.panics[id])
  }

  ghost predicate IdOk(cfg: Config, s: State, id: nat) {
    && (id in s.routed <==> id in s.rejections) && (id in s.routed <==> id in s.panics)
    && (id in s.handled ==> id in s.routed)
    && (id in s.routed ==>
        && id < s.next && s.routed[id].queue in cfg.queues && BudgetOk(cfg, s, id)
        && (id in s.msgs || id in s.handled || id in s.copies))
    && (id in s.msgs ==> id < s.next && if id in s.routed then LiveOk(s, id) else CopyOk(s, id))
    && (id in s.tasks ==>
        && id in s.msgs && id in s.routed && s.msgs[id].unacked
        && (s.tasks[id] == Settling(Ack) ==> id in s.handled || id in s.copies))
    && (id in s.origins ==> id < s.next && id !in s.routed && id in s.msgs)
    && (id in s.copies ==> s.copies[id] in s.origins && s.origins[s.copies[id]] == id)
  }

  /** A serial queue has at most one delivery out. */
  ghost predicate PairOk(cfg: Config, s: State, i: nat, j: nat) {
    (i in s.msgs && j in s.msgs && s.msgs[i].unacked && s.msgs[j].unacked
     && s.msgs[i].queue == s.msgs[j].queue && s.msgs[i].queue in cfg.serial) ==> i == j
  }

  ghost predicate Core(cfg: Config, s: State) {
    && (forall id: nat {:trigger IdOk(cfg, s, id)} :: IdOk(cfg, s, id))
    && (forall i: nat, j: nat {:trigger PairOk(cfg, s, i, j)} :: PairOk(cfg, s, i, j))
  }

  ghost predicate Inv(cfg: Config, s: State) {
    Ready(s.topo, cfg.queues) && Core(cfg, s)
  }

  lemma InitInv(cfg: Config, topo: Topology, now: nat)
    requires Ready(topo, cfg.queues)
    ensures Inv(cfg, Init(topo, now))
  {
  }

  // ---- every event keeps it ----

  /** A work queue is neither its own sibling nor anybody's. */
  ghost predicate WorkName(cfg: Config, q: string) {
    q in cfg.queues && RetryName(q) !in cfg.queues && DeadName(q) !in cfg.queues
  }

  lemma WorkNames(t: Topology, cfg: Config, q: string)
    requires Ready(t, cfg.queues) && q in cfg.queues
    ensures WorkName(cfg, q)
  {
    RoutesWithinStage(t, cfg.queues, q);
  }

  lemma PublishId(cfg: Config, s: State, q: string, body: Body, k: nat)
    requires IdOk(cfg, s, k) && IdOk(cfg, s, s.next) && q in cfg.queues
    requires k in s.copies ==> IdOk(cfg, s, s.copies[k])
    ensures IdOk(cfg, PlaceOne(s, q, body, map[], Fresh), k)
  {
  }

  lemma SimpleId(cfg: Config, s: State, e: Event, k: nat)
    requires IdOk(cfg, s, k) && Simple(e) && Enabled(cfg, s, e)
    requires e.Deliver? && e.id in s.routed ==> WorkName(cfg, s.routed[e.id].queue)
    requires e.Deliver? && e.id in s.origins && s.origins[e.id] in s.routed
      ==> WorkName(cfg, s.routed[s.origins[e.id]].queue)
    ensures IdOk(cfg, ApplySimple(s, e), k)
  {
  }

  lemma PromoteId(cfg: Config, s: State, id: nat, attempt: Attempt, k: nat)
    requires IdOk(cfg, s, k) && IdOk(cfg, s, id) && IdOk(cfg, s, s.next) && Enabled(cfg, s, Promote(id, attempt))
    requires WorkName(cfg, s.routed[id].queue)
    ensures IdOk(cfg, Direct(cfg, s, Promote(id, attempt)), k)
  {
  }

  lemma SettleId(cfg: Config, s: State, id: nat, k: nat)
    requires IdOk(cfg, s, k) && IdOk(cfg, s, id) && Enabled(cfg, s, Settle(id))
    requires s.tasks[id].how != NackToRetry
    ensures IdOk(cfg, Direct(cfg, s, Settle(id)), k)
  {
  }

  lemma RejectId(cfg: Config, s: State, id: nat, k: nat)
    requires IdOk(cfg, s, k) && IdOk(cfg, s, id) && Enabled(cfg, s, Settle(id))
    requires s.tasks[id].how == NackToRetry && s.msgs[id].queue == s.routed[id].queue
    ensures IdOk(cfg, Direct(cfg, s, Settle(id)), k)
  {
    RecordDeathCounts(s.msgs[id].headers, s.msgs[id].queue, REJECTED);
  }

  lemma ExpireId(cfg: Config, s: State, id: nat, k: nat)
    requires IdOk(cfg, s, k) && id in s.msgs && id in s.routed && !s.msgs[id].unacked
    ensures IdOk(cfg, Direct(cfg, s, Expire(id)), k)
  {
    RecordDeathCounts(s.msgs[id].headers, s.msgs[id].queue, EXPIRED);
  }

  /** A delivery that is out is in its own work queue. */
  lemma OutAtHome(cfg: Config, s: State, id: nat)
    requires Inv(cfg, s) && id in s.msgs && (s.msgs[id].unacked || s.msgs[id].queue in cfg.queues)
    ensures id in s.routed && s.msgs[id].queue == s.routed[id].queue
    ensures s.msgs[id].queue in cfg.queues && WorkName(cfg, s.msgs[id].queue)
  {
    assert IdOk(cfg, s, id);
    var home := if id in s.routed then id else s.origins[id];
    assert IdOk(cfg, s, home);
    WorkNames(s.topo, cfg, s.routed[home].queue);
  }

  /** Only a message parked in a retry queue can expire. */
  lemma ExpiresFromRetry(cfg: Config, s: State, id: nat)
    requires Inv(cfg, s) && Enabled(cfg, s, Expire(id))
    ensures id in s.routed && s.msgs[id].queue == RetryName(s.routed[id].queue)
    ensures s.routed[id].queue in cfg.queues
    ensures s.now >= s.msgs[id].since + RETRY_TTL
  {
    assert IdOk(cfg, s, id);
    var home := if id in s.routed then id else s.origins[id];
    assert IdOk(cfg, s, home);
    RoutesWithinStage(s.topo, cfg.queues, s.routed[home].queue);
  }

  lemma SettleDirect(cfg: Config, s: State, id: nat)
    requires Inv(cfg, s) && Enabled(cfg, s, Event.Settle(id))
    ensures id in s.rejections && id in s.panics
    ensures Apply(s, Event.Settle(id)) == Direct(cfg, s, Event.Settle(id))
  {
    assert IdOk(cfg, s, id);
    OutAtHome(cfg, s, id);
    RejectionLands(cfg, s.(tasks := s.tasks - {id}, rejections := s.rejections[id := s.rejections[id] + 1]), id);
  }

  /** With the declared topology, events do exactly what Direct says. */
  lemma ApplyDirect(cfg: Config, s: State, e: Event)
    requires Inv(cfg, s) && Enabled(cfg, s, e)
    ensures e.Expire? ==> e.id in s.routed
    ensures e.Settle? || e.Promote? ==> e.id in s.rejections && e.id in s.panics
    ensures Apply(s, e) == Direct(cfg, s, e)
  {
    match e
    case Publish(q, body) => if q in cfg.queues { PublishLands(cfg, s, q, body); }
    case Promote(id, attempt) =>
      assert IdOk(cfg, s, id);
      OutAtHome(cfg, s, id);
      DeadPublishLands(cfg, s, id);
    case Settle(id) => SettleDirect(cfg, s, id);
    case Expire(id) =>
      ExpiresFromRetry(cfg, s, id);
      ExpiryLands(cfg, s, id, s.routed[id].queue);
    case _ =>
  }

  lemma StepId(cfg: Config, s: State, e: Event, k: nat)
    requires Inv(cfg, s) && Enabled(cfg, s, e)
    ensures IdOk(cfg, Apply(s, e), k)
  {
    ApplyDirect(cfg, s, e);
    assert IdOk(cfg, s, k) && IdOk(cfg, s, s.next);
    match e
    case Publish(q, body) =>
      if k in s.copies { assert IdOk(cfg, s, s.copies[k]); }
      if q in cfg.queues { PublishId(cfg, s, q, body, k); }
    case Promote(id, attempt) =>
      assert IdOk(cfg, s, id);
      OutAtHome(cfg, s, id);
      PromoteId(cfg, s, id, attempt, k);
    case Settle(id) =>
      assert IdOk(cfg, s, id);
      OutAtHome(cfg, s, id);
      if s.tasks[id].how == NackToRetry { RejectId(cfg, s, id, k); } else { SettleId(cfg, s, id, k); }
    case Expire(id) => ExpireId(cfg, s, id, k);
    case Deliver(id) =>
      OutAtHome(cfg, s, id);
      assert IdOk(cfg, s, id);
      SimpleId(cfg, s, e, k);
    case _ => SimpleId(cfg, s, e, k);
  }

  lemma StepPair(cfg: Config, s: State, e: Event, i: nat, j: nat)
    requires Enabled(cfg, s, e) && PairOk(cfg, s, i, j)
    requires e.Expire? ==> e.id in s.routed
    requires e.Settle? || e.Promote? ==> e.id in s.rejections && e.id in s.panics
    ensures PairOk(cfg, Direct(cfg, s, e), i, j)
  {
  }

  lemma StepKeeps(cfg: Config, s: State, e: Event)
    requires Inv(cfg, s) && Enabled(cfg, s, e)
    ensures Inv(cfg, Apply(s, e))
  {
    var s' := Apply(s, e);
    forall k: nat ensures IdOk(cfg, s', k) { StepId(cfg, s, e, k); }
    ApplyDirect(cfg, s, e);
    forall i: nat, j: nat ensures PairOk(cfg, s', i, j) {
      assert PairOk(cfg, s, i, j);
      StepPair(cfg, s, e, i, j);
    }
  }

  lemma {:induction false} InvAlways(cfg: Config, s: State, es: seq<Event>, t: State)
    requires Inv(cfg, s) && Reaches(cfg, s, es, t)
    ensures Inv(cfg, t)
    decreases |es|
  {
    if es != [] {
      StepKeeps(cfg, s, es[0]);
      InvAlways(cfg, Apply(s, es[0]), es[1..], t);
    }
  }

  // ---- the protocol takes the paths dispatch takes ----

  /** From the gate there is one way on: what Dispatch of a subscription built with the consumer's setting does.
      Below its limit the handler is called, at it or above the promotion is tried, and how that call comes back
      decides the settlement. */
  lemma DispatchFollowsPolicy(cfg: Config, s: State, id: nat, setting: int, sub: Subscription, handler: Outcome,
                              attempt: Attempt)
    requires Inv(cfg, s) && id in s.tasks && s.tasks[id] == AtGate && attempt.Possible()
    requires id in s.routed && cfg.SetTo(s.routed[id].queue, setting)
    requires sub.maxRetries == if setting <= 0 then 5 else setting
    ensures id in s.msgs
    ensures var count := XDeathCount(s.msgs[id].headers);
      var trace := Policy(count, sub.maxRetries, handler, attempt.outcome);
      && (Enabled(cfg, s, Start(id)) <==> count < sub.maxRetries)
      && (Enabled(cfg, s, Promote(id, attempt)) <==> count >= sub.maxRetries)
      && if trace[0] == CallHandler then
           && Enabled(cfg, s, Start(id))
           && Enabled(cfg, Apply(s, Start(id)), HandlerReturns(id, handler))
           && Apply(Apply(s, Start(id)), HandlerReturns(id, handler)).tasks == s.tasks[id := Settling(trace[1].how)]
         else
           && Enabled(cfg, s, Promote(id, attempt))
           && Apply(s, Promote(id, attempt)).tasks == s.tasks[id := Settling(trace[1].how)]
  {
    assert IdOk(cfg, s, id);
    OutAtHome(cfg, s, id);
    if XDeathCount(s.msgs[id].headers) >= cfg.Budget(s.msgs[id].queue) {
      ApplyDirect(cfg, s, Promote(id, attempt));
    } else {
      assert s.tasks[id := Handling][id := Settling(AfterHandler(handler))]
        == s.tasks[id := Settling(AfterHandler(handler))];
    }
  }

  /** What may go wrong does go wrong in the model: a handler may come back any way there is, a promotion too whether or
      not the broker has the copy, a settlement may be lost, and any delivery that is out may be taken back. */
  lemma AnythingCanFail(cfg: Config, s: State, id: nat, outcome: Outcome, taken: bool)
    requires Inv(cfg, s) && id in s.msgs && s.msgs[id].unacked
    ensures Enabled(cfg, s, ChannelLost(id))
    ensures id in s.tasks ==>
      match s.tasks[id]
      case AtGate => XDeathCount(s.msgs[id].headers) >= cfg.Budget(s.msgs[id].queue) && (outcome == Nil ==> taken)
                     ==> Enabled(cfg, s, Promote(id, Attempt(taken, outcome)))
      case Handling => Enabled(cfg, s, HandlerReturns(id, outcome))
      case Settling(_) => Enabled(cfg, s, Event.Settle(id)) && Enabled(cfg, s, SettleLost(id))
  {
  }

  lemma HandledStep(cfg: Config, s: State, e: Event, id: nat)
    requires Inv(cfg, s) && Enabled(cfg, s, e)
    ensures id in Apply(s, e).handled <==> id in s.handled || e == HandlerReturns(id, Nil)
  {
    ApplyDirect(cfg, s, e);
  }

  lemma {:induction false} HandledFrom(cfg: Config, s: State, es: seq<Event>, t: State, id: nat)
    requires Inv(cfg, s) && Reaches(cfg, s, es, t)
    ensures id in t.handled <==> id in s.handled || HandlerReturns(id, Nil) in es
    decreases |es|
  {
    if es != [] {
      HandledStep(cfg, s, es[0], id);
      StepKeeps(cfg, s, es[0]);
      HandledFrom(cfg, Apply(s, es[0]), es[1..], t, id);
    }
  }

  /** Handled means what it says: a handler run on the message returned without error. */
  lemma HandledMeans(cfg: Config, topo: Topology, now: nat, es: seq<Event>, t: State, id: nat)
    requires Ready(topo, cfg.queues)
    requires Reaches(cfg, Init(topo, now), es, t)
    ensures id in t.handled <==> HandlerReturns(id, Nil) in es
  {
    InitInv(cfg, topo, now);
    HandledFrom(cfg, Init(topo, now), es, t, id);
  }

  // ---- main results ----

  /** Where a message routed to work queue q may be: in q or its retry queue, with its body and headers intact. */
  ghost predicate StillLive(s: State, id: nat) {
    && id in s.routed && id in s.msgs
    && s.msgs[id].body == s.routed[id].body
    && (s.msgs[id].queue == s.routed[id].queue || s.msgs[id].queue == RetryName(s.routed[id].queue))
  }

  ghost predicate DeadCopy(s: State, id: nat) {
    && id in s.routed && id in s.copies && s.copies[id] in s.msgs
    && s.msgs[s.copies[id]].body == s.routed[id].body
    && s.msgs[s.copies[id]].queue == DeadName(s.routed[id].queue)
  }

  lemma DeadCopyHolds(cfg: Config, s: State, id: nat)
    requires Inv(cfg, s) && id in s.copies
    ensures DeadCopy(s, id)
  {
    assert IdOk(cfg, s, id) && IdOk(cfg, s, s.copies[id]);
  }

  /** No message is lost: through crashes, panics, failed acks and lost confirms, every message ever routed to a
      work queue was handled without error, or is still in its stage, or has a copy in its dead queue. */
  lemma NoMessageLost(cfg: Config, topo: Topology, now: nat, es: seq<Event>, t: State)
    requires Ready(topo, cfg.queues)
    requires Reaches(cfg, Init(topo, now), es, t)
    ensures forall id | id in t.routed :: id in t.handled || StillLive(t, id) || DeadCopy(t, id)
  {
    InitInv(cfg, topo, now);
    InvAlways(cfg, Init(topo, now), es, t);
    forall id | id in t.routed ensures id in t.handled || StillLive(t, id) || DeadCopy(t, id) {
      assert IdOk(cfg, t, id);
      if id in t.copies { DeadCopyHolds(cfg, t, id); }
    }
  }

  /** Stage isolation over a whole life: nothing routed to q is ever outside q, q.retry and q.dead, and whatever
      sits in a work queue was routed there in the first place. */
  lemma StaysInStage(cfg: Config, topo: Topology, now: nat, es: seq<Event>, t: State, id: nat)
    requires Ready(topo, cfg.queues)
    requires Reaches(cfg, Init(topo, now), es, t)
    requires id in t.msgs
    ensures id in t.routed ==> t.msgs[id].queue in {t.routed[id].queue, RetryName(t.routed[id].queue)}
    ensures id !in t.routed ==> id in t.origins && t.origins[id] in t.routed
                                && t.msgs[id].queue == DeadName(t.routed[t.origins[id]].queue)
    ensures t.msgs[id].queue in cfg.queues ==> id in t.routed && t.routed[id] == Sent(t.msgs[id].queue, t.msgs[id].body)
  {
    InitInv(cfg, topo, now);
    InvAlways(cfg, Init(topo, now), es, t);
    assert IdOk(cfg, t, id);
    if t.msgs[id].queue in cfg.queues { OutAtHome(cfg, t, id); }
  }

  /** Counted from the events alone: how often the broker got a nack without requeue for this message. */
  function Nacks(cfg: Config, s: State, es: seq<Event>, id: nat): nat
    decreases |es|
  {
    if es == [] || !Enabled(cfg, s, es[0]) then 0
    else
      (if es[0] == Event.Settle(id) && s.tasks[id].how == NackToRetry then 1 else 0)
      + Nacks(cfg, Apply(s, es[0]), es[1..], id)
  }

  function RejectionsOf(s: State, id: nat): int { if id in s.rejections then s.rejections[id] else 0 }

  function PanicsOf(s: State, id: nat): int { if id in s.panics then s.panics[id] else 0 }

  lemma DirectCounters(cfg: Config, s: State, e: Event, id: nat)
    requires Enabled(cfg, s, e) && IdOk(cfg, s, id) && IdOk(cfg, s, s.next)
    requires e.Expire? ==> e.id in s.routed
    requires e.Settle? || e.Promote? ==> e.id in s.rejections && e.id in s.panics
    ensures var s' := Direct(cfg, s, e);
      && RejectionsOf(s', id) == RejectionsOf(s, id) + (if e == Event.Settle(id) && s.tasks[id].how == NackToRetry
                                                        then 1 else 0)
      && PanicsOf(s', id) == PanicsOf(s, id) + (if e.Promote? && e.id == id && e.attempt.outcome == Panic then 1 else 0)
      && (id in s.routed ==> id in s'.routed && s'.routed[id] == s.routed[id])
  {
  }

  /** One event moves the two counters of a message exactly when it should. */
  lemma CountersStep(cfg: Config, s: State, e: Event, id: nat)
    requires Inv(cfg, s) && Enabled(cfg, s, e)
    ensures RejectionsOf(Apply(s, e), id) == RejectionsOf(s, id) + if e == Event.Settle(id)
      && s.tasks[id].how == NackToRetry then 1 else 0
    ensures PanicsOf(Apply(s, e), id) == PanicsOf(s, id) + if e.Promote? && e.id == id && e.attempt.outcome == Panic
      then 1 else 0
    ensures id in s.routed ==> id in Apply(s, e).routed && Apply(s, e).routed[id] == s.routed[id]
  {
    ApplyDirect(cfg, s, e);
    assert IdOk(cfg, s, id) && IdOk(cfg, s, s.next);
    DirectCounters(cfg, s, e, id);
  }

  lemma {:induction false} NacksCounted(cfg: Config, s: State, es: seq<Event>, t: State, id: nat)
    requires Inv(cfg, s) && Reaches(cfg, s, es, t)
    ensures RejectionsOf(t, id) == RejectionsOf(s, id) + Nacks(cfg, s, es, id)
    decreases |es|
  {
    if es != [] {
      StepKeeps(cfg, s, es[0]);
      CountersStep(cfg, s, es[0], id);
      NacksCounted(cfg, Apply(s, es[0]), es[1..], t, id);
    }
  }

  /** The count in the headers is the truth: what dispatch reads is the number of rejections that really happened. */
  lemma HeadersCountRejections(cfg: Config, topo: Topology, now: nat, es: seq<Event>, t: State, id: nat)
    requires Ready(topo, cfg.queues)
    requires Reaches(cfg, Init(topo, now), es, t)
    requires id in t.routed && id in t.msgs
    ensures XDeathCount(t.msgs[id].headers) == Nacks(cfg, Init(topo, now), es, id)
  {
    InitInv(cfg, topo, now);
    InvAlways(cfg, Init(topo, now), es, t);
    NacksCounted(cfg, Init(topo, now), es, t, id);
    assert IdOk(cfg, t, id);
  }

  function PanickedPromotions(es: seq<Event>, id: nat): nat {
    if es == [] then 0
    else (if es[0].Promote? && es[0].id == id && es[0].attempt.outcome == Panic then 1 else 0)
         + PanickedPromotions(es[1..], id)
  }

  lemma {:induction false} PanicsCounted(cfg: Config, s: State, es: seq<Event>, t: State, id: nat)
    requires Inv(cfg, s) && Reaches(cfg, s, es, t)
    ensures PanicsOf(t, id) == PanicsOf(s, id) + PanickedPromotions(es, id)
    decreases |es|
  {
    if es != [] {
      StepKeeps(cfg, s, es[0]);
      CountersStep(cfg, s, es[0], id);
      PanicsCounted(cfg, Apply(s, es[0]), es[1..], t, id);
    }
  }

  /** A message is rejected at most MaxRetries times, five if that is not set, plus once for every time promoting it
      panicked. */
  lemma RejectionsWithinBudget(cfg: Config, topo: Topology, now: nat, es: seq<Event>, t: State, id: nat, setting: int)
    requires Ready(topo, cfg.queues)
    requires Reaches(cfg, Init(topo, now), es, t)
    requires id in t.routed && cfg.SetTo(t.routed[id].queue, setting)
    ensures Nacks(cfg, Init(topo, now), es, id)
            <= (if setting <= 0 then 5 else setting) + PanickedPromotions(es, id)
  {
    InitInv(cfg, topo, now);
    InvAlways(cfg, Init(topo, now), es, t);
    NacksCounted(cfg, Init(topo, now), es, t, id);
    PanicsCounted(cfg, Init(topo, now), es, t, id);
    assert IdOk(cfg, t, id);
  }

  lemma UsedUpNotStarted(cfg: Config, s: State, id: nat, setting: int)
    requires Inv(cfg, s) && id in s.routed && cfg.SetTo(s.routed[id].queue, setting)
    requires RejectionsOf(s, id) >= if setting <= 0 then 5 else setting
    ensures !Enabled(cfg, s, Start(id))
  {
    assert IdOk(cfg, s, id);
    if id in s.tasks { OutAtHome(cfg, s, id); }
  }

  /** Once MaxRetries rejections are used up the handler is never called on the message again, however often
      promotion is requeued, lost or repeated. */
  lemma {:induction false} NeverHandledAgain(cfg: Config, s: State, es: seq<Event>, t: State, id: nat, setting: int)
    requires Inv(cfg, s) && Reaches(cfg, s, es, t)
    requires id in s.routed && cfg.SetTo(s.routed[id].queue, setting)
    requires RejectionsOf(s, id) >= if setting <= 0 then 5 else setting
    ensures Start(id) !in es
    decreases |es|
  {
    if es != [] {
      UsedUpNotStarted(cfg, s, id, setting);
      CountersStep(cfg, s, es[0], id);
      StepKeeps(cfg, s, es[0]);
      NeverHandledAgain(cfg, Apply(s, es[0]), es[1..], t, id, setting);
    }
  }
}
