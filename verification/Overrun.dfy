/** When a message is rejected more often than its budget: exactly when a nack follows a promotion that panicked. */
module Overrun {
  import opened Common
  import opened Tasks
  import opened XDeath
  import opened Topology
  import opened Consumer
  import opened RetryProtocol

  /** Whether the last call dispatch made for message id was a promotion that panicked. */
  function Panicking(e: Event, id: nat, before: bool): bool {
    if e == Start(id) then false
    else if e.Promote? && e.id == id then e.attempt.outcome == Panic
    else before
  }

  /** How often the nack after a panicked promotion of message id reached the broker. */
  function PanicNacks(cfg: Config, s: State, es: seq<Event>, id: nat, panicking: bool): nat
    decreases |es|
  {
    if es == [] || !Enabled(cfg, s, es[0]) then 0
    else
      (if es[0] == Event.Settle(id) && s.tasks[id].how == NackToRetry && panicking then 1 else 0)
      + PanicNacks(cfg, Apply(s, es[0]), es[1..], id, Panicking(es[0], id, panicking))
  }

  /** The flag fits the state: it tells a nack of a promotion from a nack of a handler. */
  ghost predicate Fits(s: State, id: nat, budget: nat, panicking: bool) {
    && (id in s.tasks && s.tasks[id] == Handling ==> !panicking)
    && (id in s.tasks && s.tasks[id] == Settling(NackToRetry) ==> (panicking <==> RejectionsOf(s, id) >= budget))
  }

  lemma DirectFits(cfg: Config, s: State, e: Event, id: nat, budget: nat, panicking: bool)
    requires Enabled(cfg, s, e) && IdOk(cfg, s, id) && IdOk(cfg, s, s.next) && Fits(s, id, budget, panicking)
    requires e.Expire? ==> e.id in s.routed
    requires e.Settle? || e.Promote? ==> e.id in s.rejections && e.id in s.panics
    requires id in s.routed ==> cfg.Budget(s.routed[id].queue) == budget
    requires id in s.tasks ==> s.msgs[id].queue == s.routed[id].queue
    ensures Fits(Direct(cfg, s, e), id, budget, Panicking(e, id, panicking))
  {
  }

  lemma StepFits(cfg: Config, s: State, e: Event, id: nat, budget: nat, panicking: bool)
    requires Inv(cfg, s) && Enabled(cfg, s, e) && Fits(s, id, budget, panicking)
    requires id in s.routed ==> cfg.Budget(s.routed[id].queue) == budget
    ensures Fits(Apply(s, e), id, budget, Panicking(e, id, panicking))
  {
    assert IdOk(cfg, s, id) && IdOk(cfg, s, s.next);
    if id in s.tasks { OutAtHome(cfg, s, id); }
    ApplyDirect(cfg, s, e);
    DirectFits(cfg, s, e, id, budget, panicking);
  }

  lemma {:induction false} OverrunFrom(cfg: Config, s: State, es: seq<Event>, t: State, id: nat, budget: nat,
                                       panicking: bool)
    requires Inv(cfg, s) && Reaches(cfg, s, es, t) && Fits(s, id, budget, panicking)
    requires id in t.routed && cfg.Budget(t.routed[id].queue) == budget
    requires id in s.routed ==> s.routed[id] == t.routed[id]
    ensures RejectionsOf(t, id) > budget <==> RejectionsOf(s, id) > budget || PanicNacks(cfg, s, es, id, panicking) > 0
    decreases |es|
  {
    if es != [] {
      var s1 := Apply(s, es[0]);
      StepKeeps(cfg, s, es[0]);
      StepFits(cfg, s, es[0], id, budget, panicking);
      CountersStep(cfg, s, es[0], id);
      if id in s1.routed { RoutedStays(cfg, s1, es[1..], t, id); }
      OverrunFrom(cfg, s1, es[1..], t, id, budget, Panicking(es[0], id, panicking));
    }
  }

  lemma {:induction false} RoutedStays(cfg: Config, s: State, es: seq<Event>, t: State, id: nat)
    requires Inv(cfg, s) && Reaches(cfg, s, es, t) && id in s.routed
    ensures id in t.routed && t.routed[id] == s.routed[id]
    decreases |es|
  {
    if es != [] {
      CountersStep(cfg, s, es[0], id);
      StepKeeps(cfg, s, es[0]);
      RoutedStays(cfg, Apply(s, es[0]), es[1..], t, id);
    }
  }

  /** Over any run a message is rejected more often than MaxRetries, five if that is not set, if and only if the nack
      after a panicked promotion of it has reached the broker. */
  lemma OverBudgetIffPromotionPanicked(cfg: Config, topo: Topology, now: nat, es: seq<Event>, t: State, id: nat,
                                       setting: int)
    requires Ready(topo, cfg.queues)
    requires Reaches(cfg, Init(topo, now), es, t)
    requires id in t.routed && cfg.SetTo(t.routed[id].queue, setting)
    ensures Nacks(cfg, Init(topo, now), es, id) > (if setting <= 0 then 5 else setting)
            <==> PanicNacks(cfg, Init(topo, now), es, id, false) > 0
  {
    InitInv(cfg, topo, now);
    NacksCounted(cfg, Init(topo, now), es, t, id);
    OverrunFrom(cfg, Init(topo, now), es, t, id, cfg.Budget(t.routed[id].queue), false);
  }

  // ---- and it does happen ----

  /** Message 0 of queue q, body b, and nothing else. */
  function One(topo: Topology, now: nat, q: string, b: Body, msg: Message, phase: Option<Phase>, rejected: int,
               panics: int): State {
    State(topo, map[0 := msg], 1, now, if phase.Some? then map[0 := phase.value] else map[], map[0 := Sent(q, b)], {},
          map[0 := rejected], map[0 := panics], map[], map[])
  }

  /** One event from state to state. */
  lemma Then(cfg: Config, s: State, e: Event, u: State, es: seq<Event>, t: State)
    requires Enabled(cfg, s, e) && Apply(s, e) == u && Reaches(cfg, u, es, t)
    ensures Reaches(cfg, s, [e] + es, t)
  {
    assert ([e] + es)[1..] == es;
  }

  /** The nack parks the message. */
  lemma NackParks(cfg: Config, topo: Topology, now: nat, q: string, b: Body, out: Message, rejected: int, panics: int)
    requires Ready(topo, cfg.queues) && q in cfg.queues && out.queue == q
    ensures var s := One(topo, now, q, b, out, Some(Settling(NackToRetry)), rejected, panics);
      Enabled(cfg, s, Event.Settle(0))
      && Apply(s, Event.Settle(0)) == One(topo, now, q, b, Rejected(out, now), None, rejected + 1, panics)
  {
    var s := One(topo, now, q, b, out, Some(Settling(NackToRetry)), rejected, panics);
    var mid := One(topo, now, q, b, out, None, rejected + 1, panics);
    assert s.tasks - {0} == map[] && s.rejections[0 := rejected + 1] == map[0 := rejected + 1];
    assert mid == s.(tasks := s.tasks - {0}, rejections := s.rejections[0 := rejected + 1]);
    RejectionLands(cfg, mid, 0);
    assert mid.msgs[0 := Rejected(out, now)] == map[0 := Rejected(out, now)];
  }

  lemma Delivers(cfg: Config, topo: Topology, now: nat, q: string, b: Body, m: Message, rejected: int, rest: seq<Event>,
                 t: State)
    requires q in cfg.queues && m.queue == q && !m.unacked
    requires Reaches(cfg, One(topo, now, q, b, m.(unacked := true), Some(AtGate), rejected, 0), rest, t)
    ensures Reaches(cfg, One(topo, now, q, b, m, None, rejected, 0), [Deliver(0)] + rest, t)
  {
    Then(cfg, One(topo, now, q, b, m, None, rejected, 0), Deliver(0),
         One(topo, now, q, b, m.(unacked := true), Some(AtGate), rejected, 0), rest, t);
  }

  /** With a budget of one, a failed handler and a panicking promotion make two rejections. */
  lemma PanicOverruns(cfg: Config, topo: Topology, now: nat, q: string, b: Body) returns (es: seq<Event>, t: State)
    requires Ready(topo, cfg.queues) && q in cfg.queues && cfg.SetTo(q, 1)
    ensures Reaches(cfg, Init(topo, now), es, t) && 0 in t.routed && t.routed[0].queue == q
    ensures RejectionsOf(t, 0) == 2
  {
    InitInv(cfg, topo, now);
    WorkNames(topo, cfg, q);
    var later := now + RETRY_TTL;
    var first := Message(b, map[], q, false, now);
    var parked := Rejected(first, now);
    var back := Expired(parked, q, later);
    var gone := Rejected(back, later);
    RecordDeathCounts(first.headers, q, REJECTED);
    RecordDeathCounts(parked.headers, parked.queue, EXPIRED);

    t := One(topo, later, q, b, gone, None, 2, 1);
    es := [];
    es := SecondRound(cfg, topo, later, q, b, back, t);
    es := Comeback(cfg, topo, now, q, b, parked, back, es, t);
    es := FirstRound(cfg, topo, now, q, b, es, t);
    PublishLands(cfg, Init(topo, now), q, b);
    Then(cfg, Init(topo, now), Publish(q, b), One(topo, now, q, b, first, None, 0, 0), es, t);
    es := [Publish(q, b)] + es;
  }

  /** Delivered with its budget used up, a panicking promotion, the nack. */
  lemma SecondRound(cfg: Config, topo: Topology, now: nat, q: string, b: Body, back: Message, t: State)
    returns (es: seq<Event>)
    requires Ready(topo, cfg.queues) && q in cfg.queues && cfg.Budget(q) == 1
    requires back.queue == q && back.body == b && !back.unacked && XDeathCount(back.headers) == 1
    requires t == One(topo, now, q, b, Rejected(back, now), None, 2, 1)
    ensures Reaches(cfg, One(topo, now, q, b, back, None, 1, 0), es, t)
  {
    var out := back.(unacked := true);
    var promote := Promote(0, Attempt(false, Panic));
    var s1 := One(topo, now, q, b, out, Some(AtGate), 1, 0);
    var s2 := One(topo, now, q, b, out, Some(Settling(NackToRetry)), 1, 1);
    NackParks(cfg, topo, now, q, b, out, 1, 1);
    Then(cfg, s2, Event.Settle(0), t, [], t);
    Then(cfg, s1, promote, s2, [Event.Settle(0)] + [], t);
    Delivers(cfg, topo, now, q, b, back, 1, [promote] + ([Event.Settle(0)] + []), t);
    es := [Deliver(0)] + ([promote] + ([Event.Settle(0)] + []));
  }

  /** The retry TTL runs out and the message is back in its queue. */
  lemma Comeback(cfg: Config, topo: Topology, now: nat, q: string, b: Body, parked: Message, back: Message,
                 rest: seq<Event>, t: State) returns (es: seq<Event>)
    requires Ready(topo, cfg.queues) && q in cfg.queues
    requires parked.queue == RetryName(q) && parked.since == now && !parked.unacked
    requires back == Expired(parked, q, now + RETRY_TTL)
    requires Reaches(cfg, One(topo, now + RETRY_TTL, q, b, back, None, 1, 0), rest, t)
    ensures Reaches(cfg, One(topo, now, q, b, parked, None, 1, 0), es, t)
  {
    var s0 := One(topo, now, q, b, parked, None, 1, 0);
    var s1 := One(topo, now + RETRY_TTL, q, b, parked, None, 1, 0);
    RoutesWithinStage(topo, cfg.queues, q);
    ExpiryLands(cfg, s1, 0, q);
    Then(cfg, s1, Expire(0), One(topo, now + RETRY_TTL, q, b, back, None, 1, 0), rest, t);
    Then(cfg, s0, Tick(RETRY_TTL), s1, [Expire(0)] + rest, t);
    es := [Tick(RETRY_TTL)] + ([Expire(0)] + rest);
  }

  /** The handler is called and fails. */
  lemma HandlerErrs(cfg: Config, topo: Topology, now: nat, q: string, b: Body, out: Message, rest: seq<Event>, t: State)
    requires out.queue == q && XDeathCount(out.headers) < cfg.Budget(q)
    requires Reaches(cfg, One(topo, now, q, b, out, Some(Settling(NackToRetry)), 0, 0), rest, t)
    ensures Reaches(cfg, One(topo, now, q, b, out, Some(AtGate), 0, 0), [Start(0)]
                    + ([HandlerReturns(0, Error)] + rest), t)
  {
    var s1 := One(topo, now, q, b, out, Some(AtGate), 0, 0);
    var s2 := One(topo, now, q, b, out, Some(Handling), 0, 0);
    Then(cfg, s2, HandlerReturns(0, Error), One(topo, now, q, b, out, Some(Settling(NackToRetry)), 0, 0), rest, t);
    Then(cfg, s1, Start(0), s2, [HandlerReturns(0, Error)] + rest, t);
  }

  /** The nack of the failed handler. */
  lemma FirstNack(cfg: Config, topo: Topology, now: nat, q: string, b: Body, out: Message, rest: seq<Event>, t: State)
    requires Ready(topo, cfg.queues) && q in cfg.queues && out.queue == q
    requires Reaches(cfg, One(topo, now, q, b, Rejected(out, now), None, 1, 0), rest, t)
    ensures Reaches(cfg, One(topo, now, q, b, out, Some(Settling(NackToRetry)), 0, 0), [Event.Settle(0)] + rest, t)
  {
    NackParks(cfg, topo, now, q, b, out, 0, 0);
    Then(cfg, One(topo, now, q, b, out, Some(Settling(NackToRetry)), 0, 0), Event.Settle(0),
         One(topo, now, q, b, Rejected(out, now), None, 1, 0), rest, t);
  }

  /** Delivered, handled with an error, nacked. */
  lemma FirstRound(cfg: Config, topo: Topology, now: nat, q: string, b: Body, rest: seq<Event>, t: State)
    returns (es: seq<Event>)
    requires Ready(topo, cfg.queues) && q in cfg.queues && cfg.Budget(q) == 1
    requires Reaches(cfg, One(topo, now, q, b, Rejected(Message(b, map[], q, false, now), now), None, 1, 0), rest, t)
    ensures Reaches(cfg, One(topo, now, q, b, Message(b, map[], q, false, now), None, 0, 0), es, t)
  {
    var first := Message(b, map[], q, false, now);
    var out := first.(unacked := true);
    es := [Event.Settle(0)] + rest;
    FirstNack(cfg, topo, now, q, b, out, rest, t);
    HandlerErrs(cfg, topo, now, q, b, out, es, t);
    es := [Start(0)] + ([HandlerReturns(0, Error)] + es);
    Delivers(cfg, topo, now, q, b, first, 0, es, t);
    es := [Deliver(0)] + es;
  }
}
