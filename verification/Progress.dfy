/** Nothing gets stuck: with no help from faults, every message can move on until it was handled or is dead. */
module Progress {
  import opened Common
  import X = XDeath
  import opened Topology
  import opened Consumer
  import P = RetryProtocol
  import opened Store
  import opened Pipeline
  import opened Sums
  import G = Gates
  import T = Termination

  // ---- what counts as moving on ----

  /** The task itself is at fault: its handler has just started and can only err. */
  predicate Refuses(s: Pipe, id: nat) {
    && id in s.work && s.work[id] == Begin && id in s.p.msgs
    && var b, q := s.p.msgs[id].body, s.p.msgs[id].queue;
    || b.NotJson?
    || (q == LISTINGS_DISCOVER && b.searchUrl == "")
    || (q == LISTINGS_FETCH && b.url == "")
    || (q == LISTINGS_PARSE && (b.fetchId == 0 || FindFetch(s.t, b.fetchId).None?))
    || (q == SELLERS_ENRICH && b.olxUserId == "")
  }

  /** Deliveries, handlers that do their work, confirmed publishes and promotions, settlements that arrive, expired
      TTLs. No crash, no lost settlement, no failed call, and no error but for a task that cannot be handled. */
  predicate Forward(s: Pipe, a: Action) {
    match a
    case Broker(e) => e.Deliver? || e.Settle? || e.Expire? || (e.Promote? && e.attempt == P.Attempt(true, Nil))
    case External(_, _) => false
    case Fail(id, outcome) => outcome == Error && Refuses(s, id)
    case Send(_, attempt) => attempt == P.Attempt(true, Nil)
    case _ => true
  }

  lemma ForwardIsNoFault(s: Pipe, a: Action)
    requires Forward(s, a)
    ensures !T.Fault(s, a) && !(a.Broker? && (a.e.ChannelLost? || a.e.SettleLost?))
  {
  }

  function Wait(s: Pipe, d: nat): Pipe { s.(p := s.p.(now := s.p.now + d)) }

  /** A delivery whose settlement was lost: dispatch is through with it, the broker still has it out. */
  predicate Lost(p: P.State, k: nat) { k in p.msgs && p.msgs[k].unacked && k !in p.tasks }

  // ---- sellers under enrichment exist ----

  ghost predicate UserKnown(s: Pipe, id: nat) {
    id in s.work && G.Enriching(s.work[id]) ==> G.UserOf(s.work[id]) in s.t.sellers
  }

  ghost predicate Inv(c: Settings, s: Pipe) {
    G.Kinds(c, s) && forall id: nat {:trigger UserKnown(s, id)} :: UserKnown(s, id)
  }

  lemma SellersStay(c: Settings, s: Pipe, a: Action, user: string)
    requires Enabled(c, s, a) && user in s.t.sellers
    ensures user in Apply(c, s, a).t.sellers
  {
  }

  lemma StepUser(c: Settings, s: Pipe, a: Action, id: nat)
    requires Inv(c, s) && Enabled(c, s, a)
    ensures UserKnown(Apply(c, s, a), id)
  {
    assert UserKnown(s, id);
    if id in Apply(c, s, a).work {
      if id !in s.work { G.CallOut(c, s, a, id); }
      else if G.Enriching(s.work[id]) { SellersStay(c, s, a, G.UserOf(s.work[id])); }
    }
  }

  lemma StepKeeps(c: Settings, s: Pipe, a: Action)
    requires Inv(c, s) && Enabled(c, s, a)
    ensures Inv(c, Apply(c, s, a))
  {
    G.StepKinds(c, s, a);
    forall id: nat ensures UserKnown(Apply(c, s, a), id) { StepUser(c, s, a, id); }
  }

  lemma {:induction false} InvAlways(c: Settings, s: Pipe, acts: seq<Action>, u: Pipe)
    requires Inv(c, s) && Reaches(c, s, acts, u)
    ensures Inv(c, u)
    decreases |acts|
  {
    if acts != [] {
      StepKeeps(c, s, acts[0]);
      InvAlways(c, Apply(c, s, acts[0]), acts[1..], u);
    }
  }

  // ---- one more action ----

  /** Some page any parse can return. */
  function Stub(url: string): Parsed {
    Parsed(SellerParams("u", SellerCols(None, Text(url), false, None, None, None, ""), None),
           ParsedListing("l", url, "", "", None, "", Details(None, None, None, None, None, None, None, None, None, "",
                                                             "")))
  }

  /** A handler that has just been called does its first step, skips, or refuses its task. */
  lemma BeginMoves(c: Settings, s: Pipe, id: nat) returns (a: Action)
    requires Inv(c, s) && id in s.work && s.work[id] == Begin
    ensures Enabled(c, s, a) && Forward(s, a) && T.Actor(a) == Some(id)
    ensures a.ReadPage? ==> a.urls == []
    ensures !a.ReadProfile?
  {
    T.RunningHere(c, s, id);
    var b, q := s.p.msgs[id].body, s.p.msgs[id].queue;
    assert q == LISTINGS_DISCOVER || q == LISTINGS_FETCH || q == LISTINGS_PARSE || q == SELLERS_ENRICH;
    if Refuses(s, id) {
      a := Fail(id, Error);
    } else if CanSkip(c, s, id) {
      a := Skip(id);
    } else if q == LISTINGS_DISCOVER {
      a := ReadPage(id, []);
    } else if q == LISTINGS_FETCH {
      a := PassFetchGate(id);
    } else if q == LISTINGS_PARSE {
      a := StoreParse(id, Stub(b.url));
    } else {
      a := PassEnrichGate(id);
    }
  }

  /** A running handler always has a step of its own. */
  lemma HandlerMoves(c: Settings, s: Pipe, id: nat) returns (a: Action)
    requires Inv(c, s) && id in s.work
    ensures Enabled(c, s, a) && Forward(s, a) && T.Actor(a) == Some(id)
    ensures a.ReadPage? || a.ReadProfile? ==> a.urls == []
  {
    assert UserKnown(s, id);
    match s.work[id]
    case Begin => a := BeginMoves(c, s, id);
    case Fetching(_) => a := StoreFetch(id, 200, "");
    case Profile(_) => a := ReadProfile(id, []);
    case Sending(todo, last) =>
      a := if todo != [] then Send(id, P.Attempt(true, Nil)) else if last.Done? then Return(id) else Mark(id);
  }

  /** So has a delivery anywhere in dispatch. */
  lemma TaskMoves(c: Settings, s: Pipe, id: nat) returns (a: Action)
    requires Inv(c, s) && id in s.p.tasks
    ensures Enabled(c, s, a) && Forward(s, a) && T.Actor(a) == Some(id)
    ensures a.ReadPage? || a.ReadProfile? ==> a.urls == []
  {
    assert WorkOk(s, id) && P.IdOk(c.proto, s.p, id);
    match s.p.tasks[id]
    case AtGate =>
      a := if X.XDeathCount(s.p.msgs[id].headers) < c.proto.Budget(s.p.msgs[id].queue) then Call(id)
           else Broker(P.Promote(id, P.Attempt(true, Nil)));
    case Handling => a := HandlerMoves(c, s, id);
    case Settling(_) => a := Broker(P.Event.Settle(id));
  }

  /** And so has every message in a stage, once its TTL has run out, unless a settlement was lost. */
  lemma CanMoveOn(c: Settings, s: Pipe, id: nat) returns (d: nat, a: Action)
    requires Inv(c, s) && id in s.p.routed && id in s.p.msgs
    requires forall k: nat :: !Lost(s.p, k)
    ensures Enabled(c, Wait(s, d), a) && Forward(s, a) && T.Actor(a).Some?
    ensures a.ReadPage? || a.ReadProfile? ==> a.urls == []
    ensures d > 0 ==> a == Broker(P.Expire(id))
  {
    assert P.IdOk(c.proto, s.p, id);
    var m, home := s.p.msgs[id], s.p.routed[id].queue;
    assert HasStage(s.p.topo, home);
    if m.queue != home {
      d, a := m.since + RETRY_TTL, Broker(P.Expire(id));
    } else if k: nat :| k in s.p.msgs && s.p.msgs[k].unacked {
      assert !Lost(s.p, k);
      d := 0;
      a := TaskMoves(c, s, k);
      assert Wait(s, 0) == s;
    } else {
      d, a := 0, Broker(P.Deliver(id));
    }
  }

  // ---- lost settlements ----

  ghost predicate NoneLost(p: P.State) { forall k: nat :: !Lost(p, k) }

  lemma DirectLoses(c: P.Config, p: P.State, e: P.Event, k: nat)
    requires P.Enabled(c, p, e) && P.IdOk(c, p, k) && P.IdOk(c, p, p.next) && e != P.SettleLost(k)
    requires e.Expire? ==> e.id in p.routed && !p.msgs[e.id].unacked
    requires e.Settle? || e.Promote? ==> e.id in p.rejections && e.id in p.panics
    ensures Lost(P.Direct(c, p, e), k) ==> Lost(p, k) && e != P.ChannelLost(k)
  {
  }

  lemma EventLoses(c: P.Config, p: P.State, e: P.Event, k: nat)
    requires P.Inv(c, p) && P.Enabled(c, p, e) && e != P.SettleLost(k)
    ensures Lost(P.Apply(p, e), k) ==> Lost(p, k) && e != P.ChannelLost(k)
  {
    P.ApplyDirect(c, p, e);
    assert P.IdOk(c, p, k) && P.IdOk(c, p, p.next);
    DirectLoses(c, p, e, k);
  }

  lemma {:induction false} EventsLose(c: P.Config, p: P.State, es: seq<P.Event>, p': P.State, k: nat)
    requires P.Inv(c, p) && P.Reaches(c, p, es, p') && P.SettleLost(k) !in es
    ensures Lost(p', k) ==> Lost(p, k)
    decreases |es|
  {
    if es != [] {
      EventLoses(c, p, es[0], k);
      P.StepKeeps(c, p, es[0]);
      EventsLose(c, P.Apply(p, es[0]), es[1..], p', k);
    }
  }

  predicate LosesSettlement(a: Action) { a.Broker? && a.e.SettleLost? }

  lemma StepLoses(c: Settings, s: Pipe, a: Action, k: nat)
    requires Base(c, s) && Enabled(c, s, a) && !LosesSettlement(a)
    ensures Lost(Apply(c, s, a).p, k) ==> Lost(s.p, k)
  {
    StepProjects(c, s, a);
    EventsLose(c.proto, s.p, Events(s, a), Apply(c, s, a).p, k);
  }

  lemma {:induction false} RunLoses(c: Settings, s: Pipe, acts: seq<Action>, u: Pipe)
    requires Base(c, s) && Reaches(c, s, acts, u) && NoneLost(s.p)
    requires forall a | a in acts :: !LosesSettlement(a)
    ensures NoneLost(u.p)
    decreases |acts|
  {
    if acts != [] {
      var s1 := Apply(c, s, acts[0]);
      forall k: nat ensures !Lost(s1.p, k) { StepLoses(c, s, acts[0], k); }
      StepKeepsBase(c, s, acts[0]);
      RunLoses(c, s1, acts[1..], u);
    }
  }

  // ---- where a run ends ----

  /** However long one waits, no action of the crawler's own is possible. */
  ghost predicate Quiet(c: Settings, s: Pipe) {
    forall d: nat, a {:trigger Enabled(c, Wait(s, d), a)} :: Enabled(c, Wait(s, d), a) ==> !Forward(s, a)
  }

  /** Everything ever routed to a stage was handled or has a dead copy, and the broker holds none of it. */
  ghost predicate AllDone(p: P.State) {
    forall id | id in p.routed :: id !in p.msgs && (id in p.handled || P.DeadCopy(p, id))
  }

  lemma InitInv(c: Settings, topo: Topology, now: nat)
    requires GoodSettings(c) && Ready(topo, WORK_QUEUES)
    ensures Inv(c, Init(topo, now)) && NoneLost(Init(topo, now).p)
  {
    InitBase(c, topo, now);
  }

  /** Where the crawler cannot move on by itself, everything is done, unless a settlement was lost on the way. */
  lemma {:induction false} QuietMeansDone(c: Settings, topo: Topology, now: nat, acts: seq<Action>, u: Pipe)
    requires GoodSettings(c) && Ready(topo, WORK_QUEUES)
    requires Reaches(c, Init(topo, now), acts, u) && Quiet(c, u)
    ensures NoneLost(u.p) ==> AllDone(u.p)
    ensures (forall a | a in acts :: !LosesSettlement(a)) ==> NoneLost(u.p)
  {
    PipelineLosesNothing(c, topo, now, acts, u);
    InitInv(c, topo, now);
    InvAlways(c, Init(topo, now), acts, u);
    if forall a | a in acts :: !LosesSettlement(a) { RunLoses(c, Init(topo, now), acts, u); }
    if NoneLost(u.p) {
      forall id | id in u.p.routed ensures id !in u.p.msgs {
        if id in u.p.msgs { var d, a := CanMoveOn(c, u, id); }
      }
    }
  }

  // ---- and it can always finish ----

  /** The broker takes back a delivery whose settlement was lost, once its channel is gone. */
  predicate Recovers(s: Pipe, a: Action) { a.Broker? && a.e.ChannelLost? && Lost(s.p, a.e.id) }

  /** A run of forward actions, waiting, and recoveries. */
  ghost predicate FinishingRun(c: Settings, s: Pipe, acts: seq<Action>, u: Pipe)
    decreases |acts|
  {
    if acts == [] then s == u
    else
      && Enabled(c, s, acts[0]) && (Forward(s, acts[0]) || Recovers(s, acts[0]) || (acts[0].Broker? && acts[0].e.Tick?))
      && FinishingRun(c, Apply(c, s, acts[0]), acts[1..], u)
  }

  lemma {:induction false} FinishingReaches(c: Settings, s: Pipe, acts: seq<Action>, u: Pipe)
    requires FinishingRun(c, s, acts, u)
    ensures Reaches(c, s, acts, u)
    decreases |acts|
  {
    if acts != [] { FinishingReaches(c, Apply(c, s, acts[0]), acts[1..], u); }
  }

  lemma FirstAct(c: Settings, s: Pipe, a: Action, acts: seq<Action>, u: Pipe)
    requires Enabled(c, s, a) && (Forward(s, a) || Recovers(s, a) || (a.Broker? && a.e.Tick?))
    requires FinishingRun(c, Apply(c, s, a), acts, u)
    ensures FinishingRun(c, s, [a] + acts, u)
  {
    assert ([a] + acts)[1..] == acts;
  }

  /** A profile without links leaves only the stamp to do. */
  lemma EmptyProfile(c: Settings, w: T.Window, s: Pipe, id: nat)
    requires Inv(c, s) && Enabled(c, s, ReadProfile(id, []))
    ensures var s' := Apply(c, s, ReadProfile(id, []));
      id in s.p.msgs
      && T.After(c, w.maxLinks, s', id) + T.After(c, w.maxLinks, s', s.p.next) + 1 <= T.Weight(c, w.maxLinks, s, id)
  {
    T.RunningHere(c, s, id);
    T.WorkMove(c, w, s, Apply(c, s, ReadProfile(id, [])), id);
  }

  /** Where pages yield no links, every forward action lowers the summed weight of the messages. */
  lemma ForwardLowers(c: Settings, s: Pipe, a: Action)
    requires Inv(c, s) && c.maxPage >= 1 && Enabled(c, s, a) && Forward(s, a) && T.Actor(a).Some?
    requires a.ReadPage? || a.ReadProfile? ==> a.urls == []
    ensures Sum(T.Weights(c, 0, Apply(c, s, a))) < Sum(T.Weights(c, 0, s))
  {
    var id, w := T.Actor(a).value, T.Window(0, 0, 0, if a.StoreParse? then {a.r.seller.olxUserId} else {});
    ForwardIsNoFault(s, a);
    if a.ReadProfile? { EmptyProfile(c, w, s, id); } else { T.ActorMove(c, w, s, a, id); }
    T.ActorSum(c, 0, s, a, id);
  }

  function LostSet(p: P.State): set<nat> { set k | k in p.msgs && Lost(p, k) }

  lemma RecoveryLowers(c: Settings, s: Pipe, k: nat)
    requires Inv(c, s) && Lost(s.p, k)
    ensures Enabled(c, s, Broker(P.ChannelLost(k)))
    ensures LostSet(Apply(c, s, Broker(P.ChannelLost(k))).p) < LostSet(s.p)
  {
    var e := P.ChannelLost(k);
    var s' := Apply(c, s, Broker(e));
    forall j | j in LostSet(s'.p) ensures j in LostSet(s.p) && j != k { EventLoses(c.proto, s.p, e, j); }
    assert k in LostSet(s.p);
  }

  /** One tick is a wait. */
  lemma WaitIsTick(c: Settings, s: Pipe, d: nat)
    requires Inv(c, s) && d > 0 && NoneLost(s.p)
    ensures Enabled(c, s, Broker(P.Tick(d))) && Apply(c, s, Broker(P.Tick(d))) == Wait(s, d)
    ensures Inv(c, Wait(s, d)) && NoneLost(Wait(s, d).p)
    ensures Sum(T.Weights(c, 0, Wait(s, d))) == Sum(T.Weights(c, 0, s))
  {
    StepKeeps(c, s, Broker(P.Tick(d)));
    T.ClockStep(c, 0, s, d);
    forall k: nat ensures !Lost(Wait(s, d).p, k) { assert !Lost(s.p, k); }
  }

  lemma {:induction false} Finishes(c: Settings, s: Pipe) returns (acts: seq<Action>, u: Pipe)
    requires Inv(c, s) && c.maxPage >= 1
    ensures FinishingRun(c, s, acts, u) && forall id | id in u.p.routed :: id !in u.p.msgs
    decreases LostSet(s.p), Sum(T.Weights(c, 0, s)), 1
  {
    if k: nat :| k in s.p.msgs && Lost(s.p, k) {
      var a := Broker(P.ChannelLost(k));
      RecoveryLowers(c, s, k);
      StepKeeps(c, s, a);
      acts, u := Finishes(c, Apply(c, s, a));
      FirstAct(c, s, a, acts, u);
      acts := [a] + acts;
    } else if id: nat :| id in s.p.routed && id in s.p.msgs {
      var d, a := CanMoveOn(c, s, id);
      if d > 0 {
        WaitIsTick(c, s, d);
        acts, u := ActAndFinish(c, Wait(s, d), a);
        FirstAct(c, s, Broker(P.Tick(d)), acts, u);
        acts := [Broker(P.Tick(d))] + acts;
      } else {
        assert Wait(s, d) == s;
        acts, u := ActAndFinish(c, s, a);
      }
    } else {
      acts, u := [], s;
    }
  }

  lemma {:induction false} ActAndFinish(c: Settings, s: Pipe, a: Action) returns (acts: seq<Action>, u: Pipe)
    requires Inv(c, s) && c.maxPage >= 1 && NoneLost(s.p) && Enabled(c, s, a) && Forward(s, a) && T.Actor(a).Some?
    requires a.ReadPage? || a.ReadProfile? ==> a.urls == []
    ensures FinishingRun(c, s, acts, u) && forall id | id in u.p.routed :: id !in u.p.msgs
    decreases LostSet(s.p), Sum(T.Weights(c, 0, s)), 0
  {
    var s' := Apply(c, s, a);
    ForwardIsNoFault(s, a);
    ForwardLowers(c, s, a);
    StepKeeps(c, s, a);
    forall k: nat ensures !Lost(s'.p, k) { StepLoses(c, s, a, k); }
    assert LostSet(s'.p) == {} == LostSet(s.p);
    acts, u := Finishes(c, s');
    FirstAct(c, s, a, acts, u);
    acts := [a] + acts;
  }

  /** From every state the crawler can be in, after any crashes and losses, there is a run that finishes everything
      and needs no further fault: handlers and dispatch do their work, the clock advances, and the broker takes back
      what it never got a settlement for. */
  lemma CanAlwaysFinish(c: Settings, topo: Topology, now: nat, acts: seq<Action>, s: Pipe)
    returns (more: seq<Action>, u: Pipe)
    requires GoodSettings(c) && Ready(topo, WORK_QUEUES)
    requires Reaches(c, Init(topo, now), acts, s)
    ensures FinishingRun(c, s, more, u) && AllDone(u.p)
  {
    InitInv(c, topo, now);
    InvAlways(c, Init(topo, now), acts, s);
    more, u := Finishes(c, s);
    FinishingReaches(c, s, more, u);
    Concat(c, Init(topo, now), acts, s, more, u);
    PipelineLosesNothing(c, topo, now, acts + more, u);
  }

  /** Inside one freshness window a run with finitely many faults stops, and where it stops everything is done. */
  lemma RunsStopDone(c: Settings, topo: Topology, now: nat, before: seq<Action>, s: Pipe,
                     w: T.Window, acts: seq<Action>, u: Pipe, faults: nat)
    requires GoodSettings(c) && Ready(topo, WORK_QUEUES) && T.GoodWindow(c, w)
    requires Reaches(c, Init(topo, now), before, s)
    requires w.start <= s.p.now <= w.deadline && s.t.sellers.Keys <= w.users
    requires T.WindowRun(c, w, s, acts, u, faults)
    ensures |acts| <= T.Potential(c, w, s) + T.FaultPrice(c, w) * faults
    ensures Quiet(c, u) && NoneLost(u.p) ==> AllDone(u.p)
  {
    T.EveryRunStops(c, topo, now, before, s, w, acts, u, faults);
    WindowReaches(c, w, s, acts, u, faults);
    Concat(c, Init(topo, now), before, s, acts, u);
    if Quiet(c, u) { QuietMeansDone(c, topo, now, before + acts, u); }
  }

  lemma {:induction false} WindowReaches(c: Settings, w: T.Window, s: Pipe, acts: seq<Action>, u: Pipe, faults: int)
    requires T.WindowRun(c, w, s, acts, u, faults)
    ensures Reaches(c, s, acts, u)
    decreases |acts|
  {
    if acts != [] {
      WindowReaches(c, w, Apply(c, s, acts[0]), acts[1..], u, faults - if T.Fault(s, acts[0]) then 1 else 0);
    }
  }
}
