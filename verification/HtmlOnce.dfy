/** With a retry budget of one and no crash a fetch message is handled once, and what its page is owed stays owed. */
module HtmlOnce {
  import opened Topology
  import opened Consumer
  import P = RetryProtocol
  import opened Pipeline
  import opened HtmlClaim
  import G = Gates

  /** No delivery is taken back. Settlements may still be lost. */
  predicate CrashFree(acts: seq<Action>) {
    forall a | a in acts :: !(a.Broker? && a.e.ChannelLost?)
  }

  ghost predicate ReachableCrashFree(c: Settings, s: Pipe, u: Pipe) {
    exists acts :: Reaches(c, s, acts, u) && CrashFree(acts)
  }

  /** Nothing is left to handle: every message was handled for good or is dead. */
  ghost predicate Over(s: Pipe) { forall id | id in s.p.routed :: !P.StillLive(s.p, id) }

  /** The comment in the fetcher read literally: each stored page has its own parse task or a pending message. */
  ghost predicate LiteralClaim(s: Pipe) {
    forall i | 0 <= i < |s.t.fetches| && s.t.fetches[i].html.Some? :: Pending(s, i) || Relayed(s, s.t.fetches[i])
  }

  /** Read literally it says more. */
  lemma LiteralIsStronger(s: Pipe)
    requires LiteralClaim(s)
    ensures Claim(s)
  {
    forall i | 0 <= i < |s.t.fetches| && s.t.fetches[i].html.Some? ensures Answered(s, i) || Pending(s, i) {
      if Relayed(s, s.t.fetches[i]) { assert Answers(s, i, i); }
    }
  }

  // ---- handled once ----

  /** The one handler run of message o has begun: it has been rejected, or its first delivery is past the gate. */
  ghost predicate Begun(p: P.State, o: nat) {
    o in p.msgs && P.RejectionsOf(p, o) == 0 ==>
      && p.msgs[o].unacked
      && (o in p.tasks ==> p.tasks[o] in {P.Handling, P.Settling(Ack), P.Settling(NackToRetry)})
  }

  lemma NotStarted(c: P.Config, p: P.State, o: nat)
    requires P.Inv(c, p) && o in p.routed && c.Budget(p.routed[o].queue) == 1 && Begun(p, o)
    ensures !P.Enabled(c, p, P.Start(o))
  {
    assert P.IdOk(c, p, o);
    if o in p.tasks { P.OutAtHome(c, p, o); }
  }

  lemma DirectBegun(c: P.Config, p: P.State, e: P.Event, o: nat)
    requires P.Enabled(c, p, e) && e != P.ChannelLost(o) && e != P.Start(o)
    requires P.IdOk(c, p, o) && P.IdOk(c, p, p.next) && o in p.routed && Begun(p, o)
    requires e.Expire? ==> e.id in p.routed
    requires e.Settle? || e.Promote? ==> e.id in p.rejections && e.id in p.panics
    ensures Begun(P.Direct(c, p, e), o)
  {
  }

  lemma EventBegun(c: P.Config, p: P.State, e: P.Event, o: nat)
    requires P.Inv(c, p) && P.Enabled(c, p, e) && e != P.ChannelLost(o)
    requires o in p.routed && c.Budget(p.routed[o].queue) == 1 && Begun(p, o)
    ensures Begun(P.Apply(p, e), o) && e != P.Start(o)
  {
    P.ApplyDirect(c, p, e);
    NotStarted(c, p, o);
    assert P.IdOk(c, p, o) && P.IdOk(c, p, p.next);
    DirectBegun(c, p, e, o);
  }

  lemma {:induction false} EventsBegun(c: P.Config, p: P.State, es: seq<P.Event>, p': P.State, o: nat)
    requires P.Inv(c, p) && P.Reaches(c, p, es, p') && P.ChannelLost(o) !in es
    requires o in p.routed && c.Budget(p.routed[o].queue) == 1 && Begun(p, o)
    ensures Begun(p', o) && P.Start(o) !in es
    decreases |es|
  {
    if es != [] {
      EventBegun(c, p, es[0], o);
      EventLater(c, p, es[0]);
      P.StepKeeps(c, p, es[0]);
      EventsBegun(c, P.Apply(p, es[0]), es[1..], p', o);
    }
  }

  /** The originator of a stored page is past its insert for good. */
  ghost predicate Past(s: Pipe, o: nat) {
    Begun(s.p, o) && (o in s.work ==> s.work[o].Sending?)
  }

  lemma StepPast(c: Settings, s: Pipe, a: Action, o: nat)
    requires Base(c, s) && Enabled(c, s, a) && a != Broker(P.ChannelLost(o))
    requires o in s.p.routed && c.proto.Budget(s.p.routed[o].queue) == 1 && Past(s, o)
    ensures Past(Apply(c, s, a), o) && a != Call(o)
  {
    StepProjects(c, s, a);
    EventsBegun(c.proto, s.p, Events(s, a), Apply(c, s, a).p, o);
  }

  // ---- what the originator owes its own row ----

  ghost predicate OwesOwn(s: Pipe, o: nat, i: nat)
    requires i < |s.t.fetches|
  {
    Owes(s, o, i) && (o in s.work && s.work[o].Sending? ==> OwedFor(s.t.fetches, s.work[o], i, i))
  }

  ghost predicate OwnRowOk(s: Pipe, i: nat) {
    i < |s.t.fetches| ==>
      var r := s.t.fetches[i];
      && r.id in s.origin
      && var o := s.origin[r.id].message;
      && o in s.p.routed && s.p.routed[o].queue == LISTINGS_FETCH && Past(s, o)
      && (r.html.Some? ==> Relayed(s, r) || o in s.p.copies || OwesOwn(s, o, i))
  }

  ghost predicate OnceInv(c: Settings, s: Pipe) {
    && G.Kinds(c, s) && Dated(s)
    && (forall id: nat {:trigger FetchingOk(s, id)} :: FetchingOk(s, id))
    && (forall i: nat {:trigger OwnRowOk(s, i)} :: OwnRowOk(s, i))
  }

  lemma OthersKeepOwn(c: Settings, s: Pipe, a: Action, o: nat, i: nat)
    requires Base(c, s) && Enabled(c, s, a) && !ActorIs(a, o)
    requires i < |s.t.fetches| && o in s.p.routed && OwesOwn(s, o, i)
    ensures o in Apply(c, s, a).p.copies || OwesOwn(Apply(c, s, a), o, i)
  {
    RowsKept(c, s, a);
    OthersKeepOwing(c, s, a, o, i);
  }

  /** The originator's own moves: it has begun, so what is left is the publish, a failure or a return. */
  lemma OwnerKeepsOwn(c: Settings, s: Pipe, a: Action, o: nat, i: nat)
    requires Base(c, s) && Dated(s) && Enabled(c, s, a) && ActorIs(a, o) && a != Call(o)
    requires i < |s.t.fetches| && o in s.p.routed && Past(s, o) && OwesOwn(s, o, i)
    ensures var s' := Apply(c, s, a);
      && |s'.t.fetches| == |s.t.fetches| && s'.t.fetches[i] == s.t.fetches[i]
      && (Relayed(s', s.t.fetches[i]) || o in s'.p.copies || OwesOwn(s', o, i))
  {
    if a.Send? {
      OwnerSends(c, s, o, a.attempt, i, i);
    } else if a.Fail? {
      FinishKeepsOwing(c, s, o, a.outcome, o, i);
    }
  }

  lemma OwnOldRow(c: Settings, s: Pipe, a: Action, i: nat)
    requires OnceInv(c, s) && Enabled(c, s, a) && !(a.Broker? && a.e.ChannelLost?)
    requires c.proto.Budget(LISTINGS_FETCH) == 1 && i < |s.t.fetches|
    ensures OwnRowOk(Apply(c, s, a), i)
  {
    var s', r := Apply(c, s, a), s.t.fetches[i];
    assert OwnRowOk(s, i);
    var o := s.origin[r.id].message;
    RowsKept(c, s, a);
    StepLater(c, s, a);
    StepPast(c, s, a, o);
    if r.html.Some? {
      if Relayed(s, r) {
        var m: nat :| RelayedBy(s, r, m);
        RelayedStays(s, s', i, m);
      } else if o in s.p.copies {
        CopiesStay(c, s, a, o);
      } else if ActorIs(a, o) {
        OwnerKeepsOwn(c, s, a, o, i);
      } else {
        OthersKeepOwn(c, s, a, o, i);
      }
    }
  }

  lemma OwnNewRow(c: Settings, s: Pipe, a: Action)
    requires OnceInv(c, s) && Enabled(c, s, a) && a.StoreFetch?
    ensures |Apply(c, s, a).t.fetches| == |s.t.fetches| + 1
    ensures OwnRowOk(Apply(c, s, a), |s.t.fetches|)
  {
    var s', n := Apply(c, s, a), |s.t.fetches|;
    assert FetchingOk(s, a.id) && P.IdOk(c.proto, s.p, a.id);
    Running(c, s, a.id);
    if a.status < 400 { assert OwedFor(s'.t.fetches, s'.work[a.id], n, n); }
  }

  lemma OwnRow(c: Settings, s: Pipe, a: Action, i: nat)
    requires OnceInv(c, s) && Enabled(c, s, a) && !(a.Broker? && a.e.ChannelLost?)
    requires c.proto.Budget(LISTINGS_FETCH) == 1
    ensures OwnRowOk(Apply(c, s, a), i)
  {
    RowsKept(c, s, a);
    if i < |s.t.fetches| { OwnOldRow(c, s, a, i); }
    else if a.StoreFetch? { OwnNewRow(c, s, a); }
  }

  lemma StepOnce(c: Settings, s: Pipe, a: Action)
    requires OnceInv(c, s) && Enabled(c, s, a) && !(a.Broker? && a.e.ChannelLost?)
    requires c.proto.Budget(LISTINGS_FETCH) == 1
    ensures OnceInv(c, Apply(c, s, a))
  {
    var s' := Apply(c, s, a);
    G.StepKinds(c, s, a);
    StepDated(c, s, a);
    forall id: nat ensures FetchingOk(s', id) {
      assert FetchingOk(s, id);
      StepFetching(c, s, a, id);
    }
    forall i: nat ensures OwnRowOk(s', i) { OwnRow(c, s, a, i); }
  }

  lemma {:induction false} OnceAlways(c: Settings, s: Pipe, acts: seq<Action>, u: Pipe)
    requires OnceInv(c, s) && Reaches(c, s, acts, u) && CrashFree(acts)
    requires c.proto.Budget(LISTINGS_FETCH) == 1
    ensures OnceInv(c, u)
    decreases |acts|
  {
    if acts != [] {
      StepOnce(c, s, acts[0]);
      OnceAlways(c, Apply(c, s, acts[0]), acts[1..], u);
    }
  }

  /** Budget one, no crash, any refetch interval: every stored page has its own parse task or its message is there. */
  lemma LiteralWithBudgetOne(c: Settings, topo: Topology, now: nat, acts: seq<Action>, u: Pipe)
    requires GoodSettings(c) && Ready(topo, WORK_QUEUES)
    requires c.proto.SetTo(LISTINGS_FETCH, 1)
    requires Reaches(c, Init(topo, now), acts, u) && CrashFree(acts)
    ensures LiteralClaim(u)
  {
    InitBase(c, topo, now);
    OnceAlways(c, Init(topo, now), acts, u);
    forall i | 0 <= i < |u.t.fetches| && u.t.fetches[i].html.Some?
      ensures Pending(u, i) || Relayed(u, u.t.fetches[i])
    {
      assert OwnRowOk(u, i);
      var o := u.origin[u.t.fetches[i].id].message;
      assert P.IdOk(c.proto, u.p, o);
      if o in u.p.copies { P.DeadCopyHolds(c.proto, u.p, o); }
    }
  }
}
