/** Enrichment fans out completely before it stamps. */
module FanOut {
  import opened Tasks
  import opened Topology
  import opened Consumer
  import P = RetryProtocol
  import opened Pipeline

  /** A fetch task for url reached the fetch queue under an id in [lo, hi). */
  ghost predicate Fetched(p: P.State, url: string, lo: nat, hi: nat) {
    exists m :: lo <= m < hi && m in p.routed && p.routed[m] == P.Sent(LISTINGS_FETCH, FetchTask(url))
  }

  /** What is left to publish is a tail of the plan, and everything before it is out. */
  ghost predicate WorkOk(s: Pipe, id: nat) {
    id in s.work && s.work[id].Sending? && s.work[id].last.Stamp? ==>
      var w := s.work[id];
      var done := |w.last.urls| - |w.todo|;
      && 0 <= done <= |FetchPlan(w.last.urls)| && w.todo == FetchPlan(w.last.urls)[done..]
      && w.last.since <= s.p.next
      && forall j | 0 <= j < done :: Fetched(s.p, w.last.urls[j], w.last.since, s.p.next)
  }

  ghost predicate StampOk(p: P.State, e: Stamped) {
    e.until <= p.next && forall u | u in e.urls :: Fetched(p, u, e.since, e.until)
  }

  ghost predicate Inv(c: Settings, s: Pipe) {
    && Base(c, s)
    && (forall id: nat {:trigger WorkOk(s, id)} :: WorkOk(s, id))
    && (forall i {:trigger StampOk(s.p, s.stamps[i])} | 0 <= i < |s.stamps| :: StampOk(s.p, s.stamps[i]))
  }

  lemma FetchedLater(p: P.State, p': P.State, url: string, lo: nat, hi: nat, hi': nat)
    requires Fetched(p, url, lo, hi) && Later(p, p') && hi <= hi'
    ensures Fetched(p', url, lo, hi')
  {
    var m :| lo <= m < hi && m in p.routed && p.routed[m] == P.Sent(LISTINGS_FETCH, FetchTask(url));
    assert m in p'.routed && lo <= m < hi';
  }

  lemma WorkLater(s: Pipe, s': Pipe, id: nat)
    requires WorkOk(s, id) && Later(s.p, s'.p)
    requires id in s'.work ==> id in s.work && s'.work[id] == s.work[id]
    ensures WorkOk(s', id)
  {
    if id in s'.work && s.work[id].Sending? && s.work[id].last.Stamp? {
      var w := s.work[id];
      forall j | 0 <= j < |w.last.urls| - |w.todo| ensures Fetched(s'.p, w.last.urls[j], w.last.since, s'.p.next) {
        FetchedLater(s.p, s'.p, w.last.urls[j], w.last.since, s.p.next, s'.p.next);
      }
    }
  }

  lemma StampLater(p: P.State, p': P.State, e: Stamped)
    requires StampOk(p, e) && Later(p, p')
    ensures StampOk(p', e)
  {
    forall u | u in e.urls ensures Fetched(p', u, e.since, e.until) {
      FetchedLater(p, p', u, e.since, e.until, e.until);
    }
  }

  /** A confirmed publish moves the head of the plan to the published part. */
  lemma SendOne(c: Settings, s: Pipe, id: nat, attempt: P.Attempt)
    requires Inv(c, s) && Enabled(c, s, Send(id, attempt)) && attempt.outcome == Nil
    requires Later(s.p, Apply(c, s, Send(id, attempt)).p)
    ensures WorkOk(Apply(c, s, Send(id, attempt)), id)
  {
    assert WorkOk(s, id) && Pipeline.WorkOk(s, id);
    var s' := Apply(c, s, Send(id, attempt));
    var w := s.work[id];
    if w.last.Stamp? {
      var done := |w.last.urls| - |w.todo|;
      FetchPlanIs(w.last.urls);
      assert w.todo[0] == FetchPlan(w.last.urls)[done] == P.Sent(LISTINGS_FETCH, FetchTask(w.last.urls[done]));
      P.ApplyDirect(c.proto, s.p, P.Publish(w.todo[0].queue, w.todo[0].body));
      assert s'.p.routed[s.p.next] == w.todo[0] && s'.p.next == s.p.next + 1;
      forall j | 0 <= j < done + 1 ensures Fetched(s'.p, w.last.urls[j], w.last.since, s'.p.next) {
        if j < done {
          FetchedLater(s.p, s'.p, w.last.urls[j], w.last.since, s.p.next, s'.p.next);
        }
      }
    }
  }

  /** Reading the profile starts a plan of which nothing is published yet. */
  lemma ReadOne(c: Settings, s: Pipe, id: nat, urls: seq<string>)
    requires Enabled(c, s, ReadProfile(id, urls))
    ensures WorkOk(Apply(c, s, ReadProfile(id, urls)), id)
  {
    FetchPlanIs(urls);
    assert FetchPlan(urls)[0..] == FetchPlan(urls);
  }

  lemma StepWork(c: Settings, s: Pipe, a: Action, id: nat)
    requires Inv(c, s) && Enabled(c, s, a)
    requires Later(s.p, Apply(c, s, a).p)
    ensures WorkOk(Apply(c, s, a), id)
  {
    var s' := Apply(c, s, a);
    assert WorkOk(s, id);
    if id in s'.work && (id !in s.work || s'.work[id] != s.work[id]) {
      if a.Send? { SendOne(c, s, id, a.attempt); }
      if a.ReadProfile? { ReadOne(c, s, id, a.urls); }
    } else {
      WorkLater(s, s', id);
    }
  }

  lemma StepStamps(c: Settings, s: Pipe, a: Action, i: nat)
    requires Inv(c, s) && Enabled(c, s, a)
    requires Later(s.p, Apply(c, s, a).p)
    requires i < |Apply(c, s, a).stamps|
    ensures StampOk(Apply(c, s, a).p, Apply(c, s, a).stamps[i])
  {
    var s' := Apply(c, s, a);
    if i < |s.stamps| {
      assert StampOk(s.p, s.stamps[i]);
      StampLater(s.p, s'.p, s.stamps[i]);
    } else {
      assert WorkOk(s, a.id);
    }
  }

  lemma StepKeeps(c: Settings, s: Pipe, a: Action)
    requires Inv(c, s) && Enabled(c, s, a)
    ensures Inv(c, Apply(c, s, a))
  {
    var s' := Apply(c, s, a);
    StepKeepsBase(c, s, a);
    StepLater(c, s, a);
    forall id: nat ensures WorkOk(s', id) { StepWork(c, s, a, id); }
    forall i | 0 <= i < |s'.stamps| ensures StampOk(s'.p, s'.stamps[i]) { StepStamps(c, s, a, i); }
  }

  lemma {:induction false} InvAlways(c: Settings, s: Pipe, acts: seq<Action>, u: Pipe)
    requires Inv(c, s) && Reaches(c, s, acts, u)
    ensures Inv(c, u)
    decreases |acts|
  {
    if acts != [] {
      StepKeeps(c, s, acts[0]);
      InvAlways(c, Apply(c, s, acts[0]), acts[1..], u);
    }
  }

  /** Under any publish failure, crash or retry: by the time a seller is stamped, every link of the profile read in
      that handling has been routed to the fetch queue during that handling, and none of those tasks is lost. */
  lemma StampedMeansFannedOut(c: Settings, topo: Topology, now: nat, acts: seq<Action>, u: Pipe, i: nat, url: string)
    returns (m: nat)
    requires GoodSettings(c) && Ready(topo, WORK_QUEUES)
    requires Reaches(c, Init(topo, now), acts, u)
    requires i < |u.stamps| && url in u.stamps[i].urls
    ensures u.stamps[i].since <= m < u.stamps[i].until
    ensures m in u.p.routed && u.p.routed[m] == P.Sent(LISTINGS_FETCH, FetchTask(url))
    ensures m in u.p.handled || P.StillLive(u.p, m) || P.DeadCopy(u.p, m)
  {
    InitBase(c, topo, now);
    InvAlways(c, Init(topo, now), acts, u);
    var e := u.stamps[i];
    assert StampOk(u.p, e);
    assert Fetched(u.p, url, e.since, e.until);
    m :| e.since <= m < e.until && m in u.p.routed && u.p.routed[m] == P.Sent(LISTINGS_FETCH, FetchTask(url));
    PipelineLosesNothing(c, topo, now, acts, u);
  }

  // ---- the links a stamp answers for are the ones its handling read ----

  /** The links of the last profile read by message id's handler, or none if it passed its gate without one. */
  function LastProfile(acts: seq<Action>, id: nat, before: seq<string>): seq<string> {
    if acts == [] then before else LastProfile(acts[1..], id, ProfileAfter(acts[0], id, before))
  }

  function ProfileAfter(a: Action, id: nat, before: seq<string>): seq<string> {
    if a.ReadProfile? && a.id == id then a.urls
    else if a.PassEnrichGate? && a.id == id then []
    else before
  }

  ghost predicate Remembers(s: Pipe, id: nat, urls: seq<string>) {
    && (id in s.work && s.work[id].Sending? && s.work[id].last.Stamp? ==> s.work[id].last.urls == urls)
  }

  lemma StepRemembers(c: Settings, s: Pipe, a: Action, id: nat, urls: seq<string>)
    requires Enabled(c, s, a) && Remembers(s, id, urls)
    ensures Remembers(Apply(c, s, a), id, ProfileAfter(a, id, urls))
  {
  }

  lemma {:induction false} ProfileRemembered(c: Settings, s: Pipe, acts: seq<Action>, u: Pipe, id: nat,
                                             urls: seq<string>)
    requires Reaches(c, s, acts, u) && Remembers(s, id, urls)
    ensures Remembers(u, id, LastProfile(acts, id, urls))
    decreases |acts|
  {
    if acts != [] {
      StepRemembers(c, s, acts[0], id, urls);
      ProfileRemembered(c, Apply(c, s, acts[0]), acts[1..], u, id, ProfileAfter(acts[0], id, urls));
    }
  }

  /** The stamp a Mark adds records the seller being handled, the time, and exactly the links that handling read. */
  lemma StampRecordsItsProfile(c: Settings, topo: Topology, now: nat, acts: seq<Action>, u: Pipe, id: nat)
    requires Reaches(c, Init(topo, now), acts, u) && Enabled(c, u, Mark(id))
    ensures var u' := Apply(c, u, Mark(id));
      && |u'.stamps| == |u.stamps| + 1 && u'.stamps[..|u.stamps|] == u.stamps
      && u'.stamps[|u.stamps|].urls == LastProfile(acts, id, [])
      && u'.stamps[|u.stamps|].user == u.work[id].last.user && u'.stamps[|u.stamps|].at == u.p.now
  {
    ProfileRemembered(c, Init(topo, now), acts, u, id, []);
  }
}
