/** Whatever a handler does when it is called, the transition system can do: its effects are a run of its actions. */
module HandlerRuns {
  import opened Common
  import opened Tasks
  import opened Topology
  import opened Consumer
  import P = RetryProtocol
  import opened Store
  import opened Pipeline
  import opened Publisher
  import opened Handlers
  import opened OwnRuns

  // ---- discovery ----

  /** The handler of message id has just been called, from queue q. */
  ghost predicate Called(c: Settings, s: Pipe, id: nat, q: string) {
    Base(c, s) && id in s.work && s.work[id] == Begin && id in s.p.msgs && s.p.msgs[id].queue == q
  }

  lemma DiscoverIsRun(c: Settings, s: Pipe, id: nat, w: Inputs, from: nat, early: bool)
    requires Called(c, s, id, LISTINGS_DISCOVER) && (w.links.Ok? ==> Pipeline.Links(w.links.value))
    ensures var did := Discovers(c, w.wires, from, s.p.msgs[id].body, early, w.links);
      Performs(c, s, id, w, from, did.outcome, did.tried, s.t)
  {
    var b := s.p.msgs[id].body;
    if b.NotJson? || b.searchUrl == "" {
      Fails(c, s, id, w, from);
    } else if NormalPage(b.page) > c.maxPage {
      Skips(c, s, id, w, from);
    } else if early || w.links.Err? {
      Fails(c, s, id, w, from);
    } else {
      var a := ReadPage(id, w.links.value);
      StepKeepsBase(c, s, a);
      var todo := PagePlan(b.searchUrl, NormalPage(b.page), w.links.value, c.maxPage);
      SendsAndReturns(c, Apply(c, s, a), id, w, from, todo);
      Quietly(c, s, id, w, from, a, SendAll(w.wires, from, todo).outcome, SendAll(w.wires, from, todo).tried, s.t);
    }
  }

  // ---- fetcher ----

  lemma StoresAndSends(c: Settings, s: Pipe, id: nat, w: Inputs, from: nat, status: int, html: string)
    requires Base(c, s) && id in s.work && s.work[id].Fetching? && !Transient(status)
    requires w.reply == Reply(status, html)
    ensures var url := s.work[id].url;
      if status >= 400 then Performs(c, s, id, w, from, Nil, [], InsertFetch(s.t, url, status, None, s.p.now))
      else var sends := SendAll(w.wires, from, [P.Sent(LISTINGS_PARSE, ParseTask(s.t.nextFetch, url))]);
        Performs(c, s, id, w, from, sends.outcome, sends.tried, InsertFetch(s.t, url, status, Some(html), s.p.now))
  {
    var a, url := StoreFetch(id, status, html), s.work[id].url;
    var s' := Apply(c, s, a);
    StepKeepsBase(c, s, a);
    if status >= 400 {
      Returns(c, s', id, w, from);
      Quietly(c, s, id, w, from, a, Nil, [], s'.t);
    } else {
      var todo := [P.Sent(LISTINGS_PARSE, ParseTask(s.t.nextFetch, url))];
      SendsAndReturns(c, s', id, w, from, todo);
      Quietly(c, s, id, w, from, a, SendAll(w.wires, from, todo).outcome, SendAll(w.wires, from, todo).tried, s'.t);
    }
  }

  lemma FetchIsRun(c: Settings, s: Pipe, id: nat, w: Inputs, from: nat, trouble: Trouble)
    requires Called(c, s, id, LISTINGS_FETCH)
    ensures var did := Fetches(c, w.wires, from, s.t, s.p.msgs[id].body, s.p.now, trouble, w.reply);
      Performs(c, s, id, w, from, did.outcome, did.tried, did.t)
  {
    var b := s.p.msgs[id].body;
    if b.NotJson? || b.url == "" || (c.minRefetch > 0 && trouble == AtLookup) {
      Fails(c, s, id, w, from);
    } else if FetchGateCloses(c, s.t, b.url, s.p.now) {
      Skips(c, s, id, w, from);
    } else if trouble == AtLimiter || w.reply.NoReply? || Transient(w.reply.status) || trouble == AtWrite {
      Fails(c, s, id, w, from);
    } else {
      var a := PassFetchGate(id);
      var s' := Apply(c, s, a);
      StepKeepsBase(c, s, a);
      StoresAndSends(c, s', id, w, from, w.reply.status, w.reply.html);
      var did := Fetches(c, w.wires, from, s.t, b, s.p.now, trouble, w.reply);
      Quietly(c, s, id, w, from, a, did.outcome, did.tried, did.t);
    }
  }

  // ---- parser ----

  lemma ParseIsRun(c: Settings, s: Pipe, id: nat, w: Inputs, from: nat, trouble: Trouble, failAt: nat)
    requires Called(c, s, id, LISTINGS_PARSE)
    requires s.p.msgs[id].body.Json? && w.parsed.Ok? ==> ParsedFrom(s.p.msgs[id].body.url, w.parsed.value)
    ensures var did := Parses(w.wires, from, s.t, s.p.msgs[id].body, s.p.now, trouble, w.parsed, failAt);
      Performs(c, s, id, w, from, did.outcome, did.tried, did.t)
  {
    var b := s.p.msgs[id].body;
    if b.NotJson? || b.fetchId == 0 || trouble == AtLookup || FindFetch(s.t, b.fetchId).None? {
      Fails(c, s, id, w, from);
    } else if FindFetch(s.t, b.fetchId).value.html.None? {
      Skips(c, s, id, w, from);
    } else if w.parsed.Err? || failAt <= 3 || CommitParse(s.t, w.parsed.value, s.p.now).Err? {
      Fails(c, s, id, w, from);
    } else {
      var a := StoreParse(id, w.parsed.value);
      var s' := Apply(c, s, a);
      StepKeepsBase(c, s, a);
      var todo := [P.Sent(SELLERS_ENRICH, EnrichTask(w.parsed.value.seller.olxUserId))];
      SendsAndReturns(c, s', id, w, from, todo);
      Quietly(c, s, id, w, from, a, SendAll(w.wires, from, todo).outcome, SendAll(w.wires, from, todo).tried, s'.t);
    }
  }

  // ---- enricher ----

  /** Marking, or failing to: the end of an enrichment. */
  lemma MarksAndReturns(c: Settings, s: Pipe, id: nat, w: Inputs, from: nat, fails: bool)
    requires id in s.work && s.work[id].Sending? && s.work[id].todo == [] && s.work[id].last.Stamp?
    requires s.work[id].last.user in s.t.sellers
    ensures Performs(c, s, id, w, from, if fails then Error else Nil, [],
                     if fails then s.t else MarkSellerEnriched(s.t, s.t.sellers[s.work[id].last.user].id, s.p.now))
  {
    if fails {
      Fails(c, s, id, w, from);
    } else {
      var s' := Apply(c, s, Mark(id));
      Returns(c, s', id, w, from);
      Quietly(c, s, id, w, from, Mark(id), Nil, [], s'.t);
    }
  }

  lemma {:induction false} SendsAndMarks(c: Settings, s: Pipe, id: nat, w: Inputs, from: nat,
                                         todo: seq<P.Sent>, last: Final, fails: bool)
    requires Base(c, s) && id in s.work && s.work[id] == Sending(todo, last) && last.Stamp? && last.user in s.t.sellers
    ensures var sends := SendAll(w.wires, from, todo);
      var marked := if fails then s.t else MarkSellerEnriched(s.t, s.t.sellers[last.user].id, s.p.now);
      if sends.outcome != Nil then Performs(c, s, id, w, from, sends.outcome, sends.tried, s.t)
      else Performs(c, s, id, w, from, if fails then Error else Nil, sends.tried, marked)
    decreases |todo|
  {
    if todo == [] {
      MarksAndReturns(c, s, id, w, from, fails);
    } else {
      FirstSend(w.wires, from, todo);
      OnePublish(c, s, id, w.wires(from));
      var s' := Apply(c, s, Send(id, AttemptOf(w.wires(from))));
      if Confirms(w.wires(from)) {
        var rest := SendAll(w.wires, from + 1, todo[1..]);
        var marked := if fails then s.t else MarkSellerEnriched(s.t, s.t.sellers[last.user].id, s.p.now);
        SendsAndMarks(c, s', id, w, from + 1, todo[1..], last, fails);
        if rest.outcome != Nil {
          Loudly(c, s, id, w, from, rest.outcome, rest.tried, s.t);
        } else {
          Loudly(c, s, id, w, from, if fails then Error else Nil, rest.tried, marked);
        }
      } else {
        AtTheEnd(c, s', id, w, from + 1, Error);
        Loudly(c, s, id, w, from, Error, [], s.t);
        assert [todo[0]] + [] == [todo[0]];
      }
    }
  }

  lemma EnrichIsRun(c: Settings, s: Pipe, id: nat, w: Inputs, from: nat, trouble: Trouble)
    requires Called(c, s, id, SELLERS_ENRICH) && (w.links.Ok? ==> Pipeline.Links(w.links.value))
    ensures var did := Enriches(c, w.wires, from, s.t, s.p.msgs[id].body, s.p.now, trouble, w.links);
      Performs(c, s, id, w, from, did.outcome, did.tried, did.t)
  {
    var b := s.p.msgs[id].body;
    if b.NotJson? || b.olxUserId == "" || trouble == AtLookup {
      Fails(c, s, id, w, from);
    } else if b.olxUserId !in s.t.sellers || Fresh(c, s.t, b.olxUserId, s.p.now) {
      Skips(c, s, id, w, from);
    } else {
      var did := Enriches(c, w.wires, from, s.t, b, s.p.now, trouble, w.links);
      PassesAndEnriches(c, s, id, w, from, trouble, did);
    }
  }

  lemma PassesAndEnriches(c: Settings, s: Pipe, id: nat, w: Inputs, from: nat, trouble: Trouble, did: Did)
    requires Called(c, s, id, SELLERS_ENRICH) && (w.links.Ok? ==> Pipeline.Links(w.links.value))
    requires Enabled(c, s, PassEnrichGate(id)) && trouble != AtLookup
    requires did == Enriches(c, w.wires, from, s.t, s.p.msgs[id].body, s.p.now, trouble, w.links)
    ensures Performs(c, s, id, w, from, did.outcome, did.tried, did.t)
  {
    var a, user := PassEnrichGate(id), s.p.msgs[id].body.olxUserId;
    var s1 := Apply(c, s, a);
    var link := s.t.sellers[user].cols.profileUrl;
    StepKeepsBase(c, s, a);
    if link == None || link == Some("") {
      MarksAndReturns(c, s1, id, w, from, trouble == AtWrite);
    } else if trouble == AtLimiter || w.links.Err? {
      Fails(c, s1, id, w, from);
    } else {
      var read := ReadProfile(id, w.links.value);
      var s2 := Apply(c, s1, read);
      StepKeepsBase(c, s1, read);
      SendsAndMarks(c, s2, id, w, from, FetchPlan(w.links.value), s2.work[id].last, trouble == AtWrite);
      Quietly(c, s1, id, w, from, read, did.outcome, did.tried, did.t);
    }
    Quietly(c, s, id, w, from, a, did.outcome, did.tried, did.t);
  }
}
