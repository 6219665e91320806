/** Runs of one handler alone, and how they are put together from its actions. */
module OwnRuns {
  import opened Common
  import opened Consumer
  import P = RetryProtocol
  import opened Store
  import opened Pipeline
  import opened Publisher
  import opened Handlers
  import T = Termination

  /** What the world has for a handler: the links of the page or profile it reads, the reply to its fetch, what its
      page parses to, and what happens on each call. */
  datatype Inputs = Inputs(links: Result<seq<string>>, reply: Reply, parsed: Result<Parsed>, wires: nat -> Wire)

  /** The action takes in what the world has. */
  predicate TakesIn(w: Inputs, a: Action) {
    match a
    case ReadPage(_, urls) => w.links == Ok(urls)
    case ReadProfile(_, urls) => w.links == Ok(urls)
    case StoreFetch(_, status, html) => w.reply == Reply(status, html)
    case StoreParse(_, r) => w.parsed == Ok(r)
    case _ => true
  }

  /** The actions a handler takes itself. */
  predicate OwnAction(a: Action, id: nat) { !a.Broker? && !a.External? && !a.Call? && a.id == id }

  /** A run of handler id alone on these inputs, with exactly these publishes tried on the way, the first of them call
      number from. */
  ghost predicate Own(c: Settings, s: Pipe, id: nat, w: Inputs, from: nat, acts: seq<Action>, tried: seq<P.Sent>,
                      u: Pipe)
    decreases |acts|
  {
    if acts == [] then s == u && tried == []
    else
      && OwnAction(acts[0], id) && Enabled(c, s, acts[0]) && TakesIn(w, acts[0])
      && if acts[0].Send? then
           && acts[0].attempt == AttemptOf(w.wires(from)) && tried != [] && tried[0] == s.work[id].todo[0]
           && Own(c, Apply(c, s, acts[0]), id, w, from + 1, acts[1..], tried[1..], u)
         else Own(c, Apply(c, s, acts[0]), id, w, from, acts[1..], tried, u)
  }

  ghost predicate Does(c: Settings, s: Pipe, id: nat, w: Inputs, from: nat, tried: seq<P.Sent>, u: Pipe) {
    exists acts :: Own(c, s, id, w, from, acts, tried, u)
  }

  /** The handler runs to its end: it returns with this outcome, leaves these tables, and has tried these publishes. */
  ghost predicate Performs(c: Settings, s: Pipe, id: nat, w: Inputs, from: nat, outcome: Outcome, tried: seq<P.Sent>,
                           t: Tables) {
    exists u :: Does(c, s, id, w, from, tried, u) && Finished(u, id, outcome) && u.t == t
  }

  ghost predicate Finished(u: Pipe, id: nat, outcome: Outcome) {
    id !in u.work && id in u.p.tasks && u.p.tasks[id] == P.Settling(AfterHandler(outcome))
  }

  // ---- building runs ----

  /** An action that publishes nothing, then the rest. */
  lemma Quietly(c: Settings, s: Pipe, id: nat, w: Inputs, from: nat, a: Action, outcome: Outcome, tried: seq<P.Sent>,
                t: Tables)
    requires OwnAction(a, id) && !a.Send? && Enabled(c, s, a) && TakesIn(w, a)
    requires Performs(c, Apply(c, s, a), id, w, from, outcome, tried, t)
    ensures Performs(c, s, id, w, from, outcome, tried, t)
  {
    var u :| Does(c, Apply(c, s, a), id, w, from, tried, u) && Finished(u, id, outcome) && u.t == t;
    var acts :| Own(c, Apply(c, s, a), id, w, from, acts, tried, u);
    assert ([a] + acts)[1..] == acts;
    assert Own(c, s, id, w, from, [a] + acts, tried, u);
    assert Does(c, s, id, w, from, tried, u);
  }

  /** A publish, then the rest. */
  lemma Loudly(c: Settings, s: Pipe, id: nat, w: Inputs, from: nat, outcome: Outcome, tried: seq<P.Sent>, t: Tables)
    requires Enabled(c, s, Send(id, AttemptOf(w.wires(from))))
    requires Performs(c, Apply(c, s, Send(id, AttemptOf(w.wires(from)))), id, w, from + 1, outcome, tried, t)
    ensures Performs(c, s, id, w, from, outcome, [s.work[id].todo[0]] + tried, t)
  {
    var a, all := Send(id, AttemptOf(w.wires(from))), [s.work[id].todo[0]] + tried;
    var u :| Does(c, Apply(c, s, a), id, w, from + 1, tried, u) && Finished(u, id, outcome) && u.t == t;
    var acts :| Own(c, Apply(c, s, a), id, w, from + 1, acts, tried, u);
    assert ([a] + acts)[1..] == acts && all[1..] == tried;
    assert Own(c, s, id, w, from, [a] + acts, all, u);
    assert Does(c, s, id, w, from, all, u);
  }

  lemma AtTheEnd(c: Settings, u: Pipe, id: nat, w: Inputs, from: nat, outcome: Outcome)
    requires Finished(u, id, outcome)
    ensures Performs(c, u, id, w, from, outcome, [], u.t)
  {
    assert Own(c, u, id, w, from, [], [], u);
    assert Does(c, u, id, w, from, [], u);
  }

  lemma Fails(c: Settings, s: Pipe, id: nat, w: Inputs, from: nat)
    requires id in s.work
    ensures Performs(c, s, id, w, from, Error, [], s.t)
  {
    AtTheEnd(c, Finish(s, id, Error), id, w, from, Error);
    Quietly(c, s, id, w, from, Fail(id, Error), Error, [], s.t);
  }

  lemma Skips(c: Settings, s: Pipe, id: nat, w: Inputs, from: nat)
    requires Enabled(c, s, Skip(id)) && id in s.work
    ensures Performs(c, s, id, w, from, Nil, [], s.t)
  {
    AtTheEnd(c, Finish(s, id, Nil), id, w, from, Nil);
    Quietly(c, s, id, w, from, Skip(id), Nil, [], s.t);
  }

  lemma Returns(c: Settings, s: Pipe, id: nat, w: Inputs, from: nat)
    requires id in s.work && s.work[id] == Sending([], Done)
    ensures Performs(c, s, id, w, from, Nil, [], s.t)
  {
    AtTheEnd(c, Finish(s, id, Nil), id, w, from, Nil);
    Quietly(c, s, id, w, from, Return(id), Nil, [], s.t);
  }

  /** One publish: the handler goes on with the rest, or it has failed. */
  lemma OnePublish(c: Settings, s: Pipe, id: nat, wire: Wire)
    requires Base(c, s) && id in s.work && s.work[id].Sending? && s.work[id].todo != []
    ensures var a := Send(id, AttemptOf(wire));
      Enabled(c, s, a) && var s' := Apply(c, s, a);
      && Base(c, s') && s'.t == s.t && s'.p.now == s.p.now
      && if Confirms(wire) then id in s'.work && s'.work[id] == s.work[id].(todo := s.work[id].todo[1..])
        else Finished(s', id, Error)
  {
    var a := Send(id, AttemptOf(wire));
    StepKeepsBase(c, s, a);
    T.NowAfter(c, s, a);
  }

  /** A plan with nothing to do behind it: SendAll says how it goes. */
  lemma {:induction false} SendsAndReturns(c: Settings, s: Pipe, id: nat, w: Inputs, from: nat, todo: seq<P.Sent>)
    requires Base(c, s) && id in s.work && s.work[id] == Sending(todo, Done)
    ensures var sends := SendAll(w.wires, from, todo); Performs(c, s, id, w, from, sends.outcome, sends.tried, s.t)
    decreases |todo|
  {
    if todo == [] {
      Returns(c, s, id, w, from);
    } else {
      FirstSend(w.wires, from, todo);
      OnePublish(c, s, id, w.wires(from));
      var s' := Apply(c, s, Send(id, AttemptOf(w.wires(from))));
      if Confirms(w.wires(from)) {
        var rest := SendAll(w.wires, from + 1, todo[1..]);
        SendsAndReturns(c, s', id, w, from + 1, todo[1..]);
        Loudly(c, s, id, w, from, rest.outcome, rest.tried, s.t);
      } else {
        AtTheEnd(c, s', id, w, from + 1, Error);
        Loudly(c, s, id, w, from, Error, [], s.t);
        assert [todo[0]] + [] == [todo[0]];
      }
    }
  }
}
