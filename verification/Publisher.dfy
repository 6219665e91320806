/** Publishing with confirms: what an error tells about the message, and what no error does not. */
module Publisher {
  import opened Tasks
  import opened XDeath
  import opened Topology
  import opened Consumer
  import P = RetryProtocol

  /** What happens on the channel: the send fails, the wait for the confirm fails, or the broker answers. Where the
      client cannot know whether the broker has the message, taken says. */
  datatype Wire = SendFails(taken: bool) | ConfirmFails(taken: bool) | Nack | Ack

  /** The same as the protocol sees it. */
  function AttemptOf(w: Wire): P.Attempt {
    match w
    case SendFails(taken) => P.Attempt(taken, Error)
    case ConfirmFails(taken) => P.Attempt(taken, Error)
    case Nack => P.Attempt(false, Error)
    case Ack => P.Attempt(true, Nil)
  }

  /** The broker has the message: it said so, or it said nothing and has it all the same. */
  predicate Took(w: Wire) { w == Wire.Ack || ((w.SendFails? || w.ConfirmFails?) && w.taken) }

  /** A message on the channel: where to, and what it carries. */
  datatype Frame = Frame(exchange: string, key: string, body: Body, headers: Headers)

  /** A copy that reached a queue. */
  datatype Arrival = Arrival(queue: string, body: Body, headers: Headers)

  /** One copy in every queue bound to the key; none if there is no binding. */
  function Copies(qs: seq<string>, body: Body, headers: Headers): seq<Arrival> {
    if qs == [] then [] else [Arrival(qs[0], body, headers)] + Copies(qs[1..], body, headers)
  }

  function Arrivals(topo: Topology, f: Frame): seq<Arrival> {
    Copies(Route(topo, f.exchange, f.key), f.body, f.headers)
  }

  class Publisher {
    const topo: Topology
    const wires: nat -> Wire    // what happens on the n-th call
    var frames: seq<Frame>      // the calls made so far
    var arrived: seq<Arrival>   // what the queues got from them

    constructor (topo: Topology, wires: nat -> Wire)
      ensures this.topo == topo && this.wires == wires && frames == [] && arrived == []
    {
      this.topo, this.wires := topo, wires;
      frames, arrived := [], [];
    }

    method Send(f: Frame) returns (err: bool)
      modifies this
      ensures frames == old(frames) + [f]
      ensures var a := AttemptOf(wires(|old(frames)|));
        && err == (a.outcome != Nil) && (err <==> wires(|old(frames)|) != Wire.Ack)
        && (a.taken <==> Took(wires(|old(frames)|)))
        && arrived == old(arrived) + if a.taken then Arrivals(topo, f) else []
    {
      var w := wires(|frames|);
      frames := frames + [f];
      match w {
        case SendFails(taken) =>
          if taken { arrived := arrived + Arrivals(topo, f); }
          return true;
        case ConfirmFails(taken) =>
          if taken { arrived := arrived + Arrivals(topo, f); }
          return true;
        case Nack =>
          return true;
        case Ack =>
          arrived := arrived + Arrivals(topo, f);
          return false;
      }
    }

    /** Fresh headers on the work exchange. */
    method Publish(q: string, body: Body) returns (err: bool)
      modifies this
      ensures frames == old(frames) + [Frame("olx.work", q, body, map[])]
      ensures err <==> wires(|old(frames)|) != Wire.Ack
      ensures arrived == old(arrived) + if Took(wires(|old(frames)|))
        then Arrivals(topo, Frame("olx.work", q, body, map[])) else []
    {
      err := Send(Frame(EXCHANGE_WORK, q, body, map[]));
    }

    /** The give-up path: the reason and the origin go along as headers. */
    method PublishDead(q: string, body: Body) returns (err: bool)
      modifies this
      ensures var f := Frame("olx.dead", q + ".dead", body,
                             map["x-dead-reason" := Text("retries exhausted"), "x-original-queue" := Text(q)]);
        && frames == old(frames) + [f]
        && (err <==> wires(|old(frames)|) != Wire.Ack)
        && arrived == old(arrived) + if Took(wires(|old(frames)|)) then Arrivals(topo, f) else []
    {
      err := Send(Frame(EXCHANGE_DEAD, DeadName(q), body, P.DeadHeaders(q)));
    }
  }

  lemma OneCopy(q: string, body: Body, headers: Headers)
    ensures Copies([q], body, headers) == [Arrival(q, body, headers)]
  {
    assert [q][1..] == [];
  }

  /** With the declared bindings a taken message is in exactly one queue, with a rejection count of zero; without a
      binding it is acked all the same and in none. */
  lemma TakenArrivesOnce(topo: Topology, queues: seq<string>, q: string, body: Body)
    ensures Ready(topo, queues) && q in queues ==>
      && Arrivals(topo, Frame(EXCHANGE_WORK, q, body, map[])) == [Arrival(q, body, map[])]
      && Arrivals(topo, Frame(EXCHANGE_DEAD, DeadName(q), body, P.DeadHeaders(q)))
        == [Arrival(DeadName(q), body, P.DeadHeaders(q))]
      && XDeathCount(P.DeadHeaders(q)) == 0 == XDeathCount(map[])
    ensures Route(topo, EXCHANGE_WORK, q) == [] ==> Arrivals(topo, Frame(EXCHANGE_WORK, q, body, map[])) == []
  {
    if Ready(topo, queues) && q in queues {
      RoutesWithinStage(topo, queues, q);
      OneCopy(q, body, map[]);
      OneCopy(DeadName(q), body, P.DeadHeaders(q));
      DeadHeadersCountZero(q);
    }
  }

  lemma DeadHeadersCountZero(q: string)
    ensures XDeathCount(P.DeadHeaders(q)) == 0
  {
    assert "x-dead-reason"[2] == 'd' && X_DEATH[2] == 'd';
    assert |"x-dead-reason"| != |X_DEATH| && |"x-original-queue"| != |X_DEATH|;
  }
}
