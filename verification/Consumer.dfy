/** The consumer's policy: every path through dispatch makes one settlement attempt. */
module Consumer {
  import opened XDeath

  /** How a Go call comes back: a nil error, a non-nil error, or a panic. */
  datatype Outcome = Nil | Error | Panic

  /** Ack; Nack(requeue=false), which the broker dead-letters; Nack(requeue=true). */
  datatype Settlement = Ack | NackToRetry | NackRequeue

  function AfterHandler(o: Outcome): Settlement {
    if o == Nil then Ack else NackToRetry
  }

  function AfterPromotion(o: Outcome): Settlement {
    match o
    case Nil => Ack
    case Error => NackRequeue
    case Panic => NackToRetry
  }

  /** The policy: with the budget used up the handler's outcome is irrelevant, before that the promotion's is. */
  function Decide(count: int, maxRetries: int, handler: Outcome, promotion: Outcome): Settlement {
    if count >= maxRetries then AfterPromotion(promotion) else AfterHandler(handler)
  }

  /** What dispatch does about a delivery, in order. A settlement is an attempt: it may fail on a dead channel. */
  datatype Effect = CallHandler | PublishDead | Try(how: Settlement)

  /** The policy as a sequence of effects: the dead copy goes out before the ack, and there is one settlement. */
  function Policy(count: int, maxRetries: int, handler: Outcome, promotion: Outcome): seq<Effect> {
    [if count >= maxRetries then PublishDead else CallHandler, Try(Decide(count, maxRetries, handler, promotion))]
  }

  class Delivery {
    const headers: Headers
    var trace: seq<Effect>

    constructor (headers: Headers)
      ensures this.headers == headers && trace == []
    {
      this.headers := headers;
      trace := [];
    }

    /** A call made on behalf of the delivery; how it comes back is an input. */
    method Call(e: Effect, outcome: Outcome) returns (o: Outcome)
      modifies this
      ensures trace == old(trace) + [e] && o == outcome
    {
      trace := trace + [e];
      o := outcome;
    }

    method Ack(alive: bool) returns (ok: bool)
      modifies this
      ensures trace == old(trace) + [Try(Settlement.Ack)] && ok == alive
    {
      trace := trace + [Try(Settlement.Ack)];
      ok := alive;
    }

    method Nack(requeue: bool, alive: bool) returns (ok: bool)
      modifies this
      ensures trace == old(trace) + [Try(if requeue then NackRequeue else NackToRetry)] && ok == alive
    {
      trace := trace + [Try(if requeue then NackRequeue else NackToRetry)];
      ok := alive;
    }
  }

  /** A subscription; non-positive settings fall back to the defaults. */
  class Subscription {
    const queue: string
    const prefetch: int
    const maxRetries: int

    constructor (queue: string, prefetch: int, maxRetries: int)
      requires queue != ""
      ensures this.queue == queue
      ensures this.prefetch == if prefetch <= 0 then 1 else prefetch
      ensures this.maxRetries == if maxRetries <= 0 then 5 else maxRetries
    {
      this.queue := queue;
      this.prefetch := if prefetch <= 0 then 1 else prefetch;
      this.maxRetries := if maxRetries <= 0 then 5 else maxRetries;
    }

    /** One delivery through the policy: whatever the handler or the promotion does, panics included, and whether or
        not the channel is alive. */
    method Dispatch(d: Delivery, handler: Outcome, promotion: Outcome, alive: bool)
      modifies d
      ensures d.trace == old(d.trace) + Policy(XDeathCount(d.headers), maxRetries, handler, promotion)
      ensures old(d.trace) < d.trace && d.trace[|d.trace| - 1].Try?
      ensures forall k | |old(d.trace)| <= k < |d.trace| - 1 :: !d.trace[k].Try?
      ensures var called, how := d.trace[|old(d.trace)|], d.trace[|d.trace| - 1].how;
        if called == CallHandler then how == (if handler == Nil then Settlement.Ack else NackToRetry)
        else how == (if promotion == Nil then Settlement.Ack
                     else if promotion == Error then NackRequeue
                     else NackToRetry)
    {
      var deathCount := CountDeaths(d.headers);
      var panicked := false;
      if deathCount >= maxRetries {
        var o := d.Call(PublishDead, promotion);
        match o {
          case Nil =>
            var _ := d.Ack(alive);
            return;
          case Error =>
            var _ := d.Nack(true, alive);
            return;
          case Panic =>
            panicked := true;
        }
      } else {
        var o := d.Call(CallHandler, handler);
        match o {
          case Nil =>
            var _ := d.Ack(alive);
            return;
          case Error =>
            var _ := d.Nack(false, alive);
            return;
          case Panic =>
            panicked := true;
        }
      }
      // the deferred recover
      if panicked {
        var _ := d.Nack(false, alive);
      }
    }
  }

  // ---- what the policy guarantees ----

  function Settlements(trace: seq<Effect>): nat {
    if trace == [] then 0 else (if trace[0].Try? then 1 else 0) + Settlements(trace[1..])
  }

  /** Exactly one settlement attempt on every path. A delivery is acked only after its handler succeeded or after
      its dead copy was confirmed, and with the budget used up the handler is not called. */
  lemma PolicyIsSafe(count: int, maxRetries: int, handler: Outcome, promotion: Outcome)
    ensures var trace := Policy(count, maxRetries, handler, promotion);
      && Settlements(trace) == 1 && trace[|trace| - 1].Try?
      && (CallHandler in trace <==> count < maxRetries) && (PublishDead in trace <==> count >= maxRetries)
      && (Try(Ack) in trace <==> (CallHandler in trace && handler == Nil) || (PublishDead in trace && promotion == Nil))
      && (Try(NackRequeue) in trace <==> PublishDead in trace && promotion == Error)
      && (Try(NackToRetry) in trace <==>
          (CallHandler in trace && handler != Nil) || (PublishDead in trace && promotion == Panic))
  {
    var trace := Policy(count, maxRetries, handler, promotion);
    assert trace[1..] == [trace[1]] && trace[1..][1..] == [];
    assert Settlements(trace[1..]) == 1;
  }
}
