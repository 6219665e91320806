/** Exchanges, queues, bindings, and the Declare loop that builds the work/retry/dead triple of every stage. */
module Topology {
  import opened Common

  const EXCHANGE_WORK := "olx.work"
  const EXCHANGE_RETRY := "olx.retry"
  const EXCHANGE_DEAD := "olx.dead"

  const LISTINGS_DISCOVER := "listings.discover"
  const LISTINGS_FETCH := "listings.fetch"
  const LISTINGS_PARSE := "listings.parse"
  const SELLERS_ENRICH := "sellers.enrich"

  const RETRY_TTL: nat := 60_000

  const WORK_QUEUES: seq<string> := [LISTINGS_DISCOVER, LISTINGS_FETCH, LISTINGS_PARSE, SELLERS_ENRICH]

  datatype Target = Target(exchange: string, key: string)
  datatype QueueArgs = QueueArgs(ttl: Option<nat>, deadLetter: Option<Target>)
  datatype Binding = Binding(exchange: string, key: string, queue: string)

  /** All exchanges are direct, so an exchange is just its name. */
  datatype Topology = Topology(exchanges: set<string>, queues: map<string, QueueArgs>, bindings: seq<Binding>)

  const NO_TOPOLOGY := Topology({}, map[], [])

  function RetryName(q: string): string { q + ".retry" }
  function DeadName(q: string): string { q + ".dead" }

  const DEAD_ARGS := QueueArgs(None, None)
  function RetryArgs(q: string): QueueArgs { QueueArgs(Some(RETRY_TTL), Some(Target(EXCHANGE_WORK, q))) }
  function WorkArgs(q: string): QueueArgs { QueueArgs(None, Some(Target(EXCHANGE_RETRY, RetryName(q)))) }

  // ---- broker operations on a topology value ----

  function DeclareExchange(t: Topology, name: string): Topology {
    t.(exchanges := t.exchanges + {name})
  }

  /** Redeclaring a queue with other arguments is refused. */
  function DeclareQueue(t: Topology, name: string, args: QueueArgs): Result<Topology> {
    if name !in t.queues then Ok(t.(queues := t.queues[name := args]))
    else if t.queues[name] == args then Ok(t)
    else Err
  }

  /** Binding twice is the same as binding once. */
  function BindQueue(t: Topology, queue: string, key: string, exchange: string): Result<Topology> {
    if queue !in t.queues || exchange !in t.exchanges then Err
    else if Binding(exchange, key, queue) in t.bindings then Ok(t)
    else Ok(t.(bindings := t.bindings + [Binding(exchange, key, queue)]))
  }

  /** Direct routing: the queues bound under exactly this key, in binding order. */
  function Select(bs: seq<Binding>, exchange: string, key: string): seq<string> {
    if bs == [] then []
    else
      var b := bs[|bs| - 1];
      Select(bs[..|bs| - 1], exchange, key) + if b.exchange == exchange && b.key == key then [b.queue] else []
  }

  function Route(t: Topology, exchange: string, key: string): seq<string> {
    Select(t.bindings, exchange, key)
  }

  // ---- what the loop computes ----

  function DeclareBound(t: Topology, name: string, args: QueueArgs, exchange: string): Result<Topology> {
    match DeclareQueue(t, name, args)
    case Err => Err
    case Ok(t1) => BindQueue(t1, name, name, exchange)
  }

  function DeclareStage(t: Topology, q: string): Result<Topology> {
    match DeclareBound(t, DeadName(q), DEAD_ARGS, EXCHANGE_DEAD)
    case Err => Err
    case Ok(t1) =>
      match DeclareBound(t1, RetryName(q), RetryArgs(q), EXCHANGE_RETRY)
      case Err => Err
      case Ok(t2) => DeclareBound(t2, q, WorkArgs(q), EXCHANGE_WORK)
  }

  function DeclareStages(t: Topology, qs: seq<string>): Result<Topology> {
    if qs == [] then Ok(t)
    else
      match DeclareStages(t, qs[..|qs| - 1])
      case Err => Err
      case Ok(t1) => DeclareStage(t1, qs[|qs| - 1])
  }

  function DeclareExchanges(t: Topology): Topology {
    t.(exchanges := t.exchanges + {EXCHANGE_WORK, EXCHANGE_RETRY, EXCHANGE_DEAD})
  }

  function DeclareAll(t: Topology, qs: seq<string>): Result<Topology> {
    DeclareStages(DeclareExchanges(t), qs)
  }

  /** What a stage leaves behind when one of its queues is refused: the queues before that one, bound. */
  function StageSoFar(t: Topology, q: string): Topology {
    match DeclareBound(t, DeadName(q), DEAD_ARGS, EXCHANGE_DEAD)
    case Err => t
    case Ok(t1) =>
      match DeclareBound(t1, RetryName(q), RetryArgs(q), EXCHANGE_RETRY)
      case Err => t1
      case Ok(t2) =>
        match DeclareBound(t2, q, WorkArgs(q), EXCHANGE_WORK)
        case Err => t2
        case Ok(t3) => t3
  }

  /** What the stages up to the first refused one leave behind. */
  function SoFar(t: Topology, qs: seq<string>): Topology {
    if qs == [] then t
    else
      match DeclareStages(t, qs[..|qs| - 1])
      case Err => SoFar(t, qs[..|qs| - 1])
      case Ok(t1) => StageSoFar(t1, qs[|qs| - 1])
  }

  // ---- the imperative form ----

  /** An AMQP channel; the broker state it changes is the topology. */
  class Channel {
    var topo: Topology

    constructor (t: Topology)
      ensures topo == t
    {
      topo := t;
    }

    method ExchangeDeclare(name: string) returns (ok: bool)
      modifies this
      ensures ok && topo == DeclareExchange(old(topo), name)
    {
      topo := topo.(exchanges := topo.exchanges + {name});
      ok := true;
    }

    method QueueDeclare(name: string, args: QueueArgs) returns (ok: bool)
      modifies this
      ensures ok == DeclareQueue(old(topo), name, args).Ok?
      ensures topo == if ok then DeclareQueue(old(topo), name, args).value else old(topo)
    {
      if name in topo.queues {
        return topo.queues[name] == args;
      }
      topo := topo.(queues := topo.queues[name := args]);
      ok := true;
    }

    method QueueBind(queue: string, key: string, exchange: string) returns (ok: bool)
      modifies this
      ensures ok == BindQueue(old(topo), queue, key, exchange).Ok?
      ensures topo == if ok then BindQueue(old(topo), queue, key, exchange).value else old(topo)
    {
      if queue !in topo.queues || exchange !in topo.exchanges {
        return false;
      }
      if Binding(exchange, key, queue) !in topo.bindings {
        topo := topo.(bindings := topo.bindings + [Binding(exchange, key, queue)]);
      }
      ok := true;
    }
  }

  /** A queue and the binding of its own name; the bind cannot fail once the queue is there. */
  method DeclareAndBind(ch: Channel, name: string, args: QueueArgs, exchange: string) returns (ok: bool)
    requires exchange in ch.topo.exchanges
    modifies ch
    ensures ok == DeclareBound(old(ch.topo), name, args, exchange).Ok?
    ensures ch.topo == if ok then DeclareBound(old(ch.topo), name, args, exchange).value else old(ch.topo)
    ensures ch.topo.exchanges == old(ch.topo.exchanges)
  {
    ok := ch.QueueDeclare(name, args);
    if ok { ok := ch.QueueBind(name, name, exchange); }
  }

  /** Declare for any list of work queues: an error stops it, leaving what was declared so far. */
  method Declare(ch: Channel, workQueues: seq<string>) returns (ok: bool)
    modifies ch
    ensures ok == DeclareAll(old(ch.topo), workQueues).Ok?
    ensures ok ==> ch.topo == DeclareAll(old(ch.topo), workQueues).value
    ensures !ok ==> ch.topo == SoFar(DeclareExchanges(old(ch.topo)), workQueues)
  {
    ghost var t0 := ch.topo;
    var names := [EXCHANGE_WORK, EXCHANGE_RETRY, EXCHANGE_DEAD];
    for i := 0 to 3
      invariant ch.topo == t0.(exchanges := t0.exchanges + set n | n in names[..i])
    {
      ok := ch.ExchangeDeclare(names[i]);
      assert names[..i + 1] == names[..i] + [names[i]];
      if !ok { return; }
    }
    assert names[..3] == names;
    assert (set n | n in names) == {EXCHANGE_WORK, EXCHANGE_RETRY, EXCHANGE_DEAD};
    assert ch.topo == DeclareExchanges(t0);

    for i := 0 to |workQueues|
      invariant DeclareStages(DeclareExchanges(t0), workQueues[..i]) == Ok(ch.topo)
      invariant {EXCHANGE_WORK, EXCHANGE_RETRY, EXCHANGE_DEAD} <= ch.topo.exchanges
    {
      var q := workQueues[i];
      var retryQ, deadQ := RetryName(q), DeadName(q);
      assert workQueues[..i + 1][..i] == workQueues[..i];
      ghost var before := ch.topo;
      ghost var prefix := workQueues[..i + 1];
      assert DeclareStages(DeclareExchanges(t0), prefix) == DeclareStage(before, q);

      ok := DeclareAndBind(ch, deadQ, QueueArgs(None, None), EXCHANGE_DEAD);
      if ok {
        ok := DeclareAndBind(ch, retryQ, QueueArgs(Some(RETRY_TTL), Some(Target(EXCHANGE_WORK, q))), EXCHANGE_RETRY);
      }
      if ok {
        ok := DeclareAndBind(ch, q, QueueArgs(None, Some(Target(EXCHANGE_RETRY, retryQ))), EXCHANGE_WORK);
      }
      if !ok {
        assert ch.topo == StageSoFar(before, q);
        FailedPrefix(DeclareExchanges(t0), workQueues, i + 1);
        return;
      }
    }
    assert workQueues[..|workQueues|] == workQueues;
    ok := true;
  }

  lemma {:induction false} FailedPrefix(t: Topology, qs: seq<string>, n: nat)
    requires n <= |qs|
    requires DeclareStages(t, qs[..n]).Err?
    ensures DeclareStages(t, qs).Err? && SoFar(t, qs) == SoFar(t, qs[..n])
    decreases |qs| - n
  {
    if n == |qs| {
      assert qs[..n] == qs;
    } else {
      assert qs[..n + 1][..n] == qs[..n];
      FailedPrefix(t, qs, n + 1);
    }
  }

  // ---- names ----

  /** No work queue is named like the retry or dead sibling of a work queue. Repeats are harmless. */
  ghost predicate NoClash(qs: seq<string>) {
    forall q, r | q in qs && r in qs :: q != RetryName(r) && q != DeadName(r)
  }

  lemma SuffixCancels(a: string, b: string, suffix: string)
    requires a + suffix == b + suffix
    ensures a == b
  {
    assert a == (a + suffix)[..|a|];
    assert b == (b + suffix)[..|b|];
  }

  lemma SiblingsDiffer(a: string, b: string)
    ensures RetryName(a) != DeadName(b)
    ensures RetryName(a) == RetryName(b) ==> a == b
    ensures DeadName(a) == DeadName(b) ==> a == b
    ensures RetryName(a) != a && DeadName(a) != a
  {
    assert RetryName(a)[|RetryName(a)| - 1] == 'y';
    assert DeadName(b)[|DeadName(b)| - 1] == 'd';
    if RetryName(a) == RetryName(b) { SuffixCancels(a, b, ".retry"); }
    if DeadName(a) == DeadName(b) { SuffixCancels(a, b, ".dead"); }
    assert |RetryName(a)| == |a| + 6 && |DeadName(a)| == |a| + 5;
  }

  // ---- what a declared topology promises ----

  /** Every binding uses its queue's name as the key, and none is repeated. */
  ghost predicate KeyedByName(t: Topology) {
    && (forall b | b in t.bindings :: b.key == b.queue)
    && (forall i, j | 0 <= i < j < |t.bindings| :: t.bindings[i] != t.bindings[j])
  }

  /** The triple of q exists with its arguments and bindings. */
  ghost predicate HasStage(t: Topology, q: string) {
    var retry, dead := q + ".retry", q + ".dead";
    && dead in t.queues && t.queues[dead] == QueueArgs(None, None)
    && retry in t.queues && t.queues[retry] == QueueArgs(Some(60_000), Some(Target("olx.work", q)))
    && q in t.queues && t.queues[q] == QueueArgs(None, Some(Target("olx.retry", retry)))
    && Binding("olx.dead", dead, dead) in t.bindings
    && Binding("olx.retry", retry, retry) in t.bindings
    && Binding("olx.work", q, q) in t.bindings
  }

  /** The topology every protocol result relies on. */
  ghost predicate Ready(t: Topology, qs: seq<string>) {
    KeyedByName(t) && NoClash(qs) && forall q {:trigger HasStage(t, q)} | q in qs :: HasStage(t, q)
  }

  lemma InInit<T>(xs: seq<T>, x: T)
    requires xs != []
    ensures x in xs <==> x in xs[..|xs| - 1] || x == xs[|xs| - 1]
  {
    assert xs == xs[..|xs| - 1] + [xs[|xs| - 1]];
  }

  lemma {:induction false} SelectExact(bs: seq<Binding>, exchange: string, key: string)
    requires forall b | b in bs :: b.key == b.queue
    requires forall i, j | 0 <= i < j < |bs| :: bs[i] != bs[j]
    ensures Select(bs, exchange, key) == if Binding(exchange, key, key) in bs then [key] else []
  {
    if bs != [] {
      var rest, last := bs[..|bs| - 1], bs[|bs| - 1];
      forall b | b in rest ensures b.key == b.queue && b != last { InInit(bs, b); }
      SelectExact(rest, exchange, key);
      InInit(bs, Binding(exchange, key, key));
      InInit(bs, last);
    }
  }

  /** Stage isolation at the routing level: each of the four moves of a message has exactly one destination. */
  lemma RoutesWithinStage(t: Topology, qs: seq<string>, q: string)
    requires Ready(t, qs) && q in qs
    ensures Route(t, EXCHANGE_WORK, q) == [q]
    ensures Route(t, EXCHANGE_DEAD, DeadName(q)) == [DeadName(q)]
    ensures q in t.queues && t.queues[q] == QueueArgs(None, Some(Target(EXCHANGE_RETRY, RetryName(q))))
    ensures Route(t, EXCHANGE_RETRY, RetryName(q)) == [RetryName(q)]
    ensures RetryName(q) in t.queues
    ensures t.queues[RetryName(q)] == QueueArgs(Some(RETRY_TTL), Some(Target(EXCHANGE_WORK, q)))
    ensures DeadName(q) in t.queues && t.queues[DeadName(q)] == QueueArgs(None, None)
    ensures RetryName(q) !in qs && DeadName(q) !in qs && q != RetryName(q) && q != DeadName(q)
      && RetryName(q) != DeadName(q)
  {
    assert HasStage(t, q);
    SelectExact(t.bindings, EXCHANGE_WORK, q);
    SelectExact(t.bindings, EXCHANGE_DEAD, DeadName(q));
    SelectExact(t.bindings, EXCHANGE_RETRY, RetryName(q));
    SiblingsDiffer(q, q);
  }

  // ---- Declare succeeds on an empty broker exactly when the names do not clash ----

  /** Name n belongs to the triple of stage q. */
  predicate InTriple(n: string, q: string) { n == q || n == RetryName(q) || n == DeadName(q) }

  ghost predicate Owned(done: seq<string>, n: string) {
    exists q {:trigger InTriple(n, q)} :: q in done && InTriple(n, q)
  }

  /** Nothing on the broker beyond the triples of the stages in done. */
  ghost predicate OnlyStages(t: Topology, done: seq<string>) {
    && KeyedByName(t)
    && {EXCHANGE_WORK, EXCHANGE_RETRY, EXCHANGE_DEAD} <= t.exchanges
    && Covers(t, done)
  }

  ghost predicate Covers(t: Topology, done: seq<string>) {
    && (forall q {:trigger HasStage(t, q)} | q in done :: HasStage(t, q))
    && (forall n {:trigger Owned(done, n)} | n in t.queues :: Owned(done, n))
  }

  /** One declare-and-bind, against a topology keyed by name. */
  lemma DeclareBoundSpec(t: Topology, name: string, args: QueueArgs, exchange: string)
    requires KeyedByName(t) && exchange in t.exchanges
    ensures var r := DeclareBound(t, name, args, exchange);
      && (r.Ok? <==> (name in t.queues ==> t.queues[name] == args))
      && (r.Ok? ==>
          && KeyedByName(r.value)
          && r.value.exchanges == t.exchanges
          && r.value.queues == t.queues[name := args]
          && Binding(exchange, name, name) in r.value.bindings
          && (forall b | b in t.bindings :: b in r.value.bindings))
  {
  }

  lemma DeadNameTaken(t: Topology, done: seq<string>, q: string)
    requires OnlyStages(t, done)
    ensures DeadName(q) in t.queues && t.queues[DeadName(q)] != DEAD_ARGS <==> DeadName(q) in done
  {
    var n := DeadName(q);
    if n in done { assert HasStage(t, n); }
    if n in t.queues {
      assert Owned(done, n);
      var r :| r in done && InTriple(n, r);
      SiblingsDiffer(r, q);
      assert HasStage(t, r);
    }
  }

  lemma RetryNameTaken(t: Topology, done: seq<string>, q: string)
    requires OnlyStages(t, done)
    ensures RetryName(q) in t.queues && t.queues[RetryName(q)] != RetryArgs(q) <==> RetryName(q) in done
  {
    var n := RetryName(q);
    assert WorkArgs(n).ttl != RetryArgs(q).ttl;
    if n in done { assert HasStage(t, n); }
    if n in t.queues {
      assert Owned(done, n);
      var r :| r in done && InTriple(n, r);
      SiblingsDiffer(q, r);
      assert HasStage(t, r);
    }
  }

  lemma WorkNameTaken(t: Topology, done: seq<string>, q: string)
    requires OnlyStages(t, done)
    ensures q in t.queues && t.queues[q] != WorkArgs(q) <==>
      exists r :: r in done && (q == RetryName(r) || q == DeadName(r))
  {
    if q in t.queues {
      assert Owned(done, q);
      var r :| r in done && InTriple(q, r);
      assert HasStage(t, r);
    }
    forall r | r in done && (q == RetryName(r) || q == DeadName(r))
      ensures q in t.queues && t.queues[q] != WorkArgs(q)
    {
      assert HasStage(t, r);
      assert RetryArgs(r).ttl != WorkArgs(q).ttl;
    }
  }

  /** NoClash, one queue at a time. */
  ghost predicate Fits(done: seq<string>, q: string) {
    && DeadName(q) !in done && RetryName(q) !in done
    && !exists r :: r in done && (q == RetryName(r) || q == DeadName(r))
  }

  lemma NoClashSnoc(done: seq<string>, q: string)
    ensures NoClash(done + [q]) <==> NoClash(done) && Fits(done, q)
  {
    SiblingsDiffer(q, q);
    var all := done + [q];
    assert forall r :: r in all <==> r in done || r == q;
    if NoClash(all) {
      forall r | r in done ensures r != DeadName(q) && r != RetryName(q) && q != RetryName(r) && q != DeadName(r) {
        assert r in all && q in all;
      }
    }
  }

  /** Declaring never removes an exchange, a queue, its arguments or a binding. */
  ghost predicate Extends(t: Topology, u: Topology) {
    && t.exchanges <= u.exchanges
    && (forall n | n in t.queues :: n in u.queues && u.queues[n] == t.queues[n])
    && (forall b | b in t.bindings :: b in u.bindings)
  }

  lemma StageStays(t: Topology, u: Topology, q: string)
    requires HasStage(t, q) && Extends(t, u)
    ensures HasStage(u, q)
  {
  }

  lemma OwnedSnoc(done: seq<string>, q: string, n: string)
    requires Owned(done, n) || InTriple(n, q)
    ensures Owned(done + [q], n)
  {
    if Owned(done, n) {
      var r :| r in done && InTriple(n, r);
      assert r in done + [q] && InTriple(n, r);
    } else {
      assert q in done + [q] && InTriple(n, q);
    }
  }

  /** One more declared stage keeps the earlier ones and adds only its own names. */
  lemma StageKept(t: Topology, u: Topology, done: seq<string>, q: string, r: string)
    requires Covers(t, done) && Extends(t, u) && HasStage(u, q)
    requires r in done + [q]
    ensures HasStage(u, r)
  {
    if r in done {
      assert HasStage(t, r);
      StageStays(t, u, r);
    }
  }

  lemma NameKept(t: Topology, u: Topology, done: seq<string>, q: string, n: string)
    requires Covers(t, done)
    requires n in t.queues || InTriple(n, q)
    ensures Owned(done + [q], n)
  {
    if n in t.queues { assert Owned(done, n); }
    OwnedSnoc(done, q, n);
  }

  lemma StageKeepsOnly(t: Topology, u: Topology, done: seq<string>, q: string)
    requires Covers(t, done)
    requires forall n {:trigger InTriple(n, q)} | n in u.queues :: n in t.queues || InTriple(n, q)
    requires Extends(t, u) && HasStage(u, q)
    ensures Covers(u, done + [q])
  {
    forall r | r in done + [q] ensures HasStage(u, r) { StageKept(t, u, done, q, r); }
    forall n {:trigger Owned(done + [q], n)} | n in u.queues ensures Owned(done + [q], n) {
      assert InTriple(n, q) || n in t.queues;
      NameKept(t, u, done, q, n);
    }
  }

  lemma DeclareStageSpec(t: Topology, done: seq<string>, q: string)
    requires OnlyStages(t, done)
    ensures DeclareStage(t, q).Ok? <==> Fits(done, q)
    ensures DeclareStage(t, q).Ok? ==> OnlyStages(DeclareStage(t, q).value, done + [q])
  {
    SiblingsDiffer(q, q);
    DeadNameTaken(t, done, q);
    RetryNameTaken(t, done, q);
    WorkNameTaken(t, done, q);
    DeclareBoundSpec(t, DeadName(q), DEAD_ARGS, EXCHANGE_DEAD);
    var r1 := DeclareBound(t, DeadName(q), DEAD_ARGS, EXCHANGE_DEAD);
    if r1.Ok? {
      DeclareBoundSpec(r1.value, RetryName(q), RetryArgs(q), EXCHANGE_RETRY);
      var r2 := DeclareBound(r1.value, RetryName(q), RetryArgs(q), EXCHANGE_RETRY);
      if r2.Ok? {
        DeclareBoundSpec(r2.value, q, WorkArgs(q), EXCHANGE_WORK);
        var r3 := DeclareBound(r2.value, q, WorkArgs(q), EXCHANGE_WORK);
        if r3.Ok? {
          StageKeepsOnly(t, r3.value, done, q);
        }
      }
    }
  }

  lemma {:induction false} DeclareStagesSpec(t: Topology, qs: seq<string>)
    requires OnlyStages(t, [])
    ensures DeclareStages(t, qs).Ok? <==> NoClash(qs)
    ensures DeclareStages(t, qs).Ok? ==> OnlyStages(DeclareStages(t, qs).value, qs)
  {
    if qs != [] {
      var prefix := qs[..|qs| - 1];
      DeclareStagesSpec(t, prefix);
      assert qs == prefix + [qs[|qs| - 1]];
      NoClashSnoc(prefix, qs[|qs| - 1]);
      if DeclareStages(t, prefix).Ok? {
        DeclareStageSpec(DeclareStages(t, prefix).value, prefix, qs[|qs| - 1]);
      }
    }
  }

  /** A key that is no stage's name routes nowhere. */
  lemma RoutesNowhere(t: Topology, qs: seq<string>, exchange: string, key: string)
    requires OnlyStages(t, qs) && (forall b | b in t.bindings :: b.queue in t.queues) && !Owned(qs, key)
    ensures Route(t, exchange, key) == []
  {
    SelectExact(t.bindings, exchange, key);
  }

  lemma BoundQueuesStay(t: Topology, name: string, args: QueueArgs, exchange: string)
    requires (forall b | b in t.bindings :: b.queue in t.queues) && DeclareBound(t, name, args, exchange).Ok?
    ensures var u := DeclareBound(t, name, args, exchange).value; forall b | b in u.bindings :: b.queue in u.queues
  {
  }

  lemma {:induction false} BoundQueuesExist(t: Topology, qs: seq<string>)
    requires (forall b | b in t.bindings :: b.queue in t.queues) && DeclareStages(t, qs).Ok?
    ensures var u := DeclareStages(t, qs).value; forall b | b in u.bindings :: b.queue in u.queues
  {
    if qs != [] {
      var q := qs[|qs| - 1];
      BoundQueuesExist(t, qs[..|qs| - 1]);
      var u := DeclareStages(t, qs[..|qs| - 1]).value;
      BoundQueuesStay(u, DeadName(q), DEAD_ARGS, EXCHANGE_DEAD);
      var u1 := DeclareBound(u, DeadName(q), DEAD_ARGS, EXCHANGE_DEAD).value;
      BoundQueuesStay(u1, RetryName(q), RetryArgs(q), EXCHANGE_RETRY);
      var u2 := DeclareBound(u1, RetryName(q), RetryArgs(q), EXCHANGE_RETRY).value;
      BoundQueuesStay(u2, q, WorkArgs(q), EXCHANGE_WORK);
    }
  }

  /** On an empty broker Declare succeeds exactly when no derived name clashes. Then the topology is ready, has no
      queue beyond the stages' own, and routes a key that is no stage's name nowhere, on any exchange. */
  lemma DeclareFromEmpty(qs: seq<string>)
    ensures DeclareAll(NO_TOPOLOGY, qs).Ok? <==> NoClash(qs)
    ensures DeclareAll(NO_TOPOLOGY, qs).Ok? ==>
      var t := DeclareAll(NO_TOPOLOGY, qs).value;
      && Ready(t, qs) && OnlyStages(t, qs)
      && forall exchange, key {:trigger Route(t, exchange, key)} :: !Owned(qs, key) ==> Route(t, exchange, key) == []
  {
    DeclareStagesSpec(DeclareExchanges(NO_TOPOLOGY), qs);
    if DeclareAll(NO_TOPOLOGY, qs).Ok? {
      var t := DeclareAll(NO_TOPOLOGY, qs).value;
      BoundQueuesExist(DeclareExchanges(NO_TOPOLOGY), qs);
      forall exchange, key {:trigger Route(t, exchange, key)} | !Owned(qs, key) ensures Route(t, exchange, key) == [] {
        RoutesNowhere(t, qs, exchange, key);
      }
    }
  }

  // ---- a second Declare changes nothing ----

  /** Redeclaring a stage that is there is a no-op. */
  lemma DeclareStageTwice(t: Topology, q: string)
    requires HasStage(t, q)
    requires {EXCHANGE_WORK, EXCHANGE_RETRY, EXCHANGE_DEAD} <= t.exchanges
    ensures DeclareStage(t, q) == Ok(t)
  {
  }

  /** One declare-and-bind adds its queue and binding and keeps the rest. */
  lemma DeclareBoundExtends(t: Topology, name: string, args: QueueArgs, exchange: string)
    requires DeclareBound(t, name, args, exchange).Ok?
    ensures var u := DeclareBound(t, name, args, exchange).value;
      Extends(t, u) && name in u.queues && u.queues[name] == args && Binding(exchange, name, name) in u.bindings
  {
  }

  lemma ExtendsChain(t: Topology, u: Topology, v: Topology)
    requires Extends(t, u) && Extends(u, v)
    ensures Extends(t, v)
  {
  }

  lemma DeclareStageExtends(t: Topology, q: string)
    requires DeclareStage(t, q).Ok?
    ensures Extends(t, DeclareStage(t, q).value)
    ensures HasStage(DeclareStage(t, q).value, q)
  {
    var t1 := DeclareBound(t, DeadName(q), DEAD_ARGS, EXCHANGE_DEAD).value;
    var t2 := DeclareBound(t1, RetryName(q), RetryArgs(q), EXCHANGE_RETRY).value;
    var t3 := DeclareBound(t2, q, WorkArgs(q), EXCHANGE_WORK).value;
    DeclareBoundExtends(t, DeadName(q), DEAD_ARGS, EXCHANGE_DEAD);
    DeclareBoundExtends(t1, RetryName(q), RetryArgs(q), EXCHANGE_RETRY);
    DeclareBoundExtends(t2, q, WorkArgs(q), EXCHANGE_WORK);
    ExtendsChain(t, t1, t2);
    ExtendsChain(t, t2, t3);
  }

  lemma {:induction false} DeclareStagesExtends(t: Topology, qs: seq<string>)
    requires DeclareStages(t, qs).Ok?
    ensures Extends(t, DeclareStages(t, qs).value)
    ensures forall q {:trigger q in qs} | q in qs :: HasStage(DeclareStages(t, qs).value, q)
  {
    if qs != [] {
      var prefix := qs[..|qs| - 1];
      DeclareStagesExtends(t, prefix);
      var u := DeclareStages(t, prefix).value;
      DeclareStageExtends(u, qs[|qs| - 1]);
      forall q | q in qs ensures HasStage(DeclareStages(t, qs).value, q) {
        if q in prefix { StageStays(u, DeclareStages(t, qs).value, q); }
      }
    }
  }

  lemma {:induction false} DeclareStagesTwice(t: Topology, qs: seq<string>)
    requires forall q {:trigger HasStage(t, q)} | q in qs :: HasStage(t, q)
    requires {EXCHANGE_WORK, EXCHANGE_RETRY, EXCHANGE_DEAD} <= t.exchanges
    ensures DeclareStages(t, qs) == Ok(t)
  {
    if qs != [] {
      DeclareStagesTwice(t, qs[..|qs| - 1]);
      DeclareStageTwice(t, qs[|qs| - 1]);
    }
  }

  lemma StageSoFarExtends(t: Topology, q: string)
    ensures Extends(t, StageSoFar(t, q))
  {
    if DeclareBound(t, DeadName(q), DEAD_ARGS, EXCHANGE_DEAD).Ok? {
      var t1 := DeclareBound(t, DeadName(q), DEAD_ARGS, EXCHANGE_DEAD).value;
      DeclareBoundExtends(t, DeadName(q), DEAD_ARGS, EXCHANGE_DEAD);
      if DeclareBound(t1, RetryName(q), RetryArgs(q), EXCHANGE_RETRY).Ok? {
        var t2 := DeclareBound(t1, RetryName(q), RetryArgs(q), EXCHANGE_RETRY).value;
        DeclareBoundExtends(t1, RetryName(q), RetryArgs(q), EXCHANGE_RETRY);
        ExtendsChain(t, t1, t2);
        if DeclareBound(t2, q, WorkArgs(q), EXCHANGE_WORK).Ok? { DeclareStageExtends(t, q); }
      }
    }
  }

  /** A Declare that fails keeps whatever there was, has built every stage before the refused one, and has refused
      that one. */
  lemma {:induction false} FailedDeclareKeeps(t: Topology, qs: seq<string>) returns (n: nat)
    requires DeclareStages(t, qs).Err?
    ensures n < |qs| && DeclareStages(t, qs[..n]).Ok? && DeclareStage(DeclareStages(t, qs[..n]).value, qs[n]).Err?
    ensures Extends(t, SoFar(t, qs)) && forall q {:trigger q in qs[..n]} | q in qs[..n] :: HasStage(SoFar(t, qs), q)
  {
    var prefix := qs[..|qs| - 1];
    if DeclareStages(t, prefix).Err? {
      n := FailedDeclareKeeps(t, prefix);
      assert prefix[..n] == qs[..n];
    } else {
      n := |qs| - 1;
      var u := DeclareStages(t, prefix).value;
      DeclareStagesExtends(t, prefix);
      StageSoFarExtends(u, qs[n]);
      ExtendsChain(t, u, SoFar(t, qs));
      forall q | q in prefix ensures HasStage(SoFar(t, qs), q) { StageStays(u, SoFar(t, qs), q); }
    }
  }

  /** From any broker state at all, if Declare succeeds once then doing it again succeeds and changes nothing. */
  lemma DeclareIdempotent(t: Topology, qs: seq<string>)
    requires DeclareAll(t, qs).Ok?
    ensures DeclareAll(DeclareAll(t, qs).value, qs) == DeclareAll(t, qs)
  {
    DeclareStagesExtends(DeclareExchanges(t), qs);
    var u := DeclareAll(t, qs).value;
    assert DeclareExchanges(u) == u by {
      assert u.exchanges + {EXCHANGE_WORK, EXCHANGE_RETRY, EXCHANGE_DEAD} == u.exchanges;
    }
    DeclareStagesTwice(u, qs);
  }

  /** The four queues of the pipeline do not clash. */
  lemma PipelineQueuesReady()
    ensures WORK_QUEUES == ["listings.discover", "listings.fetch", "listings.parse", "sellers.enrich"]
    ensures NoClash(WORK_QUEUES)
    ensures DeclareAll(NO_TOPOLOGY, WORK_QUEUES).Ok?
    ensures Ready(DeclareAll(NO_TOPOLOGY, WORK_QUEUES).value, WORK_QUEUES)
  {
    forall q, r | q in WORK_QUEUES && r in WORK_QUEUES
      ensures q != RetryName(r) && q != DeadName(r)
    {
      assert q[|q| - 1] != 'd' && q[|q| - 1] != 'y';
      var rr, rd := RetryName(r), DeadName(r);
      assert rr[|rr| - 1] == 'y' && rd[|rd| - 1] == 'd';
    }
    DeclareFromEmpty(WORK_QUEUES);
  }
}
