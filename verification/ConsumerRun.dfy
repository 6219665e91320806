/** Run: deliveries, goroutines and the WaitGroup as a transition system. */
module ConsumerRun {
  datatype Goroutine = Running | Settled | Finished

  datatype Loop = Ranging | Waiting | Returned

  /** unacked is the broker's view of this consumer; buffered deliveries have been sent but not yet pulled. */
  datatype RunState = RunState(
    loop: Loop,
    open: bool,
    unacked: set<nat>,
    buffered: set<nat>,
    tasks: map<nat, Goroutine>,
    attempts: map<nat, nat>,
    wg: int,
    nextTag: nat)

  const RUN_INIT := RunState(Ranging, true, {}, {}, map[], map[], 0, 0)

  datatype RunStep =
    | Send                        // the broker hands over one more delivery
    | Pull(tag: nat)              // the range loop takes it: wg.Add(1) and go
    | Settle(tag: nat, reached: bool)
    | Done(tag: nat)              // the deferred wg.Done()
    | Cancel                      // the stream closes
    | ChannelDied                 // the broker takes back everything unacked
    | LeaveLoop
    | Return

  predicate RunEnabled(prefetch: int, s: RunState, e: RunStep) {
    match e
    case Send => s.open && |s.unacked| < prefetch
    case Pull(tag) => s.loop == Ranging && tag in s.buffered
    case Settle(tag, reached) => tag in s.tasks && s.tasks[tag] == Running
    case Done(tag) => tag in s.tasks && s.tasks[tag] == Settled
    case Cancel => s.open
    case ChannelDied => s.open
    case LeaveLoop => s.loop == Ranging && !s.open && s.buffered == {}
    case Return => s.loop == Waiting && s.wg == 0
  }

  function RunApply(s: RunState, e: RunStep): RunState {
    match e
    case Send =>
      s.(unacked := s.unacked + {s.nextTag}, buffered := s.buffered + {s.nextTag}, nextTag := s.nextTag + 1)
    case Pull(tag) =>
      s.(buffered := s.buffered - {tag}, tasks := s.tasks[tag := Running], attempts := s.attempts[tag := 0],
         wg := s.wg + 1)
    case Settle(tag, reached) =>
      s.(unacked := if reached then s.unacked - {tag} else s.unacked,
         tasks := s.tasks[tag := Settled],
         attempts := s.attempts[tag := (if tag in s.attempts then s.attempts[tag] else 0) + 1])
    case Done(tag) => s.(tasks := s.tasks[tag := Finished], wg := s.wg - 1)
    case Cancel => s.(open := false)
    case ChannelDied => s.(open := false, unacked := {})
    case LeaveLoop => s.(loop := Waiting)
    case Return => s.(loop := Returned)
  }

  ghost predicate RunReaches(prefetch: int, s: RunState, es: seq<RunStep>, t: RunState)
    decreases |es|
  {
    if es == [] then s == t
    else RunEnabled(prefetch, s, es[0]) && RunReaches(prefetch, RunApply(s, es[0]), es[1..], t)
  }

  function Unfinished(s: RunState): set<nat> {
    set t | t in s.tasks && s.tasks[t] != Finished
  }

  ghost predicate Counted(prefetch: int, s: RunState) {
    |s.unacked| <= prefetch && s.wg == |Unfinished(s)|
  }

  ghost predicate Shaped(s: RunState) {
    && s.tasks.Keys == s.attempts.Keys
    && (forall t | t in s.tasks :: s.attempts[t] == if s.tasks[t] == Running then 0 else 1)
    && (forall t | t in s.tasks :: t < s.nextTag && t !in s.buffered)
    && (forall t | t in s.buffered :: t < s.nextTag)
    && (s.loop != Ranging ==> s.buffered == {} && !s.open)
    && (s.loop == Returned ==> Unfinished(s) == {})
  }

  lemma UnfinishedAfter(s: RunState, e: RunStep)
    requires e.Pull? ==> e.tag !in s.tasks
    requires e.Settle? || e.Done? ==> e.tag in s.tasks
    requires e.Settle? ==> s.tasks[e.tag] == Running
    ensures Unfinished(RunApply(s, e)) ==
            if e.Pull? then Unfinished(s) + {e.tag} else if e.Done? then Unfinished(s) - {e.tag} else Unfinished(s)
  {
  }

  lemma CountedKept(prefetch: int, s: RunState, e: RunStep)
    requires Counted(prefetch, s) && Shaped(s) && RunEnabled(prefetch, s, e)
    ensures Counted(prefetch, RunApply(s, e))
  {
    WgKept(prefetch, s, e);
    SizeOneLess(s.unacked, if e.Settle? then e.tag else 0);
    SizeOneMore(s.unacked, s.nextTag);
  }

  lemma WgKept(prefetch: int, s: RunState, e: RunStep)
    requires s.wg == |Unfinished(s)| && Shaped(s) && RunEnabled(prefetch, s, e)
    ensures RunApply(s, e).wg == |Unfinished(RunApply(s, e))|
  {
    UnfinishedAfter(s, e);
    if e.Pull? { SizeOneMore(Unfinished(s), e.tag); }
    if e.Done? { SizeOneLess(Unfinished(s), e.tag); }
  }

  lemma SizeOneMore(s: set<nat>, x: nat)
    ensures |s + {x}| == if x in s then |s| else |s| + 1
  {
    if x in s { assert s + {x} == s; }
  }

  lemma SizeOneLess(s: set<nat>, x: nat)
    ensures |s - {x}| == if x in s then |s| - 1 else |s|
  {
    if x !in s { assert s - {x} == s; }
  }

  lemma {:induction false} ShapedKept(prefetch: int, s: RunState, e: RunStep)
    requires Counted(prefetch, s) && Shaped(s) && RunEnabled(prefetch, s, e)
    ensures Shaped(RunApply(s, e))
  {
    var s' := RunApply(s, e);
    match e {
      case Settle(tag, reached) => assert tag in Unfinished(s);
      case Done(tag) => assert tag in Unfinished(s);
      case Pull(tag) =>
      case Send =>
      case Return =>
        assert |Unfinished(s)| == 0;
        assert Unfinished(s') == Unfinished(s);
      case _ => assert Unfinished(s') == Unfinished(s);
    }
  }

  // ---- work in hand: deliveries waiting to be pulled, and handlers that have not settled ----

  function Handling(s: RunState): set<nat> { set t | t in s.tasks && s.tasks[t] == Running }

  function InHand(s: RunState): set<nat> { s.buffered + Handling(s) }

  /** While the stream is open the broker counts all of it as unacked; after that nothing is added. */
  ghost predicate Bounded(prefetch: int, s: RunState) {
    |InHand(s)| <= prefetch && (s.open ==> InHand(s) <= s.unacked)
  }

  lemma SubsetSize(a: set<nat>, b: set<nat>)
    requires a <= b
    ensures |a| <= |b|
  {
    assert b == a + (b - a);
  }

  lemma InHandAfter(s: RunState, e: RunStep)
    requires Shaped(s)
    requires e.Pull? ==> e.tag in s.buffered
    requires e.Settle? || e.Done? ==> e.tag in s.tasks
    requires e.Done? ==> s.tasks[e.tag] == Settled
    ensures InHand(RunApply(s, e)) ==
            if e.Send? then InHand(s) + {s.nextTag} else if e.Settle? then InHand(s) - {e.tag} else InHand(s)
  {
  }

  lemma BoundedKept(prefetch: int, s: RunState, e: RunStep)
    requires Counted(prefetch, s) && Shaped(s) && Bounded(prefetch, s) && RunEnabled(prefetch, s, e)
    ensures Bounded(prefetch, RunApply(s, e))
  {
    var s' := RunApply(s, e);
    InHandAfter(s, e);
    if e.Send? {
      SizeOneMore(s.unacked, s.nextTag);
      SubsetSize(InHand(s'), s'.unacked);
    } else {
      SubsetSize(InHand(s'), InHand(s));
    }
  }

  ghost predicate RunInv(prefetch: int, s: RunState) {
    Counted(prefetch, s) && Shaped(s) && Bounded(prefetch, s)
  }

  lemma {:induction false} RunInvAlways(prefetch: int, s: RunState, es: seq<RunStep>, t: RunState)
    requires RunInv(prefetch, s) && RunReaches(prefetch, s, es, t)
    ensures RunInv(prefetch, t)
    decreases |es|
  {
    if es != [] {
      CountedKept(prefetch, s, es[0]);
      ShapedKept(prefetch, s, es[0]);
      BoundedKept(prefetch, s, es[0]);
      RunInvAlways(prefetch, RunApply(s, es[0]), es[1..], t);
    }
  }

  lemma RunInvStep(prefetch: int, s: RunState, e: RunStep)
    requires RunInv(prefetch, s) && RunEnabled(prefetch, s, e)
    ensures RunInv(prefetch, RunApply(s, e))
  {
    CountedKept(prefetch, s, e);
    ShapedKept(prefetch, s, e);
    BoundedKept(prefetch, s, e);
  }

  lemma UnackedStep(prefetch: int, s: RunState, e: RunStep, tag: nat)
    requires Shaped(s) && RunEnabled(prefetch, s, e) && RunApply(s, e).open
    ensures s.open && s.nextTag <= RunApply(s, e).nextTag
    ensures e == RunStep.Settle(tag, true) ==> tag < s.nextTag
    ensures tag in RunApply(s, e).unacked <==>
      (tag in s.unacked || s.nextTag <= tag < RunApply(s, e).nextTag) && e != RunStep.Settle(tag, true)
  {
  }

  lemma InFirstOrRest<T>(xs: seq<T>, x: T)
    requires xs != []
    ensures x in xs <==> x == xs[0] || x in xs[1..]
  {
    assert xs == [xs[0]] + xs[1..];
  }

  lemma {:induction false} UnackedFrom(prefetch: int, s: RunState, es: seq<RunStep>, t: RunState, tag: nat)
    requires RunInv(prefetch, s) && RunReaches(prefetch, s, es, t) && t.open
    ensures s.open && s.nextTag <= t.nextTag
    ensures tag in t.unacked <==>
      (tag in s.unacked || s.nextTag <= tag < t.nextTag) && RunStep.Settle(tag, true) !in es
    decreases |es|
  {
    if es != [] {
      RunInvStep(prefetch, s, es[0]);
      UnackedFrom(prefetch, RunApply(s, es[0]), es[1..], t, tag);
      UnackedStep(prefetch, s, es[0], tag);
      InFirstOrRest(es, RunStep.Settle(tag, true));
    }
  }

  /** The broker's view while the stream is open: it counts exactly the deliveries it handed over and got no settlement
      for. */
  lemma UnackedIs(prefetch: int, es: seq<RunStep>, t: RunState, tag: nat)
    requires prefetch >= 1
    requires RunReaches(prefetch, RUN_INIT, es, t) && t.open
    ensures tag in t.unacked <==> tag < t.nextTag && RunStep.Settle(tag, true) !in es
  {
    assert Unfinished(RUN_INIT) == {} == InHand(RUN_INIT);
    UnackedFrom(prefetch, RUN_INIT, es, t, tag);
  }

  /** Over every run, a dead channel included: the deliveries waiting and the handlers running never number more
      than prefetch, at most one settlement attempt per delivery is made and exactly one once its goroutine has
      moved on, and a normal return leaves no delivery unpulled and no handler behind. */
  lemma RunSafe(prefetch: int, es: seq<RunStep>, t: RunState)
    requires prefetch >= 1
    requires RunReaches(prefetch, RUN_INIT, es, t)
    ensures |t.unacked| <= prefetch
    ensures |t.buffered| + |Handling(t)| <= prefetch
    ensures forall tag | tag in t.tasks ::
      tag in t.attempts && t.attempts[tag] == if t.tasks[tag] == Running then 0 else 1
    ensures t.loop == Returned ==>
      t.buffered == {} && forall tag | tag in t.tasks :: t.tasks[tag] == Finished && t.attempts[tag] == 1
  {
    assert Unfinished(RUN_INIT) == {} == InHand(RUN_INIT);
    RunInvAlways(prefetch, RUN_INIT, es, t);
    assert t.buffered !! Handling(t);
    forall tag | tag in t.tasks && t.loop == Returned ensures t.tasks[tag] == Finished {
      assert tag !in Unfinished(t);
    }
  }
}
