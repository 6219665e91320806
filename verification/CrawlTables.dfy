/** The tables of the running crawler are those of a statement history, so what holds after any history holds in
    every reachable state. */
module CrawlTables {
  import opened Common
  import opened Topology
  import opened Pipeline
  import opened Sums
  import H = StoreHistory
  import Scoring

  /** The statement behind an action, if it has one. */
  ghost function Statement(c: Settings, s: Pipe, a: Action): seq<H.Op>
    requires Enabled(c, s, a)
  {
    match a
    case StoreFetch(id, status, html) =>
      [H.Fetch(s.work[id].url, status, if status >= 400 then None else Some(html), s.p.now)]
    case StoreParse(id, r) => [H.Parse(r, s.p.now)]
    case Mark(id) => [H.Op.Mark(s.t.sellers[s.work[id].last.user].id, s.p.now)]
    case _ => []
  }

  /** The statements a run commits, in order. */
  ghost function Statements(c: Settings, s: Pipe, acts: seq<Action>): seq<H.Op>
    decreases |acts|
  {
    if acts == [] || !Enabled(c, s, acts[0]) then []
    else Statement(c, s, acts[0]) + Statements(c, Apply(c, s, acts[0]), acts[1..])
  }

  lemma StepRuns(c: Settings, s: Pipe, a: Action, ops: seq<H.Op>)
    requires Enabled(c, s, a) && s.t == H.Run(ops)
    ensures Apply(c, s, a).t == H.Run(ops + Statement(c, s, a))
  {
    if Statement(c, s, a) == [] {
      assert ops + [] == ops;
    } else {
      H.RunSnoc(ops, Statement(c, s, a)[0]);
    }
  }

  lemma Appended<T>(a: seq<T>, b: seq<T>, c: seq<T>)
    ensures a + b + c == a + (b + c)
  {
  }

  lemma {:induction false} RunRuns(c: Settings, s: Pipe, acts: seq<Action>, u: Pipe, ops: seq<H.Op>)
    requires Reaches(c, s, acts, u) && s.t == H.Run(ops)
    ensures u.t == H.Run(ops + Statements(c, s, acts))
    decreases |acts|
  {
    if acts == [] {
      assert ops + [] == ops;
    } else {
      var stmt, s' := Statement(c, s, acts[0]), Apply(c, s, acts[0]);
      StepRuns(c, s, acts[0], ops);
      RunRuns(c, s', acts[1..], u, ops + stmt);
      Appended(ops, stmt, Statements(c, s', acts[1..]));
    }
  }

  /** In every reachable state the tables are those of the statements committed on the way: a row for every seller
      and listing parsed, with the columns the history says, a snapshot for every distinct listing state, and seller
      totals that add up. */
  lemma TablesAreHistory(c: Settings, topo: Topology, now: nat, acts: seq<Action>, u: Pipe)
    requires Reaches(c, Init(topo, now), acts, u)
    ensures var ops := Statements(c, Init(topo, now), acts);
      && u.t == H.Run(ops)
      && (forall user :: user in u.t.sellers <==> H.First(ops, H.ParseOf(user)).Some?)
      && (forall user | user in u.t.sellers :: H.SellerRowIs(ops, user, u.t.sellers[user]))
      && (forall key | key in u.t.listings :: H.ListingRowIs(ops, key, u.t.listings[key]))
      && (forall key | key in u.t.listings :: |H.KeysOf(u.t, u.t.listings[key].id)| == |H.Tuples(ops, key)|)
      && Sum(Scoring.Totals(Scoring.SellerStats(u.t))) == |u.t.listings|
  {
    var ops := Statements(c, Init(topo, now), acts);
    RunRuns(c, Init(topo, now), acts, u, []);
    assert [] + ops == ops;
    forall user ensures user in u.t.sellers <==> H.First(ops, H.ParseOf(user)).Some?
      ensures user in u.t.sellers ==> H.SellerRowIs(ops, user, u.t.sellers[user])
    {
      H.SellerRows(ops, user);
    }
    forall key | key in u.t.listings
      ensures H.ListingRowIs(ops, key, u.t.listings[key])
      ensures |H.KeysOf(u.t, u.t.listings[key].id)| == |H.Tuples(ops, key)|
    {
      H.ListingRows(ops, key);
      H.SnapshotsMatchStates(ops, key);
    }
    Scoring.TotalsAddUp(ops);
  }
}
