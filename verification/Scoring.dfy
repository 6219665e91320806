/** Aggregates, scores and the ranking: what they say after any history of statements. */
module Scoring {
  import opened Common
  import opened Store
  import opened StoreHistory
  import opened Sums

  // ---- the materialised aggregate ----

  datatype Stats = Stats(total: nat, active: nat, districts: nat, cities: nat)

  function SellerIds(t: Tables): set<nat> { set u | u in t.sellers :: t.sellers[u].id }

  function ListingsOf(t: Tables, id: nat): set<string> { set l | l in t.listings && t.listings[l].cols.sellerId == id }

  /** One group of the left join; a NULL district or city is not counted. */
  function StatsOf(t: Tables, id: nat): Stats {
    var ls := ListingsOf(t, id);
    Stats(|ls|,
          |set l | l in ls && t.listings[l].cols.status == "active"|,
          |set l | l in ls && t.listings[l].cols.details.district.Some? :: t.listings[l].cols.details.district.value|,
          |set l | l in ls && t.listings[l].cols.details.city.Some? :: t.listings[l].cols.details.city.value|)
  }

  function SellerStats(t: Tables): map<nat, Stats> { map id | id in SellerIds(t) :: StatsOf(t, id) }

  /** The tables together with the last refreshed aggregate. */
  datatype World = World(t: Tables, stats: map<nat, Stats>)

  datatype Event = Do(op: Op) | Refresh

  function Play(events: seq<Event>): World {
    if events == [] then World(NO_ROWS, map[])
    else
      var w := Play(events[..|events| - 1]);
      match events[|events| - 1]
      case Do(op) => w.(t := Step(w.t, op))
      case Refresh => w.(stats := SellerStats(w.t))
  }

  /** The statements of a run, refreshes left out. */
  function OpsOf(events: seq<Event>): seq<Op> {
    if events == [] then []
    else OpsOf(events[..|events| - 1]) + match events[|events| - 1] case Do(op) => [op] case Refresh => []
  }

  lemma {:induction false} PlayIsRun(events: seq<Event>)
    ensures Play(events).t == Run(OpsOf(events))
  {
    if events != [] {
      var n := |events| - 1;
      PlayIsRun(events[..n]);
      if events[n].Do? {
        RunSnoc(OpsOf(events[..n]), events[n].op);
      } else {
        assert OpsOf(events[..n]) + [] == OpsOf(events[..n]);
      }
    }
  }

  function Totals(stats: map<nat, Stats>): map<nat, nat> { map id | id in stats :: stats[id].total }

  /** Every listing counts for exactly one of the sellers in ids. */
  lemma {:induction false} GroupsAddUp(t: Tables, ids: set<nat>, counts: map<nat, nat>, ls: set<string>)
    requires counts.Keys == ids && forall id | id in ids :: counts[id] == |ListingsOf(t, id)|
    requires ls == set l | l in t.listings && t.listings[l].cols.sellerId in ids
    ensures Sum(counts) == |ls|
    decreases |ids|
  {
    if ids == {} {
      assert counts == map[] && ls == {};
    } else {
      var id :| id in ids;
      var rest := set l | l in t.listings && t.listings[l].cols.sellerId in ids - {id};
      SumTake(counts, id);
      GroupsAddUp(t, ids - {id}, counts - {id}, rest);
      assert ls == rest + ListingsOf(t, id) && rest !! ListingsOf(t, id);
    }
  }

  /** After any history the group totals of a fresh aggregate add up to the number of listings: a listing that moves
      to another seller leaves one group and joins the other. */
  lemma TotalsAddUp(ops: seq<Op>)
    ensures Sum(Totals(SellerStats(Run(ops)))) == |Run(ops).listings|
  {
    var t := Run(ops);
    forall l | l in t.listings ensures t.listings[l].cols.sellerId in SellerIds(t) { ListingRows(ops, l); }
    var ls := set l | l in t.listings && t.listings[l].cols.sellerId in SellerIds(t);
    assert ls == t.listings.Keys;
    GroupsAddUp(t, SellerIds(t), Totals(SellerStats(t)), ls);
  }

  lemma {:induction false} StatsStay(events: seq<Event>, k: nat)
    requires k < |events| && events[k].Refresh? && forall i | k < i < |events| :: events[i].Do?
    ensures Play(events).stats == SellerStats(Play(events[..k]).t)
    decreases |events|
  {
    var n := |events| - 1;
    if k < n {
      StatsStay(events[..n], k);
      assert events[..n][..k] == events[..k];
    }
  }

  /** The aggregate stays as the last refresh left it: its totals add up to the listings there were then. */
  lemma StatsAreOfLastRefresh(events: seq<Event>, k: nat)
    requires k < |events| && events[k].Refresh? && forall i | k < i < |events| :: events[i].Do?
    ensures Play(events).stats == SellerStats(Play(events[..k]).t)
    ensures Sum(Totals(Play(events).stats)) == |Play(events[..k]).t.listings|
  {
    StatsStay(events, k);
    PlayIsRun(events[..k]);
    TotalsAddUp(OpsOf(events[..k]));
  }

  // ---- the score ----

  /** The two instants the account age is compared with. */
  datatype Cutoffs = Cutoffs(twoYearsAgo: Time, sixMonthsAgo: Time)

  function Personhood(business: bool): real { if business then -0.5 else 0.3 }

  function ListingsScore(active: nat): real {
    if active == 0 then 0.0 else if active <= 2 then 0.3 else if active <= 5 then 0.15 else if active <= 10 then 0.05
      else 0.0
  }

  function GeographyScore(districts: nat): real { if districts <= 1 then 0.2 else if districts == 2 then 0.1 else 0.0 }

  function AgeScore(registered: Option<Time>, cut: Cutoffs): real {
    if registered.None? then 0.0
    else if registered.value < cut.twoYearsAgo then 0.2
    else if registered.value < cut.sixMonthsAgo then 0.1
    else 0.0
  }

  /** A seller without an aggregate row counts zero of everything. */
  function Coalesced(stats: map<nat, Stats>, id: nat): Stats { if id in stats then stats[id] else Stats(0, 0, 0, 0) }

  function Formula(row: SellerRow, stats: map<nat, Stats>, cut: Cutoffs): real {
    var s := Coalesced(stats, row.id);
    Personhood(row.cols.isBusiness) + ListingsScore(s.active) + GeographyScore(s.districts)
      + AgeScore(row.registeredAt, cut)
  }

  function Greatest(a: real, b: real): real { if a >= b then a else b }
  function Least(a: real, b: real): real { if a <= b then a else b }

  function Score(row: SellerRow, stats: map<nat, Stats>, cut: Cutoffs): real {
    if row.manualLabel == Some("owner") then 1.0
    else if row.manualLabel == Some("agency") then 0.0
    else Least(1.0, Greatest(0.0, Formula(row, stats, cut)))
  }

  /** What the aggregate counts: the listings of the seller, those of them that are active, and the districts and cities
      named by at least one of them. */
  lemma StatsCount(t: Tables, id: nat) returns (all: set<string>, active: set<string>, districts: set<string>,
                                                cities: set<string>)
    ensures StatsOf(t, id) == Stats(|all|, |active|, |districts|, |cities|)
    ensures forall l :: l in all <==> l in t.listings && t.listings[l].cols.sellerId == id
    ensures forall l :: l in active <==>
      l in t.listings && t.listings[l].cols.sellerId == id && t.listings[l].cols.status == "active"
    ensures forall d :: d in districts <==> exists l ::
      l in t.listings && t.listings[l].cols.sellerId == id && t.listings[l].cols.details.district == Some(d)
    ensures forall d :: d in cities <==> exists l ::
      l in t.listings && t.listings[l].cols.sellerId == id && t.listings[l].cols.details.city == Some(d)
  {
    all := ListingsOf(t, id);
    active := set l | l in all && t.listings[l].cols.status == "active";
    districts := set l | l in all && t.listings[l].cols.details.district.Some?
      :: t.listings[l].cols.details.district.value;
    cities := set l | l in all && t.listings[l].cols.details.city.Some? :: t.listings[l].cols.details.city.value;
  }

  /** A fresh aggregate has a row for every seller and for nobody else. */
  lemma StatsForEachSeller(t: Tables)
    ensures forall id :: id in SellerStats(t) <==> exists u :: u in t.sellers && t.sellers[u].id == id
    ensures forall id | id in SellerStats(t) :: SellerStats(t)[id] == StatsOf(t, id)
  {
  }

  /** The score of a seller without a label is a sum of four tiers, not below zero: what the seller is, how many active
      listings, in how many districts, and how old the account is. A seller without an aggregate row has none of
      them. */
  lemma ScoreTiers(row: SellerRow, stats: map<nat, Stats>, cut: Cutoffs, active: nat, districts: nat)
    returns (kind: real, count: real, place: real, age: real)
    requires row.manualLabel != Some("owner") && row.manualLabel != Some("agency")
    requires if row.id in stats then stats[row.id].active == active && stats[row.id].districts == districts
             else active == districts == 0
    ensures Score(row, stats, cut) == if kind + count + place + age < 0.0 then 0.0 else kind + count + place + age
    ensures kind == if row.cols.isBusiness then -0.5 else 0.3
    ensures (1 <= active <= 2 ==> count == 0.3) && (3 <= active <= 5 ==> count == 0.15)
    ensures (6 <= active <= 10 ==> count == 0.05) && (active == 0 || active > 10 ==> count == 0.0)
    ensures (districts <= 1 ==> place == 0.2) && (districts == 2 ==> place == 0.1)
    ensures districts >= 3 ==> place == 0.0
    ensures row.registeredAt.None? ==> age == 0.0
    ensures row.registeredAt.Some? ==>
      var at := row.registeredAt.value;
      && (at < cut.twoYearsAgo ==> age == 0.2) && (cut.twoYearsAgo <= at < cut.sixMonthsAgo ==> age == 0.1)
      && (at >= cut.twoYearsAgo && at >= cut.sixMonthsAgo ==> age == 0.0)
  {
    kind, count, place, age := Personhood(row.cols.isBusiness), ListingsScore(active), GeographyScore(districts),
      AgeScore(row.registeredAt, cut);
    assert Formula(row, stats, cut) == kind + count + place + age;
  }

  /** Scores stay in [0, 1]. The upper clamp is never needed; the lower one exactly for a business whose other
      components stay under a half. */
  lemma ScoreInRange(row: SellerRow, stats: map<nat, Stats>, cut: Cutoffs)
    ensures 0.0 <= Score(row, stats, cut) <= 1.0
    ensures Formula(row, stats, cut) <= 1.0
    ensures row.manualLabel.None? ==> Score(row, stats, cut) == Greatest(0.0, Formula(row, stats, cut))
    ensures row.manualLabel.None? && !row.cols.isBusiness ==> 0.3 <= Score(row, stats, cut) == Formula(row, stats, cut)
    ensures row.manualLabel.None? && row.cols.isBusiness ==> Score(row, stats, cut) <= 0.2
    ensures Formula(row, stats, cut) < 0.0 <==>
      row.cols.isBusiness && Formula(row.(cols := row.cols.(isBusiness := false)), stats, cut) < 0.8
  {
  }

  /** A label pins the score until the next accepted label, whatever is parsed, stamped or refreshed in between. */
  lemma {:induction false} LabelPins(before: seq<Op>, user: string, value: string, now: Time, more: seq<Op>,
                                     stats: map<nat, Stats>, cut: Cutoffs)
    requires user in Run(before).sellers && value in {"owner", "agency"}
    requires forall i | 0 <= i < |more| :: !LabelOf(user)(more[i])
    ensures var t := Run(before + [Label(user, value, now)] + more);
      user in t.sellers && Score(t.sellers[user], stats, cut) == if value == "owner" then 1.0 else 0.0
  {
    LabelLasts(before, user, value, now, more);
  }

  lemma {:induction false} LabelLasts(before: seq<Op>, user: string, value: string, now: Time, more: seq<Op>)
    requires user in Run(before).sellers && value in {"", "owner", "agency"}
    requires forall i | 0 <= i < |more| :: !LabelOf(user)(more[i])
    ensures var t := Run(before + [Label(user, value, now)] + more);
      user in t.sellers && t.sellers[user].manualLabel == Text(value)
    decreases |more|
  {
    var start := before + [Label(user, value, now)];
    if more == [] {
      assert start + more == start;
      RunSnoc(before, Label(user, value, now));
    } else {
      var n := |more| - 1;
      LabelLasts(before, user, value, now, more[..n]);
      assert start + more == start + more[..n] + [more[n]];
      RunSnoc(start + more[..n], more[n]);
      SellerStep(Run(start + more[..n]), more[n], user);
    }
  }

  // ---- the ranking ----

  datatype Ranked = Ranked(sellerId: nat, business: bool, manualLabel: Option<string>, active: nat, score: real)

  function RankedOf(row: SellerRow, stats: map<nat, Stats>, cut: Cutoffs): Ranked {
    Ranked(row.id, row.cols.isBusiness, row.manualLabel, Coalesced(stats, row.id).active, Score(row, stats, cut))
  }

  function Classified(t: Tables, stats: map<nat, Stats>, cut: Cutoffs): set<Ranked> {
    set u | u in t.sellers :: RankedOf(t.sellers[u], stats, cut)
  }

  /** Score first, then active listings, both descending, then the seller id. */
  predicate Before(a: Ranked, b: Ranked) {
    a.score > b.score || (a.score == b.score
                          && (a.active > b.active || (a.active == b.active && a.sellerId < b.sellerId)))
  }

  ghost predicate Keyed(rows: set<Ranked>) {
    forall a, b | a in rows && b in rows && a.sellerId == b.sellerId :: a == b
  }

  ghost predicate Leads(rows: set<Ranked>, m: Ranked) { m in rows && forall r | r in rows && r != m :: Before(m, r) }

  lemma {:induction false} SomeoneLeads(rows: set<Ranked>) returns (m: Ranked)
    requires Keyed(rows) && rows != {}
    ensures Leads(rows, m)
    decreases |rows|
  {
    var r :| r in rows;
    if rows == {r} {
      m := r;
    } else {
      var rest := rows - {r};
      assert rows == rest + {r} && {} + {r} == {r};
      var n := SomeoneLeads(rest);
      assert n.sellerId != r.sellerId;
      m := if Before(r, n) then r else n;
      forall x | x in rows && x != m ensures Before(m, x) {
        if x != r && x != n { assert Before(n, x); }
      }
    }
  }

  /** The first rows in order, up to limit many. */
  ghost function Top(rows: set<Ranked>, limit: nat): seq<Ranked>
    requires Keyed(rows)
    decreases |rows|
  {
    if rows == {} || limit == 0 then []
    else
      var m := SomeLeader(rows);
      [m] + Top(rows - {m}, limit - 1)
  }

  ghost function SomeLeader(rows: set<Ranked>): (m: Ranked)
    requires Keyed(rows) && rows != {}
    ensures Leads(rows, m)
  {
    assert exists m :: Leads(rows, m) by { var m := SomeoneLeads(rows); }
    var m :| Leads(rows, m);
    m
  }

  /** out is a sorted prefix: rows of the table in strict order, as many as asked for and there are, and every row
      left out comes after all of them. */
  ghost predicate SortedPrefix(rows: set<Ranked>, limit: nat, out: seq<Ranked>) {
    && |out| == (if limit <= |rows| then limit else |rows|)
    && (forall i | 0 <= i < |out| :: out[i] in rows)
    && (forall i, j | 0 <= i < j < |out| :: Before(out[i], out[j]))
    && (forall i, r | 0 <= i < |out| && r in rows && r !in out :: Before(out[i], r))
  }

  lemma {:induction false} TopIsPrefix(rows: set<Ranked>, limit: nat)
    requires Keyed(rows)
    ensures SortedPrefix(rows, limit, Top(rows, limit))
    decreases |rows|
  {
    if rows != {} && limit > 0 {
      var m := SomeLeader(rows);
      var rest, tail := rows - {m}, Top(rows - {m}, limit - 1);
      TopIsPrefix(rest, limit - 1);
      var out := [m] + tail;
      forall i, j | 0 <= i < j < |out| ensures Before(out[i], out[j]) {
        assert out[j] == tail[j - 1] && tail[j - 1] in rest;
      }
      forall i, r | 0 <= i < |out| && r in rows && r !in out ensures Before(out[i], r) {
        assert r != m && r in rest && r !in tail;
      }
    }
  }

  lemma FirstBeatsAll(rows: set<Ranked>, limit: nat, out: seq<Ranked>, r: Ranked)
    requires SortedPrefix(rows, limit, out) && out != [] && r in rows
    ensures r == out[0] || Before(out[0], r)
  {
    if r in out {
      var i :| 0 <= i < |out| && out[i] == r;
      assert i > 0 ==> Before(out[0], out[i]);
    }
  }

  /** A row that is not behind position j is found before it. */
  lemma FoundEarlier(rows: set<Ranked>, limit: nat, out: seq<Ranked>, j: nat, r: Ranked)
    requires SortedPrefix(rows, limit, out) && j < |out| && r in rows && r != out[j] && !Before(out[j], r)
    ensures exists i :: 0 <= i < j && out[i] == r
  {
    assert r in out;
    var i :| 0 <= i < |out| && out[i] == r;
    assert !Before(out[j], out[i]);
  }

  lemma {:induction false} OnlyPrefix(rows: set<Ranked>, limit: nat, out: seq<Ranked>)
    requires Keyed(rows) && SortedPrefix(rows, limit, out)
    ensures out == Top(rows, limit)
    decreases |rows|
  {
    if rows != {} && limit > 0 {
      var m := SomeLeader(rows);
      FirstBeatsAll(rows, limit, out, m);
      forall i | 0 < i < |out| ensures out[i] != m && out[i] in rows - {m} { assert Before(out[0], out[i]); }
      assert SortedPrefix(rows - {m}, limit - 1, out[1..]) by {
        forall i, r | 0 <= i < |out| - 1 && r in rows - {m} && r !in out[1..] ensures Before(out[1..][i], r) {
          assert r !in out;
        }
      }
      OnlyPrefix(rows - {m}, limit - 1, out[1..]);
      assert out == [out[0]] + out[1..];
    }
  }

  function Listed(t: Tables, stats: map<nat, Stats>, cut: Cutoffs, minActive: int): set<Ranked> {
    set r | r in Classified(t, stats, cut) && r.active >= minActive
  }

  /** A seller keeps its id; a new one gets the next. */
  lemma StepId(t: Tables, op: Op, user: string)
    requires user in Step(t, op).sellers
    ensures t.nextSeller <= Step(t, op).nextSeller
    ensures user in t.sellers ==> Step(t, op).sellers[user].id == t.sellers[user].id
    ensures user !in t.sellers ==>
      OfSeller(op, user) && Step(t, op).sellers[user].id == t.nextSeller < Step(t, op).nextSeller
  {
  }

  lemma StepKeyed(t: Tables, op: Op)
    requires IdsUnique(t)
    ensures IdsUnique(Step(t, op))
  {
    var t' := Step(t, op);
    forall u | u in t'.sellers ensures t'.sellers[u].id < t'.nextSeller { StepId(t, op, u); }
    forall u, v | u in t'.sellers && v in t'.sellers && t'.sellers[u].id == t'.sellers[v].id ensures u == v {
      StepId(t, op, u);
      StepId(t, op, v);
    }
  }

  lemma {:induction false} RunKeyed(ops: seq<Op>)
    ensures IdsUnique(Run(ops))
  {
    if ops != [] {
      RunKeyed(ops[..|ops| - 1]);
      StepKeyed(Run(ops[..|ops| - 1]), ops[|ops| - 1]);
    }
  }

  lemma {:induction false} ListedIsKeyed(events: seq<Event>, cut: Cutoffs, minActive: int)
    ensures Keyed(Listed(Play(events).t, Play(events).stats, cut, minActive))
  {
    PlayIsRun(events);
    RunKeyed(OpsOf(events));
  }

  /** The ranking query after a run. */
  ghost function TopRealSellers(events: seq<Event>, cut: Cutoffs, minActive: int, limit: nat): seq<Ranked> {
    ListedIsKeyed(events, cut, minActive);
    Top(Listed(Play(events).t, Play(events).stats, cut, minActive), limit)
  }

  /** After any run the query has exactly one possible answer: the sorted prefix. */
  lemma RankingIsDetermined(events: seq<Event>, cut: Cutoffs, minActive: int, limit: nat, out: seq<Ranked>)
    ensures SortedPrefix(Listed(Play(events).t, Play(events).stats, cut, minActive), limit, out)
            <==> out == TopRealSellers(events, cut, minActive, limit)
  {
    var rows := Listed(Play(events).t, Play(events).stats, cut, minActive);
    ListedIsKeyed(events, cut, minActive);
    TopIsPrefix(rows, limit);
    if SortedPrefix(rows, limit, out) { OnlyPrefix(rows, limit, out); }
  }

  /** The answer reads: highest score first, then most active listings, then lowest seller id; each row is a seller with
      enough active listings, with the score and count of that seller. */
  lemma AnswerReads(events: seq<Event>, cut: Cutoffs, minActive: int, limit: nat, i: nat, j: nat)
    requires i < j < |TopRealSellers(events, cut, minActive, limit)|
    ensures var out, w := TopRealSellers(events, cut, minActive, limit), Play(events);
      && (out[i].score > out[j].score
          || (out[i].score == out[j].score
              && (out[i].active > out[j].active
                  || (out[i].active == out[j].active && out[i].sellerId < out[j].sellerId))))
      && out[i].active >= minActive
      && exists u :: u in w.t.sellers && var row := w.t.sellers[u];
         && out[i].sellerId == row.id && out[i].score == Score(row, w.stats, cut)
         && out[i].active == (if row.id in w.stats then w.stats[row.id].active else 0)
         && out[i].business == row.cols.isBusiness && out[i].manualLabel == row.manualLabel
  {
    var out, w := TopRealSellers(events, cut, minActive, limit), Play(events);
    RankingIsDetermined(events, cut, minActive, limit, out);
    assert out[i] in Listed(w.t, w.stats, cut, minActive);
    var u :| u in w.t.sellers && out[i] == RankedOf(w.t.sellers[u], w.stats, cut);
    assert Before(out[i], out[j]);
  }

  /** Nobody with enough active listings is left out while there is room. */
  lemma NobodyLeftOut(events: seq<Event>, cut: Cutoffs, minActive: int, limit: nat, user: string)
    requires user in Play(events).t.sellers
    requires var w := Play(events); var id := w.t.sellers[user].id;
      (if id in w.stats then w.stats[id].active else 0) >= minActive
    ensures var out := TopRealSellers(events, cut, minActive, limit);
      && |out| <= limit
      && (|out| == limit || exists i :: 0 <= i < |out| && out[i].sellerId == Play(events).t.sellers[user].id)
  {
    var out, w := TopRealSellers(events, cut, minActive, limit), Play(events);
    var rows, mine := Listed(w.t, w.stats, cut, minActive), RankedOf(w.t.sellers[user], w.stats, cut);
    RankingIsDetermined(events, cut, minActive, limit, out);
    assert mine in rows;
    if |out| < limit && mine !in out { MissingLeavesRoom(rows, out, mine); }
  }

  /** A list of distinct rows that misses one is shorter than the table. */
  lemma MissingLeavesRoom(rows: set<Ranked>, out: seq<Ranked>, mine: Ranked)
    requires mine in rows && mine !in out && (forall i | 0 <= i < |out| :: out[i] in rows)
    requires forall i, j | 0 <= i < j < |out| :: Before(out[i], out[j])
    ensures |out| < |rows|
  {
    var seen := set r | r in out;
    DistinctSize(out, seen);
    assert seen <= rows - {mine} && |rows - {mine}| == |rows| - 1;
    assert rows - {mine} == seen + (rows - {mine} - seen);
  }

  lemma {:induction false} DistinctSize(out: seq<Ranked>, seen: set<Ranked>)
    requires seen == (set r | r in out) && forall i, j | 0 <= i < j < |out| :: Before(out[i], out[j])
    ensures |seen| == |out|
    decreases |out|
  {
    if out != [] {
      var n := |out| - 1;
      var rest := set r | r in out[..n];
      DistinctSize(out[..n], rest);
      assert out == out[..n] + [out[n]];
      assert forall i | 0 <= i < n :: Before(out[i], out[n]);
      assert out[n] !in rest && seen == rest + {out[n]};
    }
  }

  /** In it every private seller comes before every business, labels aside, and none of them is missing while a
      business is listed. */
  lemma PrivateBeforeBusiness(events: seq<Event>, cut: Cutoffs, minActive: int, limit: nat, private: Ranked, j: nat)
    requires j < |TopRealSellers(events, cut, minActive, limit)|
    requires private in Listed(Play(events).t, Play(events).stats, cut, minActive) && private.manualLabel.None?
      && !private.business
    requires var r := TopRealSellers(events, cut, minActive, limit)[j]; r.manualLabel.None? && r.business
    ensures exists i :: 0 <= i < j && TopRealSellers(events, cut, minActive, limit)[i] == private
  {
    var w, out := Play(events), TopRealSellers(events, cut, minActive, limit);
    var rows := Listed(w.t, w.stats, cut, minActive);
    RankingIsDetermined(events, cut, minActive, limit, out);
    assert out[j] in rows;
    var u :| u in w.t.sellers && private == RankedOf(w.t.sellers[u], w.stats, cut);
    var v :| v in w.t.sellers && out[j] == RankedOf(w.t.sellers[v], w.stats, cut);
    ScoreInRange(w.t.sellers[u], w.stats, cut);
    ScoreInRange(w.t.sellers[v], w.stats, cut);
    FoundEarlier(rows, limit, out, j, private);
  }
}
