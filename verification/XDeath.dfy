/** The x-death header: how the broker writes it and how the consumer reads it. */
module XDeath {
  /** An AMQP field value. Other stands for every type the consumer skips. */
  datatype Field =
    | Text(s: string)
    | Int64(n: int)
    | Int32(n: int)
    | Int(n: int)
    | Table(t: map<string, Field>)
    | List(a: seq<Field>)
    | Other

  type Headers = map<string, Field>

  const X_DEATH := "x-death"
  const REJECTED := "rejected"
  const EXPIRED := "expired"

  /** What one array entry adds to the count: nothing unless it is a table whose reason is "rejected". */
  function EntryCount(e: Field): int {
    if e.Table? && "reason" in e.t && e.t["reason"] == Text(REJECTED) && "count" in e.t then
      match e.t["count"]
      case Int64(n) => n
      case Int32(n) => n
      case Int(n) => n
      case _ => 0
    else 0
  }

  function Total(a: seq<Field>): int {
    if a == [] then 0 else Total(a[..|a| - 1]) + EntryCount(a[|a| - 1])
  }

  /** The number the retry policy works with, read off the headers. */
  function XDeathCount(h: Headers): int {
    if X_DEATH in h && h[X_DEATH].List? then Total(h[X_DEATH].a) else 0
  }

  /** The consumer's loop over the header array. */
  method CountDeaths(h: Headers) returns (total: int)
    ensures total == XDeathCount(h)
  {
    if X_DEATH !in h { return 0; }
    var raw := h[X_DEATH];
    if !raw.List? { return 0; }
    total := 0;
    for i := 0 to |raw.a|
      invariant total == Total(raw.a[..i])
    {
      var e := raw.a[i];
      assert raw.a[..i + 1][..i] == raw.a[..i];
      if !e.Table? { continue; }
      if "reason" !in e.t || e.t["reason"] != Text(REJECTED) { continue; }
      if "count" in e.t {
        match e.t["count"] {
          case Int64(n) => total := total + n;
          case Int32(n) => total := total + n;
          case Int(n) => total := total + n;
          case _ =>
        }
      }
    }
    assert raw.a[..|raw.a|] == raw.a;
  }

  // ---- the broker's side: one entry per (queue, reason), newest first ----

  predicate IsEntry(e: Field, queue: string, reason: string) {
    && e.Table?
    && "queue" in e.t && e.t["queue"] == Text(queue)
    && "reason" in e.t && e.t["reason"] == Text(reason)
    && "count" in e.t && e.t["count"].Int64?
  }

  function NewEntry(queue: string, reason: string, n: int): Field {
    Table(map["queue" := Text(queue), "reason" := Text(reason), "count" := Int64(n)])
  }

  /** Count one more hop: bump the entry of (queue, reason) and move it to the front, or add one. */
  function Bump(a: seq<Field>, queue: string, reason: string): (r: seq<Field>)
    ensures |r| > 0
  {
    if a == [] then [NewEntry(queue, reason, 1)]
    else if IsEntry(a[0], queue, reason) then
      [a[0].(t := a[0].t["count" := Int64(a[0].t["count"].n + 1)])] + a[1..]
    else
      var r := Bump(a[1..], queue, reason);
      [r[0], a[0]] + r[1..]
  }

  function RecordDeath(h: Headers, queue: string, reason: string): Headers {
    var a := if X_DEATH in h && h[X_DEATH].List? then h[X_DEATH].a else [];
    h[X_DEATH := List(Bump(a, queue, reason))]
  }

  lemma {:induction false} TotalConcat(a: seq<Field>, b: seq<Field>)
    ensures Total(a + b) == Total(a) + Total(b)
  {
    if b == [] {
      assert a + b == a;
    } else {
      var n := |b| - 1;
      assert (a + b)[..|a + b| - 1] == a + b[..n];
      TotalConcat(a, b[..n]);
    }
  }

  lemma TotalOne(e: Field)
    ensures Total([e]) == EntryCount(e)
  {
    assert [e][..0] == [];
  }

  lemma TotalCons(e: Field, a: seq<Field>)
    ensures Total([e] + a) == EntryCount(e) + Total(a)
  {
    TotalConcat([e], a);
    TotalOne(e);
  }

  lemma TotalSecond(r: seq<Field>, e: Field)
    requires r != []
    ensures Total([r[0], e] + r[1..]) == Total(r) + EntryCount(e)
  {
    TotalCons(e, r[1..]);
    TotalCons(r[0], [e] + r[1..]);
    assert [r[0], e] + r[1..] == [r[0]] + ([e] + r[1..]);
    TotalCons(r[0], r[1..]);
    assert r == [r[0]] + r[1..];
  }

  lemma {:induction false} BumpTotal(a: seq<Field>, queue: string, reason: string)
    ensures Total(Bump(a, queue, reason)) == Total(a) + if reason == REJECTED then 1 else 0
  {
    if a == [] {
      TotalOne(NewEntry(queue, reason, 1));
    } else {
      assert a == [a[0]] + a[1..];
      TotalCons(a[0], a[1..]);
      if IsEntry(a[0], queue, reason) {
        TotalCons(Bump(a, queue, reason)[0], a[1..]);
      } else {
        var r := Bump(a[1..], queue, reason);
        BumpTotal(a[1..], queue, reason);
        TotalSecond(r, a[0]);
      }
    }
  }

  /** A hop touches the x-death header only: the entry of its queue and reason comes to the front, with its count one
      higher or new with a count of one, and the other entries stay in order. */
  lemma {:induction false} BumpIs(a: seq<Field>, queue: string, reason: string) returns (k: nat)
    ensures k <= |a| && forall j | 0 <= j < k :: !IsEntry(a[j], queue, reason)
    ensures IsEntry(Bump(a, queue, reason)[0], queue, reason)
    ensures k < |a| ==> IsEntry(a[k], queue, reason)
                        && Bump(a, queue, reason)[0].t["count"] == Int64(a[k].t["count"].n + 1)
                        && Bump(a, queue, reason)[1..] == a[..k] + a[k + 1..]
    ensures k == |a| ==> Bump(a, queue, reason)[0].t["count"] == Int64(1) && Bump(a, queue, reason)[1..] == a
  {
    if a == [] || IsEntry(a[0], queue, reason) {
      k := 0;
    } else {
      var j := BumpIs(a[1..], queue, reason);
      k := j + 1;
      var r := Bump(a[1..], queue, reason);
      assert Bump(a, queue, reason)[1..] == [a[0]] + r[1..];
      assert a[..k] == [a[0]] + a[1..][..j];
      if k < |a| { assert a[1..][j + 1..] == a[k + 1..]; }
    }
  }

  lemma RecordDeathIs(h: Headers, queue: string, reason: string)
    ensures "x-death" in RecordDeath(h, queue, reason) && RecordDeath(h, queue, reason)["x-death"].List?
    ensures RecordDeath(h, queue, reason)["x-death"].a
            == Bump(if "x-death" in h && h["x-death"].List? then h["x-death"].a else [], queue, reason)
    ensures RecordDeath(h, queue, reason) - {"x-death"} == h - {"x-death"}
  {
    var h' := RecordDeath(h, queue, reason);
    assert h' - {"x-death"} == h - {"x-death"};
  }

  /** A rejection raises the count by one and an expired hop leaves it alone, whatever the headers hold. */
  lemma RecordDeathCounts(h: Headers, queue: string, reason: string)
    ensures XDeathCount(RecordDeath(h, queue, reason)) == XDeathCount(h) + if reason == REJECTED then 1 else 0
  {
    BumpTotal(if X_DEATH in h && h[X_DEATH].List? then h[X_DEATH].a else [], queue, reason);
  }

  /** What counts: each table of the x-death list whose reason is rejected adds its integer count, whatever its width;
      nothing else adds anything. */
  lemma CountIs(h: Headers, front: seq<Field>, e: Field)
    ensures "x-death" !in h || !h["x-death"].List? ==> XDeathCount(h) == 0
    ensures XDeathCount(h["x-death" := List([])]) == 0
    ensures XDeathCount(h["x-death" := List(front + [e])]) == XDeathCount(h["x-death" := List(front)]) +
      if e.Table? && "reason" in e.t && e.t["reason"] == Text("rejected") && "count" in e.t
         && (e.t["count"].Int64? || e.t["count"].Int32? || e.t["count"].Int?)
      then e.t["count"].n else 0
  {
    assert (front + [e])[..|front|] == front;
  }

  /** The count does not depend on the order of the entries. */
  lemma {:induction false} OrderIrrelevant(a: seq<Field>, b: seq<Field>)
    requires multiset(a) == multiset(b)
    ensures Total(a) == Total(b)
  {
    if a == [] {
      assert |multiset(b)| == 0;
    } else {
      var last := a[|a| - 1];
      assert last in multiset(b);
      var k :| 0 <= k < |b| && b[k] == last;
      var rest := b[..k] + b[k + 1..];
      assert b == b[..k] + ([b[k]] + b[k + 1..]);
      assert a == a[..|a| - 1] + [last];
      assert multiset(rest) == multiset(b) - multiset{last};
      assert multiset(a[..|a| - 1]) == multiset(a) - multiset{last};
      OrderIrrelevant(a[..|a| - 1], rest);
      TotalConcat(b[..k], b[k + 1..]);
      TotalConcat(b[..k], [b[k]] + b[k + 1..]);
      TotalCons(b[k], b[k + 1..]);
    }
  }
}
