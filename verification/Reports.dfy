/** Combining the workers' reports: the same result at both ends, whatever the order of their worker lists. */
module Reports {
  import opened TalkModel
  import opened TalkCounts
  import opened TalkEvents
  import opened TalkWorker
  import opened TalkBarrier
  import opened TalkInvariant
  import opened TalkProgress
  import opened TalkRuns
  import opened TalkResults

  function Max(x: nat, y: nat): nat { if x > y then x else y }

  function Min(x: nat, y: nat): nat { if x > y then y else x }

  /** One worker's record r joins the head record a. */
  function Merge(a: Record, r: Record): Record {
    Record(a.latency + r.latency, a.count + r.count, a.packets + r.packets,
           Max(a.duration, r.duration), Min(a.start, r.start), a.bytes + r.bytes)
  }

  function Merged(a: Record, rs: seq<Record>): Record
    decreases |rs|
  {
    if rs == [] then a else Merged(Merge(a, rs[0]), rs[1..])
  }

  /** The divisor of the latency sum: the workers of one direction. */
  function Share(asynchronous: bool, n: nat): nat { if asynchronous then n / 2 else n }

  /** The head record after report_worker_combine over the list rs; two workers at least in asynchronous mode. */
  function Combined(asynchronous: bool, a: Record, rs: seq<Record>): Record
    requires asynchronous ==> |rs| != 1
  {
    var m := Merged(a, rs);
    if rs == [] then m else m.(latency := m.latency / Share(asynchronous, |rs|))
  }

  // --- what the fields are

  function Total(rs: seq<Record>, f: Record -> nat): nat {
    if rs == [] then 0 else f(rs[0]) + Total(rs[1..], f)
  }

  /** Counts, packets and bytes are sums, the duration is the maximum, the start is the minimum including the
      head, and the latency is the truncated mean. */
  lemma {:induction false} MergedFields(a: Record, rs: seq<Record>)
    ensures var m := Merged(a, rs);
            && m.latency == a.latency + Total(rs, (r: Record) => r.latency)
            && m.count == a.count + Total(rs, (r: Record) => r.count)
            && m.packets == a.packets + Total(rs, (r: Record) => r.packets)
            && m.bytes == a.bytes + Total(rs, (r: Record) => r.bytes)
            && m.duration >= a.duration && m.start <= a.start
            && (forall i :: 0 <= i < |rs| ==> m.duration >= rs[i].duration && m.start <= rs[i].start)
            && (m.duration == a.duration || exists i :: 0 <= i < |rs| && m.duration == rs[i].duration)
            && (m.start == a.start || exists i :: 0 <= i < |rs| && m.start == rs[i].start)
    decreases |rs|
  {
    if rs != [] {
      MergedFields(Merge(a, rs[0]), rs[1..]);
      var m := Merged(a, rs);
      assert forall i :: 1 <= i < |rs| ==> rs[i] == rs[1..][i - 1];
      if m.duration != a.duration && m.duration != rs[0].duration {
        var i :| 0 <= i < |rs| - 1 && m.duration == rs[1..][i].duration;
        assert m.duration == rs[i + 1].duration;
      }
      if m.start != a.start && m.start != rs[0].start {
        var i :| 0 <= i < |rs| - 1 && m.start == rs[1..][i].start;
        assert m.start == rs[i + 1].start;
      }
    }
  }

  lemma CombinedFields(asynchronous: bool, a: Record, rs: seq<Record>)
    requires |rs| > 0 && (asynchronous ==> |rs| > 1)
    ensures var c := Combined(asynchronous, a, rs);
            && c.latency == (a.latency + Total(rs, (r: Record) => r.latency)) / (if asynchronous then |rs| / 2 else |rs|)
            && c.count == a.count + Total(rs, (r: Record) => r.count)
            && c.packets == a.packets + Total(rs, (r: Record) => r.packets)
            && c.bytes == a.bytes + Total(rs, (r: Record) => r.bytes)
            && c.duration >= a.duration && c.start <= a.start
            && (forall i :: 0 <= i < |rs| ==> c.duration >= rs[i].duration && c.start <= rs[i].start)
            && (c.duration == a.duration || exists i :: 0 <= i < |rs| && c.duration == rs[i].duration)
            && (c.start == a.start || exists i :: 0 <= i < |rs| && c.start == rs[i].start)
  {
    MergedFields(a, rs);
  }

  /** The combined start is the least start of the workers exactly when no start of the head lies below it; the head
      of a run starts at zero, so it is then zero. */
  lemma StartIncludesHead(asynchronous: bool, a: Record, rs: seq<Record>)
    requires |rs| > 0 && (asynchronous ==> |rs| > 1)
    ensures (exists i :: 0 <= i < |rs| && Combined(asynchronous, a, rs).start == rs[i].start)
            <==> (exists i :: 0 <= i < |rs| && rs[i].start <= a.start)
    ensures a.start == 0 ==> Combined(asynchronous, a, rs).start == 0
  {
    CombinedFields(asynchronous, a, rs);
    var c := Combined(asynchronous, a, rs);
    if i :| 0 <= i < |rs| && rs[i].start <= a.start {
      if c.start == a.start { assert c.start == rs[i].start; }
    }
  }

  /** Bytes stay packets times the payload size. */
  lemma {:induction false} BytesKept(a: Record, rs: seq<Record>, payload: nat)
    requires a.bytes == a.packets * payload && forall i :: 0 <= i < |rs| ==> rs[i].bytes == rs[i].packets * payload
    ensures Merged(a, rs).bytes == Merged(a, rs).packets * payload
    decreases |rs|
  {
    if rs != [] {
      var b := Merge(a, rs[0]);
      assert b.bytes == b.packets * payload;
      assert forall i :: 0 <= i < |rs| - 1 ==> rs[1..][i] == rs[i + 1];
      BytesKept(b, rs[1..], payload);
    }
  }

  // --- the order of the list

  function Picked(all: seq<Record>, order: seq<nat>): (r: seq<Record>)
    requires forall k :: 0 <= k < |order| ==> order[k] < |all|
    ensures |r| == |order| && forall k :: 0 <= k < |order| ==> r[k] == all[order[k]]
  {
    seq(|order|, k requires 0 <= k < |order| => all[order[k]])
  }

  lemma {:induction false} MergeFirst(a: Record, rs: seq<Record>, k: nat)
    requires k < |rs|
    ensures Merged(a, rs) == Merged(Merge(a, rs[k]), rs[..k] + rs[k + 1..])
    decreases k
  {
    if k == 0 {
      assert rs[..k] + rs[k + 1..] == rs[1..];
    } else {
      var rest := rs[..k] + rs[k + 1..];
      MergeFirst(Merge(a, rs[0]), rs[1..], k - 1);
      assert rs[1..][..k - 1] + rs[1..][k..] == rest[1..];
      assert Merge(Merge(a, rs[0]), rs[k]) == Merge(Merge(a, rs[k]), rs[0]);
    }
  }

  lemma TakenOut(order: seq<nat>, order': seq<nat>) returns (k: nat)
    requires order != [] && multiset(order) == multiset(order')
    ensures k < |order'| && order'[k] == order[0] && multiset(order[1..]) == multiset(order'[..k] + order'[k + 1..])
  {
    var x := order[0];
    assert x in multiset(order');
    k :| 0 <= k < |order'| && order'[k] == x;
    assert order[..0] + order[1..] == order[1..];
    WithoutOne(order, 0);
    WithoutOne(order', k);
  }

  lemma WithoutOne(s: seq<nat>, k: nat)
    requires k < |s|
    ensures multiset(s[..k] + s[k + 1..]) == multiset(s) - multiset{s[k]}
  {
    assert s == s[..k] + ([s[k]] + s[k + 1..]);
    assert multiset(s) == multiset(s[..k]) + multiset([s[k]] + s[k + 1..]) == multiset(s[..k]) + (multiset{s[k]} + multiset(s[k + 1..]));
  }

  lemma PickedWithout(all: seq<Record>, order: seq<nat>, k: nat)
    requires k < |order| && forall l :: 0 <= l < |order| ==> order[l] < |all|
    ensures var rest := order[..k] + order[k + 1..];
            && (forall l :: 0 <= l < |rest| ==> rest[l] < |all|)
            && Picked(all, rest) == Picked(all, order)[..k] + Picked(all, order)[k + 1..]
  {
    var rest := order[..k] + order[k + 1..];
    assert forall l :: 0 <= l < |rest| ==> rest[l] == if l < k then order[l] else order[l + 1];
  }

  lemma {:induction false} OrderIrrelevant(a: Record, all: seq<Record>, order: seq<nat>, order': seq<nat>)
    requires multiset(order) == multiset(order')
    requires (forall k :: 0 <= k < |order| ==> order[k] < |all|) && (forall k :: 0 <= k < |order'| ==> order'[k] < |all|)
    ensures Merged(a, Picked(all, order)) == Merged(a, Picked(all, order'))
    decreases |order|
  {
    assert |order| == |multiset(order)| == |multiset(order')| == |order'|;
    if order != [] {
      var k := TakenOut(order, order');
      var rest := order'[..k] + order'[k + 1..];
      PickedWithout(all, order', k);
      PickedWithout(all, order, 0);
      assert order[..0] + order[1..] == order[1..] && Picked(all, order)[..0] + Picked(all, order)[1..] == Picked(all, order)[1..];
      MergeFirst(a, Picked(all, order'), k);
      OrderIrrelevant(Merge(a, all[order[0]]), all, order[1..], rest);
      hide Merge, Picked;
    }
  }

  // --- both ends

  /** Every worker, each once, in the order of one end's list. */
  predicate IsOrder(n: nat, order: seq<nat>) {
    && multiset(order) == multiset(seq(n, i => i))
  }

  /** The records of direction d that the workers of end e hold. */
  function RecordsAt(cfg: Config, t: State, e: nat, d: nat): (r: seq<Record>)
    requires Shape(cfg, t) && e < 2 && d < 2
    ensures |r| == cfg.workers && forall i :: 0 <= i < |r| ==> r[i] == t.ws[e][i].reports[d]
  {
    seq(cfg.workers, i requires 0 <= i < cfg.workers => t.ws[e][i].reports[d])
  }

  lemma OrderShape(n: nat, order: seq<nat>)
    requires IsOrder(n, order)
    ensures |order| == n && forall k :: 0 <= k < |order| ==> order[k] < n
  {
    var ids := seq(n, i => i);
    assert |order| == |multiset(order)| == |multiset(ids)| == n;
    forall k | 0 <= k < |order| ensures order[k] < n {
      assert order[k] in multiset(order);
      assert order[k] in ids;
    }
  }

  /** The result of direction d at end e, whose list has the given order. */
  function ResultAt(cfg: Config, t: State, e: nat, d: nat, order: seq<nat>): Record
    requires ValidConfig(cfg) && Shape(cfg, t) && e < 2 && d < 2 && IsOrder(cfg.workers, order)
  {
    OrderShape(cfg.workers, order);
    Combined(cfg.asynchronous, EMPTY_RECORD, Picked(RecordsAt(cfg, t, e, d), order))
  }

  lemma UntestedEmpty(cfg: Config, t: State, e: nat, i: nat, d: nat)
    requires Inv(cfg, t) && Finished(cfg, t) && Id(cfg, e, i) && d < 2 && LegOf(cfg, d) < Legs(cfg) && !Tested(cfg, d, i)
    ensures t.ws[e][i].reports[d] == EMPTY_RECORD
  {
    assert WorkerOk(cfg, t.hist, e, i, t.ws[e][i]);
    hide Workers, Connections;
  }

  lemma EqualRecords(cfg: Config, t: State, d: nat) returns (round: nat)
    requires ValidConfig(cfg) && Reachable(cfg, t) && Shape(cfg, t) && Finished(cfg, t)
    requires d < 2 && LegOf(cfg, d) < Legs(cfg)
    ensures LastRound(cfg, LegOf(cfg, d), round)
    ensures RecordsAt(cfg, t, CONNECTOR, d) == RecordsAt(cfg, t, LISTENER, d) && round < |t.hist[d]|
    ensures forall i :: 0 <= i < cfg.workers ==>
              RecordsAt(cfg, t, CONNECTOR, d)[i] == if Tested(cfg, d, i) then RecordOf(cfg, t.hist, d, round, i) else EMPTY_RECORD
  {
    round := SameRecords(cfg, t, d);
    ReachableInv(cfg, t);
    hide Reachable, Inv, Finished, LastRound, RecordOf, Tested;
    forall i | 0 <= i < cfg.workers
      ensures RecordsAt(cfg, t, CONNECTOR, d)[i] == RecordsAt(cfg, t, LISTENER, d)[i]
              == if Tested(cfg, d, i) then RecordOf(cfg, t.hist, d, round, i) else EMPTY_RECORD
    {
      if !Tested(cfg, d, i) {
        UntestedEmpty(cfg, t, CONNECTOR, i, d);
        UntestedEmpty(cfg, t, LISTENER, i, d);
      }
    }
  }

  /** Connector and listener report the same result for every tested direction, whatever the order in which their
      workers were linked. */
  lemma SameResult(cfg: Config, t: State, d: nat, order: seq<nat>, order': seq<nat>)
    requires ValidConfig(cfg) && Reachable(cfg, t) && Shape(cfg, t) && Finished(cfg, t)
    requires d < 2 && LegOf(cfg, d) < Legs(cfg) && IsOrder(cfg.workers, order) && IsOrder(cfg.workers, order')
    ensures ResultAt(cfg, t, CONNECTOR, d, order) == ResultAt(cfg, t, LISTENER, d, order')
  {
    hide Reachable, Finished, LastRound, RecordOf, Tested, Merged;
    var round := EqualRecords(cfg, t, d);
    OrderShape(cfg.workers, order);
    OrderShape(cfg.workers, order');
    OrderIrrelevant(EMPTY_RECORD, RecordsAt(cfg, t, CONNECTOR, d), order, order');
  }

  lemma InOrder(n: nat, order: seq<nat>, i: nat) returns (k: nat)
    requires IsOrder(n, order) && i < n
    ensures k < |order| && order[k] == i
  {
    assert seq(n, j => j)[i] == i;
    assert i in multiset(order);
    k :| 0 <= k < |order| && order[k] == i;
  }

  /** The reported duration of every tested direction is at least the minimum time, and its bytes are its
      packets times the payload size. */
  lemma ResultIsLong(cfg: Config, t: State, d: nat, e: nat, order: seq<nat>)
    requires ValidConfig(cfg) && Reachable(cfg, t) && Shape(cfg, t) && Finished(cfg, t)
    requires d < 2 && e < 2 && LegOf(cfg, d) < Legs(cfg) && IsOrder(cfg.workers, order)
    ensures ResultAt(cfg, t, e, d, order).duration >= cfg.minimumTime * 1000000
    ensures ResultAt(cfg, t, e, d, order).bytes == ResultAt(cfg, t, e, d, order).packets * cfg.payload
  {
    hide Reachable, Finished, Merged, Shape, Restart;
    var i := RecordsFit(cfg, t, d);
    var k := InOrder(cfg.workers, order, i);
    OrderShape(cfg.workers, order);
    hide IsOrder, LegOf, ValidConfig;
    var all := RecordsAt(cfg, t, CONNECTOR, d);
    var rs := Picked(all, order);
    assert RecordsAt(cfg, t, e, d) == all;
    MergedFields(EMPTY_RECORD, rs);
    assert rs[k].duration >= cfg.minimumTime * SECOND;
    BytesKept(EMPTY_RECORD, rs, cfg.payload);
  }

  // The records of a tested direction: every one has its packets' bytes, and one of them is long enough.
  lemma RecordsFit(cfg: Config, t: State, d: nat) returns (i: nat)
    requires ValidConfig(cfg) && Reachable(cfg, t) && Shape(cfg, t) && Finished(cfg, t) && d < 2 && LegOf(cfg, d) < Legs(cfg)
    ensures RecordsAt(cfg, t, CONNECTOR, d) == RecordsAt(cfg, t, LISTENER, d)
    ensures forall k :: 0 <= k < cfg.workers ==> var r := RecordsAt(cfg, t, CONNECTOR, d)[k]; r.bytes == r.packets * cfg.payload
    ensures i < cfg.workers && RecordsAt(cfg, t, CONNECTOR, d)[i].duration >= cfg.minimumTime * SECOND
  {
    hide Reachable, Finished, Shape, Restart;
    var round := EqualRecords(cfg, t, d);
    i := AcceptedIsLong(cfg, d, round);
    hide LastRound;
  }

  // --- what the result of a run is, in terms of what was measured

  /** The sum of a quantity over the connections from k on, on which direction d is tested. */
  function TestedSum(cfg: Config, d: nat, f: nat -> nat, k: nat): nat
    decreases cfg.workers - k
  {
    if k >= cfg.workers then 0 else (if Tested(cfg, d, k) then f(k) else 0) + TestedSum(cfg, d, f, k + 1)
  }

  /** Of how many connections that is. */
  function TestedCount(cfg: Config, d: nat): nat { TestedSum(cfg, d, i => 1, 0) }

  lemma {:induction false} CountFrom(cfg: Config, d: nat, f: nat -> nat, k: nat)
    requires ValidConfig(cfg) && d < 2 && LegOf(cfg, d) < Legs(cfg) && k <= cfg.workers && forall i :: f(i) == 1
    ensures TestedSum(cfg, d, f, k) ==
            if !cfg.asynchronous then cfg.workers - k
            else if d == 0 then (if k < cfg.workers / 2 then cfg.workers / 2 - k else 0)
            else if k < cfg.workers / 2 then cfg.workers / 2 else cfg.workers - k
    decreases cfg.workers - k
  {
    if k < cfg.workers { CountFrom(cfg, d, f, k + 1); }
  }

  lemma CountIsShare(cfg: Config, d: nat)
    requires ValidConfig(cfg) && d < 2 && LegOf(cfg, d) < Legs(cfg)
    ensures TestedCount(cfg, d) == Share(cfg.asynchronous, cfg.workers) > 0
  {
    CountFrom(cfg, d, i => 1, 0);
  }

  // The records of the tested connections sum up to what the connections sum up to, the empty ones add nothing.
  lemma {:induction false} TotalTested(cfg: Config, d: nat, all: seq<Record>, f: Record -> nat, g: nat -> nat, k: nat)
    requires |all| == cfg.workers && k <= |all|
    requires forall i :: 0 <= i < |all| ==> f(all[i]) == if Tested(cfg, d, i) then g(i) else 0
    ensures Total(all[k..], f) == TestedSum(cfg, d, g, k)
    decreases |all| - k
  {
    if k < |all| {
      TotalTested(cfg, d, all, f, g, k + 1);
      assert all[k..][0] == all[k] && all[k..][1..] == all[k + 1..];
    }
  }

  lemma {:induction false} SumScaled(cfg: Config, d: nat, f: nat -> nat, g: nat -> nat, c: nat, k: nat)
    requires k <= cfg.workers
    requires forall i :: 0 <= i < cfg.workers && Tested(cfg, d, i) ==> f(i) == c
    requires forall i :: g(i) == 1
    ensures TestedSum(cfg, d, f, k) == TestedSum(cfg, d, g, k) * c
    decreases cfg.workers - k
  {
    if k < cfg.workers {
      SumScaled(cfg, d, f, g, c, k + 1);
      var n := TestedSum(cfg, d, g, k + 1);
      assert (1 + n) * c == c + n * c;
    }
  }

  lemma InListOrder(cfg: Config, t: State, e: nat, d: nat, order: seq<nat>)
    requires ValidConfig(cfg) && Shape(cfg, t) && e < 2 && d < 2 && IsOrder(cfg.workers, order)
    ensures ResultAt(cfg, t, e, d, order) == Combined(cfg.asynchronous, EMPTY_RECORD, RecordsAt(cfg, t, e, d))
  {
    hide Merged, Shape, ValidConfig, LegOf;
    var all, ids := RecordsAt(cfg, t, e, d), seq(cfg.workers, i => i);
    OrderShape(cfg.workers, order);
    OrderIrrelevant(EMPTY_RECORD, all, order, ids);
    assert Picked(all, ids) == all;
    assert |order| == |all|;
  }

  /** The latency of the result is the truncated mean of the measured latencies over the connections on which the
      direction was tested, whose number is counted here from the connections themselves. */
  lemma ResultLatency(cfg: Config, t: State, d: nat, e: nat, order: seq<nat>)
    requires ValidConfig(cfg) && Reachable(cfg, t) && Shape(cfg, t) && Finished(cfg, t)
    requires d < 2 && e < 2 && LegOf(cfg, d) < Legs(cfg) && IsOrder(cfg.workers, order)
    ensures TestedCount(cfg, d) > 0
    ensures ResultAt(cfg, t, e, d, order).latency == TestedSum(cfg, d, i => cfg.latency(d, i), 0) / TestedCount(cfg, d)
  {
    hide Reachable, Finished, Merged, Shape, LastRound, Tested, LegOf, ValidConfig, IsOrder;
    var round := EqualRecords(cfg, t, d);
    InListOrder(cfg, t, e, d, order);
    CountIsShare(cfg, d);
    var all := RecordsAt(cfg, t, CONNECTOR, d);
    MergedFields(EMPTY_RECORD, all);
    TotalTested(cfg, d, all, (r: Record) => r.latency, i => cfg.latency(d, i), 0);
    assert all[0..] == all;
  }

  /** In particular equal latencies combine to that latency, in both modes. */
  lemma EqualLatencies(cfg: Config, t: State, d: nat, e: nat, order: seq<nat>, l: nat)
    requires ValidConfig(cfg) && Reachable(cfg, t) && Shape(cfg, t) && Finished(cfg, t)
    requires d < 2 && e < 2 && LegOf(cfg, d) < Legs(cfg) && IsOrder(cfg.workers, order)
    requires forall i :: 0 <= i < cfg.workers && Tested(cfg, d, i) ==> cfg.latency(d, i) == l
    ensures ResultAt(cfg, t, e, d, order).latency == l
  {
    hide Reachable, Finished, Shape, Tested, LegOf, ValidConfig, IsOrder, ResultAt;
    ResultLatency(cfg, t, d, e, order);
    SumScaled(cfg, d, i => cfg.latency(d, i), i => 1, l, 0);
    var n := TestedCount(cfg, d);
    assert (n * l) / n == l by { QuotientOfProduct(n, l); }
  }

  lemma QuotientOfProduct(n: nat, l: nat)
    requires n > 0
    ensures (n * l) / n == l
  {
    assert (l + 1) * n == l * n + n;
    QuotientUnique(n * l, n, l);
  }

  /** The other fields: every tested connection counted the last round's count and received as many packets, so the sums are
      that count times the tested connections, and the bytes that times the payload; the duration is the longest of the
      last round's streams; the start is zero, because the head's own record starts there. */
  lemma ResultFields(cfg: Config, t: State, d: nat, e: nat, order: seq<nat>) returns (round: nat)
    requires ValidConfig(cfg) && Reachable(cfg, t) && Shape(cfg, t) && Finished(cfg, t)
    requires d < 2 && e < 2 && LegOf(cfg, d) < Legs(cfg) && IsOrder(cfg.workers, order)
    ensures LastRound(cfg, LegOf(cfg, d), round) && round < |t.hist[d]|
    ensures var r, n := ResultAt(cfg, t, e, d, order), TestedCount(cfg, d) * t.hist[d][round];
            r.count == r.packets == n && r.bytes == n * cfg.payload && r.start == 0
    ensures forall i :: 0 <= i < cfg.workers && Tested(cfg, d, i) ==>
              ResultAt(cfg, t, e, d, order).duration >= cfg.duration(d, round, i)
    ensures exists i :: 0 <= i < cfg.workers && Tested(cfg, d, i) && ResultAt(cfg, t, e, d, order).duration == cfg.duration(d, round, i)
  {
    hide Reachable, Finished, Merged, LastRound, Tested, LegOf, ValidConfig, IsOrder;
    round := EqualRecords(cfg, t, d);
    InListOrder(cfg, t, e, d, order);
    var all := RecordsAt(cfg, t, CONNECTOR, d);
    MergedFields(EMPTY_RECORD, all);
    RecordsSpelled(cfg, t.hist, d);
    SumsOfCounts(cfg, d, all, t.hist[d][round]);
    var some := SomeTested(cfg, d);
    assert all[some].duration == cfg.duration(d, round, some);
    BytesKept(EMPTY_RECORD, all, cfg.payload);
  }

  lemma SumsOfCounts(cfg: Config, d: nat, all: seq<Record>, c: nat)
    requires |all| == cfg.workers
    requires forall i :: 0 <= i < |all| ==> all[i].count == all[i].packets == if Tested(cfg, d, i) then c else 0
    ensures Total(all, (r: Record) => r.count) == Total(all, (r: Record) => r.packets) == TestedCount(cfg, d) * c
  {
    hide Tested;
    TotalTested(cfg, d, all, (r: Record) => r.count, i => c, 0);
    TotalTested(cfg, d, all, (r: Record) => r.packets, i => c, 0);
    SumScaled(cfg, d, i => c, i => 1, c, 0);
    assert all[0..] == all;
  }

  // --- packets at layer 3

  /** total_pkts of report_results_compute. */
  function TotalPackets(bytes: nat, mtu: nat, payload: nat): nat
    requires mtu > 0 && payload > 0
  {
    bytes / (if mtu < payload then mtu else payload)
  }

  /** The fragments of one packet. */
  function Fragments(mtu: nat, payload: nat): nat
    requires mtu > 0
  {
    (payload + mtu - 1) / mtu
  }

  lemma Scaled(p: nat, q: nat, m: nat)
    requires m > 0
    ensures p <= q <==> p * m <= q * m
  {
    if p <= q { Products(m, p, q); } else { Products(m, q + 1, p); }
    assert (q + 1) * m == q * m + m;
  }

  lemma Quotient(x: nat, m: nat)
    requires m > 0
    ensures x / m * m <= x < (x / m + 1) * m
    ensures x / m * m == x <==> x % m == 0
  {
    assert x == x / m * m + x % m;
  }

  // q is the quotient exactly when its interval holds x.
  lemma QuotientUnique(x: nat, m: nat, q: nat)
    requires m > 0 && q * m <= x < (q + 1) * m
    ensures x / m == q
  {
    Quotient(x, m);
    if q < x / m { Scaled(q + 1, x / m, m); } else if x / m < q { Scaled(x / m + 1, q, m); }
  }

  lemma FragmentBounds(mtu: nat, payload: nat)
    requires mtu > 0
    ensures var f := Fragments(mtu, payload); payload <= f * mtu < payload + mtu && (f * mtu == payload <==> payload % mtu == 0)
  {
    Quotient(payload + mtu - 1, mtu);
    Quotient(payload, mtu);
    var g := payload / mtu;
    assert (g + 1) * mtu == g * mtu + mtu;
    if payload % mtu == 0 { QuotientUnique(payload + mtu - 1, mtu, g); }
    else {
      assert (g + 2) * mtu == g * mtu + 2 * mtu;
      QuotientUnique(payload + mtu - 1, mtu, g + 1);
    }
  }

  /** The estimate is the largest number of MTU-sized units, or of packets when those are smaller, that the bytes fill;
      the fragments of a packet are the fewest units that hold it. */
  lemma EstimateExactly(bytes: nat, mtu: nat, payload: nat)
    requires mtu > 0 && payload > 0
    ensures var n, m := TotalPackets(bytes, mtu, payload), if mtu < payload then mtu else payload;
            n * m <= bytes < (n + 1) * m
    ensures var f := Fragments(mtu, payload); f > 0 && (f - 1) * mtu < payload <= f * mtu
  {
    Quotient(bytes, if mtu < payload then mtu else payload);
    FragmentBounds(mtu, payload);
    var f := Fragments(mtu, payload);
    assert (f - 1) * mtu == f * mtu - mtu;
  }

  /** The estimate is the number of packets when they fit the MTU; otherwise it lies between that number and the
      number of fragments, which it meets exactly when the fragments are full or there is no packet. */
  lemma PacketEstimate(packets: nat, mtu: nat, payload: nat)
    requires mtu > 0 && payload > 0
    ensures payload <= mtu ==> TotalPackets(packets * payload, mtu, payload) == packets
    ensures payload > mtu ==> packets <= TotalPackets(packets * payload, mtu, payload) <= packets * Fragments(mtu, payload)
    ensures payload > mtu ==> (TotalPackets(packets * payload, mtu, payload) == packets * Fragments(mtu, payload)
                               <==> packets == 0 || payload % mtu == 0)
  {
    if payload <= mtu {
      assert (packets + 1) * payload == packets * payload + payload;
      QuotientUnique(packets * payload, payload, packets);
    } else {
      FragmentEstimate(packets, mtu, payload, Fragments(mtu, payload));
    }
  }

  lemma FragmentEstimate(packets: nat, mtu: nat, payload: nat, f: nat)
    requires 0 < mtu < payload && f == Fragments(mtu, payload)
    ensures packets <= packets * payload / mtu <= packets * f
    ensures packets * payload / mtu == packets * f <==> packets == 0 || payload % mtu == 0
  {
    var x := packets * payload;
    var q, g := x / mtu, packets * f;
    FragmentBounds(mtu, payload);
    assert g * mtu == packets * (f * mtu);
    Products(packets, payload, f * mtu);
    Products(packets, mtu, payload);
    QuotientBetween(x, mtu, packets, g);
  }

  lemma QuotientBetween(x: nat, m: nat, lo: nat, hi: nat)
    requires m > 0 && lo * m <= x <= hi * m
    ensures lo <= x / m <= hi
    ensures x / m == hi <==> x == hi * m
  {
    Quotient(x, m);
    var q := x / m;
    assert (hi + 1) * m == hi * m + m;
    if lo > q { Scaled(q + 1, lo, m); }
    if q > hi { Scaled(hi + 1, q, m); }
    if x == hi * m { QuotientUnique(x, m, hi); }
  }

  lemma Products(n: nat, x: nat, y: nat)
    requires x <= y
    ensures n * x <= n * y && (n * x == n * y <==> n == 0 || x == y)
  {
    assert n * y - n * x == n * (y - x);
    if n > 0 && x < y { assert n * (y - x) >= 1; }
  }
}
