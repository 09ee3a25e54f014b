/**
  How the configuration splits the workers, the path of each worker through process_run, and why every barrier has exactly
  as many users as it was initialised for.
 */
module Sizing {
  import opened Options
  import opened WorkerLife
  import opened TalkModel
  import opened TalkEvents
  import opened TalkWorker
  import opened TalkBarrier
  import opened TalkVotes
  import opened TalkCounts
  import opened TalkInvariant
  import opened TalkProgress
  import opened TalkRuns

  /** The options that matter here, as parsed; -A, -b or -o, -R, -W and the transport. */
  datatype Switches = Switches(async: bool, bidir: bool, reverse: bool, workers: nat, udp: bool)

  /** The option parser accepts one worker up to 1024. */
  predicate Parsed(o: Switches) { 0 < o.workers <= 1024 }

  /** The barriers' totals after worker_init; None where no barrier is initialised. */
  datatype Totals = Totals(straight: Option<nat>, reverse: Option<nat>, all: Option<nat>)

  class Configuration {
    var asynchronous: bool
    var bidirectional: bool
    var reverseFirst: bool
    var workerCount: nat
    var straightFirst: nat
    var reverseFirstCount: nat
    var udp: bool

    constructor ()
      ensures !asynchronous && !bidirectional && !reverseFirst && workerCount == 1 && straightFirst == reverseFirstCount == 0
    {
      asynchronous, bidirectional, reverseFirst, udp := false, false, false, false;
      workerCount, straightFirst, reverseFirstCount := 1, 0, 0;
    }

    ghost predicate Split()
      reads this
    {
      && workerCount > 0 && straightFirst + reverseFirstCount == workerCount
      && (asynchronous ==> bidirectional && !reverseFirst && straightFirst == reverseFirstCount)
      && (!asynchronous ==> if reverseFirst then straightFirst == 0 else reverseFirstCount == 0)
    }

    /** config_init after the option parser: rounds the workers up in asynchronous mode, splits them and checks. */
    method Init(o: Switches) returns (ok: bool)
      requires Parsed(o)
      modifies this
      ensures ok <==> !(o.async && o.reverse) && (o.udp ==> !o.async && o.workers == 1)
      ensures ok ==> Split() && asynchronous == o.async && bidirectional == (o.bidir || o.async) && reverseFirst == o.reverse
      ensures ok ==> workerCount == if o.async then o.workers + o.workers % 2 else o.workers
    {
      asynchronous, bidirectional, reverseFirst, workerCount, udp := o.async, o.bidir || o.async, o.reverse, o.workers, o.udp;
      if asynchronous {
        if workerCount % 2 == 1 { workerCount := workerCount + 1; }
        straightFirst, reverseFirstCount := workerCount / 2, workerCount / 2;
      } else if reverseFirst {
        straightFirst, reverseFirstCount := 0, workerCount;
      } else {
        straightFirst, reverseFirstCount := workerCount, 0;
      }
      ok := 0 < workerCount <= 1024 && (asynchronous ==> workerCount % 2 == 0 && !reverseFirst)
            && (udp ==> !asynchronous && workerCount == 1);
    }

    /** worker_init: the totals that the three barriers are initialised with. */
    method WorkerInit() returns (t: Totals)
      requires Split()
      ensures t == TotalsOf(asynchronous, bidirectional, reverseFirst, workerCount)
    {
      var straight, reverse, all: Option<nat> := None, None, None;
      if straightFirst > 0 && bidirectional {
        straight := Some(straightFirst);
      } else if straightFirst > 0 {
        straight := Some(straightFirst);
      } else if bidirectional {
        straight := Some(workerCount);
      }
      if reverseFirstCount > 0 && bidirectional {
        reverse := Some(reverseFirstCount);
      } else if reverseFirstCount > 0 {
        reverse := Some(reverseFirstCount);
      } else if bidirectional {
        reverse := Some(workerCount);
      }
      if asynchronous { all := Some(workerCount); }
      t := Totals(straight, reverse, all);
    }
  }

  function TotalsOf(asynchronous: bool, bidirectional: bool, reverseFirst: bool, workers: nat): Totals {
    var half := workers / 2;
    if asynchronous then Totals(Some(half), Some(half), Some(workers))
    else Totals(if reverseFirst && !bidirectional then None else Some(workers),
                if !reverseFirst && !bidirectional then None else Some(workers), None)
  }

  function TotalOf(t: Totals, b: nat): Option<nat>
    requires b < 3
  {
    if b == 0 then t.straight else if b == 1 then t.reverse else t.all
  }

  // --- the path of a worker

  class Process {
    var imSender: bool
    var imReceiver: bool
    var reverse: bool
    var events: seq<Event>

    constructor ()
      ensures events == []
    {
      imSender, imReceiver, reverse, events := false, false, false, [];
    }

    /** The four role and direction functions: set the fields, initialise when asked to, talk, clean up when asked to. */
    method TalkDirection(listener: bool, toReverse: bool, init: bool, cleanup: bool)
      modifies this
      ensures events == old(events) + (if init then [Init] else [])
                        + [Talk(if toReverse then 1 else 0, listener == toReverse)] + if cleanup then [Destroy] else []
      ensures reverse == toReverse && imSender == (listener == toReverse) && imReceiver == !imSender
    {
      reverse := toReverse;
      if listener == toReverse { imSender, imReceiver := true, false; } else { imSender, imReceiver := false, true; }
      if init { events := events + [Init]; }
      events := events + [Talk(if reverse then 1 else 0, imSender)];
      if cleanup { events := events + [Destroy]; }
    }

    /** process_run, straight first or reverse first: the connection is initialised once, before the first of the
        protocol's legs, and destroyed after the last; then the worker exits. */
    method Run(cfg: Config, e: nat, i: nat, reverseFirst: bool)
      requires Id(cfg, e, i) && reverseFirst == ReverseFirst(cfg, i) && events == []
      requires cfg.asynchronous ==> !cfg.reverseFirst
      modifies this
      ensures events == ProgramOf(cfg, e, i)
    {
      PathLegs(cfg, e, i);
      hide PathOf, IsSender, ValidConfig;
      var listener := e == LISTENER;
      if cfg.bidirectional && !cfg.asynchronous {
        TalkDirection(listener, reverseFirst, true, false);
        TalkDirection(listener, !reverseFirst, false, true);
      } else {
        TalkDirection(listener, reverseFirst, true, true);
      }
      events := events + [Exit];
    }
  }

  /** process_report: the directions whose results are shown, in order; they are exactly the tested ones. */
  method ReportedDirections(cfg: Config) returns (ds: seq<nat>)
    requires ValidConfig(cfg)
    ensures forall d :: d in ds <==> d < 2 && LegOf(cfg, d) < Legs(cfg)
    ensures forall k, l :: 0 <= k < l < |ds| ==> ds[k] < ds[l]
  {
    ds := [];
    if (cfg.reverseFirst && cfg.bidirectional) || !cfg.reverseFirst { ds := ds + [0]; }
    if !cfg.bidirectional && !cfg.reverseFirst { return; }
    ds := ds + [1];
  }

  /** Workers from straightFirst on are started with the reverse-first flag. */
  predicate ReverseFirst(cfg: Config, i: nat) {
    i >= if cfg.asynchronous then cfg.workers / 2 else if cfg.reverseFirst then 0 else cfg.workers
  }

  /** The talk phases of worker i: the protocol's legs, with their directions and roles. */
  function PathOf(cfg: Config, e: nat, i: nat): seq<Event> {
    seq(Legs(cfg), leg requires 0 <= leg < Legs(cfg) => var d := Dir(cfg, i, leg); Talk(d, IsSender(e, d)))
  }

  lemma PathLegs(cfg: Config, e: nat, i: nat)
    ensures var d, d' := Dir(cfg, i, 0), Dir(cfg, i, 1);
            PathOf(cfg, e, i) == [Talk(d, (e == CONNECTOR) == (d == 0))]
                                 + if cfg.bidirectional && !cfg.asynchronous then [Talk(d', (e == CONNECTOR) == (d' == 0))] else []
  {}

  /** The program spelled out: a reverse-first worker begins with direction 1, whose sender is the listener (end 1); in a
      bidirectional synchronous run the other direction follows, with the opposite role. */
  lemma ProgramSpelled(cfg: Config, e: nat, i: nat)
    requires ValidConfig(cfg) && Id(cfg, e, i)
    ensures var first := if ReverseFirst(cfg, i) then 1 else 0;
            ProgramOf(cfg, e, i) ==
            [Init, Talk(first, (e == 1) == (first == 1))]
            + (if cfg.bidirectional && !cfg.asynchronous then [Talk(1 - first, (e == 1) == (first == 0))] else [])
            + [Destroy, Exit]
  {
    PathLegs(cfg, e, i);
    hide PathOf;
  }

  function ProgramOf(cfg: Config, e: nat, i: nat): seq<Event> { [Init] + PathOf(cfg, e, i) + [Destroy, Exit] }

  // --- the users of each barrier

  /** Some point on the worker's path waits on barrier b. */
  ghost predicate Uses(cfg: Config, e: nat, i: nat, b: nat) {
    exists p: Position, count: nat :: WaitsAt(cfg, e, i, b, p, count)
  }

  predicate WaitsAt(cfg: Config, e: nat, i: nat, b: nat, p: Position, count: nat) {
    var d := Dir(cfg, i, p.leg);
    PlaceOk(cfg, IsSender(e, d), p, count) && ActAt(cfg, IsSender(e, d), d, p.at, p.idx) == Wait(b)
  }

  lemma UsesExactly(cfg: Config, e: nat, i: nat, b: nat)
    requires ValidConfig(cfg) && b < 3
    ensures Uses(cfg, e, i, b) <==> if cfg.asynchronous then b == 2 || b == Dir(cfg, i, 0)
                                    else b < 2 && (cfg.bidirectional || b == Dir(cfg, i, 0))
  {
    var first, second := Position(0, 0, END_SYNC, 0), Position(1, 0, END_SYNC, 0);
    assert WaitsAt(cfg, e, i, Dir(cfg, i, 0), first, 0);
    if cfg.asynchronous {
      assert WaitsAt(cfg, e, i, 2, Position(0, 0, INIT, 0), 0);
    } else if cfg.bidirectional {
      assert WaitsAt(cfg, e, i, Dir(cfg, i, 1), second, 0);
    }
  }

  ghost function Users(cfg: Config, e: nat, b: nat, n: nat): nat {
    if n == 0 then 0 else Users(cfg, e, b, n - 1) + if Uses(cfg, e, n - 1, b) then 1 else 0
  }

  lemma {:induction false} UsersCounted(cfg: Config, e: nat, b: nat, n: nat)
    requires ValidConfig(cfg) && b < 3 && n <= cfg.workers
    ensures Users(cfg, e, b, n) ==
            if !cfg.asynchronous then (if b < 2 && (cfg.bidirectional || b == Dir(cfg, 0, 0)) then n else 0)
            else if b == 2 then n
            else if b == 0 then (if n <= cfg.workers / 2 then n else cfg.workers / 2)
            else if n <= cfg.workers / 2 then 0 else n - cfg.workers / 2
  {
    if n > 0 {
      UsersCounted(cfg, e, b, n - 1);
      UsesExactly(cfg, e, n - 1, b);
    }
  }

  /** Every barrier was initialised with exactly the number of workers whose path waits on it, and a barrier that was
      not initialised has no user: for every accepted configuration and at both ends. */
  lemma BarriersSized(cfg: Config, e: nat, b: nat)
    requires ValidConfig(cfg) && b < 3
    ensures var total := TotalOf(TotalsOf(cfg.asynchronous, cfg.bidirectional, cfg.reverseFirst, cfg.workers), b);
            Users(cfg, e, b, cfg.workers) == if total.Some? then total.value else 0
    ensures var total := TotalOf(TotalsOf(cfg.asynchronous, cfg.bidirectional, cfg.reverseFirst, cfg.workers), b);
            total.Some? <==> exists i :: 0 <= i < cfg.workers && Uses(cfg, e, i, b)
  {
    UsersCounted(cfg, e, b, cfg.workers);
    UsesExactly(cfg, e, 0, b);
    UsesExactly(cfg, e, cfg.workers - 1, b);
    if i :| 0 <= i < cfg.workers && Uses(cfg, e, i, b) { UsesExactly(cfg, e, i, b); }
  }

  // Two workers that are through, each with its own last round, have waited equally often on a barrier they share.
  lemma FinalWaits(cfg: Config, hist: seq<seq<nat>>, e: nat, i: nat, j: nat, v: Worker, w: Worker, b: nat)
    requires ValidConfig(cfg) && e < 2 && i < cfg.workers && j < cfg.workers && b < 3
    requires WorkerOk(cfg, hist, e, i, v) && WorkerOk(cfg, hist, e, j, w)
    requires v.pos.at == w.pos.at == DONE
    requires if cfg.asynchronous then b == 2 || (b == Dir(cfg, i, 0) && b == Dir(cfg, j, 0))
             else b < 2 && (cfg.bidirectional || b == Dir(cfg, i, 0))
    ensures v.waits[b] == w.waits[b]
  {
    hide Restart, DataOk, StageAt;
    LastRoundUnique(cfg, v.pos.leg, v.pos.round, w.pos.round);
    if v.pos.leg > 0 { LastRoundUnique(cfg, 0, v.prev, w.prev); }
  }

  /** And all users of a barrier complete the same number of waits on it by the end of a run. */
  lemma SameWaits(cfg: Config, t: State, e: nat, i: nat, j: nat, b: nat)
    requires ValidConfig(cfg) && Reachable(cfg, t) && Shape(cfg, t) && Finished(cfg, t)
    requires Id(cfg, e, i) && Id(cfg, e, j) && b < 3 && Uses(cfg, e, i, b) && Uses(cfg, e, j, b)
    ensures t.ws[e][i].waits[b] == t.ws[e][j].waits[b]
  {
    ReachableInv(cfg, t);
    UsesExactly(cfg, e, i, b);
    UsesExactly(cfg, e, j, b);
    hide Uses, Reachable, WorkerOk, Connections, Barriers, Votes, Counts;
    FinalWaits(cfg, t.hist, e, i, j, t.ws[e][i], t.ws[e][j], b);
  }
}
