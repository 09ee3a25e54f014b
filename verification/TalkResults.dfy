/** What a completed run has collected: the same record at both ends of every connection, from streams that were long enough. */
module TalkResults {
  import opened TalkModel
  import opened TalkEvents
  import opened TalkWorker
  import opened TalkBarrier
  import opened TalkVotes
  import opened TalkCounts
  import opened TalkInvariant
  import opened TalkProgress
  import opened TalkTermination
  import opened TalkRuns

  /** Direction d is tested on connection i. */
  predicate Tested(cfg: Config, d: nat, i: nat) { LegOf(cfg, d) < Legs(cfg) && Dir(cfg, i, LegOf(cfg, d)) == d }

  /** In asynchronous mode each direction is tested on its half of the connections; otherwise a direction is tested on all
      connections, the straight one unless the run is reverse only, the reverse one unless it is straight only. */
  lemma TestedExactly(cfg: Config, d: nat, i: nat)
    requires ValidConfig(cfg) && d < 2
    ensures Tested(cfg, d, i) <==> if cfg.asynchronous then (d == 0) == (i < cfg.workers / 2)
                                   else cfg.bidirectional || (d == 1) == cfg.reverseFirst
  {}

  lemma RecordsOf(cfg: Config, t: State, e: nat, i: nat, d: nat) returns (round: nat)
    requires Inv(cfg, t) && Finished(cfg, t) && Id(cfg, e, i) && d < 2 && Tested(cfg, d, i)
    ensures LastRound(cfg, LegOf(cfg, d), round) && |t.ws[e][i].reports| == 2
    ensures t.ws[e][i].reports[d] == RecordOf(cfg, t.hist, d, round, i)
    ensures round < |t.hist[d]|
  {
    var w := t.ws[e][i];
    assert WorkerOk(cfg, t.hist, e, i, w);
    hide Workers, Connections, Restart;
    round := if w.pos.leg == LegOf(cfg, d) then w.pos.round else w.prev;
  }

  /** When all workers have finished, both ends of every connection hold the same record of every direction
      tested on it: the record of that direction's last round, which is the same for all connections. */
  lemma SameRecords(cfg: Config, t: State, d: nat) returns (round: nat)
    requires ValidConfig(cfg) && Reachable(cfg, t) && Shape(cfg, t) && Finished(cfg, t)
    requires d < 2 && LegOf(cfg, d) < Legs(cfg)
    ensures LastRound(cfg, LegOf(cfg, d), round)
    ensures forall i :: 0 <= i < cfg.workers && Tested(cfg, d, i) ==>
              && |t.ws[CONNECTOR][i].reports| == |t.ws[LISTENER][i].reports| == 2
              && t.ws[CONNECTOR][i].reports[d] == t.ws[LISTENER][i].reports[d] == RecordOf(cfg, t.hist, d, round, i)
    ensures round < |t.hist[d]|
    ensures forall i :: 0 <= i < cfg.workers && Tested(cfg, d, i) ==>
              var n := t.hist[d][round];
              t.ws[CONNECTOR][i].reports[d] ==
              Record(cfg.latency(d, i), n, n, cfg.duration(d, round, i), cfg.began(d, round, i), n * cfg.payload)
  {
    RecordsSpelled(cfg, t.hist, d);
    ReachableInv(cfg, t);
    hide Workers, Connections, Restart, Finished, Inv, LastRound, Reachable, RecordOf;
    var i0 := SomeTested(cfg, d);
    round := RecordsOf(cfg, t, 0, i0, d);
    forall i | 0 <= i < cfg.workers && Tested(cfg, d, i)
      ensures && |t.ws[CONNECTOR][i].reports| == |t.ws[LISTENER][i].reports| == 2
              && t.ws[CONNECTOR][i].reports[d] == t.ws[LISTENER][i].reports[d] == RecordOf(cfg, t.hist, d, round, i)
    {
      var r0 := RecordsOf(cfg, t, 0, i, d);
      var r1 := RecordsOf(cfg, t, 1, i, d);
      LastRoundUnique(cfg, LegOf(cfg, d), round, r0);
      LastRoundUnique(cfg, LegOf(cfg, d), round, r1);
    }
  }

  lemma RecordsSpelled(cfg: Config, hist: seq<seq<nat>>, d: nat)
    ensures forall round: nat, i :: d < |hist| && round < |hist[d]| ==>
              var n := hist[d][round];
              RecordOf(cfg, hist, d, round, i) ==
              Record(cfg.latency(d, i), n, n, cfg.duration(d, round, i), cfg.began(d, round, i), n * cfg.payload)
  {}

  lemma SomeTested(cfg: Config, d: nat) returns (i: nat)
    requires ValidConfig(cfg) && d < 2 && LegOf(cfg, d) < Legs(cfg)
    ensures i < cfg.workers && Tested(cfg, d, i)
  {
    i := if cfg.asynchronous && d == 1 then cfg.workers / 2 else 0;
  }

  // --- the accepted streams are long enough

  /** A round that is not restarted has a stream of at least the minimum time in every direction it tests. */
  lemma AcceptedIsLong(cfg: Config, d: nat, round: nat) returns (i: nat)
    requires ValidConfig(cfg) && d < 2 && LegOf(cfg, d) < Legs(cfg) && !Restart(cfg, LegOf(cfg, d), round)
    ensures i < cfg.workers && Tested(cfg, d, i) && cfg.duration(d, round, i) >= cfg.minimumTime * 1000000
  {
    RestartExactly(cfg, LegOf(cfg, d), round);
    i :| 0 <= i < cfg.workers && Dir(cfg, i, LegOf(cfg, d)) == d && cfg.duration(d, round, i) >= cfg.minimumTime * 1000000;
  }

  // --- the streams that are compared run together

  /** While one worker of an end streams, all workers of that end are in the same round of the same leg, about to stream,
      streaming, or waiting for the others at the end of their streams: no verdict is sent before every stream of the end, in
      asynchronous mode of both directions, is over, and none starts before all are ready. */
  lemma StreamsTogether(cfg: Config, t: State, e: nat, i: nat, j: nat)
    requires ValidConfig(cfg) && Reachable(cfg, t) && Shape(cfg, t) && Id(cfg, e, i) && Id(cfg, e, j) && t.ws[e][i].pos.at == RUN
    ensures var p, q := t.ws[e][i].pos, t.ws[e][j].pos;
            && q.leg == p.leg && q.round == p.round
            && RUN_SYNC <= q.at <= if cfg.asynchronous then END_SYNC_ALL else END_SYNC
  {
    hide Reachable, Connections, Votes, Counts, DataOk, StageAt, WaitsOk;
    ReachableInv(cfg, t);
    MainAligned(cfg, t, e, i, j);
    MainAligned(cfg, t, e, j, i);
    assert WorkerOk(cfg, t.hist, e, i, t.ws[e][i]) && WorkerOk(cfg, t.hist, e, j, t.ws[e][j]);
    hide Restart;
  }

  /** A worker of an end that has gone on to the next leg waits there at the first barrier for all others, which are in the
      last round of the leg before and have added their verdicts. */
  lemma LegsApart(cfg: Config, t: State, e: nat, i: nat, j: nat)
    requires ValidConfig(cfg) && Reachable(cfg, t) && Shape(cfg, t) && Id(cfg, e, i) && Id(cfg, e, j)
    requires t.ws[e][i].pos.leg > t.ws[e][j].pos.leg
    ensures t.ws[e][i].pos.at == INIT && t.ws[e][i].pos.leg == t.ws[e][j].pos.leg + 1
    ensures t.ws[e][j].pos.round == t.ws[e][i].prev && t.ws[e][j].pos.at >= WEAK_SYNC_2
  {
    hide Reachable, Connections, Votes, Counts, DataOk, StageAt, WaitsOk;
    ReachableInv(cfg, t);
    MainAligned(cfg, t, e, i, j);
    assert WorkerOk(cfg, t.hist, e, i, t.ws[e][i]) && WorkerOk(cfg, t.hist, e, j, t.ws[e][j]);
    hide Restart;
  }

  // --- when no run finishes

  /** Every stream of the configuration is shorter than the minimum time. */
  ghost predicate AlwaysWeak(cfg: Config) { forall d, r, i :: cfg.duration(d, r, i) < cfg.minimumTime * 1000000 }

  lemma WeakRestarts(cfg: Config, leg: nat, round: nat)
    requires ValidConfig(cfg) && AlwaysWeak(cfg) && leg < Legs(cfg)
    ensures Restart(cfg, leg, round)
  {
    RestartExactly(cfg, leg, round);
  }

  /** Some worker can step. */
  ghost predicate Live(cfg: Config, s: State)
    requires Shape(cfg, s)
  {
    exists e, i :: Id(cfg, e, i) && CanStep(cfg, s, e, i)
  }

  lemma AbortedStops(cfg: Config, s: State)
    requires Shape(cfg, s) && s.aborted
    ensures !Live(cfg, s)
  {}

  /** Every run can be continued until no worker can step. */
  lemma {:induction false} RunsEnd(cfg: Config, s: State) returns (moves: seq<(nat, nat)>, t: State)
    requires Inv(cfg, s)
    ensures RunTo(cfg, s, moves, t) && Shape(cfg, t) && !Live(cfg, t)
    decreases RunBound(cfg) - Rank(cfg, s)
  {
    hide Workers, Connections, Barriers, Votes, Counts, Step, CanStep, Rank, RunBound;
    if Live(cfg, s) {
      var e, i :| Id(cfg, e, i) && CanStep(cfg, s, e, i);
      var s' := Step(cfg, s, e, i);
      StepKeeps(cfg, s, e, i);
      if s'.aborted {
        moves, t := [(e, i)], s';
        assert moves[1..] == [];
        AbortedStops(cfg, s');
      } else {
        RankGrows(cfg, s, e, i);
        RankWithin(cfg, s');
        var rest;
        rest, t := RunsEnd(cfg, s');
        moves := [(e, i)] + rest;
        assert moves[1..] == rest;
      }
    } else {
      moves, t := [], s;
    }
  }

  lemma RankWithin(cfg: Config, s: State)
    requires Inv(cfg, s)
    ensures Rank(cfg, s) <= RunBound(cfg)
  {
    hide Inv, Rank, Width;
    RankBounded(cfg, s);
  }

  /** Not every run completes. When every stream is too short, as on a link that moves the largest count in less than the
      minimum time, each run goes on restarting until a count reaches the maximum, and then it is left unfinished: there
      is such a run from every initial state. */
  lemma AlwaysWeakNeverFinishes(cfg: Config, s: State) returns (moves: seq<(nat, nat)>, t: State)
    requires ValidConfig(cfg) && AlwaysWeak(cfg) && Initial(cfg, s)
    ensures RunTo(cfg, s, moves, t) && Shape(cfg, t) && t.aborted && AtMaximum(t) && !Finished(cfg, t)
  {
    InitialInv(cfg, s);
    moves, t := RunsEnd(cfg, s);
    assert Reachable(cfg, t);
    NeverFinished(cfg, t);
    hide Inv, RunTo, Initial, CanStep, AtMaximum, Finished, AlwaysWeak;
    RunsComplete(cfg, t);
    AbortOnlyAtMaximum(cfg, t);
  }

  lemma NeverFinished(cfg: Config, t: State)
    requires ValidConfig(cfg) && AlwaysWeak(cfg) && Reachable(cfg, t) && Shape(cfg, t)
    ensures !Finished(cfg, t)
  {
    ReachableInv(cfg, t);
    var w := t.ws[0][0];
    assert WorkerOk(cfg, t.hist, 0, 0, w);
    hide Workers, Connections, Restart, AlwaysWeak, Reachable;
    if w.pos.leg < Legs(cfg) { WeakRestarts(cfg, w.pos.leg, w.pos.round); }
  }

  /** One worker at each end, on a link whose streams take no time. */
  const INSTANT := Config(false, false, false, 1, 1, 1024, 5, 0, 1,
                          (d: nat, r: nat, i: nat) => 0, (d: nat, r: nat, i: nat) => 0, (d: nat, i: nat) => 0,
                          (e: nat, b: nat, r: nat) => 0)

  const INSTANT_START := State([[FRESH_WORKER], [FRESH_WORKER]], [[[]], [[]]], [FRESH_SHARED, FRESH_SHARED], [[], []], false, false)

  /** A concrete one: this run of an accepted configuration is left unfinished. */
  lemma SomeRunFails() returns (moves: seq<(nat, nat)>, t: State)
    ensures ValidConfig(INSTANT) && Initial(INSTANT, INSTANT_START) && RunTo(INSTANT, INSTANT_START, moves, t)
    ensures Shape(INSTANT, t) && t.aborted && !Finished(INSTANT, t)
  {
    hide RunTo, Finished, AtMaximum;
    moves, t := AlwaysWeakNeverFinishes(INSTANT, INSTANT_START);
  }
}
