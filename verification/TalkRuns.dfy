/** The protocol's main results, for every run from the initial state. */
module TalkRuns {
  import opened Growth
  import opened TalkModel
  import opened TalkEvents
  import opened TalkWorker
  import opened TalkBarrier
  import opened TalkVotes
  import opened TalkCounts
  import opened TalkInvariant
  import opened TalkProgress
  import opened TalkTermination

  /** t is reached from s by the given workers taking one step each, in order. */
  predicate RunTo(cfg: Config, s: State, moves: seq<(nat, nat)>, t: State)
    decreases |moves|
  {
    if |moves| == 0 then s == t
    else
      var (e, i) := moves[0];
      Shape(cfg, s) && Id(cfg, e, i) && CanStep(cfg, s, e, i) && RunTo(cfg, Step(cfg, s, e, i), moves[1..], t)
  }

  ghost predicate Reachable(cfg: Config, t: State) {
    exists s, moves :: Initial(cfg, s) && RunTo(cfg, s, moves, t)
  }

  lemma InitialInv(cfg: Config, s: State)
    requires ValidConfig(cfg) && Initial(cfg, s)
    ensures Inv(cfg, s)
  {
    assert Workers(cfg, s) && Barriers(cfg, s) by { hide Connections, Votes, Counts; }
    assert Votes(cfg, s) by { hide Workers, Barriers, Connections, Counts; }
    assert Counts(cfg, s, 0) && Counts(cfg, s, 1) by { hide Workers, Barriers, Connections, Votes; }
    hide Workers, Barriers, Votes, Counts;
    forall i | 0 <= i < cfg.workers ensures Connected(cfg, s, i) {
    }
  }

  lemma {:induction false} RunKeepsInv(cfg: Config, s: State, moves: seq<(nat, nat)>, t: State)
    requires Inv(cfg, s) && RunTo(cfg, s, moves, t)
    ensures Inv(cfg, t)
    decreases |moves|
  {
    hide Inv, Step, CanStep;
    if |moves| > 0 {
      var (e, i) := moves[0];
      StepKeeps(cfg, s, e, i);
      RunKeepsInv(cfg, Step(cfg, s, e, i), moves[1..], t);
    }
  }

  /** Every reachable state satisfies the invariant; in particular no message is ever misread. */
  lemma ReachableInv(cfg: Config, t: State)
    requires ValidConfig(cfg) && Reachable(cfg, t)
    ensures Inv(cfg, t) && !t.fault
  {
    var s, moves :| Initial(cfg, s) && RunTo(cfg, s, moves, t);
    InitialInv(cfg, s);
    RunKeepsInv(cfg, s, moves, t);
    hide Workers, Connections, Barriers, Votes, Counts;
  }

  // --- termination

  function RunBound(cfg: Config): nat { 2 * (cfg.workers * (2 * 179 * 26 * Width(cfg))) + 1 }

  lemma {:induction false} RunIsShort(cfg: Config, s: State, moves: seq<(nat, nat)>, t: State)
    requires Inv(cfg, s) && RunTo(cfg, s, moves, t)
    ensures |moves| + Rank(cfg, s) <= RunBound(cfg)
    decreases |moves|
  {
    hide Workers, Connections, Barriers, Votes, Counts, Step, CanStep, Rank, Width;
    RankBounded(cfg, s);
    if |moves| > 0 {
      var (e, i) := moves[0];
      var s' := Step(cfg, s, e, i);
      StepKeeps(cfg, s, e, i);
      if s'.aborted {
        assert |moves| == 1 by { AbortStops(cfg, s', moves[1..], t); }
      } else {
        RankGrows(cfg, s, e, i);
        RunIsShort(cfg, s', moves[1..], t);
      }
    }
  }

  lemma AbortStops(cfg: Config, s: State, moves: seq<(nat, nat)>, t: State)
    requires s.aborted && RunTo(cfg, s, moves, t)
    ensures moves == []
  {}

  /** Every run is finite, with a bound that depends on the configuration only. */
  lemma RunsAreFinite(cfg: Config, s: State, moves: seq<(nat, nat)>, t: State)
    requires ValidConfig(cfg) && Initial(cfg, s) && RunTo(cfg, s, moves, t)
    ensures |moves| <= RunBound(cfg)
  {
    InitialInv(cfg, s);
    RunIsShort(cfg, s, moves, t);
  }

  /** A run that cannot go on has finished every worker, or a count has reached its maximum. */
  lemma RunsComplete(cfg: Config, t: State)
    requires ValidConfig(cfg) && Reachable(cfg, t)
    requires Shape(cfg, t) && forall e, i :: 0 <= e < 2 && 0 <= i < cfg.workers ==> !CanStep(cfg, t, e, i)
    ensures t.aborted || Finished(cfg, t)
  {
    ReachableInv(cfg, t);
    hide Workers, Connections, Barriers, Votes, Counts, CanStep, Finished;
    if !t.aborted && !Finished(cfg, t) {
      var e, i := DeadlockFree(cfg, t);
    }
  }

  // --- the only way to leave a run

  ghost predicate AtMaximum(s: State) {
    exists d, k :: 0 <= d < |s.hist| && 0 <= k < |s.hist[d]| && s.hist[d][k] >= 1000000000
  }

  lemma WaitAbortCause(cfg: Config, s: State, e: nat, i: nat)
    requires Inv(cfg, s) && Id(cfg, e, i)
    requires WaitAborts(s.ws[e][i], s.sh[e].count[Dir(cfg, i, s.ws[e][i].pos.leg)])
    ensures AtMaximum(s)
  {
    hide WorkerOk, Counts, Barriers, Votes, Connections;
    WaitsShape(cfg, s, e, i);
    SenderPoint(cfg, s.hist, e, i, s.ws[e][i]);
    var d := Dir(cfg, i, s.ws[e][i].pos.leg);
    LastCount(cfg, s, d, i);
    assert s.hist[d][|s.hist[d]| - 1] >= COUNT_MAX;
  }

  lemma LastCount(cfg: Config, s: State, d: nat, i: nat)
    requires Shape(cfg, s) && d < 2 && Counts(cfg, s, d) && i < cfg.workers && Participant(cfg, d, i)
    requires Dir(cfg, i, s.ws[SenderEnd(d)][i].pos.leg) == d && s.ws[SenderEnd(d)][i].pos.at == GROW_SYNC_2
    ensures |s.hist[d]| > 0 && s.sh[SenderEnd(d)].count[d] == s.hist[d][|s.hist[d]| - 1] >= COUNT_DEFAULT
  {
    assert GenerationOk(cfg, d, |s.hist[d]|, s.ws[SenderEnd(d)], i);
  }

  lemma ReceiveAbortCause(cfg: Config, s: State, e: nat, i: nat)
    requires Inv(cfg, s) && Id(cfg, e, i) && Next(cfg, e, i, s.ws[e][i]) == Receive && |s.q[Peer(e)][i]| > 0
    requires ReceiveAborts(s.ws[e][i], s.q[Peer(e)][i][0])
    ensures AtMaximum(s)
  {
    hide WorkerOk, Counts, Barriers, Votes, Connections;
    HeadExpected(cfg, s, e, i);
    var ev := NextReceive(cfg, e, i, s.ws[e][i]);
    var d := Dir(cfg, i, ev.leg);
    assert s.hist[d][ev.round] >= COUNT_MAX;
  }

  /** A step aborts only when the count of some direction has reached the maximum. */
  lemma AbortCause(cfg: Config, s: State, e: nat, i: nat)
    requires Inv(cfg, s) && Id(cfg, e, i) && CanStep(cfg, s, e, i) && Step(cfg, s, e, i).aborted
    ensures AtMaximum(s)
  {
    hide Workers, Connections, Barriers, Votes, Counts, MayLeave, WaitAborts, ReceiveAborts, Faulty, AfterWait,
      AfterSend, AfterReceive, AfterLocal, Outgoing, SharedAfterLocal, ActAt;
    if Next(cfg, e, i, s.ws[e][i]).Wait? {
      WaitAbortCause(cfg, s, e, i);
    } else if Next(cfg, e, i, s.ws[e][i]) == Receive {
      ReceiveAbortCause(cfg, s, e, i);
    }
  }

  lemma {:induction false} RunAbortCause(cfg: Config, s: State, moves: seq<(nat, nat)>, t: State)
    requires Inv(cfg, s) && !s.aborted && RunTo(cfg, s, moves, t) && t.aborted
    ensures AtMaximum(t)
    decreases |moves|
  {
    hide Workers, Connections, Barriers, Votes, Counts, Step, CanStep, AtMaximum;
    if |moves| > 0 {
      var (e, i) := moves[0];
      var s' := Step(cfg, s, e, i);
      StepKeeps(cfg, s, e, i);
      if s'.aborted {
        AbortStops(cfg, s', moves[1..], t);
        AbortCause(cfg, s, e, i);
        AbortKeepsHistory(cfg, s, e, i);
      } else {
        RunAbortCause(cfg, s', moves[1..], t);
      }
    }
  }

  lemma AbortKeepsHistory(cfg: Config, s: State, e: nat, i: nat)
    requires Shape(cfg, s) && Id(cfg, e, i) && CanStep(cfg, s, e, i) && Step(cfg, s, e, i).aborted && AtMaximum(s)
    ensures AtMaximum(Step(cfg, s, e, i))
  {
    assert Step(cfg, s, e, i).hist == s.hist by {
      hide MayLeave, AfterWait, AfterSend, AfterReceive, AfterLocal, Outgoing, SharedAfterLocal, AtMaximum,
        Faulty, WaitAborts, ReceiveAborts;
    }
  }

  /** The only way to leave a run: a reachable aborted state holds a count at the maximum. */
  lemma AbortOnlyAtMaximum(cfg: Config, t: State)
    requires ValidConfig(cfg) && Reachable(cfg, t) && t.aborted
    ensures AtMaximum(t)
  {
    var s, moves :| Initial(cfg, s) && RunTo(cfg, s, moves, t);
    InitialInv(cfg, s);
    RunAbortCause(cfg, s, moves, t);
  }

  // --- completion

  lemma FinishedHistory(cfg: Config, t: State, d: nat)
    requires Inv(cfg, t) && Finished(cfg, t) && d < 2
    ensures Below(t.hist, d, |t.hist[d]|)
  {
    hide Connections, Barriers, Votes, HistoryOk, Regrown, Restart, ReportOk, StreamOk, WaitsOk, RoundOk, LastRound;
    var e, i := SenderEnd(d), if cfg.asynchronous && d == 1 then cfg.workers / 2 else 0;
    var w := t.ws[e][i];
    assert WorkerOk(cfg, t.hist, e, i, w);
    assert GenerationOk(cfg, d, |t.hist[d]|, t.ws[e], i);
    hide Workers, Counts;
  }

  /** A run that has finished every worker never reached the maximum: a receiver would have refused the count. */
  lemma FinishedBelowMaximum(cfg: Config, t: State)
    requires Inv(cfg, t) && Finished(cfg, t)
    ensures !AtMaximum(t)
  {
    assert |t.hist| == 2;
    hide Inv, Finished;
    FinishedHistory(cfg, t, 0);
    FinishedHistory(cfg, t, 1);
  }

  /** Exactly when a run completes: once no worker can step, all have finished if and only if no count of either
      direction has reached the maximum. */
  lemma CompletesExactlyBelowMaximum(cfg: Config, t: State)
    requires ValidConfig(cfg) && Reachable(cfg, t)
    requires Shape(cfg, t) && forall e, i :: 0 <= e < 2 && 0 <= i < cfg.workers ==> !CanStep(cfg, t, e, i)
    ensures Finished(cfg, t) <==> !AtMaximum(t)
  {
    hide Reachable, Inv, CanStep, Finished, AtMaximum;
    ReachableInv(cfg, t);
    RunsComplete(cfg, t);
    if t.aborted { AbortOnlyAtMaximum(cfg, t); }
    if Finished(cfg, t) { FinishedBelowMaximum(cfg, t); }
  }

  // --- lockstep

  /** The message a worker decodes is the one its peer encoded for the same event, with the length the
      worker expects from its own stage and the operation it waits for. */
  lemma LockStep(cfg: Config, t: State, e: nat, i: nat)
    requires ValidConfig(cfg) && Reachable(cfg, t) && Shape(cfg, t) && Id(cfg, e, i)
    requires Next(cfg, e, i, t.ws[e][i]) == Receive && |t.q[Peer(e)][i]| > 0
    ensures var w, m := t.ws[e][i], t.q[Peer(e)][i][0];
            && m == MsgOf(cfg, t.hist, i, w.pos)
            && m.len == Length(cfg, w.stage)
            && !Faulty(cfg, w, m)
  {
    ReachableInv(cfg, t);
    hide WorkerOk, Counts, Barriers, Votes, Connections, MsgOf, Next;
    WaitsShape(cfg, t, e, i);
    HeadExpected(cfg, t, e, i);
    NotFaulty(cfg, t.hist, e, i, t.ws[e][i]);
  }

  // --- agreement

  /** Every worker that reads the counters reads the number of weak connections of its round, and decides
      as every other worker of either end does in that round. */
  lemma RestartAgreement(cfg: Config, t: State, e: nat, i: nat, e': nat, j: nat)
    requires ValidConfig(cfg) && Reachable(cfg, t) && Shape(cfg, t) && Id(cfg, e, i) && Id(cfg, e', j)
    requires var p, q := t.ws[e][i].pos, t.ws[e'][j].pos;
             && READ_WEAK <= p.at <= GROW_SYNC_2 && READ_WEAK <= q.at <= GROW_SYNC_2 && p.leg == q.leg && p.round == q.round
    ensures var p := t.ws[e][i].pos;
            var d, d' := Dir(cfg, i, p.leg), Dir(cfg, j, p.leg);
            && t.sh[e].imWeak[d] == WeakTotal(cfg, d, p.leg, p.round, cfg.workers)
            && NeedsRestart(cfg, t.sh[e], d) == NeedsRestart(cfg, t.sh[e'], d') == Restart(cfg, p.leg, p.round)
            && (NeedsRestart(cfg, t.sh[e], d) <==>
                if cfg.asynchronous then AllShort(cfg, 0, p.leg, p.round) || AllShort(cfg, 1, p.leg, p.round)
                else AllShort(cfg, d, p.leg, p.round))
            && (NeedsRestart(cfg, t.sh[e], d) ==> t.sh[e].weak > 0 && t.sh[e'].weak > 0)
  {
    RestartExactly(cfg, t.ws[e][i].pos.leg, t.ws[e][i].pos.round);
    hide AllShort;
    ReachableInv(cfg, t);
    hide Workers, Connections, Barriers, Votes, Counts;
    CountersComplete(cfg, t, e, i);
    DecisionIsReference(cfg, t, e, i);
    DecisionIsReference(cfg, t, e', j);
    hide Restart, WeakTotal, NeedsRestart;
  }

  /** A worker past the stream of a leg fixes the number of rounds of that leg for all workers of both ends. */
  lemma RoundAgreement(cfg: Config, t: State, e: nat, i: nat, e': nat, j: nat)
    requires ValidConfig(cfg) && Reachable(cfg, t) && Shape(cfg, t) && Id(cfg, e, i) && Id(cfg, e', j)
    requires t.ws[e][i].pos.at >= REPORT && t.ws[e'][j].pos.leg == t.ws[e][i].pos.leg
    ensures t.ws[e'][j].pos.round <= t.ws[e][i].pos.round
    ensures t.ws[e'][j].pos.at >= REPORT ==> t.ws[e'][j].pos.round == t.ws[e][i].pos.round
  {
    ReachableInv(cfg, t);
    assert WorkerOk(cfg, t.hist, e, i, t.ws[e][i]) && WorkerOk(cfg, t.hist, e', j, t.ws[e'][j]);
    hide Workers, Connections, Barriers, Votes, Counts, WaitsOk, DataOk, PastOk, PlaceOk, Restart;
  }

  /** All senders and receivers of a direction stream the same count in a round, at least the default; it lies below the
      maximum from the receiver's START message on, and as soon as a sender has had that message. */
  lemma CountAgreement(cfg: Config, t: State, e: nat, i: nat, e': nat, j: nat)
    requires ValidConfig(cfg) && Reachable(cfg, t) && Shape(cfg, t) && Id(cfg, e, i) && Id(cfg, e', j)
    requires var p, q := t.ws[e][i].pos, t.ws[e'][j].pos;
             && START <= p.at <= END_SYNC && START <= q.at <= END_SYNC && p.leg == q.leg && p.round == q.round
             && Dir(cfg, i, p.leg) == Dir(cfg, j, q.leg)
    ensures 100 <= t.ws[e][i].count == t.ws[e'][j].count <= 1000000000
    ensures Accepted(IsSender(e, Dir(cfg, i, t.ws[e][i].pos.leg)), t.ws[e][i].pos.at) ==> t.ws[e'][j].count < 1000000000
  {
    ReachableInv(cfg, t);
    assert WorkerOk(cfg, t.hist, e, i, t.ws[e][i]) && WorkerOk(cfg, t.hist, e', j, t.ws[e'][j]);
    hide Workers, Connections, Barriers, Votes, WaitsOk, PastOk, PlaceOk, RoundOk, GenerationOk, Regrown, StageAt,
      StreamOk, ReportOk;
  }

  /** One growth per restart: from one round to the next the count of a direction is multiplied once when all of its
      streams were shorter than the minimum time, to what the duration of one of them asks for, and stays as it is
      otherwise; it never shrinks. */
  lemma OneGrowthPerRestart(cfg: Config, t: State, d: nat, k: nat)
    requires ValidConfig(cfg) && Reachable(cfg, t) && Shape(cfg, t) && d < 2 && k + 1 < |t.hist[d]|
    ensures t.hist[d][0] == 100
    ensures if AllShort(cfg, d, LegOf(cfg, d), k)
            then t.hist[d][k + 1] > t.hist[d][k] && 5 * t.hist[d][k + 1] + 4 >= 6 * t.hist[d][k]
                 && exists i :: 0 <= i < cfg.workers && Dir(cfg, i, LegOf(cfg, d)) == d
                         && IsGrown(t.hist[d][k], cfg.multiplier, cfg.minimumTime * 1000000, cfg.duration(d, k, i), cfg.asynchronous,
                                    t.hist[d][k + 1])
            else t.hist[d][k + 1] == t.hist[d][k]
  {
    ReachableInv(cfg, t);
    hide Workers, Connections, Barriers, Votes, GenerationOk;
    assert Regrown(cfg, d, k, t.hist[d][k], t.hist[d][k + 1]);
    AllWeakExactly(cfg, d, k);
    hide AllShort, AllWeak;
    if AllShort(cfg, d, LegOf(cfg, d), k) {
      var i, u :| IsWeakTime(cfg, LegOf(cfg, d), k, d, i, u)
                  && t.hist[d][k + 1] == Multiplied(t.hist[d][k], cfg.multiplier, cfg.minimumTime * SECOND, u, cfg.asynchronous);
      GrowsBySixFifths(t.hist[d][k], cfg.multiplier, cfg.minimumTime * SECOND, u, cfg.asynchronous);
      GrownExactly(t.hist[d][k], cfg.multiplier, cfg.minimumTime * SECOND, u, cfg.asynchronous, t.hist[d][k + 1]);
      hide Multiplied, IsGrown;
    }
  }

  /** Every restart raises the counts: that of the direction in synchronous mode, the sum of both in asynchronous mode,
      where neither falls. What is left of both up to the maximum shrinks until the run finishes or leaves. */
  lemma RestartRaisesCounts(cfg: Config, t: State, leg: nat, k: nat)
    requires ValidConfig(cfg) && Reachable(cfg, t) && Shape(cfg, t) && leg < Legs(cfg) && Restart(cfg, leg, k)
    requires forall d :: 0 <= d < 2 && (cfg.asynchronous || d == Dir(cfg, 0, leg)) ==> k + 1 < |t.hist[d]|
    ensures if cfg.asynchronous
            then t.hist[0][k + 1] >= t.hist[0][k] && t.hist[1][k + 1] >= t.hist[1][k]
                 && t.hist[0][k + 1] + t.hist[1][k + 1] > t.hist[0][k] + t.hist[1][k]
            else var d := Dir(cfg, 0, leg); t.hist[d][k + 1] > t.hist[d][k]
  {
    RestartGrows(cfg, leg, k);
    AllWeakExactly(cfg, 0, k);
    AllWeakExactly(cfg, 1, k);
    hide Reachable, AllWeak, AllShort, Regrown, Restart, IsGrown;
    if cfg.asynchronous {
      OneGrowthPerRestart(cfg, t, 0, k);
      OneGrowthPerRestart(cfg, t, 1, k);
    } else {
      OneGrowthPerRestart(cfg, t, Dir(cfg, 0, leg), k);
    }
  }

  lemma SenderIsAtSenderEnd(cfg: Config, e: nat, i: nat, p: Position)
    ensures e < 2 && IsSender(e, Dir(cfg, i, p.leg)) ==> e == SenderEnd(Dir(cfg, i, p.leg))
  {}

  /** No worker gets beyond round 178, and a synchronous sender whose count has passed the maximum assert is in its
      88th restart at most. */
  lemma RestartsBounded(cfg: Config, t: State, e: nat, i: nat)
    requires ValidConfig(cfg) && Reachable(cfg, t) && Shape(cfg, t) && Id(cfg, e, i)
    ensures var p := t.ws[e][i].pos;
            && p.round <= 178
            && (!cfg.asynchronous && IsSender(e, Dir(cfg, i, p.leg)) && NEGOTIATE <= p.at <= GROW_SYNC ==> p.round <= 88)
  {
    ReachableInv(cfg, t);
    hide Reachable, Inv, ActAt;
    RoundsBounded(cfg, t, e, i);
    var p := t.ws[e][i].pos;
    SenderIsAtSenderEnd(cfg, e, i, p);
    if !cfg.asynchronous && IsSender(e, Dir(cfg, i, p.leg)) && NEGOTIATE <= p.at <= GROW_SYNC {
      AtMost88Restarts(cfg, t, i, Dir(cfg, i, p.leg));
    }
  }
}
