/** Every run of the protocol is finite: restarts make a count grow, and counts are bounded. */
module TalkTermination {
  import opened Growth
  import opened TalkModel
  import opened TalkEvents
  import opened TalkWorker
  import opened TalkBarrier
  import opened TalkVotes
  import opened TalkCounts
  import opened TalkInvariant

  function Pow(b: nat, k: nat): nat { if k == 0 then 1 else b * Pow(b, k - 1) }

  lemma {:induction false} PowAdd(b: nat, j: nat, k: nat)
    ensures Pow(b, j + k) == Pow(b, j) * Pow(b, k)
  {
    if j > 0 {
      PowAdd(b, j - 1, k);
      assert Pow(b, j + k) == b * Pow(b, j - 1 + k) && Pow(b, j) == b * Pow(b, j - 1);
      hide Pow;
      Regroup(b, Pow(b, j - 1), Pow(b, k));
    }
  }

  lemma Regroup(x: nat, y: nat, z: nat)
    ensures x * (y * z) == (x * y) * z
  {}

  /** Rounds below k in which every connection of direction d was weak. */
  function Growths(cfg: Config, d: nat, k: nat): nat {
    if k == 0 then 0 else Growths(cfg, d, k - 1) + if AllWeak(cfg, d, k - 1) then 1 else 0
  }

  /** After g growths the count is at least 4 + 96 * (6/5)^g. */
  lemma {:induction false} GrowthBound(cfg: Config, d: nat, hist: seq<nat>, k: nat)
    requires ValidConfig(cfg) && HistoryOk(cfg, d, hist) && k < |hist|
    ensures hist[k] >= 4 && (hist[k] - 4) * Pow(5, Growths(cfg, d, k)) >= 96 * Pow(6, Growths(cfg, d, k))
  {
    if k > 0 {
      GrowthBound(cfg, d, hist, k - 1);
      assert Regrown(cfg, d, k - 1, hist[k - 1], hist[k]);
      if AllWeak(cfg, d, k - 1) {
        var t: nat :| hist[k] == Multiplied(hist[k - 1], cfg.multiplier, cfg.minimumTime * SECOND, t, cfg.asynchronous);
        GrowsBySixFifths(hist[k - 1], cfg.multiplier, cfg.minimumTime * SECOND, t, cfg.asynchronous);
        var g := Growths(cfg, d, k - 1);
        OneGrowth(hist[k - 1] - 4, hist[k] - 4, Pow(5, g), Pow(6, g));
      }
    }
  }

  lemma OneGrowth(a: nat, b: nat, five: nat, six: nat)
    requires 5 * b >= 6 * a && a * five >= 96 * six
    ensures b * (5 * five) >= 96 * (6 * six)
  {
    ProductMonotone(6 * a, 5 * b, five);
    assert b * (5 * five) == (5 * b) * five;
    assert (6 * a) * five == 6 * (a * five);
  }

  lemma Doubled(b: nat, k: nat, v: nat)
    requires Pow(b, k) == v
    ensures Pow(b, 2 * k) == v * v
  {
    PowAdd(b, k, k);
  }

  lemma PowersOf89()
    ensures Pow(5, 89) == 161558713389263217748322010169914619837072677910327911376953125
    ensures Pow(6, 89) == 1800782593726645086383198950649858141454002621435149880441896326660096
  {
    PowersOf11(5);
    PowersOf11(6);
    assert Pow(5, 89) == 5 * Pow(5, 88) && Pow(6, 89) == 6 * Pow(6, 88);
    hide Pow;
    Doubled(5, 11, 48828125); Doubled(5, 22, 2384185791015625);
    Doubled(5, 44, 5684341886080801486968994140625);
    Doubled(6, 11, 362797056); Doubled(6, 22, 131621703842267136);
    Doubled(6, 44, 17324272922341479351919144385642496);
  }

  lemma PowersOf11(b: nat)
    requires b == 5 || b == 6
    ensures Pow(b, 11) == if b == 5 then 48828125 else 362797056
  {
    assert Pow(b, 1) == b * Pow(b, 0);
    hide Pow;
    PowAdd(b, 1, 1); PowAdd(b, 2, 2); PowAdd(b, 4, 4); PowAdd(b, 8, 2); PowAdd(b, 10, 1);
  }

  /** A count within the maximum has grown at most 88 times. */
  lemma {:induction false} AtMost88(a: nat, g: nat)
    requires a + 4 <= COUNT_MAX && a * Pow(5, g) >= 96 * Pow(6, g)
    ensures g <= 88
  {
    if g == 89 {
      PowersOf89();
    } else if g > 89 {
      var five, six := Pow(5, g - 1), Pow(6, g - 1);
      assert a * (5 * five) == 5 * (a * five);
      AtMost88(a, g - 1);
    }
  }

  // --- rounds

  /** Whatever makes a round restart makes the count of some direction grow. */
  lemma RestartGrows(cfg: Config, leg: nat, round: nat)
    requires ValidConfig(cfg) && leg < Legs(cfg) && Restart(cfg, leg, round)
    ensures if cfg.asynchronous then AllWeak(cfg, 0, round) || AllWeak(cfg, 1, round) else AllWeak(cfg, Dir(cfg, 0, leg), round)
  {}

  lemma {:induction false} RestartsGrow(cfg: Config, leg: nat, k: nat)
    requires ValidConfig(cfg) && leg < Legs(cfg) && forall r :: 0 <= r < k ==> Restart(cfg, leg, r)
    ensures if cfg.asynchronous then Growths(cfg, 0, k) + Growths(cfg, 1, k) >= k else Growths(cfg, Dir(cfg, 0, leg), k) == k
  {
    if k > 0 {
      RestartsGrow(cfg, leg, k - 1);
      RestartGrows(cfg, leg, k - 1);
      hide AllWeak, Restart, Dir;
    }
  }

  lemma GrowthsBounded(cfg: Config, d: nat, hist: seq<nat>, k: nat)
    requires ValidConfig(cfg) && HistoryOk(cfg, d, hist) && k < |hist| && hist[k] <= COUNT_MAX
    ensures Growths(cfg, d, k) <= 88
  {
    GrowthBound(cfg, d, hist, k);
    AtMost88(hist[k] - 4, Growths(cfg, d, k));
  }

  /** Both directions have a count for every round before a worker's own. */
  lemma HistoriesLong(cfg: Config, s: State, e: nat, i: nat, d: nat)
    requires Inv(cfg, s) && Id(cfg, e, i) && d < 2
    requires cfg.asynchronous || d == Dir(cfg, i, s.ws[e][i].pos.leg)
    ensures s.ws[e][i].pos.round <= |s.hist[d]|
  {
    hide Connections, Barriers, Votes, Counts, WaitsOk, PastOk, RoundOk, StageAt, Restart, StreamOk, ReportOk;
    var w := s.ws[e][i];
    OwnHistory(cfg, s, e, i);
    if d != Dir(cfg, i, w.pos.leg) && w.pos.round > 0 {
      var j := if d == 0 then 0 else cfg.workers / 2;
      OwnHistory(cfg, s, e, j);
      MainAligned(cfg, s, e, i, j);
      assert s.ws[e][j].pos.leg == w.pos.leg;
      hide Workers;
    }
  }

  lemma OwnHistory(cfg: Config, s: State, e: nat, i: nat)
    requires Inv(cfg, s) && Id(cfg, e, i)
    ensures var w := s.ws[e][i];
            && w.pos.leg < Legs(cfg)
            && |s.hist[Dir(cfg, i, w.pos.leg)]| >= w.pos.round + if KnowsCount(IsSender(e, Dir(cfg, i, w.pos.leg)), w.pos.at) then 1 else 0
  {
    assert WorkerOk(cfg, s.hist, e, i, s.ws[e][i]);
    hide Workers, Connections, Barriers, Votes, Counts, WaitsOk, PastOk, RoundOk, StageAt, StreamOk, ReportOk, KnowsCount;
  }

  /** No worker ever gets beyond round 178. */
  lemma RoundsBounded(cfg: Config, s: State, e: nat, i: nat)
    requires Inv(cfg, s) && Id(cfg, e, i)
    ensures s.ws[e][i].pos.round <= 178
  {
    var p := s.ws[e][i].pos;
    assert WorkerOk(cfg, s.hist, e, i, s.ws[e][i]);
    if p.round >= 2 {
      var k := p.round - 2;
      RestartsGrow(cfg, p.leg, k);
      hide Workers, Connections, Barriers, Votes, WorkerOk, Regrown, Growths, Restart;
      forall d | 0 <= d < 2 && (cfg.asynchronous || d == Dir(cfg, i, p.leg))
        ensures Growths(cfg, d, k) <= 88
      {
        HistoriesLong(cfg, s, e, i, d);
        GrowthsBounded(cfg, d, s.hist[d], k);
      }
      assert Dir(cfg, 0, p.leg) == Dir(cfg, i, p.leg) || cfg.asynchronous;
    }
  }

  /** In synchronous mode at most 88 restarts of a direction pass the maximum-count assert. */
  lemma AtMost88Restarts(cfg: Config, s: State, i: nat, d: nat)
    requires Inv(cfg, s) && i < cfg.workers && d < 2 && !cfg.asynchronous
    requires var w := s.ws[SenderEnd(d)][i]; Dir(cfg, i, w.pos.leg) == d && NEGOTIATE <= w.pos.at <= GROW_SYNC
    ensures s.ws[SenderEnd(d)][i].pos.round <= 88
  {
    var p := s.ws[SenderEnd(d)][i].pos;
    assert WorkerOk(cfg, s.hist, SenderEnd(d), i, s.ws[SenderEnd(d)][i]);
    assert GenerationOk(cfg, d, |s.hist[d]|, s.ws[SenderEnd(d)], i);
    RestartsGrow(cfg, p.leg, p.round);
    hide Workers, Connections, Barriers, Votes, WorkerOk, Regrown, Growths, Restart;
    GrowthsBounded(cfg, d, s.hist[d], p.round);
    assert Dir(cfg, 0, p.leg) == d;
  }

  // --- the rank

  function Width(cfg: Config): nat { 2 * cfg.iterations + COUNT_MAX + 1 }

  function Encode(width: nat, p: Position): nat { ((p.leg * 179 + p.round) * 26 + p.at) * width + p.idx }

  predicate Bounded(width: nat, p: Position) { p.leg < 2 && p.round < 179 && p.idx < width }

  lemma ScaleLess(x: nat, y: nat, width: nat, i: nat, j: nat)
    requires x < y && i < width
    ensures x * width + i < y * width + j
  {
    ProductMonotone(x + 1, y, width);
    assert (x + 1) * width == x * width + width;
  }

  lemma EncodeMonotone(width: nat, p: Position, q: Position)
    requires Before(p, q) && Bounded(width, p) && Bounded(width, q)
    ensures Encode(width, p) < Encode(width, q)
  {
    var x, y := (p.leg * 179 + p.round) * 26 + p.at, (q.leg * 179 + q.round) * 26 + q.at;
    assert x <= y;
    if x < y { ScaleLess(x, y, width, p.idx, q.idx); }
  }

  lemma EncodeBound(width: nat, p: Position)
    requires Bounded(width, p)
    ensures Encode(width, p) < 2 * 179 * 26 * width
  {
    ScaleLess((p.leg * 179 + p.round) * 26 + p.at, 2 * 179 * 26, width, p.idx, 0);
  }

  function TotalRank(width: nat, ws: seq<Worker>, n: nat): nat
    requires n <= |ws|
  {
    if n == 0 then 0 else TotalRank(width, ws, n - 1) + Encode(width, ws[n - 1].pos)
  }

  function Rank(cfg: Config, s: State): nat
    requires Shape(cfg, s)
  {
    TotalRank(Width(cfg), s.ws[0], cfg.workers) + TotalRank(Width(cfg), s.ws[1], cfg.workers)
  }

  lemma {:induction false} RankMoves(width: nat, ws: seq<Worker>, i: nat, w': Worker, n: nat)
    requires n <= |ws| && i < |ws| && Encode(width, ws[i].pos) < Encode(width, w'.pos)
    ensures if i < n then TotalRank(width, ws[i := w'], n) > TotalRank(width, ws, n)
            else TotalRank(width, ws[i := w'], n) == TotalRank(width, ws, n)
  {
    hide Encode;
    if n > 0 { RankMoves(width, ws, i, w', n - 1); }
  }

  lemma {:induction false} RankBound(width: nat, ws: seq<Worker>, n: nat)
    requires n <= |ws| && forall k :: 0 <= k < n ==> Bounded(width, ws[k].pos)
    ensures TotalRank(width, ws, n) <= n * (2 * 179 * 26 * width)
  {
    if n > 0 {
      RankBound(width, ws, n - 1);
      EncodeBound(width, ws[n - 1].pos);
      hide Encode;
      assert n * (2 * 179 * 26 * width) == (n - 1) * (2 * 179 * 26 * width) + 2 * 179 * 26 * width;
    }
  }

  lemma PositionBounded(cfg: Config, s: State, e: nat, i: nat)
    requires Inv(cfg, s) && Id(cfg, e, i)
    ensures Bounded(Width(cfg), s.ws[e][i].pos)
  {
    RoundsBounded(cfg, s, e, i);
    assert WorkerOk(cfg, s.hist, e, i, s.ws[e][i]);
    hide Workers, Connections, Barriers, Votes, Counts, WaitsOk, PastOk, RoundOk, StageAt, Restart;
  }

  lemma RankBounded(cfg: Config, s: State)
    requires Inv(cfg, s)
    ensures Rank(cfg, s) <= 2 * (cfg.workers * (2 * 179 * 26 * Width(cfg)))
  {
    hide Workers, Connections, Barriers, Votes, Counts, Width, Bounded;
    forall e, k | 0 <= e < 2 && 0 <= k < cfg.workers ensures Bounded(Width(cfg), s.ws[e][k].pos) {
      PositionBounded(cfg, s, e, k);
    }
    RankBound(Width(cfg), s.ws[0], cfg.workers);
    RankBound(Width(cfg), s.ws[1], cfg.workers);
  }

  lemma AdvanceForward(cfg: Config, sender: bool, p: Position, count: nat, flag: bool)
    requires p.at != DONE
    ensures Before(p, Advance(cfg, sender, p, count, flag))
  {}

  predicate Forward(cfg: Config, s: State, s': State, e: nat, i: nat)
    requires Shape(cfg, s) && Id(cfg, e, i)
  {
    && |s'.ws| == 2 && |s'.ws[e]| == cfg.workers
    && Before(s.ws[e][i].pos, s'.ws[e][i].pos)
    && s'.ws == s.ws[e := s.ws[e][i := s'.ws[e][i]]]
  }

  lemma WaitForward(cfg: Config, s: State, e: nat, i: nat, b: nat)
    requires Shape(cfg, s) && Id(cfg, e, i) && b < 3 && s.ws[e][i].pos.at != DONE
    ensures StepWait(cfg, s, e, i, b).aborted || Forward(cfg, s, StepWait(cfg, s, e, i, b), e, i)
  {
    hide Advance, Before, StageOn, ReportAfterWait, IsSerial;
    var w := s.ws[e][i];
    AdvanceForward(cfg, IsSender(e, Dir(cfg, i, w.pos.leg)), w.pos, w.count,
                   if w.pos.at == RUN_SYNC then w.count == 0 else IsSerial(cfg, s, e, i, b));
  }

  lemma SendForward(cfg: Config, s: State, e: nat, i: nat)
    requires Shape(cfg, s) && Id(cfg, e, i) && s.ws[e][i].pos.at != DONE
    ensures Forward(cfg, s, StepSend(cfg, s, e, i), e, i)
  {
    hide Advance, Before, StageOn, Outgoing;
    var w := s.ws[e][i];
    AdvanceForward(cfg, IsSender(e, Dir(cfg, i, w.pos.leg)), w.pos, w.count, false);
  }

  lemma ReceiveForward(cfg: Config, s: State, e: nat, i: nat)
    requires Shape(cfg, s) && Id(cfg, e, i) && s.ws[e][i].pos.at != DONE && |s.q[Peer(e)][i]| > 0
    ensures var s' := StepReceive(cfg, s, e, i); s'.aborted || s'.fault || Forward(cfg, s, s', e, i)
  {
    hide Advance, Before, StageOn, Faulty, ReceiveAborts;
    var w := s.ws[e][i];
    AdvanceForward(cfg, IsSender(e, Dir(cfg, i, w.pos.leg)), w.pos, w.count, false);
  }

  lemma LocalForward(cfg: Config, s: State, e: nat, i: nat)
    requires Shape(cfg, s) && Id(cfg, e, i) && s.ws[e][i].pos.at != DONE
    ensures Forward(cfg, s, StepLocal(cfg, s, e, i), e, i)
  {
    hide Advance, Before, StageOn, SharedAfterLocal, NeedsRestart;
    var w, sh := s.ws[e][i], s.sh[e];
    var d := Dir(cfg, i, w.pos.leg);
    AdvanceForward(cfg, IsSender(e, d), w.pos, w.count, if w.pos.at == READ_WEAK then sh.weak > 0 else NeedsRestart(cfg, sh, d));
  }

  /** A step moves its worker strictly forward, unless it aborts. */
  lemma StepForward(cfg: Config, s: State, e: nat, i: nat)
    requires Inv(cfg, s) && Id(cfg, e, i) && CanStep(cfg, s, e, i) && !Step(cfg, s, e, i).aborted
    ensures Inv(cfg, Step(cfg, s, e, i)) && Forward(cfg, s, Step(cfg, s, e, i), e, i)
  {
    hide Workers, Connections, Barriers, Votes, Counts, MayLeave, Forward, StepWait, StepSend, StepReceive, StepLocal;
    StepKeeps(cfg, s, e, i);
    match Next(cfg, e, i, s.ws[e][i]) {
      case Wait(b) => WaitForward(cfg, s, e, i, b);
      case Send => SendForward(cfg, s, e, i);
      case Receive => ReceiveForward(cfg, s, e, i);
      case Local => LocalForward(cfg, s, e, i);
      case Stop =>
    }
  }

  lemma RankGrows(cfg: Config, s: State, e: nat, i: nat)
    requires Inv(cfg, s) && Id(cfg, e, i) && CanStep(cfg, s, e, i) && !Step(cfg, s, e, i).aborted
    ensures Inv(cfg, Step(cfg, s, e, i)) && Rank(cfg, Step(cfg, s, e, i)) > Rank(cfg, s)
  {
    hide Workers, Connections, Barriers, Votes, Counts, Step, Before, MayLeave, Width, Bounded, CanStep;
    StepForward(cfg, s, e, i);
    var s' := Step(cfg, s, e, i);
    PositionBounded(cfg, s, e, i);
    PositionBounded(cfg, s', e, i);
    EncodeMonotone(Width(cfg), s.ws[e][i].pos, s'.ws[e][i].pos);
    RankMoves(Width(cfg), s.ws[e], i, s'.ws[e][i], cfg.workers);
  }
}
