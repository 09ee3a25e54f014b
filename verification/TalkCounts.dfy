/**
  The count of a direction: written once by one serial sender, grown at most once per restart, and the
  same for every worker of the direction in a round.
 */
module TalkCounts {
  import opened Growth
  import opened TalkModel
  import opened TalkEvents
  import opened TalkWorker
  import opened TalkBarrier
  import opened TalkVotes

  function SenderEnd(d: nat): nat { if d == 0 then CONNECTOR else LISTENER }

  /** The number of counts of direction d that a worker of its sending end has seen written. */
  function Generations(cfg: Config, d: nat, i: nat, w: Worker): nat {
    if Dir(cfg, i, w.pos.leg) == d then (if w.pos.at <= COUNT_SYNC then 0 else w.pos.round + 1)
    else if w.pos.leg == 0 then 0
    else w.prev + 1
  }

  predicate AfterWrite(w: Worker) { w.pos.at == COUNT_SYNC || w.pos.at == GROW_SYNC_2 }

  predicate Writing(w: Worker) { w.pos.at == SET_COUNT || w.pos.at == GROW }

  /** The worker stands between the two barriers around a write, or at the first of them. */
  predicate Pending(w: Worker) { COUNT_SET <= w.pos.at <= COUNT_SYNC || GROW_SYNC <= w.pos.at <= GROW_SYNC_2 }

  /** The worker that writes the count after generation g: the serial one of the barrier before the write. */
  function Writer(cfg: Config, d: nat, g: nat): nat { cfg.serial(SenderEnd(d), d, WriteIndex(cfg, g)) }

  /** The number of waits on the direction's barrier before that one. */
  function WriteIndex(cfg: Config, g: nat): nat { if cfg.asynchronous then 3 * g else 7 * g + 1 }

  /** The worker is past the write after generation g. */
  predicate Wrote(cfg: Config, d: nat, i: nat, w: Worker, g: nat) {
    Generations(cfg, d, i, w) > g || (Generations(cfg, d, i, w) == g && AfterWrite(w))
  }

  /** The leg in which a direction is tested. */
  function LegOf(cfg: Config, d: nat): nat { if cfg.asynchronous || (d == 1) == cfg.reverseFirst then 0 else 1 }

  function GroupSize(cfg: Config): nat { cfg.workers / (1 + if cfg.asynchronous then 1 else 0) }

  predicate AllWeak(cfg: Config, d: nat, round: nat) {
    WeakTotal(cfg, d, LegOf(cfg, d), round, cfg.workers) == GroupSize(cfg)
  }

  /** A direction is entirely weak when all its streams were shorter than the minimum time. */
  lemma AllWeakExactly(cfg: Config, d: nat, round: nat)
    requires ValidConfig(cfg) && d < 2
    ensures AllWeak(cfg, d, round) <==> AllShort(cfg, d, LegOf(cfg, d), round)
  {
    WeakTotalExactly(cfg, d, LegOf(cfg, d), round, cfg.workers);
  }

  /** One restart: the count is multiplied exactly once, by the weak time of one of the connections, when the whole
      direction was weak, and kept otherwise. */
  ghost predicate Regrown(cfg: Config, d: nat, round: nat, old': nat, new': nat) {
    if AllWeak(cfg, d, round)
    then exists j, t :: IsWeakTime(cfg, LegOf(cfg, d), round, d, j, t)
                     && new' == Multiplied(old', cfg.multiplier, cfg.minimumTime * SECOND, t, cfg.asynchronous)
    else new' == old'
  }

  ghost predicate HistoryOk(cfg: Config, d: nat, hist: seq<nat>) {
    && (|hist| > 0 ==> hist[0] == COUNT_DEFAULT)
    && (forall k :: 0 <= k < |hist| ==> hist[k] >= COUNT_DEFAULT)
    && (forall k :: 0 <= k < |hist| - 1 ==> hist[k] <= COUNT_MAX && Regrown(cfg, d, k, hist[k], hist[k + 1]))
  }

  /** The counts written are those that the worker has seen, and one more once the write that it waits for is done. */
  predicate GenerationOk(cfg: Config, d: nat, n: nat, ws: seq<Worker>, i: nat)
    requires i < |ws|
  {
    var g := Generations(cfg, d, i, ws[i]);
    var j := Writer(cfg, d, g);
    && j < |ws|
    && (Writing(ws[i]) ==> i == j)
    && n == g + if Pending(ws[i]) && Wrote(cfg, d, j, ws[j], g) then 1 else 0
  }

  ghost predicate Counts(cfg: Config, s: State, d: nat)
    requires Shape(cfg, s) && d < 2
  {
    var e, hist := SenderEnd(d), s.hist[d];
    && HistoryOk(cfg, d, hist)
    && (|hist| > 0 ==> s.sh[e].count[d] == hist[|hist| - 1])
    && (forall i :: 0 <= i < cfg.workers && Participant(cfg, d, i) ==>
          && GenerationOk(cfg, d, |hist|, s.ws[e], i)
          && (|hist| > 0 && Generations(cfg, d, i, s.ws[e][i]) == |hist| ==> hist[|hist| - 1] <= COUNT_MAX))
  }

  // --- alignment on the direction's own barrier

  /** While some worker writes, everybody stands between the same two barriers. */
  lemma WriteAligned(cfg: Config, s: State, d: nat, i: nat, j: nat)
    requires ValidConfig(cfg) && Shape(cfg, s) && d < 2 && i < cfg.workers && j < cfg.workers
    requires Workers(cfg, s) && Barriers(cfg, s) && Counts(cfg, s, d)
    requires Participant(cfg, d, i) && Participant(cfg, d, j)
    requires var w := s.ws[SenderEnd(d)][i]; Dir(cfg, i, w.pos.leg) == d && Writing(w)
    ensures var e := SenderEnd(d);
            && |s.hist[d]| == Generations(cfg, d, i, s.ws[e][i])
            && Generations(cfg, d, j, s.ws[e][j]) == Generations(cfg, d, i, s.ws[e][i]) && Pending(s.ws[e][j])
  {
    var e := SenderEnd(d);
    assert WorkerOk(cfg, s.hist, e, i, s.ws[e][i]) && WorkerOk(cfg, s.hist, e, j, s.ws[e][j]);
    assert Aligned(cfg, e, d, s.ws[e], i, j);
    hide Workers, Barriers, Counts, WorkerOk, Generations, Pending, Entered, Dir;
    GenerationsBelow(cfg, s, d, i);
    GenerationsBelow(cfg, s, d, j);
    BetweenBarriers(cfg, s.hist, d, i, j, s.ws[e][i], s.ws[e][j]);
  }

  lemma BetweenBarriers(cfg: Config, hist: seq<seq<nat>>, d: nat, i: nat, j: nat, v: Worker, w: Worker)
    requires ValidConfig(cfg) && d < 2 && i < cfg.workers && j < cfg.workers && Participant(cfg, d, i) && Participant(cfg, d, j)
    requires WorkerOk(cfg, hist, SenderEnd(d), i, v) && WorkerOk(cfg, hist, SenderEnd(d), j, w)
    requires Dir(cfg, i, v.pos.leg) == d && Writing(v) && v.waits[d] <= Entered(cfg, SenderEnd(d), j, w, d)
    requires Generations(cfg, d, j, w) <= Generations(cfg, d, i, v)
    ensures Generations(cfg, d, j, w) == Generations(cfg, d, i, v) && Pending(w)
  {
    hide PastOk, DataOk, RoundOk, StageAt;
  }

  lemma GenerationsBelow(cfg: Config, s: State, d: nat, i: nat)
    requires Shape(cfg, s) && d < 2 && i < cfg.workers && Participant(cfg, d, i) && Counts(cfg, s, d)
    ensures var w := s.ws[SenderEnd(d)][i];
            && Generations(cfg, d, i, w) <= |s.hist[d]|
            && (Writing(w) ==> |s.hist[d]| == Generations(cfg, d, i, w))
  {
    assert GenerationOk(cfg, d, |s.hist[d]|, s.ws[SenderEnd(d)], i);
    hide Generations, HistoryOk;
  }

  /** When the barrier after the write opens, every participant is past the write. */
  lemma OpenAligned(cfg: Config, s: State, d: nat, i: nat, j: nat)
    requires ValidConfig(cfg) && Shape(cfg, s) && d < 2 && i < cfg.workers && j < cfg.workers
    requires Workers(cfg, s) && Barriers(cfg, s)
    requires Participant(cfg, d, i) && Participant(cfg, d, j)
    requires var w := s.ws[SenderEnd(d)][i]; Dir(cfg, i, w.pos.leg) == d && AfterWrite(w)
    requires MayLeave(cfg, s, SenderEnd(d), i, d)
    ensures var e := SenderEnd(d); Wrote(cfg, d, j, s.ws[e][j], Generations(cfg, d, i, s.ws[e][i]))
  {
    var e := SenderEnd(d);
    assert WorkerOk(cfg, s.hist, e, i, s.ws[e][i]) && WorkerOk(cfg, s.hist, e, j, s.ws[e][j]);
    assert Aligned(cfg, e, d, s.ws[e], j, i) && Aligned(cfg, e, d, s.ws[e], i, j);
    hide Workers, Barriers, DataOk, StageAt, Restart;
  }

  /** A worker that comes to the barrier before a write finds nothing written. */
  lemma NotYetWritten(cfg: Config, d: nat, n: nat, ws: seq<Worker>, i: nat)
    requires i < |ws| && GenerationOk(cfg, d, n, ws, i) && !Pending(ws[i])
    requires GenerationOk(cfg, d, n, ws, Writer(cfg, d, Generations(cfg, d, i, ws[i])))
    ensures var g := Generations(cfg, d, i, ws[i]); !Wrote(cfg, d, Writer(cfg, d, g), ws[Writer(cfg, d, g)], g)
  {
    hide Generations, Writer;
  }

  // The serial result of the barrier before a write goes to the writer of the next count.
  lemma SerialIsWriter(cfg: Config, s: State, d: nat, i: nat)
    requires ValidConfig(cfg) && Shape(cfg, s) && d < 2 && i < cfg.workers && Participant(cfg, d, i) && Workers(cfg, s)
    requires var w := s.ws[SenderEnd(d)][i]; Dir(cfg, i, w.pos.leg) == d && (w.pos.at == COUNT_SET || w.pos.at == GROW_SYNC)
    ensures var e := SenderEnd(d);
            IsSerial(cfg, s, e, i, d) <==> i == Writer(cfg, d, Generations(cfg, d, i, s.ws[e][i]))
  {
    var e := SenderEnd(d);
    assert WorkerOk(cfg, s.hist, e, i, s.ws[e][i]);
    hide Workers, DataOk, PastOk, RoundOk, StageAt;
  }

  // --- keeping the counts

  /** A step that neither concerns the count barriers of direction d nor writes its count. */
  predicate Bystander(cfg: Config, s: State, d: nat, e: nat, i: nat, w': Worker)
    requires Shape(cfg, s) && Id(cfg, e, i) && d < 2
  {
    e == SenderEnd(d) && Participant(cfg, d, i) ==>
      var w := s.ws[e][i];
      && !Pending(w) && !AfterWrite(w') && !Writing(w')
      && Generations(cfg, d, i, w') == Generations(cfg, d, i, w)
  }

  predicate Moved(cfg: Config, s: State, s': State, e: nat, i: nat, w': Worker)
    requires Shape(cfg, s) && Id(cfg, e, i)
  {
    s'.ws == s.ws[e := s.ws[e][i := w']]
  }

  predicate SameCount(cfg: Config, s: State, s': State, d: nat)
    requires Shape(cfg, s) && Shape(cfg, s') && d < 2
  {
    s'.hist[d] == s.hist[d] && s'.sh[SenderEnd(d)].count[d] == s.sh[SenderEnd(d)].count[d]
  }

  lemma CountsBystander(cfg: Config, s: State, s': State, d: nat, e: nat, i: nat, w': Worker)
    requires ValidConfig(cfg) && Shape(cfg, s) && Shape(cfg, s') && Id(cfg, e, i) && d < 2 && Counts(cfg, s, d)
    requires Moved(cfg, s, s', e, i, w') && SameCount(cfg, s, s', d) && Bystander(cfg, s, d, e, i, w')
    ensures Counts(cfg, s', d)
  {
    var se, n := SenderEnd(d), |s.hist[d]|;
    var ws, ws' := s.ws[se], s'.ws[se];
    hide HistoryOk, Generations, Writer;
    forall j | 0 <= j < cfg.workers && Participant(cfg, d, j)
      ensures GenerationOk(cfg, d, n, ws', j) && Generations(cfg, d, j, ws'[j]) == Generations(cfg, d, j, ws[j])
    {
      assert GenerationOk(cfg, d, n, ws, j);
      if e == se && j == i {
        var k := Writer(cfg, d, Generations(cfg, d, i, ws[i]));
        assert Participant(cfg, d, k) by { WriterIsUser(cfg, d, Generations(cfg, d, i, ws[i])); }
        NotYetWritten(cfg, d, n, ws, i);
      }
    }
  }

  lemma WriterIsUser(cfg: Config, d: nat, g: nat)
    requires ValidConfig(cfg) && d < 2
    ensures Writer(cfg, d, g) < cfg.workers && Participant(cfg, d, Writer(cfg, d, g))
  {}

  /** Leaving the barrier before a write: to the write for the serial worker, to the barrier after it for the others. */
  lemma CountsLeave(cfg: Config, s: State, s': State, d: nat, i: nat, w': Worker)
    requires ValidConfig(cfg) && Shape(cfg, s) && Shape(cfg, s') && d < 2 && i < cfg.workers && Participant(cfg, d, i)
    requires Workers(cfg, s) && Counts(cfg, s, d)
    requires Moved(cfg, s, s', SenderEnd(d), i, w') && SameCount(cfg, s, s', d)
    requires var w := s.ws[SenderEnd(d)][i];
             && Dir(cfg, i, w.pos.leg) == d && (w.pos.at == COUNT_SET || w.pos.at == GROW_SYNC)
             && w'.pos == w.pos.(at := w.pos.at + if IsSerial(cfg, s, SenderEnd(d), i, d) then 1 else 2)
    ensures Counts(cfg, s', d)
  {
    hide HistoryOk, Generations, Writer, Workers, IsSerial, GenerationOk, Participant, ValidConfig, Pending, AfterWrite, Writing;
    SerialIsWriter(cfg, s, d, i);
    var se, n := SenderEnd(d), |s.hist[d]|;
    var ws, ws' := s.ws[se], s'.ws[se];
    LeaveSame(cfg, d, i, ws[i], w');
    forall k | 0 <= k < cfg.workers && Participant(cfg, d, k)
      ensures GenerationOk(cfg, d, n, ws', k) && Generations(cfg, d, k, ws'[k]) == Generations(cfg, d, k, ws[k])
    {
      LeaveGeneration(cfg, d, n, ws, i, w', ws', k);
    }
  }

  lemma LeaveSame(cfg: Config, d: nat, i: nat, w: Worker, w': Worker)
    requires Dir(cfg, i, w.pos.leg) == d && (w.pos.at == COUNT_SET || w.pos.at == GROW_SYNC)
    requires w'.pos == w.pos.(at := w.pos.at + 1) || w'.pos == w.pos.(at := w.pos.at + 2)
    ensures Generations(cfg, d, i, w') == Generations(cfg, d, i, w)
    ensures Pending(w) && !AfterWrite(w) && Pending(w') && if w'.pos.at == w.pos.at + 1 then Writing(w') else AfterWrite(w')
  {}

  lemma LeaveGeneration(cfg: Config, d: nat, n: nat, ws: seq<Worker>, i: nat, w': Worker, ws': seq<Worker>, k: nat)
    requires i < |ws| && k < |ws| && ws' == ws[i := w'] && GenerationOk(cfg, d, n, ws, k)
    requires Pending(ws[i]) && !AfterWrite(ws[i]) && Pending(w') && Generations(cfg, d, i, w') == Generations(cfg, d, i, ws[i])
    requires if i == Writer(cfg, d, Generations(cfg, d, i, ws[i])) then Writing(w') else AfterWrite(w')
    ensures GenerationOk(cfg, d, n, ws', k)
  {
    hide Generations, Writer;
  }

  /** When the barrier after a write opens, the write has happened. */
  lemma WriteDone(cfg: Config, s: State, d: nat, i: nat)
    requires ValidConfig(cfg) && Shape(cfg, s) && d < 2 && i < cfg.workers && Participant(cfg, d, i)
    requires Workers(cfg, s) && Barriers(cfg, s) && Counts(cfg, s, d)
    requires var w := s.ws[SenderEnd(d)][i]; Dir(cfg, i, w.pos.leg) == d && AfterWrite(w)
    requires MayLeave(cfg, s, SenderEnd(d), i, d)
    ensures |s.hist[d]| == Generations(cfg, d, i, s.ws[SenderEnd(d)][i]) + 1
  {
    var e, n := SenderEnd(d), |s.hist[d]|;
    assert GenerationOk(cfg, d, n, s.ws[e], i);
    var g := Generations(cfg, d, i, s.ws[e][i]);
    WriterIsUser(cfg, d, g);
    OpenAligned(cfg, s, d, i, Writer(cfg, d, g));
  }

  lemma CountsOpen(cfg: Config, s: State, s': State, d: nat, i: nat, w': Worker)
    requires ValidConfig(cfg) && Shape(cfg, s) && Shape(cfg, s') && d < 2 && i < cfg.workers && Participant(cfg, d, i)
    requires Workers(cfg, s) && Barriers(cfg, s) && Counts(cfg, s, d)
    requires Moved(cfg, s, s', SenderEnd(d), i, w') && SameCount(cfg, s, s', d)
    requires var w := s.ws[SenderEnd(d)][i];
             && Dir(cfg, i, w.pos.leg) == d && AfterWrite(w) && MayLeave(cfg, s, SenderEnd(d), i, d)
             && !WaitAborts(w, s.sh[SenderEnd(d)].count[d])
             && w'.pos.leg == w.pos.leg && w'.pos.at == NEGOTIATE
             && Generations(cfg, d, i, w') == Generations(cfg, d, i, w) + 1
    ensures Counts(cfg, s', d)
  {
    WriteDone(cfg, s, d, i);
    var se, n := SenderEnd(d), |s.hist[d]|;
    var ws, ws' := s.ws[se], s'.ws[se];
    assert n == 1 || s.sh[se].count[d] <= COUNT_MAX;
    WriterIsUser(cfg, d, n);
    hide Workers, Barriers, HistoryOk, Generations, Writer, MayLeave, GenerationOk, Participant, ValidConfig;
    forall j | 0 <= j < cfg.workers && Participant(cfg, d, j)
      ensures GenerationOk(cfg, d, n, ws', j)
      ensures j != i ==> Generations(cfg, d, j, ws'[j]) == Generations(cfg, d, j, ws[j])
    {
      OpenGeneration(cfg, d, n, ws, i, w', ws', j);
    }
  }

  lemma OpenGeneration(cfg: Config, d: nat, n: nat, ws: seq<Worker>, i: nat, w': Worker, ws': seq<Worker>, k: nat)
    requires i < |ws| && k < |ws| && ws' == ws[i := w'] && GenerationOk(cfg, d, n, ws, k) && Writer(cfg, d, n) < |ws|
    requires AfterWrite(ws[i]) && !Pending(w') && n == Generations(cfg, d, i, w') == Generations(cfg, d, i, ws[i]) + 1
    ensures GenerationOk(cfg, d, n, ws', k)
  {
    hide Generations, Writer;
  }

  /** The serial worker's write. */
  lemma CountsWrite(cfg: Config, s: State, s': State, d: nat, i: nat, w': Worker)
    requires ValidConfig(cfg) && Shape(cfg, s) && Shape(cfg, s') && d < 2 && i < cfg.workers && Participant(cfg, d, i)
    requires Workers(cfg, s) && Barriers(cfg, s) && Counts(cfg, s, d) && Moved(cfg, s, s', SenderEnd(d), i, w')
    requires var w := s.ws[SenderEnd(d)][i];
             && Dir(cfg, i, w.pos.leg) == d && Writing(w) && w'.pos == w.pos.(at := w.pos.at + 1)
    requires s'.hist[d] == s.hist[d] + [s'.sh[SenderEnd(d)].count[d]]
    requires HistoryOk(cfg, d, s'.hist[d])
    ensures Counts(cfg, s', d)
  {
    var se, n := SenderEnd(d), |s.hist[d]|;
    var ws, ws' := s.ws[se], s'.ws[se];
    assert GenerationOk(cfg, d, n, ws, i);
    assert Generations(cfg, d, i, w') == Generations(cfg, d, i, ws[i]);
    forall j | 0 <= j < cfg.workers && Participant(cfg, d, j)
      ensures GenerationOk(cfg, d, n + 1, ws', j) && Generations(cfg, d, j, ws'[j]) == n
    {
      WriteAligned(cfg, s, d, i, j);
      WriteGeneration(cfg, d, n, ws, i, w', ws', j);
    }
    hide Generations, Writer, Workers, Barriers, GenerationOk;
  }

  lemma WriteGeneration(cfg: Config, d: nat, n: nat, ws: seq<Worker>, i: nat, w': Worker, ws': seq<Worker>, k: nat)
    requires i < |ws| && k < |ws| && ws' == ws[i := w'] && GenerationOk(cfg, d, n, ws, k) && GenerationOk(cfg, d, n, ws, i)
    requires Writing(ws[i]) && AfterWrite(w') && n == Generations(cfg, d, i, w') == Generations(cfg, d, i, ws[i])
    requires Pending(ws[k]) && Generations(cfg, d, k, ws[k]) == n
    ensures GenerationOk(cfg, d, n + 1, ws', k)
  {
    hide Generations, Writer;
  }

  // Writing after a restart: the worker's round is that of the last count written, which passed the assert.
  lemma CountBeforeGrow(cfg: Config, s: State, d: nat, i: nat)
    requires ValidConfig(cfg) && Shape(cfg, s) && d < 2 && i < cfg.workers && Participant(cfg, d, i)
    requires Workers(cfg, s) && Counts(cfg, s, d)
    requires var w := s.ws[SenderEnd(d)][i]; Dir(cfg, i, w.pos.leg) == d && w.pos.at == GROW
    ensures var n, p := |s.hist[d]|, s.ws[SenderEnd(d)][i].pos;
            && n > 0 && p.round == n - 1 && p.leg == LegOf(cfg, d)
            && COUNT_DEFAULT <= s.hist[d][n - 1] == s.sh[SenderEnd(d)].count[d] <= COUNT_MAX
  {
    assert GenerationOk(cfg, d, |s.hist[d]|, s.ws[SenderEnd(d)], i);
    assert WorkerOk(cfg, s.hist, SenderEnd(d), i, s.ws[SenderEnd(d)][i]);
    hide Regrown, Workers, DataOk, PastOk, RoundOk, WaitsOk, StageAt;
  }

  // The count written after a restart is the regrown last one.
  lemma RecountIsRegrown(cfg: Config, s: State, d: nat, i: nat)
    requires ValidConfig(cfg) && Shape(cfg, s) && d < 2 && i < cfg.workers && Participant(cfg, d, i)
    requires Workers(cfg, s) && Barriers(cfg, s) && Votes(cfg, s) && Counts(cfg, s, d)
    requires var w := s.ws[SenderEnd(d)][i]; Dir(cfg, i, w.pos.leg) == d && w.pos.at == GROW
    ensures var n, new' := |s.hist[d]|, Recount(cfg, s.sh[SenderEnd(d)], d);
            n > 0 && Regrown(cfg, d, n - 1, s.hist[d][n - 1], new') && s.hist[d][n - 1] <= new'
  {
    CountBeforeGrow(cfg, s, d, i);
    hide Workers, Barriers, Votes, Counts;
    var p, sh := s.ws[SenderEnd(d)][i].pos, s.sh[SenderEnd(d)];
    CountersComplete(cfg, s, SenderEnd(d), i);
    assert AllWeak(cfg, d, p.round) == NeedsRecount(cfg, sh, d);
    if NeedsRecount(cfg, sh, d) {
      var j :| IsWeakTime(cfg, p.leg, p.round, d, j, sh.weakTime[d]);
      hide AllWeak, IsWeakTime, NeedsRecount, Multiplied;
      StrictlyGrows(sh.count[d], cfg.multiplier, cfg.minimumTime * SECOND, sh.weakTime[d], cfg.asynchronous);
    }
  }

  /** What is appended to the history follows the growth rule. */
  lemma HistoryGrows(cfg: Config, s: State, d: nat, i: nat)
    requires ValidConfig(cfg) && Shape(cfg, s) && d < 2 && i < cfg.workers && Participant(cfg, d, i)
    requires Workers(cfg, s) && Barriers(cfg, s) && Votes(cfg, s) && Counts(cfg, s, d)
    requires var w := s.ws[SenderEnd(d)][i]; Dir(cfg, i, w.pos.leg) == d && Writing(w)
    ensures var sh' := SharedAfterLocal(cfg, i, s.ws[SenderEnd(d)][i], s.sh[SenderEnd(d)]);
            HistoryOk(cfg, d, s.hist[d] + [sh'.count[d]])
  {
    var e := SenderEnd(d);
    hide Workers, Barriers, Votes, Regrown;
    if s.ws[e][i].pos.at == GROW {
      CountBeforeGrow(cfg, s, d, i);
      RecountIsRegrown(cfg, s, d, i);
    } else {
      assert GenerationOk(cfg, d, |s.hist[d]|, s.ws[e], i);
    }
  }

  // --- what the senders read

  /** Every sender of a direction reads the count of its round. */
  lemma CountRead(cfg: Config, s: State, d: nat, i: nat)
    requires Shape(cfg, s) && d < 2 && i < cfg.workers && Participant(cfg, d, i) && Counts(cfg, s, d)
    requires var w := s.ws[SenderEnd(d)][i]; Dir(cfg, i, w.pos.leg) == d && (w.pos.at == NEGOTIATE || w.pos.at == CALL)
    ensures var w := s.ws[SenderEnd(d)][i];
            && w.pos.round + 1 == |s.hist[d]|
            && s.sh[SenderEnd(d)].count[d] == CountOf(s.hist, d, w.pos.round)
            && COUNT_DEFAULT <= CountOf(s.hist, d, w.pos.round) <= COUNT_MAX
  {
    assert GenerationOk(cfg, d, |s.hist[d]|, s.ws[SenderEnd(d)], i);
  }
}
