/**
  The weak counters: from its own reset until it leaves the round, every worker sees counters that equal
  the number of weak votes cast so far in its round, and a complete count once it reads them.
 */
module TalkVotes {
  import opened TalkModel
  import opened TalkEvents
  import opened TalkWorker
  import opened TalkBarrier

  /** The worker has added its verdict for this leg and round to the counters. */
  predicate Voted(w: Worker, leg: nat, round: nat) {
    if w.pos.leg == leg then w.pos.round > round || (w.pos.round == round && w.pos.at > WEAK)
    else w.pos.leg > leg && round <= w.prev
  }

  /** Weak votes cast for direction d by the workers below n. */
  function Tally(cfg: Config, ws: seq<Worker>, d: nat, leg: nat, round: nat, n: nat): nat
    requires n <= |ws|
  {
    if n == 0 then 0
    else Tally(cfg, ws, d, leg, round, n - 1) +
         if Dir(cfg, n - 1, leg) == d && WeakConnection(cfg, d, round, n - 1) && Voted(ws[n - 1], leg, round) then 1 else 0
  }

  predicate Live(w: Worker) { RUN_SYNC <= w.pos.at <= GROW_SYNC_2 }

  /** t is the duration of connection j, whose stream in direction d was weak. */
  predicate IsWeakTime(cfg: Config, leg: nat, round: nat, d: nat, j: nat, t: nat) {
    j < cfg.workers && Dir(cfg, j, leg) == d && WeakConnection(cfg, d, round, j) && t == cfg.duration(d, round, j)
  }

  /** The counter is the tally of the round, and once it is positive the weak time is that of one of its connections. */
  ghost predicate SeesCount(cfg: Config, sh: Shared, ws: seq<Worker>, leg: nat, round: nat, d: nat)
    requires |sh.imWeak| == 2 && |sh.weakTime| == 2 && d < 2
  {
    && sh.imWeak[d] == Tally(cfg, ws, d, leg, round, |ws|)
    && (sh.imWeak[d] > 0 ==> exists j :: IsWeakTime(cfg, leg, round, d, j, sh.weakTime[d]))
  }

  predicate SeesTotal(cfg: Config, sh: Shared, ws: seq<Worker>, leg: nat, round: nat) {
    sh.weak == Tally(cfg, ws, 0, leg, round, |ws|) + Tally(cfg, ws, 1, leg, round, |ws|)
  }

  ghost predicate Sees(cfg: Config, sh: Shared, ws: seq<Worker>, i: nat)
    requires |sh.imWeak| == 2 && |sh.weakTime| == 2 && i < |ws|
  {
    var w := ws[i];
    Live(w) ==>
      && SeesTotal(cfg, sh, ws, w.pos.leg, w.pos.round)
      && (forall d :: 0 <= d < 2 && (d == Dir(cfg, i, w.pos.leg) || (cfg.asynchronous && w.pos.at > RUN_SYNC)) ==>
            SeesCount(cfg, sh, ws, w.pos.leg, w.pos.round, d))
  }

  ghost predicate Votes(cfg: Config, s: State)
    requires Shape(cfg, s)
  {
    forall e, i :: 0 <= e < 2 && 0 <= i < cfg.workers ==> Sees(cfg, s.sh[e], s.ws[e], i)
  }

  // --- tallies

  lemma {:induction false} TallySame(cfg: Config, ws: seq<Worker>, ws': seq<Worker>, d: nat, leg: nat, round: nat, n: nat)
    requires n <= |ws| == |ws'|
    requires forall j :: 0 <= j < n ==> Voted(ws[j], leg, round) == Voted(ws'[j], leg, round)
    ensures Tally(cfg, ws, d, leg, round, n) == Tally(cfg, ws', d, leg, round, n)
  {
    if n > 0 { TallySame(cfg, ws, ws', d, leg, round, n - 1); }
  }

  lemma {:induction false} TallyVote(cfg: Config, ws: seq<Worker>, i: nat, w': Worker, d: nat, leg: nat, round: nat, n: nat)
    requires n <= |ws| && i < |ws| && !Voted(ws[i], leg, round) && Voted(w', leg, round)
    ensures Tally(cfg, ws[i := w'], d, leg, round, n) == Tally(cfg, ws, d, leg, round, n) +
            if i < n && Dir(cfg, i, leg) == d && WeakConnection(cfg, d, round, i) then 1 else 0
  {
    if n > 0 { TallyVote(cfg, ws, i, w', d, leg, round, n - 1); }
  }

  lemma {:induction false} TallyNone(cfg: Config, ws: seq<Worker>, d: nat, leg: nat, round: nat, n: nat)
    requires n <= |ws| && forall j :: 0 <= j < n ==> !Voted(ws[j], leg, round)
    ensures Tally(cfg, ws, d, leg, round, n) == 0
  {
    if n > 0 { TallyNone(cfg, ws, d, leg, round, n - 1); }
  }

  lemma {:induction false} TallyAll(cfg: Config, ws: seq<Worker>, d: nat, leg: nat, round: nat, n: nat)
    requires n <= |ws| && forall j :: 0 <= j < n ==> Voted(ws[j], leg, round)
    ensures Tally(cfg, ws, d, leg, round, n) == WeakTotal(cfg, d, leg, round, n)
  {
    if n > 0 { TallyAll(cfg, ws, d, leg, round, n - 1); }
  }

  /** Only the vote itself changes who has voted. */
  lemma AdvanceVoted(cfg: Config, sender: bool, w: Worker, flag: bool, w': Worker, leg: nat, round: nat)
    requires ValidConfig(cfg) && PlaceOk(cfg, sender, w.pos, w.count) && w.pos.at != DONE
    requires RoundOk(cfg, w.pos) && FlagOk(cfg, w.pos, w.count, flag)
    requires w'.pos == Advance(cfg, sender, w.pos, w.count, flag)
    requires w'.prev == if w'.pos.leg == w.pos.leg then w.prev else w.pos.round
    ensures Voted(w', leg, round) == (Voted(w, leg, round) || (w.pos.at == WEAK && w.pos.leg == leg && w.pos.round == round))
  {
    hide Restart;
  }

  // --- alignment of the readers

  /** Nobody has voted yet in the round of a worker that is still resetting, and a live worker is just past its own reset. */
  lemma ResetAligned(cfg: Config, s: State, e: nat, i: nat, j: nat)
    requires ValidConfig(cfg) && Shape(cfg, s) && Id(cfg, e, i) && Id(cfg, e, j) && Workers(cfg, s) && Barriers(cfg, s)
    requires s.ws[e][i].pos.at == RESET
    ensures var w, u := s.ws[e][i], s.ws[e][j];
            && !Voted(u, w.pos.leg, w.pos.round)
            && (Live(u) ==> u.pos.leg == w.pos.leg && u.pos.round == w.pos.round && u.pos.at == RUN_SYNC)
  {
    MainAligned(cfg, s, e, i, j);
    MainAligned(cfg, s, e, j, i);
    hide DataOk, PastOk, RoundOk, StageAt, Restart, WaitsOk;
    assert WorkerOk(cfg, s.hist, e, i, s.ws[e][i]) && WorkerOk(cfg, s.hist, e, j, s.ws[e][j]);
  }

  /** While some worker votes, every live worker is in the same round. */
  lemma VoteAligned(cfg: Config, s: State, e: nat, i: nat, j: nat)
    requires ValidConfig(cfg) && Shape(cfg, s) && Id(cfg, e, i) && Id(cfg, e, j) && Workers(cfg, s) && Barriers(cfg, s)
    requires s.ws[e][i].pos.at == WEAK && Live(s.ws[e][j])
    ensures s.ws[e][j].pos.leg == s.ws[e][i].pos.leg && s.ws[e][j].pos.round == s.ws[e][i].pos.round
  {
    MainAligned(cfg, s, e, i, j);
    MainAligned(cfg, s, e, j, i);
    hide DataOk, PastOk, RoundOk, StageAt, Restart, WaitsOk;
    assert WorkerOk(cfg, s.hist, e, i, s.ws[e][i]) && WorkerOk(cfg, s.hist, e, j, s.ws[e][j]);
  }

  /** A worker that reads the counters does so after every worker of its end has voted. */
  lemma ReadAligned(cfg: Config, s: State, e: nat, i: nat, j: nat)
    requires ValidConfig(cfg) && Shape(cfg, s) && Id(cfg, e, i) && Id(cfg, e, j) && Workers(cfg, s) && Barriers(cfg, s)
    requires READ_WEAK <= s.ws[e][i].pos.at <= GROW_SYNC_2
    ensures Voted(s.ws[e][j], s.ws[e][i].pos.leg, s.ws[e][i].pos.round)
  {
    MainAligned(cfg, s, e, i, j);
    MainAligned(cfg, s, e, j, i);
    hide DataOk, RoundOk, StageAt, Restart, WaitsOk;
    var w, u := s.ws[e][i], s.ws[e][j];
    assert WorkerOk(cfg, s.hist, e, i, w) && WorkerOk(cfg, s.hist, e, j, u);
  }

  // --- keeping the counters right

  predicate SameWeak(s: State, s': State)
    requires |s.sh| == |s'.sh| == 2
  {
    forall e :: 0 <= e < 2 ==> s'.sh[e].weak == s.sh[e].weak && s'.sh[e].imWeak == s.sh[e].imWeak && s'.sh[e].weakTime == s.sh[e].weakTime
  }

  ghost predicate SameVoter(w: Worker, w': Worker) {
    forall leg, round :: Voted(w', leg, round) == Voted(w, leg, round)
  }

  lemma SeesCountKept(cfg: Config, sh: Shared, sh': Shared, ws: seq<Worker>, ws': seq<Worker>, leg: nat, round: nat)
    requires |sh.imWeak| == |sh.weakTime| == 2 && sh'.imWeak == sh.imWeak && sh'.weak == sh.weak && sh'.weakTime == sh.weakTime && |ws| == |ws'|
    requires forall k :: 0 <= k < |ws| ==> SameVoter(ws[k], ws'[k])
    ensures SeesTotal(cfg, sh, ws, leg, round) ==> SeesTotal(cfg, sh', ws', leg, round)
    ensures forall d :: 0 <= d < 2 && SeesCount(cfg, sh, ws, leg, round, d) ==> SeesCount(cfg, sh', ws', leg, round, d)
  {
    forall k | 0 <= k < |ws| ensures Voted(ws[k], leg, round) == Voted(ws'[k], leg, round) {
      assert SameVoter(ws[k], ws'[k]);
    }
    TallySame(cfg, ws, ws', 0, leg, round, |ws|);
    TallySame(cfg, ws, ws', 1, leg, round, |ws|);
  }

  lemma SeesKept(cfg: Config, sh: Shared, sh': Shared, ws: seq<Worker>, ws': seq<Worker>, j: nat)
    requires |sh.imWeak| == |sh.weakTime| == 2 && sh'.imWeak == sh.imWeak && sh'.weak == sh.weak && sh'.weakTime == sh.weakTime
    requires j < |ws| == |ws'| && ws'[j] == ws[j] && Sees(cfg, sh, ws, j)
    requires forall k :: 0 <= k < |ws| ==> SameVoter(ws[k], ws'[k])
    ensures Sees(cfg, sh', ws', j)
  {
    SeesCountKept(cfg, sh, sh', ws, ws', ws[j].pos.leg, ws[j].pos.round);
  }

  /** A worker that moves on without resetting or voting. */
  lemma VotesMove(cfg: Config, s: State, s': State, e: nat, i: nat, w': Worker)
    requires ValidConfig(cfg) && Shape(cfg, s) && Shape(cfg, s') && Id(cfg, e, i) && Votes(cfg, s)
    requires s'.ws == s.ws[e := s.ws[e][i := w']] && SameWeak(s, s')
    requires SameVoter(s.ws[e][i], w')
    requires var w := s.ws[e][i];
             Live(w') ==>
               && Live(w) && w'.pos.leg == w.pos.leg && w'.pos.round == w.pos.round
               && (w.pos.at > RUN_SYNC || forall d :: 0 <= d < 2 && cfg.asynchronous ==> SeesCount(cfg, s.sh[e], s.ws[e], w.pos.leg, w.pos.round, d))
    ensures Votes(cfg, s')
  {
    forall e', j | 0 <= e' < 2 && 0 <= j < cfg.workers
      ensures Sees(cfg, s'.sh[e'], s'.ws[e'], j)
    {
      assert Sees(cfg, s.sh[e'], s.ws[e'], j);
      if e' == e && j == i {
        SeesCountKept(cfg, s.sh[e], s'.sh[e], s.ws[e], s'.ws[e], w'.pos.leg, w'.pos.round);
      } else {
        SeesKept(cfg, s.sh[e'], s'.sh[e'], s.ws[e'], s'.ws[e'], j);
      }
    }
  }

  lemma RunSyncAligned(cfg: Config, s: State, e: nat, i: nat, j: nat)
    requires ValidConfig(cfg) && Shape(cfg, s) && Id(cfg, e, i) && Id(cfg, e, j) && Workers(cfg, s) && Barriers(cfg, s)
    requires cfg.asynchronous && s.ws[e][i].pos.at == RUN_SYNC && MayLeave(cfg, s, e, i, 2)
    ensures var w, u := s.ws[e][i], s.ws[e][j];
            Live(u) && u.pos.leg == w.pos.leg && u.pos.round == w.pos.round
  {
    MainAligned(cfg, s, e, i, j);
    MainAligned(cfg, s, e, j, i);
    assert Participant(cfg, 2, j);
    hide DataOk, PastOk, RoundOk, StageAt, Restart;
    assert WorkerOk(cfg, s.hist, e, i, s.ws[e][i]) && WorkerOk(cfg, s.hist, e, j, s.ws[e][j]);
  }

  /** In asynchronous mode both directions' counters are reset once the run barrier opens. */
  lemma BothSeen(cfg: Config, s: State, e: nat, i: nat)
    requires ValidConfig(cfg) && Shape(cfg, s) && Id(cfg, e, i) && Workers(cfg, s) && Barriers(cfg, s) && Votes(cfg, s)
    requires cfg.asynchronous && s.ws[e][i].pos.at == RUN_SYNC && MayLeave(cfg, s, e, i, 2)
    ensures forall d :: 0 <= d < 2 ==> SeesCount(cfg, s.sh[e], s.ws[e], s.ws[e][i].pos.leg, s.ws[e][i].pos.round, d)
  {
    forall d | 0 <= d < 2
      ensures SeesCount(cfg, s.sh[e], s.ws[e], s.ws[e][i].pos.leg, s.ws[e][i].pos.round, d)
    {
      var j := if d == 0 then 0 else cfg.workers / 2;
      RunSyncAligned(cfg, s, e, i, j);
      assert Sees(cfg, s.sh[e], s.ws[e], j);
    }
  }

  lemma ResetTallies(cfg: Config, s: State, e: nat, i: nat, w': Worker, ws': seq<Worker>)
    requires ValidConfig(cfg) && Shape(cfg, s) && Id(cfg, e, i) && ws' == s.ws[e][i := w'] && Workers(cfg, s) && Barriers(cfg, s)
    requires s.ws[e][i].pos.at == RESET && w'.pos == s.ws[e][i].pos.(at := RUN_SYNC)
    ensures forall d :: 0 <= d < 2 ==> Tally(cfg, ws', d, w'.pos.leg, w'.pos.round, cfg.workers) == 0
  {
    forall k | 0 <= k < cfg.workers ensures !Voted(ws'[k], w'.pos.leg, w'.pos.round) {
      ResetAligned(cfg, s, e, i, k);
    }
    hide Workers, Barriers;
    TallyNone(cfg, ws', 0, w'.pos.leg, w'.pos.round, cfg.workers);
    TallyNone(cfg, ws', 1, w'.pos.leg, w'.pos.round, cfg.workers);
  }

  /** The reset of the counters. */
  lemma VotesReset(cfg: Config, s: State, s': State, e: nat, i: nat, w': Worker)
    requires ValidConfig(cfg) && Shape(cfg, s) && Shape(cfg, s') && Id(cfg, e, i)
    requires Workers(cfg, s) && Barriers(cfg, s) && Votes(cfg, s)
    requires s.ws[e][i].pos.at == RESET && w'.pos == s.ws[e][i].pos.(at := RUN_SYNC) && SameVoter(s.ws[e][i], w')
    requires s'.ws == s.ws[e := s.ws[e][i := w']]
    requires s'.sh == s.sh[e := SharedAfterLocal(cfg, i, s.ws[e][i], s.sh[e])]
    ensures Votes(cfg, s')
  {
    ResetTallies(cfg, s, e, i, w', s'.ws[e]);
    forall e', j | 0 <= e' < 2 && 0 <= j < cfg.workers
      ensures Sees(cfg, s'.sh[e'], s'.ws[e'], j)
    {
      hide Workers, Barriers, Sees, Tally, SharedAfterLocal, ValidConfig;
      assert Sees(cfg, s.sh[e'], s.ws[e'], j);
      if e' == e {
        ResetOne(cfg, s, s', e, i, w', j);
      }
    }
  }

  lemma ResetOne(cfg: Config, s: State, s': State, e: nat, i: nat, w': Worker, j: nat)
    requires ValidConfig(cfg) && Shape(cfg, s) && Shape(cfg, s') && Id(cfg, e, i) && Id(cfg, e, j)
    requires Workers(cfg, s) && Barriers(cfg, s) && Sees(cfg, s.sh[e], s.ws[e], j)
    requires s.ws[e][i].pos.at == RESET && w'.pos == s.ws[e][i].pos.(at := RUN_SYNC)
    requires s'.ws == s.ws[e := s.ws[e][i := w']]
    requires s'.sh == s.sh[e := SharedAfterLocal(cfg, i, s.ws[e][i], s.sh[e])]
    requires forall d :: 0 <= d < 2 ==> Tally(cfg, s'.ws[e], d, w'.pos.leg, w'.pos.round, cfg.workers) == 0
    requires forall k :: 0 <= k < cfg.workers ==> SameVoter(s.ws[e][k], s'.ws[e][k])
    ensures Sees(cfg, s'.sh[e], s'.ws[e], j)
  {
    hide Workers, Barriers;
    ResetAligned(cfg, s, e, i, j);
    SeesCountKept(cfg, s.sh[e], s.sh[e], s.ws[e], s'.ws[e], w'.pos.leg, w'.pos.round);
    var u, u' := s.ws[e][j], s'.ws[e][j];
    forall d | 0 <= d < 2 && Live(u') && d == Dir(cfg, j, u'.pos.leg)
      ensures SeesCount(cfg, s'.sh[e], s'.ws[e], u'.pos.leg, u'.pos.round, d)
    {
      if j != i {
        assert SeesCount(cfg, s.sh[e], s.ws[e], u.pos.leg, u.pos.round, d);
      }
    }
  }

  lemma CastTallies(cfg: Config, s: State, e: nat, i: nat, w': Worker, ws': seq<Worker>)
    requires ValidConfig(cfg) && Shape(cfg, s) && Id(cfg, e, i) && ws' == s.ws[e][i := w'] && Workers(cfg, s)
    requires s.ws[e][i].pos.at == WEAK && w'.pos == s.ws[e][i].pos.(at := WEAK_SYNC_2)
    ensures s.ws[e][i].weak == WeakConnection(cfg, Dir(cfg, i, w'.pos.leg), w'.pos.round, i)
    ensures s.ws[e][i].weak ==> s.ws[e][i].weakTime == cfg.duration(Dir(cfg, i, w'.pos.leg), w'.pos.round, i)
    ensures forall d :: 0 <= d < 2 ==>
      Tally(cfg, ws', d, w'.pos.leg, w'.pos.round, cfg.workers) ==
      Tally(cfg, s.ws[e], d, w'.pos.leg, w'.pos.round, cfg.workers) +
      if Dir(cfg, i, w'.pos.leg) == d && WeakConnection(cfg, d, w'.pos.round, i) then 1 else 0
  {
    assert WorkerOk(cfg, s.hist, e, i, s.ws[e][i]);
    TallyVote(cfg, s.ws[e], i, w', 0, w'.pos.leg, w'.pos.round, cfg.workers);
    TallyVote(cfg, s.ws[e], i, w', 1, w'.pos.leg, w'.pos.round, cfg.workers);
  }

  /** A vote. */
  lemma VotesCast(cfg: Config, s: State, s': State, e: nat, i: nat, w': Worker)
    requires ValidConfig(cfg) && Shape(cfg, s) && Shape(cfg, s') && Id(cfg, e, i)
    requires Workers(cfg, s) && Barriers(cfg, s) && Votes(cfg, s)
    requires s.ws[e][i].pos.at == WEAK && w'.pos == s.ws[e][i].pos.(at := WEAK_SYNC_2)
    requires s'.ws == s.ws[e := s.ws[e][i := w']]
    requires s'.sh == s.sh[e := SharedAfterLocal(cfg, i, s.ws[e][i], s.sh[e])]
    ensures Votes(cfg, s')
  {
    CastTallies(cfg, s, e, i, w', s'.ws[e]);
    forall e', j | 0 <= e' < 2 && 0 <= j < cfg.workers
      ensures Sees(cfg, s'.sh[e'], s'.ws[e'], j)
    {
      hide Workers, Barriers, Tally, SharedAfterLocal, ValidConfig, SeesCount, SeesTotal;
      assert Sees(cfg, s.sh[e'], s.ws[e'], j);
      if e' == e && Live(s.ws[e][j]) {
        VoteAligned(cfg, s, e, i, j);
        CastOne(cfg, s, s', e, i, w', j);
      }
    }
  }

  lemma CastOne(cfg: Config, s: State, s': State, e: nat, i: nat, w': Worker, j: nat)
    requires ValidConfig(cfg) && Shape(cfg, s) && Shape(cfg, s') && Id(cfg, e, i) && Id(cfg, e, j)
    requires Sees(cfg, s.sh[e], s.ws[e], i) && Sees(cfg, s.sh[e], s.ws[e], j) && Live(s.ws[e][j])
    requires s.ws[e][i].pos.at == WEAK && w'.pos == s.ws[e][i].pos.(at := WEAK_SYNC_2)
    requires s.ws[e][j].pos.leg == w'.pos.leg && s.ws[e][j].pos.round == w'.pos.round
    requires s'.ws == s.ws[e := s.ws[e][i := w']]
    requires s'.sh == s.sh[e := SharedAfterLocal(cfg, i, s.ws[e][i], s.sh[e])]
    requires s.ws[e][i].weak == WeakConnection(cfg, Dir(cfg, i, w'.pos.leg), w'.pos.round, i)
    requires s.ws[e][i].weak ==> s.ws[e][i].weakTime == cfg.duration(Dir(cfg, i, w'.pos.leg), w'.pos.round, i)
    requires forall d :: 0 <= d < 2 ==>
      Tally(cfg, s'.ws[e], d, w'.pos.leg, w'.pos.round, cfg.workers) ==
      Tally(cfg, s.ws[e], d, w'.pos.leg, w'.pos.round, cfg.workers) +
      if Dir(cfg, i, w'.pos.leg) == d && WeakConnection(cfg, d, w'.pos.round, i) then 1 else 0
    ensures Sees(cfg, s'.sh[e], s'.ws[e], j)
  {
    var u' := s'.ws[e][j];
    hide Tally, Dir, WeakConnection;
    forall d | 0 <= d < 2 && (d == Dir(cfg, j, u'.pos.leg) || (cfg.asynchronous && u'.pos.at > RUN_SYNC))
      ensures SeesCount(cfg, s'.sh[e], s'.ws[e], u'.pos.leg, u'.pos.round, d)
    {
      assert SeesCount(cfg, s.sh[e], s.ws[e], u'.pos.leg, u'.pos.round, d);
      CastCount(cfg, s.sh[e], s'.sh[e], s.ws[e], s'.ws[e], i, u'.pos.leg, u'.pos.round, d);
    }
  }

  /** The vote of connection i, seen by one direction. */
  lemma CastCount(cfg: Config, sh: Shared, sh': Shared, ws: seq<Worker>, ws': seq<Worker>, i: nat, leg: nat, round: nat, d: nat)
    requires |sh.imWeak| == |sh.weakTime| == |sh.count| == 2 && i < |ws| == |ws'| == cfg.workers && d < 2
    requires ws[i].pos.at == WEAK && ws[i].pos.leg == leg && ws[i].pos.round == round
    requires sh' == SharedAfterLocal(cfg, i, ws[i], sh)
    requires ws[i].weak == WeakConnection(cfg, Dir(cfg, i, leg), round, i)
    requires ws[i].weak ==> ws[i].weakTime == cfg.duration(Dir(cfg, i, leg), round, i)
    requires Tally(cfg, ws', d, leg, round, |ws|) == Tally(cfg, ws, d, leg, round, |ws|) +
             if Dir(cfg, i, leg) == d && WeakConnection(cfg, d, round, i) then 1 else 0
    requires SeesCount(cfg, sh, ws, leg, round, d)
    ensures SeesCount(cfg, sh', ws', leg, round, d)
  {
    hide Tally, Dir, WeakConnection;
    if ws[i].weak && Dir(cfg, i, leg) == d {
      assert IsWeakTime(cfg, leg, round, d, i, sh'.weakTime[d]);
    } else if sh.imWeak[d] > 0 {
      var j :| IsWeakTime(cfg, leg, round, d, j, sh.weakTime[d]);
      assert IsWeakTime(cfg, leg, round, d, j, sh'.weakTime[d]);
    }
  }

  // --- what the counters show when they are read

  /** Restart agreement at one end: the counters read are the number of weak connections of the round, and a weak
      time read with a positive counter is the duration of one of them. */
  lemma CountersComplete(cfg: Config, s: State, e: nat, i: nat)
    requires ValidConfig(cfg) && Shape(cfg, s) && Id(cfg, e, i) && Workers(cfg, s) && Barriers(cfg, s) && Votes(cfg, s)
    requires READ_WEAK <= s.ws[e][i].pos.at <= GROW_SYNC_2
    ensures var p := s.ws[e][i].pos;
            && s.sh[e].weak == WeakTotal(cfg, 0, p.leg, p.round, cfg.workers) + WeakTotal(cfg, 1, p.leg, p.round, cfg.workers)
            && (forall d :: 0 <= d < 2 && (cfg.asynchronous || d == Dir(cfg, i, p.leg)) ==>
                  && s.sh[e].imWeak[d] == WeakTotal(cfg, d, p.leg, p.round, cfg.workers)
                  && (s.sh[e].imWeak[d] > 0 ==> exists j :: IsWeakTime(cfg, p.leg, p.round, d, j, s.sh[e].weakTime[d])))
  {
    var p := s.ws[e][i].pos;
    forall j | 0 <= j < cfg.workers ensures Voted(s.ws[e][j], p.leg, p.round) {
      ReadAligned(cfg, s, e, i, j);
    }
    TallyAll(cfg, s.ws[e], 0, p.leg, p.round, cfg.workers);
    TallyAll(cfg, s.ws[e], 1, p.leg, p.round, cfg.workers);
    hide Workers, Barriers;
    assert Sees(cfg, s.sh[e], s.ws[e], i);
    forall d | 0 <= d < 2 && (cfg.asynchronous || d == Dir(cfg, i, p.leg))
      ensures s.sh[e].imWeak[d] == WeakTotal(cfg, d, p.leg, p.round, cfg.workers)
      ensures s.sh[e].imWeak[d] > 0 ==> exists j :: IsWeakTime(cfg, p.leg, p.round, d, j, s.sh[e].weakTime[d])
    {
      assert SeesCount(cfg, s.sh[e], s.ws[e], p.leg, p.round, d);
    }
  }

  /** The decision read from the shared counters is the reference decision of the round. */
  lemma DecisionIsReference(cfg: Config, s: State, e: nat, i: nat)
    requires ValidConfig(cfg) && Shape(cfg, s) && Id(cfg, e, i) && Workers(cfg, s) && Barriers(cfg, s) && Votes(cfg, s)
    requires READ_WEAK <= s.ws[e][i].pos.at <= GROW_SYNC_2
    ensures var p := s.ws[e][i].pos;
            && (s.sh[e].weak == 0 ==> !Restart(cfg, p.leg, p.round))
            && NeedsRestart(cfg, s.sh[e], Dir(cfg, i, p.leg)) == Restart(cfg, p.leg, p.round)
  {
    CountersComplete(cfg, s, e, i);
  }
}
