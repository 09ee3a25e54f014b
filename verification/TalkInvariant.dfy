/** The invariant of the whole protocol, kept by every step of every worker. */
module TalkInvariant {
  import opened Growth
  import opened TalkModel
  import opened TalkEvents
  import opened TalkWorker
  import opened TalkBarrier
  import opened TalkVotes
  import opened TalkCounts

  predicate Connections(cfg: Config, s: State)
    requires Shape(cfg, s)
  {
    forall i :: 0 <= i < cfg.workers ==> Connected(cfg, s, i)
  }

  ghost predicate Inv(cfg: Config, s: State) {
    && ValidConfig(cfg)
    && Shape(cfg, s)
    && !s.fault
    && Workers(cfg, s)
    && Connections(cfg, s)
    && Barriers(cfg, s)
    && Votes(cfg, s)
    && Counts(cfg, s, 0)
    && Counts(cfg, s, 1)
  }

  // --- parts of the invariant under a move of one worker

  lemma WorkersMoved(cfg: Config, s: State, s': State, e: nat, i: nat, w': Worker)
    requires Shape(cfg, s) && Shape(cfg, s') && Id(cfg, e, i) && Workers(cfg, s)
    requires Moved(cfg, s, s', e, i, w') && Extends(s.hist, s'.hist) && WorkerOk(cfg, s'.hist, e, i, w')
    ensures Workers(cfg, s')
  {
    forall e', j | 0 <= e' < 2 && 0 <= j < cfg.workers
      ensures WorkerOk(cfg, s'.hist, e', j, s'.ws[e'][j])
    {
      if e' != e || j != i {
        WorkerExtends(cfg, s.hist, s'.hist, e', j, s.ws[e'][j]);
      }
      hide WorkerOk;
    }
  }

  predicate SameMessages(cfg: Config, e: nat, i: nat, w: Worker, w': Worker) {
    NextSend(cfg, e, i, w') == NextSend(cfg, e, i, w) && NextReceive(cfg, e, i, w') == NextReceive(cfg, e, i, w)
  }

  lemma ConnectionsMoved(cfg: Config, s: State, s': State, e: nat, i: nat, w': Worker)
    requires Shape(cfg, s) && Shape(cfg, s') && Id(cfg, e, i) && Connections(cfg, s)
    requires Moved(cfg, s, s', e, i, w') && Extends(s.hist, s'.hist) && s'.q == s.q
    requires SameMessages(cfg, e, i, s.ws[e][i], w')
    ensures Connections(cfg, s')
  {
    hide NextSend, NextReceive;
    forall j | 0 <= j < cfg.workers
      ensures Connected(cfg, s', j)
    {
      assert Connected(cfg, s, j);
      forall e' | 0 <= e' < 2
        ensures Chain(cfg, s'.hist, j, s'.q[e'][j], NextReceive(cfg, Peer(e'), j, s'.ws[Peer(e')][j]), NextSend(cfg, e', j, s'.ws[e'][j]))
      {
        ChainExtends(cfg, s.hist, s'.hist, j, s.q[e'][j], NextReceive(cfg, Peer(e'), j, s.ws[Peer(e')][j]), NextSend(cfg, e', j, s.ws[e'][j]));
      }
    }
  }

  lemma ConnectionsSent(cfg: Config, s: State, s': State, e: nat, i: nat, w': Worker, m: Msg)
    requires Shape(cfg, s) && Shape(cfg, s') && Id(cfg, e, i) && Connections(cfg, s)
    requires Moved(cfg, s, s', e, i, w') && s'.hist == s.hist
    requires s'.q == s.q[e := s.q[e][i := s.q[e][i] + [m]]]
    requires var ev := NextSend(cfg, e, i, s.ws[e][i]);
             && HasCount(cfg, s.hist, i, ev) && m == MsgOf(cfg, s.hist, i, ev)
             && NextSend(cfg, e, i, w') == Succ(cfg, s.hist, i, ev)
             && NextReceive(cfg, e, i, w') == NextReceive(cfg, e, i, s.ws[e][i])
    ensures Connections(cfg, s')
  {
    hide NextSend, NextReceive, Succ, MsgOf, HasCount;
    forall j | 0 <= j < cfg.workers
      ensures Connected(cfg, s', j)
    {
      assert Connected(cfg, s, j);
      if j == i {
        ChainAppend(cfg, s.hist, i, s.q[e][i], NextReceive(cfg, Peer(e), i, s.ws[Peer(e)][i]), NextSend(cfg, e, i, s.ws[e][i]));
      }
    }
  }

  lemma ConnectionsReceived(cfg: Config, s: State, s': State, e: nat, i: nat, w': Worker)
    requires Shape(cfg, s) && Shape(cfg, s') && Id(cfg, e, i) && Connections(cfg, s)
    requires Moved(cfg, s, s', e, i, w') && s'.hist == s.hist
    requires |s.q[Peer(e)][i]| > 0 && s'.q == s.q[Peer(e) := s.q[Peer(e)][i := s.q[Peer(e)][i][1..]]]
    requires NextSend(cfg, e, i, w') == NextSend(cfg, e, i, s.ws[e][i])
    requires NextReceive(cfg, e, i, w') == Succ(cfg, s.hist, i, NextReceive(cfg, e, i, s.ws[e][i]))
    ensures Connections(cfg, s')
  {
    hide NextSend, NextReceive, Succ, MsgOf, HasCount;
    forall j | 0 <= j < cfg.workers
      ensures Connected(cfg, s', j)
    {
      assert Connected(cfg, s, j);
    }
  }

  /** The next message in the channel is the one its reader expects. */
  lemma HeadExpected(cfg: Config, s: State, e: nat, i: nat)
    requires Shape(cfg, s) && Id(cfg, e, i) && Connections(cfg, s) && |s.q[Peer(e)][i]| > 0
    ensures var ev := NextReceive(cfg, e, i, s.ws[e][i]);
            HasCount(cfg, s.hist, i, ev) && s.q[Peer(e)][i][0] == MsgOf(cfg, s.hist, i, ev)
  {
    hide NextSend, NextReceive, Succ, MsgOf, HasCount;
    assert Connected(cfg, s, i);
    assert Peer(Peer(e)) == e;
  }

  lemma GoVoter(cfg: Config, hist: seq<seq<nat>>, e: nat, i: nat, w: Worker, flag: bool, w': Worker)
    requires ValidConfig(cfg) && WorkerOk(cfg, hist, e, i, w)
    requires w.pos.at != DONE && w.pos.at != WEAK && FlagOk(cfg, w.pos, w.count, flag)
    requires w'.pos == Go(cfg, IsSender(e, Dir(cfg, i, w.pos.leg)), w, flag).pos
    requires w'.prev == Go(cfg, IsSender(e, Dir(cfg, i, w.pos.leg)), w, flag).prev
    ensures SameVoter(w, w')
  {
    hide Advance, Voted, DataOk, PastOk, WaitsOk, RoundOk, PlaceOk;
    forall leg, round ensures Voted(w', leg, round) == Voted(w, leg, round) {
      AdvanceVoted(cfg, IsSender(e, Dir(cfg, i, w.pos.leg)), w, flag, w', leg, round);
    }
  }

  /** A move that neither resets nor writes keeps a live worker in its round. */
  lemma GoLive(cfg: Config, sender: bool, w: Worker, flag: bool)
    requires w.pos.at != RESET && PlaceOk(cfg, sender, w.pos, w.count)
    requires Live(Go(cfg, sender, w, flag))
    ensures Live(w) && Go(cfg, sender, w, flag).pos.leg == w.pos.leg && Go(cfg, sender, w, flag).pos.round == w.pos.round
  {}

  lemma GoGeneration(cfg: Config, d: nat, e: nat, i: nat, hist: seq<seq<nat>>, w: Worker, flag: bool)
    requires ValidConfig(cfg) && Id(cfg, e, i) && d < 2 && e == SenderEnd(d) && WorkerOk(cfg, hist, e, i, w)
    requires FlagOk(cfg, w.pos, w.count, flag) && w.pos.at != DONE
    requires Dir(cfg, i, w.pos.leg) == d ==> !Pending(w)
    ensures var w' := Go(cfg, IsSender(e, Dir(cfg, i, w.pos.leg)), w, flag);
            && !Pending(w) && !AfterWrite(w') && !Writing(w')
            && Generations(cfg, d, i, w') == Generations(cfg, d, i, w)
  {
    hide DataOk, PastOk, WaitsOk, RoundOk, Restart, StageAt, StageOn;
  }

  // --- the four kinds of steps

  /** Both directions' counts when the step concerns no count barrier. */
  lemma CountsUntouched(cfg: Config, s: State, s': State, e: nat, i: nat, flag: bool, w': Worker)
    requires Inv(cfg, s) && Shape(cfg, s') && Id(cfg, e, i)
    requires var w := s.ws[e][i];
             && FlagOk(cfg, w.pos, w.count, flag) && w.pos.at != DONE
             && !Pending(w)
             && w'.pos == Go(cfg, IsSender(e, Dir(cfg, i, w.pos.leg)), w, flag).pos
             && w'.prev == Go(cfg, IsSender(e, Dir(cfg, i, w.pos.leg)), w, flag).prev
    requires Moved(cfg, s, s', e, i, w') && s'.hist == s.hist
    requires forall e' :: 0 <= e' < 2 ==> s'.sh[e'].count == s.sh[e'].count
    ensures Counts(cfg, s', 0) && Counts(cfg, s', 1)
  {
    hide Counts, Barriers, Votes, Connections, WorkerOk, Go, FlagOk, Dir;
    forall d | 0 <= d < 2 ensures Counts(cfg, s', d) {
      OneCountUntouched(cfg, s, s', d, e, i, flag, w');
    }
    assert Counts(cfg, s', 0) && Counts(cfg, s', 1);
  }

  lemma OneCountUntouched(cfg: Config, s: State, s': State, d: nat, e: nat, i: nat, flag: bool, w': Worker)
    requires Inv(cfg, s) && Shape(cfg, s') && Id(cfg, e, i) && d < 2
    requires var w := s.ws[e][i];
             && FlagOk(cfg, w.pos, w.count, flag) && w.pos.at != DONE
             && (e == SenderEnd(d) && Dir(cfg, i, w.pos.leg) == d ==>
                   !Pending(w))
             && w'.pos == Go(cfg, IsSender(e, Dir(cfg, i, w.pos.leg)), w, flag).pos
             && w'.prev == Go(cfg, IsSender(e, Dir(cfg, i, w.pos.leg)), w, flag).prev
    requires Moved(cfg, s, s', e, i, w') && SameCount(cfg, s, s', d)
    ensures Counts(cfg, s', d)
  {
    hide Counts, Barriers, Votes, Connections, WorkerOk, Go, FlagOk;
    var w := s.ws[e][i];
    assert Counts(cfg, s, d);
    assert WorkerOk(cfg, s.hist, e, i, w);
    if e == SenderEnd(d) {
      GoGeneration(cfg, d, e, i, s.hist, w, flag);
      assert Generations(cfg, d, i, w') == Generations(cfg, d, i, Go(cfg, IsSender(e, Dir(cfg, i, w.pos.leg)), w, flag));
    }
    CountsBystander(cfg, s, s', d, e, i, w');
  }

  // Every direction but the worker's own is untouched by its writes.
  lemma OtherCountUntouched(cfg: Config, s: State, s': State, d: nat, e: nat, i: nat, flag: bool, w': Worker)
    requires Inv(cfg, s) && Shape(cfg, s') && Id(cfg, e, i) && d < 2
    requires var w := s.ws[e][i];
             && FlagOk(cfg, w.pos, w.count, flag) && w.pos.at != DONE
             && Dir(cfg, i, w.pos.leg) == 1 - d && IsSender(e, 1 - d)
             && w'.pos == Go(cfg, IsSender(e, Dir(cfg, i, w.pos.leg)), w, flag).pos
             && w'.prev == Go(cfg, IsSender(e, Dir(cfg, i, w.pos.leg)), w, flag).prev
    requires Moved(cfg, s, s', e, i, w') && SameCount(cfg, s, s', d)
    ensures Counts(cfg, s', d)
  {
    OneCountUntouched(cfg, s, s', d, e, i, flag, w');
  }

  lemma SenderPoint(cfg: Config, hist: seq<seq<nat>>, e: nat, i: nat, w: Worker)
    requires WorkerOk(cfg, hist, e, i, w) && Id(cfg, e, i)
    requires w.pos.at == COUNT_SET || w.pos.at == GROW_SYNC || AfterWrite(w) || Writing(w) || w.pos.at == CALL
    ensures var d := Dir(cfg, i, w.pos.leg);
            e == SenderEnd(d) && IsSender(e, d) && Participant(cfg, d, i) && w.pos.idx == 0
  {
    hide DataOk, PastOk, RoundOk, StageAt, WaitsOk;
  }

  lemma WaitReadyHolds(cfg: Config, s: State, e: nat, i: nat, b: nat)
    requires Inv(cfg, s) && Id(cfg, e, i) && b < 3
    requires Next(cfg, e, i, s.ws[e][i]) == Wait(b) && MayLeave(cfg, s, e, i, b)
    requires !WaitAborts(s.ws[e][i], s.sh[e].count[Dir(cfg, i, s.ws[e][i].pos.leg)])
    ensures WaitReady(cfg, s.hist, i, s.ws[e][i])
  {
    hide WorkerOk, MayLeave, Counts, Barriers, Votes, Connections;
    var w := s.ws[e][i];
    assert WorkerOk(cfg, s.hist, e, i, w);
    if AfterWrite(w) {
      var d := Dir(cfg, i, w.pos.leg);
      SenderPoint(cfg, s.hist, e, i, w);
      WriteDone(cfg, s, d, i);
      LastWritten(cfg, s, d);
    }
  }

  lemma LastWritten(cfg: Config, s: State, d: nat)
    requires Shape(cfg, s) && d < 2 && Counts(cfg, s, d) && |s.hist[d]| > 0
    ensures s.hist[d][0] == COUNT_DEFAULT && s.sh[SenderEnd(d)].count[d] == s.hist[d][|s.hist[d]| - 1]
  {}

  lemma WaitVotes(cfg: Config, s: State, s': State, e: nat, i: nat, b: nat, serial: bool)
    requires Inv(cfg, s) && Shape(cfg, s') && Id(cfg, e, i) && b < 3
    requires Next(cfg, e, i, s.ws[e][i]) == Wait(b) && MayLeave(cfg, s, e, i, b) && |s.ws[e][i].waits| == 3
    requires Moved(cfg, s, s', e, i, AfterWait(cfg, e, i, s.ws[e][i], b, serial)) && s'.sh == s.sh
    ensures Votes(cfg, s')
  {
    hide WorkerOk, MayLeave, Counts, Barriers, Votes, Connections, Live, SameVoter, Go, FlagOk, WaitsOk;
    var w := s.ws[e][i];
    assert WorkerOk(cfg, s.hist, e, i, w);
    var w' := AfterWait(cfg, e, i, w, b, serial);
    WaitFlag(cfg, s.hist, e, i, w, b, serial);
    var sender := IsSender(e, Dir(cfg, i, w.pos.leg));
    var flag := if w.pos.at == RUN_SYNC then w.count == 0 else serial;
    GoVoter(cfg, s.hist, e, i, w, flag, w');
    LiveMove(cfg, s.hist, e, i, w, flag, w');
    if w.pos.at == RUN_SYNC && cfg.asynchronous {
      BothSeen(cfg, s, e, i);
    }
    if Live(w') {
      LiveStart(w);
    }
    VotesMove(cfg, s, s', e, i, w');
  }

  lemma LiveStart(w: Worker)
    requires Live(w)
    ensures w.pos.at == RUN_SYNC || w.pos.at > RUN_SYNC
  {}

  lemma LiveMove(cfg: Config, hist: seq<seq<nat>>, e: nat, i: nat, w: Worker, flag: bool, w': Worker)
    requires WorkerOk(cfg, hist, e, i, w) && w.pos.at != RESET
    requires w'.pos == Go(cfg, IsSender(e, Dir(cfg, i, w.pos.leg)), w, flag).pos
    ensures Live(w') ==> Live(w) && w'.pos.leg == w.pos.leg && w'.pos.round == w.pos.round
  {
    hide DataOk, PastOk, WaitsOk, RoundOk;
    if Live(w') {
      GoLive(cfg, IsSender(e, Dir(cfg, i, w.pos.leg)), w, flag);
    }
  }

  lemma WaitCounts(cfg: Config, s: State, s': State, e: nat, i: nat, b: nat)
    requires Inv(cfg, s) && Shape(cfg, s') && Id(cfg, e, i) && b < 3
    requires Next(cfg, e, i, s.ws[e][i]) == Wait(b) && MayLeave(cfg, s, e, i, b) && |s.ws[e][i].waits| == 3
    requires !WaitAborts(s.ws[e][i], s.sh[e].count[Dir(cfg, i, s.ws[e][i].pos.leg)])
    requires Moved(cfg, s, s', e, i, AfterWait(cfg, e, i, s.ws[e][i], b, IsSerial(cfg, s, e, i, b))) && s'.sh == s.sh && s'.hist == s.hist
    ensures Counts(cfg, s', 0) && Counts(cfg, s', 1)
  {
    hide WorkerOk, MayLeave, Counts, Barriers, Votes, Connections, FlagOk, IsSerial, WaitAborts, StageOn,
      ReportAfterWait;
    var w := s.ws[e][i];
    assert WorkerOk(cfg, s.hist, e, i, w);
    var serial := IsSerial(cfg, s, e, i, b);
    var w' := AfterWait(cfg, e, i, w, b, serial);
    var flag := if w.pos.at == RUN_SYNC then w.count == 0 else serial;
    WaitFlag(cfg, s.hist, e, i, w, b, serial);
    if w.pos.at == COUNT_SET || w.pos.at == GROW_SYNC {
      SenderPoint(cfg, s.hist, e, i, w);
      var d := Dir(cfg, i, w.pos.leg);
      CountsLeave(cfg, s, s', d, i, w');
      OtherCountUntouched(cfg, s, s', 1 - d, e, i, flag, w');
    } else if AfterWrite(w) {
      SenderPoint(cfg, s.hist, e, i, w);
      var d := Dir(cfg, i, w.pos.leg);
      FirstRound(cfg, s.hist, e, i, w);
      CountsOpen(cfg, s, s', d, i, w');
      OtherCountUntouched(cfg, s, s', 1 - d, e, i, flag, w');
    } else {
      WaitingIsNotWriting(cfg, e, i, w, b);
      CountsUntouched(cfg, s, s', e, i, flag, w');
    }
  }

  lemma WaitingIsNotWriting(cfg: Config, e: nat, i: nat, w: Worker, b: nat)
    requires Next(cfg, e, i, w) == Wait(b)
    ensures !Writing(w)
  {}

  lemma FirstRound(cfg: Config, hist: seq<seq<nat>>, e: nat, i: nat, w: Worker)
    requires WorkerOk(cfg, hist, e, i, w)
    ensures w.pos.at <= COUNT_SYNC ==> w.pos.round == 0
  {
    hide DataOk, PastOk, WaitsOk, RoundOk, StageAt;
  }

  lemma WaitsShape(cfg: Config, s: State, e: nat, i: nat)
    requires Shape(cfg, s) && Id(cfg, e, i) && Workers(cfg, s)
    ensures |s.ws[e][i].waits| == 3 && |s.ws[e][i].reports| == 2 && WorkerOk(cfg, s.hist, e, i, s.ws[e][i])
  {
    hide WorkerOk;
  }

  lemma StepWaitKeeps(cfg: Config, s: State, e: nat, i: nat, b: nat)
    requires Inv(cfg, s) && Id(cfg, e, i) && b < 3
    requires Next(cfg, e, i, s.ws[e][i]) == Wait(b) && MayLeave(cfg, s, e, i, b)
    ensures Inv(cfg, StepWait(cfg, s, e, i, b))
  {
    hide WorkerOk, MayLeave, Counts, Barriers, Votes, Connections, IsSerial, WaitAborts, Next;
    WaitsShape(cfg, s, e, i);
    var s' := StepWait(cfg, s, e, i, b);
    var w := s.ws[e][i];
    if WaitAborts(w, s.sh[e].count[Dir(cfg, i, w.pos.leg)]) {
      AbortKeeps(cfg, s, s');
    } else {
      var serial := IsSerial(cfg, s, e, i, b);
      var w' := AfterWait(cfg, e, i, w, b, serial);
      assert Moved(cfg, s, s', e, i, w');
      WaitReadyHolds(cfg, s, e, i, b);
      WaitKeeps(cfg, s.hist, e, i, w, b, serial);
      WorkersMoved(cfg, s, s', e, i, w');
      ConnectionsMoved(cfg, s, s', e, i, w');
      BarriersKept(cfg, s, s', e, i, w');
      WaitVotes(cfg, s, s', e, i, b, serial);
      WaitCounts(cfg, s, s', e, i, b);
    }
  }

  lemma AbortKeeps(cfg: Config, s: State, s': State)
    requires Inv(cfg, s) && s' == s.(aborted := true)
    ensures Inv(cfg, s')
  {
    hide WorkerOk, Sees, Aligned, GenerationOk, HistoryOk, Chain, NextSend, NextReceive;
    forall i | 0 <= i < cfg.workers ensures Connected(cfg, s', i) {
      assert Connected(cfg, s, i);
    }
  }

  // --- sends and receives

  /** A message step touches neither the counters nor the count barriers. */
  lemma MessageKeeps(cfg: Config, s: State, s': State, e: nat, i: nat, w': Worker)
    requires Inv(cfg, s) && Shape(cfg, s') && Id(cfg, e, i)
    requires Next(cfg, e, i, s.ws[e][i]) == Send || Next(cfg, e, i, s.ws[e][i]) == Receive
    requires var w := s.ws[e][i];
             && w'.pos == Go(cfg, IsSender(e, Dir(cfg, i, w.pos.leg)), w, false).pos
             && w'.prev == Go(cfg, IsSender(e, Dir(cfg, i, w.pos.leg)), w, false).prev
             && w'.waits == w.waits
    requires Moved(cfg, s, s', e, i, w') && s'.hist == s.hist && s'.sh == s.sh
    ensures Barriers(cfg, s') && Votes(cfg, s') && Counts(cfg, s', 0) && Counts(cfg, s', 1)
  {
    hide WorkerOk, Counts, Barriers, Votes, Connections, FlagOk, Go, SameVoter, Live;
    var w := s.ws[e][i];
    WaitsShape(cfg, s, e, i);
    MessagePoint(cfg, e, i, w);
    GoVoter(cfg, s.hist, e, i, w, false, w');
    LiveMove(cfg, s.hist, e, i, w, false, w');
    if Live(w') { LiveStart(w); }
    VotesMove(cfg, s, s', e, i, w');
    CountsUntouched(cfg, s, s', e, i, false, w');
    BarriersKept(cfg, s, s', e, i, w');
  }

  lemma MessagePoint(cfg: Config, e: nat, i: nat, w: Worker)
    requires Next(cfg, e, i, w) == Send || Next(cfg, e, i, w) == Receive
    ensures w.pos.at != RUN_SYNC && w.pos.at != READ_WEAK && w.pos.at != DECIDE && w.pos.at != DONE && w.pos.at != WEAK
    ensures w.pos.at != RESET && w.pos.at != COUNT_SET && w.pos.at != GROW_SYNC && !AfterWrite(w) && !Writing(w)
    ensures FlagOk(cfg, w.pos, w.count, false)
  {}

  lemma StepSendKeeps(cfg: Config, s: State, e: nat, i: nat)
    requires Inv(cfg, s) && Id(cfg, e, i) && Next(cfg, e, i, s.ws[e][i]) == Send
    ensures Inv(cfg, StepSend(cfg, s, e, i))
  {
    hide WorkerOk, Counts, Barriers, Votes, Connections, Outgoing;
    WaitsShape(cfg, s, e, i);
    var s' := StepSend(cfg, s, e, i);
    var w := s.ws[e][i];
    var count := s.sh[e].count[Dir(cfg, i, w.pos.leg)];
    var m := Outgoing(cfg, i, w, count);
    var w' := AfterSend(cfg, e, i, w, m);
    assert Moved(cfg, s, s', e, i, w');
    SendCount(cfg, s, e, i);
    hide Next;
    SendKeeps(cfg, s.hist, e, i, w, count);
    WorkersMoved(cfg, s, s', e, i, w');
    ConnectionsSent(cfg, s, s', e, i, w', m);
    MessageKeeps(cfg, s, s', e, i, w');
  }

  lemma SendCount(cfg: Config, s: State, e: nat, i: nat)
    requires Inv(cfg, s) && Id(cfg, e, i) && Next(cfg, e, i, s.ws[e][i]) == Send
    ensures var d := Dir(cfg, i, s.ws[e][i].pos.leg);
            s.ws[e][i].pos.at == NEGOTIATE ==> s.sh[e].count[d] == CountOf(s.hist, d, s.ws[e][i].pos.round)
  {
    hide WorkerOk, Counts, Barriers, Votes, Connections;
    var d := Dir(cfg, i, s.ws[e][i].pos.leg);
    if s.ws[e][i].pos.at == NEGOTIATE {
      CountRead(cfg, s, d, i);
    }
  }

  lemma AfterReceiveShape(cfg: Config, e: nat, i: nat, w: Worker, m: Msg)
    requires |w.reports| == 2
    ensures var w' := AfterReceive(cfg, e, i, w, m);
            && w'.pos == Go(cfg, IsSender(e, Dir(cfg, i, w.pos.leg)), w, false).pos
            && w'.prev == Go(cfg, IsSender(e, Dir(cfg, i, w.pos.leg)), w, false).prev
            && w'.waits == w.waits && |w'.reports| == 2
  {
    hide StageOn, Advance;
  }

  lemma AcceptedKeeps(cfg: Config, s: State, e: nat, i: nat)
    requires Inv(cfg, s) && Id(cfg, e, i) && Next(cfg, e, i, s.ws[e][i]) == Receive && |s.q[Peer(e)][i]| > 0
    requires !ReceiveAborts(s.ws[e][i], s.q[Peer(e)][i][0])
    ensures Inv(cfg, StepReceive(cfg, s, e, i))
  {
    hide WorkerOk, Counts, Barriers, Votes, Connections, Faulty, ReceiveAborts, MsgOf, AfterReceive, HasCount,
      NextReceive, NextSend;
    var s' := StepReceive(cfg, s, e, i);
    var w := s.ws[e][i];
    WaitsShape(cfg, s, e, i);
    HeadExpected(cfg, s, e, i);
    CountsPositive(cfg, s);
    AfterReceiveShape(cfg, e, i, w, s.q[Peer(e)][i][0]);
    ReceiveKeeps(cfg, s.hist, e, i, w);
    hide Next;
    var w' := AfterReceive(cfg, e, i, w, s.q[Peer(e)][i][0]);
    assert Moved(cfg, s, s', e, i, w');
    WorkersMoved(cfg, s, s', e, i, w');
    ConnectionsReceived(cfg, s, s', e, i, w');
    MessageKeeps(cfg, s, s', e, i, w');
  }

  lemma StepReceiveKeeps(cfg: Config, s: State, e: nat, i: nat)
    requires Inv(cfg, s) && Id(cfg, e, i) && Next(cfg, e, i, s.ws[e][i]) == Receive && |s.q[Peer(e)][i]| > 0
    ensures Inv(cfg, StepReceive(cfg, s, e, i))
  {
    hide WorkerOk, Counts, Barriers, Votes, Connections, Faulty, ReceiveAborts, MsgOf, AfterReceive, Next;
    WaitsShape(cfg, s, e, i);
    HeadExpected(cfg, s, e, i);
    NotFaulty(cfg, s.hist, e, i, s.ws[e][i]);
    if ReceiveAborts(s.ws[e][i], s.q[Peer(e)][i][0]) {
      AbortKeeps(cfg, s, StepReceive(cfg, s, e, i));
    } else {
      AcceptedKeeps(cfg, s, e, i);
    }
  }

  lemma CountsPositive(cfg: Config, s: State)
    requires Inv(cfg, s)
    ensures forall d, r :: 0 <= d < 2 && 0 <= r < |s.hist[d]| ==> s.hist[d][r] > 0
  {
    hide WorkerOk, Barriers, Votes, Connections, GenerationOk;
  }

  // --- local steps

  lemma StepLocalKeeps(cfg: Config, s: State, e: nat, i: nat)
    requires Inv(cfg, s) && Id(cfg, e, i) && Next(cfg, e, i, s.ws[e][i]) == Local
    ensures Inv(cfg, StepLocal(cfg, s, e, i))
  {
    hide WorkerOk, Counts, Barriers, Votes, Connections, SharedAfterLocal, LocalReady;
    WaitsShape(cfg, s, e, i);
    var s' := StepLocal(cfg, s, e, i);
    var w := s.ws[e][i];
    var sh := s.sh[e];
    var w' := AfterLocal(cfg, e, i, w, sh);
    LocalShared(cfg, i, w, sh);
    assert Shape(cfg, s') && Moved(cfg, s, s', e, i, w') && Extends(s.hist, s'.hist);
    LocalReadyHolds(cfg, s, e, i);
    hide Next;
    LocalKeeps(cfg, s.hist, e, i, w, sh);
    WorkerExtends(cfg, s.hist, s'.hist, e, i, w');
    WorkersMoved(cfg, s, s', e, i, w');
    ConnectionsMoved(cfg, s, s', e, i, w');
    BarriersKept(cfg, s, s', e, i, w');
    LocalVotes(cfg, s, s', e, i);
    LocalCounts(cfg, s, s', e, i);
  }

  lemma LocalShared(cfg: Config, i: nat, w: Worker, sh: Shared)
    requires |sh.imWeak| == 2 && |sh.weakTime| == 2 && |sh.count| == 2
    ensures var sh' := SharedAfterLocal(cfg, i, w, sh);
            && |sh'.imWeak| == 2 && |sh'.weakTime| == 2 && |sh'.count| == 2
            && sh'.count[1 - Dir(cfg, i, w.pos.leg)] == sh.count[1 - Dir(cfg, i, w.pos.leg)]
            && (!Writing(w) ==> sh'.count == sh.count)
            && (w.pos.at != RESET && w.pos.at != WEAK ==> sh'.weak == sh.weak && sh'.imWeak == sh.imWeak && sh'.weakTime == sh.weakTime)
  {}

  lemma LocalReadyHolds(cfg: Config, s: State, e: nat, i: nat)
    requires Inv(cfg, s) && Id(cfg, e, i) && Next(cfg, e, i, s.ws[e][i]) == Local
    ensures LocalReady(cfg, s.hist, i, s.ws[e][i], s.sh[e])
  {
    hide WorkerOk, Counts, Barriers, Votes, Connections, Next;
    var w := s.ws[e][i];
    WaitsShape(cfg, s, e, i);
    if w.pos.at == CALL {
      SenderPoint(cfg, s.hist, e, i, w);
      CountRead(cfg, s, Dir(cfg, i, w.pos.leg), i);
    } else if w.pos.at == READ_WEAK || w.pos.at == DECIDE {
      DecisionIsReference(cfg, s, e, i);
    }
  }

  function LocalFlag(cfg: Config, i: nat, w: Worker, sh: Shared): bool
    requires |sh.imWeak| == 2
  {
    if w.pos.at == READ_WEAK then sh.weak > 0 else NeedsRestart(cfg, sh, Dir(cfg, i, w.pos.leg))
  }

  lemma LocalFlagOk(cfg: Config, s: State, e: nat, i: nat)
    requires Inv(cfg, s) && Id(cfg, e, i) && Next(cfg, e, i, s.ws[e][i]) == Local
    ensures FlagOk(cfg, s.ws[e][i].pos, s.ws[e][i].count, LocalFlag(cfg, i, s.ws[e][i], s.sh[e]))
    ensures s.ws[e][i].pos.at != DONE && s.ws[e][i].pos.at != COUNT_SET && s.ws[e][i].pos.at != GROW_SYNC && !AfterWrite(s.ws[e][i])
  {
    hide WorkerOk, Counts, Barriers, Votes, Connections;
    LocalReadyHolds(cfg, s, e, i);
  }

  lemma LocalVotes(cfg: Config, s: State, s': State, e: nat, i: nat)
    requires Inv(cfg, s) && Shape(cfg, s') && Id(cfg, e, i) && Next(cfg, e, i, s.ws[e][i]) == Local
    requires Moved(cfg, s, s', e, i, AfterLocal(cfg, e, i, s.ws[e][i], s.sh[e]))
    requires s'.sh == s.sh[e := SharedAfterLocal(cfg, i, s.ws[e][i], s.sh[e])]
    ensures Votes(cfg, s')
  {
    hide WorkerOk, Counts, Barriers, Votes, Connections, FlagOk, SameVoter, Live, LocalFlag, SharedAfterLocal, Next;
    var w := s.ws[e][i];
    WaitsShape(cfg, s, e, i);
    var w' := AfterLocal(cfg, e, i, w, s.sh[e]);
    var flag := LocalFlag(cfg, i, w, s.sh[e]);
    LocalFlagOk(cfg, s, e, i);
    LocalGo(cfg, s.hist, e, i, w, s.sh[e]);
    if w.pos.at == WEAK {
      VotesCast(cfg, s, s', e, i, w');
    } else {
      GoVoter(cfg, s.hist, e, i, w, flag, w');
      if w.pos.at == RESET {
        VotesReset(cfg, s, s', e, i, w');
      } else {
        LocalShared(cfg, i, w, s.sh[e]);
        LiveMove(cfg, s.hist, e, i, w, flag, w');
        LocalPastRun(cfg, e, i, w);
        VotesMove(cfg, s, s', e, i, w');
      }
    }
  }

  lemma LocalPastRun(cfg: Config, e: nat, i: nat, w: Worker)
    requires Next(cfg, e, i, w) == Local
    ensures Live(w) ==> w.pos.at > RUN_SYNC
  {}

  lemma LocalGo(cfg: Config, hist: seq<seq<nat>>, e: nat, i: nat, w: Worker, sh: Shared)
    requires WorkerOk(cfg, hist, e, i, w) && |sh.imWeak| == 2 && |sh.count| == 2 && Next(cfg, e, i, w) == Local
    ensures var w' := AfterLocal(cfg, e, i, w, sh);
            var go := Go(cfg, IsSender(e, Dir(cfg, i, w.pos.leg)), w, LocalFlag(cfg, i, w, sh));
            && w'.pos == go.pos && w'.prev == go.prev
            && (w.pos.at == RESET ==> w'.pos == w.pos.(at := RUN_SYNC))
            && (w.pos.at == WEAK || Writing(w) ==> w'.pos == w.pos.(at := w.pos.at + 1))
  {
    hide DataOk, PastOk, RoundOk, StageAt, WaitsOk;
  }

  lemma LocalCounts(cfg: Config, s: State, s': State, e: nat, i: nat)
    requires Inv(cfg, s) && Shape(cfg, s') && Id(cfg, e, i) && Next(cfg, e, i, s.ws[e][i]) == Local
    requires Moved(cfg, s, s', e, i, AfterLocal(cfg, e, i, s.ws[e][i], s.sh[e]))
    requires s'.sh == s.sh[e := SharedAfterLocal(cfg, i, s.ws[e][i], s.sh[e])]
    requires var d := Dir(cfg, i, s.ws[e][i].pos.leg);
             s'.hist == if Writing(s.ws[e][i]) then s.hist[d := s.hist[d] + [s'.sh[e].count[d]]] else s.hist
    ensures Counts(cfg, s', 0) && Counts(cfg, s', 1)
  {
    hide WorkerOk, Counts, Barriers, Votes, Connections, FlagOk, LocalFlag, SharedAfterLocal, Next, HistoryOk,
      Go, AfterLocal;
    var w := s.ws[e][i];
    WaitsShape(cfg, s, e, i);
    var w' := AfterLocal(cfg, e, i, w, s.sh[e]);
    var flag := LocalFlag(cfg, i, w, s.sh[e]);
    LocalFlagOk(cfg, s, e, i);
    LocalGo(cfg, s.hist, e, i, w, s.sh[e]);
    LocalShared(cfg, i, w, s.sh[e]);
    if Writing(w) {
      var d := Dir(cfg, i, w.pos.leg);
      SenderPoint(cfg, s.hist, e, i, w);
      HistoryGrows(cfg, s, d, i);
      CountsWrite(cfg, s, s', d, i, w');
      OtherCountUntouched(cfg, s, s', 1 - d, e, i, flag, w');
    } else {
      CountsUntouched(cfg, s, s', e, i, flag, w');
    }
  }

  /** Every step of every worker keeps the invariant. */
  lemma StepKeeps(cfg: Config, s: State, e: nat, i: nat)
    requires Inv(cfg, s) && Id(cfg, e, i) && CanStep(cfg, s, e, i)
    ensures Inv(cfg, Step(cfg, s, e, i))
  {
    hide Workers, Connections, Barriers, Votes, Counts, MayLeave, Next, StepWait, StepSend, StepReceive, StepLocal;
    match Next(cfg, e, i, s.ws[e][i]) {
      case Wait(b) => StepWaitKeeps(cfg, s, e, i, b);
      case Send => StepSendKeeps(cfg, s, e, i);
      case Receive => StepReceiveKeeps(cfg, s, e, i);
      case Local => StepLocalKeeps(cfg, s, e, i);
      case Stop =>
    }
  }
}
