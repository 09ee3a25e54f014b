/** What every worker's own fields satisfy at each point, and how one step keeps it. */
module TalkWorker {
  import opened Growth
  import opened TalkModel
  import opened TalkEvents

  function StageAt(at: Point): Stage {
    if at <= COUNT_SYNC then Handshake
    else if at == NEGOTIATE then Negotiation
    else if at <= GROW_SYNC_2 then Stream
    else if at == REPORT then ReportExchange
    else Finishing
  }

  // --- positions

  predicate PlaceOk(cfg: Config, sender: bool, p: Position, count: nat) {
    && p.leg < Legs(cfg)
    && (p.at == SHAKE ==> p.idx < 2 * cfg.iterations)
    && (p.at == RUN ==> p.idx < count)
    && (p.at != SHAKE && p.at != RUN ==> p.idx == 0)
    && (COUNT_SET <= p.at <= COUNT_SYNC || p.at == CALL || GROW_SYNC <= p.at <= GROW_SYNC_2 ==> sender)
    && (p.at == END_SYNC_ALL ==> cfg.asynchronous)
    && (p.at <= COUNT_SYNC ==> p.round == 0)
    && (p.at == DONE ==> p.leg + 1 == Legs(cfg))
  }

  /** A worker is in a round only when all rounds before it were restarted, and past the stream only when this one is not. */
  predicate RoundOk(cfg: Config, p: Position) {
    && (forall r :: 0 <= r < p.round ==> Restart(cfg, p.leg, r))
    && (GROW_SYNC <= p.at <= GROW_SYNC_2 ==> Restart(cfg, p.leg, p.round))
    && (p.at >= REPORT ==> !Restart(cfg, p.leg, p.round))
  }

  /** The branch taken at a point agrees with the count and with the reference decision. */
  predicate FlagOk(cfg: Config, p: Position, count: nat, flag: bool) {
    && (p.at == RUN_SYNC ==> count > 0 && !flag)
    && (p.at == READ_WEAK && !flag ==> !Restart(cfg, p.leg, p.round))
    && (p.at == DECIDE ==> flag == Restart(cfg, p.leg, p.round))
  }

  predicate LeavesLeg(cfg: Config, p: Position) { p.at == FINISH && p.leg + 1 < Legs(cfg) }

  lemma AdvancePlace(cfg: Config, sender: bool, p: Position, count: nat, flag: bool)
    requires ValidConfig(cfg) && PlaceOk(cfg, sender, p, count) && p.at != DONE
    requires p.at == RUN_SYNC ==> count > 0 && !flag
    ensures var p' := Advance(cfg, sender, p, count, flag);
            && PlaceOk(cfg, if LeavesLeg(cfg, p) then !sender else sender, p', count)
            && p'.leg == if LeavesLeg(cfg, p) then p.leg + 1 else p.leg
  {}

  lemma AdvanceRound(cfg: Config, sender: bool, p: Position, count: nat, flag: bool)
    requires ValidConfig(cfg) && PlaceOk(cfg, sender, p, count) && p.at != DONE
    requires RoundOk(cfg, p) && FlagOk(cfg, p, count, flag)
    ensures var p' := Advance(cfg, sender, p, count, flag);
            && RoundOk(cfg, p')
            && (LeavesLeg(cfg, p) ==> LastRound(cfg, p.leg, p.round))
  {}

  lemma AdvanceStage(cfg: Config, sender: bool, p: Position, count: nat, flag: bool)
    requires ValidConfig(cfg) && PlaceOk(cfg, sender, p, count) && p.at != DONE
    ensures var p' := Advance(cfg, sender, p, count, flag);
            StageOn(p'.at, StageAt(p.at)) == StageAt(p'.at)
  {}

  // --- completed waits per barrier, as a function of the position

  function MainWaits(at: Point, round: nat): nat {
    if at == INIT then 0
    else 5 * round + if at <= RESET_SYNC then 1 else if at <= RUN_SYNC then 2 else if at <= END_SYNC_ALL then 3
                     else if at <= WEAK_SYNC then 4 else if at <= WEAK_SYNC_2 then 5 else 6
  }

  function SenderWaits(at: Point, round: nat): nat {
    if at == INIT then 0
    else 7 * round + if at <= COUNT_SET then 1 else if at <= COUNT_SYNC then 2 else if at <= RESET_SYNC then 3
                     else if at <= RUN_SYNC then 4 else if at <= END_SYNC_ALL then 5 else if at <= WEAK_SYNC then 6
                     else if at <= WEAK_SYNC_2 then 7 else if at <= GROW_SYNC then 8 else if at <= GROW_SYNC_2 then 9 else 8
  }

  function DirectionWaits(sender: bool, at: Point, round: nat): nat {
    if sender then
      3 * round + if at <= COUNT_SET then 0 else if at <= COUNT_SYNC then 1 else if at <= END_SYNC then 2
                  else if at <= GROW_SYNC then 3 else if at <= GROW_SYNC_2 then 4 else 3
    else round + if at <= END_SYNC then 0 else 1
  }

  /** Waits completed in the current leg on barrier 2 (asynchronous mode) or on the barrier of direction d. */
  function LegWaits(asynchronous: bool, sender: bool, two: bool, at: Point, round: nat): nat {
    if asynchronous then (if two then MainWaits(at, round) else DirectionWaits(sender, at, round))
    else if sender then SenderWaits(at, round) else MainWaits(at, round)
  }

  lemma AdvanceWaitsSync(cfg: Config, sender: bool, d: nat, p: Position, count: nat, flag: bool)
    requires ValidConfig(cfg) && !cfg.asynchronous && d < 2 && PlaceOk(cfg, sender, p, count)
    requires p.at != DONE && !LeavesLeg(cfg, p)
    ensures var p' := Advance(cfg, sender, p, count, flag);
            LegWaits(false, sender, false, p'.at, p'.round) ==
            LegWaits(false, sender, false, p.at, p.round) + if ActAt(cfg, sender, d, p.at, p.idx) == Wait(d) then 1 else 0
  {
    if sender {} else {}
  }

  lemma AdvanceWaitsAsync(cfg: Config, sender: bool, d: nat, two: bool, p: Position, count: nat, flag: bool)
    requires ValidConfig(cfg) && cfg.asynchronous && d < 2 && PlaceOk(cfg, sender, p, count) && p.at != DONE
    ensures var p' := Advance(cfg, sender, p, count, flag);
            LegWaits(true, sender, two, p'.at, p'.round) ==
            LegWaits(true, sender, two, p.at, p.round) +
            if ActAt(cfg, sender, d, p.at, p.idx) == Wait(if two then 2 else d) then 1 else 0
  {
    if two {} else if sender {} else {}
  }

  // --- events

  predicate CountKnown(cfg: Config, hist: seq<seq<nat>>, i: nat, p: Position, count: nat) {
    p.at == RUN ==> count == CountOf(hist, Dir(cfg, i, p.leg), p.round)
  }

  /** Only its own send moves the sender on to its next message, only its own receive moves the receiver
      on to the next message it expects from the sender. */
  lemma AdvanceFromSender(cfg: Config, hist: seq<seq<nat>>, sender: bool, i: nat, p: Position, count: nat, flag: bool)
    requires ValidConfig(cfg) && PlaceOk(cfg, sender, p, count) && p.at != DONE && !LeavesLeg(cfg, p)
    requires RoundOk(cfg, p) && FlagOk(cfg, p, count, flag) && CountKnown(cfg, hist, i, p, count)
    ensures var ev := FirstFromSender(cfg, p);
            var ev' := FirstFromSender(cfg, Advance(cfg, sender, p, count, flag));
            if ActAt(cfg, sender, 0, p.at, p.idx) == (if sender then Send else Receive)
            then ev == p && ev' == Succ(cfg, hist, i, ev)
            else ev' == ev
  {}

  lemma AdvanceFromReceiver(cfg: Config, hist: seq<seq<nat>>, sender: bool, i: nat, p: Position, count: nat, flag: bool)
    requires ValidConfig(cfg) && PlaceOk(cfg, sender, p, count) && p.at != DONE && !LeavesLeg(cfg, p)
    requires RoundOk(cfg, p) && FlagOk(cfg, p, count, flag) && CountKnown(cfg, hist, i, p, count)
    ensures var ev := FirstFromReceiver(cfg, p);
            var ev' := FirstFromReceiver(cfg, Advance(cfg, sender, p, count, flag));
            if ActAt(cfg, sender, 0, p.at, p.idx) == (if sender then Receive else Send)
            then ev == p && ev' == Succ(cfg, hist, i, ev)
            else ev' == ev
  {}

  /** When a leg is left for the next one, the roles swap and so do the two message streams. */
  lemma LeaveEvents(cfg: Config, hist: seq<seq<nat>>, sender: bool, i: nat, p: Position, count: nat, flag: bool)
    requires ValidConfig(cfg) && LeavesLeg(cfg, p) && p.idx == 0
    ensures var p' := Advance(cfg, sender, p, count, flag);
            && FirstFromReceiver(cfg, p') == Succ(cfg, hist, i, FirstFromSender(cfg, p))
            && FirstFromSender(cfg, p') == FirstFromReceiver(cfg, p)
            && FirstFromSender(cfg, p) == p
  {}

  // --- the whole worker

  predicate WaitsOk(cfg: Config, e: nat, i: nat, w: Worker) {
    var d := Dir(cfg, i, w.pos.leg);
    var sender := IsSender(e, d);
    && |w.waits| == 3
    && w.waits[d] == LegWaits(cfg.asynchronous, sender, false, w.pos.at, w.pos.round)
    && if cfg.asynchronous then w.waits[2] == LegWaits(true, sender, true, w.pos.at, w.pos.round)
       else w.waits[1 - d] == if w.pos.leg == 0 then 0 else LegWaits(false, !sender, false, DONE, w.prev)
  }

  predicate KnowsCount(sender: bool, at: Point) { at >= if sender then NEGOTIATE else START }

  /** The receiver has accepted the count of the round, and the sender has heard of it. */
  predicate Accepted(sender: bool, at: Point) { at > START || (at == START && !sender) }

  /** What a worker knows of the counts of the current direction. */
  predicate CountOk(cfg: Config, hist: seq<seq<nat>>, i: nat, sender: bool, w: Worker)
    requires |hist| == 2
  {
    var d := Dir(cfg, i, w.pos.leg);
    var at, round := w.pos.at, w.pos.round;
    && Below(hist, d, if Accepted(sender, at) then round + 1 else round)
    && (KnowsCount(sender, at) ==> round < |hist[d]| && hist[d][round] <= COUNT_MAX)
    && (START <= at <= END_SYNC ==> w.count == CountOf(hist, d, round) && 0 < w.count <= COUNT_MAX)
  }

  /** What it has received in the stream of the round, and the verdict it knows. */
  predicate StreamOk(cfg: Config, i: nat, sender: bool, w: Worker) {
    var d := Dir(cfg, i, w.pos.leg);
    && (!sender && RUN <= w.pos.at <= END_SYNC ==>
          var n := if w.pos.at == RUN then w.pos.idx else w.count; w.got == n && w.bytes == n * cfg.payload)
    && (w.pos.at == WEAK_SYNC || w.pos.at == WEAK ==>
          && w.weak == WeakConnection(cfg, d, w.pos.round, i)
          && (w.weak ==> w.weakTime == cfg.duration(d, w.pos.round, i)))
  }

  /** What it has gathered for the record of the current direction. */
  predicate ReportOk(cfg: Config, hist: seq<seq<nat>>, i: nat, sender: bool, w: Worker)
    requires |w.reports| == 2
  {
    var d := Dir(cfg, i, w.pos.leg);
    var at, round := w.pos.at, w.pos.round;
    var r := w.reports[d];
    if sender then
      && (at >= COUNT_SET ==> r.latency == cfg.latency(d, i))
      && (at >= FINISH ==> r == RecordOf(cfg, hist, d, round, i))
    else
      && (at >= START ==> r.latency == cfg.latency(d, i) && r.count == CountOf(hist, d, round))
      && (at >= RUN ==> r.start == cfg.began(d, round, i))
      && (at >= END_SYNC_ALL ==> r == RecordOf(cfg, hist, d, round, i))
  }

  predicate DataOk(cfg: Config, hist: seq<seq<nat>>, i: nat, sender: bool, w: Worker)
    requires |hist| == 2 && |w.reports| == 2
  {
    CountOk(cfg, hist, i, sender, w) && StreamOk(cfg, i, sender, w) && ReportOk(cfg, hist, i, sender, w)
  }

  /** The record of the leg before stays complete; before a second leg the other direction has none. */
  predicate PastOk(cfg: Config, hist: seq<seq<nat>>, i: nat, w: Worker)
    requires |hist| == 2 && |w.reports| == 2
  {
    if w.pos.leg == 0 then w.reports[1 - Dir(cfg, i, 0)] == EMPTY_RECORD
    else
      var d := Dir(cfg, i, w.pos.leg - 1);
      && LastRound(cfg, w.pos.leg - 1, w.prev)
      && Below(hist, d, w.prev + 1)
      && w.reports[d] == RecordOf(cfg, hist, d, w.prev, i)
  }

  predicate WorkerOk(cfg: Config, hist: seq<seq<nat>>, e: nat, i: nat, w: Worker) {
    var sender := IsSender(e, Dir(cfg, i, w.pos.leg));
    && |w.reports| == 2 && |hist| == 2
    && WaitsOk(cfg, e, i, w)
    && PlaceOk(cfg, sender, w.pos, w.count)
    && w.stage == StageAt(w.pos.at)
    && RoundOk(cfg, w.pos)
    && DataOk(cfg, hist, i, sender, w)
    && PastOk(cfg, hist, i, w)
  }

  lemma WorkerExtends(cfg: Config, h: seq<seq<nat>>, h': seq<seq<nat>>, e: nat, i: nat, w: Worker)
    requires WorkerOk(cfg, h, e, i, w) && Extends(h, h')
    ensures WorkerOk(cfg, h', e, i, w)
  {
    CountExtends(h, h', Dir(cfg, i, w.pos.leg), w.pos.round);
    if w.pos.leg > 0 {
      CountExtends(h, h', Dir(cfg, i, w.pos.leg - 1), w.prev);
    }
  }

  /** Everything but the data, for a step that moves on by Go. */
  lemma GoKeeps(cfg: Config, hist: seq<seq<nat>>, e: nat, i: nat, w: Worker, flag: bool)
    requires ValidConfig(cfg) && e < 2 && i < cfg.workers && WorkerOk(cfg, hist, e, i, w)
    requires w.pos.at != DONE && !LeavesLeg(cfg, w.pos) && FlagOk(cfg, w.pos, w.count, flag)
    ensures var sender := IsSender(e, Dir(cfg, i, w.pos.leg));
            var w' := Go(cfg, sender, w, flag);
            var act := Next(cfg, e, i, w);
            && w'.pos.leg == w.pos.leg < Legs(cfg) && w'.prev == w.prev
            && PlaceOk(cfg, sender, w'.pos, w'.count) && w'.stage == StageAt(w'.pos.at) && RoundOk(cfg, w'.pos)
            && (if act == Send then NextSend(cfg, e, i, w) == w.pos && NextSend(cfg, e, i, w') == Succ(cfg, hist, i, w.pos)
                else NextSend(cfg, e, i, w') == NextSend(cfg, e, i, w))
            && (if act == Receive then NextReceive(cfg, e, i, w) == w.pos && NextReceive(cfg, e, i, w') == Succ(cfg, hist, i, w.pos)
                else NextReceive(cfg, e, i, w') == NextReceive(cfg, e, i, w))
  {
    hide Advance, FirstFromSender, FirstFromReceiver, Succ, RoundOk, PlaceOk, StageAt, StageOn, ActAt, PastOk, WaitsOk;
    var sender := IsSender(e, Dir(cfg, i, w.pos.leg));
    AdvancePlace(cfg, sender, w.pos, w.count, flag);
    AdvanceRound(cfg, sender, w.pos, w.count, flag);
    AdvanceStage(cfg, sender, w.pos, w.count, flag);
    AdvanceFromSender(cfg, hist, sender, i, w.pos, w.count, flag);
    AdvanceFromReceiver(cfg, hist, sender, i, w.pos, w.count, flag);
    ActIgnoresDirection(cfg, sender, Dir(cfg, i, w.pos.leg), w.pos.at, w.pos.idx);
  }

  lemma ActIgnoresDirection(cfg: Config, sender: bool, d: nat, at: Point, idx: nat)
    ensures ActAt(cfg, sender, d, at, idx) == Send <==> ActAt(cfg, sender, 0, at, idx) == Send
    ensures ActAt(cfg, sender, d, at, idx) == Receive <==> ActAt(cfg, sender, 0, at, idx) == Receive
  {}

  lemma GoKeepsWaits(cfg: Config, e: nat, i: nat, w: Worker, flag: bool, w': Worker)
    requires ValidConfig(cfg) && e < 2 && |w.reports| == 2 && WaitsOk(cfg, e, i, w)
    requires PlaceOk(cfg, IsSender(e, Dir(cfg, i, w.pos.leg)), w.pos, w.count)
    requires w.pos.at != DONE && !LeavesLeg(cfg, w.pos)
    requires w'.pos == Advance(cfg, IsSender(e, Dir(cfg, i, w.pos.leg)), w.pos, w.count, flag) && w'.prev == w.prev
    requires match Next(cfg, e, i, w)
             case Wait(b) => b < 3 && w'.waits == w.waits[b := w.waits[b] + 1]
             case _ => w'.waits == w.waits
    ensures WaitsOk(cfg, e, i, w')
  {
    var d := Dir(cfg, i, w.pos.leg);
    var sender := IsSender(e, d);
    if cfg.asynchronous {
      AdvanceWaitsAsync(cfg, sender, d, false, w.pos, w.count, flag);
      AdvanceWaitsAsync(cfg, sender, d, true, w.pos, w.count, flag);
    } else {
      AdvanceWaitsSync(cfg, sender, d, w.pos, w.count, flag);
    }
  }

  /** Nothing recorded about earlier directions changes. */
  predicate SamePast(w: Worker, w': Worker, d: nat)
    requires d < 2
  {
    |w.reports| == |w'.reports| == 2 && w'.pos.leg == w.pos.leg && w'.prev == w.prev && w'.reports[1 - d] == w.reports[1 - d]
  }

  lemma PastKept(cfg: Config, hist: seq<seq<nat>>, i: nat, w: Worker, w': Worker)
    requires ValidConfig(cfg) && |hist| == 2 && |w.reports| == 2
    requires w.pos.leg < Legs(cfg) && PastOk(cfg, hist, i, w) && SamePast(w, w', Dir(cfg, i, w.pos.leg))
    ensures PastOk(cfg, hist, i, w')
  {}

  /** What a step may add to a worker's knowledge of the counts. */
  predicate Learns(cfg: Config, hist: seq<seq<nat>>, i: nat, sender: bool, w: Worker, w': Worker)
    requires |hist| == 2
  {
    var h, at, round := hist[Dir(cfg, i, w.pos.leg)], w.pos.at, w.pos.round;
    && (at == COUNT_SYNC ==> |h| > 0 && h[0] <= COUNT_MAX)
    && (at == GROW_SYNC_2 ==> |h| > round + 1 && h[round + 1] <= COUNT_MAX)
    && (at == START && sender ==> round < |h| && h[round] < COUNT_MAX)
    && (at == NEGOTIATE && !sender ==> round < |h| && w'.count == h[round] && 0 < w'.count < COUNT_MAX)
    && (at == CALL ==> round < |h| && w'.count == h[round] > 0)
    && (at != CALL && at != NEGOTIATE ==> w'.count == w.count)
  }

  lemma AdvanceKeepsCounts(cfg: Config, hist: seq<seq<nat>>, i: nat, sender: bool, w: Worker, flag: bool, w': Worker)
    requires |hist| == 2 && PlaceOk(cfg, sender, w.pos, w.count) && CountOk(cfg, hist, i, sender, w)
    requires !LeavesLeg(cfg, w.pos) && w'.pos == Advance(cfg, sender, w.pos, w.count, flag) && Learns(cfg, hist, i, sender, w, w')
    ensures CountOk(cfg, hist, i, sender, w')
  {
    var d := Dir(cfg, i, w.pos.leg);
    AdvanceAccepts(cfg, sender, w, flag, w');
    assert Below(hist, d, if Accepted(sender, w'.pos.at) then w'.pos.round + 1 else w'.pos.round) by {
      hide Advance, PlaceOk;
    }
    hide Below, Accepted;
  }

  /** The count of a round becomes accepted at START or on its way there, and stays so until the next round. */
  lemma AdvanceAccepts(cfg: Config, sender: bool, w: Worker, flag: bool, w': Worker)
    requires PlaceOk(cfg, sender, w.pos, w.count) && !LeavesLeg(cfg, w.pos)
    requires w'.pos == Advance(cfg, sender, w.pos, w.count, flag)
    ensures w'.pos.leg == w.pos.leg && w.pos.round <= w'.pos.round <= w.pos.round + 1
    ensures w'.pos.round == w.pos.round + 1 ==> Accepted(sender, w.pos.at) && !Accepted(sender, w'.pos.at)
    ensures w'.pos.round == w.pos.round && Accepted(sender, w'.pos.at) && !Accepted(sender, w.pos.at) ==>
              w.pos.at == if sender then START else NEGOTIATE
  {}

  // --- waits

  /** What must already be true of the shared history when a sender leaves its count barriers. */
  predicate WaitReady(cfg: Config, hist: seq<seq<nat>>, i: nat, w: Worker)
    requires |hist| == 2
  {
    var d := Dir(cfg, i, w.pos.leg);
    && (w.pos.at == COUNT_SYNC ==> |hist[d]| > 0 && hist[d][0] <= COUNT_MAX)
    && (w.pos.at == GROW_SYNC_2 ==> |hist[d]| > w.pos.round + 1 && hist[d][w.pos.round + 1] <= COUNT_MAX)
  }

  lemma WaitFlag(cfg: Config, hist: seq<seq<nat>>, e: nat, i: nat, w: Worker, b: nat, serial: bool)
    requires WorkerOk(cfg, hist, e, i, w) && Next(cfg, e, i, w) == Wait(b)
    ensures |w.waits| == 3 && FlagOk(cfg, w.pos, w.count, if w.pos.at == RUN_SYNC then w.count == 0 else serial)
    ensures w.pos.at != DONE && !LeavesLeg(cfg, w.pos)
  {
    hide FirstFromSender, FirstFromReceiver, Succ, RoundOk, StageAt, PastOk, Restart, LegWaits;
  }

  lemma WaitKeeps(cfg: Config, hist: seq<seq<nat>>, e: nat, i: nat, w: Worker, b: nat, serial: bool)
    requires ValidConfig(cfg) && e < 2 && i < cfg.workers && WorkerOk(cfg, hist, e, i, w)
    requires Next(cfg, e, i, w) == Wait(b) && b < 3 && WaitReady(cfg, hist, i, w)
    ensures var w' := AfterWait(cfg, e, i, w, b, serial);
            && WorkerOk(cfg, hist, e, i, w') && w'.pos.leg == w.pos.leg
            && NextSend(cfg, e, i, w') == NextSend(cfg, e, i, w)
            && NextReceive(cfg, e, i, w') == NextReceive(cfg, e, i, w)
  {
    hide Advance, FirstFromSender, FirstFromReceiver, Succ, RoundOk, PlaceOk, StageAt, StageOn, PastOk,
      Restart, DataOk, WaitsOk, ActAt;
    WaitFlag(cfg, hist, e, i, w, b, serial);
    var flag := if w.pos.at == RUN_SYNC then w.count == 0 else serial;
    GoKeeps(cfg, hist, e, i, w, flag);
    GoKeepsWaits(cfg, e, i, w, flag, AfterWait(cfg, e, i, w, b, serial));
    WaitKeepsData(cfg, hist, e, i, w, b, serial);
    PastKept(cfg, hist, i, w, AfterWait(cfg, e, i, w, b, serial));
  }

  lemma WaitKeepsData(cfg: Config, hist: seq<seq<nat>>, e: nat, i: nat, w: Worker, b: nat, serial: bool)
    requires ValidConfig(cfg) && e < 2 && i < cfg.workers && WorkerOk(cfg, hist, e, i, w)
    requires Next(cfg, e, i, w) == Wait(b) && b < 3 && WaitReady(cfg, hist, i, w)
    ensures var w' := AfterWait(cfg, e, i, w, b, serial);
            DataOk(cfg, hist, i, IsSender(e, Dir(cfg, i, w.pos.leg)), w') && SamePast(w, w', Dir(cfg, i, w.pos.leg))
  {
    hide FirstFromSender, FirstFromReceiver, Succ, Restart, RoundOk, StageAt, StageOn, WaitsOk, LegWaits,
      LastRound, PastOk, CountOk, StreamOk, ReportOk, Below;
    WaitKeepsCounts(cfg, hist, e, i, w, b, serial);
    WaitKeepsStream(cfg, hist, e, i, w, b, serial);
    WaitKeepsReport(cfg, hist, e, i, w, b, serial);
  }

  lemma WaitKeepsCounts(cfg: Config, hist: seq<seq<nat>>, e: nat, i: nat, w: Worker, b: nat, serial: bool)
    requires ValidConfig(cfg) && e < 2 && i < cfg.workers && WorkerOk(cfg, hist, e, i, w)
    requires Next(cfg, e, i, w) == Wait(b) && b < 3 && WaitReady(cfg, hist, i, w)
    ensures var sender, w' := IsSender(e, Dir(cfg, i, w.pos.leg)), AfterWait(cfg, e, i, w, b, serial);
            CountOk(cfg, hist, i, sender, w')
  {
    WaitFlag(cfg, hist, e, i, w, b, serial);
    hide FirstFromSender, FirstFromReceiver, Succ, Restart, RoundOk, StageAt, StageOn, WaitsOk, LegWaits,
      LastRound, PastOk, StreamOk, ReportOk, Advance, CountOk, PlaceOk, Below, ReportAfterWait;
    var sender, w' := IsSender(e, Dir(cfg, i, w.pos.leg)), AfterWait(cfg, e, i, w, b, serial);
    AdvanceKeepsCounts(cfg, hist, i, sender, w, if w.pos.at == RUN_SYNC then w.count == 0 else serial, w');
  }

  lemma WaitKeepsStream(cfg: Config, hist: seq<seq<nat>>, e: nat, i: nat, w: Worker, b: nat, serial: bool)
    requires ValidConfig(cfg) && e < 2 && i < cfg.workers && WorkerOk(cfg, hist, e, i, w)
    requires Next(cfg, e, i, w) == Wait(b) && b < 3 && WaitReady(cfg, hist, i, w)
    ensures var sender, w' := IsSender(e, Dir(cfg, i, w.pos.leg)), AfterWait(cfg, e, i, w, b, serial);
            StreamOk(cfg, i, sender, w')
  {
    hide FirstFromSender, FirstFromReceiver, Succ, Restart, RoundOk, StageAt, StageOn, WaitsOk, LegWaits,
      LastRound, PastOk, ReportOk, Below;
  }

  lemma WaitKeepsReport(cfg: Config, hist: seq<seq<nat>>, e: nat, i: nat, w: Worker, b: nat, serial: bool)
    requires ValidConfig(cfg) && e < 2 && i < cfg.workers && WorkerOk(cfg, hist, e, i, w)
    requires Next(cfg, e, i, w) == Wait(b) && b < 3 && WaitReady(cfg, hist, i, w)
    ensures var sender, w' := IsSender(e, Dir(cfg, i, w.pos.leg)), AfterWait(cfg, e, i, w, b, serial);
            ReportOk(cfg, hist, i, sender, w') && SamePast(w, w', Dir(cfg, i, w.pos.leg))
  {
    hide FirstFromSender, FirstFromReceiver, Succ, Restart, RoundOk, StageAt, StageOn, WaitsOk, LegWaits,
      LastRound, PastOk, Below;
  }

  // --- sends

  lemma SendKeeps(cfg: Config, hist: seq<seq<nat>>, e: nat, i: nat, w: Worker, count: nat)
    requires ValidConfig(cfg) && e < 2 && i < cfg.workers && WorkerOk(cfg, hist, e, i, w)
    requires Next(cfg, e, i, w) == Send
    requires w.pos.at == NEGOTIATE ==> count == CountOf(hist, Dir(cfg, i, w.pos.leg), w.pos.round)
    ensures var m := Outgoing(cfg, i, w, count);
            var w' := AfterSend(cfg, e, i, w, m);
            var ev := NextSend(cfg, e, i, w);
            && ev == w.pos && HasCount(cfg, hist, i, ev) && m == MsgOf(cfg, hist, i, ev)
            && WorkerOk(cfg, hist, e, i, w')
            && NextSend(cfg, e, i, w') == Succ(cfg, hist, i, ev)
            && NextReceive(cfg, e, i, w') == NextReceive(cfg, e, i, w)
  {
    hide Advance, FirstFromSender, FirstFromReceiver, Succ, RoundOk, PlaceOk, StageAt, StageOn, PastOk,
      Restart, LegWaits, DataOk;
    SentMessage(cfg, hist, e, i, w, count);
    if LeavesLeg(cfg, w.pos) {
      LeaveKeeps(cfg, hist, e, i, w);
    } else {
      GoKeeps(cfg, hist, e, i, w, false);
      GoKeepsWaits(cfg, e, i, w, false, AfterSend(cfg, e, i, w, Outgoing(cfg, i, w, count)));
      SendKeepsData(cfg, hist, e, i, w, count);
      PastKept(cfg, hist, i, w, AfterSend(cfg, e, i, w, Outgoing(cfg, i, w, count)));
    }
  }

  lemma SentMessage(cfg: Config, hist: seq<seq<nat>>, e: nat, i: nat, w: Worker, count: nat)
    requires ValidConfig(cfg) && e < 2 && i < cfg.workers && WorkerOk(cfg, hist, e, i, w)
    requires Next(cfg, e, i, w) == Send
    requires w.pos.at == NEGOTIATE ==> count == CountOf(hist, Dir(cfg, i, w.pos.leg), w.pos.round)
    ensures HasCount(cfg, hist, i, w.pos) && Outgoing(cfg, i, w, count) == MsgOf(cfg, hist, i, w.pos)
  {
  }

  lemma SendKeepsData(cfg: Config, hist: seq<seq<nat>>, e: nat, i: nat, w: Worker, count: nat)
    requires ValidConfig(cfg) && e < 2 && i < cfg.workers && WorkerOk(cfg, hist, e, i, w)
    requires Next(cfg, e, i, w) == Send && !LeavesLeg(cfg, w.pos)
    requires Outgoing(cfg, i, w, count) == MsgOf(cfg, hist, i, w.pos)
    ensures var w' := AfterSend(cfg, e, i, w, Outgoing(cfg, i, w, count));
            DataOk(cfg, hist, i, IsSender(e, Dir(cfg, i, w.pos.leg)), w') && SamePast(w, w', Dir(cfg, i, w.pos.leg))
  {
    hide FirstFromSender, FirstFromReceiver, Succ, Restart, RoundOk, StageAt, StageOn, WaitsOk, LegWaits,
      LastRound, PastOk, CountOk, StreamOk, ReportOk, Below;
    SendKeepsCounts(cfg, hist, e, i, w, count);
    SendKeepsStream(cfg, hist, e, i, w, count);
    SendKeepsReport(cfg, hist, e, i, w, count);
    SendKeepsPast(cfg, hist, e, i, w, count);
  }

  lemma SendKeepsCounts(cfg: Config, hist: seq<seq<nat>>, e: nat, i: nat, w: Worker, count: nat)
    requires ValidConfig(cfg) && e < 2 && i < cfg.workers && WorkerOk(cfg, hist, e, i, w)
    requires Next(cfg, e, i, w) == Send && !LeavesLeg(cfg, w.pos)
    requires Outgoing(cfg, i, w, count) == MsgOf(cfg, hist, i, w.pos)
    ensures var sender, w' := IsSender(e, Dir(cfg, i, w.pos.leg)), AfterSend(cfg, e, i, w, Outgoing(cfg, i, w, count));
            CountOk(cfg, hist, i, sender, w')
  {
    hide FirstFromSender, FirstFromReceiver, Succ, Restart, RoundOk, StageAt, StageOn, WaitsOk, LegWaits,
      LastRound, PastOk, StreamOk, ReportOk, Advance, CountOk, PlaceOk, Below, Outgoing;
    var sender, w' := IsSender(e, Dir(cfg, i, w.pos.leg)), AfterSend(cfg, e, i, w, Outgoing(cfg, i, w, count));
    AdvanceKeepsCounts(cfg, hist, i, sender, w, false, w');
  }

  lemma SendKeepsStream(cfg: Config, hist: seq<seq<nat>>, e: nat, i: nat, w: Worker, count: nat)
    requires ValidConfig(cfg) && e < 2 && i < cfg.workers && WorkerOk(cfg, hist, e, i, w)
    requires Next(cfg, e, i, w) == Send && !LeavesLeg(cfg, w.pos)
    requires Outgoing(cfg, i, w, count) == MsgOf(cfg, hist, i, w.pos)
    ensures var sender, w' := IsSender(e, Dir(cfg, i, w.pos.leg)), AfterSend(cfg, e, i, w, Outgoing(cfg, i, w, count));
            StreamOk(cfg, i, sender, w')
  {
    hide FirstFromSender, FirstFromReceiver, Succ, Restart, RoundOk, StageAt, StageOn, WaitsOk, LegWaits,
      LastRound, PastOk, ReportOk, Below;
  }

  lemma SendKeepsReport(cfg: Config, hist: seq<seq<nat>>, e: nat, i: nat, w: Worker, count: nat)
    requires ValidConfig(cfg) && e < 2 && i < cfg.workers && WorkerOk(cfg, hist, e, i, w)
    requires Next(cfg, e, i, w) == Send && !LeavesLeg(cfg, w.pos)
    requires Outgoing(cfg, i, w, count) == MsgOf(cfg, hist, i, w.pos)
    ensures var sender, w' := IsSender(e, Dir(cfg, i, w.pos.leg)), AfterSend(cfg, e, i, w, Outgoing(cfg, i, w, count));
            ReportOk(cfg, hist, i, sender, w')
  {
    hide FirstFromSender, FirstFromReceiver, Succ, Restart, RoundOk, StageAt, StageOn, WaitsOk, LegWaits,
      LastRound, PastOk, Below;
  }

  lemma SendKeepsPast(cfg: Config, hist: seq<seq<nat>>, e: nat, i: nat, w: Worker, count: nat)
    requires ValidConfig(cfg) && e < 2 && i < cfg.workers && WorkerOk(cfg, hist, e, i, w)
    requires Next(cfg, e, i, w) == Send && !LeavesLeg(cfg, w.pos)
    requires Outgoing(cfg, i, w, count) == MsgOf(cfg, hist, i, w.pos)
    ensures var w' := AfterSend(cfg, e, i, w, Outgoing(cfg, i, w, count));
            SamePast(w, w', Dir(cfg, i, w.pos.leg))
  {
    hide FirstFromSender, FirstFromReceiver, Succ, Restart, RoundOk, StageAt, StageOn, WaitsOk, LegWaits,
      LastRound, PastOk, Below, CountOk, StreamOk, ReportOk, Outgoing, MsgOf;
  }

  /** The last message of a leg hands the socket over to the opposite direction. */
  lemma LeaveKeeps(cfg: Config, hist: seq<seq<nat>>, e: nat, i: nat, w: Worker)
    requires ValidConfig(cfg) && e < 2 && i < cfg.workers && WorkerOk(cfg, hist, e, i, w)
    requires LeavesLeg(cfg, w.pos)
    ensures var sender := IsSender(e, Dir(cfg, i, w.pos.leg));
            var w' := Go(cfg, sender, w, false);
            && WorkerOk(cfg, hist, e, i, w')
            && (if sender then NextSend(cfg, e, i, w) == w.pos && NextSend(cfg, e, i, w') == Succ(cfg, hist, i, w.pos)
                else NextSend(cfg, e, i, w') == NextSend(cfg, e, i, w))
            && (if sender then NextReceive(cfg, e, i, w') == NextReceive(cfg, e, i, w)
                else NextReceive(cfg, e, i, w) == w.pos && NextReceive(cfg, e, i, w') == Succ(cfg, hist, i, w.pos))
  {
    var sender := IsSender(e, Dir(cfg, i, w.pos.leg));
    LeaveEvents(cfg, hist, sender, i, w.pos, w.count, false);
    AdvancePlace(cfg, sender, w.pos, w.count, false);
    AdvanceRound(cfg, sender, w.pos, w.count, false);
  }

  // --- receives

  lemma ReceiveKeeps(cfg: Config, hist: seq<seq<nat>>, e: nat, i: nat, w: Worker)
    requires ValidConfig(cfg) && e < 2 && i < cfg.workers && WorkerOk(cfg, hist, e, i, w)
    requires Next(cfg, e, i, w) == Receive
    requires HasCount(cfg, hist, i, NextReceive(cfg, e, i, w))
    requires forall d, r :: 0 <= d < 2 && 0 <= r < |hist[d]| ==> hist[d][r] > 0
    requires !ReceiveAborts(w, MsgOf(cfg, hist, i, NextReceive(cfg, e, i, w)))
    ensures var ev := NextReceive(cfg, e, i, w);
            var m := MsgOf(cfg, hist, i, ev);
            var w' := AfterReceive(cfg, e, i, w, m);
            && ev == w.pos && !Faulty(cfg, w, m)
            && WorkerOk(cfg, hist, e, i, w')
            && NextSend(cfg, e, i, w') == NextSend(cfg, e, i, w)
            && NextReceive(cfg, e, i, w') == Succ(cfg, hist, i, ev)
  {
    hide FirstFromSender, FirstFromReceiver, Succ, RoundOk, StageAt, StageOn, PastOk, DataOk, Restart, LegWaits,
      Faulty, ReceiveAborts;
    if LeavesLeg(cfg, w.pos) {
      LeaveKeeps(cfg, hist, e, i, w);
    } else {
      GoKeeps(cfg, hist, e, i, w, false);
      GoKeepsWaits(cfg, e, i, w, false, AfterReceive(cfg, e, i, w, MsgOf(cfg, hist, i, w.pos)));
      ReceiveKeepsData(cfg, hist, e, i, w);
      PastKept(cfg, hist, i, w, AfterReceive(cfg, e, i, w, MsgOf(cfg, hist, i, w.pos)));
    }
    NotFaulty(cfg, hist, e, i, w);
  }

  lemma NotFaulty(cfg: Config, hist: seq<seq<nat>>, e: nat, i: nat, w: Worker)
    requires ValidConfig(cfg) && e < 2 && i < cfg.workers && WorkerOk(cfg, hist, e, i, w)
    requires Next(cfg, e, i, w) == Receive
    ensures NextReceive(cfg, e, i, w) == w.pos && !Faulty(cfg, w, MsgOf(cfg, hist, i, w.pos))
  {
  }

  lemma ReceiveKeepsData(cfg: Config, hist: seq<seq<nat>>, e: nat, i: nat, w: Worker)
    requires ValidConfig(cfg) && e < 2 && i < cfg.workers && WorkerOk(cfg, hist, e, i, w)
    requires Next(cfg, e, i, w) == Receive && !LeavesLeg(cfg, w.pos)
    requires HasCount(cfg, hist, i, w.pos)
    requires forall d, r :: 0 <= d < 2 && 0 <= r < |hist[d]| ==> hist[d][r] > 0
    requires !ReceiveAborts(w, MsgOf(cfg, hist, i, w.pos))
    ensures var w' := AfterReceive(cfg, e, i, w, MsgOf(cfg, hist, i, w.pos));
            DataOk(cfg, hist, i, IsSender(e, Dir(cfg, i, w.pos.leg)), w') && SamePast(w, w', Dir(cfg, i, w.pos.leg))
  {
    hide FirstFromSender, FirstFromReceiver, Succ, Restart, RoundOk, StageAt, StageOn, WaitsOk, LegWaits,
      LastRound, PastOk, CountOk, StreamOk, ReportOk, Below;
    ReceiveKeepsCounts(cfg, hist, e, i, w);
    ReceiveKeepsStream(cfg, hist, e, i, w);
    ReceiveKeepsReport(cfg, hist, e, i, w);
    ReceiveKeepsPast(cfg, hist, e, i, w);
  }

  lemma ReceiveKeepsCounts(cfg: Config, hist: seq<seq<nat>>, e: nat, i: nat, w: Worker)
    requires ValidConfig(cfg) && e < 2 && i < cfg.workers && WorkerOk(cfg, hist, e, i, w)
    requires Next(cfg, e, i, w) == Receive && !LeavesLeg(cfg, w.pos)
    requires HasCount(cfg, hist, i, w.pos)
    requires forall d, r :: 0 <= d < 2 && 0 <= r < |hist[d]| ==> hist[d][r] > 0
    requires !ReceiveAborts(w, MsgOf(cfg, hist, i, w.pos))
    ensures var sender, w' := IsSender(e, Dir(cfg, i, w.pos.leg)), AfterReceive(cfg, e, i, w, MsgOf(cfg, hist, i, w.pos));
            CountOk(cfg, hist, i, sender, w')
  {
    hide FirstFromSender, FirstFromReceiver, Succ, Restart, RoundOk, StageAt, StageOn, WaitsOk, LegWaits,
      LastRound, PastOk, StreamOk, ReportOk, Advance, CountOk, PlaceOk, Below;
    var sender, w' := IsSender(e, Dir(cfg, i, w.pos.leg)), AfterReceive(cfg, e, i, w, MsgOf(cfg, hist, i, w.pos));
    AdvanceKeepsCounts(cfg, hist, i, sender, w, false, w');
  }

  lemma ReceiveKeepsStream(cfg: Config, hist: seq<seq<nat>>, e: nat, i: nat, w: Worker)
    requires ValidConfig(cfg) && e < 2 && i < cfg.workers && WorkerOk(cfg, hist, e, i, w)
    requires Next(cfg, e, i, w) == Receive && !LeavesLeg(cfg, w.pos)
    requires HasCount(cfg, hist, i, w.pos)
    requires forall d, r :: 0 <= d < 2 && 0 <= r < |hist[d]| ==> hist[d][r] > 0
    requires !ReceiveAborts(w, MsgOf(cfg, hist, i, w.pos))
    ensures var sender, w' := IsSender(e, Dir(cfg, i, w.pos.leg)), AfterReceive(cfg, e, i, w, MsgOf(cfg, hist, i, w.pos));
            StreamOk(cfg, i, sender, w')
  {
    if w.pos.at == RUN { RunKeepsStream(cfg, hist, e, i, w); return; }
    hide FirstFromSender, FirstFromReceiver, Succ, Restart, RoundOk, StageAt, StageOn, WaitsOk, LegWaits,
      LastRound, PastOk, ReportOk, Below;
  }

  // One more message, and its bytes.
  lemma RunKeepsStream(cfg: Config, hist: seq<seq<nat>>, e: nat, i: nat, w: Worker)
    requires |hist| == 2 && |w.reports| == 2 && w.pos.at == RUN && PlaceOk(cfg, IsSender(e, Dir(cfg, i, w.pos.leg)), w.pos, w.count)
    requires StreamOk(cfg, i, IsSender(e, Dir(cfg, i, w.pos.leg)), w) && Next(cfg, e, i, w) == Receive
    ensures var sender, w' := IsSender(e, Dir(cfg, i, w.pos.leg)), AfterReceive(cfg, e, i, w, MsgOf(cfg, hist, i, w.pos));
            StreamOk(cfg, i, sender, w')
  {
    assert (w.pos.idx + 1) * cfg.payload == w.pos.idx * cfg.payload + cfg.payload;
  }

  lemma ReceiveKeepsReport(cfg: Config, hist: seq<seq<nat>>, e: nat, i: nat, w: Worker)
    requires ValidConfig(cfg) && e < 2 && i < cfg.workers && WorkerOk(cfg, hist, e, i, w)
    requires Next(cfg, e, i, w) == Receive && !LeavesLeg(cfg, w.pos)
    requires HasCount(cfg, hist, i, w.pos)
    requires forall d, r :: 0 <= d < 2 && 0 <= r < |hist[d]| ==> hist[d][r] > 0
    requires !ReceiveAborts(w, MsgOf(cfg, hist, i, w.pos))
    ensures var sender, w' := IsSender(e, Dir(cfg, i, w.pos.leg)), AfterReceive(cfg, e, i, w, MsgOf(cfg, hist, i, w.pos));
            ReportOk(cfg, hist, i, sender, w')
  {
    hide FirstFromSender, FirstFromReceiver, Succ, Restart, RoundOk, StageAt, StageOn, WaitsOk, LegWaits,
      LastRound, PastOk, Below;
  }

  lemma ReceiveKeepsPast(cfg: Config, hist: seq<seq<nat>>, e: nat, i: nat, w: Worker)
    requires ValidConfig(cfg) && e < 2 && i < cfg.workers && WorkerOk(cfg, hist, e, i, w)
    requires Next(cfg, e, i, w) == Receive && !LeavesLeg(cfg, w.pos)
    requires HasCount(cfg, hist, i, w.pos)
    ensures var w' := AfterReceive(cfg, e, i, w, MsgOf(cfg, hist, i, w.pos));
            SamePast(w, w', Dir(cfg, i, w.pos.leg))
  {
    hide FirstFromSender, FirstFromReceiver, Succ, Restart, RoundOk, StageAt, StageOn, WaitsOk, LegWaits,
      LastRound, PastOk, Below, CountOk, StreamOk, ReportOk, MsgOf;
  }

  // --- local steps

  /** What the shared counters must show when a worker reads them. */
  predicate LocalReady(cfg: Config, hist: seq<seq<nat>>, i: nat, w: Worker, sh: Shared)
    requires |hist| == 2 && |sh.imWeak| == 2 && |sh.count| == 2
  {
    var d := Dir(cfg, i, w.pos.leg);
    && (w.pos.at == CALL ==> sh.count[d] == CountOf(hist, d, w.pos.round) && 0 < sh.count[d] <= COUNT_MAX)
    && (w.pos.at == READ_WEAK && sh.weak == 0 ==> !Restart(cfg, w.pos.leg, w.pos.round))
    && (w.pos.at == DECIDE ==> NeedsRestart(cfg, sh, d) == Restart(cfg, w.pos.leg, w.pos.round))
  }

  lemma LocalKeeps(cfg: Config, hist: seq<seq<nat>>, e: nat, i: nat, w: Worker, sh: Shared)
    requires ValidConfig(cfg) && e < 2 && i < cfg.workers && WorkerOk(cfg, hist, e, i, w)
    requires Next(cfg, e, i, w) == Local
    requires |sh.imWeak| == 2 && |sh.count| == 2 && LocalReady(cfg, hist, i, w, sh)
    ensures var w' := AfterLocal(cfg, e, i, w, sh);
            && WorkerOk(cfg, hist, e, i, w') && w'.pos.leg == w.pos.leg
            && NextSend(cfg, e, i, w') == NextSend(cfg, e, i, w)
            && NextReceive(cfg, e, i, w') == NextReceive(cfg, e, i, w)
  {
    hide FirstFromSender, FirstFromReceiver, Succ, RoundOk, StageAt, StageOn, PastOk, DataOk, Restart, LegWaits;
    var flag := if w.pos.at == READ_WEAK then sh.weak > 0 else NeedsRestart(cfg, sh, Dir(cfg, i, w.pos.leg));
    GoKeeps(cfg, hist, e, i, w, flag);
    GoKeepsWaits(cfg, e, i, w, flag, AfterLocal(cfg, e, i, w, sh));
    LocalKeepsData(cfg, hist, e, i, w, sh);
    PastKept(cfg, hist, i, w, AfterLocal(cfg, e, i, w, sh));
  }

  lemma LocalKeepsData(cfg: Config, hist: seq<seq<nat>>, e: nat, i: nat, w: Worker, sh: Shared)
    requires ValidConfig(cfg) && e < 2 && i < cfg.workers && WorkerOk(cfg, hist, e, i, w)
    requires Next(cfg, e, i, w) == Local
    requires |sh.imWeak| == 2 && |sh.count| == 2 && LocalReady(cfg, hist, i, w, sh)
    ensures var w' := AfterLocal(cfg, e, i, w, sh);
            DataOk(cfg, hist, i, IsSender(e, Dir(cfg, i, w.pos.leg)), w') && SamePast(w, w', Dir(cfg, i, w.pos.leg))
  {
    hide FirstFromSender, FirstFromReceiver, Succ, Restart, RoundOk, StageAt, StageOn, WaitsOk, LegWaits,
      LastRound, PastOk, CountOk, StreamOk, ReportOk, Below;
    LocalKeepsCounts(cfg, hist, e, i, w, sh);
    LocalKeepsStream(cfg, hist, e, i, w, sh);
    LocalKeepsReport(cfg, hist, e, i, w, sh);
  }

  lemma LocalKeepsCounts(cfg: Config, hist: seq<seq<nat>>, e: nat, i: nat, w: Worker, sh: Shared)
    requires ValidConfig(cfg) && e < 2 && i < cfg.workers && WorkerOk(cfg, hist, e, i, w)
    requires Next(cfg, e, i, w) == Local
    requires |sh.imWeak| == 2 && |sh.count| == 2 && LocalReady(cfg, hist, i, w, sh)
    ensures var sender, w' := IsSender(e, Dir(cfg, i, w.pos.leg)), AfterLocal(cfg, e, i, w, sh);
            CountOk(cfg, hist, i, sender, w')
  {
    hide FirstFromSender, FirstFromReceiver, Succ, Restart, RoundOk, StageAt, StageOn, WaitsOk, LegWaits,
      LastRound, PastOk, StreamOk, ReportOk, Advance, CountOk, PlaceOk, NeedsRestart;
    var sender, w' := IsSender(e, Dir(cfg, i, w.pos.leg)), AfterLocal(cfg, e, i, w, sh);
    AdvanceKeepsCounts(cfg, hist, i, sender, w, if w.pos.at == READ_WEAK then sh.weak > 0 else NeedsRestart(cfg, sh, Dir(cfg, i, w.pos.leg)), w');
  }

  lemma LocalKeepsStream(cfg: Config, hist: seq<seq<nat>>, e: nat, i: nat, w: Worker, sh: Shared)
    requires ValidConfig(cfg) && e < 2 && i < cfg.workers && WorkerOk(cfg, hist, e, i, w)
    requires Next(cfg, e, i, w) == Local
    requires |sh.imWeak| == 2 && |sh.count| == 2 && LocalReady(cfg, hist, i, w, sh)
    ensures var sender, w' := IsSender(e, Dir(cfg, i, w.pos.leg)), AfterLocal(cfg, e, i, w, sh);
            StreamOk(cfg, i, sender, w')
  {
    hide FirstFromSender, FirstFromReceiver, Succ, Restart, RoundOk, StageAt, StageOn, WaitsOk, LegWaits,
      LastRound, PastOk, ReportOk, Below;
  }

  lemma LocalKeepsReport(cfg: Config, hist: seq<seq<nat>>, e: nat, i: nat, w: Worker, sh: Shared)
    requires ValidConfig(cfg) && e < 2 && i < cfg.workers && WorkerOk(cfg, hist, e, i, w)
    requires Next(cfg, e, i, w) == Local
    requires |sh.imWeak| == 2 && |sh.count| == 2 && LocalReady(cfg, hist, i, w, sh)
    ensures var sender, w' := IsSender(e, Dir(cfg, i, w.pos.leg)), AfterLocal(cfg, e, i, w, sh);
            ReportOk(cfg, hist, i, sender, w') && SamePast(w, w', Dir(cfg, i, w.pos.leg))
  {
    hide FirstFromSender, FirstFromReceiver, Succ, Restart, RoundOk, StageAt, StageOn, WaitsOk, LegWaits,
      LastRound, PastOk, Below;
  }
}
