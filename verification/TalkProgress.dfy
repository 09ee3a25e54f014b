/** Freedom from deadlock: while some worker is unfinished, some worker can take its next step. */
module TalkProgress {
  import opened TalkModel
  import opened TalkEvents
  import opened TalkWorker
  import opened TalkBarrier
  import opened TalkInvariant

  predicate Finished(cfg: Config, s: State)
    requires Shape(cfg, s)
  {
    forall e, i :: 0 <= e < 2 && 0 <= i < cfg.workers ==> s.ws[e][i].pos.at == DONE
  }

  // --- the least advanced unfinished worker

  predicate Least(ws: seq<Worker>, n: nat, p: Position)
    requires n <= |ws|
  {
    forall k :: 0 <= k < n && ws[k].pos.at != DONE ==> !Before(ws[k].pos, p)
  }

  lemma BeforeTransitive(a: Position, b: Position, c: Position)
    requires Before(a, b) && Before(b, c)
    ensures Before(a, c)
  {}

  lemma BeforeTotal(a: Position, b: Position)
    ensures Before(a, b) || a == b || Before(b, a)
    ensures !(Before(a, b) && Before(b, a))
    ensures !Before(a, a)
  {}

  lemma {:induction false} LeastOf(ws: seq<Worker>, n: nat) returns (m: int)
    requires n <= |ws|
    ensures -1 <= m < n
    ensures m == -1 ==> forall k :: 0 <= k < n ==> ws[k].pos.at == DONE
    ensures m >= 0 ==> ws[m].pos.at != DONE && Least(ws, n, ws[m].pos)
  {
    if n == 0 { return -1; }
    m := LeastOf(ws, n - 1);
    hide Before;
    BeforeTotal(ws[n - 1].pos, ws[n - 1].pos);
    if ws[n - 1].pos.at != DONE && (m == -1 || Before(ws[n - 1].pos, ws[m].pos)) {
      if m >= 0 {
        forall k | 0 <= k < n - 1 && ws[k].pos.at != DONE ensures !Before(ws[k].pos, ws[n - 1].pos) {
          if Before(ws[k].pos, ws[n - 1].pos) {
            BeforeTransitive(ws[k].pos, ws[n - 1].pos, ws[m].pos);
          }
        }
      }
      m := n - 1;
    }
  }

  predicate LeastWorker(cfg: Config, s: State, e: nat, i: nat)
    requires Shape(cfg, s) && Id(cfg, e, i)
  {
    && s.ws[e][i].pos.at != DONE
    && (forall e' :: 0 <= e' < 2 ==> Least(s.ws[e'], cfg.workers, s.ws[e][i].pos))
  }

  lemma LeastExists(cfg: Config, s: State) returns (e: nat, i: nat)
    requires Shape(cfg, s) && !Finished(cfg, s)
    ensures Id(cfg, e, i) && LeastWorker(cfg, s, e, i)
  {
    var m0 := LeastOf(s.ws[0], cfg.workers);
    var m1 := LeastOf(s.ws[1], cfg.workers);
    hide Before;
    if m0 == -1 {
      e, i := 1, m1;
    } else if m1 == -1 || !Before(s.ws[1][m1].pos, s.ws[0][m0].pos) {
      e, i := 0, m0;
      if m1 >= 0 {
        LeastBelow(s.ws[1], cfg.workers, s.ws[1][m1].pos, s.ws[0][m0].pos);
      }
    } else {
      e, i := 1, m1;
      BeforeTotal(s.ws[1][m1].pos, s.ws[0][m0].pos);
      LeastBelow(s.ws[0], cfg.workers, s.ws[0][m0].pos, s.ws[1][m1].pos);
    }
  }

  lemma LeastBelow(ws: seq<Worker>, n: nat, p: Position, q: Position)
    requires n <= |ws| && Least(ws, n, p) && !Before(p, q)
    ensures Least(ws, n, q)
  {
    forall k | 0 <= k < n && ws[k].pos.at != DONE ensures !Before(ws[k].pos, q) {
      BeforeTotal(p, q);
      if Before(ws[k].pos, q) && Before(q, p) {
        BeforeTransitive(ws[k].pos, q, p);
      }
    }
  }

  // --- barriers

  /** A later position of the same leg has completed more waits on a barrier than one standing at it. */
  lemma LaterWaits(cfg: Config, sender: bool, sender': bool, d: nat, two: bool, p: Position, at: Point, round: nat)
    requires d < 2 && ActAt(cfg, sender, d, p.at, p.idx) == Wait(if two then 2 else d)
    requires sender' == sender || (cfg.asynchronous && two)
    requires two ==> cfg.asynchronous
    requires (p.at == END_SYNC_ALL || at == END_SYNC_ALL ==> cfg.asynchronous) && (p.at <= COUNT_SYNC ==> p.round == 0)
    requires p.at == COUNT_SET || p.at == COUNT_SYNC || p.at == GROW_SYNC || p.at == GROW_SYNC_2 ==> sender
    requires round > p.round ==> at >= NEGOTIATE
    requires round > p.round || (round == p.round && at > p.at && (GROW_SYNC <= p.at ==> at < REPORT))
    ensures LegWaits(cfg.asynchronous, sender', two, at, round) > LegWaits(cfg.asynchronous, sender, two, p.at, p.round)
  {
  }

  /** Two workers in the same leg take the same rounds: neither can have finished where the other restarted. */
  lemma RoundsAgree(cfg: Config, p: Position, q: Position)
    requires RoundOk(cfg, p) && RoundOk(cfg, q) && p.leg == q.leg && q.at >= REPORT
    ensures p.round <= q.round && (p.round == q.round ==> p.at < GROW_SYNC || p.at >= REPORT)
  {}

  lemma BarrierReached(cfg: Config, s: State, e: nat, i: nat, j: nat, b: nat)
    requires Inv(cfg, s) && Id(cfg, e, i) && Id(cfg, e, j) && LeastWorker(cfg, s, e, i) && b < 3
    requires Next(cfg, e, i, s.ws[e][i]) == Wait(b) && Participant(cfg, b, j)
    ensures |s.ws[e][i].waits| == |s.ws[e][j].waits| == 3 && Entered(cfg, e, j, s.ws[e][j], b) > s.ws[e][i].waits[b]
  {
    var w, u := s.ws[e][i], s.ws[e][j];
    assert WorkerOk(cfg, s.hist, e, i, w) && WorkerOk(cfg, s.hist, e, j, u);
    assert Least(s.ws[e], cfg.workers, w.pos);
    hide Workers, Connections, Barriers, LegWaits, DataOk, Restart, StageAt, RoundOk, ActAt;
    if u.pos.leg == w.pos.leg {
      if u.pos.at >= REPORT { RoundsAgree(cfg, w.pos, u.pos); }
      ReachedInLeg(cfg, e, i, j, w, u, b);
    } else {
      ReachedAcross(cfg, e, i, j, w, u, b);
    }
  }

  lemma ReachedInLeg(cfg: Config, e: nat, i: nat, j: nat, w: Worker, u: Worker, b: nat)
    requires ValidConfig(cfg) && Id(cfg, e, i) && Id(cfg, e, j) && b < 3
    requires Next(cfg, e, i, w) == Wait(b) && Participant(cfg, b, j) && u.pos.leg == w.pos.leg
    requires WaitsOk(cfg, e, i, w) && WaitsOk(cfg, e, j, u)
    requires PlaceOk(cfg, IsSender(e, Dir(cfg, i, w.pos.leg)), w.pos, w.count)
    requires PlaceOk(cfg, IsSender(e, Dir(cfg, j, u.pos.leg)), u.pos, u.count)
    requires u.pos.at == DONE || !Before(u.pos, w.pos)
    requires u.pos.at >= REPORT ==> w.pos.round <= u.pos.round && (w.pos.round == u.pos.round ==> w.pos.at < GROW_SYNC || w.pos.at >= REPORT)
    ensures Entered(cfg, e, j, u, b) > w.waits[b]
  {
    var d, d' := Dir(cfg, i, w.pos.leg), Dir(cfg, j, u.pos.leg);
    var two := b == 2;
    if u.pos.at == w.pos.at && u.pos.round == w.pos.round {
    } else {
      hide LegWaits;
      LaterWaits(cfg, IsSender(e, d), IsSender(e, d'), d, two, w.pos, u.pos.at, u.pos.round);
    }
  }

  lemma ReachedAcross(cfg: Config, e: nat, i: nat, j: nat, w: Worker, u: Worker, b: nat)
    requires ValidConfig(cfg) && Id(cfg, e, i) && Id(cfg, e, j) && b < 3
    requires Next(cfg, e, i, w) == Wait(b) && u.pos.leg != w.pos.leg
    requires WaitsOk(cfg, e, i, w) && WaitsOk(cfg, e, j, u) && RoundOk(cfg, w.pos)
    requires PlaceOk(cfg, IsSender(e, Dir(cfg, i, w.pos.leg)), w.pos, w.count)
    requires PlaceOk(cfg, IsSender(e, Dir(cfg, j, u.pos.leg)), u.pos, u.count)
    requires u.pos.leg > 0 ==> LastRound(cfg, u.pos.leg - 1, u.prev)
    requires u.pos.at == DONE || !Before(u.pos, w.pos)
    ensures Entered(cfg, e, j, u, b) > w.waits[b]
  {
    assert u.pos.leg == 1 && w.pos.leg == 0 && !cfg.asynchronous;
    var done := Position(0, u.prev, DONE, 0);
    RoundsAgree(cfg, w.pos, done);
    var d := Dir(cfg, i, 0);
    hide LegWaits, Restart, LastRound, RoundOk;
    LaterWaits(cfg, IsSender(e, d), IsSender(e, d), d, false, w.pos, DONE, u.prev);
  }

  /** The barrier a least advanced worker waits at is open. */
  lemma BarrierOpen(cfg: Config, s: State, e: nat, i: nat, b: nat)
    requires Inv(cfg, s) && Id(cfg, e, i) && LeastWorker(cfg, s, e, i) && b < 3
    requires Next(cfg, e, i, s.ws[e][i]) == Wait(b)
    ensures MayLeave(cfg, s, e, i, b)
  {
    hide Workers, Connections, Barriers, Entered, LeastWorker;
    forall j | 0 <= j < cfg.workers && Participant(cfg, b, j)
      ensures Entered(cfg, e, j, s.ws[e][j], b) > s.ws[e][i].waits[b]
    {
      BarrierReached(cfg, s, e, i, j, b);
    }
  }

  // --- messages

  /** The next message of either kind lies at or after the position, and beyond every leg of a finished worker. */
  lemma NextIsAhead(cfg: Config, e: nat, i: nat, w: Worker)
    requires ValidConfig(cfg) && PlaceOk(cfg, IsSender(e, Dir(cfg, i, w.pos.leg)), w.pos, w.count)
    ensures !Before(NextSend(cfg, e, i, w), w.pos) && !Before(NextReceive(cfg, e, i, w), w.pos)
    ensures w.pos.at == DONE ==> NextSend(cfg, e, i, w).leg == Legs(cfg) && NextReceive(cfg, e, i, w).leg == Legs(cfg)
  {}

  lemma OwnEvent(cfg: Config, e: nat, i: nat, w: Worker)
    requires ValidConfig(cfg) && PlaceOk(cfg, IsSender(e, Dir(cfg, i, w.pos.leg)), w.pos, w.count)
    ensures Next(cfg, e, i, w) == Send ==> NextSend(cfg, e, i, w) == w.pos
    ensures Next(cfg, e, i, w) == Receive ==> NextReceive(cfg, e, i, w) == w.pos
  {}

  lemma PeerAnswers(cfg: Config, e: nat, i: nat, w: Worker, u: Worker)
    requires e < 2 && w.pos == u.pos
    ensures Next(cfg, e, i, w) == Receive <==> Next(cfg, Peer(e), i, u) == Send
  {}

  /** A least advanced worker that wants to send finds an empty channel and a peer that is ahead, or reading. */
  lemma RoomToSend(cfg: Config, s: State, e: nat, i: nat)
    requires Inv(cfg, s) && Id(cfg, e, i) && LeastWorker(cfg, s, e, i) && Next(cfg, e, i, s.ws[e][i]) == Send
    ensures s.q[e][i] == [] && Next(cfg, Peer(e), i, s.ws[Peer(e)][i]) == Receive
  {
    var w, u := s.ws[e][i], s.ws[Peer(e)][i];
    assert WorkerOk(cfg, s.hist, e, i, w) && WorkerOk(cfg, s.hist, Peer(e), i, u);
    assert Connected(cfg, s, i);
    assert Least(s.ws[Peer(e)], cfg.workers, w.pos);
    OwnEvent(cfg, e, i, w);
    NextIsAhead(cfg, Peer(e), i, u);
    hide Workers, Connections, Barriers, NextSend, NextReceive, WaitsOk, DataOk, PastOk, RoundOk, Next, Before;
    ChainIsForward(cfg, s.hist, i, s.q[e][i], NextReceive(cfg, Peer(e), i, u), NextSend(cfg, e, i, w));
    if |s.q[e][i]| > 0 {
      var r := NextReceive(cfg, Peer(e), i, u);
      BeforeTotal(r, u.pos);
      if u.pos.at == DONE {
        BeforeLeg(r, w.pos);
      } else if u.pos != r {
        BeforeTransitive(u.pos, r, w.pos);
      }
    }
    BeforeTotal(u.pos, w.pos);
    if u.pos.at != DONE {
      assert u.pos == w.pos;
      PeerAnswers(cfg, Peer(e), i, u, w);
    }
  }

  lemma BeforeLeg(a: Position, b: Position)
    requires Before(a, b)
    ensures a.leg <= b.leg
  {}

  /** A least advanced worker that wants to receive has a message, or its peer is about to send it. */
  lemma MessageComes(cfg: Config, s: State, e: nat, i: nat)
    requires Inv(cfg, s) && Id(cfg, e, i) && LeastWorker(cfg, s, e, i) && Next(cfg, e, i, s.ws[e][i]) == Receive
    requires s.q[Peer(e)][i] == []
    ensures Next(cfg, Peer(e), i, s.ws[Peer(e)][i]) == Send
  {
    hide WaitsOk, DataOk, PastOk, RoundOk, StageAt, NextSend, NextReceive, Next;
    var w, u := s.ws[e][i], s.ws[Peer(e)][i];
    assert WorkerOk(cfg, s.hist, e, i, w) && WorkerOk(cfg, s.hist, Peer(e), i, u);
    assert Connected(cfg, s, i);
    assert Peer(Peer(e)) == e;
    assert Least(s.ws[Peer(e)], cfg.workers, w.pos);
    OwnEvent(cfg, e, i, w);
    NextIsAhead(cfg, Peer(e), i, u);
    BeforeTotal(u.pos, w.pos);
    assert NextSend(cfg, Peer(e), i, u) == w.pos;
    if u.pos == w.pos {
      PeerAnswers(cfg, e, i, w, u);
    }
  }

  /** Freedom from deadlock, in synchronous and asynchronous mode, for any number of workers and any channel capacity,
      none included. */
  lemma DeadlockFree(cfg: Config, s: State) returns (e: nat, i: nat)
    requires Inv(cfg, s) && !s.aborted && !Finished(cfg, s)
    ensures Id(cfg, e, i) && CanStep(cfg, s, e, i)
  {
    hide Workers, Connections, Barriers, MayLeave, Least, Finished, ActAt;
    e, i := LeastExists(cfg, s);
    match Next(cfg, e, i, s.ws[e][i]) {
      case Wait(b) =>
        BarrierNumber(cfg, e, i, s.ws[e][i]);
        BarrierOpen(cfg, s, e, i, b);
      case Send =>
        RoomToSend(cfg, s, e, i);
      case Receive =>
        if s.q[Peer(e)][i] == [] {
          MessageComes(cfg, s, e, i);
          e := Peer(e);
        }
      case Local =>
      case Stop =>
        OnlyDoneStops(cfg, e, i, s.ws[e][i]);
    }
  }

  lemma BarrierNumber(cfg: Config, e: nat, i: nat, w: Worker)
    ensures match Next(cfg, e, i, w) case Wait(b) => b < 3 case _ => true
  {}

  lemma OnlyDoneStops(cfg: Config, e: nat, i: nat, w: Worker)
    requires Next(cfg, e, i, w) == Stop
    ensures w.pos.at == DONE
  {}
}
