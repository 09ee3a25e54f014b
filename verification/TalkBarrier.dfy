/** How far apart the workers of one end can be: the alignment that the barriers enforce. */
module TalkBarrier {
  import opened TalkModel
  import opened TalkEvents
  import opened TalkWorker

  predicate Workers(cfg: Config, s: State)
    requires Shape(cfg, s)
  {
    forall e, i :: 0 <= e < 2 && 0 <= i < cfg.workers ==> WorkerOk(cfg, s.hist, e, i, s.ws[e][i])
  }

  /** Nobody has returned from a wait that some participant has not entered. */
  predicate Aligned(cfg: Config, e: nat, b: nat, ws: seq<Worker>, i: nat, j: nat)
    requires b < 3 && i < |ws| && j < |ws| && |ws[i].waits| == 3 && |ws[j].waits| == 3
  {
    Participant(cfg, b, i) && Participant(cfg, b, j) ==> ws[i].waits[b] <= Entered(cfg, e, j, ws[j], b)
  }

  predicate Barriers(cfg: Config, s: State)
    requires Shape(cfg, s)
  {
    forall e, b, i, j :: 0 <= e < 2 && 0 <= b < 3 && 0 <= i < cfg.workers && 0 <= j < cfg.workers ==>
      Aligned(cfg, e, b, s.ws[e], i, j)
  }

  // --- what alignment on the main barrier means for the positions

  /** Completed waits on the main barrier of the current leg. */
  function MainIndex(cfg: Config, e: nat, i: nat, w: Worker): nat {
    if cfg.asynchronous then MainWaits(w.pos.at, w.pos.round)
    else LegWaits(false, IsSender(e, Dir(cfg, i, w.pos.leg)), false, w.pos.at, w.pos.round)
  }

  predicate AtMain(cfg: Config, e: nat, i: nat, w: Worker) {
    Next(cfg, e, i, w) == Wait(MainBarrier(cfg, Dir(cfg, i, w.pos.leg)))
  }

  /** Two workers of one end: within a leg, at most one main barrier apart; across legs, the one ahead still waits to begin. */
  lemma MainAligned(cfg: Config, s: State, e: nat, i: nat, j: nat)
    requires ValidConfig(cfg) && Shape(cfg, s) && Id(cfg, e, i) && Id(cfg, e, j) && Workers(cfg, s) && Barriers(cfg, s)
    ensures var u, v := s.ws[e][i], s.ws[e][j];
            && (u.pos.leg == v.pos.leg ==> MainIndex(cfg, e, i, u) <= MainIndex(cfg, e, j, v) + if AtMain(cfg, e, j, v) then 1 else 0)
            && (u.pos.leg > v.pos.leg ==>
                  && u.pos.at == INIT
                  && LegWaits(false, IsSender(e, Dir(cfg, j, v.pos.leg)), false, DONE, u.prev)
                     <= MainIndex(cfg, e, j, v) + if AtMain(cfg, e, j, v) then 1 else 0)
  {
    hide DataOk, PastOk, RoundOk, StageAt, Restart;
    var u, v := s.ws[e][i], s.ws[e][j];
    var b, b' := MainBarrier(cfg, Dir(cfg, i, u.pos.leg)), MainBarrier(cfg, Dir(cfg, j, v.pos.leg));
    assert WorkerOk(cfg, s.hist, e, i, u) && WorkerOk(cfg, s.hist, e, j, v);
    assert Aligned(cfg, e, b, s.ws[e], i, j) && Aligned(cfg, e, b', s.ws[e], i, j);
  }

  // --- keeping the alignment

  lemma BarriersKept(cfg: Config, s: State, s': State, e: nat, i: nat, w': Worker)
    requires ValidConfig(cfg) && Shape(cfg, s) && Shape(cfg, s') && Id(cfg, e, i) && Barriers(cfg, s)
    requires s'.ws == s.ws[e := s.ws[e][i := w']] && |w'.waits| == 3
    requires match Next(cfg, e, i, s.ws[e][i])
             case Wait(b) => b < 3 && MayLeave(cfg, s, e, i, b) && w'.waits == s.ws[e][i].waits[b := s.ws[e][i].waits[b] + 1]
             case _ => w'.waits == s.ws[e][i].waits
    ensures Barriers(cfg, s')
  {
    forall e', b, j, k | 0 <= e' < 2 && 0 <= b < 3 && 0 <= j < cfg.workers && 0 <= k < cfg.workers
      ensures Aligned(cfg, e', b, s'.ws[e'], j, k)
    {
      hide Next, Dir;
      assert Aligned(cfg, e', b, s.ws[e'], j, k);
    }
  }
}
