/** The barrier never stops while all its users keep calling it, and a round needs a bounded number of steps. */
module BarrierProgress {
  import opened Options
  import opened BarrierModel
  import opened BarrierInvariant
  import opened BarrierRuns

  /** Nothing inside the barrier can go on without a spurious wake-up. */
  predicate Still(s: State) {
    forall t :: 0 <= t < |s.threads| && s.threads[t].pc != OUTSIDE ==> !Ready(s.b, s.threads[t].pc)
  }

  /** No lock cycle: while a mutex is owned, its owner or that of the other one can take a step. */
  lemma OwnersMove(s: State) returns (t: nat)
    requires Inv(s) && (s.b.mutex0.Some? || s.b.mutex1.Some?)
    ensures CanStep(s, t) && s.threads[t].pc != OUTSIDE
  {
    InsideFull(s.threads);
    hide Inside;
    if s.b.mutex1.Some? {
      t := s.b.mutex1.value;
      assert ThreadOk(s.b, Owner1(s), s.threads[t], t);
      if !Ready(s.b, s.threads[t].pc) {
        t := s.b.mutex0.value;
        assert ThreadOk(s.b, Owner1(s), s.threads[t], t);
      }
    } else {
      t := s.b.mutex0.value;
      assert ThreadOk(s.b, Owner1(s), s.threads[t], t);
    }
  }

  /** No missed wake-up: while a round drains and no mutex is owned, a thread inside has been woken. */
  lemma DrainersMove(s: State) returns (t: nat)
    requires Inv(s) && s.b.blockR && s.b.mutex0 == None && s.b.mutex1 == None
    ensures CanStep(s, t) && s.threads[t].pc != OUTSIDE
  {
    InsideFull(s.threads);
    hide Inside;
    assert s.b.waiting > 0;
    t :| 0 <= t < |s.threads| && In(s.threads[t]) != 0;
    assert ThreadOk(s.b, Owner1(s), s.threads[t], t);
  }

  /** Whoever is stuck is waiting for a thread that has not called: a state in which nothing inside the barrier can
      go on has every thread either asleep in the current round or outside it, and at least one outside. */
  lemma StillMeansMissing(s: State)
    requires Reachable(s) && Still(s)
    ensures forall t :: 0 <= t < |s.threads| ==> s.threads[t].calls == s.b.drained + if s.threads[t].pc == OUTSIDE then 0 else 1
    ensures exists t :: 0 <= t < |s.threads| && s.threads[t].pc == OUTSIDE
    ensures forall t :: 0 <= t < |s.threads| && s.threads[t].pc != OUTSIDE ==> s.threads[t].pc == SLEEP_1
  {
    ReachableInv(s);
    if s.b.mutex0.Some? || s.b.mutex1.Some? { var t := OwnersMove(s); }
    if s.b.blockR { var t := DrainersMove(s); }
    InsideFull(s.threads);
    hide Inside, Reachable;
    assert s.b.count == s.b.total;
    forall t | 0 <= t < |s.threads|
      ensures s.threads[t].pc == OUTSIDE || s.threads[t].pc == SLEEP_1
      ensures s.threads[t].calls == s.b.drained + if s.threads[t].pc == OUTSIDE then 0 else 1
      ensures s.threads[t].pc == SLEEP_1 ==> s.b.waiting < s.b.total
      ensures In(s.threads[t]) == if s.threads[t].pc == SLEEP_1 then 1 else 0
    {
      assert ThreadOk(s.b, Owner1(s), s.threads[t], t);
    }
    assert In(s.threads[0]) == 1 ==> s.b.waiting < s.b.total;
  }

  /** As long as every user calls its next wait, some thread inside the barrier can take a step: no
      lock cycle and no missed wake-up. */
  lemma Progress(s: State) returns (t: nat)
    requires Reachable(s) && forall t :: 0 <= t < |s.threads| ==> s.threads[t].calls > s.b.drained
    ensures CanStep(s, t) && s.threads[t].pc != OUTSIDE
  {
    hide Reachable;
    if Still(s) { StillMeansMissing(s); assert false; }
    t :| 0 <= t < |s.threads| && s.threads[t].pc != OUTSIDE && Ready(s.b, s.threads[t].pc);
  }

  // --- the ranking

  /** All threads are in. */
  predicate Full(b: Barrier) { b.waiting >= b.count }

  /** How much a thread has left to do in the round, before and after all threads are in. */
  function Weight(full: bool, pc: Pc): (w: nat)
    ensures w <= 27
  {
    if full then
      match pc
      case SLEEP_1 => 27 case RELOCK_1 => 26 case UNLOCK_0 => 25 case CHECK_ALL => 24 case OUTSIDE => 4
      case LOCK_0 => 3 case RELOCK_0 => 3 case CHECK_BLOCK => 2 case SLEEP_0 => 1 case UNLOCK_1 => 5
      case _ => if FIRST <= pc <= LAST_REFILL then 34 - pc else 0
    else
      match pc
      case LAST_WAKE => 14 case LAST_UNLOCK_0 => 13 case UNLOCK_1 => 12 case OUTSIDE => 11 case LOCK_0 => 10
      case SLEEP_0 => 9 case RELOCK_0 => 8 case CHECK_BLOCK => 7 case LOCK_1 => 6 case ENTER => 5 case UNLOCK_0 => 4
      case RELOCK_1 => 3 case CHECK_ALL => 2 case SLEEP_1 => 1
      case _ => 0
  }

  function Load(full: bool, threads: seq<Thread>): (n: nat)
    ensures n <= 27 * |threads|
  {
    if threads == [] then 0 else Load(full, threads[..|threads| - 1]) + Weight(full, threads[|threads| - 1].pc)
  }

  // Room for the load of all threads, once for every thread that is still missing.
  function Missing(missing: nat, total: nat): nat { missing * (28 * total) }

  function Rank(s: State): nat
    requires Inv(s)
  {
    Missing(s.b.count - s.b.waiting, s.b.total) + Load(Full(s.b), s.threads)
  }

  lemma {:induction false} LoadFalls(full: bool, a: seq<Thread>, b: seq<Thread>, t: nat)
    requires |a| == |b| && t < |a| && Weight(full, b[t].pc) < Weight(full, a[t].pc)
    requires forall u :: 0 <= u < |a| ==> Weight(full, b[u].pc) <= Weight(full, a[u].pc)
    ensures Load(full, b) < Load(full, a)
    decreases |a|
  {
    hide Weight;
    var k := |a| - 1;
    if t < k { LoadFalls(full, a[..k], b[..k], t); } else { LoadNotMore(full, a[..k], b[..k]); }
  }

  lemma {:induction false} LoadNotMore(full: bool, a: seq<Thread>, b: seq<Thread>)
    requires |a| == |b| && forall u :: 0 <= u < |a| ==> Weight(full, b[u].pc) <= Weight(full, a[u].pc)
    ensures Load(full, b) <= Load(full, a)
    decreases |a|
  {
    hide Weight;
    if |a| > 0 { LoadNotMore(full, a[..|a| - 1], b[..|b| - 1]); }
  }

  lemma {:induction false} LoadUpdate(full: bool, a: seq<Thread>, t: nat, th: Thread)
    requires t < |a|
    ensures Load(full, a[t := th]) == Load(full, a) - Weight(full, a[t].pc) + Weight(full, th.pc)
    decreases |a|
  {
    hide Weight;
    var k := |a| - 1;
    if t < k {
      LoadUpdate(full, a[..k], t, th);
      assert a[t := th][..k] == a[..k][t := th];
    } else {
      assert a[t := th][..k] == a[..k];
    }
  }

  /** A step other than a count-in and a refill leaves the count of missing threads alone and moves its thread on. */
  lemma WeightFalls(b: Barrier, owner: Pc, th: Thread, t: nat)
    requires Steps(b, owner, th, t) && th.pc != ENTER && th.pc != LAST_REFILL
    ensures var b' := StepBarrier(b, th.pc, t);
            b'.count - b'.waiting == b.count - b.waiting && Full(b') == Full(b)
            && Weight(Full(b), NextPc(b, th.pc)) < Weight(Full(b), th.pc)
  {}

  lemma WokenWeight(b: Barrier, owner: Pc, th: Thread, t: nat, v: Thread)
    requires Steps(b, owner, th, t)
    ensures Weight(Full(b), Woken(th.pc, v).pc) <= Weight(Full(b), v.pc)
  {}

  lemma CountInLowersRank(s: State, t: nat)
    requires Inv(s) && CanStep(s, t) && s.threads[t].pc == ENTER && Inv(Step(s, t))
    ensures Rank(Step(s, t)) < Rank(s)
  {
    var s', k := Step(s, t), s.b.count - s.b.waiting;
    assert s'.b.count - s'.b.waiting == k - 1 && s'.b.total == s.b.total == |s.threads| > 0;
    hide Inv, Load, Weight, Ready;
    assert (k - 1) * (28 * s.b.total) == k * (28 * s.b.total) - 28 * s.b.total;
  }

  lemma StepsKnown(s: State, t: nat)
    requires Inv(s) && CanStep(s, t)
    ensures Steps(s.b, Owner1(s), s.threads[t], t)
  {
    OwnerKnown(s, t);
    CountKnown(s, t, t);
    assert ThreadOk(s.b, Owner1(s), s.threads[t], t) && BarrierOk(s.b, Owner1(s));
    hide Inv, Owner1, ThreadOk, BarrierOk, Counted, Ready, Step;
  }

  lemma WeightsFall(s: State, t: nat)
    requires Inv(s) && CanStep(s, t) && s.threads[t].pc != ENTER && s.threads[t].pc != LAST_REFILL
    ensures var b, s' := s.b, Step(s, t);
            && s'.b.count - s'.b.waiting == b.count - b.waiting && Full(s'.b) == Full(b)
            && Load(Full(b), s'.threads) < Load(Full(b), s.threads)
  {
    var s', th, owner := Step(s, t), s.threads[t], Owner1(s);
    StepsKnown(s, t);
    hide Inv, Load, Owner1, Steps, StepBarrier, Full, NextPc, Woken, Weight, Ready;
    WeightFalls(s.b, owner, th, t);
    forall u | 0 <= u < |s.threads| ensures Weight(Full(s.b), s'.threads[u].pc) <= Weight(Full(s.b), s.threads[u].pc) {
      if u != t { WokenWeight(s.b, owner, th, t, s.threads[u]); }
    }
    LoadFalls(Full(s.b), s.threads, s'.threads, t);
  }

  lemma OtherStepLowersRank(s: State, t: nat)
    requires Inv(s) && CanStep(s, t) && s.threads[t].pc != ENTER && s.threads[t].pc != LAST_REFILL && Inv(Step(s, t))
    ensures Rank(Step(s, t)) < Rank(s)
  {
    assert Step(s, t).b.total == s.b.total;
    hide Inv, Load, StepBarrier, Step, Full, Missing, Ready;
    WeightsFall(s, t);
  }

  lemma DrainedStep(s: State, t: nat)
    requires CanStep(s, t)
    ensures Step(s, t).b.drained == s.b.drained + if s.threads[t].pc == LAST_REFILL then 1 else 0
  {
    hide NextPc, Woken, StepThread, Ready;
  }

  /** Every step either completes the round or lowers the rank. */
  lemma StepLowersRank(s: State, t: nat)
    requires Inv(s) && CanStep(s, t)
    ensures Inv(Step(s, t))
    ensures if s.threads[t].pc == LAST_REFILL then Step(s, t).b.drained == s.b.drained + 1
            else Step(s, t).b.drained == s.b.drained && Rank(Step(s, t)) < Rank(s)
  {
    StepKeeps(s, t);
    DrainedStep(s, t);
    hide Inv, Rank, Ready, Step;
    if s.threads[t].pc == ENTER { CountInLowersRank(s, t); }
    else if s.threads[t].pc != LAST_REFILL { OtherStepLowersRank(s, t); }
  }

  /** A spurious wake-up raises the rank by two at most. */
  lemma WakeRank(s: State, t: nat)
    requires Inv(s) && CanWake(s, t)
    ensures Inv(Wake(s, t)) && Rank(Wake(s, t)) <= Rank(s) + 2
  {
    WakeKeeps(s, t);
    var th := Wake(s, t).threads[t];
    assert Wake(s, t) == State(s.b, s.threads[t := th]) by { hide Inv; }
    WakeWeight(Full(s.b), s, t);
    hide Inv, Load, Missing, Full, CanWake, Wake, Weight;
    LoadUpdate(Full(s.b), s.threads, t, th);
  }

  lemma WakeWeight(full: bool, s: State, t: nat)
    requires CanWake(s, t)
    ensures Weight(full, Wake(s, t).threads[t].pc) <= Weight(full, s.threads[t].pc) + 2
  {}

  function Spurious(moves: seq<Move>): nat {
    if moves == [] then 0 else (if moves[0].Spurious? then 1 else 0) + Spurious(moves[1..])
  }

  lemma {:induction false} RunLowersRank(s: State, moves: seq<Move>, s': State)
    requires Inv(s) && RunTo(s, moves, s')
    ensures Inv(s') && s'.b.drained >= s.b.drained
    ensures s'.b.drained == s.b.drained ==> |moves| + Rank(s') <= Rank(s) + 3 * Spurious(moves)
    decreases |moves|
  {
    hide Inv, Rank, CanStep, CanWake, Step;
    if |moves| > 0 {
      if moves[0].Run? { StepLowersRank(s, moves[0].t); } else { WakeRank(s, moves[0].t); }
      RunLowersRank(After(s, moves[0]), moves[1..], s');
    }
  }

  lemma MissingBounded(k: nat, n: nat)
    requires k <= n
    ensures Missing(k, n) + 27 * n <= 28 * n * (n + 1)
  {
    assert n * (28 * n) - k * (28 * n) == (n - k) * (28 * n);
    assert 28 * n * (n + 1) == n * (28 * n) + 28 * n;
  }

  lemma RankBounded(s: State)
    requires Inv(s)
    ensures Rank(s) <= 28 * |s.threads| * (|s.threads| + 1)
  {
    MissingBounded(s.b.count - s.b.waiting, |s.threads|);
    hide Inside, Threads, Load, Missing;
  }

  /** A round is over after a number of steps bounded by the number of threads and of spurious wake-ups. */
  lemma RoundsComplete(s: State, moves: seq<Move>, s': State)
    requires Reachable(s) && RunTo(s, moves, s')
    requires |moves| > 28 * |s.threads| * (|s.threads| + 1) + 3 * Spurious(moves)
    ensures s'.b.drained > s.b.drained
  {
    ReachableInv(s);
    hide Inv, Reachable, RunTo, Spurious, Rank;
    RunLowersRank(s, moves, s');
    RankBounded(s);
  }
}
