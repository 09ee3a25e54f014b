/** What the barrier guarantees in every run: any number of threads and rounds, any interleaving, any spurious wake-ups. */
module BarrierRuns {
  import opened Options
  import opened BarrierModel
  import opened BarrierInvariant

  /** A move of the system: a step of a thread, or a spurious wake-up of one. */
  datatype Move = Run(t: nat) | Spurious(t: nat)

  predicate CanMove(s: State, m: Move) {
    match m
    case Run(t) => CanStep(s, t)
    case Spurious(t) => CanWake(s, t)
  }

  function After(s: State, m: Move): (s': State)
    requires CanMove(s, m)
    ensures |s'.threads| == |s.threads|
  {
    match m
    case Run(t) => Step(s, t)
    case Spurious(t) => Wake(s, t)
  }

  predicate RunTo(s: State, moves: seq<Move>, s': State)
    decreases |moves|
  {
    if |moves| == 0 then s == s' else CanMove(s, moves[0]) && RunTo(After(s, moves[0]), moves[1..], s')
  }

  ghost predicate Reachable(s': State) {
    exists s, moves :: Init(s) && RunTo(s, moves, s')
  }

  lemma MoveKeeps(s: State, m: Move)
    requires Inv(s) && CanMove(s, m)
    ensures Inv(After(s, m))
  {
    hide Inv, CanStep, CanWake, Step, Wake;
    if m.Run? { StepKeeps(s, m.t); } else { WakeKeeps(s, m.t); }
  }

  lemma {:induction false} RunKeeps(s: State, moves: seq<Move>, s': State)
    requires Inv(s) && RunTo(s, moves, s')
    ensures Inv(s')
    decreases |moves|
  {
    hide Inv, After, CanMove;
    if |moves| > 0 {
      MoveKeeps(s, moves[0]);
      RunKeeps(After(s, moves[0]), moves[1..], s');
    }
  }

  lemma ReachableInv(s': State)
    requires Reachable(s')
    ensures Inv(s')
  {
    hide Inv, After, CanMove, Init;
    var s, moves :| Init(s) && RunTo(s, moves, s');
    InitInv(s);
    RunKeeps(s, moves, s');
  }

  // --- safety

  /** No thread returns from its r-th wait before every thread has entered its r-th wait, two threads never
      differ by more than one round, and the assert never fails. */
  lemma Safety(s: State, t: nat, u: nat)
    requires Reachable(s) && t < |s.threads| && u < |s.threads|
    ensures s.threads[t].rets <= s.threads[u].ins <= s.threads[u].calls
    ensures s.threads[t].rets <= s.threads[u].rets + 1
    ensures !s.b.failed
  {
    ReachableInv(s);
    assert ThreadOk(s.b, Owner1(s), s.threads[t], t) && ThreadOk(s.b, Owner1(s), s.threads[u], u);
    hide Reachable, Inside, Threads, Owner1;
  }

  /** When the serial thread is about to return, the fields are those of a fresh barrier and every other thread
      has been counted out. */
  lemma FieldsReset(s: State, t: nat)
    requires Reachable(s) && t < |s.threads| && s.threads[t].pc == UNLOCK_1 && s.threads[t].serial
    ensures s.b.count == s.b.total == |s.threads| && s.b.waiting == 0 && !s.b.blockR
    ensures forall u :: 0 <= u < |s.threads| ==> s.threads[u].ins == s.threads[u].outs == s.threads[t].outs
  {
    ReachableInv(s);
    assert ThreadOk(s.b, Owner1(s), s.threads[t], t);
    InsideFull(s.threads);
    forall u | 0 <= u < |s.threads| ensures s.threads[u].ins == s.threads[u].outs == s.threads[t].outs {
      assert ThreadOk(s.b, Owner1(s), s.threads[u], u);
      assert In(s.threads[u]) == 0;
    }
  }

  // --- refinement of the one-step barrier

  function Calls(s: State): (r: seq<nat>)
    ensures |r| == |s.threads| && forall t :: 0 <= t < |r| ==> r[t] == s.threads[t].calls
  {
    seq(|s.threads|, t requires 0 <= t < |s.threads| => s.threads[t].calls)
  }

  function Rets(s: State): (r: seq<nat>)
    ensures |r| == |s.threads| && forall t :: 0 <= t < |r| ==> r[t] == s.threads[t].rets
  {
    seq(|s.threads|, t requires 0 <= t < |s.threads| => s.threads[t].rets)
  }

  /** The one-step barrier lets t return from its next wait once everybody has called that wait. */
  predicate MayReturn(calls: seq<nat>, rets: seq<nat>, t: nat)
    requires |calls| == |rets| && t < |rets|
  {
    forall u :: 0 <= u < |calls| ==> calls[u] > rets[t]
  }

  /** Its serial thread is the last one to return. */
  predicate LastOut(rets: seq<nat>, t: nat)
    requires t < |rets|
  {
    forall u :: 0 <= u < |rets| && u != t ==> rets[u] > rets[t]
  }

  lemma Return(s: State, t: nat)
    requires Inv(s) && t < |s.threads| && s.threads[t].pc == UNLOCK_1
    ensures MayReturn(Calls(s), Rets(s), t)
    ensures s.threads[t].serial == LastOut(Rets(s), t)
  {
    var th := s.threads[t];
    assert ThreadOk(s.b, Owner1(s), th, t);
    InsideFull(s.threads);
    hide Inside, Owner1, BarrierOk;
    forall u | 0 <= u < |s.threads| ensures s.threads[u].calls > th.rets {
      assert ThreadOk(s.b, Owner1(s), s.threads[u], u);
    }
    if th.serial {
      forall u | 0 <= u < |s.threads| && u != t ensures s.threads[u].rets > th.rets {
        assert ThreadOk(s.b, Owner1(s), s.threads[u], u);
        assert In(s.threads[u]) == 0;
      }
    } else {
      SomeoneInside(s, t);
    }
  }

  lemma SomeoneInside(s: State, t: nat)
    requires Inv(s) && t < |s.threads| && s.threads[t].pc == UNLOCK_1 && !s.threads[t].serial
    ensures exists u :: 0 <= u < |s.threads| && u != t && s.threads[u].rets <= s.threads[t].rets
  {
    var th := s.threads[t];
    assert ThreadOk(s.b, Owner1(s), th, t);
    InsideFull(s.threads);
    assert s.b.waiting > 0;
    var u :| 0 <= u < |s.threads| && In(s.threads[u]) != 0;
    assert ThreadOk(s.b, Owner1(s), s.threads[u], u);
  }

  /** The point a move starts from. */
  function Origin(s: State, m: Move): Pc
    requires CanMove(s, m)
  {
    s.threads[m.t].pc
  }

  lemma CountersAfter(s: State, m: Move, u: nat)
    requires CanMove(s, m) && u < |s.threads|
    ensures var v, v', pc := s.threads[u], After(s, m).threads[u], Origin(s, m);
            && v'.calls == (if u == m.t && pc == OUTSIDE then v.calls + 1 else v.calls)
            && v'.rets == (if u == m.t && pc == UNLOCK_1 then v.rets + 1 else v.rets)
            && (u == m.t && pc == UNLOCK_1 ==> v'.serial == v.serial)
  {
    hide StepBarrier, NextPc, Ready;
  }

  /** Every move of the small-step system is a call, a return that the one-step barrier allows with the same
      serial result, or no move of the one-step barrier at all. */
  lemma Refinement(s: State, m: Move)
    requires Reachable(s) && CanMove(s, m)
    ensures var s', pc, t := After(s, m), Origin(s, m), m.t;
            && Calls(s') == (if pc == OUTSIDE then Calls(s)[t := Rets(s)[t] + 1] else Calls(s))
            && Rets(s') == (if pc == UNLOCK_1 then Rets(s)[t := Rets(s)[t] + 1] else Rets(s))
            && (pc == UNLOCK_1 ==> MayReturn(Calls(s), Rets(s), t) && s'.threads[t].serial == LastOut(Rets(s), t))
  {
    var s', pc, t := After(s, m), Origin(s, m), m.t;
    ReachableInv(s);
    assert ThreadOk(s.b, Owner1(s), s.threads[t], t);
    if pc == UNLOCK_1 { Return(s, t); }
    assert pc == OUTSIDE ==> s.threads[t].calls == s.threads[t].rets;
    hide Reachable, Inv, MayReturn, LastOut, ThreadOk, After, CanMove, Threads, Fields;
    forall u | 0 <= u < |s.threads|
      ensures Calls(s')[u] == (if u == t && pc == OUTSIDE then Rets(s)[t] + 1 else Calls(s)[u])
      ensures Rets(s')[u] == (if u == t && pc == UNLOCK_1 then Rets(s)[t] + 1 else Rets(s)[u])
    {
      CountersAfter(s, m, u);
    }
    if pc == UNLOCK_1 { CountersAfter(s, m, t); }
  }

  // --- exactly one serial thread

  /** The move returns 1 from the r-th wait of its thread. */
  predicate SerialReturn(s: State, m: Move, r: nat)
    requires CanMove(s, m)
  {
    Origin(s, m) == UNLOCK_1 && s.threads[m.t].serial && s.threads[m.t].rets + 1 == r
  }

  function SerialReturns(s: State, moves: seq<Move>, s': State, r: nat): nat
    requires RunTo(s, moves, s')
    decreases |moves|
  {
    if |moves| == 0 then 0
    else (if SerialReturn(s, moves[0], r) then 1 else 0) + SerialReturns(After(s, moves[0]), moves[1..], s', r)
  }

  /** Every thread has returned from its r-th wait. */
  predicate RoundOver(s: State, r: nat) { forall t :: 0 <= t < |s.threads| ==> s.threads[t].rets >= r }

  lemma SerialEndsRound(s: State, m: Move, r: nat)
    requires Inv(s) && CanMove(s, m) && r > 0
    ensures SerialReturn(s, m, r) <==> !RoundOver(s, r) && RoundOver(After(s, m), r)
    ensures RoundOver(s, r) ==> RoundOver(After(s, m), r)
  {
    var s', t := After(s, m), m.t;
    if Origin(s, m) == UNLOCK_1 { Return(s, t); }
    hide Inv, CanMove, After;
    forall u | 0 <= u < |s.threads|
      ensures s'.threads[u].rets == if u == t && Origin(s, m) == UNLOCK_1 then s.threads[u].rets + 1 else s.threads[u].rets
    {
      CountersAfter(s, m, u);
    }
    if Origin(s, m) == UNLOCK_1 {
      assert LastOut(Rets(s), t) ==> forall u :: 0 <= u < |s.threads| && u != t ==> s.threads[u].rets == Rets(s)[u] > Rets(s)[t];
      if !LastOut(Rets(s), t) {
        var u :| 0 <= u < |s.threads| && u != t && Rets(s)[u] <= Rets(s)[t];
        assert s'.threads[u].rets <= s.threads[t].rets;
      }
    }
  }

  lemma {:induction false} SerialReturnsCounted(s: State, moves: seq<Move>, s': State, r: nat)
    requires Inv(s) && RunTo(s, moves, s') && r > 0
    ensures SerialReturns(s, moves, s', r) + (if RoundOver(s, r) then 1 else 0) == if RoundOver(s', r) then 1 else 0
    decreases |moves|
  {
    hide Inv, After, CanMove, RoundOver, SerialReturn;
    if |moves| > 0 {
      MoveKeeps(s, moves[0]);
      SerialEndsRound(s, moves[0], r);
      SerialReturnsCounted(After(s, moves[0]), moves[1..], s', r);
    }
  }

  /** In every run each round gives exactly one thread the result 1, and none before everybody else has left it. */
  lemma ExactlyOneSerial(s: State, moves: seq<Move>, s': State, r: nat)
    requires Init(s) && RunTo(s, moves, s') && r > 0
    ensures SerialReturns(s, moves, s', r) == if RoundOver(s', r) then 1 else 0
  {
    InitInv(s);
    SerialReturnsCounted(s, moves, s', r);
    assert s.threads[0].rets == 0;
  }
}
