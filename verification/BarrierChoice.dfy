/** Every run of the hand-written barrier gives the serial result as one function of the round, chosen among its users. */
module BarrierChoice {
  import opened Options
  import opened BarrierModel
  import opened BarrierInvariant
  import opened BarrierRuns

  /** Every return of the run has the serial result exactly when the choice for its round is its own thread. */
  ghost predicate Conforms(s: State, moves: seq<Move>, s': State, choice: nat -> nat)
    requires RunTo(s, moves, s')
    decreases |moves|
  {
    |moves| > 0 ==>
      && MoveConforms(s, moves[0], choice)
      && Conforms(After(s, moves[0]), moves[1..], s', choice)
  }

  predicate MoveConforms(s: State, m: Move, choice: nat -> nat)
    requires CanMove(s, m)
  {
    Origin(s, m) == UNLOCK_1 ==> (s.threads[m.t].serial <==> choice(s.threads[m.t].rets) == m.t)
  }

  /** Where a round is not over, its choice has not returned from it yet. Rounds are counted from 0 here. */
  ghost predicate Open(s: State, choice: nat -> nat) {
    forall r: nat :: OpenAt(s, choice, r)
  }

  predicate OpenAt(s: State, choice: nat -> nat, r: nat) {
    !RoundOver(s, r + 1) ==> choice(r) < |s.threads| && s.threads[choice(r)].rets <= r
  }

  /** Some thread that has not returned from the round, or any. */
  ghost function Straggler(s: State, r: nat): (t: nat)
    requires |s.threads| > 0
    ensures t < |s.threads| && (!RoundOver(s, r + 1) ==> s.threads[t].rets <= r)
  {
    if t: nat :| t < |s.threads| && s.threads[t].rets <= r then t else 0
  }

  // A choice for a round that is over concerns no later return.
  lemma {:induction false} OverIsFree(s: State, moves: seq<Move>, s': State, choice: nat -> nat, choice': nat -> nat, r: nat)
    requires Inv(s) && RunTo(s, moves, s') && RoundOver(s, r + 1) && Conforms(s, moves, s', choice)
    requires forall k: nat :: k != r ==> choice'(k) == choice(k)
    ensures Conforms(s, moves, s', choice')
    decreases |moves|
  {
    hide Inv, After, CanMove;
    if |moves| > 0 {
      MoveKeeps(s, moves[0]);
      SerialEndsRound(s, moves[0], r + 1);
      OverIsFree(After(s, moves[0]), moves[1..], s', choice, choice', r);
      assert MoveConforms(s, moves[0], choice') by { ThreadOfMove(s, moves[0]); }
    }
  }

  lemma ThreadOfMove(s: State, m: Move)
    requires CanMove(s, m)
    ensures m.t < |s.threads|
  {}

  // A choice that has not returned after the move has not returned before it.
  lemma StaysOpen(s: State, m: Move, choice: nat -> nat, k: nat)
    requires Inv(s) && CanMove(s, m) && OpenAt(After(s, m), choice, k) && !SerialReturn(s, m, k + 1)
    ensures OpenAt(s, choice, k)
  {
    SerialEndsRound(s, m, k + 1);
    hide Inv, CanMove, After, RoundOver, SerialReturn;
    if choice(k) < |s.threads| { CountersAfter(s, m, choice(k)); }
  }

  /** What one more move at the front asks of the choice. */
  lemma Extended(s: State, m: Move, choice: nat -> nat)
    requires Inv(s) && CanMove(s, m) && Open(After(s, m), choice)
    ensures var t := m.t;
            var r := s.threads[t].rets;
            if Origin(s, m) == UNLOCK_1 && s.threads[t].serial
            then RoundOver(After(s, m), r + 1) && !RoundOver(s, r + 1) && forall k: nat :: k != r ==> OpenAt(s, choice, k)
            else MoveConforms(s, m, choice) && Open(s, choice)
  {
    var r := s.threads[m.t].rets;
    SerialEndsRound(s, m, r + 1);
    if Origin(s, m) == UNLOCK_1 && !s.threads[m.t].serial { NotChosen(s, m, choice); }
    hide Inv, After, RoundOver, CanMove, OpenAt;
    forall k: nat | !SerialReturn(s, m, k + 1) ensures OpenAt(s, choice, k) {
      StaysOpen(s, m, choice, k);
    }
  }

  lemma NotChosen(s: State, m: Move, choice: nat -> nat)
    requires Inv(s) && CanMove(s, m) && Open(After(s, m), choice)
    requires Origin(s, m) == UNLOCK_1 && !s.threads[m.t].serial
    ensures choice(s.threads[m.t].rets) != m.t
  {
    NotOverYet(s, m, s.threads[m.t].rets);
    assert OpenAt(After(s, m), choice, s.threads[m.t].rets);
    hide Inv, After, RoundOver, CanMove, Open;
    CountersAfter(s, m, m.t);
  }

  lemma NotOverYet(s: State, m: Move, r: nat)
    requires Inv(s) && CanMove(s, m) && Origin(s, m) == UNLOCK_1 && !s.threads[m.t].serial && r == s.threads[m.t].rets
    ensures !RoundOver(After(s, m), r + 1)
  {
    SerialEndsRound(s, m, r + 1);
    hide Inv, After, CanMove;
  }

  /** The serial results of every run are a function of the round. */
  lemma {:induction false} ChoiceExists(s: State, moves: seq<Move>, s': State) returns (choice: nat -> nat)
    requires Inv(s) && RunTo(s, moves, s')
    ensures Conforms(s, moves, s', choice) && Open(s, choice)
    decreases |moves|
  {
    if |moves| == 0 {
      assert |s.threads| > 0;
      choice := r => Straggler(s, r);
    } else {
      var m := moves[0];
      var s1 := After(s, m);
      MoveKeeps(s, m);
      var rest := ChoiceExists(s1, moves[1..], s');
      Extended(s, m, rest);
      ThreadOfMove(s, m);
      hide Inv, After, RoundOver, CanMove;
      if Origin(s, m) == UNLOCK_1 && s.threads[m.t].serial {
        var r, t := s.threads[m.t].rets, m.t;
        choice := k => if k == r then t else rest(k);
        assert forall k: nat :: k != r && OpenAt(s, rest, k) ==> OpenAt(s, choice, k);
        OverIsFree(s1, moves[1..], s', rest, choice, r);
      } else {
        choice := rest;
      }
    }
  }

  /** For every run from a fresh barrier there is a choice of one user for each round, such that every wait of the run
      returns the serial result exactly when it is the chosen thread's. */
  lemma SerialIsChosen(s: State, moves: seq<Move>, s': State) returns (choice: nat -> nat)
    requires Init(s) && RunTo(s, moves, s')
    ensures Conforms(s, moves, s', choice) && forall r: nat :: choice(r) < |s.threads|
  {
    InitInv(s);
    choice := ChoiceExists(s, moves, s');
    forall r: nat ensures choice(r) < |s.threads| {
      assert s.threads[0].rets == 0;
      assert OpenAt(s, choice, r) && !RoundOver(s, r + 1);
    }
  }
}
