/** The barrier of the talk protocol is the one-step barrier that the hand-written barrier refines. */
module BarrierLink {
  import B = BarrierRuns
  import P = Pairing
  import opened Sizing
  import opened TalkModel

  /** users lists the workers that share barrier b, each once. */
  predicate Lists(cfg: Config, b: nat, users: seq<nat>) {
    && (forall k :: 0 <= k < |users| ==> users[k] < cfg.workers && Participant(cfg, b, users[k]))
    && (forall k, l :: 0 <= k < l < |users| ==> users[k] != users[l])
    && (forall i :: 0 <= i < cfg.workers && Participant(cfg, b, i) ==> i in users)
  }

  function Calls(cfg: Config, s: State, e: nat, b: nat, users: seq<nat>): (r: seq<nat>)
    requires Shape(cfg, s) && e < 2 && b < 3 && Lists(cfg, b, users)
    ensures |r| == |users|
  {
    seq(|users|, k requires 0 <= k < |users| => Entered(cfg, e, users[k], s.ws[e][users[k]], b))
  }

  function Rets(cfg: Config, s: State, e: nat, b: nat, users: seq<nat>): (r: seq<nat>)
    requires Shape(cfg, s) && e < 2 && b < 3 && Lists(cfg, b, users)
    ensures |r| == |users|
  {
    seq(|users|, k requires 0 <= k < |users| => s.ws[e][users[k]].waits[b])
  }

  /** The guard of a protocol barrier is that of the one-step barrier over its users. When the serial worker of each round
      is the user chosen by `choice`, as it is in every run of the hand-written barrier, a wait has the serial result
      exactly when it is the chosen user's. */
  lemma SameBarrier(cfg: Config, s: State, e: nat, b: nat, users: seq<nat>, k: nat, choice: nat -> nat)
    requires Shape(cfg, s) && e < 2 && b < 3 && Lists(cfg, b, users) && k < |users|
    requires forall r: nat :: choice(r) < |users| && cfg.serial(e, b, r) == users[choice(r)]
    ensures MayLeave(cfg, s, e, users[k], b) <==> B.MayReturn(Calls(cfg, s, e, b, users), Rets(cfg, s, e, b, users), k)
    ensures IsSerial(cfg, s, e, users[k], b) <==> choice(Rets(cfg, s, e, b, users)[k]) == k
  {
    var calls, rets, i := Calls(cfg, s, e, b, users), Rets(cfg, s, e, b, users), users[k];
    hide Participant, Entered;
    forall l | 0 <= l < |users|
      ensures calls[l] == Entered(cfg, e, users[l], s.ws[e][users[l]], b) && rets[l] == s.ws[e][users[l]].waits[b]
    {
    }
    if B.MayReturn(calls, rets, k) {
      forall j | 0 <= j < cfg.workers && Participant(cfg, b, j)
        ensures Entered(cfg, e, j, s.ws[e][j], b) > s.ws[e][i].waits[b]
      {
        var l :| 0 <= l < |users| && users[l] == j;
        assert calls[l] > rets[k];
      }
    }
    var c := choice(rets[k]);
    if c != k { assert users[c] != users[k]; }
  }

  // --- how many users

  ghost function UsersBelow(cfg: Config, e: nat, b: nat, n: nat): set<nat> {
    if n == 0 then {} else if Uses(cfg, e, n - 1, b) then UsersBelow(cfg, e, b, n - 1) + {n - 1} else UsersBelow(cfg, e, b, n - 1)
  }

  lemma {:induction false} UsersBelowCounted(cfg: Config, e: nat, b: nat, n: nat)
    ensures |UsersBelow(cfg, e, b, n)| == Users(cfg, e, b, n)
    ensures forall i: nat :: i in UsersBelow(cfg, e, b, n) <==> i < n && Uses(cfg, e, i, b)
  {
    hide Uses;
    if n > 0 { UsersBelowCounted(cfg, e, b, n - 1); }
  }

  /** The users of an initialised barrier are the workers whose path waits on it, and as many as it was initialised for:
      the hand-written barrier is run by exactly `total` threads. */
  lemma ListedUsers(cfg: Config, e: nat, b: nat, users: seq<nat>)
    requires ValidConfig(cfg) && b < 3 && Lists(cfg, b, users)
    requires TotalOf(TotalsOf(cfg.asynchronous, cfg.bidirectional, cfg.reverseFirst, cfg.workers), b).Some?
    ensures |users| == TotalOf(TotalsOf(cfg.asynchronous, cfg.bidirectional, cfg.reverseFirst, cfg.workers), b).value
    ensures forall i :: 0 <= i < cfg.workers ==> (Uses(cfg, e, i, b) <==> Participant(cfg, b, i))
  {
    hide Uses, Users;
    BarriersSized(cfg, e, b);
    UsersBelowCounted(cfg, e, b, cfg.workers);
    P.ImageSize(users);
    forall i | 0 <= i < cfg.workers ensures Uses(cfg, e, i, b) <==> Participant(cfg, b, i) {
      UsesExactly(cfg, e, i, b);
    }
    hide Participant, TotalsOf, TotalOf;
    assert P.Image(users) == UsersBelow(cfg, e, b, cfg.workers);
  }
}
