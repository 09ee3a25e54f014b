/** What the two ends of a connection say to each other in a completed run, word for word. */
module Conversation {
  import opened Growth
  import opened TalkModel
  import opened TalkEvents
  import opened TalkWorker
  import opened TalkBarrier
  import opened TalkVotes
  import opened TalkCounts
  import opened TalkInvariant
  import opened TalkProgress
  import opened TalkTermination
  import opened TalkRuns
  import opened TalkResults
  import opened Transcript

  // --- the script

  /** A handshake message is a bare header of 32 bytes; all others have the payload's size. */
  function Shake(cfg: Config, op: Op): Msg { Msg(32, op, cfg.iterations, 0, false, 0, EMPTY_RECORD) }

  function Shakes(cfg: Config, op: Op, n: nat): seq<Msg> { if n == 0 then [] else [Shake(cfg, op)] + Shakes(cfg, op, n - 1) }

  /** The stream of n messages, from the k-th on. */
  function Stream(cfg: Config, k: nat, n: nat): seq<Msg>
    decreases n - k
  {
    if k >= n then [] else [Msg(cfg.payload, StreamRun, k, 0, false, 0, EMPTY_RECORD)] + Stream(cfg, k + 1, n)
  }

  /** A round, by the sender of direction d: the count with the latency, and the stream. */
  function SenderRound(cfg: Config, d: nat, i: nat, n: nat): seq<Msg> {
    [Msg(cfg.payload, CountReq, n, cfg.latency(d, i), false, 0, EMPTY_RECORD)] + Stream(cfg, 0, n)
  }

  /** A round, by the receiver: the start with the same count, and the end with the verdict and, if weak, the duration. */
  function ReceiverRound(cfg: Config, d: nat, i: nat, r: nat, n: nat): seq<Msg> {
    var time := cfg.duration(d, r, i);
    var weak := time < cfg.minimumTime * 1000000;
    [Msg(cfg.payload, StreamStart, n, 0, false, 0, EMPTY_RECORD),
     Msg(cfg.payload, StreamEnd, 0, 0, weak, if weak then time else 0, EMPTY_RECORD)]
  }

  /** All rounds from r up to the last one, with the counts that the direction used. */
  function Rounds(cfg: Config, counts: seq<nat>, d: nat, i: nat, sender: bool, r: nat, last: nat): seq<Msg>
    requires last < |counts|
    decreases last + 1 - r
  {
    if r > last then []
    else (if sender then SenderRound(cfg, d, i, counts[r]) else ReceiverRound(cfg, d, i, r, counts[r]))
         + Rounds(cfg, counts, d, i, sender, r + 1, last)
  }

  /** One direction: the handshake, the rounds, and at the end the sender's FINISH or the receiver's REPORT. */
  function LegScript(cfg: Config, counts: seq<nat>, d: nat, i: nat, sender: bool, last: nat): seq<Msg>
    requires last < |counts|
  {
    var n := counts[last];
    var record := Record(cfg.latency(d, i), n, n, cfg.duration(d, last, i), cfg.began(d, last, i), n * cfg.payload);
    Shakes(cfg, if sender then Ping else Pong, cfg.iterations)
    + Rounds(cfg, counts, d, i, sender, 0, last)
    + [if sender then Msg(cfg.payload, FinishOp, 0, 0, false, 0, EMPTY_RECORD) else Msg(cfg.payload, ReportOp, 0, 0, false, 0, record)]
  }

  /** The last round of every leg, and its count. */
  ghost predicate LastRounds(cfg: Config, hist: seq<seq<nat>>, i: nat, last: seq<nat>) {
    && |hist| == 2 && |last| == Legs(cfg)
    && forall leg :: 0 <= leg < |last| ==> LastRound(cfg, leg, last[leg]) && last[leg] < |hist[Dir(cfg, i, leg)]|
  }

  /** Everything that worker (e, i) says from a leg on. */
  ghost function Script(cfg: Config, hist: seq<seq<nat>>, e: nat, i: nat, last: seq<nat>, leg: nat): seq<Msg>
    requires LastRounds(cfg, hist, i, last)
    decreases |last| - leg
  {
    if leg >= |last| then []
    else
      var d := Dir(cfg, i, leg);
      LegScript(cfg, hist[d], d, i, IsSender(e, d), last[leg]) + Script(cfg, hist, e, i, last, leg + 1)
  }

  // --- following the events

  /** q are the messages of the events from one up to, and not including, another. */
  predicate Follows(cfg: Config, hist: seq<seq<nat>>, i: nat, q: seq<Msg>, from: Position, to: Position)
    decreases |q|
  {
    IsEvent(from) &&
    if |q| == 0 then from == to
    else q[0] == MsgOf(cfg, hist, i, from) && Follows(cfg, hist, i, q[1..], Succ(cfg, hist, i, from), to)
  }

  lemma {:induction false} FollowsForward(cfg: Config, hist: seq<seq<nat>>, i: nat, q: seq<Msg>, from: Position, to: Position)
    requires Follows(cfg, hist, i, q, from, to)
    ensures IsEvent(from) && IsEvent(to) && if |q| == 0 then from == to else Before(from, to)
    decreases |q|
  {
    if |q| > 0 {
      SuccIsLater(cfg, hist, i, from);
      FollowsForward(cfg, hist, i, q[1..], Succ(cfg, hist, i, from), to);
    }
  }

  /** Two events determine what is said between them. */
  lemma {:induction false} FollowsUnique(cfg: Config, hist: seq<seq<nat>>, i: nat, q: seq<Msg>, q': seq<Msg>, from: Position, to: Position)
    requires Follows(cfg, hist, i, q, from, to) && Follows(cfg, hist, i, q', from, to)
    ensures q == q'
    decreases |q|
  {
    FollowsForward(cfg, hist, i, q, from, to);
    FollowsForward(cfg, hist, i, q', from, to);
    if |q| > 0 {
      FollowsUnique(cfg, hist, i, q[1..], q'[1..], Succ(cfg, hist, i, from), to);
      assert q == [q[0]] + q[1..] && q' == [q'[0]] + q'[1..];
    }
  }

  lemma {:induction false} FollowsJoin(cfg: Config, hist: seq<seq<nat>>, i: nat, a: seq<Msg>, b: seq<Msg>, from: Position, mid: Position, to: Position)
    requires Follows(cfg, hist, i, a, from, mid) && Follows(cfg, hist, i, b, mid, to)
    ensures Follows(cfg, hist, i, a + b, from, to)
    decreases |a|
  {
    if |a| == 0 {
      assert a + b == b;
    } else {
      FollowsJoin(cfg, hist, i, a[1..], b, Succ(cfg, hist, i, from), mid, to);
      assert (a + b)[1..] == a[1..] + b;
    }
  }

  lemma OneFollows(cfg: Config, hist: seq<seq<nat>>, i: nat, from: Position)
    requires IsEvent(from)
    ensures Follows(cfg, hist, i, [MsgOf(cfg, hist, i, from)], from, Succ(cfg, hist, i, from))
  {
    SuccIsLater(cfg, hist, i, from);
    hide MsgOf, Succ, IsEvent;
    assert [MsgOf(cfg, hist, i, from)][1..] == [];
  }

  lemma {:induction false} ChainFollows(cfg: Config, hist: seq<seq<nat>>, i: nat, q: seq<Msg>, from: Position, to: Position)
    requires Chain(cfg, hist, i, q, from, to)
    ensures Follows(cfg, hist, i, q, from, to)
    decreases |q|
  {
    if |q| > 0 { ChainFollows(cfg, hist, i, q[1..], Succ(cfg, hist, i, from), to); }
  }

  // --- the script follows the events

  lemma {:induction false} ShakesFollow(cfg: Config, hist: seq<seq<nat>>, i: nat, leg: nat, sender: bool, n: nat)
    requires 0 < n <= cfg.iterations
    ensures var idx := 2 * (cfg.iterations - n) + if sender then 0 else 1;
            Follows(cfg, hist, i, Shakes(cfg, if sender then Ping else Pong, n), Position(leg, 0, SHAKE, idx),
                    Position(leg, 0, if sender then NEGOTIATE else START, 0))
  {
    var from := Position(leg, 0, SHAKE, 2 * (cfg.iterations - n) + if sender then 0 else 1);
    var op := if sender then Ping else Pong;
    var to := Position(leg, 0, if sender then NEGOTIATE else START, 0);
    assert MsgOf(cfg, hist, i, from) == Shake(cfg, op);
    OneFollows(cfg, hist, i, from);
    if n > 1 {
      ShakesFollow(cfg, hist, i, leg, sender, n - 1);
      FollowsJoin(cfg, hist, i, [Shake(cfg, op)], Shakes(cfg, op, n - 1), from, Succ(cfg, hist, i, from), to);
    } else {
      assert Shakes(cfg, op, 1) == [Shake(cfg, op)];
    }
  }

  lemma {:induction false} StreamFollows(cfg: Config, hist: seq<seq<nat>>, i: nat, leg: nat, r: nat, k: nat, n: nat)
    requires k < n == CountOf(hist, Dir(cfg, i, leg), r)
    ensures Follows(cfg, hist, i, Stream(cfg, k, n), Position(leg, r, RUN, k), AfterStream(cfg, leg, r, true))
    decreases n - k
  {
    hide AfterStream, Dir;
    var from := Position(leg, r, RUN, k);
    var m := Msg(cfg.payload, StreamRun, k, 0, false, 0, EMPTY_RECORD);
    assert MsgOf(cfg, hist, i, from) == m;
    OneFollows(cfg, hist, i, from);
    if k + 1 < n {
      StreamFollows(cfg, hist, i, leg, r, k + 1, n);
      FollowsJoin(cfg, hist, i, [m], Stream(cfg, k + 1, n), from, Succ(cfg, hist, i, from), AfterStream(cfg, leg, r, true));
    } else {
      assert Stream(cfg, k, n) == [m];
    }
  }

  lemma SenderRoundFollows(cfg: Config, hist: seq<seq<nat>>, i: nat, leg: nat, r: nat, n: nat)
    requires 0 < n == CountOf(hist, Dir(cfg, i, leg), r)
    ensures Follows(cfg, hist, i, SenderRound(cfg, Dir(cfg, i, leg), i, n), Position(leg, r, NEGOTIATE, 0), AfterStream(cfg, leg, r, true))
  {
    hide AfterStream, Dir, Follows;
    var from := Position(leg, r, NEGOTIATE, 0);
    OneFollows(cfg, hist, i, from);
    StreamFollows(cfg, hist, i, leg, r, 0, n);
    FollowsJoin(cfg, hist, i, [MsgOf(cfg, hist, i, from)], Stream(cfg, 0, n), from, Position(leg, r, RUN, 0), AfterStream(cfg, leg, r, true));
  }

  lemma ReceiverRoundFollows(cfg: Config, hist: seq<seq<nat>>, i: nat, leg: nat, r: nat, n: nat)
    requires n == CountOf(hist, Dir(cfg, i, leg), r)
    ensures Follows(cfg, hist, i, ReceiverRound(cfg, Dir(cfg, i, leg), i, r, n), Position(leg, r, START, 0), AfterStream(cfg, leg, r, false))
  {
    hide AfterStream, Dir, Follows;
    var from, mid := Position(leg, r, START, 0), Position(leg, r, STREAM_END, 0);
    OneFollows(cfg, hist, i, from);
    OneFollows(cfg, hist, i, mid);
    var a, b := MsgOf(cfg, hist, i, from), MsgOf(cfg, hist, i, mid);
    FollowsJoin(cfg, hist, i, [a], [b], from, mid, AfterStream(cfg, leg, r, false));
    assert ReceiverRound(cfg, Dir(cfg, i, leg), i, r, n) == [a] + [b];
  }

  lemma {:induction false} RoundsFollow(cfg: Config, hist: seq<seq<nat>>, i: nat, leg: nat, sender: bool, r: nat, last: nat)
    requires r <= last && LastRound(cfg, leg, last)
    requires var d := Dir(cfg, i, leg); d < |hist| && last < |hist[d]| && forall k :: 0 <= k < |hist[d]| ==> hist[d][k] > 0
    ensures var d := Dir(cfg, i, leg);
            Follows(cfg, hist, i, Rounds(cfg, hist[d], d, i, sender, r, last),
                    Position(leg, r, if sender then NEGOTIATE else START, 0), Position(leg, last, if sender then FINISH else REPORT, 0))
    decreases last - r
  {
    hide Restart, Dir, Follows, SenderRound, ReceiverRound;
    var d := Dir(cfg, i, leg);
    var n := hist[d][r];
    var from, to := Position(leg, r, if sender then NEGOTIATE else START, 0), Position(leg, last, if sender then FINISH else REPORT, 0);
    if sender { SenderRoundFollows(cfg, hist, i, leg, r, n); } else { ReceiverRoundFollows(cfg, hist, i, leg, r, n); }
    var block := if sender then SenderRound(cfg, d, i, n) else ReceiverRound(cfg, d, i, r, n);
    if r < last {
      RoundsFollow(cfg, hist, i, leg, sender, r + 1, last);
      FollowsJoin(cfg, hist, i, block, Rounds(cfg, hist[d], d, i, sender, r + 1, last), from, AfterStream(cfg, leg, r, sender), to);
    } else {
      assert Rounds(cfg, hist[d], d, i, sender, r, last) == block + [] == block;
    }
  }

  lemma LegFollows(cfg: Config, hist: seq<seq<nat>>, i: nat, leg: nat, sender: bool, last: nat)
    requires LastRound(cfg, leg, last) && cfg.iterations > 0
    requires var d := Dir(cfg, i, leg); d < |hist| && last < |hist[d]| && forall k :: 0 <= k < |hist[d]| ==> hist[d][k] > 0
    ensures var d := Dir(cfg, i, leg);
            Follows(cfg, hist, i, LegScript(cfg, hist[d], d, i, sender, last),
                    Position(leg, 0, SHAKE, if sender then 0 else 1), Position(leg + 1, 0, SHAKE, if sender then 1 else 0))
  {
    hide LastRound, Dir, Follows, Rounds, Shakes;
    var d := Dir(cfg, i, leg);
    var start, mid, end := Position(leg, 0, SHAKE, if sender then 0 else 1), Position(leg, 0, if sender then NEGOTIATE else START, 0),
                           Position(leg, last, if sender then FINISH else REPORT, 0);
    var a, b := Shakes(cfg, if sender then Ping else Pong, cfg.iterations), Rounds(cfg, hist[d], d, i, sender, 0, last);
    ShakesFollow(cfg, hist, i, leg, sender, cfg.iterations);
    RoundsFollow(cfg, hist, i, leg, sender, 0, last);
    FollowsJoin(cfg, hist, i, a, b, start, mid, end);
    OneFollows(cfg, hist, i, end);
    FollowsJoin(cfg, hist, i, a + b, [MsgOf(cfg, hist, i, end)], start, end, Succ(cfg, hist, i, end));
  }

  /** The end sends the pings of a leg; with every leg the roles swap. */
  predicate SendsFirst(cfg: Config, e: nat, i: nat, leg: nat) { IsSender(e, Dir(cfg, i, 0)) == (leg % 2 == 0) }

  lemma RolesSwap(cfg: Config, e: nat, i: nat, leg: nat)
    requires leg < Legs(cfg) && e < 2
    ensures IsSender(e, Dir(cfg, i, leg)) == SendsFirst(cfg, e, i, leg)
    ensures SendsFirst(cfg, e, i, leg + 1) == !SendsFirst(cfg, e, i, leg)
  {}

  lemma {:induction false} ScriptFollows(cfg: Config, hist: seq<seq<nat>>, e: nat, i: nat, last: seq<nat>, leg: nat)
    requires ValidConfig(cfg) && e < 2 && LastRounds(cfg, hist, i, last) && leg <= |last|
    requires forall d, k :: 0 <= d < 2 && 0 <= k < |hist[d]| ==> hist[d][k] > 0
    ensures Follows(cfg, hist, i, Script(cfg, hist, e, i, last, leg), Position(leg, 0, SHAKE, if SendsFirst(cfg, e, i, leg) then 0 else 1),
                    Position(Legs(cfg), 0, SHAKE, if SendsFirst(cfg, e, i, Legs(cfg)) then 0 else 1))
    decreases |last| - leg
  {
    hide LastRound, LegScript, Dir, SendsFirst;
    if leg < |last| {
      var d := Dir(cfg, i, leg);
      var sender := IsSender(e, d);
      RolesSwap(cfg, e, i, leg);
      LegFollows(cfg, hist, i, leg, sender, last[leg]);
      ScriptFollows(cfg, hist, e, i, last, leg + 1);
      FollowsJoin(cfg, hist, i, LegScript(cfg, hist[d], d, i, sender, last[leg]), Script(cfg, hist, e, i, last, leg + 1),
                  Position(leg, 0, SHAKE, if sender then 0 else 1), Position(leg + 1, 0, SHAKE, if sender then 1 else 0),
                  Position(Legs(cfg), 0, SHAKE, if SendsFirst(cfg, e, i, Legs(cfg)) then 0 else 1));
    }
  }

  // --- what is sent in a run

  lemma StepSays(cfg: Config, s: State, e: nat, i: nat)
    requires Inv(cfg, s) && Id(cfg, e, i) && CanStep(cfg, s, e, i) && !Step(cfg, s, e, i).aborted
    ensures Inv(cfg, Step(cfg, s, e, i)) && Extends(s.hist, Step(cfg, s, e, i).hist)
    ensures var w, w' := s.ws[e][i], Step(cfg, s, e, i).ws[e][i];
            var ev := NextSend(cfg, e, i, w);
            if Next(cfg, e, i, w) == Send
            then HasCount(cfg, s.hist, i, ev) && NextMessage(cfg, s, e, i) == MsgOf(cfg, s.hist, i, ev)
                 && NextSend(cfg, e, i, w') == Succ(cfg, s.hist, i, ev)
            else NextSend(cfg, e, i, w') == ev
  {
    hide Workers, Connections, Barriers, Votes, Counts, MayLeave, MeetsReader, Next, NextSend, NextReceive, StepWait, StepSend,
      StepReceive, StepLocal, Succ, MsgOf, HasCount;
    StepKeeps(cfg, s, e, i);
    match Next(cfg, e, i, s.ws[e][i]) {
      case Wait(b) => WaitSays(cfg, s, e, i, b);
      case Send => SendSays(cfg, s, e, i);
      case Receive => ReceiveSays(cfg, s, e, i);
      case Local => LocalSays(cfg, s, e, i);
      case Stop =>
    }
  }

  lemma WaitSays(cfg: Config, s: State, e: nat, i: nat, b: nat)
    requires Inv(cfg, s) && Id(cfg, e, i) && b < 3 && Next(cfg, e, i, s.ws[e][i]) == Wait(b) && MayLeave(cfg, s, e, i, b)
    requires !StepWait(cfg, s, e, i, b).aborted
    ensures var s' := StepWait(cfg, s, e, i, b);
            s'.hist == s.hist && NextSend(cfg, e, i, s'.ws[e][i]) == NextSend(cfg, e, i, s.ws[e][i])
  {
    hide WorkerOk, MayLeave, Counts, Barriers, Votes, Connections, IsSerial, Next, NextSend, AfterWait;
    WaitsShape(cfg, s, e, i);
    WaitReadyHolds(cfg, s, e, i, b);
    WaitKeeps(cfg, s.hist, e, i, s.ws[e][i], b, IsSerial(cfg, s, e, i, b));
  }

  lemma SendSays(cfg: Config, s: State, e: nat, i: nat)
    requires Inv(cfg, s) && Id(cfg, e, i) && Next(cfg, e, i, s.ws[e][i]) == Send
    ensures var s', ev := StepSend(cfg, s, e, i), NextSend(cfg, e, i, s.ws[e][i]);
            && s'.hist == s.hist && HasCount(cfg, s.hist, i, ev) && NextMessage(cfg, s, e, i) == MsgOf(cfg, s.hist, i, ev)
            && NextSend(cfg, e, i, s'.ws[e][i]) == Succ(cfg, s.hist, i, ev)
  {
    hide WorkerOk, Counts, Barriers, Votes, Connections, Outgoing, Next, NextSend, NextReceive, AfterSend, Succ, MsgOf, HasCount;
    WaitsShape(cfg, s, e, i);
    SendCount(cfg, s, e, i);
    SendKeeps(cfg, s.hist, e, i, s.ws[e][i], s.sh[e].count[Dir(cfg, i, s.ws[e][i].pos.leg)]);
  }

  lemma ReceiveSays(cfg: Config, s: State, e: nat, i: nat)
    requires Inv(cfg, s) && Id(cfg, e, i) && Next(cfg, e, i, s.ws[e][i]) == Receive && |s.q[Peer(e)][i]| > 0
    requires !StepReceive(cfg, s, e, i).aborted
    ensures var s' := StepReceive(cfg, s, e, i);
            s'.hist == s.hist && NextSend(cfg, e, i, s'.ws[e][i]) == NextSend(cfg, e, i, s.ws[e][i])
  {
    hide WorkerOk, Counts, Barriers, Votes, Connections, Next, NextSend, NextReceive, AfterReceive, Succ, MsgOf, HasCount, Faulty;
    WaitsShape(cfg, s, e, i);
    HeadExpected(cfg, s, e, i);
    CountsPositive(cfg, s);
    NotFaulty(cfg, s.hist, e, i, s.ws[e][i]);
    ReceiveKeeps(cfg, s.hist, e, i, s.ws[e][i]);
  }

  lemma LocalSays(cfg: Config, s: State, e: nat, i: nat)
    requires Inv(cfg, s) && Id(cfg, e, i) && Next(cfg, e, i, s.ws[e][i]) == Local
    ensures var s' := StepLocal(cfg, s, e, i);
            Extends(s.hist, s'.hist) && NextSend(cfg, e, i, s'.ws[e][i]) == NextSend(cfg, e, i, s.ws[e][i])
  {
    hide WorkerOk, Counts, Barriers, Votes, Connections, SharedAfterLocal, LocalReady, Next, NextSend, NextReceive, AfterLocal;
    WaitsShape(cfg, s, e, i);
    LocalShared(cfg, i, s.ws[e][i], s.sh[e]);
    LocalReadyHolds(cfg, s, e, i);
    LocalKeeps(cfg, s.hist, e, i, s.ws[e][i], s.sh[e]);
  }

  lemma OthersSay(cfg: Config, s: State, a: nat, j: nat, e: nat, i: nat)
    requires Inv(cfg, s) && Id(cfg, a, j) && Id(cfg, e, i) && (a != e || j != i) && CanStep(cfg, s, a, j)
    ensures |Step(cfg, s, a, j).ws| == 2 && |Step(cfg, s, a, j).ws[e]| == cfg.workers
    ensures Step(cfg, s, a, j).ws[e][i] == s.ws[e][i]
  {
    hide Workers, Connections, Barriers, Votes, Counts, MayLeave, MeetsReader, Next, AfterWait, AfterSend, AfterReceive, AfterLocal,
      Outgoing, SharedAfterLocal, Faulty, WaitAborts, ReceiveAborts, IsSerial;
  }

  /** What a worker says in a part of a run are the messages of the events from its next one before to its next one after. */
  lemma {:induction false} SentFollows(cfg: Config, s: State, moves: seq<(nat, nat)>, t: State, e: nat, i: nat)
    requires Inv(cfg, s) && RunTo(cfg, s, moves, t) && !t.aborted && Id(cfg, e, i)
    ensures Inv(cfg, t) && Extends(s.hist, t.hist)
    ensures Chain(cfg, t.hist, i, Sent(cfg, s, moves, t, e, i), NextSend(cfg, e, i, s.ws[e][i]), NextSend(cfg, e, i, t.ws[e][i]))
    decreases |moves|
  {
    hide Workers, Connections, Barriers, Votes, Counts, Step, CanStep, NextMessage, Next, NextSend, Succ, MsgOf, HasCount;
    if |moves| == 0 {
      SendsEvent(cfg, s, e, i);
    } else {
      var (a, j) := moves[0];
      var s' := Step(cfg, s, a, j);
      if s'.aborted { AbortStops(cfg, s', moves[1..], t); }
      StepSays(cfg, s, a, j);
      if a != e || j != i { OthersSay(cfg, s, a, j, e, i); }
      SentFollows(cfg, s', moves[1..], t, e, i);
      if SendsOn(cfg, s, a, j, e, i) {
        var ev, m := NextSend(cfg, e, i, s.ws[e][i]), NextMessage(cfg, s, e, i);
        SendsEvent(cfg, s, e, i);
        SendsEvent(cfg, s', e, i);
        hide Inv, RunTo;
        Said(cfg, s.hist, t.hist, i, m, Sent(cfg, s', moves[1..], t, e, i), ev, NextSend(cfg, e, i, t.ws[e][i]));
      } else {
        hide Inv, RunTo;
        assert [] + Sent(cfg, s', moves[1..], t, e, i) == Sent(cfg, s', moves[1..], t, e, i);
      }
    }
  }

  lemma SendsEvent(cfg: Config, s: State, e: nat, i: nat)
    requires Inv(cfg, s) && Id(cfg, e, i)
    ensures IsEvent(NextSend(cfg, e, i, s.ws[e][i]))
  {
    hide Workers, Connections, Barriers, Votes, Counts, IsSender, Dir;
  }

  // One message more at the front, known from an earlier history.
  lemma Said(cfg: Config, h: seq<seq<nat>>, h': seq<seq<nat>>, i: nat, m: Msg, rest: seq<Msg>, ev: Position, to: Position)
    requires Extends(h, h') && IsEvent(ev) && HasCount(cfg, h, i, ev) && m == MsgOf(cfg, h, i, ev)
    requires Chain(cfg, h', i, rest, Succ(cfg, h, i, ev), to)
    ensures Chain(cfg, h', i, [m] + rest, ev, to)
  {
    CountExtends(h, h', Dir(cfg, i, ev.leg), ev.round);
    assert ([m] + rest)[1..] == rest;
  }

  // --- a completed run

  lemma FinishedLasts(cfg: Config, t: State, i: nat) returns (last: seq<nat>)
    requires ValidConfig(cfg) && Reachable(cfg, t) && Shape(cfg, t) && Finished(cfg, t) && i < cfg.workers
    ensures LastRounds(cfg, t.hist, i, last)
  {
    hide Reachable, Finished, LastRound;
    var first := SameRecords(cfg, t, Dir(cfg, i, 0));
    last := [first];
    if Legs(cfg) == 2 {
      var second := SameRecords(cfg, t, Dir(cfg, i, 1));
      last := [first, second];
    }
  }

  lemma Ends(cfg: Config, t: State, e: nat, i: nat)
    requires Inv(cfg, t) && Finished(cfg, t) && Id(cfg, e, i)
    ensures NextSend(cfg, e, i, t.ws[e][i]) == Position(Legs(cfg), 0, SHAKE, if SendsFirst(cfg, e, i, Legs(cfg)) then 0 else 1)
    ensures NextReceive(cfg, e, i, t.ws[e][i]) == Position(Legs(cfg), 0, SHAKE, if SendsFirst(cfg, e, i, Legs(cfg)) then 1 else 0)
  {
    assert WorkerOk(cfg, t.hist, e, i, t.ws[e][i]);
    hide Workers, Connections, Barriers, Votes, Counts, WaitsOk, DataOk, PastOk, RoundOk, StageAt;
    RolesSwap(cfg, e, i, t.ws[e][i].pos.leg);
  }

  lemma NothingLeft(cfg: Config, t: State, e: nat, i: nat)
    requires Inv(cfg, t) && Finished(cfg, t) && Id(cfg, e, i)
    ensures t.q[e][i] == []
  {
    hide Workers, Barriers, Votes, Counts, NextSend, NextReceive, Finished;
    assert Connected(cfg, t, i);
    Ends(cfg, t, e, i);
    Ends(cfg, t, Peer(e), i);
    ChainIsForward(cfg, t.hist, i, t.q[e][i], NextReceive(cfg, Peer(e), i, t.ws[Peer(e)][i]), NextSend(cfg, e, i, t.ws[e][i]));
  }

  lemma NotAborted(cfg: Config, t: State)
    requires ValidConfig(cfg) && Reachable(cfg, t) && Shape(cfg, t) && Finished(cfg, t)
    ensures !t.aborted
  {
    hide Inv, Reachable, Finished, AtMaximum;
    ReachableInv(cfg, t);
    FinishedBelowMaximum(cfg, t);
    if t.aborted { AbortOnlyAtMaximum(cfg, t); }
  }

  /** The whole conversation: in every run that completes, each worker has said exactly its script, and its peer has received
      exactly that. The script has the handshakes, all restarted rounds and the accepted ones with their counts, streams,
      verdicts and times, the reports and the ends, every message with its length and all of its fields. */
  lemma WholeConversation(cfg: Config, s: State, moves: seq<(nat, nat)>, t: State, e: nat, i: nat) returns (last: seq<nat>)
    requires ValidConfig(cfg) && Initial(cfg, s) && RunTo(cfg, s, moves, t) && Shape(cfg, t) && Finished(cfg, t)
    requires Id(cfg, e, i)
    ensures LastRounds(cfg, t.hist, i, last)
    ensures Sent(cfg, s, moves, t, e, i) == Received(cfg, s, moves, t, e, i) == Script(cfg, t.hist, e, i, last, 0)
  {
    hide Workers, Connections, Barriers, Votes, Counts, RunTo, Finished, Sent, Received, Script, LastRounds, Follows, Chain;
    assert Reachable(cfg, t);
    last := FinishedLasts(cfg, t, i);
    NotAborted(cfg, t);
    InitialInv(cfg, s);
    SentFollows(cfg, s, moves, t, e, i);
    Conserved(cfg, s, moves, t, e, i);
    NothingLeft(cfg, t, e, i);
    assert s.q[e][i] == [];
    var sent := Sent(cfg, s, moves, t, e, i);
    assert s.q[e][i] + sent == sent && Received(cfg, s, moves, t, e, i) + t.q[e][i] == Received(cfg, s, moves, t, e, i);
    Begins(cfg, s, e, i);
    Ends(cfg, t, e, i);
    CountsPositive(cfg, t);
    var from, to := NextSend(cfg, e, i, s.ws[e][i]), NextSend(cfg, e, i, t.ws[e][i]);
    ChainFollows(cfg, t.hist, i, sent, from, to);
    ScriptFollows(cfg, t.hist, e, i, last, 0);
    hide Inv, NextSend, SendsFirst;
    FollowsUnique(cfg, t.hist, i, sent, Script(cfg, t.hist, e, i, last, 0), from, to);
  }

  lemma Begins(cfg: Config, s: State, e: nat, i: nat)
    requires Initial(cfg, s) && Id(cfg, e, i)
    ensures NextSend(cfg, e, i, s.ws[e][i]) == Position(0, 0, SHAKE, if SendsFirst(cfg, e, i, 0) then 0 else 1)
  {}
}
