/** What each worker has sent and received over a run, and the lengths it asked for. */
module Transcript {
  import opened TalkModel
  import opened TalkEvents
  import opened TalkWorker
  import opened TalkBarrier
  import opened TalkVotes
  import opened TalkCounts
  import opened TalkInvariant
  import opened TalkRuns

  /** The message that worker (e, i) sends next. */
  function NextMessage(cfg: Config, s: State, e: nat, i: nat): Msg
    requires Shape(cfg, s) && Id(cfg, e, i)
  {
    var w := s.ws[e][i];
    Outgoing(cfg, i, w, s.sh[e].count[Dir(cfg, i, w.pos.leg)])
  }

  /** The step of (a, j) sends on the channel of (e, i). */
  predicate SendsOn(cfg: Config, s: State, a: nat, j: nat, e: nat, i: nat)
    requires Shape(cfg, s) && Id(cfg, e, i)
  {
    a == e && j == i && Next(cfg, e, i, s.ws[e][i]) == Send
  }

  /** The step of (a, j) takes a message from the channel of (e, i). */
  predicate TakesFrom(cfg: Config, s: State, a: nat, j: nat, e: nat, i: nat)
    requires Shape(cfg, s) && Id(cfg, e, i) && Id(cfg, a, j) && CanStep(cfg, s, a, j)
  {
    a == Peer(e) && j == i && Next(cfg, a, j, s.ws[a][j]) == Receive && !Step(cfg, s, a, j).fault && !Step(cfg, s, a, j).aborted
  }

  /** All messages that worker (e, i) sends in a run. */
  function Sent(cfg: Config, s: State, moves: seq<(nat, nat)>, t: State, e: nat, i: nat): seq<Msg>
    requires RunTo(cfg, s, moves, t) && Id(cfg, e, i)
    decreases |moves|
  {
    if |moves| == 0 then []
    else
      var (a, j) := moves[0];
      (if SendsOn(cfg, s, a, j, e, i) then [NextMessage(cfg, s, e, i)] else [])
      + Sent(cfg, Step(cfg, s, a, j), moves[1..], t, e, i)
  }

  /** All messages that its peer receives from it. */
  function Received(cfg: Config, s: State, moves: seq<(nat, nat)>, t: State, e: nat, i: nat): seq<Msg>
    requires RunTo(cfg, s, moves, t) && Id(cfg, e, i)
    decreases |moves|
  {
    if |moves| == 0 then []
    else
      var (a, j) := moves[0];
      (if TakesFrom(cfg, s, a, j, e, i) then [s.q[e][i][0]] else [])
      + Received(cfg, Step(cfg, s, a, j), moves[1..], t, e, i)
  }

  /** The lengths that the peer asked for, each from its own stage. */
  function Asked(cfg: Config, s: State, moves: seq<(nat, nat)>, t: State, e: nat, i: nat): seq<nat>
    requires RunTo(cfg, s, moves, t) && Id(cfg, e, i)
    decreases |moves|
  {
    if |moves| == 0 then []
    else
      var (a, j) := moves[0];
      (if TakesFrom(cfg, s, a, j, e, i) then [Length(cfg, s.ws[a][j].stage)] else [])
      + Asked(cfg, Step(cfg, s, a, j), moves[1..], t, e, i)
  }

  // --- the channel between them

  lemma StepChannel(cfg: Config, s: State, a: nat, j: nat, e: nat, i: nat)
    requires Shape(cfg, s) && Id(cfg, e, i) && Id(cfg, a, j) && CanStep(cfg, s, a, j) && Shape(cfg, Step(cfg, s, a, j))
    ensures var q, q' := s.q[e][i], Step(cfg, s, a, j).q[e][i];
            if SendsOn(cfg, s, a, j, e, i) then q' == q + [NextMessage(cfg, s, e, i)]
            else if TakesFrom(cfg, s, a, j, e, i) then |q| > 0 && q' == q[1..]
            else q' == q
  {
    hide AfterWait, AfterSend, AfterReceive, AfterLocal, Outgoing, SharedAfterLocal, MayLeave, MeetsReader, Faulty,
      WaitAborts, ReceiveAborts, ActAt, IsSerial;
  }

  lemma Joined<T>(q: seq<T>, q': seq<T>, out: seq<T>, taken: seq<T>, sent: seq<T>, received: seq<T>, last: seq<T>)
    requires q + out == taken + q' && q' + sent == received + last
    ensures q + (out + sent) == (taken + received) + last
  {
    assert q + (out + sent) == (q + out) + sent == taken + (q' + sent);
  }

  /** What is sent is what is received and what is still in the channel. */
  lemma {:induction false} Conserved(cfg: Config, s: State, moves: seq<(nat, nat)>, t: State, e: nat, i: nat)
    requires Inv(cfg, s) && RunTo(cfg, s, moves, t) && Id(cfg, e, i)
    ensures Inv(cfg, t) && s.q[e][i] + Sent(cfg, s, moves, t, e, i) == Received(cfg, s, moves, t, e, i) + t.q[e][i]
    decreases |moves|
  {
    hide Workers, Connections, Barriers, Votes, Counts, Step, CanStep, NextMessage, SendsOn, TakesFrom, Next;
    if |moves| > 0 {
      var (a, j) := moves[0];
      var s' := Step(cfg, s, a, j);
      StepKeeps(cfg, s, a, j);
      Conserved(cfg, s', moves[1..], t, e, i);
      TakesFound(cfg, s, a, j, e, i);
      var out := if SendsOn(cfg, s, a, j, e, i) then [NextMessage(cfg, s, e, i)] else [];
      var taken := if TakesFrom(cfg, s, a, j, e, i) then [s.q[e][i][0]] else [];
      ChannelStep(cfg, s, a, j, e, i, out, taken);
      hide Inv, Shape;
      Joined(s.q[e][i], s'.q[e][i], out, taken, Sent(cfg, s', moves[1..], t, e, i), Received(cfg, s', moves[1..], t, e, i), t.q[e][i]);
    }
  }

  lemma ChannelStep(cfg: Config, s: State, a: nat, j: nat, e: nat, i: nat, out: seq<Msg>, taken: seq<Msg>)
    requires Shape(cfg, s) && Id(cfg, e, i) && Id(cfg, a, j) && CanStep(cfg, s, a, j) && Shape(cfg, Step(cfg, s, a, j))
    requires out == if SendsOn(cfg, s, a, j, e, i) then [NextMessage(cfg, s, e, i)] else []
    requires TakesFrom(cfg, s, a, j, e, i) ==> |s.q[e][i]| > 0
    requires taken == if TakesFrom(cfg, s, a, j, e, i) then [s.q[e][i][0]] else []
    ensures s.q[e][i] + out == taken + Step(cfg, s, a, j).q[e][i]
  {
    StepChannel(cfg, s, a, j, e, i);
    hide SendsOn, NextMessage, Step, CanStep;
    assert TakesFrom(cfg, s, a, j, e, i) ==> !SendsOn(cfg, s, a, j, e, i) by { TakesFound(cfg, s, a, j, e, i); }
    hide TakesFrom;
    assert taken == [] ==> [] + Step(cfg, s, a, j).q[e][i] == Step(cfg, s, a, j).q[e][i];
  }

  lemma TakesFound(cfg: Config, s: State, a: nat, j: nat, e: nat, i: nat)
    requires Shape(cfg, s) && Id(cfg, e, i) && Id(cfg, a, j) && CanStep(cfg, s, a, j)
    ensures TakesFrom(cfg, s, a, j, e, i) ==> !SendsOn(cfg, s, a, j, e, i) && |s.q[e][i]| > 0
  {
    hide Step, MayLeave, MeetsReader;
    assert Peer(Peer(e)) == e;
  }

  // --- the lengths

  /** A worker about to receive asks for the length of the message it expects, whether or not that has been sent yet. */
  lemma AsksForExpected(cfg: Config, t: State, a: nat, i: nat)
    requires Inv(cfg, t) && Id(cfg, a, i) && Next(cfg, a, i, t.ws[a][i]) == Receive
    ensures Length(cfg, t.ws[a][i].stage) == MsgOf(cfg, t.hist, i, t.ws[a][i].pos).len
    ensures NextReceive(cfg, a, i, t.ws[a][i]) == t.ws[a][i].pos
  {
    WaitsShape(cfg, t, a, i);
    hide Workers, Connections, Inv, WorkerOk, MsgOf;
    NotFaulty(cfg, t.hist, a, i, t.ws[a][i]);
  }

  lemma TakenLength(cfg: Config, s: State, e: nat, i: nat)
    requires Inv(cfg, s) && Id(cfg, e, i) && |s.q[e][i]| > 0 && Next(cfg, Peer(e), i, s.ws[Peer(e)][i]) == Receive
    ensures Length(cfg, s.ws[Peer(e)][i].stage) == s.q[e][i][0].len
  {
    assert Peer(Peer(e)) == e;
    AsksForExpected(cfg, s, Peer(e), i);
    hide Workers, Barriers, WorkerOk, MsgOf, NextReceive, Next;
    HeadExpected(cfg, s, Peer(e), i);
  }

  lemma {:induction false} AskedIsReceived(cfg: Config, s: State, moves: seq<(nat, nat)>, t: State, e: nat, i: nat)
    requires Inv(cfg, s) && RunTo(cfg, s, moves, t) && Id(cfg, e, i)
    ensures var asked, received := Asked(cfg, s, moves, t, e, i), Received(cfg, s, moves, t, e, i);
            |asked| == |received| && forall k :: 0 <= k < |asked| ==> asked[k] == received[k].len
    decreases |moves|
  {
    hide Workers, Connections, Barriers, Votes, Counts, Step, CanStep, NextMessage, SendsOn, Next, Length;
    if |moves| > 0 {
      var (a, j) := moves[0];
      StepKeeps(cfg, s, a, j);
      assert Shape(cfg, s) && Shape(cfg, Step(cfg, s, a, j));
      StepChannel(cfg, s, a, j, e, i);
      TakesFound(cfg, s, a, j, e, i);
      if TakesFrom(cfg, s, a, j, e, i) { TakenLength(cfg, s, e, i); }
      hide Inv;
      AskedIsReceived(cfg, Step(cfg, s, a, j), moves[1..], t, e, i);
    }
  }

  /** Over every run from the start: the peer has received a prefix of what the worker has sent, in order and unchanged,
      and has asked for exactly the length of each message from its own stage. */
  lemma LockStepOfRuns(cfg: Config, s: State, moves: seq<(nat, nat)>, t: State, e: nat, i: nat)
    requires ValidConfig(cfg) && Initial(cfg, s) && RunTo(cfg, s, moves, t) && Id(cfg, e, i)
    ensures var sent, received, asked := Sent(cfg, s, moves, t, e, i), Received(cfg, s, moves, t, e, i), Asked(cfg, s, moves, t, e, i);
            && received <= sent && |asked| == |received|
            && forall k :: 0 <= k < |asked| ==> asked[k] == sent[k].len
  {
    InitialInv(cfg, s);
    Conserved(cfg, s, moves, t, e, i);
    AskedIsReceived(cfg, s, moves, t, e, i);
    hide Inv, RunTo, Sent, Received, Asked;
    assert s.q[e][i] == [];
    assert s.q[e][i] + Sent(cfg, s, moves, t, e, i) == Sent(cfg, s, moves, t, e, i);
  }

  // --- what is on the wire at any moment

  /** The messages whose bytes may be on the wire: those sent, and the one being sent. */
  function Written(cfg: Config, s: State, moves: seq<(nat, nat)>, t: State, e: nat, i: nat): seq<Msg>
    requires RunTo(cfg, s, moves, t) && Id(cfg, e, i) && Shape(cfg, t)
  {
    Sent(cfg, s, moves, t, e, i) + if Next(cfg, e, i, t.ws[e][i]) == Send then [NextMessage(cfg, t, e, i)] else []
  }

  /** The lengths asked for, that of a pending receive included. */
  function Wanted(cfg: Config, s: State, moves: seq<(nat, nat)>, t: State, e: nat, i: nat): seq<nat>
    requires RunTo(cfg, s, moves, t) && Id(cfg, e, i) && Shape(cfg, t)
  {
    Asked(cfg, s, moves, t, e, i)
    + if Next(cfg, Peer(e), i, t.ws[Peer(e)][i]) == Receive then [Length(cfg, t.ws[Peer(e)][i].stage)] else []
  }

  /** A message being sent into an empty channel is the one its reader expects. */
  lemma PendingMeets(cfg: Config, t: State, e: nat, i: nat)
    requires Inv(cfg, t) && Id(cfg, e, i) && t.q[e][i] == []
    requires Next(cfg, e, i, t.ws[e][i]) == Send && Next(cfg, Peer(e), i, t.ws[Peer(e)][i]) == Receive
    ensures Length(cfg, t.ws[Peer(e)][i].stage) == NextMessage(cfg, t, e, i).len
  {
    var w := t.ws[e][i];
    WaitsShape(cfg, t, e, i);
    SendCount(cfg, t, e, i);
    AsksForExpected(cfg, t, Peer(e), i);
    assert Connected(cfg, t, i);
    hide Workers, Barriers, Connections, WorkerOk, MsgOf, NextReceive, NextSend, Next, Outgoing, AfterSend, Inv;
    SendKeeps(cfg, t.hist, e, i, w, t.sh[e].count[Dir(cfg, i, w.pos.leg)]);
  }

  /** The lengths wanted agree with the messages written, as far as both go. */
  lemma WantedAgrees(cfg: Config, s: State, moves: seq<(nat, nat)>, t: State, e: nat, i: nat)
    requires ValidConfig(cfg) && Initial(cfg, s) && RunTo(cfg, s, moves, t) && Id(cfg, e, i) && Shape(cfg, t)
    ensures var written, wanted := Written(cfg, s, moves, t, e, i), Wanted(cfg, s, moves, t, e, i);
            forall k :: 0 <= k < |wanted| && k < |written| ==> wanted[k] == written[k].len
  {
    hide Workers, Connections, Barriers, Votes, Counts, RunTo, Sent, Received, Asked, NextMessage, Length;
    LockStepOfRuns(cfg, s, moves, t, e, i);
    InitialInv(cfg, s);
    Conserved(cfg, s, moves, t, e, i);
    var sent, received, asked := Sent(cfg, s, moves, t, e, i), Received(cfg, s, moves, t, e, i), Asked(cfg, s, moves, t, e, i);
    assert s.q[e][i] == [] && sent == received + t.q[e][i];
    hide Inv, Initial;
    if Next(cfg, Peer(e), i, t.ws[Peer(e)][i]) == Receive {
      if |t.q[e][i]| > 0 {
        TakenLength(cfg, t, e, i);
        assert sent[|asked|] == t.q[e][i][0];
      } else if Next(cfg, e, i, t.ws[e][i]) == Send {
        PendingMeets(cfg, t, e, i);
      }
    }
  }
}
