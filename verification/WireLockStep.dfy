/**
  The protocol's lockstep at the level of bytes: over every run, however its reads and writes are split and interleaved,
  the k-th message decoded at one end is the k-th message encoded at the other.
 */
module WireLockStep {
  import opened ByteOrder
  import opened Messages
  import opened Growth
  import opened TalkModel
  import opened TalkEvents
  import opened TalkWorker
  import opened TalkBarrier
  import opened TalkVotes
  import opened TalkCounts
  import opened TalkInvariant
  import opened TalkRuns
  import opened Transcript
  import S = Streams

  // --- the widths

  /** The configuration and the measurements fit the widths of the message structs, and the payload has room for a
      report. `room` is the size of the struct's buffer. */
  ghost predicate WireBounds(cfg: Config, room: nat) {
    && cfg.iterations < Power(4)
    && HEADER_SIZE + REPORT_SIZE <= cfg.payload <= HEADER_SIZE + room
    && COUNT_MAX * cfg.payload < Power(8)
    && (forall d, i :: cfg.latency(d, i) < Power(4))
    && (forall d, r, i :: cfg.duration(d, r, i) < Power(8))
    && (forall d, r, i :: cfg.began(d, r, i) < Power(8))
  }

  lemma CountFits()
    ensures COUNT_MAX < Power(4)
  {
    assert Power(4) == 256 * (256 * (256 * 256));
  }

  lemma BytesFit(c: nat, payload: nat)
    requires c <= COUNT_MAX
    ensures c * payload <= COUNT_MAX * payload
  {
    ProductMonotone(c, COUNT_MAX, payload);
  }

  /** Every message of an event whose count is known fits the struct. */
  lemma EventFits(cfg: Config, hist: seq<seq<nat>>, i: nat, ev: Position, room: nat)
    requires WireBounds(cfg, room) && HasCount(cfg, hist, i, ev) && (ev.at == RUN ==> ev.idx <= COUNT_MAX)
    ensures MessageFits(MsgOf(cfg, hist, i, ev), room)
  {
    CountFits();
    var d := Dir(cfg, i, ev.leg);
    var c := CountOf(hist, d, ev.round);
    if ev.at != SHAKE { BytesFit(c, cfg.payload); }
    hide Power;
  }

  /** Every message that a worker is about to send fits the struct. */
  lemma NextFits(cfg: Config, s: State, e: nat, i: nat, room: nat)
    requires Inv(cfg, s) && Id(cfg, e, i) && Next(cfg, e, i, s.ws[e][i]) == Send && WireBounds(cfg, room)
    ensures MessageFits(NextMessage(cfg, s, e, i), room)
  {
    var w := s.ws[e][i];
    WaitsShape(cfg, s, e, i);
    SendCount(cfg, s, e, i);
    assert w.pos.at == RUN ==> w.pos.idx <= COUNT_MAX by {
      hide WaitsOk, RoundOk, StageAt, PastOk, StreamOk, ReportOk, Below, Workers, Connections, WireBounds;
    }
    hide Workers, Barriers, Connections, WorkerOk, Next, Outgoing, AfterSend, Inv, MsgOf, WireBounds, HasCount;
    SendKeeps(cfg, s.hist, e, i, w, s.sh[e].count[Dir(cfg, i, w.pos.leg)]);
    EventFits(cfg, s.hist, i, w.pos, room);
  }

  lemma {:induction false} SentFits(cfg: Config, s: State, moves: seq<(nat, nat)>, t: State, e: nat, i: nat, room: nat)
    requires Inv(cfg, s) && RunTo(cfg, s, moves, t) && Id(cfg, e, i) && WireBounds(cfg, room)
    ensures forall k :: 0 <= k < |Sent(cfg, s, moves, t, e, i)| ==> MessageFits(Sent(cfg, s, moves, t, e, i)[k], room)
    decreases |moves|
  {
    if |moves| > 0 {
      var (a, j) := moves[0];
      StepKeeps(cfg, s, a, j);
      if SendsOn(cfg, s, a, j, e, i) { NextFits(cfg, s, e, i, room); }
      hide Inv, Step, CanStep, NextMessage, SendsOn, WireBounds, MessageFits;
      SentFits(cfg, Step(cfg, s, a, j), moves[1..], t, e, i, room);
    }
  }

  lemma WrittenFits(cfg: Config, s: State, moves: seq<(nat, nat)>, t: State, e: nat, i: nat, room: nat)
    requires ValidConfig(cfg) && Initial(cfg, s) && RunTo(cfg, s, moves, t) && Id(cfg, e, i) && Shape(cfg, t) && WireBounds(cfg, room)
    ensures forall k :: 0 <= k < |Written(cfg, s, moves, t, e, i)| ==> MessageFits(Written(cfg, s, moves, t, e, i)[k], room)
  {
    InitialInv(cfg, s);
    RunKeepsInv(cfg, s, moves, t);
    SentFits(cfg, s, moves, t, e, i, room);
    if Next(cfg, e, i, t.ws[e][i]) == Send { NextFits(cfg, t, e, i, room); }
    hide Inv, RunTo, Sent, NextMessage, Next, WireBounds, MessageFits;
  }

  // --- the bytes of a run

  /** The encoded messages, sent by a worker with the given id. */
  function Encoded(ms: seq<Msg>, worker: nat, room: nat): (r: seq<seq<Byte>>)
    requires worker < Power(8) && forall k :: 0 <= k < |ms| ==> MessageFits(ms[k], room)
    ensures |r| == |ms| && forall k :: 0 <= k < |r| ==> r[k] == Transmit(ms[k], worker, room)
  {
    seq(|ms|, k requires 0 <= k < |ms| => Transmit(ms[k], worker, room))
  }

  /** A decoded packet carries a message: the receiver's tests find its operation and verdict, and its fields are there. */
  ghost predicate Carries(p: Packet, m: Msg, worker: nat) {
    && (forall op :: Test(p.flags, OpBit(op)) <==> m.op == op) && (Test(p.flags, WEAK_BIT) <==> m.weak)
    && !Test(p.flags, FORCE_FAIL_BIT)
    && p.count == m.count && p.latency == m.latency && p.weakTime == m.weakTime && p.worker == worker
    && (m.op == ReportOp ==> |p.buf| >= REPORT_SIZE && Unmarshal(p.buf) == m.report)
  }

  lemma TransmitCarries(m: Msg, worker: nat, room: nat)
    requires MessageFits(m, room) && worker < Power(8)
    ensures |Transmit(m, worker, room)| >= HEADER_SIZE && Carries(Decode(Transmit(m, worker, room)), m, worker)
  {
    hide Transmit, Decode, Test, Power, Unmarshal;
    forall op ensures Test(Decode(Transmit(m, worker, room)).flags, OpBit(op)) <==> m.op == op {
      MessageRoundTrip(m, worker, room, op);
    }
    MessageRoundTrip(m, worker, room, Ping);
  }

  /** The operation whose flag a worker tests, or would find, at a receiving point. */
  function Expected(p: Position): Op {
    if p.at == SHAKE then (if p.idx % 2 == 0 then Ping else Pong)
    else if p.at == NEGOTIATE then CountReq
    else if p.at == START then StreamStart
    else if p.at == STREAM_END then StreamEnd
    else if p.at == REPORT then ReportOp
    else if p.at == FINISH then FinishOp
    else StreamRun
  }

  lemma HeadFits(cfg: Config, t: State, e: nat, i: nat, room: nat)
    requires Inv(cfg, t) && Id(cfg, e, i) && WireBounds(cfg, room)
    requires Next(cfg, e, i, t.ws[e][i]) == Receive && |t.q[Peer(e)][i]| > 0
    ensures MessageFits(t.q[Peer(e)][i][0], room)
  {
    var w := t.ws[e][i];
    WaitsShape(cfg, t, e, i);
    assert w.pos.at == RUN ==> w.pos.idx <= COUNT_MAX by {
      hide WaitsOk, RoundOk, StageAt, PastOk, StreamOk, ReportOk, Below, Workers, Connections, WireBounds, MessageFits;
    }
    AsksForExpected(cfg, t, e, i);
    hide Workers, Barriers, WorkerOk, Inv, MsgOf, WireBounds, HasCount, MessageFits, Next, NextReceive;
    assert Connections(cfg, t) by { assert Inv(cfg, t); }
    HeadExpected(cfg, t, e, i);
    EventFits(cfg, t.hist, i, w.pos, room);
  }

  /** In every reachable state the next message on a connection takes exactly as many bytes as its receiver will ask
      for, and those bytes decode to the operation it waits for and to the fields its peer encoded. */
  lemma NextMessageDecodes(cfg: Config, t: State, e: nat, i: nat, worker: nat, room: nat)
    requires ValidConfig(cfg) && Reachable(cfg, t) && Shape(cfg, t) && Id(cfg, e, i)
    requires Next(cfg, e, i, t.ws[e][i]) == Receive && |t.q[Peer(e)][i]| > 0
    requires WireBounds(cfg, room) && worker < Power(8)
    ensures var w, m := t.ws[e][i], t.q[Peer(e)][i][0];
            && MessageFits(m, room)
            && |Transmit(m, worker, room)| == Length(cfg, w.stage) && m.op == Expected(w.pos)
            && |Transmit(m, worker, room)| >= HEADER_SIZE && Carries(Decode(Transmit(m, worker, room)), m, worker)
  {
    hide Reachable, Inv, Faulty, Length, MsgOf, Transmit, Decode, Carries, MessageFits, WireBounds, Expected, Power, ValidConfig;
    var w, m := t.ws[e][i], t.q[Peer(e)][i][0];
    ReachableInv(cfg, t);
    HeadFits(cfg, t, e, i, room);
    LockStep(cfg, t, e, i);
    OperationExpected(cfg, t.hist, e, i, w);
    TransmitCarries(m, worker, room);
  }

  lemma OperationExpected(cfg: Config, hist: seq<seq<nat>>, e: nat, i: nat, w: Worker)
    requires Next(cfg, e, i, w) == Receive
    ensures MsgOf(cfg, hist, i, w.pos).op == Expected(w.pos)
  {}

  /** The byte strings that worker (e, i) has written or is writing. */
  ghost function OnWire(cfg: Config, s: State, moves: seq<(nat, nat)>, t: State, e: nat, i: nat, worker: nat, room: nat): (r: seq<seq<Byte>>)
    requires ValidConfig(cfg) && Initial(cfg, s) && RunTo(cfg, s, moves, t) && Id(cfg, e, i) && Shape(cfg, t)
    requires WireBounds(cfg, room) && worker < Power(8)
    ensures |r| == |Written(cfg, s, moves, t, e, i)|
  {
    WrittenFits(cfg, s, moves, t, e, i, room);
    Encoded(Written(cfg, s, moves, t, e, i), worker, room)
  }

  /** The k-th message decoded is the k-th encoded: for every run of the protocol and every schedule of the reads and
      writes on the channel of worker (e, i), with any splitting, interruption and buffer size, the messages that the
      peer has read completely are the first ones that the worker encoded, in order; each has its fields in network order at
      their offsets and decodes to what was sent.
      The lengths it reads by are those the peer takes from its own stage. */
  lemma FramingOfRuns(cfg: Config, s: State, moves: seq<(nat, nat)>, t: State, e: nat, i: nat, worker: nat, room: nat,
                      buffer: nat, schedule: seq<S.Move>, l: S.Link)
    requires ValidConfig(cfg) && Initial(cfg, s) && RunTo(cfg, s, moves, t) && Id(cfg, e, i) && Shape(cfg, t)
    requires WireBounds(cfg, room) && worker < Power(8)
    requires S.Reaches(OnWire(cfg, s, moves, t, e, i, worker, room), Wanted(cfg, s, moves, t, e, i), buffer,
                       S.FRESH_LINK, schedule, l)
    ensures var written := Written(cfg, s, moves, t, e, i);
            && |l.got| <= |written|
            && forall k :: 0 <= k < |l.got| ==>
                 && l.got[k] == OnWire(cfg, s, moves, t, e, i, worker, room)[k]
                 && HeaderReads(l.got[k], written[k], worker)
                 && |l.got[k]| >= HEADER_SIZE && Carries(Decode(l.got[k]), written[k], worker)
  {
    var written, wanted := Written(cfg, s, moves, t, e, i), Wanted(cfg, s, moves, t, e, i);
    var ms := OnWire(cfg, s, moves, t, e, i, worker, room);
    WantedAgrees(cfg, s, moves, t, e, i);
    WrittenFits(cfg, s, moves, t, e, i, room);
    assert ms == Encoded(written, worker, room);
    EncodedAgrees(written, worker, room, wanted);
    hide *;
    S.FreshLinkFramed(ms);
    S.Framing(ms, wanted, buffer, S.FRESH_LINK, schedule, l);
    GotCarries(written, worker, room, l);
  }

  lemma EncodedAgrees(written: seq<Msg>, worker: nat, room: nat, wanted: seq<nat>)
    requires worker < Power(8) && forall k :: 0 <= k < |written| ==> MessageFits(written[k], room)
    requires forall k :: 0 <= k < |wanted| && k < |written| ==> wanted[k] == written[k].len
    ensures S.Agreed(Encoded(written, worker, room), wanted)
  {
    hide Transmit, Power;
  }

  lemma GotCarries(written: seq<Msg>, worker: nat, room: nat, l: S.Link)
    requires worker < Power(8) && forall k :: 0 <= k < |written| ==> MessageFits(written[k], room)
    requires S.Framed(Encoded(written, worker, room), l)
    ensures |l.got| <= |written|
    ensures forall k :: 0 <= k < |l.got| ==>
              && l.got[k] == Encoded(written, worker, room)[k] && HeaderReads(l.got[k], written[k], worker)
              && |l.got[k]| >= HEADER_SIZE && Carries(Decode(l.got[k]), written[k], worker)
  {
    hide Transmit, Decode, Carries, Power, MessageFits, HeaderReads;
    forall k | 0 <= k < |l.got|
      ensures l.got[k] == Encoded(written, worker, room)[k] && HeaderReads(l.got[k], written[k], worker)
      ensures |l.got[k]| >= HEADER_SIZE && Carries(Decode(l.got[k]), written[k], worker)
    {
      TransmitCarries(written[k], worker, room);
      MessageOnNetwork(written[k], worker, room);
    }
  }
}
