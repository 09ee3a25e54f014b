/**
  The talk protocol of both endpoints as one transition system: 2W workers, a pair of FIFO channels per
  connection, the shared talk counters of each end and the barriers, one atomic step of one worker at a time.
 */
module TalkModel {
  import opened Growth

  const HEADER_SIZE: nat := 32
  const SECOND: nat := 1000000

  const CONNECTOR: nat := 0
  const LISTENER: nat := 1

  /** Program points of a worker, in the order in which one leg (one direction) visits them.
      A point names what the worker does next. */
  type Point = x: int | 0 <= x < 26

  const INIT: Point := 0  // barrier after talk_init
  const SHAKE: Point := 1  // handshake messages: ping at even, pong at odd indices
  const COUNT_SET: Point := 2  // sender barrier whose serial worker writes the initial count
  const SET_COUNT: Point := 3  // the serial worker writes it
  const COUNT_SYNC: Point := 4
  const NEGOTIATE: Point := 5  // COUNT and LATENCY message
  const CALL: Point := 6  // the sender loads the count it will stream
  const START: Point := 7  // STREAM START message
  const RESET_SYNC: Point := 8
  const RESET: Point := 9  // clear the weak counters
  const RUN_SYNC: Point := 10
  const RUN: Point := 11  // STREAM RUN messages
  const END_SYNC: Point := 12
  const END_SYNC_ALL: Point := 13  // asynchronous mode only
  const STREAM_END: Point := 14  // STREAM END message, with the weak verdict
  const WEAK_SYNC: Point := 15
  const WEAK: Point := 16  // add the verdict to the counters
  const WEAK_SYNC_2: Point := 17
  const READ_WEAK: Point := 18  // read the total weak counter
  const DECIDE: Point := 19  // read the per-direction counters: restart or finish
  const GROW_SYNC: Point := 20  // sender barrier whose serial worker grows the count
  const GROW: Point := 21
  const GROW_SYNC_2: Point := 22
  const REPORT: Point := 23  // REPORT message
  const FINISH: Point := 24  // FINISH message
  const DONE: Point := 25

  datatype Stage = Handshake | Negotiation | Stream | ReportExchange | Finishing

  datatype Op = Ping | Pong | CountReq | StreamStart | StreamRun | StreamEnd | ReportOp | FinishOp

  /** The collected part of one direction's report. */
  datatype Record = Record(latency: nat, count: nat, packets: nat, duration: nat, start: nat, bytes: nat)

  const EMPTY_RECORD := Record(0, 0, 0, 0, 0, 0)

  datatype Msg = Msg(len: nat, op: Op, count: nat, latency: nat, weak: bool, weakTime: nat, report: Record)

  /** The matched configuration of both ends, and the environment: the duration, start time and latency measured for a
      direction, round and connection are arbitrary, and so is the worker for which each wait on a barrier of an end
      returns the serial result. */
  datatype Config = Config(
    asynchronous: bool, bidirectional: bool, reverseFirst: bool,
    workers: nat, iterations: nat, payload: nat, minimumTime: nat, multiplier: nat, capacity: nat,
    duration: (nat, nat, nat) -> nat, began: (nat, nat, nat) -> nat, latency: (nat, nat) -> nat,
    serial: (nat, nat, nat) -> nat)

  ghost predicate ValidConfig(cfg: Config) {
    && cfg.workers > 0
    && cfg.iterations > 0
    && cfg.payload > HEADER_SIZE
    && 0 < cfg.minimumTime <= 2147
    && (cfg.multiplier == 0 || 1 < cfg.multiplier < MULTIPLIER_MAX)
    && (cfg.asynchronous ==> cfg.workers % 2 == 0 && cfg.bidirectional && !cfg.reverseFirst)
    && SerialChosen(cfg)
  }

  /** The serial worker is one of the users of the barrier. */
  ghost predicate SerialChosen(cfg: Config) {
    forall e, b, r :: e < 2 && b < 3 ==> cfg.serial(e, b, r) < cfg.workers && Participant(cfg, b, cfg.serial(e, b, r))
  }

  function Legs(cfg: Config): nat { if cfg.bidirectional && !cfg.asynchronous then 2 else 1 }

  /** The direction (0 straight, 1 reverse) that connection i serves in a leg. */
  function Dir(cfg: Config, i: nat, leg: nat): (d: nat)
    ensures d < 2
  {
    if cfg.asynchronous then (if i < cfg.workers / 2 then 0 else 1)
    else if (leg == 0) == cfg.reverseFirst then 1 else 0
  }

  predicate IsSender(e: nat, d: nat) { (e == CONNECTOR) == (d == 0) }

  function MainBarrier(cfg: Config, d: nat): nat { if cfg.asynchronous then 2 else d }

  /** The workers of one end that share barrier b. */
  predicate Participant(cfg: Config, b: nat, i: nat) {
    cfg.asynchronous ==> b == 2 || Dir(cfg, i, 0) == b
  }

  /** Where a worker is: its leg, the round within the leg, the point, and the index of a repeated message. */
  datatype Position = Position(leg: nat, round: nat, at: Point, idx: nat)

  datatype Worker = Worker(
    pos: Position, stage: Stage,
    count: nat,           // the count being streamed
    got: nat,             // STREAM RUN messages received in this round, and their bytes
    bytes: nat,
    weak: bool,           // STREAM WEAK bit of the last STREAM END
    weakTime: nat,
    waits: seq<nat>,      // completed waits per barrier
    prev: nat,            // last round of the previous leg
    reports: seq<Record>) // report.results[0..2].collected

  datatype Shared = Shared(weak: nat, imWeak: seq<nat>, weakTime: seq<nat>, count: seq<nat>)

  /** ws[e][i]: worker i of end e; q[e][i]: messages sent by it and not yet received; sh[e]: shared counters;
      hist[d]: every count that direction d has used so far; aborted: a count left its bounds;
      fault: a message had the wrong length or operation. */
  datatype State = State(
    ws: seq<seq<Worker>>, q: seq<seq<seq<Msg>>>, sh: seq<Shared>, hist: seq<seq<nat>>,
    aborted: bool, fault: bool)

  predicate Shape(cfg: Config, s: State) {
    && |s.ws| == 2 && |s.q| == 2 && |s.sh| == 2 && |s.hist| == 2
    && (forall e :: 0 <= e < 2 ==> |s.ws[e]| == cfg.workers)
    && (forall e :: 0 <= e < 2 ==> |s.q[e]| == cfg.workers)
    && (forall e :: 0 <= e < 2 ==> |s.sh[e].imWeak| == 2 && |s.sh[e].weakTime| == 2 && |s.sh[e].count| == 2)
    && (forall e, i :: 0 <= e < 2 && 0 <= i < cfg.workers ==> |s.ws[e][i].waits| == 3 && |s.ws[e][i].reports| == 2)
  }

  predicate Id(cfg: Config, e: nat, i: nat) { e < 2 && i < cfg.workers }

  function Peer(e: nat): nat { if e == 0 then 1 else 0 }

  // --- what a worker does next

  datatype Act = Wait(b: nat) | Send | Receive | Local | Stop

  function ActAt(cfg: Config, sender: bool, d: nat, at: Point, idx: nat): Act {
    match at
    case SHAKE => if sender == (idx % 2 == 0) then Send else Receive
    case COUNT_SET => Wait(d)
    case COUNT_SYNC => Wait(d)
    case NEGOTIATE => if sender then Send else Receive
    case START => if sender then Receive else Send
    case RUN => if sender then Send else Receive
    case END_SYNC => Wait(d)
    case END_SYNC_ALL => Wait(2)
    case STREAM_END => if sender then Receive else Send
    case GROW_SYNC => Wait(d)
    case GROW_SYNC_2 => Wait(d)
    case REPORT => if sender then Receive else Send
    case FINISH => if sender then Send else Receive
    case DONE => Stop
    case _ =>
      if at == INIT || at == RESET_SYNC || at == RUN_SYNC || at == WEAK_SYNC || at == WEAK_SYNC_2
      then Wait(MainBarrier(cfg, d))
      else Local  // SET_COUNT, CALL, RESET, WEAK, READ_WEAK, DECIDE, GROW
  }

  function Next(cfg: Config, e: nat, i: nat, w: Worker): Act {
    var d := Dir(cfg, i, w.pos.leg);
    ActAt(cfg, IsSender(e, d), d, w.pos.at, w.pos.idx)
  }

  // Waits on barrier b entered so far: the completed ones, and the one the worker stands at.
  function Entered(cfg: Config, e: nat, i: nat, w: Worker, b: nat): nat
    requires |w.waits| == 3 && b < 3
  {
    w.waits[b] + if Next(cfg, e, i, w) == Wait(b) then 1 else 0
  }

  /** The abstract barrier: a worker returns from its r-th wait once every participant has entered its r-th wait. */
  predicate MayLeave(cfg: Config, s: State, e: nat, i: nat, b: nat)
    requires Shape(cfg, s) && Id(cfg, e, i) && b < 3
  {
    forall j :: 0 <= j < cfg.workers && Participant(cfg, b, j) ==>
      Entered(cfg, e, j, s.ws[e][j], b) > s.ws[e][i].waits[b]
  }

  /** The wait returns the serial result: to exactly one user of the barrier in each of its rounds, whichever that is. */
  predicate IsSerial(cfg: Config, s: State, e: nat, i: nat, b: nat)
    requires Shape(cfg, s) && Id(cfg, e, i) && b < 3
  {
    cfg.serial(e, b, s.ws[e][i].waits[b]) == i
  }

  /** However small its buffer, an empty channel passes a message on to a peer that is reading. */
  predicate MeetsReader(cfg: Config, s: State, e: nat, i: nat)
    requires Shape(cfg, s) && Id(cfg, e, i)
  {
    s.q[e][i] == [] && Next(cfg, Peer(e), i, s.ws[Peer(e)][i]) == Receive
  }

  predicate CanStep(cfg: Config, s: State, e: nat, i: nat)
    requires Shape(cfg, s) && Id(cfg, e, i)
  {
    && !s.aborted && !s.fault
    && match Next(cfg, e, i, s.ws[e][i])
       case Wait(b) => b < 3 && MayLeave(cfg, s, e, i, b)
       case Send => |s.q[e][i]| < cfg.capacity || MeetsReader(cfg, s, e, i)
       case Receive => |s.q[Peer(e)][i]| > 0
       case Local => true
       case Stop => false
  }

  // --- moving along the points

  /** The point after `at`: the following one except at a branch or a jump. The flag is the branch taken there: the
      worker is serial, the count is zero, some stream was weak, or a restart is needed. */
  function NextPoint(asynchronous: bool, sender: bool, at: Point, flag: bool): Point {
    match at
    case SHAKE => if sender then COUNT_SET else NEGOTIATE
    case COUNT_SET => if flag then SET_COUNT else COUNT_SYNC
    case NEGOTIATE => if sender then CALL else START
    case RUN_SYNC => if flag then END_SYNC else RUN
    case END_SYNC => if asynchronous then END_SYNC_ALL else STREAM_END
    case READ_WEAK => if flag then DECIDE else REPORT
    case DECIDE => if !flag then REPORT else if sender then GROW_SYNC else NEGOTIATE
    case GROW_SYNC => if flag then GROW else GROW_SYNC_2
    case GROW_SYNC_2 => NEGOTIATE
    case DONE => DONE
    case _ => at + 1
  }

  predicate NewRound(sender: bool, at: Point, flag: bool) {
    at == GROW_SYNC_2 || (at == DECIDE && flag && !sender)
  }

  function Advance(cfg: Config, sender: bool, p: Position, count: nat, flag: bool): Position {
    if p.at == SHAKE && p.idx + 1 < 2 * cfg.iterations then p.(idx := p.idx + 1)
    else if p.at == RUN && p.idx + 1 < count then p.(idx := p.idx + 1)
    else if p.at == FINISH && p.leg + 1 < Legs(cfg) then Position(p.leg + 1, 0, INIT, 0)
    else Position(p.leg, if NewRound(sender, p.at, flag) then p.round + 1 else p.round,
                  NextPoint(cfg.asynchronous, sender, p.at, flag), 0)
  }

  // stage_set at the points where the code calls it.
  function StageOn(p: Point, stage: Stage): Stage {
    match p
    case INIT => Handshake
    case NEGOTIATE => Negotiation
    case CALL => Stream
    case START => Stream
    case REPORT => ReportExchange
    case FINISH => Finishing
    case _ => stage
  }

  function Go(cfg: Config, sender: bool, w: Worker, flag: bool): Worker {
    var p := Advance(cfg, sender, w.pos, w.count, flag);
    w.(pos := p, stage := StageOn(p.at, w.stage), prev := if p.leg == w.pos.leg then w.prev else w.pos.round)
  }

  // --- waiting

  // What the receiver stores in its report after a barrier.
  function ReportAfterWait(cfg: Config, i: nat, w: Worker): seq<Record>
    requires |w.reports| == 2
  {
    var d := Dir(cfg, i, w.pos.leg);
    var r := w.reports[d];
    if w.pos.at == RUN_SYNC then w.reports[d := r.(start := cfg.began(d, w.pos.round, i))]
    else if w.pos.at == END_SYNC then
      w.reports[d := r.(duration := cfg.duration(d, w.pos.round, i), packets := w.got, bytes := w.bytes)]
    else w.reports
  }

  function AfterWait(cfg: Config, e: nat, i: nat, w: Worker, b: nat, serial: bool): Worker
    requires |w.waits| == 3 && |w.reports| == 2 && b < 3
  {
    var sender := IsSender(e, Dir(cfg, i, w.pos.leg));
    Go(cfg, sender, w, if w.pos.at == RUN_SYNC then w.count == 0 else serial).(
      got := if w.pos.at == RUN_SYNC then 0 else w.got,
      bytes := if w.pos.at == RUN_SYNC then 0 else w.bytes,
      waits := w.waits[b := w.waits[b] + 1],
      reports := if sender then w.reports else ReportAfterWait(cfg, i, w))
  }

  // The asserts on the count after it may have grown.
  predicate WaitAborts(w: Worker, count: nat) {
    w.pos.at == GROW_SYNC_2 && !(COUNT_DEFAULT <= count <= COUNT_MAX)
  }

  // --- messages

  function Length(cfg: Config, stage: Stage): nat {
    if stage == Handshake then HEADER_SIZE else cfg.payload
  }

  predicate WeakConnection(cfg: Config, d: nat, round: nat, i: nat) {
    cfg.duration(d, round, i) < cfg.minimumTime * SECOND
  }

  function Outgoing(cfg: Config, i: nat, w: Worker, count: nat): Msg
    requires |w.reports| == 2
  {
    var r := w.reports[Dir(cfg, i, w.pos.leg)];
    var m := Msg(Length(cfg, w.stage), StreamRun, 0, 0, false, 0, EMPTY_RECORD);
    match w.pos.at
    case SHAKE => m.(op := if w.pos.idx % 2 == 0 then Ping else Pong, count := cfg.iterations)
    case NEGOTIATE => m.(op := CountReq, count := count, latency := r.latency)
    case START => m.(op := StreamStart, count := w.count)
    case STREAM_END =>
      var weak := r.duration < cfg.minimumTime * SECOND;
      m.(op := StreamEnd, weak := weak, weakTime := if weak then r.duration else 0)
    case REPORT => m.(op := ReportOp, report := r)
    case FINISH => m.(op := FinishOp)
    case _ => m.(op := StreamRun, count := w.pos.idx)
  }

  function AfterSend(cfg: Config, e: nat, i: nat, w: Worker, m: Msg): Worker
    requires |w.reports| == 2
  {
    var d := Dir(cfg, i, w.pos.leg);
    var v := Go(cfg, IsSender(e, d), w, false);
    if w.pos.at == NEGOTIATE then v.(reports := w.reports[d := w.reports[d].(count := m.count)])
    else if w.pos.at == STREAM_END then v.(weak := m.weak, weakTime := w.reports[d].duration)
    else v
  }

  // The receive checks whose failure is fatal.
  predicate Faulty(cfg: Config, w: Worker, m: Msg) {
    || m.len != Length(cfg, w.stage)
    || match w.pos.at
       case SHAKE => (w.pos.idx % 2 == 0 && m.op != Ping) || m.count != cfg.iterations
       case NEGOTIATE => m.op != CountReq
       case START => m.op != StreamStart
       case STREAM_END => m.op != StreamEnd
       case REPORT => m.op != ReportOp
       case _ => false
  }

  predicate ReceiveAborts(w: Worker, m: Msg) { w.pos.at == NEGOTIATE && m.count >= COUNT_MAX }

  function AfterReceive(cfg: Config, e: nat, i: nat, w: Worker, m: Msg): Worker
    requires |w.reports| == 2
  {
    var d := Dir(cfg, i, w.pos.leg);
    var r := w.reports[d];
    var v := Go(cfg, IsSender(e, d), w, false);
    if w.pos.at == SHAKE && v.pos.at == COUNT_SET then v.(reports := w.reports[d := r.(latency := cfg.latency(d, i))])
    else if w.pos.at == NEGOTIATE then
      v.(count := m.count, reports := w.reports[d := r.(count := m.count, latency := m.latency)])
    else if w.pos.at == RUN then v.(got := w.got + 1, bytes := w.bytes + m.len)
    else if w.pos.at == STREAM_END then v.(weak := m.weak, weakTime := m.weakTime)
    else if w.pos.at == REPORT then v.(reports := w.reports[d := m.report])
    else v
  }

  // --- local steps on the shared counters

  predicate NeedsRestart(cfg: Config, sh: Shared, d: nat)
    requires |sh.imWeak| == 2 && d < 2
  {
    if cfg.asynchronous then sh.imWeak[0] == cfg.workers / 2 || sh.imWeak[1] == cfg.workers / 2
    else sh.imWeak[d] == cfg.workers
  }

  predicate NeedsRecount(cfg: Config, sh: Shared, d: nat)
    requires |sh.imWeak| == 2 && d < 2
  {
    sh.imWeak[d] == cfg.workers / (1 + if cfg.asynchronous then 1 else 0)
  }

  function Recount(cfg: Config, sh: Shared, d: nat): nat
    requires |sh.imWeak| == 2 && |sh.weakTime| == 2 && |sh.count| == 2 && d < 2
  {
    if NeedsRecount(cfg, sh, d)
    then Multiplied(sh.count[d], cfg.multiplier, cfg.minimumTime * SECOND, sh.weakTime[d], cfg.asynchronous)
    else sh.count[d]
  }

  function AfterLocal(cfg: Config, e: nat, i: nat, w: Worker, sh: Shared): Worker
    requires |sh.imWeak| == 2 && |sh.count| == 2
  {
    var d := Dir(cfg, i, w.pos.leg);
    var v := Go(cfg, IsSender(e, d), w, if w.pos.at == READ_WEAK then sh.weak > 0 else NeedsRestart(cfg, sh, d));
    if w.pos.at == CALL then v.(count := sh.count[d]) else v
  }

  function SharedAfterLocal(cfg: Config, i: nat, w: Worker, sh: Shared): Shared
    requires |sh.imWeak| == 2 && |sh.weakTime| == 2 && |sh.count| == 2
  {
    var d := Dir(cfg, i, w.pos.leg);
    if w.pos.at == SET_COUNT then sh.(count := sh.count[d := COUNT_DEFAULT])
    else if w.pos.at == RESET then Shared(0, sh.imWeak[d := 0], sh.weakTime[d := 0], sh.count)
    else if w.pos.at == WEAK && w.weak then
      Shared(sh.weak + 1, sh.imWeak[d := sh.imWeak[d] + 1], sh.weakTime[d := w.weakTime], sh.count)
    else if w.pos.at == GROW then sh.(count := sh.count[d := Recount(cfg, sh, d)])
    else sh
  }

  // --- the step

  function Put(s: State, e: nat, i: nat, w: Worker): State
    requires e < |s.ws| && i < |s.ws[e]|
  {
    s.(ws := s.ws[e := s.ws[e][i := w]])
  }

  function PutQueue(s: State, e: nat, i: nat, q: seq<Msg>): State
    requires e < |s.q| && i < |s.q[e]|
  {
    s.(q := s.q[e := s.q[e][i := q]])
  }

  function StepWait(cfg: Config, s: State, e: nat, i: nat, b: nat): State
    requires Shape(cfg, s) && Id(cfg, e, i) && b < 3
  {
    var w := s.ws[e][i];
    if WaitAborts(w, s.sh[e].count[Dir(cfg, i, w.pos.leg)]) then s.(aborted := true)
    else Put(s, e, i, AfterWait(cfg, e, i, w, b, IsSerial(cfg, s, e, i, b)))
  }

  function StepSend(cfg: Config, s: State, e: nat, i: nat): State
    requires Shape(cfg, s) && Id(cfg, e, i)
  {
    var w := s.ws[e][i];
    var m := Outgoing(cfg, i, w, s.sh[e].count[Dir(cfg, i, w.pos.leg)]);
    PutQueue(Put(s, e, i, AfterSend(cfg, e, i, w, m)), e, i, s.q[e][i] + [m])
  }

  function StepReceive(cfg: Config, s: State, e: nat, i: nat): State
    requires Shape(cfg, s) && Id(cfg, e, i) && |s.q[Peer(e)][i]| > 0
  {
    var w := s.ws[e][i];
    var m := s.q[Peer(e)][i][0];
    if Faulty(cfg, w, m) then s.(fault := true)
    else if ReceiveAborts(w, m) then s.(aborted := true)
    else PutQueue(Put(s, e, i, AfterReceive(cfg, e, i, w, m)), Peer(e), i, s.q[Peer(e)][i][1..])
  }

  function StepLocal(cfg: Config, s: State, e: nat, i: nat): State
    requires Shape(cfg, s) && Id(cfg, e, i)
  {
    var w := s.ws[e][i];
    var d := Dir(cfg, i, w.pos.leg);
    var sh := SharedAfterLocal(cfg, i, w, s.sh[e]);
    var hist := if w.pos.at == SET_COUNT || w.pos.at == GROW then s.hist[d := s.hist[d] + [sh.count[d]]] else s.hist;
    Put(s, e, i, AfterLocal(cfg, e, i, w, s.sh[e])).(sh := s.sh[e := sh], hist := hist)
  }

  function Step(cfg: Config, s: State, e: nat, i: nat): State
    requires Shape(cfg, s) && Id(cfg, e, i) && CanStep(cfg, s, e, i)
  {
    match Next(cfg, e, i, s.ws[e][i])
    case Wait(b) => StepWait(cfg, s, e, i, b)
    case Send => StepSend(cfg, s, e, i)
    case Receive => StepReceive(cfg, s, e, i)
    case Local => StepLocal(cfg, s, e, i)
    case Stop => s
  }

  const FRESH_WORKER := Worker(Position(0, 0, INIT, 0), Handshake, 0, 0, 0, false, 0, [0, 0, 0], 0, [EMPTY_RECORD, EMPTY_RECORD])
  const FRESH_SHARED := Shared(0, [0, 0], [0, 0], [0, 0])

  /** Every worker has just returned from talk_init. */
  predicate Initial(cfg: Config, s: State) {
    && Shape(cfg, s)
    && (forall e, i :: 0 <= e < 2 && 0 <= i < cfg.workers ==> s.ws[e][i] == FRESH_WORKER && s.q[e][i] == [])
    && s.sh == [FRESH_SHARED, FRESH_SHARED]
    && s.hist == [[], []]
    && !s.aborted && !s.fault
  }
}
