/**
  The messages of a connection as events on one timeline, and the reference decision of every round.
  Each end's outgoing messages form a chain of events; the channel always holds the part of the chain
  between the next event its reader expects and the next event its writer will produce.
 */
module TalkEvents {
  import opened Growth
  import opened TalkModel

  // --- the decision of a round, from the measured durations alone

  /** The connections j < n of direction d whose stream was weak in a round. */
  function WeakTotal(cfg: Config, d: nat, leg: nat, round: nat, n: nat): (t: nat)
    ensures t <= n
  {
    if n == 0 then 0
    else WeakTotal(cfg, d, leg, round, n - 1) +
         if Dir(cfg, n - 1, leg) == d && WeakConnection(cfg, d, round, n - 1) then 1 else 0
  }

  predicate Restart(cfg: Config, leg: nat, round: nat) {
    if cfg.asynchronous
    then WeakTotal(cfg, 0, leg, round, cfg.workers) == cfg.workers / 2 || WeakTotal(cfg, 1, leg, round, cfg.workers) == cfg.workers / 2
    else WeakTotal(cfg, Dir(cfg, 0, leg), leg, round, cfg.workers) == cfg.workers
  }

  /** Every connection that serves direction d in a leg had a stream shorter than the minimum time, given in seconds. */
  predicate AllShort(cfg: Config, d: nat, leg: nat, round: nat) {
    forall i :: 0 <= i < cfg.workers && Dir(cfg, i, leg) == d ==> cfg.duration(d, round, i) < cfg.minimumTime * 1000000
  }

  /** The connections below n that serve direction d. */
  function Serving(cfg: Config, d: nat, n: nat): nat {
    var half := cfg.workers / 2;
    if !cfg.asynchronous then n else if d == 0 then (if n <= half then n else half) else if n <= half then 0 else n - half
  }

  lemma {:induction false} WeakTotalExactly(cfg: Config, d: nat, leg: nat, round: nat, n: nat)
    requires d < 2 && n <= cfg.workers && (cfg.asynchronous || Dir(cfg, 0, leg) == d)
    ensures WeakTotal(cfg, d, leg, round, n) <= Serving(cfg, d, n)
    ensures WeakTotal(cfg, d, leg, round, n) == Serving(cfg, d, n) <==>
            forall i :: 0 <= i < n && Dir(cfg, i, leg) == d ==> cfg.duration(d, round, i) < cfg.minimumTime * 1000000
  {
    if n > 0 { WeakTotalExactly(cfg, d, leg, round, n - 1); }
  }

  /** The reference decision in terms of the durations alone: a round is restarted exactly when all streams of its
      direction, or in asynchronous mode all of one direction, were shorter than the minimum time. */
  lemma RestartExactly(cfg: Config, leg: nat, round: nat)
    requires ValidConfig(cfg)
    ensures Restart(cfg, leg, round) <==>
            if cfg.asynchronous then AllShort(cfg, 0, leg, round) || AllShort(cfg, 1, leg, round)
            else AllShort(cfg, Dir(cfg, 0, leg), leg, round)
  {
    if cfg.asynchronous {
      WeakTotalExactly(cfg, 0, leg, round, cfg.workers);
      WeakTotalExactly(cfg, 1, leg, round, cfg.workers);
    } else {
      WeakTotalExactly(cfg, Dir(cfg, 0, leg), leg, round, cfg.workers);
    }
  }

  /** A leg ends with its first round that needs no restart. */
  predicate LastRound(cfg: Config, leg: nat, round: nat) {
    !Restart(cfg, leg, round) && forall r :: 0 <= r < round ==> Restart(cfg, leg, r)
  }

  lemma LastRoundUnique(cfg: Config, leg: nat, r1: nat, r2: nat)
    requires LastRound(cfg, leg, r1) && LastRound(cfg, leg, r2)
    ensures r1 == r2
  {}

  // --- events

  predicate Before(a: Position, b: Position) {
    || a.leg < b.leg
    || (a.leg == b.leg && a.round < b.round)
    || (a.leg == b.leg && a.round == b.round && a.at < b.at)
    || (a.leg == b.leg && a.round == b.round && a.at == b.at && a.idx < b.idx)
  }

  function CountOf(hist: seq<seq<nat>>, d: nat, round: nat): nat {
    if d < |hist| && round < |hist[d]| then hist[d][round] else 0
  }

  predicate Extends(h: seq<seq<nat>>, h': seq<seq<nat>>) {
    |h| == |h'| == 2 && h[0] <= h'[0] && h[1] <= h'[1]
  }

  /** The next message by the same end after ev, on connection i. After a leg the roles are swapped. */
  function Succ(cfg: Config, hist: seq<seq<nat>>, i: nat, ev: Position): Position {
    match ev.at
    case SHAKE =>
      if ev.idx + 2 < 2 * cfg.iterations then ev.(idx := ev.idx + 2)
      else Position(ev.leg, ev.round, if ev.idx % 2 == 0 then NEGOTIATE else START, 0)
    case NEGOTIATE => Position(ev.leg, ev.round, RUN, 0)
    case START => Position(ev.leg, ev.round, STREAM_END, 0)
    case RUN =>
      if ev.idx + 1 < CountOf(hist, Dir(cfg, i, ev.leg), ev.round) then ev.(idx := ev.idx + 1)
      else AfterStream(cfg, ev.leg, ev.round, true)
    case STREAM_END => AfterStream(cfg, ev.leg, ev.round, false)
    case REPORT => Position(ev.leg + 1, 0, SHAKE, 0)
    case FINISH => Position(ev.leg + 1, 0, SHAKE, 1)
    case _ => ev
  }

  // The first message after the stream of a round, by the sender or by the receiver of the direction.
  function AfterStream(cfg: Config, leg: nat, round: nat, sender: bool): Position {
    if Restart(cfg, leg, round) then Position(leg, round + 1, if sender then NEGOTIATE else START, 0)
    else Position(leg, round, if sender then FINISH else REPORT, 0)
  }

  predicate IsEvent(ev: Position) {
    ev.at == SHAKE || ev.at == NEGOTIATE || ev.at == START || ev.at == RUN || ev.at == STREAM_END
    || ev.at == REPORT || ev.at == FINISH
  }

  lemma SuccIsLater(cfg: Config, hist: seq<seq<nat>>, i: nat, ev: Position)
    requires IsEvent(ev)
    ensures Before(ev, Succ(cfg, hist, i, ev)) && IsEvent(Succ(cfg, hist, i, ev))
  {}

  /** The record that both ends report for a direction when `round` was its last round. */
  function RecordOf(cfg: Config, hist: seq<seq<nat>>, d: nat, round: nat, i: nat): Record {
    var c := CountOf(hist, d, round);
    Record(cfg.latency(d, i), c, c, cfg.duration(d, round, i), cfg.began(d, round, i), c * cfg.payload)
  }

  /** The message of an event, all of its fields. */
  function MsgOf(cfg: Config, hist: seq<seq<nat>>, i: nat, ev: Position): Msg {
    var d := Dir(cfg, i, ev.leg);
    var m := Msg(cfg.payload, StreamRun, 0, 0, false, 0, EMPTY_RECORD);
    match ev.at
    case SHAKE => m.(len := HEADER_SIZE, op := if ev.idx % 2 == 0 then Ping else Pong, count := cfg.iterations)
    case NEGOTIATE => m.(op := CountReq, count := CountOf(hist, d, ev.round), latency := cfg.latency(d, i))
    case START => m.(op := StreamStart, count := CountOf(hist, d, ev.round))
    case RUN => m.(op := StreamRun, count := ev.idx)
    case STREAM_END =>
      var weak := WeakConnection(cfg, d, ev.round, i);
      m.(op := StreamEnd, weak := weak, weakTime := if weak then cfg.duration(d, ev.round, i) else 0)
    case REPORT => m.(op := ReportOp, report := RecordOf(cfg, hist, d, ev.round, i))
    case FINISH => m.(op := FinishOp)
    case _ => m
  }

  /** The first n counts of a direction exist and lie below the maximum. */
  predicate Below(hist: seq<seq<nat>>, d: nat, n: nat) {
    d < |hist| && n <= |hist[d]| && forall r :: 0 <= r < n ==> hist[d][r] < COUNT_MAX
  }

  /** The count of the event's round exists, and is known to have been accepted once the stream has been started. */
  predicate HasCount(cfg: Config, hist: seq<seq<nat>>, i: nat, ev: Position) {
    var d := Dir(cfg, i, ev.leg);
    && (ev.at != SHAKE ==> |hist| == 2 && ev.round < |hist[d]| && hist[d][ev.round] <= COUNT_MAX)
    && (ev.at > NEGOTIATE ==> hist[d][ev.round] < COUNT_MAX)
  }

  /** q is the run of messages from event `from` up to, and not including, event `to`. */
  predicate Chain(cfg: Config, hist: seq<seq<nat>>, i: nat, q: seq<Msg>, from: Position, to: Position)
    decreases |q|
  {
    IsEvent(from) &&
    if |q| == 0 then from == to
    else
      && HasCount(cfg, hist, i, from)
      && q[0] == MsgOf(cfg, hist, i, from)
      && Chain(cfg, hist, i, q[1..], Succ(cfg, hist, i, from), to)
  }

  lemma {:induction false} ChainIsForward(cfg: Config, hist: seq<seq<nat>>, i: nat, q: seq<Msg>, from: Position, to: Position)
    requires Chain(cfg, hist, i, q, from, to)
    ensures if |q| == 0 then from == to else Before(from, to)
    decreases |q|
  {
    if |q| > 0 {
      SuccIsLater(cfg, hist, i, from);
      ChainIsForward(cfg, hist, i, q[1..], Succ(cfg, hist, i, from), to);
    }
  }

  lemma {:induction false} ChainAppend(cfg: Config, hist: seq<seq<nat>>, i: nat, q: seq<Msg>, from: Position, to: Position)
    requires Chain(cfg, hist, i, q, from, to) && HasCount(cfg, hist, i, to)
    ensures Chain(cfg, hist, i, q + [MsgOf(cfg, hist, i, to)], from, Succ(cfg, hist, i, to))
    decreases |q|
  {
    var m := MsgOf(cfg, hist, i, to);
    if |q| == 0 {
      assert (q + [m])[1..] == [];
      SuccIsLater(cfg, hist, i, to);
    } else {
      ChainAppend(cfg, hist, i, q[1..], Succ(cfg, hist, i, from), to);
      assert (q + [m])[1..] == q[1..] + [m];
    }
  }

  lemma {:induction false} ChainExtends(cfg: Config, h: seq<seq<nat>>, h': seq<seq<nat>>, i: nat, q: seq<Msg>, from: Position, to: Position)
    requires Chain(cfg, h, i, q, from, to) && Extends(h, h')
    ensures Chain(cfg, h', i, q, from, to)
    decreases |q|
  {
    if |q| > 0 {
      CountExtends(h, h', Dir(cfg, i, from.leg), from.round);
      ChainExtends(cfg, h, h', i, q[1..], Succ(cfg, h, i, from), to);
    }
  }

  lemma CountExtends(h: seq<seq<nat>>, h': seq<seq<nat>>, d: nat, round: nat)
    requires Extends(h, h') && d < 2
    ensures round < |h[d]| ==> CountOf(h, d, round) == CountOf(h', d, round)
  {}

  // --- the next event of each kind, from a worker's position

  /** The first message from the sender of the direction at or after a position. */
  function FirstFromSender(cfg: Config, p: Position): Position {
    if p.at == INIT then Position(p.leg, 0, SHAKE, 0)
    else if p.at == SHAKE then
      if p.idx % 2 == 0 then p
      else if p.idx + 1 < 2 * cfg.iterations then p.(idx := p.idx + 1)
      else Position(p.leg, p.round, NEGOTIATE, 0)
    else if p.at <= NEGOTIATE then Position(p.leg, p.round, NEGOTIATE, 0)
    else if p.at <= RUN_SYNC then Position(p.leg, p.round, RUN, 0)
    else if p.at == RUN then p
    else if p.at <= GROW_SYNC_2 then AfterStream(cfg, p.leg, p.round, true)
    else if p.at <= FINISH then Position(p.leg, p.round, FINISH, 0)
    else Position(p.leg + 1, 0, SHAKE, 1)
  }

  /** The first message from the receiver of the direction at or after a position. */
  function FirstFromReceiver(cfg: Config, p: Position): Position {
    if p.at == INIT then Position(p.leg, 0, SHAKE, 1)
    else if p.at == SHAKE then (if p.idx % 2 == 1 then p else p.(idx := p.idx + 1))
    else if p.at <= START then Position(p.leg, p.round, START, 0)
    else if p.at <= STREAM_END then Position(p.leg, p.round, STREAM_END, 0)
    else if p.at <= GROW_SYNC_2 then AfterStream(cfg, p.leg, p.round, false)
    else if p.at == REPORT then Position(p.leg, p.round, REPORT, 0)
    else Position(p.leg + 1, 0, SHAKE, 0)
  }

  function NextSend(cfg: Config, e: nat, i: nat, w: Worker): Position {
    if IsSender(e, Dir(cfg, i, w.pos.leg)) then FirstFromSender(cfg, w.pos) else FirstFromReceiver(cfg, w.pos)
  }

  function NextReceive(cfg: Config, e: nat, i: nat, w: Worker): Position {
    if IsSender(e, Dir(cfg, i, w.pos.leg)) then FirstFromReceiver(cfg, w.pos) else FirstFromSender(cfg, w.pos)
  }

  /** Connection i: in both directions, the channel holds exactly what was sent and not yet received. */
  predicate Connected(cfg: Config, s: State, i: nat)
    requires Shape(cfg, s) && i < cfg.workers
  {
    forall e :: 0 <= e < 2 ==>
      Chain(cfg, s.hist, i, s.q[e][i], NextReceive(cfg, Peer(e), i, s.ws[Peer(e)][i]), NextSend(cfg, e, i, s.ws[e][i]))
  }
}
