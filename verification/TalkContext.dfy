/** The shared talk counters of one end as the object that its workers update, and the loop that receives a stream. */
module TalkContext {
  import opened Growth
  import opened TalkModel

  class Context {
    var weak: nat
    var imWeak: array<nat>
    var weakTime: array<nat>
    var count: array<nat>

    ghost predicate Valid()
      reads this, imWeak, weakTime, count
    {
      imWeak.Length == weakTime.Length == count.Length == 2 && imWeak != weakTime && imWeak != count && weakTime != count
    }

    ghost function View(): (sh: Shared)
      reads this, imWeak, weakTime, count
    {
      Shared(weak, imWeak[..], weakTime[..], count[..])
    }

    /** The zeroed counters of talk_init. */
    constructor ()
      ensures Valid() && View() == FRESH_SHARED && fresh(imWeak) && fresh(weakTime) && fresh(count)
    {
      weak := 0;
      imWeak, weakTime, count := new nat[2][0, 0], new nat[2][0, 0], new nat[2][0, 0];
    }

    /** Before a stream: every worker clears the counters of its direction, and the total. */
    method Reset(cfg: Config, i: nat, w: Worker)
      requires Valid() && w.pos.at == RESET
      modifies this`weak, imWeak, weakTime
      ensures Valid() && View() == SharedAfterLocal(cfg, i, w, old(View()))
    {
      var d := Dir(cfg, i, w.pos.leg);
      weak := 0;
      imWeak[d] := 0;
      weakTime[d] := 0;
    }

    /** After a stream: a worker whose stream was weak adds its vote. */
    method Vote(cfg: Config, i: nat, w: Worker)
      requires Valid() && w.pos.at == WEAK
      modifies this`weak, imWeak, weakTime
      ensures Valid() && View() == SharedAfterLocal(cfg, i, w, old(View()))
    {
      var d := Dir(cfg, i, w.pos.leg);
      if w.weak {
        weak := weak + 1;
        imWeak[d] := imWeak[d] + 1;
        weakTime[d] := w.weakTime;
      }
    }

    /** The serial sender writes the initial count. */
    method SetCount(cfg: Config, i: nat, w: Worker)
      requires Valid() && w.pos.at == SET_COUNT
      modifies count
      ensures Valid() && View() == SharedAfterLocal(cfg, i, w, old(View()))
    {
      count[Dir(cfg, i, w.pos.leg)] := COUNT_DEFAULT;
    }

    /** The serial sender multiplies the count when its whole direction was weak. */
    method Grow(cfg: Config, i: nat, w: Worker)
      requires Valid() && w.pos.at == GROW
      modifies count
      ensures Valid() && View() == SharedAfterLocal(cfg, i, w, old(View()))
      ensures var d := Dir(cfg, i, w.pos.leg);
              && count[1 - d] == old(count[1 - d])
              && if imWeak[d] == (if cfg.asynchronous then cfg.workers / 2 else cfg.workers)
                 then IsGrown(old(count[d]), cfg.multiplier, cfg.minimumTime * 1000000, weakTime[d], cfg.asynchronous, count[d])
                 else count[d] == old(count[d])
    {
      var d := Dir(cfg, i, w.pos.leg);
      GrownExactly(count[d], cfg.multiplier, cfg.minimumTime * SECOND, weakTime[d], cfg.asynchronous,
                   Multiplied(count[d], cfg.multiplier, cfg.minimumTime * SECOND, weakTime[d], cfg.asynchronous));
      hide Multiplied, IsGrown;
      if imWeak[d] == cfg.workers / (1 + if cfg.asynchronous then 1 else 0) {
        count[d] := Multiplied(count[d], cfg.multiplier, cfg.minimumTime * SECOND, weakTime[d], cfg.asynchronous);
      }
    }

    /** The restart decision of _talk_weak_stream_needs_restart. */
    method Decide(cfg: Config, d: nat) returns (restart: bool)
      requires Valid() && d < 2
      ensures restart == NeedsRestart(cfg, View(), d)
    {
      if cfg.asynchronous {
        restart := imWeak[0] == cfg.workers / 2 || imWeak[1] == cfg.workers / 2;
      } else {
        restart := imWeak[d] == cfg.workers;
      }
    }
  }

  /** What one receive of the stream loop gives: a whole message, or the receive timeout. */
  datatype Arrival = Message | Timeout

  /** The receive loop of a stream: it counts messages until the negotiated count or the first timeout, and each adds
      the payload size to the bytes. */
  method ReceiveStream(count: nat, payload: nat, arrivals: seq<Arrival>) returns (packets: nat, bytes: nat)
    requires |arrivals| >= count
    ensures packets <= count && bytes == packets * payload
    ensures forall i :: 0 <= i < packets ==> arrivals[i] == Message
    ensures packets < count ==> arrivals[packets] == Timeout
  {
    packets, bytes := 0, 0;
    while packets < count
      invariant packets <= count && bytes == packets * payload
      invariant forall i :: 0 <= i < packets ==> arrivals[i] == Message
    {
      if arrivals[packets] == Timeout { break; }
      bytes := bytes + payload;
      packets := packets + 1;
    }
  }
}
