/** Talk messages and reports as bytes: what one end encodes the other decodes. */
module Messages {
  import opened ByteOrder
  import opened TalkModel

  /** A field in network order, and its reading back on the other host. */
  function Put(x: nat, n: nat): (r: seq<Byte>)
    ensures |r| == n
  {
    Bytes(Swapped(x, n), n)
  }

  function Get(s: seq<Byte>, at: nat, n: nat): nat
    requires at + n <= |s|
  {
    Swapped(Value(s[at..at + n]), n)
  }

  lemma GetPut(s: seq<Byte>, at: nat, x: nat, n: nat)
    requires at + n <= |s| && s[at..at + n] == Put(x, n) && x < Power(n)
    ensures Get(s, at, n) == x
  {
    NetworkOrder(x, n);
    ValueOfBytes(Swapped(x, n), n);
    SwapTwice(x, n);
  }

  function Zeros(n: nat): (r: seq<Byte>)
    ensures |r| == n
  {
    seq(n, _ => 0)
  }

  // --- reports

  const REPORT_SIZE: nat := 48

  /** report_marshal: the collected record in network order, in a buffer otherwise zero. */
  function Marshal(r: Record, len: nat): (s: seq<Byte>)
    requires len >= REPORT_SIZE
    ensures |s| == len
  {
    Put(r.latency, 4) + Put(r.count, 4) + Put(r.packets, 4) + Zeros(12)
    + Put(r.duration, 8) + Put(r.start, 8) + Put(r.bytes, 8) + Zeros(len - REPORT_SIZE)
  }

  function Unmarshal(s: seq<Byte>): Record
    requires |s| >= REPORT_SIZE
  {
    Record(Get(s, 0, 4), Get(s, 4, 4), Get(s, 8, 4), Get(s, 24, 8), Get(s, 32, 8), Get(s, 40, 8))
  }

  /** The fields fit the widths of the struct. */
  predicate RecordFits(r: Record) {
    && r.latency < Power(4) && r.count < Power(4) && r.packets < Power(4)
    && r.duration < Power(8) && r.start < Power(8) && r.bytes < Power(8)
  }

  /** A report arrives as it was sent. */
  lemma ReportRoundTrip(r: Record, len: nat)
    requires RecordFits(r) && len >= REPORT_SIZE
    ensures Unmarshal(Marshal(r, len)) == r
  {
    hide Put, Get, Zeros;
    var s := Marshal(r, len);
    assert s[0..4] == Put(r.latency, 4) && s[4..8] == Put(r.count, 4) && s[8..12] == Put(r.packets, 4);
    assert s[24..32] == Put(r.duration, 8) && s[32..40] == Put(r.start, 8) && s[40..48] == Put(r.bytes, 8);
    GetPut(s, 0, r.latency, 4);
    GetPut(s, 4, r.count, 4);
    GetPut(s, 8, r.packets, 4);
    GetPut(s, 24, r.duration, 8);
    GetPut(s, 32, r.start, 8);
    GetPut(s, 40, r.bytes, 8);
  }

  // --- messages

  /** The struct of a talk message; buf has room for the largest payload. */
  datatype Packet = Packet(flags: nat, count: nat, latency: nat, weakTime: nat, worker: nat, buf: seq<Byte>)

  predicate PacketFits(p: Packet, len: nat) {
    && p.flags < Power(4) && p.count < Power(4) && p.latency < Power(4) && p.weakTime < Power(8) && p.worker < Power(8)
    && HEADER_SIZE <= len <= HEADER_SIZE + |p.buf|
  }

  /** The bytes _talk_send writes: the header, and the buffer as far as the length goes. */
  function Encode(p: Packet, len: nat): (s: seq<Byte>)
    requires PacketFits(p, len)
    ensures |s| == len
  {
    Put(p.flags, 4) + Put(p.count, 4) + Put(p.latency, 4) + Zeros(4) + Put(p.weakTime, 8) + Put(p.worker, 8)
    + p.buf[..len - HEADER_SIZE]
  }

  /** What _talk_recv makes of the bytes it has read. */
  function Decode(s: seq<Byte>): Packet
    requires |s| >= HEADER_SIZE
  {
    Packet(Get(s, 0, 4), Get(s, 4, 4), Get(s, 8, 4), Get(s, 16, 8), Get(s, 24, 8), s[HEADER_SIZE..])
  }

  /** A packet arrives as it was sent, with as much of the buffer as its length covers. */
  lemma PacketRoundTrip(p: Packet, len: nat)
    requires PacketFits(p, len)
    ensures Decode(Encode(p, len)) == p.(buf := p.buf[..len - HEADER_SIZE])
  {
    hide Put, Get, Zeros;
    var s := Encode(p, len);
    assert s[0..4] == Put(p.flags, 4) && s[4..8] == Put(p.count, 4) && s[8..12] == Put(p.latency, 4);
    assert s[16..24] == Put(p.weakTime, 8) && s[24..32] == Put(p.worker, 8) && s[32..] == p.buf[..len - HEADER_SIZE];
    GetPut(s, 0, p.flags, 4);
    GetPut(s, 4, p.count, 4);
    GetPut(s, 8, p.latency, 4);
    GetPut(s, 16, p.weakTime, 8);
    GetPut(s, 24, p.worker, 8);
  }

  // --- the protocol's messages

  const LATENCY_BIT: nat := 3
  const WEAK_BIT: nat := 8
  const FORCE_FAIL_BIT: nat := 11

  /** The operation numbers, which are also their bits in the flags. */
  function OpBit(op: Op): nat {
    match op
    case Ping => 1
    case Pong => 2
    case CountReq => 4
    case StreamStart => 5
    case StreamRun => 6
    case StreamEnd => 7
    case ReportOp => 9
    case FinishOp => 10
  }

  /** The bits that the sending functions set. */
  function Flags(m: Msg): nat {
    Bit(OpBit(m.op)) + (if m.op == CountReq then Bit(LATENCY_BIT) else 0)
    + (if m.op == StreamEnd && m.weak then Bit(WEAK_BIT) else 0)
  }

  /** A message of the protocol as the sending functions fill it in. */
  predicate MessageFits(m: Msg, room: nat) {
    && HEADER_SIZE <= m.len <= HEADER_SIZE + room
    && m.count < Power(4) && m.latency < Power(4) && m.weakTime < Power(8)
    && (m.weak ==> m.op == StreamEnd)
    && (if m.op == ReportOp then RecordFits(m.report) && m.len >= HEADER_SIZE + REPORT_SIZE && room >= REPORT_SIZE
        else m.report == EMPTY_RECORD)
  }

  /** The bytes of a message sent by a worker; room is the size of the struct's buffer. */
  function Transmit(m: Msg, worker: nat, room: nat): (s: seq<Byte>)
    requires MessageFits(m, room) && worker < Power(8)
    ensures |s| == m.len
  {
    var buf := if m.op == ReportOp then Marshal(m.report, room) else Zeros(room);
    FlagsSmall(m);
    Encode(Packet(Flags(m), m.count, m.latency, m.weakTime, worker, buf), m.len)
  }

  lemma FlagsSmall(m: Msg)
    ensures Flags(m) < Power(4)
  {
    Bits();
    hide Bit;
    assert Power(4) == 256 * (256 * (256 * 256));
  }

  /** The receiver's tests of the flags find the operation, the weak verdict, the latency and no forced failure. */
  lemma FlagTests(m: Msg, op: Op)
    requires m.weak ==> m.op == StreamEnd
    ensures Test(Flags(m), OpBit(op)) <==> m.op == op
    ensures Test(Flags(m), WEAK_BIT) <==> m.weak
    ensures Test(Flags(m), LATENCY_BIT) <==> m.op == CountReq
    ensures !Test(Flags(m), FORCE_FAIL_BIT)
  {
    Bits();
    hide Bit;
  }

  /** Every message of the protocol survives its way over the wire: the receiver reads the same length, operation,
      verdict, count, latency, time and report. */
  lemma MessageRoundTrip(m: Msg, worker: nat, room: nat, op: Op)
    requires MessageFits(m, room) && worker < Power(8)
    ensures var p := Decode(Transmit(m, worker, room));
            && (Test(p.flags, OpBit(op)) <==> m.op == op) && (Test(p.flags, WEAK_BIT) <==> m.weak)
            && !Test(p.flags, FORCE_FAIL_BIT)
            && p.count == m.count && p.latency == m.latency && p.weakTime == m.weakTime && p.worker == worker
            && (m.op == ReportOp ==> |p.buf| >= REPORT_SIZE && Unmarshal(p.buf) == m.report)
  {
    hide Marshal, Unmarshal, Encode, Decode, Flags, Test, Power, Get;
    var buf := if m.op == ReportOp then Marshal(m.report, room) else Zeros(room);
    FlagsSmall(m);
    var p := Packet(Flags(m), m.count, m.latency, m.weakTime, worker, buf);
    PacketRoundTrip(p, m.len);
    FlagTests(m, op);
    if m.op == ReportOp {
      ReportRoundTrip(m.report, m.len - HEADER_SIZE);
      MarshalPrefix(m.report, room, m.len - HEADER_SIZE);
    }
  }

  lemma MarshalPrefix(r: Record, room: nat, len: nat)
    requires REPORT_SIZE <= len <= room
    ensures Marshal(r, room)[..len] == Marshal(r, len)
  {
    hide Put;
  }

  // --- the bytes on the network

  lemma PutReads(s: seq<Byte>, at: nat, end: nat, x: nat)
    requires at <= end <= |s| && s[at..end] == Put(x, end - at) && x < Power(end - at)
    ensures Reads(s, at, end, x)
  {
    OnNetwork(x, end - at);
  }

  /** A report's struct: latency, count and packets in 32 bits, three reserved words, then duration, start and bytes in 64. */
  predicate ReportReads(s: seq<Byte>, r: Record) {
    && Reads(s, 0, 4, r.latency) && Reads(s, 4, 8, r.count) && Reads(s, 8, 12, r.packets) && ZeroFrom(s, 12, 24)
    && Reads(s, 24, 32, r.duration) && Reads(s, 32, 40, r.start) && Reads(s, 40, 48, r.bytes) && ZeroFrom(s, 48, |s|)
  }

  /** Every field of a report lies at its offset in network order, and all else is zero. */
  lemma ReportOnNetwork(r: Record, len: nat)
    requires RecordFits(r) && len >= REPORT_SIZE
    ensures ReportReads(Marshal(r, len), r)
  {
    hide Put, Power, Reads;
    var s := Marshal(r, len);
    assert s[0..4] == Put(r.latency, 4) && s[4..8] == Put(r.count, 4) && s[8..12] == Put(r.packets, 4);
    assert s[24..32] == Put(r.duration, 8) && s[32..40] == Put(r.start, 8) && s[40..48] == Put(r.bytes, 8);
    PutReads(s, 0, 4, r.latency);
    PutReads(s, 4, 8, r.count);
    PutReads(s, 8, 12, r.packets);
    PutReads(s, 24, 32, r.duration);
    PutReads(s, 32, 40, r.start);
    PutReads(s, 40, 48, r.bytes);
  }

  /** The flags as a number: the operation's bit, the latency's with a COUNT request, the verdict's with a weak STREAM END. */
  function FlagNumber(m: Msg): nat {
    match m.op
    case Ping => 0x002
    case Pong => 0x004
    case CountReq => 0x018
    case StreamStart => 0x020
    case StreamRun => 0x040
    case StreamEnd => if m.weak then 0x180 else 0x080
    case ReportOp => 0x200
    case FinishOp => 0x400
  }

  /** The header's fields at their offsets. */
  predicate HeaderReads(s: seq<Byte>, m: Msg, worker: nat) {
    && Reads(s, 0, 4, FlagNumber(m)) && Reads(s, 4, 8, m.count) && Reads(s, 8, 12, m.latency) && ZeroFrom(s, 12, 16)
    && Reads(s, 16, 24, m.weakTime) && Reads(s, 24, 32, worker)
  }

  lemma FlagsAreNumber(m: Msg)
    requires m.weak ==> m.op == StreamEnd
    ensures Flags(m) == FlagNumber(m)
  {
    Bits();
    hide Bit;
  }

  lemma EncodedHeader(p: Packet, len: nat)
    requires PacketFits(p, len)
    ensures var s := Encode(p, len);
            && Reads(s, 0, 4, p.flags) && Reads(s, 4, 8, p.count) && Reads(s, 8, 12, p.latency) && ZeroFrom(s, 12, 16)
            && Reads(s, 16, 24, p.weakTime) && Reads(s, 24, 32, p.worker) && s[32..] == p.buf[..len - 32]
  {
    hide Put, Power, Reads;
    var s := Encode(p, len);
    assert s[0..4] == Put(p.flags, 4) && s[4..8] == Put(p.count, 4) && s[8..12] == Put(p.latency, 4);
    assert s[16..24] == Put(p.weakTime, 8) && s[24..32] == Put(p.worker, 8);
    PutReads(s, 0, 4, p.flags);
    PutReads(s, 4, 8, p.count);
    PutReads(s, 8, 12, p.latency);
    PutReads(s, 16, 24, p.weakTime);
    PutReads(s, 24, 32, p.worker);
  }

  /** The bytes that a message puts on the network, all of them: the flags as a number and every field at its offset, most
      significant byte first; behind the header the report, or zeros. */
  lemma MessageOnNetwork(m: Msg, worker: nat, room: nat)
    requires MessageFits(m, room) && worker < Power(8)
    ensures var s := Transmit(m, worker, room);
            && |s| == m.len >= 32 && HeaderReads(s, m, worker)
            && if m.op == ReportOp then ReportReads(s[32..], m.report) else ZeroFrom(s, 32, |s|)
  {
    hide Marshal, Encode, Flags, Power, Reads, ReportReads;
    var buf := if m.op == ReportOp then Marshal(m.report, room) else Zeros(room);
    FlagsSmall(m);
    FlagsAreNumber(m);
    var s := Encode(Packet(Flags(m), m.count, m.latency, m.weakTime, worker, buf), m.len);
    EncodedHeader(Packet(Flags(m), m.count, m.latency, m.weakTime, worker, buf), m.len);
    assert forall k :: 32 <= k < |s| ==> s[k] == s[32..][k - 32];
    if m.op == ReportOp {
      MarshalPrefix(m.report, room, m.len - HEADER_SIZE);
      ReportOnNetwork(m.report, m.len - HEADER_SIZE);
    }
  }
}
