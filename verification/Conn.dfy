/** The connection payload: its byte order on the wire, and the configuration match of both ends. */
module Conn {
  import opened ByteOrder
  import opened Growth
  import opened TalkModel

  const MAGIC: nat := 0x47A8F3CD
  const CONNECT: nat := 1
  const ACCEPT: nat := 2

  /** The fields of the configuration that conn_payload_create copies. */
  datatype Settings = Settings(
    asynchronous: bool, bidirectional: bool, reverseFirst: bool,
    workers: nat, mtu: nat, payload: nat, connTimeout: nat, iterations: nat, interval: nat,
    runTimeout: nat, endTimeout: nat, reverseDelay: nat, minimumTime: nat, multiplier: nat)

  /** The widths of the configuration's own fields, and the ranges that the configuration accepts where they matter. */
  predicate Accepted(c: Settings) {
    && 0 < c.workers <= 1024 && c.multiplier < Power(4)
    && c.mtu < Power(2) && c.payload < Power(2) && c.connTimeout < Power(2) && c.iterations < Power(2) && c.interval < Power(2)
    && c.runTimeout < Power(2) && c.endTimeout < Power(2) && c.reverseDelay < Power(2) && c.minimumTime < Power(2)
  }

  /** The struct: 32-bit flags, magic and mode flags, nine 16-bit fields, two bytes of padding, two 32-bit fields. */
  class Payload {
    var flags: nat
    var magic: nat
    var configFlags: nat
    var shorts: array<nat>
    var padding: seq<Byte>
    var streamTime: nat
    var multiplier: nat

    ghost predicate Valid()
      reads this, shorts
    {
      && shorts.Length == 9 && |padding| == 2
      && flags < Power(4) && magic < Power(4) && configFlags < Power(4) && streamTime < Power(4) && multiplier < Power(4)
      && forall i :: 0 <= i < 9 ==> shorts[i] < Power(2)
    }

    ghost function View(): Image
      reads this, shorts
      requires Valid()
    {
      Image(flags, magic, configFlags, shorts[..], padding, streamTime, multiplier)
    }

    /** memset, then conn_payload_create. */
    constructor (connector: bool, c: Settings)
      requires Accepted(c)
      ensures Valid() && fresh(shorts) && View() == Created(connector, c)
    {
      flags := if connector then 2 else 4;
      magic := MAGIC;
      configFlags := ModeFlags(c);
      var fields := Shorts(c);
      shorts := new nat[9](i requires 0 <= i < 9 => fields[i]);
      padding := [0, 0];
      streamTime := c.minimumTime;
      multiplier := c.multiplier;
      new;
      assert shorts[..] == fields;
    }

    /** conn_payload_hton and conn_payload_ntoh, which do the same on a little-endian host. */
    method Swap()
      requires Valid()
      modifies this, shorts
      ensures Valid() && shorts == old(shorts) && View() == Converted(old(View()))
    {
      SwapFits(View());
      flags := Swapped(flags, 4);
      magic := Swapped(magic, 4);
      configFlags := Swapped(configFlags, 4);
      var i := 0;
      while i < 9
        invariant 0 <= i <= 9 && shorts == old(shorts) && shorts.Length == 9
        invariant forall k :: 0 <= k < 9 ==> shorts[k] == if k < i then Swapped(old(shorts[k]), 2) else old(shorts[k])
        modifies shorts
      {
        shorts[i] := Swapped(shorts[i], 2);
        i := i + 1;
      }
      streamTime := Swapped(streamTime, 4);
      multiplier := Swapped(multiplier, 4);
      assert shorts[..] == Converted(old(View())).shorts;
    }
  }

  /** The value of the struct. */
  datatype Image = Image(
    flags: nat, magic: nat, configFlags: nat, shorts: seq<nat>, padding: seq<Byte>, streamTime: nat, multiplier: nat)

  predicate Fits(p: Image) {
    && |p.shorts| == 9 && |p.padding| == 2
    && p.flags < Power(4) && p.magic < Power(4) && p.configFlags < Power(4) && p.streamTime < Power(4) && p.multiplier < Power(4)
    && forall i :: 0 <= i < 9 ==> p.shorts[i] < Power(2)
  }

  /** Three mode bits, and a bit for each of the eleven fields, always set. */
  function ModeFlags(c: Settings): (f: nat)
    ensures f < Power(4)
  {
    assert Power(4) == 256 * (256 * (256 * 256));
    (if c.asynchronous then 2 else 0) + (if c.bidirectional then 4 else 0) + (if c.reverseFirst then 8 else 0) + 0x7FF0
  }

  // In the order of the struct; the worker count is cut to 16 bits.
  function Shorts(c: Settings): (s: seq<nat>)
    ensures |s| == 9
  {
    [c.workers % Power(2), c.mtu, c.payload, c.connTimeout, c.iterations, c.interval, c.runTimeout, c.endTimeout, c.reverseDelay]
  }

  function Created(connector: bool, c: Settings): Image {
    Image(if connector then 2 else 4, MAGIC, ModeFlags(c), Shorts(c), [0, 0], c.minimumTime, c.multiplier)
  }

  function Converted(p: Image): Image {
    Image(Swapped(p.flags, 4), Swapped(p.magic, 4), Swapped(p.configFlags, 4),
          seq(|p.shorts|, i requires 0 <= i < |p.shorts| => Swapped(p.shorts[i], 2)),
          p.padding, Swapped(p.streamTime, 4), Swapped(p.multiplier, 4))
  }

  lemma SwapFits(p: Image)
    requires Fits(p)
    ensures Fits(Converted(p))
  {
    hide Power, Swapped;
    NetworkOrder(p.flags, 4);
    NetworkOrder(p.magic, 4);
    NetworkOrder(p.configFlags, 4);
    NetworkOrder(p.streamTime, 4);
    NetworkOrder(p.multiplier, 4);
    forall i | 0 <= i < 9 ensures Swapped(p.shorts[i], 2) < Power(2) { NetworkOrder(p.shorts[i], 2); }
  }

  /** Host to network to host is the identity on every payload. */
  lemma HostNetworkHost(p: Image)
    requires Fits(p)
    ensures Converted(Converted(p)) == p
  {
    hide Power, Swapped;
    SwapTwice(p.flags, 4);
    SwapTwice(p.magic, 4);
    SwapTwice(p.configFlags, 4);
    SwapTwice(p.streamTime, 4);
    SwapTwice(p.multiplier, 4);
    forall i | 0 <= i < 9 ensures Swapped(Swapped(p.shorts[i], 2), 2) == p.shorts[i] { SwapTwice(p.shorts[i], 2); }
  }

  // --- the match

  function ShortBytes(s: seq<nat>): (r: seq<Byte>)
    ensures |r| == 2 * |s|
  {
    if s == [] then [] else Bytes(s[0], 2) + ShortBytes(s[1..])
  }

  /** The memory that conn_config_match compares: everything from the mode flags on, the padding included. */
  function ConfigBytes(p: Image): seq<Byte> {
    Bytes(p.configFlags, 4) + ShortBytes(p.shorts) + p.padding + Bytes(p.streamTime, 4) + Bytes(p.multiplier, 4)
  }

  predicate Match(l: Image, r: Image) { ConfigBytes(l) == ConfigBytes(r) }

  lemma {:induction false} ShortsInjective(s: seq<nat>, t: seq<nat>)
    requires |s| == |t| && ShortBytes(s) == ShortBytes(t)
    requires (forall i :: 0 <= i < |s| ==> s[i] < Power(2)) && (forall i :: 0 <= i < |t| ==> t[i] < Power(2))
    ensures s == t
    decreases |s|
  {
    hide Power, Bytes, Value;
    if s != [] {
      assert ShortBytes(s)[..2] == Bytes(s[0], 2) && ShortBytes(t)[..2] == Bytes(t[0], 2);
      assert ShortBytes(s)[2..] == ShortBytes(s[1..]) && ShortBytes(t)[2..] == ShortBytes(t[1..]);
      ValueOfBytes(s[0], 2);
      ValueOfBytes(t[0], 2);
      ShortsInjective(s[1..], t[1..]);
    }
  }

  lemma MatchIsEquality(l: Image, r: Image)
    requires Fits(l) && Fits(r)
    ensures Match(l, r) <==> l.configFlags == r.configFlags && l.shorts == r.shorts && l.padding == r.padding
                             && l.streamTime == r.streamTime && l.multiplier == r.multiplier
  {
    hide Power, Bytes, Value, ShortBytes;
    if Match(l, r) {
      var a, b := ConfigBytes(l), ConfigBytes(r);
      assert a[..4] == Bytes(l.configFlags, 4) && b[..4] == Bytes(r.configFlags, 4);
      assert a[4..22] == ShortBytes(l.shorts) && b[4..22] == ShortBytes(r.shorts);
      assert a[22..24] == l.padding && b[22..24] == r.padding;
      assert a[24..28] == Bytes(l.streamTime, 4) && b[24..28] == Bytes(r.streamTime, 4);
      assert a[28..32] == Bytes(l.multiplier, 4) && b[28..32] == Bytes(r.multiplier, 4);
      ValueOfBytes(l.configFlags, 4);
      ValueOfBytes(r.configFlags, 4);
      ValueOfBytes(l.streamTime, 4);
      ValueOfBytes(r.streamTime, 4);
      ValueOfBytes(l.multiplier, 4);
      ValueOfBytes(r.multiplier, 4);
      ShortsInjective(l.shorts, r.shorts);
    }
  }

  lemma CreatedFits(connector: bool, c: Settings)
    requires Accepted(c)
    ensures Fits(Created(connector, c))
  {
    assert Power(1) == 256 && Power(2) == 65536;
    assert Power(3) == 256 * 65536 && Power(4) == 65536 * 65536;
    hide Power;
  }

  lemma FlagsInjective(c: Settings, d: Settings)
    ensures ModeFlags(c) == ModeFlags(d) <==>
            c.asynchronous == d.asynchronous && c.bidirectional == d.bidirectional && c.reverseFirst == d.reverseFirst
  {}

  /** The match succeeds exactly when all modes and all settings agree: nothing is lost in the 16 bits of the worker count. */
  lemma MatchIffSameSettings(c: Settings, d: Settings, x: bool, y: bool)
    requires Accepted(c) && Accepted(d)
    ensures Match(Created(x, c), Created(y, d)) <==> c == d
  {
    CreatedFits(x, c);
    CreatedFits(y, d);
    MatchIsEquality(Created(x, c), Created(y, d));
    FlagsInjective(c, d);
    assert Power(1) == 256 && Power(2) == 65536;
    assert c.workers % Power(2) == c.workers && d.workers % Power(2) == d.workers;
    hide Power, ModeFlags, Match;
    assert Shorts(c) == Shorts(d) ==> forall i :: 0 <= i < 9 ==> Shorts(c)[i] == Shorts(d)[i];
    if c == d { assert Created(x, c).shorts == Created(y, d).shorts; }
    if Shorts(c) == Shorts(d) {
      assert c.workers == Shorts(c)[0] && c.mtu == Shorts(c)[1] && c.payload == Shorts(c)[2] && c.connTimeout == Shorts(c)[3];
      assert c.iterations == Shorts(c)[4] && c.interval == Shorts(c)[5] && c.runTimeout == Shorts(c)[6];
      assert c.endTimeout == Shorts(c)[7];
      assert c.reverseDelay == Shorts(c)[8];
    }
  }

  /** The tests of the flags and the magic number that each end makes of the other's payload. */
  predicate HasFlag(p: Image, flag: nat) {
    p.magic == MAGIC && p.flags / (if flag == CONNECT then 2 else 4) % 2 == 1
  }

  datatype Verdict = Proceeds | Unexpected | Mismatch

  /** What an end concludes from its own payload and the one it received, both brought to network order and back. */
  function Concludes(connector: bool, own: Image, received: Image): Verdict {
    var p1, p2 := Converted(own), Converted(received);
    if !HasFlag(p2, if connector then ACCEPT else CONNECT) then Unexpected
    else if !Match(p1, p2) then Mismatch
    else Proceeds
  }

  /** Both ends reach the same verdict, and go on exactly when their settings are equal. */
  lemma SameVerdict(c: Settings, d: Settings)
    requires Accepted(c) && Accepted(d)
    ensures var sent, answer := Converted(Created(true, c)), Converted(Created(false, d));
            Concludes(true, sent, answer) == Concludes(false, answer, sent) == if c == d then Proceeds else Mismatch
  {
    hide Converted, Created, HasFlag, Power, Match, Fits;
    var p, q := Created(true, c), Created(false, d);
    CreatedFits(true, c);
    CreatedFits(false, d);
    HostNetworkHost(p);
    HostNetworkHost(q);
    RolesKnown(c, d);
    MatchIffSameSettings(c, d, true, false);
    MatchIffSameSettings(d, c, false, true);
  }

  lemma RolesKnown(c: Settings, d: Settings)
    ensures HasFlag(Created(true, c), CONNECT) && HasFlag(Created(false, d), ACCEPT)
  {
    hide ModeFlags, Shorts, Power;
  }

  // --- the bytes on the network

  /** The memory of the struct. */
  function Memory(p: Image): seq<Byte> { Bytes(p.flags, 4) + Bytes(p.magic, 4) + ConfigBytes(p) }

  /** The mode bits are bits 1 to 3, and the bits 4 to 14, one for each other setting, are always set. */
  predicate ModesRead(flags: nat, c: Settings) {
    && (Test(flags, 1) <==> c.asynchronous) && (Test(flags, 2) <==> c.bidirectional) && (Test(flags, 3) <==> c.reverseFirst)
    && (forall n :: 4 <= n <= 14 ==> Test(flags, n)) && flags % 2 == 0 && flags < 0x8000
  }

  /** What the 40 bytes say to a reader of the network: the role, the magic number, the modes, and each setting at its own
      offset, most significant byte first. */
  ghost predicate Announces(w: seq<Byte>, connector: bool, c: Settings) {
    && |w| == 40
    && Reads(w, 0, 4, if connector then 2 else 4) && Reads(w, 4, 8, 0x47A8F3CD)
    && ModesRead(BigEndian(w[8..12]), c)
    && Reads(w, 12, 14, c.workers) && Reads(w, 14, 16, c.mtu) && Reads(w, 16, 18, c.payload)
    && Reads(w, 18, 20, c.connTimeout) && Reads(w, 20, 22, c.iterations) && Reads(w, 22, 24, c.interval)
    && Reads(w, 24, 26, c.runTimeout) && Reads(w, 26, 28, c.endTimeout) && Reads(w, 28, 30, c.reverseDelay)
    && ZeroFrom(w, 30, 32) && Reads(w, 32, 36, c.minimumTime) && Reads(w, 36, 40, c.multiplier)
  }

  lemma {:induction false} ShortBytesAt(s: seq<nat>, k: nat)
    requires k < |s|
    ensures ShortBytes(s)[2 * k..2 * k + 2] == Bytes(s[k], 2)
  {
    hide Bytes;
    if k > 0 {
      ShortBytesAt(s[1..], k - 1);
      assert ShortBytes(s)[2..] == ShortBytes(s[1..]);
      assert ShortBytes(s)[2 * k..2 * k + 2] == ShortBytes(s)[2..][2 * k - 2..2 * k];
    }
  }

  /** Where the fields lie in the memory of the struct. */
  lemma FieldsAt(p: Image, k: nat)
    requires Fits(p) && k < 9
    ensures var w := Memory(p);
            && |w| == 40 && w[0..4] == Bytes(p.flags, 4) && w[4..8] == Bytes(p.magic, 4) && w[8..12] == Bytes(p.configFlags, 4)
            && w[12 + 2 * k..14 + 2 * k] == Bytes(p.shorts[k], 2) && w[30..32] == p.padding
            && w[32..36] == Bytes(p.streamTime, 4) && w[36..40] == Bytes(p.multiplier, 4) && w[8..] == ConfigBytes(p)
  {
    hide Bytes, Power, ShortBytes;
    var w := Memory(p);
    assert w[12..30] == ShortBytes(p.shorts);
    ShortBytesAt(p.shorts, k);
    assert w[12 + 2 * k..14 + 2 * k] == w[12..30][2 * k..2 * k + 2];
  }

  lemma ConvertedReads(s: seq<Byte>, at: nat, end: nat, x: nat)
    requires at <= end <= |s| && s[at..end] == Bytes(Swapped(x, end - at), end - at) && x < Power(end - at)
    ensures Reads(s, at, end, x)
  {
    OnNetwork(x, end - at);
  }

  lemma ShortReads(p: Image, k: nat)
    requires Fits(p) && k < 9
    ensures |Memory(Converted(p))| == 40 && Reads(Memory(Converted(p)), 12 + 2 * k, 14 + 2 * k, p.shorts[k])
  {
    hide Bytes, Power, Swapped, ConfigBytes, Memory, Reads;
    SwapFits(p);
    FieldsAt(Converted(p), k);
    ConvertedReads(Memory(Converted(p)), 12 + 2 * k, 14 + 2 * k, p.shorts[k]);
  }

  lemma WordsRead(p: Image)
    requires Fits(p)
    ensures var w := Memory(Converted(p));
            && |w| == 40 && Reads(w, 0, 4, p.flags) && Reads(w, 4, 8, p.magic) && Reads(w, 8, 12, p.configFlags)
            && w[30..32] == p.padding && Reads(w, 32, 36, p.streamTime) && Reads(w, 36, 40, p.multiplier)
  {
    hide Bytes, Power, Swapped, ConfigBytes, Memory, Reads;
    SwapFits(p);
    FieldsAt(Converted(p), 0);
    var w := Memory(Converted(p));
    ConvertedReads(w, 0, 4, p.flags);
    ConvertedReads(w, 4, 8, p.magic);
    ConvertedReads(w, 8, 12, p.configFlags);
    ConvertedReads(w, 32, 36, p.streamTime);
    ConvertedReads(w, 36, 40, p.multiplier);
  }

  lemma ModesAreBits(c: Settings)
    ensures ModesRead(ModeFlags(c), c)
  {
    Bits();
    hide Bit;
    forall n | 4 <= n <= 14 ensures Test(ModeFlags(c), n) {
      assert n == 4 || n == 5 || n == 6 || n == 7 || n == 8 || n == 9 || n == 10 || n == 11 || n == 12 || n == 13 || n == 14;
    }
  }

  lemma CreatedFields(connector: bool, c: Settings)
    requires Accepted(c)
    ensures var p := Created(connector, c);
            && Fits(p) && p.flags == (if connector then 2 else 4) && p.magic == 0x47A8F3CD && ModesRead(p.configFlags, c)
            && p.shorts == [c.workers, c.mtu, c.payload, c.connTimeout, c.iterations, c.interval, c.runTimeout, c.endTimeout,
                            c.reverseDelay]
            && p.padding == [0, 0] && p.streamTime == c.minimumTime && p.multiplier == c.multiplier
  {
    hide ModesRead, ModeFlags;
    CreatedFits(connector, c);
    ModesAreBits(c);
    assert Power(1) == 256 && Power(2) == 65536;
    assert c.workers % Power(2) == c.workers;
  }

  lemma ShortsRead(p: Image)
    requires Fits(p)
    ensures |Memory(Converted(p))| == 40 && forall k :: 0 <= k < 9 ==> Reads(Memory(Converted(p)), 12 + 2 * k, 14 + 2 * k, p.shorts[k])
  {
    hide Power, Converted, Memory, Reads;
    WordsRead(p);
    forall k | 0 <= k < 9 ensures Reads(Memory(Converted(p)), 12 + 2 * k, 14 + 2 * k, p.shorts[k]) { ShortReads(p, k); }
  }

  /** The payload that is sent announces exactly the settings it was created from. */
  lemma SentAnnounces(connector: bool, c: Settings)
    requires Accepted(c)
    ensures Announces(Memory(Converted(Created(connector, c))), connector, c)
  {
    hide Power, ModesRead, Created, Converted, Memory, Fits, Accepted, BigEndian;
    var p := Created(connector, c);
    CreatedFields(connector, c);
    WordsRead(p);
    ShortsRead(p);
    var w := Memory(Converted(p));
    assert ZeroFrom(w, 30, 32) by { assert w[30..32][0] == w[30] && w[30..32][1] == w[31]; }
    hide ZeroFrom;
    EachShort(w, p.shorts);
    hide Reads;
    assert BigEndian(w[8..12]) == p.configFlags;
  }

  lemma EachShort(w: seq<Byte>, s: seq<nat>)
    requires |w| == 40 && |s| == 9 && forall k :: 0 <= k < 9 ==> Reads(w, 12 + 2 * k, 14 + 2 * k, s[k])
    ensures Reads(w, 12, 14, s[0]) && Reads(w, 14, 16, s[1]) && Reads(w, 16, 18, s[2]) && Reads(w, 18, 20, s[3])
    ensures Reads(w, 20, 22, s[4]) && Reads(w, 22, 24, s[5]) && Reads(w, 24, 26, s[6]) && Reads(w, 26, 28, s[7])
    ensures Reads(w, 28, 30, s[8])
  {
    hide Reads;
    assert Reads(w, 12 + 2 * 0, 14 + 2 * 0, s[0]) && Reads(w, 12 + 2 * 1, 14 + 2 * 1, s[1]) && Reads(w, 12 + 2 * 2, 14 + 2 * 2, s[2]);
    assert Reads(w, 12 + 2 * 3, 14 + 2 * 3, s[3]) && Reads(w, 12 + 2 * 4, 14 + 2 * 4, s[4]) && Reads(w, 12 + 2 * 5, 14 + 2 * 5, s[5]);
    assert Reads(w, 12 + 2 * 6, 14 + 2 * 6, s[6]) && Reads(w, 12 + 2 * 7, 14 + 2 * 7, s[7]) && Reads(w, 12 + 2 * 8, 14 + 2 * 8, s[8]);
  }

  /** An end creates its payload, brings it to network order and sends its memory. */
  method Announce(connector: bool, c: Settings) returns (sent: seq<Byte>)
    requires Accepted(c)
    ensures Announces(sent, connector, c)
  {
    var p := new Payload(connector, c);
    p.Swap();
    sent := Memory(Image(p.flags, p.magic, p.configFlags, p.shorts[..], p.padding, p.streamTime, p.multiplier));
    SentAnnounces(connector, c);
    hide Announces, Memory, Created, Converted;
  }

  lemma ConvertedMatch(a: Image, b: Image)
    requires Fits(a) && Fits(b)
    ensures Match(Converted(a), Converted(b)) <==> Match(a, b)
  {
    hide Match, Power, Swapped, Fits;
    SwapFits(a);
    SwapFits(b);
    MatchIsEquality(a, b);
    MatchIsEquality(Converted(a), Converted(b));
    HostNetworkHost(a);
    HostNetworkHost(b);
    assert Converted(Converted(a)).shorts == a.shorts && Converted(Converted(b)).shorts == b.shorts;
  }

  /** The verdict on any 40 bytes received, from the bytes alone: a wrong magic number or a missing role bit is an
      unexpected answer, and beyond those two words every byte must be the one that the end itself has sent. */
  lemma VerdictExactly(connector: bool, own: Image, received: Image)
    requires Fits(own) && Fits(received)
    ensures var v, w := Memory(own), Memory(received);
            && |v| == |w| == 40
            && Concludes(connector, own, received) ==
               if BigEndian(w[4..8]) != 0x47A8F3CD || !Test(BigEndian(w[0..4]), if connector then 2 else 1) then Unexpected
               else if w[8..] != v[8..] then Mismatch else Proceeds
  {
    FieldsAt(own, 0);
    FieldsAt(received, 0);
    ConvertedMatch(own, received);
    SwappedReads(received.flags, 4);
    SwappedReads(received.magic, 4);
    assert Bit(0) == 1 && Bit(1) == 2 && Bit(2) == 4;
    hide Bytes, Power, Swapped, ConfigBytes, Memory, Bit, Fits, BigEndian;
    assert Match(own, received) <==> ConfigBytes(own) == ConfigBytes(received);
  }

  /** What _config_sanity asserts of these settings, with the worker split of config_init. */
  predicate Sane(c: Settings) {
    && Accepted(c) && c.iterations > 0 && c.payload >= 508 && 0 < c.minimumTime <= 2147
    && (c.multiplier == 0 || 1 < c.multiplier < MULTIPLIER_MAX)
    && (c.asynchronous ==> c.workers % 2 == 0 && c.bidirectional && !c.reverseFirst)
  }

  /** The measurements and choices of a run: they depend on the connection and the barrier, not on who looks. */
  datatype Measured = Measured(
    capacity: nat, duration: (nat, nat, nat) -> nat, began: (nat, nat, nat) -> nat, latency: (nat, nat) -> nat,
    serial: (nat, nat, nat) -> nat)

  /** The configuration of the protocol that an end derives from its settings. */
  function ProtocolOf(c: Settings, m: Measured): Config {
    Config(c.asynchronous, c.bidirectional, c.reverseFirst, c.workers, c.iterations, c.payload, c.minimumTime, c.multiplier,
           m.capacity, m.duration, m.began, m.latency, m.serial)
  }

  /** Ends that go on run the protocol with one and the same valid configuration. */
  lemma MatchGivesConfig(c: Settings, d: Settings, m: Measured)
    requires Sane(c) && Sane(d) && SerialChosen(ProtocolOf(c, m))
    ensures Concludes(true, Converted(Created(true, c)), Converted(Created(false, d))) == Proceeds ==>
              ProtocolOf(c, m) == ProtocolOf(d, m) && ValidConfig(ProtocolOf(c, m))
  {
    hide Concludes, Converted, Created, Power;
    SameVerdict(c, d);
  }
}
