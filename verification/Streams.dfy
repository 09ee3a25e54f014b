/**
  The read and write loops over a byte stream that moves any positive number of bytes at a time and may be interrupted,
  and what they make of a sequence of messages.
 */
module Streams {
  import opened ByteOrder

  /** What one read or write call does: it is interrupted (or finds no buffer space), fails, or moves up to n bytes. */
  datatype Call = Interrupted | Failed | Moves(n: nat)

  predicate Works(c: Call) { c.Moves? ==> c.n > 0 }

  function Least(x: nat, y: nat): nat { if x < y then x else y }

  /** One direction of a connection. */
  class Pipe {
    var unread: seq<Byte>
    ghost var written: seq<Byte>
    ghost var read: seq<Byte>

    ghost predicate Valid()
      reads this
    {
      written == read + unread
    }

    constructor ()
      ensures Valid() && written == [] && read == []
    {
      unread, written, read := [], [], [];
    }

    /** net_write_to_*: goes on after interruptions and partial writes. Returns the count, or nothing on failure. The
        calls are those the loop would make; it is cut short when they run out. */
    method Write(buf: seq<Byte>, calls: seq<Call>) returns (count: nat, ok: bool, ghost used: nat)
      requires Valid() && forall i :: 0 <= i < |calls| ==> Works(calls[i])
      modifies this
      ensures Valid() && count <= |buf| && written == old(written) + buf[..count] && read == old(read)
      ensures used <= |calls| && (ok <==> count == |buf|)
      ensures !ok ==> used == |calls| || calls[used].Failed?
      ensures count == Least(|buf|, Offered(calls[..used]))
    {
      count, used := 0, 0;
      var k := 0;
      while count < |buf| && k < |calls|
        invariant 0 <= k <= |calls| && used == k && count <= |buf|
        invariant Valid() && written == old(written) + buf[..count] && read == old(read)
        invariant count == Least(|buf|, Offered(calls[..k]))
      {
        OfferedSnoc(calls, k);
        match calls[k] {
          case Failed => break;
          case Interrupted =>
          case Moves(n) =>
            var moved := Least(n, |buf| - count);
            assert buf[..count] + buf[count..count + moved] == buf[..count + moved];
            unread := unread + buf[count..count + moved];
            written := written + buf[count..count + moved];
            count := count + moved;
        }
        k := k + 1;
        used := k;
      }
      ok := count == |buf|;
    }

    /** net_read_from_*: the bytes read so far; a read moves what is there, and blocks for ever (the calls end) when
        the stream is dry. */
    method Read(len: nat, calls: seq<Call>) returns (data: seq<Byte>, ok: bool, ghost used: nat)
      requires Valid() && forall i :: 0 <= i < |calls| ==> Works(calls[i])
      modifies this
      ensures Valid() && read == old(read) + data && written == old(written) && |data| <= len
      ensures used <= |calls| && (ok <==> |data| == len)
      ensures !ok ==> used == |calls| || calls[used].Failed? || unread == []
      ensures |data| == Least(Least(len, |old(unread)|), Offered(calls[..used]))
    {
      data, used := [], 0;
      var k := 0;
      while |data| < len && k < |calls| && unread != []
        invariant 0 <= k <= |calls| && used == k && |data| <= len
        invariant Valid() && written == old(written) && read == old(read) + data && |data| + |unread| == |old(unread)|
        invariant |data| == Least(Least(len, |old(unread)|), Offered(calls[..k]))
      {
        OfferedSnoc(calls, k);
        match calls[k] {
          case Failed => break;
          case Interrupted =>
          case Moves(n) =>
            var moved := Least(n, Least(len - |data|, |unread|));
            assert unread == unread[..moved] + unread[moved..];
            data := data + unread[..moved];
            read := read + unread[..moved];
            unread := unread[moved..];
        }
        k := k + 1;
        used := k;
      }
      ok := |data| == len;
    }
  }

  /** How many bytes the calls could have moved. */
  function Offered(calls: seq<Call>): nat {
    if calls == [] then 0 else (if calls[0].Moves? then calls[0].n else 0) + Offered(calls[1..])
  }

  lemma {:induction false} OfferedSnoc(calls: seq<Call>, k: nat)
    requires k < |calls|
    ensures Offered(calls[..k + 1]) == Offered(calls[..k]) + if calls[k].Moves? then calls[k].n else 0
    decreases k
  {
    if k > 0 {
      OfferedSnoc(calls[1..], k - 1);
      assert calls[1..][..k] == calls[..k + 1][1..] && calls[1..][..k - 1] == calls[..k][1..];
    }
  }

  // --- messages in a stream

  function Concat(ms: seq<seq<Byte>>): seq<Byte> {
    if ms == [] then [] else ms[0] + Concat(ms[1..])
  }

  lemma {:induction false} ConcatAppend(a: seq<seq<Byte>>, b: seq<seq<Byte>>)
    ensures Concat(a + b) == Concat(a) + Concat(b)
    decreases |a|
  {
    if a == [] {
      assert a + b == b;
    } else {
      assert (a + b)[1..] == a[1..] + b;
      ConcatAppend(a[1..], b);
    }
  }

  lemma ConcatAt(ms: seq<seq<Byte>>, k: nat)
    requires k < |ms|
    ensures Concat(ms[..k + 1]) == Concat(ms[..k]) + ms[k] && Concat(ms[..k + 1]) + Concat(ms[k + 1..]) == Concat(ms)
  {
    assert ms[..k + 1] == ms[..k] + [ms[k]] && ms == ms[..k + 1] + ms[k + 1..];
    ConcatAppend(ms[..k], [ms[k]]);
    assert Concat([ms[k]]) == ms[k] + Concat([]);
    ConcatAppend(ms[..k + 1], ms[k + 1..]);
  }

  /** Two workers at the ends of a stream: the writer has moved `sent` bytes of its messages, the reader has completed
      the messages `got` and read `partial` of the next one. */
  datatype Link = Link(sent: nat, got: seq<seq<Byte>>, partial: seq<Byte>)

  datatype Move = WriterMoves(n: nat) | ReaderMoves(n: nat) | Nothing

  function Taken(s: Link): nat { |Concat(s.got)| + |s.partial| }

  /** ms: the messages written; lens: the lengths the reader asks for, as far as it has come; room: the bytes that the
      stream holds at most. */
  predicate CanMove(ms: seq<seq<Byte>>, lens: seq<nat>, room: nat, s: Link, m: Move) {
    match m
    case Nothing => true
    case WriterMoves(n) => n > 0 && s.sent + n <= |Concat(ms)| && s.sent + n <= Taken(s) + room
    case ReaderMoves(n) =>
      n > 0 && |s.got| < |lens| && |s.partial| + n <= lens[|s.got|] && Taken(s) + n <= s.sent <= |Concat(ms)|
  }

  /** A reader that has all the bytes of a message goes on to the next one. */
  function Moved(ms: seq<seq<Byte>>, lens: seq<nat>, room: nat, s: Link, m: Move): Link
    requires CanMove(ms, lens, room, s, m)
  {
    match m
    case Nothing => s
    case WriterMoves(n) => s.(sent := s.sent + n)
    case ReaderMoves(n) =>
      var partial := s.partial + Concat(ms)[Taken(s)..Taken(s) + n];
      if |partial| == lens[|s.got|] then Link(s.sent, s.got + [partial], []) else s.(partial := partial)
  }

  /** Messages are not empty, and the reader asks for the length of each. */
  predicate Agreed(ms: seq<seq<Byte>>, lens: seq<nat>) {
    && (forall i :: 0 <= i < |ms| ==> |ms[i]| > 0)
    && (forall i :: 0 <= i < |lens| && i < |ms| ==> lens[i] == |ms[i]|)
  }

  /** The reader's k-th message is the writer's k-th, and what it has of the next one is a prefix of it. */
  predicate Framed(ms: seq<seq<Byte>>, s: Link) {
    && Taken(s) <= s.sent <= |Concat(ms)|
    && |s.got| <= |ms| && s.got == ms[..|s.got|]
    && (|s.got| == |ms| ==> s.partial == [])
    && (|s.got| < |ms| ==> |s.partial| < |ms[|s.got|]| && s.partial == ms[|s.got|][..|s.partial|])
  }

  lemma MoveKeepsFraming(ms: seq<seq<Byte>>, lens: seq<nat>, room: nat, s: Link, m: Move)
    requires Agreed(ms, lens) && Framed(ms, s) && CanMove(ms, lens, room, s, m)
    ensures Framed(ms, Moved(ms, lens, room, s, m))
  {
    if m.ReaderMoves? {
      assert |s.got| == |ms| ==> s.got == ms;
      if |s.got| < |ms| { ReadMore(ms, lens, s, m.n); }
    }
  }

  // The bytes read belong to the message that the reader is in.
  lemma ReadMore(ms: seq<seq<Byte>>, lens: seq<nat>, s: Link, n: nat)
    requires Agreed(ms, lens) && Framed(ms, s) && |s.got| < |ms| && |s.got| < |lens|
    requires |s.partial| + n <= lens[|s.got|] && Taken(s) + n <= s.sent
    ensures var k, partial := |s.got|, s.partial + Concat(ms)[Taken(s)..Taken(s) + n];
            && partial == ms[k][..|partial|]
            && (|partial| == |ms[k]| ==> s.got + [partial] == ms[..k + 1] && |Concat(s.got + [partial])| == Taken(s) + n)
  {
    var k, at := |s.got|, Taken(s);
    ConcatAt(ms, k);
    hide Concat;
    var partial := s.partial + Concat(ms)[at..at + n];
    assert Concat(ms)[at..at + n] == ms[k][|s.partial|..|s.partial| + n];
    assert partial == ms[k][..|partial|];
    if |partial| == |ms[k]| {
      assert partial == ms[k];
      assert s.got + [partial] == ms[..k + 1];
    }
  }

  predicate Reaches(ms: seq<seq<Byte>>, lens: seq<nat>, room: nat, s: Link, moves: seq<Move>, t: Link)
    decreases |moves|
  {
    if moves == [] then s == t
    else CanMove(ms, lens, room, s, moves[0]) && Reaches(ms, lens, room, Moved(ms, lens, room, s, moves[0]), moves[1..], t)
  }

  /** However reads and writes are split, interrupted and interleaved, and however small the buffer: the k-th message
      decoded is the k-th encoded, as long as the reader asks for the length that the writer used. */
  lemma {:induction false} Framing(ms: seq<seq<Byte>>, lens: seq<nat>, room: nat, s: Link, moves: seq<Move>, t: Link)
    requires Agreed(ms, lens) && Framed(ms, s) && Reaches(ms, lens, room, s, moves, t)
    ensures Framed(ms, t)
    decreases |moves|
  {
    hide Agreed, Framed, CanMove, Moved;
    if moves != [] {
      MoveKeepsFraming(ms, lens, room, s, moves[0]);
      Framing(ms, lens, room, Moved(ms, lens, room, s, moves[0]), moves[1..], t);
    }
  }

  const FRESH_LINK := Link(0, [], [])

  lemma FreshLinkFramed(ms: seq<seq<Byte>>)
    requires forall i :: 0 <= i < |ms| ==> |ms[i]| > 0
    ensures Framed(ms, FRESH_LINK)
  {}

  /** And nothing gets stuck: with room for one byte, a reader that has asked for a written message and lacks part of it
      can read, or the writer can write. */
  lemma NothingLost(ms: seq<seq<Byte>>, lens: seq<nat>, room: nat, s: Link)
    requires Agreed(ms, lens) && Framed(ms, s) && |s.got| < |ms| && |s.got| < |lens| && room > 0
    ensures CanMove(ms, lens, room, s, ReaderMoves(1)) || CanMove(ms, lens, room, s, WriterMoves(1))
  {
    ConcatAt(ms, |s.got|);
  }
}
