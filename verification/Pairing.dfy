/**
  The two-phase start of asynchronous mode. Each end has h straight-first workers, numbered below h, and h reverse-first
  ones; the latter are started when all of the former have completed the connection exchange.
 */
module Pairing {
  import opened Options

  /** A worker has been started, its connection exists (connect has returned, or accept has), the exchange of the
      payloads has completed and the RUNNING flag is set, or the flag has been cleared again. */
  datatype Progress = Idle | Started | Linked | Running | Over

  /** A worker of either end: its progress and the worker its connection leads to. */
  datatype Worker = Worker(progress: Progress, peer: Option<nat>)

  /** Connectors that have connected and have not been accepted are Linked without a peer. */
  datatype State = State(connectors: seq<Worker>, listeners: seq<Worker>)

  predicate Shape(h: nat, s: State) { |s.connectors| == |s.listeners| == 2 * h }

  predicate Straight(h: nat, i: nat) { i < h }

  /** The final wait of the first phase has seen the RUNNING flag of all straight-first workers. */
  predicate StraightRunning(h: nat, ws: seq<Worker>)
    requires |ws| == 2 * h
  {
    forall i :: 0 <= i < h ==> ws[i].progress == Running
  }

  datatype Action =
    | StartConnector(i: nat) | StartListener(i: nat)
    | Connect(i: nat)           // connect returns: the connection waits in the listener's backlog
    | Accept(i: nat, c: nat)    // listener worker i accepts the connection of connector c
    | Answer(i: nat)            // listener worker i has read the peer's payload and answered
    | Confirm(i: nat)           // connector worker i has read the answer
    | StopConnector(i: nat) | StopListener(i: nat)

  predicate Can(h: nat, s: State, a: Action)
    requires Shape(h, s)
  {
    match a
    case StartConnector(i) => i < 2 * h && s.connectors[i].progress == Idle && (!Straight(h, i) ==> StraightRunning(h, s.connectors))
    case StartListener(i) => i < 2 * h && s.listeners[i].progress == Idle && (!Straight(h, i) ==> StraightRunning(h, s.listeners))
    case Connect(i) => i < 2 * h && s.connectors[i].progress == Started
    case Accept(i, c) =>
      i < 2 * h && c < 2 * h && s.listeners[i].progress == Started && s.connectors[c] == Worker(Linked, None)
    case Answer(i) => i < 2 * h && s.listeners[i].progress == Linked && s.listeners[i].peer.Some?
    case Confirm(i) =>
      i < 2 * h && s.connectors[i].progress == Linked && s.connectors[i].peer.Some? && s.connectors[i].peer.value < 2 * h
      && s.listeners[s.connectors[i].peer.value].progress in {Running, Over}
    case StopConnector(i) => i < 2 * h && s.connectors[i].progress == Running
    case StopListener(i) => i < 2 * h && s.listeners[i].progress == Running
  }

  function Set(ws: seq<Worker>, i: nat, p: Progress): (r: seq<Worker>)
    requires i < |ws|
    ensures |r| == |ws|
    ensures forall j :: 0 <= j < |r| ==> r[j] == if j == i then ws[i].(progress := p) else ws[j]
  {
    ws[i := ws[i].(progress := p)]
  }

  function Apply(h: nat, s: State, a: Action): (s': State)
    requires Shape(h, s) && Can(h, s, a)
    ensures Shape(h, s')
  {
    match a
    case StartConnector(i) => s.(connectors := Set(s.connectors, i, Started))
    case StartListener(i) => s.(listeners := Set(s.listeners, i, Started))
    case Connect(i) => s.(connectors := Set(s.connectors, i, Linked))
    case Accept(i, c) => State(s.connectors[c := Worker(Linked, Some(i))], s.listeners[i := Worker(Linked, Some(c))])
    case Answer(i) => s.(listeners := Set(s.listeners, i, Running))
    case Confirm(i) => s.(connectors := Set(s.connectors, i, Running))
    case StopConnector(i) => s.(connectors := Set(s.connectors, i, Over))
    case StopListener(i) => s.(listeners := Set(s.listeners, i, Over))
  }

  predicate Initial(h: nat, s: State) {
    Shape(h, s) && forall i :: 0 <= i < 2 * h ==> s.connectors[i] == s.listeners[i] == Worker(Idle, None)
  }

  predicate RunTo(h: nat, s: State, actions: seq<Action>, t: State)
    decreases |actions|
  {
    if actions == [] then s == t
    else Shape(h, s) && Can(h, s, actions[0]) && RunTo(h, Apply(h, s, actions[0]), actions[1..], t)
  }

  ghost predicate Reachable(h: nat, t: State) {
    exists s, actions :: Initial(h, s) && RunTo(h, s, actions, t)
  }

  // --- the invariant

  /** Connections lead to and fro between the same two workers. */
  predicate Mutual(a: seq<Worker>, b: seq<Worker>) {
    forall i :: 0 <= i < |a| && a[i].peer.Some? ==> a[i].peer.value < |b| && b[a[i].peer.value].peer == Some(i)
  }

  /** A worker that is running or has run has a peer, one that is idle or just started has none. */
  predicate Progressed(ws: seq<Worker>) {
    forall i :: 0 <= i < |ws| ==>
      && (ws[i].progress in {Running, Over} ==> ws[i].peer.Some?)
      && (ws[i].progress in {Idle, Started} ==> ws[i].peer == None)
  }

  /** A reverse-first worker is not started before every straight-first worker of its end has got a peer. */
  predicate Phased(h: nat, ws: seq<Worker>)
    requires |ws| == 2 * h
  {
    (exists i :: h <= i < 2 * h && ws[i].progress != Idle) ==> forall i :: 0 <= i < h ==> ws[i].peer.Some?
  }

  /** No straight-first worker is connected to a reverse-first one. */
  predicate SameKind(h: nat, ws: seq<Worker>) {
    forall i :: 0 <= i < |ws| && ws[i].peer.Some? ==> (Straight(h, i) <==> Straight(h, ws[i].peer.value))
  }

  predicate Inv(h: nat, s: State) {
    && Shape(h, s)
    && Mutual(s.connectors, s.listeners) && Mutual(s.listeners, s.connectors)
    && Progressed(s.connectors) && Progressed(s.listeners)
    && Phased(h, s.connectors) && Phased(h, s.listeners)
    && SameKind(h, s.connectors) && SameKind(h, s.listeners)
  }

  function Image(f: seq<nat>): set<nat> { set x | x in f }

  function Range(low: nat, h: nat): (r: set<nat>)
    ensures |r| == h && forall x: nat :: x in r <==> low <= x < low + h
  {
    if h == 0 then {} else Range(low, h - 1) + {low + h - 1}
  }

  /** Pigeonhole: h different numbers from a range of h are all the numbers of the range. */
  lemma Pigeonhole(f: seq<nat>, low: nat, h: nat, c: nat)
    requires |f| == h && low <= c < low + h && forall x :: x in f ==> low <= x < low + h
    requires forall i, j :: 0 <= i < j < h ==> f[i] != f[j]
    ensures c in f
  {
    ImageSize(f);
    if c !in f {
      assert |Range(low, h) - {c}| == h - 1;
      SubsetSize(Image(f), Range(low, h) - {c});
    }
  }

  lemma {:induction false} ImageSize(f: seq<nat>)
    requires forall i, j :: 0 <= i < j < |f| ==> f[i] != f[j]
    ensures |Image(f)| == |f|
    decreases |f|
  {
    if f != [] {
      var k := |f| - 1;
      ImageSize(f[..k]);
      assert f == f[..k] + [f[k]];
      assert Image(f) == Image(f[..k]) + {f[k]};
      assert f[k] !in Image(f[..k]);
    }
  }

  lemma {:induction false} SubsetSize(a: set<nat>, b: set<nat>)
    requires a <= b
    ensures |a| <= |b|
    decreases |a|
  {
    if x :| x in a { SubsetSize(a - {x}, b - {x}); }
  }

  function Peers(ws: seq<Worker>): (r: seq<nat>)
    requires forall i :: 0 <= i < |ws| ==> ws[i].peer.Some?
    ensures |r| == |ws| && forall i :: 0 <= i < |r| ==> r[i] == ws[i].peer.value
  {
    seq(|ws|, i requires 0 <= i < |ws| => ws[i].peer.value)
  }

  /** When all workers of a kind at one end have peers of their kind, every worker of that kind at the other end is
      taken. The kind is given by its first number, 0 or h. */
  lemma AllTaken(h: nat, a: seq<Worker>, b: seq<Worker>, first: nat, c: nat)
    requires |a| == |b| == 2 * h && Mutual(a, b) && SameKind(h, a) && (first == 0 || first == h) && first <= c < first + h
    requires forall i :: first <= i < first + h ==> a[i].peer.Some?
    ensures exists i :: first <= i < first + h && a[i].peer == Some(c)
    ensures b[c].peer.Some?
  {
    var kind := a[first..first + h];
    forall i | 0 <= i < h ensures kind[i] == a[first + i] && kind[i].peer.Some? {}
    var f := Peers(kind);
    assert forall i :: 0 <= i < h ==> a[first + i].peer == Some(f[i]);
    PeersDiffer(h, a, b, first, f);
    hide Mutual, SameKind, Peers;
    Pigeonhole(f, first, h, c);
    var i :| 0 <= i < h && f[i] == c;
    SameSide(h, a, b, first + i);
  }

  lemma PeersDiffer(h: nat, a: seq<Worker>, b: seq<Worker>, first: nat, f: seq<nat>)
    requires |a| == |b| == 2 * h && Mutual(a, b) && SameKind(h, a) && (first == 0 || first == h) && |f| == h
    requires forall i :: 0 <= i < h ==> a[first + i].peer == Some(f[i])
    ensures forall x :: x in f ==> first <= x < first + h
    ensures forall i, j :: 0 <= i < j < h ==> f[i] != f[j]
  {
    hide Mutual, SameKind;
    forall i | 0 <= i < h ensures first <= f[i] < first + h && b[f[i]].peer == Some(first + i) {
      assert a[first + i].peer == Some(f[i]);
      SameSide(h, a, b, first + i);
    }
  }

  lemma SameSide(h: nat, a: seq<Worker>, b: seq<Worker>, i: nat)
    requires |a| == |b| == 2 * h && Mutual(a, b) && SameKind(h, a) && i < 2 * h && a[i].peer.Some?
    ensures var p := a[i].peer.value; p < 2 * h && b[p].peer == Some(i) && (i < h <==> p < h)
  {
    assert Straight(h, i) <==> Straight(h, a[i].peer.value);
  }

  lemma AcceptSameKind(h: nat, s: State, i: nat, c: nat)
    requires Inv(h, s) && Can(h, s, Accept(i, c))
    ensures Straight(h, i) <==> Straight(h, c)
  {
    if !Straight(h, i) && Straight(h, c) {
      AllTaken(h, s.listeners, s.connectors, 0, c);
    }
    if Straight(h, i) && !Straight(h, c) {
      AllTaken(h, s.connectors, s.listeners, 0, i);
    }
  }

  /** What one end must satisfy, its peers at the other end included. */
  predicate End(h: nat, a: seq<Worker>, b: seq<Worker>) {
    |a| == |b| == 2 * h && Mutual(a, b) && Progressed(a) && Phased(h, a) && SameKind(h, a)
  }

  lemma SetKeeps(h: nat, a: seq<Worker>, b: seq<Worker>, i: nat, p: Progress)
    requires End(h, a, b) && End(h, b, a) && i < 2 * h
    requires p in {Running, Over} ==> a[i].peer.Some?
    requires p in {Idle, Started} ==> a[i].peer == None
    requires p != Idle && !Straight(h, i) && a[i].progress == Idle ==> StraightRunning(h, a)
    ensures End(h, Set(a, i, p), b) && End(h, b, Set(a, i, p))
  {
    var a' := Set(a, i, p);
    hide Set, Phased, Mutual, SameKind, Progressed;
    ProgressedAfter(a, i, p);
    PhasedAfter(h, a, i, p);
    SamePeers(h, a, a', b);
  }

  lemma ProgressedAfter(a: seq<Worker>, i: nat, p: Progress)
    requires Progressed(a) && i < |a|
    requires p in {Running, Over} ==> a[i].peer.Some?
    requires p in {Idle, Started} ==> a[i].peer == None
    ensures Progressed(Set(a, i, p))
  {
    hide Set;
  }

  lemma SamePeers(h: nat, a: seq<Worker>, a': seq<Worker>, b: seq<Worker>)
    requires |a| == |a'| && forall j :: 0 <= j < |a| ==> a'[j].peer == a[j].peer
    requires Mutual(a, b) && Mutual(b, a) && SameKind(h, a)
    ensures Mutual(a', b) && Mutual(b, a') && SameKind(h, a')
  {}

  lemma PhasedAfter(h: nat, a: seq<Worker>, i: nat, p: Progress)
    requires |a| == 2 * h && Progressed(a) && Phased(h, a) && i < 2 * h
    requires p != Idle && !Straight(h, i) && a[i].progress == Idle ==> StraightRunning(h, a)
    ensures Phased(h, Set(a, i, p))
  {
    var a' := Set(a, i, p);
    hide Set;
    if j :| h <= j < 2 * h && a'[j].progress != Idle {
      assert forall k :: 0 <= k < h ==> a[k].peer.Some? by {
        if a[j].progress == Idle { assert j == i; }
      }
    }
  }

  lemma AcceptKeeps(h: nat, s: State, i: nat, c: nat)
    requires Inv(h, s) && Can(h, s, Accept(i, c))
    ensures Inv(h, Apply(h, s, Accept(i, c)))
  {
    AcceptSameKind(h, s, i, c);
    var s' := Apply(h, s, Accept(i, c));
    assert Mutual(s'.connectors, s'.listeners) && Mutual(s'.listeners, s'.connectors) by { hide SameKind, Phased, Progressed; }
    assert Phased(h, s'.connectors) && Phased(h, s'.listeners) by { hide SameKind, Mutual; }
    hide Mutual, Phased;
  }

  /** Every action keeps the invariant. */
  lemma ActionKeeps(h: nat, s: State, a: Action)
    requires Inv(h, s) && Can(h, s, a)
    ensures Inv(h, Apply(h, s, a))
  {
    assert Progressed(s.connectors) && Progressed(s.listeners);
    hide Mutual, Phased, SameKind, Set;
    match a
    case StartConnector(i) => SetKeeps(h, s.connectors, s.listeners, i, Started);
    case StartListener(i) => SetKeeps(h, s.listeners, s.connectors, i, Started);
    case Connect(i) => SetKeeps(h, s.connectors, s.listeners, i, Linked);
    case Accept(i, c) => AcceptKeeps(h, s, i, c);
    case Answer(i) => SetKeeps(h, s.listeners, s.connectors, i, Running);
    case Confirm(i) => SetKeeps(h, s.connectors, s.listeners, i, Running);
    case StopConnector(i) => SetKeeps(h, s.connectors, s.listeners, i, Over);
    case StopListener(i) => SetKeeps(h, s.listeners, s.connectors, i, Over);
  }

  lemma {:induction false} RunKeeps(h: nat, s: State, actions: seq<Action>, t: State)
    requires Inv(h, s) && RunTo(h, s, actions, t)
    ensures Inv(h, t)
    decreases |actions|
  {
    hide Inv, Apply, Can;
    if actions != [] {
      assert Shape(h, s) by { assert Inv(h, s); }
      ActionKeeps(h, s, actions[0]);
      RunKeeps(h, Apply(h, s, actions[0]), actions[1..], t);
    }
  }

  /** In every interleaving of both ends, a connection joins two straight-first or two reverse-first workers, and no
      worker has two connections. */
  lemma PairsMatch(h: nat, t: State, i: nat)
    requires Reachable(h, t) && Shape(h, t) && i < 2 * h && t.connectors[i].peer.Some?
    ensures var l := t.connectors[i].peer.value;
            && l < 2 * h && t.listeners[l].peer == Some(i) && (Straight(h, i) <==> Straight(h, l))
            && forall j :: 0 <= j < 2 * h && t.connectors[j].peer == Some(l) ==> j == i
  {
    var s, actions :| Initial(h, s) && RunTo(h, s, actions, t);
    RunKeeps(h, s, actions, t);
  }

  /** When all connectors of a kind have run, their connections pair all listener workers of that kind. */
  lemma AllPaired(h: nat, t: State, l: nat)
    requires Reachable(h, t) && Shape(h, t) && l < 2 * h
    requires forall i :: 0 <= i < 2 * h && (Straight(h, i) <==> Straight(h, l)) ==> t.connectors[i].progress in {Running, Over}
    ensures exists i :: 0 <= i < 2 * h && (Straight(h, i) <==> Straight(h, l)) && t.connectors[i].peer == Some(l)
  {
    var s, actions :| Initial(h, s) && RunTo(h, s, actions, t);
    RunKeeps(h, s, actions, t);
    var first := if l < h then 0 else h;
    assert forall i :: first <= i < first + h ==> (Straight(h, i) <==> Straight(h, l));
    AllTaken(h, t.connectors, t.listeners, first, l);
  }

  // --- nobody waits for ever

  /** A listener worker has its connection when accept returns. */
  predicate Accepted(ws: seq<Worker>) { forall i :: 0 <= i < |ws| && ws[i].progress == Linked ==> ws[i].peer.Some? }

  lemma {:induction false} RunAccepts(h: nat, s: State, actions: seq<Action>, t: State)
    requires Shape(h, s) && Accepted(s.listeners) && RunTo(h, s, actions, t)
    ensures Accepted(t.listeners)
    decreases |actions|
  {
    hide Set;
    if actions != [] { RunAccepts(h, Apply(h, s, actions[0]), actions[1..], t); }
  }

  predicate IsStop(a: Action) { a.StopConnector? || a.StopListener? }

  predicate AllRunning(ws: seq<Worker>, first: nat, h: nat)
    requires first + h <= |ws|
  {
    forall i :: first <= i < first + h ==> ws[i].progress == Running
  }

  predicate NoneOver(ws: seq<Worker>) { forall i :: 0 <= i < |ws| ==> ws[i].progress != Over }

  // A kind whose workers may be started, and are not all running: one of them can go on.
  lemma KindGoesOn(h: nat, s: State, first: nat) returns (a: Action)
    requires Inv(h, s) && Accepted(s.listeners) && NoneOver(s.connectors) && NoneOver(s.listeners) && (first == 0 || first == h)
    requires first == h ==> StraightRunning(h, s.connectors) && StraightRunning(h, s.listeners)
    requires !AllRunning(s.connectors, first, h) || !AllRunning(s.listeners, first, h)
    ensures Can(h, s, a) && !IsStop(a)
  {
    hide Mutual, SameKind, Phased;
    var c, l := s.connectors, s.listeners;
    if i :| first <= i < first + h && c[i].progress == Idle { a := StartConnector(i); }
    else if i :| first <= i < first + h && l[i].progress == Idle { a := StartListener(i); }
    else if i :| first <= i < first + h && c[i].progress == Started { a := Connect(i); }
    else if i :| first <= i < first + h && l[i].progress == Linked { a := Answer(i); }
    else if i :| first <= i < first + h && c[i].progress == Linked && c[i].peer.Some? {
      SameSide(h, c, l, i);
      var p := c[i].peer.value;
      a := if l[p].progress == Linked then Answer(p) else Confirm(i);
    } else {
      a := Meeting(h, s, first);
    }
  }

  // All connectors of the kind wait to be accepted or run, all listeners wait to accept or run: two of them meet.
  lemma Meeting(h: nat, s: State, first: nat) returns (a: Action)
    requires Inv(h, s) && (first == 0 || first == h)
    requires forall i :: first <= i < first + h ==> s.connectors[i] == Worker(Linked, None) || s.connectors[i].progress == Running
    requires forall i :: first <= i < first + h ==> s.listeners[i].progress in {Started, Running}
    requires !AllRunning(s.connectors, first, h) || !AllRunning(s.listeners, first, h)
    ensures Can(h, s, a) && !IsStop(a)
  {
    hide Mutual, SameKind, Phased;
    var c, l := s.connectors, s.listeners;
    if forall i :: first <= i < first + h ==> c[i].progress == Running {
      var x :| first <= x < first + h && l[x].progress == Started;
      AllTaken(h, c, l, first, x);
      assert false;
    } else if forall i :: first <= i < first + h ==> l[i].progress == Running {
      var x :| first <= x < first + h && c[x] == Worker(Linked, None);
      AllTaken(h, l, c, first, x);
      assert false;
    } else {
      var x :| first <= x < first + h && c[x].progress != Running;
      var y :| first <= y < first + h && l[y].progress != Running;
      a := Accept(y, x);
    }
  }

  /** The start cannot get stuck: as long as no worker has finished already, in every reachable state in which not all workers
      of both ends are running, some worker can be started, connected, accepted or answered. */
  lemma StartGoesOn(h: nat, t: State) returns (a: Action)
    requires Reachable(h, t) && Shape(h, t) && NoneOver(t.connectors) && NoneOver(t.listeners)
    requires !AllRunning(t.connectors, 0, 2 * h) || !AllRunning(t.listeners, 0, 2 * h)
    ensures Can(h, t, a) && !IsStop(a)
  {
    var s, actions :| Initial(h, s) && RunTo(h, s, actions, t);
    RunKeeps(h, s, actions, t);
    RunAccepts(h, s, actions, t);
    hide Inv, Can, RunTo, Reachable, Initial;
    a := KindGoesOn(h, t, if AllRunning(t.connectors, 0, h) && AllRunning(t.listeners, 0, h) then h else 0);
  }
}
