/**
  The main thread of one end, its two start loops, its waits and its join loop, interleaved with the workers it starts:
  each worker performs the events of its program in order, at any time.
 */
module Lifecycle {
  import opened WorkerLife
  import opened TalkModel
  import opened Sizing

  /** A live worker: what the registry shows of it, and the events it has not performed yet. */
  datatype Thread = Thread(entry: Entry, todo: seq<Event>)

  datatype Main =
    | StartFirst | WaitReady | WaitRunning | StartSecond | WaitSecondReady | WaitSecondRunning | WaitJoinable
    | Joining(k: nat) | Done

  /** The registry's workers, newest first; how many have been started; where the main thread is. */
  datatype Runtime = Runtime(list: seq<Thread>, started: nat, main: Main)

  /** One end: its workers' thread ids, in the order in which the main thread starts them. */
  datatype Setup = Setup(cfg: Config, e: nat, ids: seq<nat>)

  predicate ValidSetup(u: Setup) { u.e < 2 && u.cfg.workers > 0 && |u.ids| == u.cfg.workers && Different(u.ids) }

  /** The straight-first workers, started in the first group. */
  function First(cfg: Config): nat {
    if cfg.asynchronous then cfg.workers / 2 else if cfg.reverseFirst then 0 else cfg.workers
  }

  /** The number of workers that the waits after the first loop ask for. */
  function FirstWait(cfg: Config): nat { if cfg.asynchronous then cfg.workers / 2 else cfg.workers }

  function Entries(list: seq<Thread>): (r: seq<Entry>)
    ensures |r| == |list| && forall j :: 0 <= j < |r| ==> r[j] == list[j].entry
  {
    if list == [] then [] else [list[0].entry] + Entries(list[1..])
  }

  predicate Fresh(s: Runtime) { s == Runtime([], 0, StartFirst) }

  // --- steps

  function Started(u: Setup, s: Runtime): Runtime
    requires ValidSetup(u) && s.started < |u.ids|
  {
    var w := Thread(Entry(u.ids[s.started], FORKED), ProgramOf(u.cfg, u.e, s.started));
    s.(list := [w] + s.list, started := s.started + 1)
  }

  /** A wait of the main thread goes on when enough workers have the flag. */
  predicate Seen(s: Runtime, flag: Flag, count: nat) { Having(Entries(s.list), flag) >= count }

  function Without(list: seq<Thread>, id: nat): (r: seq<Thread>)
    ensures |r| <= |list|
  {
    if list == [] then [] else if list[0].entry.id == id then list[1..] else [list[0]] + Without(list[1..], id)
  }

  predicate MainCanStep(u: Setup, s: Runtime) {
    match s.main
    case WaitReady => Seen(s, Ready, FirstWait(u.cfg))
    case WaitRunning => Seen(s, Running, FirstWait(u.cfg))
    case WaitSecondReady => Seen(s, Ready, u.cfg.workers)
    case WaitSecondRunning => Seen(s, Running, u.cfg.workers)
    case WaitJoinable => Seen(s, Joinable, u.cfg.workers)
    case Done => false
    case _ => true
  }

  function MainStep(u: Setup, s: Runtime): Runtime
    requires ValidSetup(u) && MainCanStep(u, s)
  {
    match s.main
    case StartFirst =>
      if s.started < First(u.cfg) && s.started < |u.ids| then Started(u, s)
      else s.(main := if s.started > 0 then WaitReady else StartSecond)
    case WaitReady => s.(main := WaitRunning)
    case WaitRunning => s.(main := StartSecond)
    case StartSecond =>
      if s.started < |u.ids| then Started(u, s)
      else s.(main := if s.started > First(u.cfg) then WaitSecondReady else WaitJoinable)
    case WaitSecondReady => s.(main := WaitSecondRunning)
    case WaitSecondRunning => s.(main := WaitJoinable)
    case WaitJoinable => s.(main := Joining(0))
    case Joining(k) => if k < |u.ids| then s.(list := Without(s.list, u.ids[k]), main := Joining(k + 1)) else s.(main := Done)
    case Done => s
  }

  predicate WorkerCanStep(s: Runtime, j: nat) { j < |s.list| && s.list[j].todo != [] }

  /** The worker performs its next event. */
  function Performed(w: Thread): Thread
    requires w.todo != []
  {
    Thread(w.entry.(flags := Effect(w.entry.flags, w.todo[0])), w.todo[1..])
  }

  function WorkerStep(s: Runtime, j: nat): Runtime
    requires WorkerCanStep(s, j)
  {
    s.(list := s.list[j := Performed(s.list[j])])
  }

  datatype Move = ByMain | ByWorker(j: nat)

  predicate CanMove(u: Setup, s: Runtime, m: Move) { if m.ByMain? then MainCanStep(u, s) else WorkerCanStep(s, m.j) }

  function After(u: Setup, s: Runtime, m: Move): Runtime
    requires ValidSetup(u) && CanMove(u, s, m)
  {
    if m.ByMain? then MainStep(u, s) else WorkerStep(s, m.j)
  }

  predicate RunTo(u: Setup, s: Runtime, moves: seq<Move>, t: Runtime)
    requires ValidSetup(u)
    decreases |moves|
  {
    if moves == [] then s == t else CanMove(u, s, moves[0]) && RunTo(u, After(u, s, moves[0]), moves[1..], t)
  }

  ghost predicate Reachable(u: Setup, t: Runtime)
    requires ValidSetup(u)
  {
    exists s, moves :: Fresh(s) && RunTo(u, s, moves, t)
  }

  // --- the life of one worker

  /** Talk phases, then destruction and exit. */
  predicate Talking(todo: seq<Event>) {
    |todo| >= 2 && (todo == [Destroy, Exit] || (todo[0].Talk? && Talking(todo[1..])))
  }

  /** The flags are those of the point that the worker has reached in its program. */
  predicate OnProgram(w: Thread) {
    var flags, todo := w.entry.flags, w.todo;
    || (flags == FORKED && todo != [] && todo[0] == Init && Talking(todo[1..]))
    || (flags == FORKED + {Running} && Talking(todo))
    || (flags == FORKED && todo == [Exit])
    || (flags == FORKED + {Joinable} && todo == [])
  }

  lemma ProgramTalks(cfg: Config, e: nat, i: nat)
    ensures var p := ProgramOf(cfg, e, i); p != [] && p[0] == Init && Talking(p[1..])
  {
    var path := PathOf(cfg, e, i);
    assert forall k :: 0 <= k < |path| ==> path[k].Talk?;
    assert ProgramOf(cfg, e, i)[1..] == path + [Destroy, Exit];
    PathTalks(path);
  }

  lemma {:induction false} PathTalks(path: seq<Event>)
    requires forall k :: 0 <= k < |path| ==> path[k].Talk?
    ensures Talking(path + [Destroy, Exit])
    decreases |path|
  {
    if path != [] {
      PathTalks(path[1..]);
      assert (path + [Destroy, Exit])[1..] == path[1..] + [Destroy, Exit];
    } else {
      assert path + [Destroy, Exit] == [Destroy, Exit];
    }
  }

  /** Every event takes the worker to the next point of its program. */
  lemma PerformKeeps(w: Thread)
    requires OnProgram(w) && w.todo != []
    ensures OnProgram(Performed(w)) && Performed(w).entry.id == w.entry.id
    ensures w.todo[0] != Init ==> Performed(w).todo == [] || Performed(w).todo[0] != Init
    ensures Joinable !in w.entry.flags
  {}

  /** A joinable worker is not running and has nothing left to do. */
  lemma JoinableIsDone(w: Thread)
    requires OnProgram(w)
    ensures Joinable in w.entry.flags <==> w.todo == []
    ensures Joinable in w.entry.flags ==> Running !in w.entry.flags
  {}

  // --- the invariant

  function Joined(m: Main, total: nat): nat {
    match m case Joining(k) => k case Done => total case _ => 0
  }

  /** The workers, newest first, are those that have been started and not been joined. */
  predicate Numbered(u: Setup, s: Runtime) {
    && Joined(s.main, |u.ids|) <= s.started <= |u.ids| && |s.list| == s.started - Joined(s.main, |u.ids|)
    && forall j :: 0 <= j < |s.list| ==> s.list[j].entry.id == u.ids[s.started - 1 - j]
  }

  predicate SecondStarted(m: Main) { !m.StartFirst? && !m.WaitReady? && !m.WaitRunning? }

  predicate Inv(u: Setup, s: Runtime) {
    && ValidSetup(u)
    && Numbered(u, s)
    && (forall j :: 0 <= j < |s.list| ==> OnProgram(s.list[j]))
    && (if SecondStarted(s.main) then s.started >= First(u.cfg) else s.started <= First(u.cfg))
    && (s.main.WaitReady? || s.main.WaitRunning? ==> s.started == First(u.cfg) > 0)
    && (SecondStarted(s.main) ==> FirstInitialised(u, s))
    && (SecondStarted(s.main) && !s.main.StartSecond? ==> s.started == |u.ids|)
    && (s.main.Joining? || s.main.Done? ==> forall j :: 0 <= j < |s.list| ==> s.list[j].todo == [])
  }

  /** Every straight-first worker has completed its connection exchange. */
  predicate FirstInitialised(u: Setup, s: Runtime) {
    forall j :: 0 <= j < |s.list| && s.started - 1 - j < First(u.cfg) ==> s.list[j].todo == [] || s.list[j].todo[0] != Init
  }

  lemma WorkerKeeps(u: Setup, s: Runtime, j: nat)
    requires Inv(u, s) && WorkerCanStep(s, j)
    ensures Inv(u, WorkerStep(s, j))
  {
    PerformKeeps(s.list[j]);
    hide OnProgram, Performed, First;
  }

  lemma StartKeeps(u: Setup, s: Runtime)
    requires Inv(u, s) && s.started < |u.ids| && (s.main.StartFirst? || s.main.StartSecond?)
    requires s.main.StartFirst? ==> s.started < First(u.cfg)
    ensures Inv(u, Started(u, s))
  {
    var s' := Started(u, s);
    ProgramTalks(u.cfg, u.e, s.started);
    assert OnProgram(s'.list[0]);
    forall j | 0 < j < |s'.list| ensures s'.list[j] == s.list[j - 1] {}
    hide ProgramOf, OnProgram, First;
  }

  /** When the wait for RUNNING after the first loop is over, every worker of the first group has the flag. */
  lemma FirstWaitSeesAll(u: Setup, s: Runtime)
    requires Inv(u, s) && s.main == WaitRunning && MainCanStep(u, s)
    ensures |s.list| == First(u.cfg) && forall j :: 0 <= j < |s.list| ==> Running in s.list[j].entry.flags
  {
    HavingAll(Entries(s.list), Running);
    hide OnProgram;
    assert forall j :: 0 <= j < |s.list| ==> Entries(s.list)[j] == s.list[j].entry;
  }

  /** When the final wait is over, every worker has done its last event. */
  lemma FinalWaitSeesAll(u: Setup, s: Runtime)
    requires Inv(u, s) && s.main == WaitJoinable && MainCanStep(u, s)
    ensures |s.list| == |u.ids| && forall j :: 0 <= j < |s.list| ==> s.list[j].todo == []
  {
    HavingAll(Entries(s.list), Joinable);
    forall j | 0 <= j < |s.list| ensures s.list[j].todo == [] {
      assert Entries(s.list)[j] == s.list[j].entry;
      JoinableIsDone(s.list[j]);
    }
  }

  lemma {:induction false} WithoutLast(list: seq<Thread>, id: nat)
    requires |list| > 0 && list[|list| - 1].entry.id == id
    requires forall j :: 0 <= j < |list| - 1 ==> list[j].entry.id != id
    ensures Without(list, id) == list[..|list| - 1]
    decreases |list|
  {
    if |list| > 1 {
      WithoutLast(list[1..], id);
      assert list[0] == list[..1][0] && list[..|list| - 1] == [list[0]] + list[1..][..|list| - 2];
    }
  }

  lemma JoinKeeps(u: Setup, s: Runtime)
    requires Inv(u, s) && s.main.Joining? && s.main.k < |u.ids|
    ensures Inv(u, MainStep(u, s))
  {
    hide OnProgram, First;
    var id := u.ids[s.main.k];
    assert s.list[|s.list| - 1].entry.id == id;
    WithoutLast(s.list, id);
  }

  /** Every move keeps the invariant. */
  lemma MoveKeeps(u: Setup, s: Runtime, m: Move)
    requires Inv(u, s) && CanMove(u, s, m)
    ensures Inv(u, After(u, s, m))
  {
    if m.ByWorker? {
      WorkerKeeps(u, s, m.j);
    } else if (s.main.StartFirst? && s.started < First(u.cfg)) || (s.main.StartSecond? && s.started < |u.ids|) {
      StartKeeps(u, s);
      assert First(u.cfg) <= |u.ids|;
    } else if s.main.Joining? && s.main.k < |u.ids| {
      JoinKeeps(u, s);
    } else {
      MainMoves(u, s);
    }
  }

  lemma MainMoves(u: Setup, s: Runtime)
    requires Inv(u, s) && MainCanStep(u, s) && MainStep(u, s).list == s.list && MainStep(u, s).started == s.started
    requires s.main.Joining? ==> s.main.k >= |u.ids|
    ensures Inv(u, MainStep(u, s))
  {
    if s.main.WaitRunning? {
      FirstWaitSeesAll(u, s);
      forall j | 0 <= j < |s.list| ensures s.list[j].todo == [] || s.list[j].todo[0] != Init {
        assert OnProgram(s.list[j]) && Running in s.list[j].entry.flags;
      }
    }
    if s.main.WaitJoinable? { FinalWaitSeesAll(u, s); }
    hide OnProgram, Seen;
  }

  lemma {:induction false} RunKeeps(u: Setup, s: Runtime, moves: seq<Move>, t: Runtime)
    requires Inv(u, s) && RunTo(u, s, moves, t)
    ensures Inv(u, t)
    decreases |moves|
  {
    assert ValidSetup(u);
    hide Inv, CanMove, After;
    if moves != [] {
      MoveKeeps(u, s, moves[0]);
      RunKeeps(u, After(u, s, moves[0]), moves[1..], t);
    }
  }

  lemma ReachableInv(u: Setup, t: Runtime)
    requires ValidSetup(u) && Reachable(u, t)
    ensures Inv(u, t)
  {
    var s, moves :| Fresh(s) && RunTo(u, s, moves, t);
    RunKeeps(u, s, moves, t);
  }

  // --- what every run guarantees

  /** The second group is started only after every worker of the first has completed its connection exchange: at the
      moment the main thread goes on to it, all of them are running and no other worker exists. */
  lemma SecondGroupWaits(u: Setup, s: Runtime)
    requires ValidSetup(u) && Reachable(u, s) && s.started > First(u.cfg)
    ensures forall j :: 0 <= j < |s.list| && s.started - 1 - j < First(u.cfg) ==> s.list[j].todo == [] || s.list[j].todo[0] != Init
  {
    ReachableInv(u, s);
  }

  /** In every reachable state a joinable worker is not running and has no event left. */
  lemma JoinableIsStopped(u: Setup, s: Runtime, j: nat)
    requires ValidSetup(u) && Reachable(u, s) && j < |s.list| && Joinable in s.list[j].entry.flags
    ensures Stopped(s.list[j].entry) && s.list[j].todo == []
  {
    ReachableInv(u, s);
    JoinableIsDone(s.list[j]);
  }

  predicate Holds(s: Runtime, w: Thread) { exists j :: 0 <= j < |s.list| && s.list[j] == w }

  lemma StoppedStays(u: Setup, s: Runtime, m: Move, w: Thread)
    requires Inv(u, s) && CanMove(u, s, m) && Holds(s, w) && w.todo == []
    ensures Holds(After(u, s, m), w) || (m.ByMain? && s.main.Joining?)
  {
    var j :| 0 <= j < |s.list| && s.list[j] == w;
    if m.ByWorker? {
      assert After(u, s, m).list[j] == w;
    } else if !s.main.Joining? {
      var s' := After(u, s, m);
      assert s'.list[if |s'.list| == |s.list| then j else j + 1] == w;
    }
  }

  lemma JoinedOrHeld(u: Setup, s: Runtime, s': Runtime)
    requires Inv(u, s) && s.main.Joining? && MainCanStep(u, s) && s' == MainStep(u, s)
    ensures forall w :: Holds(s, w) ==> Holds(s', w) || !Listed(Entries(s'.list), w.entry.id)
  {
    if s.main.k < |u.ids| {
      var n := |s.list|;
      assert s.list[n - 1].entry.id == u.ids[s.main.k];
      WithoutLast(s.list, u.ids[s.main.k]);
      forall w | Holds(s, w) ensures Holds(s', w) || !Listed(Entries(s'.list), w.entry.id) {
        var j :| 0 <= j < n && s.list[j] == w;
        if j < n - 1 { assert s'.list[j] == w; }
      }
    }
  }

  // In every continuation a worker that is done stays as it is until it has been joined.
  lemma {:induction false} DoneForEver(u: Setup, s: Runtime, moves: seq<Move>, t: Runtime, w: Thread)
    requires ValidSetup(u) && Inv(u, s) && RunTo(u, s, moves, t) && w.todo == []
    requires Holds(s, w) || (!Listed(Entries(s.list), w.entry.id) && w.entry.id in u.ids[..s.started])
    ensures Holds(t, w) || !Listed(Entries(t.list), w.entry.id)
    decreases |moves|
  {
    if moves != [] {
      var m, s' := moves[0], After(u, s, moves[0]);
      MoveKeeps(u, s, m);
      GoneOrSame(u, s, m, w);
      hide Inv, CanMove, After, Holds, Listed;
      DoneForEver(u, s', moves[1..], t, w);
    }
  }

  lemma GoneOrSame(u: Setup, s: Runtime, m: Move, w: Thread)
    requires Inv(u, s) && CanMove(u, s, m) && w.todo == []
    requires Holds(s, w) || (!Listed(Entries(s.list), w.entry.id) && w.entry.id in u.ids[..s.started])
    ensures var s' := After(u, s, m);
            Holds(s', w) || (!Listed(Entries(s'.list), w.entry.id) && w.entry.id in u.ids[..s'.started])
  {
    var s' := After(u, s, m);
    if Holds(s, w) {
      StoppedStays(u, s, m, w);
      if m.ByMain? && s.main.Joining? { JoinedOrHeld(u, s, s'); }
      HeldIsStarted(u, s, w);
    } else {
      StaysGone(u, s, m, w.entry.id);
    }
  }

  lemma HeldIsStarted(u: Setup, s: Runtime, w: Thread)
    requires Inv(u, s) && Holds(s, w)
    ensures w.entry.id in u.ids[..s.started]
  {
    var j :| 0 <= j < |s.list| && s.list[j] == w;
    assert u.ids[..s.started][s.started - 1 - j] == w.entry.id;
  }

  // The ids listed are those of the workers started and not joined.
  lemma ListedExactly(u: Setup, s: Runtime, x: nat)
    requires Inv(u, s) && x < s.started
    ensures Listed(Entries(s.list), u.ids[x]) <==> x >= Joined(s.main, |u.ids|)
  {
    if x >= Joined(s.main, |u.ids|) { assert Entries(s.list)[s.started - 1 - x].id == u.ids[x]; }
  }

  lemma StaysGone(u: Setup, s: Runtime, m: Move, id: nat)
    requires Inv(u, s) && CanMove(u, s, m) && !Listed(Entries(s.list), id) && id in u.ids[..s.started]
    ensures !Listed(Entries(After(u, s, m).list), id) && id in u.ids[..After(u, s, m).started]
  {
    var s' := After(u, s, m);
    assert s.started <= s'.started <= |u.ids| && Joined(s.main, |u.ids|) <= Joined(s'.main, |u.ids|) by { MoveKeeps(u, s, m); }
    MoveKeeps(u, s, m);
    var x :| 0 <= x < s.started && u.ids[..s.started][x] == id;
    hide Inv, CanMove, After, Listed;
    assert u.ids[..s'.started][x] == id;
    ListedExactly(u, s, x);
    ListedExactly(u, s', x);
  }

  /** A joinable worker is never running again: in every continuation of every run its entry, while it is in the
      registry, is the same. */
  lemma NeverRunsAgain(u: Setup, s: Runtime, moves: seq<Move>, t: Runtime, j: nat, k: nat)
    requires ValidSetup(u) && Reachable(u, s) && RunTo(u, s, moves, t)
    requires j < |s.list| && Joinable in s.list[j].entry.flags && k < |t.list| && t.list[k].entry.id == s.list[j].entry.id
    ensures t.list[k] == s.list[j] && Stopped(t.list[k].entry)
  {
    var w := s.list[j];
    JoinableIsStopped(u, s, j);
    ReachableInv(u, s);
    assert Holds(s, w);
    hide Inv, RunTo, Reachable;
    DoneForEver(u, s, moves, t, w);
    RunKeeps(u, s, moves, t);
    assert Entries(t.list)[k].id == w.entry.id;
    var x :| 0 <= x < |t.list| && t.list[x] == w;
    OneOfEachId(u, t, x, k);
  }

  lemma OneOfEachId(u: Setup, s: Runtime, j: nat, k: nat)
    requires Inv(u, s) && j < |s.list| && k < |s.list| && s.list[j].entry.id == s.list[k].entry.id
    ensures j == k
  {
    var x, y := s.started - 1 - j, s.started - 1 - k;
    assert u.ids[x] == u.ids[y];
    hide OnProgram, FirstInitialised, First;
  }

  /** The final wait's answer, that as many workers as there are have JOINABLE, is all the join loop needs: from then on
      every join is legal, for every interleaving of the start loops and the workers before. */
  lemma JoinIsLegal(u: Setup, s: Runtime)
    requires ValidSetup(u) && Reachable(u, s) && s.main.Joining?
    ensures JoinReady(Entries(s.list), u.ids, s.main.k)
  {
    ReachableInv(u, s);
    hide Reachable;
    forall j | 0 <= j < |s.list| ensures Stopped(Entries(s.list)[j]) {
      JoinableIsDone(s.list[j]);
      assert OnProgram(s.list[j]);
    }
    forall l | s.main.k <= l < |u.ids| ensures Listed(Entries(s.list), u.ids[l]) {
      assert Entries(s.list)[s.started - 1 - l].id == u.ids[l];
    }
  }

  // --- the flags and the waits

  /** What the flags tell in every reachable state: every worker is a ready child from its fork on, it is running from its
      initialisation up to its destruction, and joinable when it has nothing left to do. */
  lemma FlagsTell(u: Setup, s: Runtime, j: nat)
    requires ValidSetup(u) && Reachable(u, s) && j < |s.list|
    ensures var w := s.list[j];
            && Child in w.entry.flags && Ready in w.entry.flags
            && (Running in w.entry.flags <==> w.todo != [] && w.todo[0] != Init && w.todo[0] != Exit)
            && (Joinable in w.entry.flags <==> w.todo == [])
  {
    ReachableInv(u, s);
    PointsTell(s.list[j]);
  }

  lemma PointsTell(w: Thread)
    requires OnProgram(w)
    ensures Child in w.entry.flags && Ready in w.entry.flags
    ensures Running in w.entry.flags <==> w.todo != [] && w.todo[0] != Init && w.todo[0] != Exit
    ensures Joinable in w.entry.flags <==> w.todo == []
  {}

  /** The first group consists of the workers that process_run takes straight first. */
  lemma FirstGroup(cfg: Config, i: nat)
    requires ValidConfig(cfg) && i < cfg.workers
    ensures i < First(cfg) <==> !ReverseFirst(cfg, i)
    ensures i < First(cfg) <==> Dir(cfg, i, 0) == 0
  {}

  lemma SeenAll(s: Runtime, flag: Flag)
    ensures Seen(s, flag, |s.list|) <==> forall j :: 0 <= j < |s.list| ==> flag in s.list[j].entry.flags
  {
    HavingAll(Entries(s.list), flag);
    hide Having, Entries;
    assert forall j :: 0 <= j < |s.list| ==> Entries(s.list)[j] == s.list[j].entry;
  }

  /** How many workers there are at each wait: as many as the wait asks for. */
  lemma AskedFor(u: Setup, s: Runtime)
    requires Inv(u, s)
    ensures s.main.WaitReady? || s.main.WaitRunning? ==> |s.list| == FirstWait(u.cfg) > 0
    ensures s.main.WaitSecondReady? || s.main.WaitSecondRunning? || s.main.WaitJoinable? ==> |s.list| == u.cfg.workers > 0
  {
    hide OnProgram;
  }

  /** The waits for READY never block. Those for RUNNING go on exactly when every worker there is is between its
      initialisation and its destruction, the one for JOINABLE exactly when every worker has nothing left to do. */
  lemma WaitsOpen(u: Setup, s: Runtime)
    requires Inv(u, s)
    ensures s.main.WaitReady? || s.main.WaitSecondReady? ==> MainCanStep(u, s)
    ensures s.main.WaitRunning? || s.main.WaitSecondRunning? ==>
              (MainCanStep(u, s) <==>
               forall j :: 0 <= j < |s.list| ==> s.list[j].todo != [] && s.list[j].todo[0] != Init && s.list[j].todo[0] != Exit)
    ensures s.main.WaitJoinable? ==> (MainCanStep(u, s) <==> forall j :: 0 <= j < |s.list| ==> s.list[j].todo == [])
  {
    AskedFor(u, s);
    SeenAll(s, Ready);
    SeenAll(s, Running);
    SeenAll(s, Joinable);
    forall j | 0 <= j < |s.list|
      ensures Ready in s.list[j].entry.flags
      ensures Running in s.list[j].entry.flags <==> s.list[j].todo != [] && s.list[j].todo[0] != Init && s.list[j].todo[0] != Exit
      ensures Joinable in s.list[j].entry.flags <==> s.list[j].todo == []
    {
      PointsTell(s.list[j]);
    }
    hide Inv, OnProgram, Seen, FirstWait;
  }

  /** An end comes to rest in one of two ways only: it is done, or the main thread still waits for RUNNING when every worker
      has already exited. The latter is what the flag's polling allows, and nothing else stops the main thread. */
  lemma StuckExactly(u: Setup, s: Runtime)
    requires ValidSetup(u) && Reachable(u, s)
    ensures (forall m :: !CanMove(u, s, m)) <==>
            s.main.Done? || ((s.main.WaitRunning? || s.main.WaitSecondRunning?) && forall j :: 0 <= j < |s.list| ==> s.list[j].todo == [])
  {
    ReachableInv(u, s);
    WaitsOpen(u, s);
    AskedFor(u, s);
    assert CanMove(u, s, ByMain) <==> MainCanStep(u, s);
    assert forall j: nat :: CanMove(u, s, ByWorker(j)) <==> WorkerCanStep(s, j);
    hide OnProgram, Seen, FirstInitialised;
    assert s.main.Done? ==> s.list == [];
    assert forall j: nat :: WorkerCanStep(s, j) <==> j < |s.list| && s.list[j].todo != [];
    if s.main.Done? || ((s.main.WaitRunning? || s.main.WaitSecondRunning?) && forall j :: 0 <= j < |s.list| ==> s.list[j].todo == []) {
      forall m ensures !CanMove(u, s, m) {
        if m.ByWorker? { assert !WorkerCanStep(s, m.j); } else { assert s.main.Done? || s.list[0].todo == []; }
      }
    }
  }

  // --- an end can always be brought to its end, as long as no worker has been too fast

  function MainRank(m: Main): nat {
    match m
    case StartFirst => 8 case WaitReady => 7 case WaitRunning => 6 case StartSecond => 5 case WaitSecondReady => 4
    case WaitSecondRunning => 3 case WaitJoinable => 2 case Joining(_) => 1 case Done => 0
  }

  function TotalTodo(list: seq<Thread>): nat { if list == [] then 0 else |list[0].todo| + TotalTodo(list[1..]) }

  lemma {:induction false} TodoFalls(list: seq<Thread>, j: nat, w: Thread)
    requires j < |list| && |w.todo| < |list[j].todo|
    ensures TotalTodo(list[j := w]) < TotalTodo(list)
    decreases |list|
  {
    if j == 0 {
      assert list[j := w][1..] == list[1..];
    } else {
      TodoFalls(list[1..], j - 1, w);
      assert list[j := w][1..] == list[1..][j - 1 := w];
    }
  }

  /** Before the final wait no worker has got to its destruction. */
  predicate InTime(s: Runtime) {
    MainRank(s.main) > 2 ==> forall j :: 0 <= j < |s.list| ==> |s.list[j].todo| >= 2
  }

  // A worker that the main thread waits for can go on.
  lemma Awaited(u: Setup, s: Runtime) returns (j: nat)
    requires Inv(u, s) && InTime(s) && !s.main.Done? && !MainCanStep(u, s)
    ensures WorkerCanStep(s, j) && InTime(WorkerStep(s, j))
  {
    hide Seen, FirstWait, FirstInitialised, Numbered, First;
    WaitsOpen(u, s);
    if s.main.WaitJoinable? {
      j :| 0 <= j < |s.list| && s.list[j].todo != [];
    } else {
      j :| 0 <= j < |s.list| && (s.list[j].todo == [] || s.list[j].todo[0] == Init || s.list[j].todo[0] == Exit);
      assert OnProgram(s.list[j]);
    }
  }

  lemma MainGoesOn(u: Setup, s: Runtime)
    requires Inv(u, s) && InTime(s) && !s.main.Done? && MainCanStep(u, s)
    ensures var s' := MainStep(u, s);
            && InTime(s') && Inv(u, s') && s'.started >= s.started
            && (MainRank(s'.main) < MainRank(s.main)
                || (s'.main == s.main && s'.started > s.started)
                || (s.main.Joining? && s'.main == Joining(s.main.k + 1) && s.main.k < |u.ids|))
  {
    MoveKeeps(u, s, ByMain);
    assert s.started < |u.ids| ==> |ProgramOf(u.cfg, u.e, s.started)| >= 3;
    hide Inv, OnProgram, ProgramOf;
  }

  /** From every state in which no worker has been destroyed before the final wait, the end can still be reached. */
  lemma {:induction false} CanFinish(u: Setup, s: Runtime) returns (moves: seq<Move>, t: Runtime)
    requires Inv(u, s) && InTime(s)
    ensures RunTo(u, s, moves, t) && t.main.Done?
    decreases MainRank(s.main), |u.ids| - s.started, if s.main.Joining? then |u.ids| - s.main.k else 0, TotalTodo(s.list)
  {
    hide MainCanStep, OnProgram, FirstInitialised, MainStep, First, FirstWait, InTime;
    if s.main.Done? {
      moves, t := [], s;
    } else {
      var m, s' := ByMain, s;
      if MainCanStep(u, s) {
        MainGoesOn(u, s);
        s' := MainStep(u, s);
      } else {
        var j := Awaited(u, s);
        m, s' := ByWorker(j), WorkerStep(s, j);
        MoveKeeps(u, s, m);
        TodoFalls(s.list, j, Performed(s.list[j]));
      }
      assert CanMove(u, s, m) && After(u, s, m) == s';
      var rest;
      rest, t := CanFinish(u, s');
      moves := [m] + rest;
      assert moves[1..] == rest;
    }
  }

  /** So for every setup there is a run from the start in which all workers are started, waited for and joined. */
  lemma SomeRunFinishes(u: Setup) returns (moves: seq<Move>, t: Runtime)
    requires ValidSetup(u)
    ensures RunTo(u, Runtime([], 0, StartFirst), moves, t) && t.main.Done? && t.started == |u.ids| && t.list == []
  {
    var s := Runtime([], 0, StartFirst);
    moves, t := CanFinish(u, s);
    RunKeeps(u, s, moves, t);
  }
}
