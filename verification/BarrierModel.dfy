/**
  The hand-written reusable barrier as a small-step system: any number of threads, each at a program point
  of the wait function, two mutexes and two condition variables. A condition wait releases its mutex and
  falls asleep in one step, and a sleeper may wake at any time.
 */
module BarrierModel {
  import opened Options

  type Pc = x: int | 0 <= x < 24

  const OUTSIDE: Pc := 0      // not in a call
  const LOCK_0: Pc := 1       // lock mutex 0
  const CHECK_BLOCK: Pc := 2  // holds mutex 0: is a previous round still draining?
  const SLEEP_0: Pc := 3      // waits on condition 0
  const RELOCK_0: Pc := 4     // woken, takes mutex 0 again
  const LOCK_1: Pc := 5       // holds mutex 0, locks mutex 1
  const ENTER: Pc := 6        // holds both: waiting ++
  const UNLOCK_0: Pc := 7
  const CHECK_ALL: Pc := 8    // holds mutex 1: waiting < count?
  const SLEEP_1: Pc := 9      // waits on condition 1
  const RELOCK_1: Pc := 10
  const FIRST: Pc := 11       // holds mutex 1: assert, then test for the first thread released
  const FIRST_LOCK_0: Pc := 12
  const FIRST_BLOCK: Pc := 13 // holds both: block_r = 1
  const FIRST_UNLOCK_0: Pc := 14
  const FIRST_WAKE: Pc := 15  // broadcast condition 1
  const LEAVE: Pc := 16       // count --, waiting --
  const LAST: Pc := 17        // test for the last thread released
  const LAST_LOCK_0: Pc := 18
  const LAST_OPEN: Pc := 19   // holds both: block_r = 0
  const LAST_REFILL: Pc := 20 // count = total
  const LAST_WAKE: Pc := 21   // broadcast condition 0
  const LAST_UNLOCK_0: Pc := 22
  const UNLOCK_1: Pc := 23    // and return

  /** A thread: its program point, its local `serial`, and how many waits it has called, been counted in,
      been counted out of, and returned from. */
  datatype Thread = Thread(pc: Pc, serial: bool, calls: nat, ins: nat, outs: nat, rets: nat)

  /** The fields of the barrier. drained counts the rounds whose fields have been reset; failed says that an
      assert of the code did not hold. */
  datatype Barrier = Barrier(
    total: nat, count: int, waiting: int, blockR: bool,
    mutex0: Option<nat>, mutex1: Option<nat>, drained: nat, failed: bool)

  datatype State = State(b: Barrier, threads: seq<Thread>)

  const FRESH_THREAD := Thread(OUTSIDE, false, 0, 0, 0, 0)

  /** worker_barrier_init with as many users as threads. */
  predicate Init(s: State) {
    && |s.threads| > 0
    && s.b == Barrier(|s.threads|, |s.threads|, 0, false, None, None, 0, false)
    && forall t :: 0 <= t < |s.threads| ==> s.threads[t] == FRESH_THREAD
  }

  /** Every point is ready except a lock of a held mutex and a condition wait. */
  predicate Ready(b: Barrier, pc: Pc) {
    if pc == LOCK_0 || pc == RELOCK_0 || pc == FIRST_LOCK_0 || pc == LAST_LOCK_0 then b.mutex0 == None
    else if pc == LOCK_1 || pc == RELOCK_1 then b.mutex1 == None
    else pc != SLEEP_0 && pc != SLEEP_1
  }

  /** What a step of thread t, standing at pc, does to the fields. A condition wait releases its mutex. */
  function StepBarrier(b: Barrier, pc: Pc, t: nat): Barrier {
    match pc
    case LOCK_0 => b.(mutex0 := Some(t))
    case CHECK_BLOCK => if b.blockR then b.(mutex0 := None) else b
    case RELOCK_0 => b.(mutex0 := Some(t))
    case LOCK_1 => b.(mutex1 := Some(t))
    case ENTER => b.(waiting := b.waiting + 1)
    case UNLOCK_0 => b.(mutex0 := None)
    case CHECK_ALL => if b.waiting < b.count then b.(mutex1 := None) else b
    case RELOCK_1 => b.(mutex1 := Some(t))
    case FIRST => b.(failed := b.failed || b.count != b.waiting)
    case FIRST_LOCK_0 => b.(mutex0 := Some(t))
    case FIRST_BLOCK => b.(blockR := true)
    case FIRST_UNLOCK_0 => b.(mutex0 := None)
    case LEAVE => b.(count := b.count - 1, waiting := b.waiting - 1)
    case LAST_LOCK_0 => b.(mutex0 := Some(t))
    case LAST_OPEN => b.(blockR := false)
    case LAST_REFILL => b.(count := b.total, drained := b.drained + 1)
    case LAST_UNLOCK_0 => b.(mutex0 := None)
    case UNLOCK_1 => b.(mutex1 := None)
    case _ => b
  }

  /** Where the step takes the thread: the following point except at a test, a loop or the end. */
  function NextPc(b: Barrier, pc: Pc): Pc {
    match pc
    case CHECK_BLOCK => if b.blockR then SLEEP_0 else LOCK_1
    case RELOCK_0 => CHECK_BLOCK
    case CHECK_ALL => if b.waiting < b.count then SLEEP_1 else FIRST
    case RELOCK_1 => CHECK_ALL
    case FIRST => if b.count == b.total then FIRST_LOCK_0 else LEAVE
    case LAST => if b.count == 0 then LAST_LOCK_0 else UNLOCK_1
    case UNLOCK_1 => OUTSIDE
    case _ => pc + 1
  }

  function StepThread(b: Barrier, th: Thread): Thread {
    Thread(NextPc(b, th.pc),
           th.pc != OUTSIDE && (th.serial || th.pc == LAST_UNLOCK_0),
           if th.pc == OUTSIDE then th.calls + 1 else th.calls,
           if th.pc == ENTER then th.ins + 1 else th.ins,
           if th.pc == LEAVE then th.outs + 1 else th.outs,
           if th.pc == UNLOCK_1 then th.rets + 1 else th.rets)
  }

  /** A broadcast wakes every thread that sleeps on its condition. */
  function Woken(pc: Pc, th: Thread): Thread {
    if pc == FIRST_WAKE && th.pc == SLEEP_1 then th.(pc := RELOCK_1)
    else if pc == LAST_WAKE && th.pc == SLEEP_0 then th.(pc := RELOCK_0)
    else th
  }

  /** One step of thread t. */
  function Step(s: State, t: nat): (r: State)
    requires t < |s.threads|
    ensures |r.threads| == |s.threads|
  {
    var th := s.threads[t];
    State(StepBarrier(s.b, th.pc, t),
          seq(|s.threads|, u requires 0 <= u < |s.threads| =>
            if u == t then StepThread(s.b, th) else Woken(th.pc, s.threads[u])))
  }

  predicate CanStep(s: State, t: nat) { t < |s.threads| && Ready(s.b, s.threads[t].pc) }

  /** A spurious wake-up of thread t. */
  predicate CanWake(s: State, t: nat) {
    t < |s.threads| && (s.threads[t].pc == SLEEP_0 || s.threads[t].pc == SLEEP_1)
  }

  function Wake(s: State, t: nat): State
    requires CanWake(s, t)
  {
    s.(threads := s.threads[t := s.threads[t].(pc := s.threads[t].pc + 1)])
  }
}
