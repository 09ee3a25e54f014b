/** The barrier as the object whose fields the threads update in place, one atomic action of one thread at a time. */
module WorkerBarrier {
  import opened Options
  import opened BarrierModel
  import opened BarrierInvariant

  class Object {
    const total: nat
    var count: int
    var waiting: int
    var blockR: bool
    var mutex0: Option<nat>
    var mutex1: Option<nat>
    var threads: seq<Thread>
    ghost var drained: nat
    ghost var failed: bool

    ghost function View(): State
      reads this
    {
      State(Barrier(total, count, waiting, blockR, mutex0, mutex1, drained, failed), threads)
    }

    ghost predicate Valid()
      reads this
    {
      Inv(View())
    }

    constructor (users: nat)
      requires users > 0
      ensures Valid() && Init(View()) && total == users
    {
      total, count, waiting, blockR := users, users, 0, false;
      mutex0, mutex1 := None, None;
      threads := seq(users, _ => FRESH_THREAD);
      drained, failed := 0, false;
      new;
      InitInv(View());
    }

    // Wakes every thread asleep at the given point.
    method Broadcast(asleep: Pc)
      requires asleep < 23
      modifies `threads
      ensures |threads| == |old(threads)|
      ensures forall u :: 0 <= u < |threads| ==>
                threads[u] == if old(threads[u]).pc == asleep then old(threads[u]).(pc := asleep + 1) else old(threads[u])
    {
      var u := 0;
      while u < |threads|
        invariant 0 <= u <= |threads| == |old(threads)|
        invariant forall v :: 0 <= v < |threads| ==>
                    threads[v] == if v < u && old(threads[v]).pc == asleep then old(threads[v]).(pc := asleep + 1) else old(threads[v])
      {
        if threads[u].pc == asleep { threads := threads[u := threads[u].(pc := asleep + 1)]; }
        u := u + 1;
      }
    }

    // Waiting for the previous round, counting in, and waiting for all threads.
    method ActEntering(t: nat)
      requires CanStep(View(), t) && threads[t].pc <= RELOCK_1
      modifies this
      ensures View() == Step(old(View()), t)
    {
      ghost var before := View();
      var th := threads[t];
      var pc := th.pc;
      if pc == OUTSIDE {
        th := th.(pc := LOCK_0, serial := false, calls := th.calls + 1);
      } else if pc == LOCK_0 || pc == RELOCK_0 {
        mutex0 := Some(t);
        th := th.(pc := CHECK_BLOCK);
      } else if pc == CHECK_BLOCK {
        if blockR { mutex0 := None; th := th.(pc := SLEEP_0); } else { th := th.(pc := LOCK_1); }
      } else if pc == LOCK_1 {
        mutex1 := Some(t);
        th := th.(pc := ENTER);
      } else if pc == ENTER {
        waiting := waiting + 1;
        th := th.(pc := UNLOCK_0, ins := th.ins + 1);
      } else if pc == UNLOCK_0 {
        mutex0 := None;
        th := th.(pc := CHECK_ALL);
      } else if pc == CHECK_ALL {
        if waiting < count { mutex1 := None; th := th.(pc := SLEEP_1); } else { th := th.(pc := FIRST); }
      } else {
        mutex1 := Some(t);
        th := th.(pc := CHECK_ALL);
      }
      threads := threads[t := th];
      assert View().threads == Step(before, t).threads;
    }

    // The first thread released wakes the others; every thread counts itself out.
    method ActReleasing(t: nat)
      requires CanStep(View(), t) && FIRST <= threads[t].pc <= LEAVE
      modifies this
      ensures View() == Step(old(View()), t)
    {
      ghost var before := View();
      var th := threads[t];
      var pc := th.pc;
      if pc == FIRST {
        failed := failed || count != waiting;
        if count == total { th := th.(pc := FIRST_LOCK_0); } else { th := th.(pc := LEAVE); }
      } else if pc == FIRST_LOCK_0 {
        mutex0 := Some(t);
        th := th.(pc := FIRST_BLOCK);
      } else if pc == FIRST_BLOCK {
        blockR := true;
        th := th.(pc := FIRST_UNLOCK_0);
      } else if pc == FIRST_UNLOCK_0 {
        mutex0 := None;
        th := th.(pc := FIRST_WAKE);
      } else if pc == FIRST_WAKE {
        Broadcast(SLEEP_1);
        th := th.(pc := LEAVE);
      } else {
        count := count - 1;
        waiting := waiting - 1;
        th := th.(pc := LAST, outs := th.outs + 1);
      }
      threads := threads[t := th];
      assert View().threads == Step(before, t).threads;
    }

    // The last thread released resets the fields; every thread returns.
    method ActReturning(t: nat)
      requires CanStep(View(), t) && LAST <= threads[t].pc
      modifies this
      ensures View() == Step(old(View()), t)
    {
      ghost var before := View();
      var th := threads[t];
      var pc := th.pc;
      if pc == LAST {
        if count == 0 { th := th.(pc := LAST_LOCK_0); } else { th := th.(pc := UNLOCK_1); }
      } else if pc == LAST_LOCK_0 {
        mutex0 := Some(t);
        th := th.(pc := LAST_OPEN);
      } else if pc == LAST_OPEN {
        blockR := false;
        th := th.(pc := LAST_REFILL);
      } else if pc == LAST_REFILL {
        count := total;
        drained := drained + 1;
        th := th.(pc := LAST_WAKE);
      } else if pc == LAST_WAKE {
        Broadcast(SLEEP_0);
        th := th.(pc := LAST_UNLOCK_0);
      } else if pc == LAST_UNLOCK_0 {
        mutex0 := None;
        th := th.(pc := UNLOCK_1, serial := true);
      } else {
        mutex1 := None;
        th := th.(pc := OUTSIDE, rets := th.rets + 1);
      }
      threads := threads[t := th];
      assert View().threads == Step(before, t).threads;
    }

    /** One action of worker_barrier_wait by thread t, which is not blocked. */
    method Act(t: nat)
      requires Valid() && CanStep(View(), t)
      modifies this
      ensures Valid() && View() == Step(old(View()), t)
    {
      StepKeeps(View(), t);
      hide Inv, CanStep, Step;
      var pc := threads[t].pc;
      if pc <= RELOCK_1 { ActEntering(t); } else if pc <= LEAVE { ActReleasing(t); } else { ActReturning(t); }
    }
  }
}
