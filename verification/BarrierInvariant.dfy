/** The barrier's invariant, kept by every step of every thread and by every spurious wake-up. */
module BarrierInvariant {
  import opened Options
  import opened BarrierModel

  /** Points at which a thread owns mutex 0, and mutex 1. */
  predicate Holds0(pc: Pc) {
    pc == CHECK_BLOCK || LOCK_1 <= pc <= UNLOCK_0 || pc == FIRST_BLOCK || pc == FIRST_UNLOCK_0 || LAST_OPEN <= pc <= LAST_UNLOCK_0
  }

  predicate Holds1(pc: Pc) { ENTER <= pc <= CHECK_ALL || FIRST <= pc }

  /** A thread that is counted in and not yet out. */
  function In(th: Thread): nat { if th.ins > th.outs then 1 else 0 }

  function Inside(threads: seq<Thread>): (n: nat)
    ensures n <= |threads|
  {
    if threads == [] then 0 else Inside(threads[..|threads| - 1]) + In(threads[|threads| - 1])
  }

  predicate Filling(drained: nat, th: Thread) { th.outs == drained && drained <= th.ins <= drained + 1 }

  predicate Draining(drained: nat, th: Thread) { th.ins == drained + 1 && drained <= th.outs <= drained + 1 }

  /** The round a thread is in: before the first thread is released all are filling it, from then on all are draining it. */
  predicate RoundOk(b: Barrier, th: Thread) {
    if b.blockR || b.count < b.total then Draining(b.drained, th) else Filling(b.drained, th)
  }

  /** The point of the owner of mutex 1. */
  function Owner1(s: State): Pc {
    if s.b.mutex1.Some? && s.b.mutex1.value < |s.threads| then s.threads[s.b.mutex1.value].pc else OUTSIDE
  }

  /** The first thread released has not woken the others yet. */
  predicate WakePending(owner: Pc) { owner == UNLOCK_0 || owner == CHECK_ALL || FIRST <= owner <= FIRST_WAKE }

  /** Which of a thread's four counters are ahead at its point, and that it is not serial before the end. */
  predicate CountersOk(th: Thread) {
    && (th.pc == OUTSIDE || th.pc == UNLOCK_1 || !th.serial)
    && if th.pc == OUTSIDE then th.calls == th.ins == th.outs == th.rets
       else if th.pc <= ENTER then th.calls == th.ins + 1 && th.ins == th.outs == th.rets
       else if th.pc <= LEAVE then th.calls == th.ins == th.outs + 1 && th.outs == th.rets
       else th.calls == th.ins == th.outs == th.rets + 1
  }

  /** What each point knows of the fields. */
  predicate FieldsOk(b: Barrier, owner: Pc, th: Thread) {
    && (LOCK_1 <= th.pc <= ENTER ==> !b.blockR && b.count == b.total && th.outs == b.drained)
    && (FIRST <= th.pc <= LEAVE ==> b.count == b.waiting)
    && (FIRST_LOCK_0 <= th.pc <= FIRST_WAKE ==> b.count == b.total)
    && (FIRST_UNLOCK_0 <= th.pc <= LEAVE ==> b.blockR)
    && (th.pc == LAST ==> b.blockR && th.outs == b.drained + 1)
    && (LAST_LOCK_0 <= th.pc <= LAST_REFILL ==> b.count == 0 && (b.blockR <==> th.pc != LAST_REFILL))
    && (LAST_WAKE <= th.pc <= LAST_UNLOCK_0 ==> th.outs == b.drained && !b.blockR && b.count == b.total && b.waiting == 0)
    && (th.pc == UNLOCK_1 ==> if th.serial then th.outs == b.drained && !b.blockR && b.count == b.total && b.waiting == 0
                              else th.outs == b.drained + 1 && b.count > 0)
    && (th.pc == SLEEP_1 && b.waiting >= b.count ==> WakePending(owner) && b.count == b.total)
    && (th.pc == SLEEP_0 ==> b.blockR || owner == LAST_REFILL || owner == LAST_WAKE)
  }

  predicate ThreadOk(b: Barrier, owner: Pc, th: Thread, t: nat) {
    && (b.mutex0 == Some(t) <==> Holds0(th.pc))
    && (b.mutex1 == Some(t) <==> Holds1(th.pc))
    && CountersOk(th)
    && FieldsOk(b, owner, th)
    && RoundOk(b, th)
  }

  predicate BarrierOk(b: Barrier, owner: Pc) { CountsOk(b, owner) && MutexesOk(b, owner) }

  predicate CountsOk(b: Barrier, owner: Pc) {
    && 0 <= b.waiting <= b.count <= b.total && b.total > 0
    && (b.blockR || b.count < b.total ==> b.count == b.waiting)
    && (b.count < b.total ==> b.blockR || owner == LAST_REFILL)
    && (b.count == 0 ==> LEAVE < owner < LAST_WAKE)
    && !b.failed
  }

  predicate MutexesOk(b: Barrier, owner: Pc) {
    && (owner == OUTSIDE <==> b.mutex1 == None)
    && (owner != OUTSIDE ==> Holds1(owner) && (b.mutex0 == b.mutex1 <==> Holds0(owner)))
  }

  predicate Fields(s: State) {
    && s.b.total == |s.threads| > 0
    && s.b.waiting == Inside(s.threads)
    && (s.b.mutex0.Some? ==> s.b.mutex0.value < |s.threads|)
    && (s.b.mutex1.Some? ==> s.b.mutex1.value < |s.threads|)
    && BarrierOk(s.b, Owner1(s))
  }

  predicate Threads(s: State) {
    forall t :: 0 <= t < |s.threads| ==> ThreadOk(s.b, Owner1(s), s.threads[t], t)
  }

  predicate Inv(s: State) { Fields(s) && Threads(s) }

  // --- counting

  lemma {:induction false} InsideUpdate(a: seq<Thread>, t: nat, th: Thread)
    requires t < |a|
    ensures Inside(a[t := th]) == Inside(a) - In(a[t]) + In(th)
    decreases |a|
  {
    var k := |a| - 1;
    if t < k {
      InsideUpdate(a[..k], t, th);
      assert a[t := th][..k] == a[..k][t := th];
    } else {
      assert a[t := th][..k] == a[..k];
    }
  }

  lemma {:induction false} InsideSame(a: seq<Thread>, b: seq<Thread>)
    requires |a| == |b| && forall t :: 0 <= t < |a| ==> In(a[t]) == In(b[t])
    ensures Inside(a) == Inside(b)
    decreases |a|
  {
    if |a| > 0 { InsideSame(a[..|a| - 1], b[..|a| - 1]); }
  }

  lemma {:induction false} InsideFull(a: seq<Thread>)
    ensures Inside(a) == |a| <==> forall t :: 0 <= t < |a| ==> In(a[t]) == 1
    ensures Inside(a) == 0 <==> forall t :: 0 <= t < |a| ==> In(a[t]) == 0
    decreases |a|
  {
    if |a| > 0 {
      var k := |a| - 1;
      InsideFull(a[..k]);
      assert forall t :: 0 <= t < k ==> a[..k][t] == a[t];
    }
  }

  // --- one step, seen by its own thread and by another one

  /** The point of the owner of mutex 1 after a step of a thread at pc. */
  function OwnerAfter(b: Barrier, owner: Pc, pc: Pc): Pc {
    if (pc == CHECK_ALL && b.waiting < b.count) || pc == UNLOCK_1 then OUTSIDE
    else if Holds1(pc) || pc == LOCK_1 || pc == RELOCK_1 then NextPc(b, pc)
    else owner
  }

  /** What the number of threads inside says of one of them when thread t, at pc, takes a step. */
  predicate Counted(b: Barrier, pc: Pc, th: Thread) {
    && (pc == LOCK_1 || pc == ENTER ==> b.waiting < b.total)
    && (pc == LEAVE ==> b.waiting > 0)
    && (pc == FIRST_BLOCK ==> In(th) == 1)
    && (pc == LAST_REFILL ==> In(th) == 0)
  }

  predicate Steps(b: Barrier, owner: Pc, th: Thread, t: nat) {
    && BarrierOk(b, owner) && ThreadOk(b, owner, th, t) && Ready(b, th.pc) && Counted(b, th.pc, th)
    && (b.mutex1 == Some(t) ==> owner == th.pc)
  }

  lemma OwnStep(b: Barrier, owner: Pc, th: Thread, t: nat)
    requires Steps(b, owner, th, t)
    ensures ThreadOk(StepBarrier(b, th.pc, t), OwnerAfter(b, owner, th.pc), StepThread(b, th), t)
  {
    OwnFields(b, owner, th, t);
    OwnMutexes(b, owner, th, t);
    OwnRound(b, owner, th, t);
    hide FieldsOk, OwnerAfter, CountersOk, RoundOk, StepBarrier, StepThread, Steps, Holds0, Holds1;
  }

  lemma OwnMutexes(b: Barrier, owner: Pc, th: Thread, t: nat)
    requires Steps(b, owner, th, t)
    ensures var b', th' := StepBarrier(b, th.pc, t), StepThread(b, th);
            (b'.mutex0 == Some(t) <==> Holds0(th'.pc)) && (b'.mutex1 == Some(t) <==> Holds1(th'.pc))
  {
    hide FieldsOk, RoundOk, CountersOk, BarrierOk, Counted;
  }

  lemma OwnRound(b: Barrier, owner: Pc, th: Thread, t: nat)
    requires Steps(b, owner, th, t)
    ensures CountersOk(StepThread(b, th)) && RoundOk(StepBarrier(b, th.pc, t), StepThread(b, th))
  {
    hide Holds0, Holds1;
  }

  lemma OwnFields(b: Barrier, owner: Pc, th: Thread, t: nat)
    requires Steps(b, owner, th, t)
    ensures FieldsOk(StepBarrier(b, th.pc, t), OwnerAfter(b, owner, th.pc), StepThread(b, th))
  {}

  lemma BarrierStep(b: Barrier, owner: Pc, th: Thread, t: nat)
    requires Steps(b, owner, th, t)
    ensures BarrierOk(StepBarrier(b, th.pc, t), OwnerAfter(b, owner, th.pc))
  {
    CountsStep(b, owner, th, t);
    MutexesStep(b, owner, th, t);
    hide Steps, StepBarrier, OwnerAfter, CountsOk, MutexesOk;
  }

  lemma CountsStep(b: Barrier, owner: Pc, th: Thread, t: nat)
    requires Steps(b, owner, th, t)
    ensures CountsOk(StepBarrier(b, th.pc, t), OwnerAfter(b, owner, th.pc))
  {}

  lemma MutexesStep(b: Barrier, owner: Pc, th: Thread, t: nat)
    requires Steps(b, owner, th, t)
    ensures MutexesOk(StepBarrier(b, th.pc, t), OwnerAfter(b, owner, th.pc))
  {
    hide CountersOk, FieldsOk, RoundOk, CountsOk, Counted;
  }

  lemma OtherFields(b: Barrier, owner: Pc, th: Thread, t: nat, v: Thread, u: nat)
    requires Steps(b, owner, th, t) && ThreadOk(b, owner, v, u) && u != t
    ensures FieldsOk(StepBarrier(b, th.pc, t), OwnerAfter(b, owner, th.pc), Woken(th.pc, v))
  {}

  lemma OtherStep(b: Barrier, owner: Pc, th: Thread, t: nat, v: Thread, u: nat)
    requires Steps(b, owner, th, t) && ThreadOk(b, owner, v, u) && u != t && Counted(b, th.pc, v)
    ensures ThreadOk(StepBarrier(b, th.pc, t), OwnerAfter(b, owner, th.pc), Woken(th.pc, v), u)
  {
    OtherFields(b, owner, th, t, v, u);
    OtherMutexes(b, owner, th, t, v, u);
    OtherRound(b, owner, th, t, v, u);
    hide FieldsOk, OwnerAfter, RoundOk, StepBarrier, Steps, BarrierOk, Ready, Counted, Holds0, Holds1;
  }

  // Another thread keeps and gains no mutex; a sleeper holds none before and after it is woken.
  lemma OtherMutexes(b: Barrier, owner: Pc, th: Thread, t: nat, v: Thread, u: nat)
    requires Steps(b, owner, th, t) && ThreadOk(b, owner, v, u) && u != t
    ensures var b', v' := StepBarrier(b, th.pc, t), Woken(th.pc, v);
            (b'.mutex0 == Some(u) <==> Holds0(v'.pc)) && (b'.mutex1 == Some(u) <==> Holds1(v'.pc))
  {
    hide FieldsOk, RoundOk, CountersOk, BarrierOk, Counted;
  }

  // Another thread is in the round that the fields say, also when the step starts or ends the draining.
  lemma OtherRound(b: Barrier, owner: Pc, th: Thread, t: nat, v: Thread, u: nat)
    requires Steps(b, owner, th, t) && ThreadOk(b, owner, v, u) && u != t && Counted(b, th.pc, v)
    ensures RoundOk(StepBarrier(b, th.pc, t), Woken(th.pc, v))
  {
    hide Holds0, Holds1, CountersOk;
  }

  // --- one step of the whole state

  lemma OwnerKnown(s: State, t: nat)
    requires Inv(s) && CanStep(s, t)
    ensures s.b.mutex1 == Some(t) ==> Owner1(s) == s.threads[t].pc
    ensures Owner1(Step(s, t)) == OwnerAfter(s.b, Owner1(s), s.threads[t].pc)
  {
    var o := s.b.mutex1;
    assert ThreadOk(s.b, Owner1(s), s.threads[t], t);
    if o.Some? { assert ThreadOk(s.b, Owner1(s), s.threads[o.value], o.value); }
    hide FieldsOk, CountersOk, RoundOk, BarrierOk, Threads;
  }

  lemma CountKnown(s: State, t: nat, u: nat)
    requires Inv(s) && CanStep(s, t) && u < |s.threads|
    ensures Counted(s.b, s.threads[t].pc, s.threads[u])
  {
    var th := s.threads[t];
    assert ThreadOk(s.b, Owner1(s), th, t);
    InsideFull(s.threads);
    hide Inside;
    assert In(th) == 1 <==> UNLOCK_0 <= th.pc <= LEAVE;
  }

  lemma WaitingStep(b: Barrier, th: Thread, t: nat)
    requires CountersOk(th)
    ensures StepBarrier(b, th.pc, t).waiting - b.waiting == In(StepThread(b, th)) - In(th)
  {}

  lemma InsideStep(s: State, t: nat)
    requires Inv(s) && CanStep(s, t)
    ensures Step(s, t).b.waiting == Inside(Step(s, t).threads)
  {
    var s', th := Step(s, t), s.threads[t];
    assert ThreadOk(s.b, Owner1(s), th, t);
    WaitingStep(s.b, th, t);
    hide ThreadOk, Threads, Inside, BarrierOk, StepBarrier, StepThread;
    InsideUpdate(s.threads, t, s'.threads[t]);
    InsideSame(s.threads[t := s'.threads[t]], s'.threads);
  }

  lemma SameTotal(b: Barrier, pc: Pc, t: nat, n: nat)
    requires t < n && (b.mutex0.Some? ==> b.mutex0.value < n) && (b.mutex1.Some? ==> b.mutex1.value < n)
    ensures var b' := StepBarrier(b, pc, t);
            b'.total == b.total && (b'.mutex0.Some? ==> b'.mutex0.value < n) && (b'.mutex1.Some? ==> b'.mutex1.value < n)
  {}

  /** Every step of every thread keeps the invariant. */
  lemma StepKeeps(s: State, t: nat)
    requires Inv(s) && CanStep(s, t)
    ensures Inv(Step(s, t))
  {
    var s', th, owner := Step(s, t), s.threads[t], Owner1(s);
    OwnerKnown(s, t);
    InsideStep(s, t);
    assert ThreadOk(s.b, owner, th, t);
    CountKnown(s, t, t);
    hide Inside, Owner1, ThreadOk, BarrierOk, Counted, OwnerAfter, Woken, StepThread, StepBarrier, Ready;
    SameTotal(s.b, th.pc, t, |s.threads|);
    BarrierStep(s.b, owner, th, t);
    OwnStep(s.b, owner, th, t);
    forall u | 0 <= u < |s.threads| && u != t ensures ThreadOk(s'.b, Owner1(s'), s'.threads[u], u) {
      CountKnown(s, t, u);
      OtherStep(s.b, owner, th, t, s.threads[u], u);
    }
  }

  /** So does every spurious wake-up. */
  lemma WakeKeeps(s: State, t: nat)
    requires Inv(s) && CanWake(s, t)
    ensures Inv(Wake(s, t))
  {
    var s' := Wake(s, t);
    assert ThreadOk(s.b, Owner1(s), s.threads[t], t);
    InsideUpdate(s.threads, t, s'.threads[t]);
    assert Owner1(s') == Owner1(s);
    hide Inside, Owner1, BarrierOk;
    forall u | 0 <= u < |s.threads| ensures ThreadOk(s'.b, Owner1(s'), s'.threads[u], u) {
      assert ThreadOk(s.b, Owner1(s), s.threads[u], u);
    }
  }

  lemma InitInv(s: State)
    requires Init(s)
    ensures Inv(s)
  {
    InsideFull(s.threads);
    hide Inside;
  }
}
