/** Every step of the scheduler keeps its invariant, hence every run does. */
module KernelRuns {
  import opened Ticks
  import opened Rings
  import opened Tasks
  import opened Kernel
  import opened KernelInvariant

  /** The bitmap never misleads the selection: the idle task alone keeps some list non-empty. */
  lemma {:induction false} SelectionSucceeds(k: State)
    requires Inv(k)
    ensures CanSelect(k) && Highest(k.bitmap) in k.bitmap
  {
    assert Prio(k, IDLE) in k.bitmap;
  }

  // ----- flags and TCB fields -----

  lemma {:induction false} FlagsInv(k: State, k': State)
    requires Inv(k)
    requires k' == k.(yieldPending := k'.yieldPending, switchRequested := k'.switchRequested)
    ensures Inv(k')
  {
    InvFrame(k, k', {}, k.tick + 1);
  }

  lemma {:induction false} TcbInv(k: State, t: Task, tcb: Tcb)
    requires Inv(k) && t in k.tcbs && tcb.priority == Prio(k, t) && tcb.base < PRIORITIES
    requires tcb.awaitsNotification ==> t !in k.eventWaiters && t !in k.pending
    ensures Inv(k.(tcbs := k.tcbs[t := tcb]))
  {
    var k' := k.(tcbs := k.tcbs[t := tcb]);
    assert k'.tcbs.Keys == k.tcbs.Keys;
    InvFrame(k, k', {}, k.tick + 1);
  }

  lemma {:induction false} ResetUnblockInv(k: State, out: set<Task>, low: nat)
    requires InvFrom(k, out, low)
    ensures InvFrom(ResetUnblock(k), out, low)
  {
    InvFrame(k, ResetUnblock(k), out, low);
  }

  // ----- blocking -----

  lemma {:induction false} BlockCurrentFrame(k: State, ticks: Tick, indefinitely: bool)
    requires Shaped(k)
    ensures var k' := BlockCurrent(k, ticks, indefinitely);
            && k'.tcbs == k.tcbs[k.current := k.tcbs[k.current].(delayAborted := false)]
            && k'.pending == k.pending && k'.eventWaiters == k.eventWaiters && k'.tick == k.tick
  {
    hide TakeOut, PutToSleep;
  }

  lemma {:induction false} BlockCurrentInv(k: State, ticks: Tick, indefinitely: bool)
    requires Inv(k) && IsReady(k, k.current) && k.current != IDLE && ticks > 0
    ensures Inv(BlockCurrent(k, ticks, indefinitely))
    ensures Asleep(BlockCurrent(k, ticks, indefinitely), k.current)
    ensures ticks == MAX_DELAY && indefinitely ==> k.current in BlockCurrent(k, ticks, indefinitely).suspended
  {
    var t, tcb := k.current, k.tcbs[k.current].(delayAborted := false);
    var k1 := k.(tcbs := k.tcbs[t := tcb]);
    assert Inv(k1) by {
      TcbInv(k, t, tcb);
    }
    assert t !in k1.eventWaiters && t !in k1.pending && t !in k1.terminating by {
      OnExactlyOneList(k, {}, t, k.tick + 1);
    }
    assert Shaped(k1);
    hide InvFrom, PutToSleep;
    TakeOutInv(k1, t);
    PutToSleepInv(TakeOut(k1, t), t, ticks, indefinitely);
    PutToSleepAsleep(TakeOut(k1, t), t, ticks, indefinitely);
  }

  lemma {:induction false} PutToSleepAsleep(k: State, t: Task, ticks: Tick, indefinitely: bool)
    requires t in k.tcbs
    ensures Asleep(PutToSleep(k, t, ticks, indefinitely), t)
    ensures ticks == MAX_DELAY && indefinitely ==> t in PutToSleep(k, t, ticks, indefinitely).suspended
  {
    hide InsertSorted, Wrap, Owners;
    InsertedOwners(k.delayed, Item(t, Wrap(k.tick + ticks)), t);
    InsertedOwners(k.overflow, Item(t, Wrap(k.tick + ticks)), t);
  }

  lemma {:induction false} BlockOnEventInv(k: State, ticks: Tick)
    requires Inv(k) && IsReady(k, k.current) && k.current != IDLE && ticks > 0
    requires !k.tcbs[k.current].awaitsNotification
    ensures Inv(BlockOnEvent(k, ticks))
  {
    hide BlockCurrent, Partitioned, OwnLists, BitmapExact, WakeTimesFrom;
    OnExactlyOneList(k, {}, k.current, k.tick + 1);
    var k1 := BlockCurrent(k, ticks, true);
    BlockCurrentInv(k, ticks, true);
    BlockCurrentFrame(k, ticks, true);
    InvFrame(k1, BlockOnEvent(k, ticks), {}, k.tick + 1);
  }

  lemma {:induction false} BlockOnNotificationInv(k: State, ticks: Tick)
    requires Inv(k) && IsReady(k, k.current) && k.current != IDLE
    ensures Inv(BlockOnNotification(k, ticks))
  {
    OnExactlyOneList(k, {}, k.current, k.tick + 1);
    TcbInv(k, k.current, k.tcbs[k.current].(awaitsNotification := true));
    if ticks > 0 {
      var k' := k.(tcbs := k.tcbs[k.current := k.tcbs[k.current].(awaitsNotification := true)]);
      BlockCurrentInv(k', ticks, true);
      FlagsInv(BlockCurrent(k', ticks, true), BlockOnNotification(k, ticks));
    }
  }

  // ----- unblocking -----

  lemma {:induction false} PendInv(k: State, t: Task, k': State)
    requires Inv(k) && t in k.eventWaiters && k.suspensions > 0
    requires k' == k.(eventWaiters := k.eventWaiters - {t}, pending := k.pending + [t], yieldPending := k'.yieldPending)
    ensures Inv(k')
  {
    forall u ensures Occurs(k'.pending, u) == Occurs(k.pending, u) + One(u == t) {
      OccursConcat(k.pending, [t], u);
    }
    OccursMember(k.pending, t);
    InvFrame(k, k', {}, k.tick + 1);
  }

  lemma {:induction false} RemoveFromEventListInv(k: State, t: Task)
    requires Inv(k) && t in k.eventWaiters
    ensures Inv(RemoveFromEventList(k, t)) && t !in RemoveFromEventList(k, t).eventWaiters
    ensures if k.suspensions == 0 then OnOwnReadyList(RemoveFromEventList(k, t), t)
            else t in RemoveFromEventList(k, t).pending
  {
    if k.suspensions == 0 {
      RemoveFromUnorderedEventListInv(k, t);
    } else {
      PendInv(k, t, RemoveFromEventList(k, t));
    }
  }

  lemma {:induction false} RemoveFromUnorderedEventListInv(k: State, t: Task)
    requires Inv(k) && t in k.eventWaiters
    ensures Inv(RemoveFromUnorderedEventList(k, t)) && OnOwnReadyList(RemoveFromUnorderedEventList(k, t), t)
    ensures t !in RemoveFromUnorderedEventList(k, t).eventWaiters
  {
    OnExactlyOneList(k, {}, t, k.tick + 1);
    MakeReadyInv(k, t);
    FlagsInv(MakeReady(k, t), RemoveFromUnorderedEventList(k, t));
  }

  lemma {:induction false} AbortDelayInv(k: State, t: Task)
    requires Inv(k) && t in k.tcbs
    ensures Inv(AbortDelay(k, t))
  {
    if IsBlocked(k, t) {
      OnExactlyOneList(k, {}, t, k.tick + 1);
      MakeReadyInv(k, t);
      DropEventInv(k, t, k.tick + 1);
      var k' := MakeReady(k, t);
      var aborted := k.tcbs[t].delayAborted || t in k.eventWaiters || t in k.pending;
      var tcb := k'.tcbs[t].(delayAborted := aborted);
      TcbInv(k', t, tcb);
      FlagsInv(k'.(tcbs := k'.tcbs[t := tcb]), AbortDelay(k, t));
    }
  }

  lemma {:induction false} NotifyInv(k: State, t: Task)
    requires Inv(k) && t in k.tcbs && t !in k.terminating
    ensures Inv(Notify(k, t))
  {
    var k' := k.(tcbs := k.tcbs[t := k.tcbs[t].(awaitsNotification := false)]);
    TcbInv(k, t, k.tcbs[t].(awaitsNotification := false));
    if k.tcbs[t].awaitsNotification {
      MakeReadyInv(k', t);
      FlagsInv(MakeReady(k', t), Notify(k, t));
    }
  }

  // ----- time -----

  /** The assertion in taskSWITCH_DELAYED_LISTS: when the tick wraps the current list is empty. */
  lemma {:induction false} EmptyAtWrap(k: State)
    requires Inv(k) && k.tick == MAX_DELAY
    ensures k.delayed == []
  {
    HeadFrom(k, k.tick + 1);
  }

  lemma {:induction false} HeadFrom(k: State, low: nat)
    requires InvFrom(k, {}, low)
    ensures k.delayed == [] || low <= k.delayed[0].value <= MAX_DELAY
  {
  }

  lemma {:induction false} SwapInv(k: State, k': State)
    requires Inv(k) && k.delayed == []
    requires k' == k.(tick := 0, delayed := k.overflow, overflow := [], overflows := k'.overflows,
                      nextUnblock := k'.nextUnblock) && CacheSound(k')
    ensures InvFrom(k', {}, 0)
  {
    forall u ensures Places(k', u) == Places(k, u) {
    }
    assert Partitioned(k', {});
    hide Partitioned, OwnLists, BitmapExact;
  }

  lemma {:induction false} AdvanceTickInv(k: State)
    requires Inv(k)
    ensures InvFrom(AdvanceTick(k), {}, AdvanceTick(k).tick)
    ensures Now(AdvanceTick(k)) == Now(k) + 1
  {
    hide Partitioned, OwnLists, BitmapExact, WakeTimesFrom;
    WrapOnce(k.tick, 1);
    if k.tick == MAX_DELAY {
      EmptyAtWrap(k);
      SwapInv(k, AdvanceTick(k));
    } else {
      InvFrame(k, AdvanceTick(k), {}, k.tick + 1);
    }
  }

  lemma {:induction false} TailOwners(l: seq<Item<Task>>, u: Task)
    requires l != []
    ensures Occurs(Owners(l), u) == Occurs(Owners(l[1..]), u) + One(u == l[0].owner)
    ensures u in Owners(l) <==> u == l[0].owner || u in Owners(l[1..])
  {
    assert Owners(l)[1..] == Owners(l[1..]);
  }

  lemma {:induction false} TakeHeadInv(k: State, low: nat)
    requires InvFrom(k, {}, low) && k.delayed != []
    requires k.delayed[0].owner !in k.eventWaiters && k.delayed[0].owner !in k.pending
    ensures InvFrom(k.(delayed := k.delayed[1..]), {k.delayed[0].owner}, low)
    ensures k.delayed[0].owner in k.tcbs
  {
    var t, k' := k.delayed[0].owner, k.(delayed := k.delayed[1..]);
    assert t in k.tcbs by {
      TailOwners(k.delayed, t);
      OnExactlyOneList(k, {}, t, low);
    }
    assert WakeTimesFrom(k', low) && CacheSound(k') by {
      assert forall x :: x in k'.delayed ==> x in k.delayed;
      ShrunkDelays(k, k', low);
    }
    forall u
      ensures Places(k', u) == Places(k, u) - One(u == t)
      ensures u != t ==> (u in Owners(k'.delayed) <==> u in Owners(k.delayed))
    {
      TailOwners(k.delayed, u);
    }
    hide WakeTimesFrom, CacheSound, Partitioned, Owners, Places;
    LeaveInv(k, k', t, low);
  }

  lemma {:induction false} WakeHeadInv(k: State, low: nat)
    requires InvFrom(k, {}, low) && k.delayed != []
    ensures Known(k) && InvFrom(WakeHead(k), {}, low) && IsReady(WakeHead(k), k.delayed[0].owner)
  {
    MembersAreLive(k, {}, low);
    var t := k.delayed[0].owner;
    var k1 := DropEvent(k, t);
    hide InvFrom;
    DropEventInv(k, t, low);
    TakeHeadInv(k1, low);
    PutReadyInv(k1.(delayed := k.delayed[1..]), t, low);
  }

  lemma {:induction false} NothingDue(k: State)
    requires InvFrom(k, {}, k.tick) && (k.delayed == [] || k.tick < k.delayed[0].value)
    ensures Inv(k)
  {
    forall i | 0 <= i < |k.delayed| ensures k.tick + 1 <= k.delayed[i].value {
      assert i > 0 ==> k.delayed[0].value <= k.delayed[i].value;
    }
  }

  lemma {:induction false} WakeHeadShrinks(k: State)
    requires Known(k) && k.delayed != []
    ensures WakeHead(k).tick == k.tick && |WakeHead(k).delayed| < |k.delayed|
  {
  }

  lemma {:induction false} ExpireInv(k: State)
    requires InvFrom(k, {}, k.tick)
    ensures Known(k) && Inv(Expire(k).0)
    decreases |k.delayed|
  {
    MembersAreLive(k, {}, k.tick);
    hide InvFrom, WakeHead;
    if k.delayed == [] || k.tick < k.delayed[0].value {
      NothingDue(k);
      ResetUnblockInv(k, {}, k.tick + 1);
    } else {
      WakeHeadInv(k, k.tick);
      WakeHeadShrinks(k);
      ExpireInv(WakeHead(k));
    }
  }

  lemma {:induction false} TickNowInv(k: State)
    requires Inv(k)
    ensures Known(k) && Inv(TickNow(k).0)
  {
    MembersAreLive(k, {}, k.tick + 1);
    var k1 := AdvanceTick(k);
    AdvanceTickInv(k);
    if k1.tick >= k1.nextUnblock {
      ExpireInv(k1);
    } else {
      NothingDue(k1);
    }
  }

  lemma {:induction false} TickIsrInv(k: State)
    requires Inv(k)
    ensures Known(k) && Inv(TickIsr(k))
  {
    TickNowInv(k);
    if k.suspensions == 0 {
      FlagsInv(TickNow(k).0, TickIsr(k));
    } else {
      InvFrame(k, TickIsr(k), {}, k.tick + 1);
    }
  }

  // ----- suspending and resuming the scheduler -----

  lemma {:induction false} PopPendingInv(k: State)
    requires Inv(k) && k.pending != [] && k.suspensions > 0
    ensures Inv(k.(pending := k.pending[1..]))
    ensures k.pending[0] in k.tcbs && k.pending[0] !in k.eventWaiters && k.pending[0] !in k.pending[1..]
    ensures k.pending[0] !in k.terminating
  {
    var t, k1 := k.pending[0], k.(pending := k.pending[1..]);
    OnExactlyOneList(k, {}, t, k.tick + 1);
    assert t in k.pending && Occurs(k.pending, t) == 1 + Occurs(k1.pending, t);
    forall u ensures u in k1.pending ==> u != t && u in k.pending && Occurs(k1.pending, u) == Occurs(k.pending, u) {
      OccursMember(k1.pending, u);
    }
    hide Partitioned, OwnLists, BitmapExact, WakeTimesFrom;
    InvFrame(k, k1, {}, k.tick + 1);
  }

  lemma {:induction false} SameReadiness(k: State, k': State, t: Task)
    requires Shaped(k) && t in k.tcbs && k'.ready == k.ready && k'.tcbs == k.tcbs
    ensures IsReady(k', t) == IsReady(k, t)
  {
  }

  lemma {:induction false} DrainOneInv(k: State)
    requires Inv(k) && k.pending != [] && k.suspensions > 0
    ensures Known(k) && Inv(DrainOne(k)) && IsReady(DrainOne(k), k.pending[0])
  {
    hide InvFrom, TakeOut, PutReady, IsReady, Known;
    MembersAreLive(k, {}, k.tick + 1);
    var t, k1 := k.pending[0], k.(pending := k.pending[1..]);
    PopPendingInv(k);
    InvShape(k1);
    TakeOutInv(k1, t);
    PutReadyInv(TakeOut(k1, t), t, k.tick + 1);
    var k2 := PutReady(TakeOut(k1, t), t);
    FlagsInv(k2, DrainOne(k));
    SameReadiness(k2, DrainOne(k), t);
  }

  /** What draining the pending-ready list keeps. */
  lemma {:induction false} DrainInv(k: State)
    requires Inv(k) && k.suspensions > 0
    ensures Known(k) && Inv(Drain(k)) && Now(Drain(k)) == Now(k) && Drain(k).suspensions == k.suspensions
    decreases |k.pending|
  {
    MembersAreLive(k, {}, k.tick + 1);
    if k.pending != [] {
      DrainOneInv(k);
      DrainInv(DrainOne(k));
    }
  }

  lemma {:induction false} TickPendInv(k: State)
    requires Inv(k)
    ensures Known(k) && Inv(Pend(TickNow(k).0, TickNow(k).1))
  {
    hide TickNow, Known, InvFrom;
    TickNowInv(k);
    FlagsInv(TickNow(k).0, Pend(TickNow(k).0, TickNow(k).1));
  }

  lemma {:induction false} ReplayInv(k: State, n: nat)
    requires Inv(k)
    ensures Known(k) && Inv(Replay(k, n))
    decreases n
  {
    hide InvFrom, TickNow, Known;
    TickPendInv(k);
    if n > 0 {
      ReplayInv(Pend(TickNow(k).0, TickNow(k).1), n - 1);
    }
  }

  /** Draining, with the reset of the unblock time and the end of the suspension. */
  lemma {:induction false} DrainedInv(k: State)
    requires Inv(k) && k.suspensions > 0
    ensures Known(k) && Inv(Drained(k))
  {
    hide Drain, Known, Partitioned, OwnLists, BitmapExact, WakeTimesFrom;
    DrainInv(k);
    InvFrame(Drain(k), Drained(k), {}, k.tick + 1);
  }

  ghost function Drained(k: State): State
    requires Known(k)
  {
    (if k.pending == [] then Drain(k) else ResetUnblock(Drain(k))).(suspensions := 0, pendedTicks := 0)
  }

  lemma {:induction false} ResumeAllInv(k: State)
    requires Inv(k) && k.suspensions > 0
    ensures Known(k) && Inv(ResumeAll(k))
  {
    hide Drain, Replay, Known, Partitioned, OwnLists, BitmapExact, WakeTimesFrom;
    DrainedInv(k);
    if k.suspensions > 1 {
      InvFrame(k, ResumeAll(k), {}, k.tick + 1);
    } else {
      ReplayInv(Drained(k), k.pendedTicks);
      FlagsInv(Replay(Drained(k), k.pendedTicks), ResumeAll(k));
    }
  }

  // ----- context switch -----

  lemma {:induction false} RotateInv(k: State, p: nat, k': State)
    requires Inv(k) && p < PRIORITIES && k.ready[p].items != []
    requires k' == k.(ready := k.ready[p := Advance(k.ready[p])], yieldPending := k'.yieldPending,
                      switchRequested := k'.switchRequested, current := Selected(Advance(k.ready[p])))
    ensures Inv(k')
  {
    forall u ensures Places(k', u) == Places(k, u) {
      OccursReadyUpdate(k.ready, p, Advance(k.ready[p]), u);
    }
    assert k'.current in k.ready[p].items;
    assert Partitioned(k', {});
  }

  lemma {:induction false} SwitchContextInv(k: State)
    requires Inv(k)
    ensures CanSelect(k) && Inv(SwitchContext(k))
  {
    hide Partitioned, OwnLists, WakeTimesFrom;
    SelectionSucceeds(k);
    if k.suspensions > 0 {
      FlagsInv(k, SwitchContext(k));
    } else {
      RotateInv(k, Highest(k.bitmap), SwitchContext(k));
    }
  }

  // ----- creating, deleting, suspending and resuming tasks -----

  /** The partition when the lists stay and only who has a TCB changes. */
  lemma {:induction false} SameListsPartition(k: State, out: set<Task>, k': State, out': set<Task>)
    requires Partitioned(k, out) && SameLists(k, k')
    requires forall u :: One(u in k'.tcbs) - One(u in out') == One(u in k.tcbs) - One(u in out)
    ensures Partitioned(k', out')
  {
    forall u ensures Places(k', u) + One(u in out') == One(u in k'.tcbs) {
      assert Places(k, u) + One(u in out) == One(u in k.tcbs);
      assert Places(k', u) == Places(k, u);
    }
  }

  lemma {:induction false} NewTcbLists(k: State, k': State, t: Task, tcb: Tcb)
    requires Shaped(k) && OwnLists(k) && BitmapExact(k) && t !in k.tcbs
    requires tcb.priority < PRIORITIES && tcb.base < PRIORITIES
    requires k' == k.(tcbs := k.tcbs[t := tcb], taskCount := k.taskCount + 1)
    ensures Shaped(k') && OwnLists(k') && BitmapExact(k') && |k'.tcbs| == |k.tcbs| + 1
  {
    assert k'.tcbs.Keys == k.tcbs.Keys + {t};
    assert |k'.tcbs.Keys| == |k.tcbs.Keys| + 1;
  }

  lemma {:induction false} NewTcbInv(k: State, t: Task, tcb: Tcb)
    requires Inv(k) && t !in k.tcbs && tcb.priority < PRIORITIES && tcb.base < PRIORITIES
    ensures InvExcept(k.(tcbs := k.tcbs[t := tcb], taskCount := k.taskCount + 1), {t})
  {
    hide Partitioned, OwnLists, BitmapExact, WakeTimesFrom;
    var k' := k.(tcbs := k.tcbs[t := tcb], taskCount := k.taskCount + 1);
    NewTcbLists(k, k', t, tcb);
    SameDelayTimes(k, k', k.tick + 1);
    SameListsPartition(k, {}, k', {t});
  }

  lemma {:induction false} SameDelayTimes(k: State, k': State, low: nat)
    requires WakeTimesFrom(k, low) && k'.delayed == k.delayed && k'.overflow == k.overflow
    ensures WakeTimesFrom(k', low)
  {
  }

  lemma {:induction false} CreateInv(k: State, t: Task, p: nat)
    requires Inv(k) && t !in k.tcbs && p < PRIORITIES
    ensures Inv(Create(k, t, p))
  {
    hide InvFrom, PutReady;
    assert Shaped(k) by {
      InvShape(k);
    }
    NewTcbInv(k, t, Tcb(p, p, 0, false, false));
    var k' := k.(tcbs := k.tcbs[t := Tcb(p, p, 0, false, false)], taskCount := k.taskCount + 1);
    PutReadyInv(k', t, k.tick + 1);
    FlagsInv(PutReady(k', t), Create(k, t, p));
  }

  lemma {:induction false} InvShape(k: State)
    requires Inv(k)
    ensures Shaped(k)
  {
  }

  lemma {:induction false} DetachInv(k: State, t: Task)
    requires Inv(k) && t in k.tcbs && t !in k.terminating
    ensures Shaped(k) && InvExcept(TakeOut(DropEvent(k, t), t), {t})
    ensures t !in DropEvent(k, t).eventWaiters && t !in DropEvent(k, t).pending
  {
    hide InvFrom, TakeOut;
    InvShape(k);
    DropEventInv(k, t, k.tick + 1);
    TakeOutInv(DropEvent(k, t), t);
  }

  lemma {:induction false} ForgetInv(k: State, t: Task, k': State)
    requires InvExcept(k, {t}) && t in k.tcbs && t != IDLE && t != k.current
    requires k' == k.(tcbs := k.tcbs - {t}, taskCount := Pred(k.taskCount), nextUnblock := k'.nextUnblock)
    requires CacheSound(k') && t !in k.eventWaiters && t !in k.pending
    ensures Inv(k')
  {
    hide Partitioned;
    assert k'.tcbs.Keys == k.tcbs.Keys - {t};
    assert |k'.tcbs.Keys| == |k.tcbs.Keys| - 1;
    SameListsPartition(k, {t}, k', {});
    forall q, u | 0 <= q < PRIORITIES && u in k.ready[q].items ensures u != t {
      OnExactlyOneList(k, {t}, t, k.tick + 1);
    }
  }

  lemma {:induction false} BuryInv(k: State, t: Task, k': State)
    requires InvExcept(k, {t}) && t in k.tcbs && t != IDLE
    requires k' == k.(terminating := k.terminating + [t], deletedCount := k.deletedCount + 1,
                      switchRequested := k'.switchRequested)
    ensures Inv(k')
  {
    hide Partitioned, OwnLists, BitmapExact, WakeTimesFrom;
    BuriedPartition(k, t, k');
    SameReadyLists(k, k');
    SameDelayTimes(k, k', k.tick + 1);
  }

  lemma {:induction false} BuriedPartition(k: State, t: Task, k': State)
    requires Partitioned(k, {t}) && t in k.tcbs
    requires k' == k.(terminating := k.terminating + [t], deletedCount := k'.deletedCount,
                      switchRequested := k'.switchRequested)
    ensures Partitioned(k', {})
  {
    forall u ensures Places(k', u) + One(u in {}) == One(u in k'.tcbs) {
      assert Places(k, u) + One(u in {t}) == One(u in k.tcbs);
      OccursConcat(k.terminating, [t], u);
    }
  }

  /** With an exact bitmap the reset of the ready bit has nothing to clear. */
  lemma {:induction false} WithdrawIsTakeOut(k: State, t: Task)
    requires Inv(k) && t in k.tcbs
    ensures Shaped(k) && Withdraw(DropEvent(k, t), t) == TakeOut(DropEvent(k, t), t)
  {
    hide Partitioned, WakeTimesFrom, EventsAsleep, RemoveAt, DropItem, Drop, SleepsAlone;
    var k' := DropEvent(k, t);
    if !IsReady(k', t) && k'.ready[Prio(k', t)].items == [] {
      assert TakeOut(k', t).bitmap - {Prio(k', t)} == TakeOut(k', t).bitmap;
    }
  }

  lemma {:induction false} DeleteInv(k: State, t: Task)
    requires Inv(k) && t in k.tcbs && t != IDLE && t !in k.terminating
    ensures Shaped(k) && Inv(Delete(k, t))
  {
    hide InvFrom, TakeOut, Withdraw;
    DetachInv(k, t);
    WithdrawIsTakeOut(k, t);
    var k1 := TakeOut(DropEvent(k, t), t);
    if t == k.current {
      BuryInv(k1, t, Delete(k, t));
    } else {
      ForgetInv(k1, t, Delete(k, t));
    }
  }

  lemma {:induction false} UnburyPartition(k: State, k': State)
    requires Partitioned(k, {}) && k.terminating != [] && k.terminating[0] in k.tcbs
    requires k' == k.(terminating := k.terminating[1..], deletedCount := k'.deletedCount)
    ensures Partitioned(k', {k.terminating[0]})
  {
    var t := k.terminating[0];
    forall u ensures Places(k', u) + One(u in {t}) == One(u in k'.tcbs) {
      assert Places(k, u) + One(u in {}) == One(u in k.tcbs);
      assert Places(k', u) == Places(k, u) - One(u == t);
    }
  }

  lemma {:induction false} UnburyInv(k: State)
    requires Inv(k) && k.terminating != []
    ensures InvExcept(k.(terminating := k.terminating[1..], deletedCount := Pred(k.deletedCount)), {k.terminating[0]})
    ensures k.terminating[0] in k.tcbs && !Asleep(k, k.terminating[0]) && !IsReady(k, k.terminating[0])
  {
    hide Partitioned, OwnLists, BitmapExact, WakeTimesFrom;
    var t, k' := k.terminating[0], k.(terminating := k.terminating[1..], deletedCount := Pred(k.deletedCount));
    OnExactlyOneList(k, {}, t, k.tick + 1);
    UnburyPartition(k, k');
    SameDelayTimes(k, k', k.tick + 1);
    SameReadyLists(k, k');
  }

  lemma {:induction false} SameReadyLists(k: State, k': State)
    requires Shaped(k) && Shaped(k') && OwnLists(k) && BitmapExact(k)
    requires k'.tcbs == k.tcbs && k'.ready == k.ready && k'.bitmap == k.bitmap
    ensures OwnLists(k') && BitmapExact(k')
  {
  }

  lemma {:induction false} CleanUpInv(k: State)
    requires Inv(k) && k.current == IDLE && k.terminating != []
    ensures Inv(CleanUp(k))
  {
    hide Partitioned, OwnLists, BitmapExact, WakeTimesFrom;
    var k1 := k.(terminating := k.terminating[1..], deletedCount := Pred(k.deletedCount));
    UnburyInv(k);
    ForgetInv(k1, k.terminating[0], CleanUp(k));
  }

  lemma {:induction false} SuspendInv(k: State, t: Task)
    requires Inv(k) && t in k.tcbs && t != IDLE && t !in k.terminating
    ensures Shaped(k) && Inv(Suspend(k, t))
  {
    hide InvFrom, TakeOut, Withdraw;
    DetachInv(k, t);
    WithdrawIsTakeOut(k, t);
    var k1 := TakeOut(DropEvent(k, t), t);
    var k2 := k1.(suspended := k1.suspended + [t]);
    PutSuspendedInv(k1, t);
    var tcb := k2.tcbs[t].(awaitsNotification := false);
    TcbInv(k2, t, tcb);
    var k3 := k2.(tcbs := k2.tcbs[t := tcb]);
    ResetUnblockInv(k3, {}, k3.tick + 1);
    FlagsInv(ResetUnblock(k3), Suspend(k, t));
  }

  lemma {:induction false} ResumeInv(k: State, t: Task)
    requires Inv(k) && t in k.tcbs
    ensures Shaped(k) && Inv(Resume(k, t))
  {
    hide MakeReady, Partitioned, OwnLists, BitmapExact, WakeTimesFrom;
    if t in k.suspended {
      OnExactlyOneList(k, {}, t, k.tick + 1);
      MakeReadyInv(k, t);
      FlagsInv(MakeReady(k, t), Request(MakeReady(k, t), Prio(k, t) >= Prio(k, k.current)));
    }
  }

  // ----- priorities -----

  lemma {:induction false} WithPriorityInv(k: State, out: set<Task>, t: Task, p: nat)
    requires InvExcept(k, out) && t in k.tcbs && p < PRIORITIES && (t in out || !IsReady(k, t))
    ensures InvExcept(WithPriority(k, t, p), out) && (t !in out ==> !IsReady(WithPriority(k, t, p), t))
  {
    hide Partitioned;
    var k' := WithPriority(k, t, p);
    forall q | 0 <= q < PRIORITIES ensures t !in k.ready[q].items {
      OnExactlyOneList(k, out, t, k.tick + 1);
    }
    assert k'.tcbs.Keys == k.tcbs.Keys;
    SameListsPartition(k, out, k', out);
  }

  lemma {:induction false} ReprioritiseInv(k: State, t: Task, p: nat)
    requires Inv(k) && t in k.tcbs && p < PRIORITIES
    ensures Shaped(k) && Inv(Reprioritise(k, t, p))
    ensures IsReady(Reprioritise(k, t, p), t) == IsReady(k, t)
  {
    hide Partitioned, OwnLists, BitmapExact, WakeTimesFrom, Unready, PutReady;
    if IsReady(k, t) {
      OnExactlyOneList(k, {}, t, k.tick + 1);
      TakeOutInv(k, t);
      var k1 := TakeOut(k, t);
      WithPriorityInv(k1, {t}, t, p);
      PutReadyInv(WithPriority(k1, t, p), t, k.tick + 1);
    } else {
      WithPriorityInv(k, {}, t, p);
    }
  }

  lemma {:induction false} PrioritySetInv(k: State, t: Task, p: nat)
    requires Inv(k) && t in k.tcbs && p < PRIORITIES
    ensures Shaped(k) && Inv(PrioritySet(k, t, p))
  {
    hide Partitioned, OwnLists, BitmapExact, WakeTimesFrom, Reprioritise;
    var tcb := k.tcbs[t];
    var q := if tcb.base == tcb.priority then p else tcb.priority;
    var k1 := Reprioritise(k, t, q);
    ReprioritiseInv(k, t, q);
    ReprioritiseFrame(k, t, q);
    var tcb1 := k1.tcbs[t].(base := p);
    TcbInv(k1, t, tcb1);
    FlagsInv(k1.(tcbs := k1.tcbs[t := tcb1]), Request(k1.(tcbs := k1.tcbs[t := tcb1]), true));
  }

  lemma {:induction false} ReprioritiseFrame(k: State, t: Task, p: nat)
    requires Shaped(k) && t in k.tcbs && p < PRIORITIES
    ensures var k' := Reprioritise(k, t, p);
            && k'.tcbs == k.tcbs[t := k.tcbs[t].(priority := p)]
            && OnlyMoves(WithPriority(k, t, p), k')
            && k'.delayed == k.delayed && k'.overflow == k.overflow && k'.suspended == k.suspended
            && k'.terminating == k.terminating && k'.nextUnblock == k.nextUnblock
  {
    hide RemoveAt, InsertEnd, IndexOf;
  }

  lemma {:induction false} DisinheritInv(k: State)
    requires Inv(k)
    ensures Shaped(k) && Inv(Disinherit(k))
  {
    hide Partitioned, OwnLists, BitmapExact, WakeTimesFrom, Reprioritise;
    var t := k.current;
    var tcb := k.tcbs[t].(mutexesHeld := Pred(k.tcbs[t].mutexesHeld));
    TcbInv(k, t, tcb);
    ReprioritiseInv(k.(tcbs := k.tcbs[t := tcb]), t, tcb.base);
  }

  /** Giving a mutex back, with the wake-up of its first waiter if there is one. */
  lemma {:induction false} GiveInv(k: State, waiter: Option<Task>)
    requires Inv(k) && Known(k) && Enabled(k, GiveMutex(waiter))
    ensures Inv(Give(k, waiter))
  {
    hide InvFrom, Disinherit, RemoveFromEventList;
    DisinheritInv(k);
    var k1 := Disinherit(k);
    if waiter.Some? {
      DisinheritWaiters(k);
      RemoveFromEventListInv(k1, waiter.value);
      FlagsInv(RemoveFromEventList(k1, waiter.value), Give(k, waiter));
    } else {
      FlagsInv(k1, Give(k, waiter));
    }
  }

  lemma {:induction false} DisinheritWaiters(k: State)
    requires Shaped(k)
    ensures var k' := Disinherit(k); k'.eventWaiters == k.eventWaiters && k'.pending == k.pending
    ensures var k' := Disinherit(k); k'.delayed == k.delayed && k'.overflow == k.overflow
    ensures var k' := Disinherit(k); k'.yieldPending == k.yieldPending && k'.switchRequested == k.switchRequested
  {
    hide Reprioritise;
    var tcb := k.tcbs[k.current].(mutexesHeld := Pred(k.tcbs[k.current].mutexesHeld));
    ReprioritiseFrame(k.(tcbs := k.tcbs[k.current := tcb]), k.current, tcb.base);
  }

  /** Apart from the bit it resets, vTaskPriorityDisinheritAfterTimeout is an ordinary reprioritisation. */
  lemma {:induction false} TimeoutIsReprioritise(k: State, t: Task, w: nat)
    requires Inv(k) && t in k.tcbs && w < PRIORITIES && TimeoutLowers(k, t, w)
    ensures var r := Reprioritise(k, t, TimeoutPriority(k.tcbs[t], w));
            DisinheritAfterTimeout(k, t, w).(bitmap := r.bitmap) == r
    ensures var r := Reprioritise(k, t, TimeoutPriority(k.tcbs[t], w));
            var stale := IsReady(k, t) && |k.ready[Prio(k, t)].items| == 1;
            DisinheritAfterTimeout(k, t, w).bitmap == r.bitmap + (if stale then {Prio(k, t)} else {})
  {
    hide Partitioned, WakeTimesFrom, EventsAsleep, InsertEnd, IndexOf;
    if IsReady(k, t) {
      var entry := Prio(k, t);
      assert entry in k.bitmap;
      assert |Unready(k, entry, t).ready[entry].items| == |k.ready[entry].items| - 1;
    }
  }

  /**
   * The bitmap survives a disinheritance after a timeout exactly when the removal does not empty
   * the ready list the holder was on.
   */
  lemma {:induction false} DisinheritBitExact(k: State, t: Task, w: nat)
    requires Inv(k) && t in k.tcbs && w < PRIORITIES
    ensures Shaped(DisinheritAfterTimeout(k, t, w))
    ensures BitmapExact(DisinheritAfterTimeout(k, t, w)) <==> BitSurvives(k, t, w)
    ensures BitSurvives(k, t, w) ==> Inv(DisinheritAfterTimeout(k, t, w))
  {
    if TimeoutLowers(k, t, w) {
      var p := TimeoutPriority(k.tcbs[t], w);
      var r, k' := Reprioritise(k, t, p), DisinheritAfterTimeout(k, t, w);
      ReprioritiseInv(k, t, p);
      TimeoutIsReprioritise(k, t, w);
      if BitSurvives(k, t, w) {
        assert k' == r;
      } else {
        EntryListEmptied(k, t, p);
        assert Prio(k, t) in k'.bitmap && r.ready[Prio(k, t)].items == [];
      }
    }
  }

  lemma {:induction false} EntryListEmptied(k: State, t: Task, p: nat)
    requires Inv(k) && t in k.tcbs && p < PRIORITIES && p != Prio(k, t)
    requires IsReady(k, t) && |k.ready[Prio(k, t)].items| == 1
    ensures Shaped(Reprioritise(k, t, p)) && Reprioritise(k, t, p).ready[Prio(k, t)].items == []
  {
    hide Partitioned, WakeTimesFrom, EventsAsleep, InsertEnd, IndexOf;
    assert |Unready(k, Prio(k, t), t).ready[Prio(k, t)].items| == 0;
  }

  // ----- runs -----

  lemma {:induction false} TimeStepInv(k: State, op: Op)
    requires Inv(k) && Known(k) && CanSelect(k) && Enabled(k, op)
    requires op.Tick? || op.Switch? || op.Yield? || op.Block? || op.BlockEvent? || op.AwaitNotification?
             || op.NotificationSeen? || op.SuspendScheduler? || op.ResumeScheduler?
    ensures Inv(Step(k, op))
  {
    hide Partitioned, OwnLists, BitmapExact, WakeTimesFrom, TickIsr, SwitchContext, BlockCurrent, BlockOnEvent,
      BlockOnNotification, RemoveFromEventList, RemoveFromUnorderedEventList, AbortDelay, Notify, ResumeAll, Create,
      Delete, CleanUp, Suspend, Resume, PrioritySet, Reprioritise, Give, DisinheritAfterTimeout, CanSelect;
    match op
    case Tick => TickIsrInv(k);
    case Switch => SwitchContextInv(k);
    case Yield => FlagsInv(k, Step(k, op));
    case Block(d, indefinitely) => BlockCurrentInv(k, d, indefinitely);
    case BlockEvent(d) => BlockOnEventInv(k, d);
    case AwaitNotification(d) => BlockOnNotificationInv(k, d);
    case NotificationSeen => TcbInv(k, k.current, k.tcbs[k.current].(awaitsNotification := false));
    case SuspendScheduler => InvFrame(k, Step(k, op), {}, k.tick + 1);
    case ResumeScheduler => ResumeAllInv(k);
  }

  lemma {:induction false} TaskStepInv(k: State, op: Op)
    requires Inv(k) && Known(k) && CanSelect(k) && Enabled(k, op)
    requires op.UnblockEvent? || op.UnblockUnordered? || op.Abort? || op.NotifyTask? || op.CreateTask?
             || op.DeleteTask? || op.IdleCleanUp? || op.SuspendTask? || op.ResumeTask?
    ensures Inv(Step(k, op))
  {
    hide Partitioned, OwnLists, BitmapExact, WakeTimesFrom, TickIsr, SwitchContext, BlockCurrent, BlockOnEvent,
      BlockOnNotification, RemoveFromEventList, RemoveFromUnorderedEventList, AbortDelay, Notify, ResumeAll, Create,
      Delete, CleanUp, Suspend, Resume, PrioritySet, Reprioritise, Give, DisinheritAfterTimeout, CanSelect;
    match op
    case UnblockEvent(t) => RemoveFromEventListInv(k, t);
    case UnblockUnordered(t) => RemoveFromUnorderedEventListInv(k, t);
    case Abort(t) => AbortDelayInv(k, t);
    case NotifyTask(t) => NotifyInv(k, t);
    case CreateTask(t, p) => CreateInv(k, t, Clamped(p));
    case DeleteTask(t) => DeleteInv(k, t);
    case IdleCleanUp => CleanUpInv(k);
    case SuspendTask(t) => SuspendInv(k, t);
    case ResumeTask(t) => ResumeInv(k, t);
  }

  lemma {:induction false} AwaitingOffEvents(k: State)
    requires Inv(k)
    ensures Shaped(k)
    ensures forall t :: t in k.eventWaiters || t in k.pending ==> t in k.tcbs && !k.tcbs[t].awaitsNotification
  {
  }

  lemma {:induction false} PriorityStepInv(k: State, op: Op)
    requires Inv(k) && Known(k) && CanSelect(k) && Enabled(k, op)
    requires op.SetPriority? || op.TakeMutex? || op.InheritFor? || op.GiveMutex? || op.TimeoutDisinherit?
    ensures Inv(Step(k, op))
  {
    hide InvFrom, TickIsr, SwitchContext, BlockCurrent, BlockOnEvent,
      BlockOnNotification, RemoveFromEventList, RemoveFromUnorderedEventList, AbortDelay, Notify, ResumeAll, Create,
      Delete, CleanUp, Suspend, Resume, PrioritySet, Reprioritise, Give, DisinheritAfterTimeout, CanSelect;
    AwaitingOffEvents(k);
    match op
    case SetPriority(t, p) => PrioritySetInv(k, t, Clamped(p));
    case TakeMutex => TcbInv(k, k.current, k.tcbs[k.current].(mutexesHeld := k.tcbs[k.current].mutexesHeld + 1));
    case InheritFor(t) => ReprioritiseInv(k, t, Prio(k, k.current));
    case GiveMutex(waiter) => GiveInv(k, waiter);
    case TimeoutDisinherit(t, p) => DisinheritBitExact(k, t, p);
  }

  /** Every step keeps the invariant. */
  lemma {:induction false} StepInv(k: State, op: Op)
    requires Inv(k)
    ensures Known(k) && CanSelect(k) && Inv(Step(k, op))
  {
    hide InvFrom, Known, CanSelect, Enabled;
    MembersAreLive(k, {}, k.tick + 1);
    SelectionSucceeds(k);
    if Enabled(k, op) {
      if op.SetPriority? || op.TakeMutex? || op.InheritFor? || op.GiveMutex? || op.TimeoutDisinherit? {
        PriorityStepInv(k, op);
      } else if op.UnblockEvent? || op.UnblockUnordered? || op.Abort? || op.NotifyTask? || op.CreateTask?
                || op.DeleteTask? || op.IdleCleanUp? || op.SuspendTask? || op.ResumeTask? {
        TaskStepInv(k, op);
      } else {
        TimeStepInv(k, op);
      }
    }
  }

  /** The state after a run, which exists because each step leaves the next one possible. */
  ghost function Run(k: State, ops: seq<Op>): (k': State)
    requires Inv(k)
    ensures Inv(k')
    decreases |ops|
  {
    hide InvFrom, Known, CanSelect, Step;
    if ops == [] then k
    else
      StepInv(k, ops[0]);
      Run(Step(k, ops[0]), ops[1..])
  }

  /** vTaskStartScheduler, with the idle task created and running. */
  ghost function Start(): State {
    State(map[IDLE := Tcb(0, 0, 0, false, false)], EmptyLists()[0 := Ring([IDLE], 0)], {0}, [], [], [], [], {}, [],
          IDLE, 0, MAX_DELAY, 0, 0, 0, false, false, 1, 0)
  }

  ghost function EmptyLists(): (l: seq<Ring<Task>>)
    ensures |l| == PRIORITIES && forall p :: 0 <= p < PRIORITIES ==> l[p] == Empty()
  {
    seq(PRIORITIES, _ => Empty())
  }

  lemma {:induction false} StartPartition()
    ensures Partitioned(Start(), {})
  {
    var k := Start();
    forall u ensures Places(k, u) + One(u in {}) == One(u in k.tcbs) {
      OccursReadyUpdate(EmptyLists(), 0, Ring([IDLE], 0), u);
      OccursReadyMember(EmptyLists(), u);
    }
  }

  lemma {:induction false} StartInv()
    ensures Inv(Start())
  {
    hide Partitioned, EmptyLists;
    StartPartition();
  }

  /**
   * Over every run from the start of the scheduler: each live task is on exactly one state list,
   * the list lengths sum to the task count, ready tasks are on their own priority's list, and
   * bit p is set exactly when ready list p is non-empty.
   */
  lemma {:induction false} PartitionOverRuns(ops: seq<Op>)
    ensures Inv(Start())
    ensures var k := Run(Start(), ops);
            && (forall t :: Places(k, t) == One(t in k.tcbs))
            && OwnLists(k) && BitmapExact(k)
            && Lengths(k) == k.taskCount
  {
    hide Run, Start;
    StartInv();
    var k := Run(Start(), ops);
    forall t ensures Places(k, t) == One(t in k.tcbs) {
      assert Places(k, t) + One(t in {}) == One(t in k.tcbs);
    }
    LengthsCount(k);
  }

  ghost function ReadyLengths(ready: seq<Ring<Task>>): nat {
    if ready == [] then 0 else |ready[0].items| + ReadyLengths(ready[1..])
  }

  /** The sum of all state list lengths. */
  ghost function Lengths(k: State): nat {
    ReadyLengths(k.ready) + |k.delayed| + |k.overflow| + |k.suspended| + |k.terminating|
  }

  ghost function Flat(ready: seq<Ring<Task>>): (s: seq<Task>)
    ensures |s| == ReadyLengths(ready)
  {
    if ready == [] then [] else ready[0].items + Flat(ready[1..])
  }

  lemma {:induction false} OccursFlat(ready: seq<Ring<Task>>, t: Task)
    ensures Occurs(Flat(ready), t) == OccursReady(ready, t)
  {
    if ready != [] {
      OccursConcat(ready[0].items, Flat(ready[1..]), t);
      OccursFlat(ready[1..], t);
    }
  }

  /** A sequence that lists each element of `s` once is as long as `s` is large. */
  lemma {:induction false} OnceEach(l: seq<Task>, s: set<Task>)
    requires forall t :: Occurs(l, t) == One(t in s)
    ensures |l| == |s|
  {
    if l == [] {
      forall t ensures t !in s {
        assert Occurs(l, t) == One(t in s);
      }
      assert s == {};
    } else {
      var x := l[0];
      assert Occurs(l, x) == One(x in s);
      forall t ensures Occurs(l[1..], t) == One(t in s - {x}) {
        assert Occurs(l, t) == One(t in s);
      }
      OnceEach(l[1..], s - {x});
    }
  }

  lemma {:induction false} LengthsCount(k: State)
    requires Inv(k)
    ensures Lengths(k) == k.taskCount
  {
    var all := Flat(k.ready) + (Owners(k.delayed) + (Owners(k.overflow) + (k.suspended + k.terminating)));
    forall t ensures Occurs(all, t) == One(t in k.tcbs.Keys) {
      OccursFlat(k.ready, t);
      OccursConcat(Flat(k.ready), Owners(k.delayed) + (Owners(k.overflow) + (k.suspended + k.terminating)), t);
      OccursConcat(Owners(k.delayed), Owners(k.overflow) + (k.suspended + k.terminating), t);
      OccursConcat(Owners(k.overflow), k.suspended + k.terminating, t);
      OccursConcat(k.suspended, k.terminating, t);
      assert Places(k, t) + One(t in {}) == One(t in k.tcbs);
    }
    OnceEach(all, k.tcbs.Keys);
  }
}
