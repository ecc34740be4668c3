/**
 * Time in the scheduler: the early-out of the tick handler changes nothing, a delayed task wakes
 * on exactly its tick across every wrap of the counter, and a suspended scheduler loses no tick.
 */
module KernelTime {
  import opened Ticks
  import opened Rings
  import opened Tasks
  import opened Kernel
  import opened KernelInvariant
  import opened KernelRuns

  // ----- the cached unblock time -----

  /** The tick handler without the early-out: scan the delayed list on every tick. */
  function TickScan(k: State): (State, bool)
    requires Known(k)
  {
    var (k1, woke) := Expire(AdvanceTick(k));
    (k1, woke || |k1.ready[Prio(k1, k1.current)].items| > 1 || k1.yieldPending)
  }

  /** Apart from the cache itself the early-out makes no difference. */
  lemma {:induction false} EarlyOutSound(k: State)
    requires Inv(k)
    ensures Known(k)
    ensures TickNow(k).0.(nextUnblock := 0) == TickScan(k).0.(nextUnblock := 0)
    ensures TickNow(k).1 == TickScan(k).1
  {
    MembersAreLive(k, {}, k.tick + 1);
    AdvanceTickInv(k);
    var k1 := AdvanceTick(k);
    if k1.tick < k1.nextUnblock {
      assert CacheSound(k1);
    }
  }

  // ----- wake times -----

  /** `t` is delayed until the unbounded time `w`. */
  ghost predicate WakesAt(k: State, t: Task, w: nat) {
    || (Item(t, Wrap(w)) in k.delayed && Epoch(w) == k.overflows)
    || (Item(t, Wrap(w)) in k.overflow && Epoch(w) == k.overflows + 1)
  }

  /** A listed wake time lies ahead. */
  lemma {:induction false} WakesLater(k: State, t: Task, w: nat)
    requires Inv(k) && WakesAt(k, t, w)
    ensures Now(k) < w && Asleep(k, t) && t in k.tcbs && !IsReady(k, t)
  {
    AtSplits(w);
    ItemOwner(k.delayed, Item(t, Wrap(w)));
    ItemOwner(k.overflow, Item(t, Wrap(w)));
    OnExactlyOneList(k, {}, t, k.tick + 1);
  }

  lemma {:induction false} ItemOwner(l: seq<Item<Task>>, x: Item<Task>)
    ensures x in l ==> x.owner in Owners(l)
  {
    if x in l {
      var i :| 0 <= i < |l| && l[i] == x;
      assert Owners(l)[i] == x.owner;
    }
  }

  lemma {:induction false} InsertedItem(l: seq<Item<Task>>, x: Item<Task>, y: Item<Task>)
    ensures y in InsertSorted(l, x) <==> y == x || y in l
  {
    var p := Position(l, x.value);
    assert l == l[..p] + l[p..];
  }

  lemma {:induction false} DroppedItem(l: seq<Item<Task>>, t: Task, y: Item<Task>)
    requires y.owner != t
    ensures y in DropItem(l, t) <==> y in l
  {
    if t in Owners(l) {
      var i := IndexOf(Owners(l), t);
      assert l == l[..i] + [l[i]] + l[i + 1..];
    }
  }

  /** Blocking for `ticks` sets the wake time to now plus `ticks`, whichever list it lands on. */
  lemma {:induction false} PutToSleepWakesAt(k: State, t: Task, ticks: Tick, indefinitely: bool)
    requires !(ticks == MAX_DELAY && indefinitely)
    ensures WakesAt(PutToSleep(k, t, ticks, indefinitely), t, Now(k) + ticks)
  {
    hide Wrap, Epoch, InsertSorted;
    var wake := Wrap(k.tick + ticks);
    WrapOnce(k.tick, ticks);
    AtUnique(if wake < k.tick then k.overflows + 1 else k.overflows, wake);
    InsertedItem(k.delayed, Item(t, wake), Item(t, wake));
    InsertedItem(k.overflow, Item(t, wake), Item(t, wake));
  }

  lemma {:induction false} BlockWakesAt(k: State, ticks: Tick, indefinitely: bool)
    requires Shaped(k) && !(ticks == MAX_DELAY && indefinitely)
    ensures WakesAt(BlockCurrent(k, ticks, indefinitely), k.current, Now(k) + ticks)
  {
    hide TakeOut, PutToSleep, WakesAt;
    var k1 := TakeOut(k.(tcbs := k.tcbs[k.current := k.tcbs[k.current].(delayAborted := false)]), k.current);
    PutToSleepWakesAt(k1, k.current, ticks, indefinitely);
  }

  // ----- what a tick does to a delayed task -----

  /** Expiry readies exactly the due entries and leaves the others listed. */
  lemma {:induction false} ExpireExact(k: State, x: Item<Task>)
    requires InvFrom(k, {}, k.tick) && x in k.delayed
    ensures Known(k)
    ensures x.value <= k.tick ==> IsReady(Expire(k).0, x.owner)
    ensures x.value > k.tick ==> x in Expire(k).0.delayed
    decreases |k.delayed|
  {
    hide InvFrom, WakeHead, Known;
    MembersAreLive(k, {}, k.tick);
    if k.delayed == [] || k.tick < k.delayed[0].value {
      HeadFirst(k, x);
    } else {
      WakeHeadInv(k, k.tick);
      WakesHead(k);
      if x in k.delayed[1..] {
        ExpireExact(WakeHead(k), x);
      } else {
        ExpireKeepsReady(WakeHead(k), x.owner);
      }
    }
  }

  lemma {:induction false} HeadFirst(k: State, x: Item<Task>)
    requires InvFrom(k, {}, k.tick) && x in k.delayed
    ensures k.delayed[0].value <= x.value
  {
    hide Partitioned, OwnLists, BitmapExact, EventsAsleep;
    var i :| 0 <= i < |k.delayed| && k.delayed[i] == x;
    assert i > 0 ==> k.delayed[0].value <= x.value;
  }

  lemma {:induction false} WakesHead(k: State)
    requires Known(k) && k.delayed != []
    ensures var k', t := WakeHead(k), k.delayed[0].owner;
            Known(k') && k'.tick == k.tick && k'.delayed == k.delayed[1..] && t in k'.tcbs && IsReady(k', t)
  {
    InsertEndMember(k.ready[Prio(k, k.delayed[0].owner)], k.delayed[0].owner);
  }

  lemma {:induction false} PutReadyKeepsReady(k: State, t: Task, u: Task)
    requires Shaped(k) && t in k.tcbs && u in k.tcbs && IsReady(k, u)
    ensures IsReady(PutReady(k, t), u)
  {
    InsertEndMember(k.ready[Prio(k, t)], t);
  }

  lemma {:induction false} ExpireKeepsReady(k: State, u: Task)
    requires Known(k) && u in k.tcbs && IsReady(k, u)
    ensures IsReady(Expire(k).0, u)
    decreases |k.delayed|
  {
    if k.delayed != [] && k.tick >= k.delayed[0].value {
      var t := k.delayed[0].owner;
      PutReadyKeepsReady(DropEvent(k.(delayed := k.delayed[1..]), t), t, u);
      ExpireKeepsReady(WakeHead(k), u);
    }
  }

  lemma {:induction false} ExpireFrame(k: State)
    requires Known(k)
    ensures var k' := Expire(k).0;
            && k'.overflow == k.overflow && k'.overflows == k.overflows && k'.tick == k.tick
            && k'.suspensions == k.suspensions && k'.pendedTicks == k.pendedTicks
            && k'.yieldPending == k.yieldPending && k'.switchRequested == k.switchRequested
    decreases |k.delayed|
  {
    if k.delayed != [] && k.tick >= k.delayed[0].value {
      ExpireFrame(WakeHead(k));
    }
  }

  /** The tick that makes time `w` readies the tasks due at `w` and no other delayed task. */
  lemma {:induction false} TickWakesExactly(k: State, t: Task, w: nat)
    requires Inv(k) && WakesAt(k, t, w)
    ensures Known(k) && Now(TickNow(k).0) == Now(k) + 1
    ensures w == Now(k) + 1 ==> IsReady(TickNow(k).0, t)
    ensures w != Now(k) + 1 ==> WakesAt(TickNow(k).0, t, w)
  {
    hide InvFrom, Wrap, Epoch;
    MembersAreLive(k, {}, k.tick + 1);
    WakesLater(k, t, w);
    AdvanceTickInv(k);
    AdvanceKeepsWake(k, t, w);
    ScanWakesExactly(AdvanceTick(k), t, w);
    EarlyOutSound(k);
    ExpireFrame(AdvanceTick(k));
  }

  lemma {:induction false} AdvanceKeepsWake(k: State, t: Task, w: nat)
    requires Inv(k) && WakesAt(k, t, w)
    ensures WakesAt(AdvanceTick(k), t, w)
  {
    WrapOnce(k.tick, 1);
    if k.tick == MAX_DELAY {
      EmptyAtWrap(k);
    }
  }

  lemma {:induction false} ScanWakesExactly(k: State, t: Task, w: nat)
    requires InvFrom(k, {}, k.tick) && WakesAt(k, t, w)
    ensures Known(k)
    ensures w <= Now(k) ==> IsReady(Expire(k).0, t)
    ensures w > Now(k) ==> WakesAt(Expire(k).0, t, w)
  {
    MembersAreLive(k, {}, k.tick);
    AtSplits(w);
    ExpireFrame(k);
    if Item(t, Wrap(w)) in k.delayed && Epoch(w) == k.overflows {
      ExpireExact(k, Item(t, Wrap(w)));
    }
  }

  /** Ready tasks stay ready through ticks. */
  lemma {:induction false} TickKeepsReady(k: State, u: Task)
    requires Known(k) && u in k.tcbs && IsReady(k, u)
    ensures IsReady(TickNow(k).0, u)
  {
    if AdvanceTick(k).tick >= AdvanceTick(k).nextUnblock {
      ExpireKeepsReady(AdvanceTick(k), u);
    }
  }

  // ----- a suspended scheduler -----

  lemma {:induction false} DrainOneKeepsReady(k: State, u: Task)
    requires Inv(k) && Known(k) && k.pending != [] && k.suspensions > 0 && u in k.tcbs && IsReady(k, u)
    ensures IsReady(DrainOne(k), u)
  {
    hide Partitioned, OwnLists, BitmapExact, WakeTimesFrom, TakeOut, PutReady;
    var t, k1 := k.pending[0], k.(pending := k.pending[1..]);
    PopPendingInv(k);
    OnExactlyOneList(k, {}, t, k.tick + 1);
    OnExactlyOneList(k, {}, u, k.tick + 1);
    TakeOutFrame(k1, t, u);
    PutReadyKeepsReady(TakeOut(k1, t), t, u);
  }

  /** Draining readies every pending task, keeps ready tasks ready and leaves other delays alone. */
  lemma {:induction false} DrainExact(k: State, u: Task)
    requires Inv(k) && k.suspensions > 0 && u in k.tcbs
    ensures Known(k)
    ensures IsReady(k, u) || u in k.pending ==> IsReady(Drain(k), u)
    decreases |k.pending|
  {
    MembersAreLive(k, {}, k.tick + 1);
    if k.pending != [] {
      DrainOneInv(k);
      if IsReady(k, u) {
        DrainOneKeepsReady(k, u);
      }
      assert u in k.pending ==> u == k.pending[0] || u in k.pending[1..];
      DrainExact(DrainOne(k), u);
    }
  }

  lemma {:induction false} DrainOneKeepsWake(k: State, t: Task, w: nat)
    requires Inv(k) && Known(k) && k.pending != [] && k.suspensions > 0 && WakesAt(k, t, w) && t !in k.pending
    ensures WakesAt(DrainOne(k), t, w) && t !in DrainOne(k).pending
  {
    hide InvFrom, TakeOut, Wrap, Epoch;
    TakeOutKeepsWake(k.(pending := k.pending[1..]), k.pending[0], t, w);
  }

  lemma {:induction false} DrainKeepsWake(k: State, t: Task, w: nat)
    requires Inv(k) && k.suspensions > 0 && WakesAt(k, t, w) && t !in k.pending
    ensures Known(k) && WakesAt(Drain(k), t, w)
    decreases |k.pending|
  {
    hide InvFrom, WakesAt, TakeOut, PutReady;
    MembersAreLive(k, {}, k.tick + 1);
    if k.pending != [] {
      DrainOneInv(k);
      DrainOneKeepsWake(k, t, w);
      DrainKeepsWake(DrainOne(k), t, w);
    }
  }

  lemma {:induction false} TakeOutKeepsWake(k: State, u: Task, t: Task, w: nat)
    requires Shaped(k) && u in k.tcbs && u != t && WakesAt(k, t, w)
    ensures WakesAt(TakeOut(k, u), t, w)
  {
    hide DropItem, RemoveAt, IndexOf, Wrap, Epoch;
    DroppedItem(k.delayed, u, Item(t, Wrap(w)));
    DroppedItem(k.overflow, u, Item(t, Wrap(w)));
  }

  /** What one replayed tick leaves to the others. */
  lemma {:induction false} ReplayOne(k: State, t: Task, w: nat)
    requires Inv(k) && WakesAt(k, t, w)
    ensures Known(k) && t in k.tcbs
    ensures var k1 := Pend(TickNow(k).0, TickNow(k).1);
            && Inv(k1) && Known(k1) && Shaped(k1) && Now(k1) == Now(k) + 1 && t in k1.tcbs && Now(k) < w
            && (w == Now(k) + 1 ==> IsReady(k1, t)) && (w != Now(k) + 1 ==> WakesAt(k1, t, w))
  {
    hide InvFrom, TickNow, Wrap, Epoch;
    TickPendInv(k);
    WakesLater(k, t, w);
    TickWakesExactly(k, t, w);
    MembersAreLive(Pend(TickNow(k).0, TickNow(k).1), {}, Pend(TickNow(k).0, TickNow(k).1).tick + 1);
  }

  /** Replaying `n` ticks readies exactly the tasks due within them. */
  lemma {:induction false} ReplayExact(k: State, n: nat, t: Task, w: nat)
    requires Inv(k) && WakesAt(k, t, w)
    ensures Known(k) && t in k.tcbs && Now(Replay(k, n)) == Now(k) + n
    ensures w <= Now(k) + n ==> IsReady(Replay(k, n), t)
    ensures w > Now(k) + n ==> WakesAt(Replay(k, n), t, w)
    decreases n
  {
    hide InvFrom, TickNow, WakesAt, Known, Shaped;
    ReplayOne(k, t, w);
    ReplayTime(k, n);
    if n > 0 {
      var k1 := Pend(TickNow(k).0, TickNow(k).1);
      if w == Now(k) + 1 {
        ReplayKeepsReady(k1, n - 1, t);
      } else {
        ReplayExact(k1, n - 1, t, w);
      }
    }
  }

  lemma {:induction false} TickTime(k: State)
    requires Inv(k)
    ensures Known(k) && Now(TickNow(k).0) == Now(k) + 1
    ensures TickNow(k).0.suspensions == k.suspensions && TickNow(k).0.pendedTicks == k.pendedTicks
  {
    hide InvFrom, Wrap;
    MembersAreLive(k, {}, k.tick + 1);
    AdvanceTickInv(k);
    ExpireFrame(AdvanceTick(k));
  }

  lemma {:induction false} ReplayTime(k: State, n: nat)
    requires Inv(k)
    ensures Known(k) && Now(Replay(k, n)) == Now(k) + n
    ensures Replay(k, n).suspensions == k.suspensions && Replay(k, n).pendedTicks == k.pendedTicks
    decreases n
  {
    hide InvFrom, TickNow;
    TickPendInv(k);
    TickTime(k);
    if n > 0 {
      ReplayTime(Pend(TickNow(k).0, TickNow(k).1), n - 1);
    }
  }

  lemma {:induction false} ReplayKeepsReady(k: State, n: nat, u: Task)
    requires Inv(k) && u in k.tcbs && Shaped(k) && IsReady(k, u)
    ensures Known(k) && IsReady(Replay(k, n), u)
    decreases n
  {
    hide InvFrom, TickNow;
    TickPendInv(k);
    if n > 0 {
      TickKeepsReady(k, u);
      ReplayKeepsReady(Pend(TickNow(k).0, TickNow(k).1), n - 1, u);
    }
  }

  lemma {:induction false} ResumeAllTime(k: State)
    requires Inv(k) && k.suspensions == 1
    ensures Known(k)
    ensures var k' := ResumeAll(k);
            k'.suspensions == 0 && k'.pendedTicks == 0 && Now(k') == Now(k) + k.pendedTicks
    ensures ResumeAll(k).tcbs == k.tcbs && ResumeAll(k).ready == Replay(Drained(k), k.pendedTicks).ready
  {
    hide InvFrom, Drain, Replay;
    DrainedInv(k);
    DrainInv(k);
    ReplayTime(Drained(k), k.pendedTicks);
  }

  lemma {:induction false} ResumeAllReadies(k: State, t: Task)
    requires Inv(k) && k.suspensions == 1 && t in k.pending
    ensures Known(k) && t in k.tcbs && IsReady(ResumeAll(k), t)
  {
    hide InvFrom, Drain, Replay, ResumeAll;
    ResumeAllTime(k);
    DrainedInv(k);
    DrainExact(k, t);
    ReplayKeepsReady(Drained(k), k.pendedTicks, t);
  }

  lemma {:induction false} ResumeAllWakes(k: State, t: Task, w: nat)
    requires Inv(k) && k.suspensions == 1 && WakesAt(k, t, w) && t !in k.pending
    ensures Known(k) && t in k.tcbs
    ensures w <= Now(k) + k.pendedTicks ==> IsReady(ResumeAll(k), t)
    ensures w > Now(k) + k.pendedTicks ==> WakesAt(ResumeAll(k), t, w)
  {
    hide InvFrom, Drain, Replay, Wrap, Epoch;
    ResumeAllTime(k);
    DrainedInv(k);
    DrainInv(k);
    WakesLater(k, t, w);
    DrainKeepsWake(k, t, w);
    ReplayExact(Drained(k), k.pendedTicks, t, w);
  }

  lemma {:induction false} ResumeAllPending(k: State)
    requires Inv(k) && k.suspensions == 1
    ensures Known(k) && ResumeAll(k).pending == []
  {
    hide ResumeAll, Partitioned, OwnLists, BitmapExact, WakeTimesFrom, EventsAsleep;
    ResumeAllTime(k);
    ResumeAllInv(k);
  }

  /**
   * The outermost xTaskResumeAll: no tick stays pended and no task pending, time advances by the
   * pended ticks, every task readied meanwhile is ready, and of the delayed tasks exactly those
   * whose time has come.
   */
  lemma {:induction false} ResumeAllComplete(k: State)
    requires Inv(k) && k.suspensions == 1
    ensures Known(k)
    ensures var k' := ResumeAll(k);
            && k'.suspensions == 0 && k'.pendedTicks == 0 && k'.pending == []
            && Now(k') == Now(k) + k.pendedTicks
            && (forall t :: t in k.pending ==> OnOwnReadyList(k', t))
            && (forall t, w: nat :: WakesAt(k, t, w) && t !in k.pending && w <= Now(k') ==> OnOwnReadyList(k', t))
            && (forall t, w: nat :: WakesAt(k, t, w) && t !in k.pending && w > Now(k') ==> WakesAt(k', t, w))
  {
    hide ResumeAll, WakesAt, InvFrom, IsReady;
    ResumeAllTime(k);
    ResumeAllPending(k);
    var k' := ResumeAll(k);
    forall t | t in k.pending ensures OnOwnReadyList(k', t) {
      ResumeAllReadies(k, t);
    }
    forall t, w: nat | WakesAt(k, t, w) && t !in k.pending
      ensures w <= Now(k') ==> OnOwnReadyList(k', t)
      ensures w > Now(k') ==> WakesAt(k', t, w)
    {
      ResumeAllWakes(k, t, w);
    }
  }

  /** How many tick interrupts a run contains. */
  ghost function TickCount(ops: seq<Op>): nat {
    if ops == [] then 0 else One(ops[0].Tick?) + TickCount(ops[1..])
  }

  lemma {:induction false} TickCounted(k: State)
    requires Inv(k) && Known(k) && CanSelect(k)
    ensures Wrap(Now(Step(k, Tick)) + Step(k, Tick).pendedTicks) == Wrap(Now(k) + k.pendedTicks + 1)
  {
    hide InvFrom, TickNow, Wrap, CanSelect;
    TickTime(k);
    WrapAgain(Now(k), k.pendedTicks + 1);
  }

  lemma {:induction false} ResumeCounted(k: State)
    requires Inv(k) && Known(k) && CanSelect(k) && k.suspensions == 1
    ensures var k' := Step(k, ResumeScheduler); Now(k') + k'.pendedTicks == Now(k) + k.pendedTicks
  {
    hide InvFrom, ResumeAll, CanSelect, Known, Shaped, Wrap, Drained, Replay;
    ResumeAllTime(k);
  }

  /** Each step accounts for exactly its own tick, if any. */
  lemma {:induction false} StepCountsTicks(k: State, op: Op)
    requires Inv(k)
    ensures Known(k) && CanSelect(k)
    ensures Wrap(Now(Step(k, op)) + Step(k, op).pendedTicks) == Wrap(Now(k) + k.pendedTicks + One(op.Tick?))
  {
    hide InvFrom, Step, Wrap, Known, CanSelect;
    StepInv(k, op);
    if op.Tick? {
      TickCounted(k);
    } else if op.ResumeScheduler? && k.suspensions == 1 {
      ResumeCounted(k);
    } else {
      StepKeepsTime(k, op);
    }
  }

  lemma {:induction false} WrapAgain(a: nat, b: nat)
    ensures Wrap(a + Wrap(b)) == Wrap(a + b)
  {
    AtSplits(b);
  }

  lemma {:induction false} StepKeepsTime(k: State, op: Op)
    requires Known(k) && CanSelect(k) && !op.Tick? && !(op.ResumeScheduler? && k.suspensions == 1)
    ensures var k' := Step(k, op);
            k'.tick == k.tick && k'.overflows == k.overflows && k'.pendedTicks == k.pendedTicks
  {
    hide BlockCurrent, BlockOnEvent, BlockOnNotification, RemoveFromEventList, RemoveFromUnorderedEventList, AbortDelay,
      Notify, Create, Delete, CleanUp, Suspend, Resume, PrioritySet, Inherit, Give, DisinheritAfterTimeout,
      IsReady, Highest, CanSelect, BitSurvives, Wrap, Drain, Replay;
  }

  /** Over every run the tick count plus the pended ticks counts every tick, modulo 2^32. */
  lemma {:induction false} NoTickLost(k: State, ops: seq<Op>)
    requires Inv(k)
    ensures Wrap(Now(Run(k, ops)) + Run(k, ops).pendedTicks) == Wrap(Now(k) + k.pendedTicks + TickCount(ops))
    decreases |ops|
  {
    hide InvFrom, Step, Known, CanSelect;
    if ops != [] {
      StepInv(k, ops[0]);
      StepCountsTicks(k, ops[0]);
      var k1 := Step(k, ops[0]);
      NoTickLost(k1, ops[1..]);
      WrapSum(Now(k1) + k1.pendedTicks, TickCount(ops[1..]));
      WrapSum(Now(k) + k.pendedTicks + One(ops[0].Tick?), TickCount(ops[1..]));
    }
  }

  // ----- wake times over runs -----

  /** The calls that end or change `t`'s sleep before its time. */
  predicate Disturbs(op: Op, t: Task) {
    match op
    case UnblockEvent(u) => u == t
    case UnblockUnordered(u) => u == t
    case Abort(u) => u == t
    case NotifyTask(u) => u == t
    case DeleteTask(u) => u == t
    case SuspendTask(u) => u == t
    case GiveMutex(waiter) => waiter == Some(t)
    case _ => false
  }

  /** Still delayed until `w`, or ready because `w` has come. */
  ghost predicate SleepsUntil(k: State, t: Task, w: nat) {
    t !in k.pending && if Now(k) < w then WakesAt(k, t, w) else OnOwnReadyList(k, t)
  }

  lemma {:induction false} MakeReadyKeepsWake(k: State, u: Task, t: Task, w: nat)
    requires Shaped(k) && u in k.tcbs && u != t && WakesAt(k, t, w)
    ensures WakesAt(MakeReady(k, u), t, w)
  {
    hide TakeOut, Wrap, Epoch;
    TakeOutKeepsWake(DropEvent(k, u), u, t, w);
  }

  lemma {:induction false} PutToSleepKeepsWake(k: State, u: Task, d: Tick, indefinitely: bool, t: Task, w: nat)
    requires WakesAt(k, t, w)
    ensures WakesAt(PutToSleep(k, u, d, indefinitely), t, w)
  {
    hide InsertSorted, Wrap, Epoch;
    InsertedItem(k.delayed, Item(u, Wrap(k.tick + d)), Item(t, Wrap(w)));
    InsertedItem(k.overflow, Item(u, Wrap(k.tick + d)), Item(t, Wrap(w)));
  }

  lemma {:induction false} BlockCurrentKeepsWake(k: State, d: Tick, indefinitely: bool, t: Task, w: nat)
    requires Shaped(k) && k.current != t && WakesAt(k, t, w)
    ensures WakesAt(BlockCurrent(k, d, indefinitely), t, w)
  {
    hide TakeOut, PutToSleep, Wrap, Epoch;
    var k1 := k.(tcbs := k.tcbs[k.current := k.tcbs[k.current].(delayAborted := false)]);
    TakeOutKeepsWake(k1, k.current, t, w);
    PutToSleepKeepsWake(TakeOut(k1, k.current), k.current, d, indefinitely, t, w);
  }

  lemma {:induction false} SameDelaysKeepWake(k: State, k': State, t: Task, w: nat)
    requires WakesAt(k, t, w)
    requires k'.delayed == k.delayed && k'.overflow == k.overflow && k'.overflows == k.overflows
    ensures WakesAt(k', t, w)
  {
  }

  lemma {:induction false} PriorityKeepsDelays(k: State, op: Op)
    requires Inv(k) && Known(k) && CanSelect(k)
    requires op.SetPriority? || op.TakeMutex? || op.InheritFor? || op.TimeoutDisinherit?
    ensures var k' := Step(k, op);
            k'.delayed == k.delayed && k'.overflow == k.overflow && k'.overflows == k.overflows
  {
    hide InvFrom, Reprioritise, DisinheritAfterTimeout, BitSurvives, CanSelect, IsReady;
    if Enabled(k, op) {
      match op
      case SetPriority(t, p) =>
        ReprioritiseFrame(k, t, if k.tcbs[t].base == k.tcbs[t].priority then Clamped(p) else k.tcbs[t].priority);
      case TakeMutex =>
      case InheritFor(t) => ReprioritiseFrame(k, t, Prio(k, k.current));
      case TimeoutDisinherit(t, p) =>
        TimeoutKeepsDelays(k, t, p);
    }
  }

  lemma {:induction false} TimeoutKeepsDelays(k: State, t: Task, w: nat)
    requires Inv(k) && Shaped(k) && t in k.tcbs && w < PRIORITIES
    ensures var k' := DisinheritAfterTimeout(k, t, w);
            k'.delayed == k.delayed && k'.overflow == k.overflow && k'.overflows == k.overflows
  {
    hide InvFrom, Reprioritise;
    if TimeoutLowers(k, t, w) {
      TimeoutIsReprioritise(k, t, w);
      ReprioritiseFrame(k, t, TimeoutPriority(k.tcbs[t], w));
    }
  }

  lemma {:induction false} DetachKeepsWake(k: State, u: Task, t: Task, w: nat)
    requires Shaped(k) && u in k.tcbs && u != t && WakesAt(k, t, w)
    ensures WakesAt(Delete(k, u), t, w) && WakesAt(Suspend(k, u), t, w)
  {
    hide TakeOut, Wrap, Epoch;
    TakeOutKeepsWake(DropEvent(k, u), u, t, w);
  }

  lemma {:induction false} TimeStepKeepsSleep(k: State, op: Op, t: Task, w: nat)
    requires Inv(k) && Known(k) && CanSelect(k) && Enabled(k, op) && WakesAt(k, t, w) && t !in k.pending
    requires op.Tick? || op.ResumeScheduler?
    ensures SleepsUntil(Step(k, op), t, w)
  {
    hide InvFrom, WakesAt, TickNow, Drain, Replay, Known, CanSelect;
    WakesLater(k, t, w);
    if op.Tick? {
      TickIsrSleep(k, t, w);
    } else if k.suspensions == 1 {
      ResumeAllTime(k);
      ResumeAllPending(k);
      ResumeAllWakes(k, t, w);
      ResumeAllInv(k);
      InvShape(ResumeAll(k));
    } else {
      SameDelaysKeepWake(k, Step(k, op), t, w);
    }
  }

  lemma {:induction false} TickPending(k: State, t: Task)
    requires Known(k) && t !in k.pending
    ensures t !in TickNow(k).0.pending
  {
    if AdvanceTick(k).tick >= AdvanceTick(k).nextUnblock {
      ExpirePending(AdvanceTick(k), t);
    }
  }

  lemma {:induction false} ExpirePending(k: State, t: Task)
    requires Known(k) && t !in k.pending
    ensures t !in Expire(k).0.pending
    decreases |k.delayed|
  {
    hide InsertEnd, Owners;
    if k.delayed != [] && k.tick >= k.delayed[0].value {
      ExpirePending(WakeHead(k), t);
    }
  }

  lemma {:induction false} TickIsrSleep(k: State, t: Task, w: nat)
    requires Inv(k) && Known(k) && WakesAt(k, t, w) && t !in k.pending
    ensures SleepsUntil(TickIsr(k), t, w)
  {
    hide InvFrom, TickNow, Wrap, Epoch;
    WakesLater(k, t, w);
    TickWakesExactly(k, t, w);
    TickPending(k, t);
  }

  lemma {:induction false} BlockStepKeepsSleep(k: State, op: Op, t: Task, w: nat)
    requires Inv(k) && Known(k) && CanSelect(k) && Enabled(k, op) && WakesAt(k, t, w) && t !in k.pending
    requires op.Block? || op.BlockEvent? || op.AwaitNotification?
    ensures WakesAt(Step(k, op), t, w) && t !in Step(k, op).pending
  {
    hide InvFrom, BlockCurrent, Wrap, Epoch, CanSelect, IsReady;
    WakesLater(k, t, w);
    match op
    case Block(d, indefinitely) =>
      BlockCurrentKeepsWake(k, d, indefinitely, t, w);
      BlockCurrentFrame(k, d, indefinitely);
    case BlockEvent(d) =>
      BlockCurrentKeepsWake(k, d, true, t, w);
      BlockCurrentFrame(k, d, true);
    case AwaitNotification(d) =>
      var k1 := k.(tcbs := k.tcbs[k.current := k.tcbs[k.current].(awaitsNotification := true)]);
      BlockCurrentKeepsWake(k1, d, true, t, w);
      BlockCurrentFrame(k1, d, true);
  }

  lemma {:induction false} DropPending(s: seq<Task>, t: Task, u: Task)
    requires t !in s
    ensures t !in Drop(s, u)
  {
  }

  lemma {:induction false} WakeStepKeepsSleep(k: State, op: Op, t: Task, w: nat)
    requires Inv(k) && Known(k) && CanSelect(k) && Enabled(k, op) && WakesAt(k, t, w) && t !in k.pending
    requires !Disturbs(op, t) && (op.UnblockEvent? || op.UnblockUnordered? || op.Abort? || op.NotifyTask?)
    ensures WakesAt(Step(k, op), t, w) && t !in Step(k, op).pending
  {
    hide InvFrom, TakeOut, PutReady, Drop, Wrap, Epoch, IsBlocked, CanSelect;
    DropPending(k.pending, t, op.t);
    match op
    case UnblockEvent(u) => MakeReadyKeepsWake(k, u, t, w);
    case UnblockUnordered(u) => MakeReadyKeepsWake(k, u, t, w);
    case Abort(u) => MakeReadyKeepsWake(k, u, t, w);
    case NotifyTask(u) =>
      MakeReadyKeepsWake(k.(tcbs := k.tcbs[u := k.tcbs[u].(awaitsNotification := false)]), u, t, w);
  }

  lemma {:induction false} GiveKeepsSleep(k: State, waiter: Option<Task>, t: Task, w: nat)
    requires Inv(k) && Known(k) && CanSelect(k) && Enabled(k, GiveMutex(waiter)) && WakesAt(k, t, w)
    requires t !in k.pending && waiter != Some(t)
    ensures var k' := Step(k, GiveMutex(waiter)); WakesAt(k', t, w) && t !in k'.pending
  {
    hide InvFrom, Disinherit, MakeReady, Drop, Wrap, Epoch, CanSelect;
    var k1 := Disinherit(k);
    DisinheritWaiters(k);
    SameDelaysKeepWake(k, k1, t, w);
    if waiter.Some? {
      MakeReadyKeepsWake(k1, waiter.value, t, w);
      MakeReadyPending(k1, waiter.value, t);
    }
  }

  lemma {:induction false} MakeReadyPending(k: State, u: Task, t: Task)
    requires Shaped(k) && u in k.tcbs && t !in k.pending
    ensures t !in MakeReady(k, u).pending
  {
    hide TakeOut, PutReady;
    DropPending(k.pending, t, u);
  }

  lemma {:induction false} TaskStepKeepsSleep(k: State, op: Op, t: Task, w: nat)
    requires Inv(k) && Known(k) && CanSelect(k) && Enabled(k, op) && WakesAt(k, t, w) && t !in k.pending
    requires !Disturbs(op, t) && (op.DeleteTask? || op.SuspendTask? || op.ResumeTask?)
    ensures WakesAt(Step(k, op), t, w) && t !in Step(k, op).pending
  {
    hide InvFrom, TakeOut, PutReady, Drop, Wrap, Epoch, CanSelect;
    DropPending(k.pending, t, op.t);
    if op.ResumeTask? {
      if op.t in k.suspended {
        DelayedNotSuspended(k, t, w);
        MakeReadyKeepsWake(k, op.t, t, w);
      }
    } else {
      DetachKeepsWake(k, op.t, t, w);
    }
  }

  lemma {:induction false} DelayedNotSuspended(k: State, t: Task, w: nat)
    requires Inv(k) && WakesAt(k, t, w)
    ensures t !in k.suspended
  {
    ItemOwner(k.delayed, Item(t, Wrap(w)));
    ItemOwner(k.overflow, Item(t, Wrap(w)));
    OnExactlyOneList(k, {}, t, k.tick + 1);
    OccursMember(Owners(k.delayed), t);
    OccursMember(Owners(k.overflow), t);
    OccursMember(k.suspended, t);
  }

  lemma {:induction false} PriorityStepKeepsPending(k: State, op: Op)
    requires Known(k) && CanSelect(k)
    requires op.SetPriority? || op.TakeMutex? || op.InheritFor? || op.TimeoutDisinherit?
    ensures Step(k, op).pending == k.pending
  {
    hide RemoveAt, InsertEnd, IndexOf, CanSelect, BitSurvives;
  }

  lemma {:induction false} OtherStepKeepsSleep(k: State, op: Op, t: Task, w: nat)
    requires Inv(k) && Known(k) && CanSelect(k) && Enabled(k, op) && WakesAt(k, t, w) && t !in k.pending
    requires op.Switch? || op.Yield? || op.NotificationSeen? || op.SuspendScheduler? || op.CreateTask?
             || op.IdleCleanUp?
    ensures WakesAt(Step(k, op), t, w) && t !in Step(k, op).pending
  {
    hide InvFrom, Wrap, Epoch, WakesAt, Highest, InsertEnd;
    SameDelaysKeepWake(k, Step(k, op), t, w);
  }

  /** Undisturbed steps keep a delayed task delayed until its time and have it ready then. */
  lemma {:induction false} StepKeepsSleep(k: State, op: Op, t: Task, w: nat)
    requires Inv(k) && WakesAt(k, t, w) && t !in k.pending && !Disturbs(op, t)
    ensures Known(k) && CanSelect(k) && SleepsUntil(Step(k, op), t, w)
  {
    hide InvFrom, WakesAt, Enabled, Known, CanSelect;
    StepInv(k, op);
    WakesLater(k, t, w);
    if Enabled(k, op) {
      if op.Tick? || op.ResumeScheduler? {
        TimeStepKeepsSleep(k, op, t, w);
      } else {
        StepKeepsTime(k, op);
        if op.Block? || op.BlockEvent? || op.AwaitNotification? {
          BlockStepKeepsSleep(k, op, t, w);
        } else if op.UnblockEvent? || op.UnblockUnordered? || op.Abort? || op.NotifyTask? {
          WakeStepKeepsSleep(k, op, t, w);
        } else if op.GiveMutex? {
          GiveKeepsSleep(k, op.waiter, t, w);
        } else if op.DeleteTask? || op.SuspendTask? || op.ResumeTask? {
          TaskStepKeepsSleep(k, op, t, w);
        } else if op.SetPriority? || op.TakeMutex? || op.InheritFor? || op.TimeoutDisinherit? {
          PriorityKeepsDelays(k, op);
          PriorityStepKeepsPending(k, op);
          SameDelaysKeepWake(k, Step(k, op), t, w);
        } else {
          OtherStepKeepsSleep(k, op, t, w);
        }
      }
    }
  }

  lemma {:induction false} RunSplit(k: State, ops: seq<Op>, i: nat)
    requires Inv(k) && i <= |ops|
    ensures Run(k, ops) == Run(Run(k, ops[..i]), ops[i..])
    decreases i
  {
    hide InvFrom, Step, Known, CanSelect;
    if i == 0 {
      assert ops[..i] == [] && ops[i..] == ops;
    } else {
      StepInv(k, ops[0]);
      RunSplit(Step(k, ops[0]), ops[1..], i - 1);
      assert ops[1..][..i - 1] == ops[..i][1..] && ops[1..][i - 1..] == ops[i..];
    }
  }

  /** The run's state after one more step. */
  lemma {:induction false} RunSnoc(k: State, ops: seq<Op>, i: nat)
    requires Inv(k) && i < |ops|
    ensures Known(Run(k, ops[..i])) && CanSelect(Run(k, ops[..i]))
    ensures Run(k, ops[..i + 1]) == Step(Run(k, ops[..i]), ops[i])
  {
    hide InvFrom, Step, Known, CanSelect;
    var k1 := Run(k, ops[..i]);
    StepInv(k1, ops[i]);
    StepInv(Step(k1, ops[i]), ops[i]);
    RunSplit(k, ops[..i + 1], i);
    assert ops[..i + 1][..i] == ops[..i] && ops[..i + 1][i..] == [ops[i]];
    assert Run(k1, [ops[i]]) == Run(Step(k1, ops[i]), []);
  }

  /**
   * The delayed lists are exact over every run and across every wrap: a task delayed until the
   * unbounded time `w` that nobody disturbs is still delayed until `w` in every state before
   * time `w`, and is on its own ready list in the first state at which the time has reached `w`.
   */
  lemma {:induction false} WakesExactly(k: State, ops: seq<Op>, t: Task, w: nat, n: nat)
    requires Inv(k) && WakesAt(k, t, w) && t !in k.pending && n <= |ops|
    requires forall i :: 0 <= i < |ops| ==> !Disturbs(ops[i], t)
    requires forall i :: 0 <= i < n ==> Now(Run(k, ops[..i])) < w
    ensures SleepsUntil(Run(k, ops[..n]), t, w)
    decreases n
  {
    hide InvFrom, Step, Known, CanSelect, Run, WakesAt, Disturbs;
    WakesLater(k, t, w);
    if n == 0 {
      RunNothing(k, ops);
    } else {
      WakesExactly(k, ops, t, w, n - 1);
      RunSnoc(k, ops, n - 1);
      StepKeepsSleep(Run(k, ops[..n - 1]), ops[n - 1], t, w);
    }
  }

  lemma {:induction false} CurrentNotPending(k: State)
    requires Inv(k) && Shaped(k) && IsReady(k, k.current)
    ensures k.current !in k.pending
  {
    OnExactlyOneList(k, {}, k.current, k.tick + 1);
  }

  lemma {:induction false} RunCons(k: State, op: Op, ops: seq<Op>)
    requires Inv(k)
    ensures Known(k) && CanSelect(k) && Inv(Step(k, op)) && Run(k, [op] + ops) == Run(Step(k, op), ops)
  {
    hide InvFrom, Step, Known, CanSelect;
    StepInv(k, op);
    assert ([op] + ops)[1..] == ops;
  }

  lemma {:induction false} RunNothing(k: State, ops: seq<Op>)
    requires Inv(k)
    ensures Run(k, ops[..0]) == k
  {
  }
}
