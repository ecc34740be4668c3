/**
 * Which tasks each step suspends, leaves pending, puts on an event list or leaves to be freed, told
 * from the state before it.
 */
module KernelLists {
  import opened Ticks
  import opened Rings
  import opened Tasks
  import opened Kernel
  import opened KernelInvariant
  import opened KernelRuns
  import opened KernelTime
  import opened KernelReady
  import opened KernelEffects
  import KernelPreemption
  import KernelStale

  // ----- who is suspended after a step -----

  /** Whether `u` is on the suspended list after the step, told from the state before it. */
  ghost predicate SuspendedAfter(k: State, op: Op, u: Task)
    requires Known(k) && Enabled(k, op)
  {
    var was := u in k.suspended;
    match op
    case ResumeScheduler => was && !(k.suspensions == 1 && u in k.pending)
    case Block(d, indefinitely) => was || (u == k.current && d == MAX_DELAY && indefinitely)
    case BlockEvent(d) => was || (u == k.current && d == MAX_DELAY)
    case AwaitNotification(d) => was || (u == k.current && d == MAX_DELAY)
    case UnblockEvent(t) => was && !(u == t && k.suspensions == 0)
    case UnblockUnordered(t) => was && u != t
    case Abort(t) => was && !(u == t && IsBlocked(k, t))
    case NotifyTask(t) => was && !(u == t && k.tcbs[t].awaitsNotification)
    case DeleteTask(t) => was && u != t
    case SuspendTask(t) => was || u == t
    case ResumeTask(t) => was && !(u == t && Resumable(k, t))
    case GiveMutex(waiter) => was && !(waiter == Some(u) && k.suspensions == 0)
    case _ => was
  }

  /** Whether `u` is on the pending-ready list after the step. */
  ghost predicate PendingAfter(k: State, op: Op, u: Task)
    requires Known(k) && Enabled(k, op)
  {
    var was := u in k.pending;
    match op
    case ResumeScheduler => was && k.suspensions > 1
    case UnblockEvent(t) => was || (u == t && k.suspensions > 0)
    case Abort(t) => was && !(u == t && IsBlocked(k, t))
    case DeleteTask(t) => was && u != t
    case SuspendTask(t) => was && u != t
    case GiveMutex(waiter) => was || (waiter == Some(u) && k.suspensions > 0)
    case _ => was
  }

  lemma {:induction false} PendingUnready(k: State, t: Task)
    requires Inv(k) && OnOwnReadyList(k, t)
    ensures t !in k.pending && t !in k.eventWaiters && t !in k.suspended
  {
    hide Partitioned;
    OnExactlyOneList(k, {}, t, k.tick + 1);
  }

  lemma {:induction false} MakeReadyLists(k: State, t: Task, u: Task)
    requires Shaped(k) && t in k.tcbs && u != t
    ensures u in MakeReady(k, t).suspended <==> u in k.suspended
    ensures u in MakeReady(k, t).pending <==> u in k.pending
  {
    hide RemoveAt, IndexOf, DropItem, Drop;
    DropMember(k.suspended, t, u);
    DropMember(k.pending, t, u);
  }

  lemma {:induction false} TimeLists(k: State, op: Op, u: Task)
    requires Inv(k) && Known(k) && CanSelect(k) && Enabled(k, op) && (op.Tick? || op.ResumeScheduler?)
    ensures u in Step(k, op).suspended <==> SuspendedAfter(k, op, u)
    ensures u in Step(k, op).pending <==> PendingAfter(k, op, u)
  {
    hide InvFrom, TickNow, ResumeAll, WakesAt, CanSelect, Known, Shaped, IsReady;
    StepInv(k, op);
    InvShape(Step(k, op));
    if op.Tick? {
      TickIdles(k);
      if k.suspensions == 0 {
        TickTime(k);
        NothingPending(k);
        NothingPending(Step(k, op));
      }
    } else if k.suspensions > 1 {
      NestedResume(k);
    } else {
      ResumeAllPending(k);
      StepReadies(k, op, u);
      if u in k.pending {
        PendingUnready(Step(k, op), u);
      } else if u in k.suspended {
        ResumeIdles(k, u);
      } else if u in Step(k, op).suspended {
        NotNewlySuspended(k, u);
      }
    }
  }

  lemma {:induction false} NothingPending(k: State)
    requires Inv(k) && k.suspensions == 0
    ensures k.pending == []
  {
  }

  lemma {:induction false} SuspendedAlone(k: State, t: Task)
    requires Inv(k) && t in k.suspended
    ensures t in k.tcbs && t !in k.terminating && !OnOwnReadyList(k, t)
    ensures forall w: nat :: !WakesAt(k, t, w)
  {
    hide InvFrom, WakesAt;
    IdlesUnready(k, t);
    OneListOnly(k, t);
    if w: nat :| WakesAt(k, t, w) {
      DelayedNotSuspended(k, t, w);
    }
  }

  lemma {:induction false} OneListOnly(k: State, t: Task)
    requires Inv(k) && t in k.suspended
    ensures t in k.tcbs && t !in k.terminating
  {
    hide Partitioned;
    OnExactlyOneList(k, {}, t, k.tick + 1);
  }

  lemma {:induction false} NotNewlySuspended(k: State, u: Task)
    requires Inv(k) && Known(k) && k.suspensions == 1 && u !in k.suspended && u !in k.pending
    ensures u !in ResumeAll(k).suspended
  {
    hide InvFrom, ResumeAll, WakesAt, Known, IsReady;
    ResumeAllInv(k);
    InvShape(ResumeAll(k));
    ResumeAllTime(k);
    if u in ResumeAll(k).suspended {
      SuspendedAlone(ResumeAll(k), u);
      Whereabouts(k, u);
      if OnOwnReadyList(k, u) {
        ResumeKeepsReady(k, u);
      } else if w: nat :| WakesAt(k, u, w) {
        ResumeAllWakes(k, u, w);
      } else {
        ResumeIdles(k, u);
      }
    }
  }

  lemma {:induction false} BlockLists(k: State, op: Op, u: Task)
    requires Inv(k) && Known(k) && CanSelect(k) && Enabled(k, op)
    requires op.Block? || op.BlockEvent? || op.AwaitNotification?
    ensures u in Step(k, op).suspended <==> SuspendedAfter(k, op, u)
    ensures u in Step(k, op).pending <==> PendingAfter(k, op, u)
  {
    hide InvFrom, BlockCurrent, CanSelect, IsReady;
    var k1 := if op.AwaitNotification?
    then k.(tcbs := k.tcbs[k.current := k.tcbs[k.current].(awaitsNotification := true)]) else k;
    if op.ticks > 0 {
      AwaitingInv(k, k1);
      KernelPreemption.SameReady(k, k1, k.current);
      var indefinitely := if op.Block? then op.indefinitely else true;
      BlockCurrentFrame(k1, op.ticks, indefinitely);
      BlockSuspended(k1, op.ticks, indefinitely);
    }
  }

  lemma {:induction false} BlockSuspended(k: State, ticks: Tick, indefinitely: bool)
    requires Shaped(k) && IsReady(k, k.current)
    ensures BlockCurrent(k, ticks, indefinitely).suspended
            == k.suspended + (if ticks == MAX_DELAY && indefinitely then [k.current] else [])
  {
    hide RemoveAt, IndexOf, InsertSorted, Wrap;
    var tcb := k.tcbs[k.current].(delayAborted := false);
    KernelPreemption.SameReady(k, k.(tcbs := k.tcbs[k.current := tcb]), k.current);
  }

  lemma {:induction false} WakeLists(k: State, op: Op, u: Task)
    requires Inv(k) && Known(k) && CanSelect(k) && Enabled(k, op)
    requires op.UnblockEvent? || op.UnblockUnordered? || op.Abort? || op.NotifyTask? || op.ResumeTask?
    ensures u in Step(k, op).suspended <==> SuspendedAfter(k, op, u)
    ensures u in Step(k, op).pending <==> PendingAfter(k, op, u)
  {
    hide InvFrom, MakeReady, CanSelect, IsReady, IsBlocked, OnOwnReadyList;
    StepInv(k, op);
    StepReadies(k, op, u);
    AwaitingOffEvents(k);
    if u == op.t {
      WokenLists(k, op);
    } else {
      var k1 := k.(tcbs := k.tcbs[op.t := k.tcbs[op.t].(awaitsNotification := false)]);
      MakeReadyLists(k, op.t, u);
      MakeReadyLists(k1, op.t, u);
    }
  }

  /** The task the call is about. */
  lemma {:induction false} WokenLists(k: State, op: Op)
    requires Inv(k) && Known(k) && CanSelect(k) && Enabled(k, op) && Inv(Step(k, op))
    requires op.UnblockEvent? || op.UnblockUnordered? || op.Abort? || op.NotifyTask? || op.ResumeTask?
    requires OnOwnReadyList(Step(k, op), op.t) <==> ReadyAfter(k, op, op.t)
    ensures op.t in Step(k, op).suspended <==> SuspendedAfter(k, op, op.t)
    ensures op.t in Step(k, op).pending <==> PendingAfter(k, op, op.t)
  {
    hide InvFrom, MakeReady, CanSelect, IsReady, IsBlocked, OnOwnReadyList;
    AwaitingOffEvents(k);
    if OnOwnReadyList(k, op.t) {
      PendingUnready(k, op.t);
    }
    if OnOwnReadyList(Step(k, op), op.t) {
      PendingUnready(Step(k, op), op.t);
    }
    if op.t in k.pending || op.t in k.eventWaiters {
      OffEachOther(k, op.t);
    }
  }

  lemma {:induction false} OffEachOther(k: State, t: Task)
    requires Inv(k)
    ensures !(t in k.pending && t in k.eventWaiters)
  {
  }

  lemma {:induction false} LeaveLists(k: State, op: Op, u: Task)
    requires Inv(k) && Known(k) && CanSelect(k) && Enabled(k, op)
    requires op.DeleteTask? || op.SuspendTask?
    ensures u in Step(k, op).suspended <==> SuspendedAfter(k, op, u)
    ensures u in Step(k, op).pending <==> PendingAfter(k, op, u)
  {
    hide InvFrom, TakeOut, CanSelect, Withdraw, Drop, Wrap, IsReady, OnOwnReadyList;
    StepInv(k, op);
    WithdrawIsTakeOut(k, op.t);
    TakenOutLists(DropEvent(k, op.t), op.t, u);
    if u != op.t {
      DropMember(k.pending, op.t, u);
    } else {
      LeaverLists(k, op);
    }
  }

  lemma {:induction false} TakenOutLists(k: State, t: Task, u: Task)
    requires Shaped(k) && t in k.tcbs
    ensures u != t ==> (u in TakeOut(k, t).suspended <==> u in k.suspended)
    ensures TakeOut(k, t).pending == k.pending
  {
    hide RemoveAt, IndexOf, DropItem, Drop;
    DropMember(k.suspended, t, u);
  }

  lemma {:induction false} LeaverLists(k: State, op: Op)
    requires Inv(k) && Known(k) && CanSelect(k) && Enabled(k, op) && (op.DeleteTask? || op.SuspendTask?)
    requires Inv(Step(k, op))
    ensures op.t in Step(k, op).suspended <==> op.SuspendTask?
    ensures op.t !in Step(k, op).pending
  {
    hide InvFrom, Withdraw, CanSelect, Wrap, IsReady, Drop;
    var k' := Step(k, op);
    DroppedOnce(k, op.t);
    if op.DeleteTask? && op.t in k'.suspended {
      OneListOnly(k', op.t);
    }
  }

  lemma {:induction false} DroppedOnce(k: State, t: Task)
    requires Inv(k)
    ensures t !in Drop(k.pending, t)
  {
    OccursDrop(k.pending, t, t);
    OccursMember(k.pending, t);
    OccursMember(Drop(k.pending, t), t);
  }

  lemma {:induction false} GiveLists(k: State, waiter: Option<Task>, u: Task)
    requires Inv(k) && Known(k) && CanSelect(k) && Enabled(k, GiveMutex(waiter))
    ensures u in Step(k, GiveMutex(waiter)).suspended <==> SuspendedAfter(k, GiveMutex(waiter), u)
    ensures u in Step(k, GiveMutex(waiter)).pending <==> PendingAfter(k, GiveMutex(waiter), u)
  {
    hide InvFrom, Disinherit, CanSelect, IsReady, MakeReady, OnOwnReadyList;
    var k' := Disinherit(k);
    DisinheritWaiters(k);
    DisinheritSuspended(k);
    StepInv(k, GiveMutex(waiter));
    if waiter.Some? && k.suspensions == 0 {
      if u == waiter.value {
        StepReadies(k, GiveMutex(waiter), u);
        PendingUnready(Step(k, GiveMutex(waiter)), u);
        NothingPending(k);
      } else {
        MakeReadyLists(k', waiter.value, u);
      }
    }
  }

  lemma {:induction false} DisinheritSuspended(k: State)
    requires Shaped(k)
    ensures Disinherit(k).suspended == k.suspended && Disinherit(k).terminating == k.terminating
  {
    hide Reprioritise;
    var tcb := k.tcbs[k.current].(mutexesHeld := Pred(k.tcbs[k.current].mutexesHeld));
    ReprioritiseFrame(k.(tcbs := k.tcbs[k.current := tcb]), k.current, tcb.base);
  }

  /** Nobody's waiting changes. */
  predicate SameWaiting(k: State, k': State) {
    && k'.suspended == k.suspended && k'.terminating == k.terminating
    && k'.pending == k.pending && k'.eventWaiters == k.eventWaiters
  }

  lemma {:induction false} RebaseWaiting(k: State, t: Task, p: nat)
    requires Shaped(k) && t in k.tcbs && p < PRIORITIES
    ensures SameWaiting(k, PrioritySet(k, t, p)) && SameWaiting(k, Inherit(k, t))
  {
    hide Reprioritise;
    ReprioritiseFrame(k, t, if k.tcbs[t].base == k.tcbs[t].priority then p else k.tcbs[t].priority);
    ReprioritiseFrame(k, t, Prio(k, k.current));
  }

  lemma {:induction false} TimeoutWaiting(k: State, t: Task, w: nat)
    requires Inv(k) && Shaped(k) && t in k.tcbs && w < PRIORITIES
    ensures var k', p := DisinheritAfterTimeout(k, t, w), TimeoutPriority(k.tcbs[t], w);
            SameWaiting(k, k') && k'.tcbs == if TimeoutLowers(k, t, w) then WithPriority(k, t, p).tcbs else k.tcbs
  {
    hide InvFrom, Reprioritise, DisinheritAfterTimeout, TimeoutLowers;
    if TimeoutLowers(k, t, w) {
      TimeoutIsReprioritise(k, t, w);
      ReprioritiseFrame(k, t, TimeoutPriority(k.tcbs[t], w));
    } else {
      NoTimeout(k, t, w);
    }
  }

  lemma {:induction false} NoTimeout(k: State, t: Task, w: nat)
    requires Shaped(k) && t in k.tcbs && w < PRIORITIES && !TimeoutLowers(k, t, w)
    ensures DisinheritAfterTimeout(k, t, w) == k
  {
    hide TimeoutLowers, IsReady;
  }

  lemma {:induction false} PriorityWaiting(k: State, op: Op)
    requires Inv(k) && Known(k) && CanSelect(k) && Enabled(k, op)
    requires op.SetPriority? || op.TakeMutex? || op.InheritFor? || op.TimeoutDisinherit?
    ensures SameWaiting(k, Step(k, op))
  {
    hide InvFrom, PrioritySet, Inherit, DisinheritAfterTimeout, CanSelect, IsReady, BitSurvives, TimeoutLowers;
    match op
    case SetPriority(t, p) => RebaseWaiting(k, t, Clamped(p));
    case TakeMutex =>
    case InheritFor(t) => RebaseWaiting(k, t, 0);
    case TimeoutDisinherit(t, w) => TimeoutWaiting(k, t, w);
  }

  lemma {:induction false} OtherLists(k: State, op: Op)
    requires Inv(k) && Known(k) && CanSelect(k) && Enabled(k, op)
    requires op.Switch? || op.Yield? || op.NotificationSeen? || op.SuspendScheduler? || op.CreateTask?
             || op.IdleCleanUp?
    ensures Step(k, op).suspended == k.suspended && Step(k, op).pending == k.pending
  {
    hide InvFrom, HighestBelow, InsertEnd;
  }

  /** Every step puts exactly the tasks it should on the suspended and the pending-ready list, and takes them off. */
  lemma {:induction false} StepLists(k: State, op: Op, u: Task)
    requires Inv(k) && Known(k) && CanSelect(k) && Enabled(k, op)
    ensures u in Step(k, op).suspended <==> SuspendedAfter(k, op, u)
    ensures u in Step(k, op).pending <==> PendingAfter(k, op, u)
  {
    hide InvFrom, Known, CanSelect, Step, WakesAt, IsBlocked, BitSurvives;
    if op.Tick? || op.ResumeScheduler? {
      TimeLists(k, op, u);
    } else if op.Block? || op.BlockEvent? || op.AwaitNotification? {
      BlockLists(k, op, u);
    } else if op.UnblockEvent? || op.UnblockUnordered? || op.Abort? || op.NotifyTask? || op.ResumeTask? {
      WakeLists(k, op, u);
    } else if op.DeleteTask? || op.SuspendTask? {
      LeaveLists(k, op, u);
    } else if op.GiveMutex? {
      GiveLists(k, op.waiter, u);
    } else if op.SetPriority? || op.TakeMutex? || op.InheritFor? || op.TimeoutDisinherit? {
      PriorityWaiting(k, op);
    } else {
      OtherLists(k, op);
    }
  }

  // ----- who is on an event list after a step -----

  /** Whether `u` is on an event list after the step. */
  ghost predicate ListedAfter(k: State, op: Op, u: Task)
    requires Known(k) && Enabled(k, op)
  {
    var was := u in k.eventWaiters;
    match op
    case Tick => was && !(k.suspensions == 0 && WakesAt(k, u, Now(k) + 1))
    case ResumeScheduler =>
      was && !(k.suspensions == 1 && exists w: nat :: WakesAt(k, u, w) && w <= Now(k) + k.pendedTicks)
    case BlockEvent(_) => was || u == k.current
    case UnblockEvent(t) => was && u != t
    case UnblockUnordered(t) => was && u != t
    case Abort(t) => was && !(u == t && IsBlocked(k, t))
    case DeleteTask(t) => was && u != t
    case SuspendTask(t) => was && u != t
    case GiveMutex(waiter) => was && waiter != Some(u)
    case _ => was
  }

  lemma {:induction false} ExpireListsNobody(k: State, u: Task)
    requires Known(k) && u !in k.eventWaiters
    ensures u !in Expire(k).0.eventWaiters
    decreases |k.delayed|
  {
    hide InsertEnd, Owners;
    if k.delayed != [] && k.tick >= k.delayed[0].value {
      ExpireListsNobody(WakeHead(k), u);
    }
  }

  lemma {:induction false} TickListsNobody(k: State, u: Task)
    requires Known(k) && u !in k.eventWaiters
    ensures u !in TickNow(k).0.eventWaiters
  {
    if AdvanceTick(k).tick >= AdvanceTick(k).nextUnblock {
      ExpireListsNobody(AdvanceTick(k), u);
    }
  }

  lemma {:induction false} ReplayListsNobody(k: State, n: nat, u: Task)
    requires Known(k) && u !in k.eventWaiters
    ensures u !in Replay(k, n).eventWaiters
    decreases n
  {
    hide TickNow;
    if n > 0 {
      TickListsNobody(k, u);
      ReplayListsNobody(Pend(TickNow(k).0, TickNow(k).1), n - 1, u);
    }
  }

  lemma {:induction false} DrainKeepsListed(k: State)
    requires Known(k)
    ensures Drain(k).eventWaiters == k.eventWaiters
    decreases |k.pending|
  {
    hide TakeOut, PutReady, Known;
    if k.pending != [] {
      KernelStale.DrainOneShrinks(k);
      DrainKeepsListed(DrainOne(k));
    }
  }

  lemma {:induction false} ResumeListsNobody(k: State, u: Task)
    requires Known(k) && k.suspensions > 0 && u !in k.eventWaiters
    ensures u !in ResumeAll(k).eventWaiters
  {
    hide Drain, Replay, Wrap;
    if k.suspensions == 1 {
      DrainKeepsListed(k);
      var k1 := Drain(k);
      var k2 := if k.pending == [] then k1 else ResetUnblock(k1);
      ReplayListsNobody(k2.(suspensions := 0, pendedTicks := 0), k.pendedTicks, u);
    }
  }

  lemma {:induction false} TimeListed(k: State, op: Op, u: Task)
    requires Inv(k) && Known(k) && CanSelect(k) && Enabled(k, op) && (op.Tick? || op.ResumeScheduler?)
    ensures u in Step(k, op).eventWaiters <==> ListedAfter(k, op, u)
  {
    hide InvFrom, TickNow, ResumeAll, WakesAt, CanSelect, Known, OnOwnReadyList;
    StepInv(k, op);
    StepReadies(k, op, u);
    if u in k.eventWaiters {
      AwaitingOffEvents(k);
      OffEachOther(k, u);
      if OnOwnReadyList(k, u) {
        PendingUnready(k, u);
      }
      if OnOwnReadyList(Step(k, op), u) {
        PendingUnready(Step(k, op), u);
      }
      if op.Tick? {
        TickListed(k, u);
        SameReadyTask(TickNow(k).0, TickIsr(k).(ready := TickNow(k).0.ready), u);
      } else {
        ResumeListed(k, u);
      }
    } else if op.Tick? {
      TickListsNobody(k, u);
    } else {
      ResumeListsNobody(k, u);
    }
  }

  lemma {:induction false} CallListedAfter(k: State, op: Op, u: Task)
    requires Inv(k) && Known(k) && CanSelect(k) && Enabled(k, op)
    requires op.UnblockEvent? || op.UnblockUnordered? || op.Abort? || op.NotifyTask? || op.ResumeTask?
    ensures u in Step(k, op).eventWaiters <==> ListedAfter(k, op, u)
  {
    hide InvFrom, MakeReady, CanSelect, IsReady, IsBlocked;
    AwaitingOffEvents(k);
    MakeReadyReady(k, op.t);
    MakeReadyReady(k.(tcbs := k.tcbs[op.t := k.tcbs[op.t].(awaitsNotification := false)]), op.t);
  }

  lemma {:induction false} BlockListed(k: State, op: Op)
    requires Inv(k) && Known(k) && CanSelect(k) && Enabled(k, op)
    requires op.Block? || op.BlockEvent? || op.AwaitNotification?
    ensures Step(k, op).eventWaiters == k.eventWaiters + (if op.BlockEvent? then {k.current} else {})
  {
    hide InvFrom, BlockCurrent, CanSelect, IsReady;
    var k1 := k.(tcbs := k.tcbs[k.current := k.tcbs[k.current].(awaitsNotification := true)]);
    BlockCurrentFrame(k, op.ticks, if op.Block? then op.indefinitely else true);
    BlockCurrentFrame(k1, op.ticks, true);
  }

  lemma {:induction false} GiveListed(k: State, waiter: Option<Task>)
    requires Inv(k) && Known(k) && CanSelect(k) && Enabled(k, GiveMutex(waiter))
    ensures Step(k, GiveMutex(waiter)).eventWaiters == k.eventWaiters - (if waiter.Some? then {waiter.value} else {})
  {
    hide InvFrom, Disinherit, MakeReady, CanSelect, IsReady;
    DisinheritWaiters(k);
    if waiter.Some? {
      MakeReadyReady(Disinherit(k), waiter.value);
    }
  }

  lemma {:induction false} OtherListed(k: State, op: Op, u: Task)
    requires Inv(k) && Known(k) && CanSelect(k) && Enabled(k, op)
    requires op.Switch? || op.Yield? || op.NotificationSeen? || op.SuspendScheduler? || op.CreateTask?
             || op.IdleCleanUp? || op.DeleteTask? || op.SuspendTask?
    ensures u in Step(k, op).eventWaiters <==> ListedAfter(k, op, u)
  {
    hide InvFrom, HighestBelow, InsertEnd, Withdraw, Drop, Wrap, IsReady;
  }

  /** Every step puts exactly the tasks it should on an event list, and takes exactly them off. */
  lemma {:induction false} StepListed(k: State, op: Op, u: Task)
    requires Inv(k) && Known(k) && CanSelect(k) && Enabled(k, op)
    ensures u in Step(k, op).eventWaiters <==> ListedAfter(k, op, u)
  {
    hide InvFrom, Known, CanSelect, Step, WakesAt, IsBlocked, BitSurvives;
    if op.Tick? || op.ResumeScheduler? {
      TimeListed(k, op, u);
    } else if op.UnblockEvent? || op.UnblockUnordered? || op.Abort? || op.NotifyTask? || op.ResumeTask? {
      CallListedAfter(k, op, u);
    } else if op.SetPriority? || op.TakeMutex? || op.InheritFor? || op.TimeoutDisinherit? {
      PriorityWaiting(k, op);
    } else if op.Block? || op.BlockEvent? || op.AwaitNotification? {
      BlockListed(k, op);
    } else if op.GiveMutex? {
      GiveListed(k, op.waiter);
    } else {
      OtherListed(k, op, u);
    }
  }

  // ----- who is waiting to be freed after a step -----

  lemma {:induction false} DrainTerminating(k: State)
    requires Inv(k) && Known(k) && k.suspensions > 0
    ensures Drain(k).terminating == k.terminating
    decreases |k.pending|
  {
    hide InvFrom, Known, DrainOne;
    if k.pending != [] {
      DrainOneInv(k);
      KernelStale.DrainOneShrinks(k);
      DrainOneTerminating(k);
      DrainTerminating(DrainOne(k));
    }
  }

  lemma {:induction false} DrainOneTerminating(k: State)
    requires Inv(k) && Known(k) && k.pending != []
    ensures DrainOne(k).terminating == k.terminating
  {
    hide InvFrom, InsertEnd, RemoveAt, IndexOf, DropItem;
    var t := k.pending[0];
    assert t in k.pending;
    WaiterLives(k, t);
  }

  /** A task that waits for anything is not waiting to be freed. */
  lemma {:induction false} WaiterLives(k: State, t: Task)
    requires Inv(k)
    requires t in k.pending || t in k.eventWaiters || t in k.suspended
             || t in Owners(k.delayed) || t in Owners(k.overflow)
    ensures t !in k.terminating
  {
    hide Partitioned;
    OnExactlyOneList(k, {}, t, k.tick + 1);
  }

  lemma {:induction false} MakeReadyTerminating(k: State, t: Task)
    requires Shaped(k) && t in k.tcbs && t !in k.terminating
    ensures MakeReady(k, t).terminating == k.terminating && TakeOut(k, t).terminating == k.terminating
  {
    hide RemoveAt, IndexOf, DropItem, InsertEnd;
  }

  lemma {:induction false} ResumeTerminating(k: State)
    requires Inv(k) && Known(k) && k.suspensions > 0
    ensures ResumeAll(k).terminating == k.terminating
  {
    hide InvFrom, Drain, Replay, Wrap;
    if k.suspensions == 1 {
      DrainTerminating(k);
      var k1 := Drain(k);
      var k2 := if k.pending == [] then k1 else ResetUnblock(k1);
      ReplayIdles(k2.(suspensions := 0, pendedTicks := 0), k.pendedTicks);
    }
  }

  lemma {:induction false} WakeTerminating(k: State, op: Op)
    requires Inv(k) && Known(k) && CanSelect(k) && Enabled(k, op)
    requires op.UnblockEvent? || op.UnblockUnordered? || op.Abort? || op.NotifyTask? || op.ResumeTask?
    ensures Step(k, op).terminating == k.terminating
  {
    hide InvFrom, MakeReady, CanSelect, IsReady;
    if op.t in k.terminating {
      if op.t in k.eventWaiters || op.t in k.suspended || op.t in Owners(k.delayed) || op.t in Owners(k.overflow) {
        WaiterLives(k, op.t);
      }
    } else {
      MakeReadyTerminating(k, op.t);
      MakeReadyTerminating(k.(tcbs := k.tcbs[op.t := k.tcbs[op.t].(awaitsNotification := false)]), op.t);
    }
  }

  lemma {:induction false} LeaveTerminating(k: State, op: Op)
    requires Inv(k) && Known(k) && CanSelect(k) && Enabled(k, op) && (op.DeleteTask? || op.SuspendTask?)
    ensures Step(k, op).terminating
            == if op == DeleteTask(k.current) then k.terminating + [k.current] else k.terminating
  {
    hide InvFrom, TakeOut, CanSelect, Withdraw, Drop, Wrap;
    WithdrawIsTakeOut(k, op.t);
    MakeReadyTerminating(DropEvent(k, op.t), op.t);
  }

  lemma {:induction false} BlockedTerminating(k: State, ticks: Tick, indefinitely: bool)
    requires Shaped(k) && k.current !in k.terminating
    ensures BlockCurrent(k, ticks, indefinitely).terminating == k.terminating
  {
    hide TakeOut, InsertSorted, Wrap;
    var t := k.current;
    MakeReadyTerminating(k.(tcbs := k.tcbs[t := k.tcbs[t].(delayAborted := false)]), t);
  }

  lemma {:induction false} BlockTerminating(k: State, op: Op)
    requires Inv(k) && Known(k) && CanSelect(k) && Enabled(k, op)
    requires op.Block? || op.BlockEvent? || op.AwaitNotification?
    ensures Step(k, op).terminating == k.terminating
  {
    hide InvFrom, BlockCurrent, CanSelect, IsReady;
    ReadyLives(k);
    BlockedTerminating(k, op.ticks, if op.Block? then op.indefinitely else true);
    BlockedTerminating(k.(tcbs := k.tcbs[k.current := k.tcbs[k.current].(awaitsNotification := true)]), op.ticks, true);
  }

  lemma {:induction false} ReadyLives(k: State)
    requires Inv(k) && Shaped(k) && IsReady(k, k.current)
    ensures k.current !in k.terminating
  {
    hide Partitioned;
    OnExactlyOneList(k, {}, k.current, k.tick + 1);
  }

  lemma {:induction false} GiveTerminating(k: State, waiter: Option<Task>)
    requires Inv(k) && Known(k) && CanSelect(k) && Enabled(k, GiveMutex(waiter))
    ensures Step(k, GiveMutex(waiter)).terminating == k.terminating
  {
    hide InvFrom, CanSelect, IsReady, Disinherit, MakeReady;
    DisinheritSuspended(k);
    if waiter.Some? {
      WaiterLives(k, waiter.value);
      MakeReadyTerminating(Disinherit(k), waiter.value);
    }
  }

  /** A task that deletes itself waits to be freed; the idle task frees those in that order. */
  lemma {:induction false} StepTerminating(k: State, op: Op)
    requires Inv(k) && Known(k) && CanSelect(k) && Enabled(k, op)
    ensures Step(k, op).terminating == (if op == DeleteTask(k.current) then k.terminating + [k.current]
                                        else if op.IdleCleanUp? then k.terminating[1..] else k.terminating)
  {
    hide InvFrom, CanSelect, TickNow, ResumeAll, HighestBelow, IsBlocked, IsReady, BitSurvives, BlockCurrent,
      BlockOnEvent, BlockOnNotification, RemoveFromEventList, RemoveFromUnorderedEventList, AbortDelay, Notify, Resume,
      Delete, Suspend, PrioritySet, Inherit, Give, DisinheritAfterTimeout, InsertEnd;
    if op.Tick? {
      TickIdles(k);
    } else if op.ResumeScheduler? {
      ResumeTerminating(k);
    } else if op.UnblockEvent? || op.UnblockUnordered? || op.Abort? || op.NotifyTask? || op.ResumeTask? {
      WakeTerminating(k, op);
    } else if op.DeleteTask? || op.SuspendTask? {
      LeaveTerminating(k, op);
    } else if op.Block? || op.BlockEvent? || op.AwaitNotification? {
      BlockTerminating(k, op);
    } else if op.SetPriority? || op.TakeMutex? || op.InheritFor? || op.TimeoutDisinherit? {
      PriorityWaiting(k, op);
    } else if op.GiveMutex? {
      GiveTerminating(k, op.waiter);
    }
  }
}
