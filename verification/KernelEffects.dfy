/**
 * What each step is for, told from the state before it: which tasks it makes ready and which it
 * takes off their ready lists.
 */
module KernelEffects {
  import opened Ticks
  import opened Rings
  import opened Tasks
  import opened Kernel
  import opened KernelInvariant
  import opened KernelRuns
  import opened KernelTime
  import opened KernelReady
  import KernelPreemption
  import KernelStale

  // ----- tasks that no tick concerns -----

  /** Suspended or waiting to be freed, and not about to be readied by resuming the scheduler. */
  ghost predicate Idles(k: State, t: Task) {
    (t in k.suspended || t in k.terminating) && t !in k.pending
  }

  lemma {:induction false} ExpireIdles(k: State)
    requires Known(k)
    ensures Expire(k).0.suspended == k.suspended && Expire(k).0.terminating == k.terminating
    decreases |k.delayed|
  {
    hide WakeHead, Known;
    if k.delayed != [] && k.tick >= k.delayed[0].value {
      KernelStale.WakeHeadKnown(k);
      WakeHeadIdles(k);
      ExpireIdles(WakeHead(k));
    }
  }

  lemma {:induction false} WakeHeadIdles(k: State)
    requires Known(k) && k.delayed != []
    ensures WakeHead(k).suspended == k.suspended && WakeHead(k).terminating == k.terminating
  {
    hide InsertEnd, Drop;
  }

  lemma {:induction false} TickIdles(k: State)
    requires Known(k)
    ensures TickNow(k).0.suspended == k.suspended && TickNow(k).0.terminating == k.terminating
  {
    hide Expire, Wrap;
    ExpireIdles(AdvanceTick(k));
  }

  lemma {:induction false} ReplayIdles(k: State, n: nat)
    requires Known(k)
    ensures Replay(k, n).suspended == k.suspended && Replay(k, n).terminating == k.terminating
    decreases n
  {
    hide TickNow;
    if n > 0 {
      TickIdles(k);
      ReplayIdles(Pend(TickNow(k).0, TickNow(k).1), n - 1);
    }
  }

  lemma {:induction false} DrainIdles(k: State, t: Task)
    requires Inv(k) && Known(k) && k.suspensions > 0 && Idles(k, t)
    ensures (t in k.suspended ==> t in Drain(k).suspended) && (t in k.terminating ==> t in Drain(k).terminating)
    decreases |k.pending|
  {
    hide InvFrom, Known, DrainOne;
    if k.pending != [] {
      DrainOneInv(k);
      KernelStale.DrainOneShrinks(k);
      DrainOneIdles(k, t);
      DrainIdles(DrainOne(k), t);
    }
  }

  lemma {:induction false} DrainOneIdles(k: State, t: Task)
    requires Known(k) && k.pending != [] && Idles(k, t)
    ensures Idles(DrainOne(k), t)
    ensures (t in k.suspended ==> t in DrainOne(k).suspended) && (t in k.terminating ==> t in DrainOne(k).terminating)
  {
    hide RemoveAt, IndexOf, InsertEnd, Drop, DropItem, IsReady;
    var u := k.pending[0];
    assert u in k.pending;
    KernelStale.DrainOneShrinks(k);
    DropMember(k.suspended, u, t);
    DropMember(k.terminating, u, t);
  }

  lemma {:induction false} ResumeIdles(k: State, t: Task)
    requires Inv(k) && Known(k) && k.suspensions > 0 && Idles(k, t)
    ensures t in k.suspended ==> t in ResumeAll(k).suspended
    ensures t in k.terminating ==> t in ResumeAll(k).terminating
  {
    hide InvFrom, Drain, Replay, Wrap;
    if k.suspensions == 1 {
      DrainIdles(k, t);
      var k1 := Drain(k);
      var k2 := if k.pending == [] then k1 else ResetUnblock(k1);
      ReplayIdles(k2.(suspensions := 0, pendedTicks := 0), k.pendedTicks);
    }
  }

  // ----- where a task is -----

  lemma {:induction false} DelayedWakes(k: State, l: seq<Item<Task>>, t: Task)
    requires WakeTimesFrom(k, 0) && t in Owners(l) && (l == k.delayed || l == k.overflow)
    ensures exists w: nat :: WakesAt(k, t, w)
  {
    hide Epoch, Wrap, WakesAt;
    var i :| 0 <= i < |l| && Owners(l)[i] == t;
    var v: Tick := l[i].value;
    var w := if l == k.delayed then At(k.overflows, v) else At(k.overflows + 1, v);
    AtUnique(if l == k.delayed then k.overflows else k.overflows + 1, v);
    assert l[i] == Item(t, Wrap(w));
    ItemWakes(k, t, w, l);
  }

  lemma {:induction false} ItemWakes(k: State, t: Task, w: nat, l: seq<Item<Task>>)
    requires Item(t, Wrap(w)) in l
    requires (l == k.delayed && Epoch(w) == k.overflows) || (l == k.overflow && Epoch(w) == k.overflows + 1)
    ensures WakesAt(k, t, w)
  {
    hide Epoch, Wrap;
  }

  /** Every task is ready, delayed until some time, suspended or waiting to be freed. */
  lemma {:induction false} Whereabouts(k: State, t: Task)
    requires Inv(k) && t in k.tcbs
    ensures OnOwnReadyList(k, t) || (exists w: nat :: WakesAt(k, t, w)) || t in k.suspended || t in k.terminating
  {
    hide WakesAt, Partitioned;
    OnExactlyOneList(k, {}, t, k.tick + 1);
    if t in Owners(k.delayed) {
      DelayedWakes(k, k.delayed, t);
    } else if t in Owners(k.overflow) {
      DelayedWakes(k, k.overflow, t);
    }
  }

  lemma {:induction false} IdlesUnready(k: State, t: Task)
    requires Inv(k) && (t in k.suspended || t in k.terminating)
    ensures !OnOwnReadyList(k, t)
  {
    hide Partitioned;
    OnExactlyOneList(k, {}, t, k.tick + 1);
  }

  // ----- who is ready after a step -----

  /** vTaskResume finds `t` suspended rather than waiting for an event without a time limit. */
  predicate Resumable(k: State, t: Task) {
    t != k.current && t in k.suspended && t !in k.pending && t !in k.eventWaiters
  }

  /** Whether `u` is ready after the step, told from the state before it. */
  ghost predicate ReadyAfter(k: State, op: Op, u: Task)
    requires Known(k) && Enabled(k, op)
  {
    var was := OnOwnReadyList(k, u);
    match op
    case Tick => was || (k.suspensions == 0 && WakesAt(k, u, Now(k) + 1))
    case ResumeScheduler =>
      was
      || (k.suspensions == 1
          && (u in k.pending || exists w: nat :: WakesAt(k, u, w) && w <= Now(k) + k.pendedTicks))
    case Block(_, _) => was && u != k.current
    case BlockEvent(_) => was && u != k.current
    case AwaitNotification(d) => was && (d == 0 || u != k.current)
    case UnblockEvent(t) => was || (u == t && k.suspensions == 0)
    case UnblockUnordered(t) => was || u == t
    case Abort(t) => was || (u == t && IsBlocked(k, t))
    case NotifyTask(t) => was || (u == t && k.tcbs[t].awaitsNotification)
    case CreateTask(t, _) => was || u == t
    case DeleteTask(t) => was && u != t
    case SuspendTask(t) => was && u != t
    case ResumeTask(t) => was || (u == t && Resumable(k, t))
    case GiveMutex(waiter) => was || (waiter == Some(u) && k.suspensions == 0)
    case _ => was
  }

  /** A processed tick readies exactly the tasks due at it. */
  lemma {:induction false} TickNowReadies(k: State, u: Task)
    requires Inv(k) && Known(k)
    ensures OnOwnReadyList(TickNow(k).0, u) <==> OnOwnReadyList(k, u) || WakesAt(k, u, Now(k) + 1)
  {
    hide InvFrom, TickNow, WakesAt, Known, Shaped, IsReady;
    TickNowInv(k);
    InvShape(TickNow(k).0);
    if WakesAt(k, u, Now(k) + 1) {
      WakesLater(k, u, Now(k) + 1);
      TickWakesExactly(k, u, Now(k) + 1);
    } else if OnOwnReadyList(k, u) {
      TickKeepsReady(k, u);
    } else if u in k.tcbs {
      TickLeavesAsleep(k, u);
    }
  }

  lemma {:induction false} TickReadies(k: State, u: Task)
    requires Inv(k) && Known(k) && CanSelect(k)
    ensures OnOwnReadyList(Step(k, Tick), u) <==> ReadyAfter(k, Tick, u)
  {
    hide InvFrom, TickNow, WakesAt, CanSelect, OnOwnReadyList;
    if k.suspensions == 0 {
      TickNowReadies(k, u);
      SameReadyTask(TickNow(k).0, Step(k, Tick), u);
    } else {
      SameReadyTask(k, Step(k, Tick), u);
    }
  }

  lemma {:induction false} SameReadyTask(k: State, k': State, u: Task)
    requires k'.tcbs == k.tcbs && k'.ready == k.ready
    ensures OnOwnReadyList(k', u) == OnOwnReadyList(k, u)
  {
  }

  /** A tick readies nobody but the tasks due at it. */
  lemma {:induction false} TickLeavesAsleep(k: State, u: Task)
    requires Inv(k) && Known(k) && u in k.tcbs && !OnOwnReadyList(k, u) && !WakesAt(k, u, Now(k) + 1)
    ensures !OnOwnReadyList(TickNow(k).0, u)
  {
    hide InvFrom, TickNow, WakesAt, Known, IsReady;
    TickNowInv(k);
    Whereabouts(k, u);
    if w: nat :| WakesAt(k, u, w) {
      TickWakesExactly(k, u, w);
      WakesLater(TickNow(k).0, u, w);
      InvShape(TickNow(k).0);
    } else {
      TickIdles(k);
      IdlesUnready(TickNow(k).0, u);
    }
  }

  lemma {:induction false} ResumeReadies(k: State, u: Task)
    requires Inv(k) && Known(k) && CanSelect(k) && k.suspensions > 0
    ensures OnOwnReadyList(Step(k, ResumeScheduler), u) <==> ReadyAfter(k, ResumeScheduler, u)
  {
    hide InvFrom, ResumeAll, WakesAt, CanSelect, Known, Shaped, IsReady;
    ResumeAllInv(k);
    InvShape(ResumeAll(k));
    if k.suspensions > 1 {
      NestedResume(k);
      SameReadyTask(k, ResumeAll(k), u);
    } else if u in k.pending {
      ResumeAllReadies(k, u);
      ResumeAllTime(k);
    } else if OnOwnReadyList(k, u) {
      ResumeKeepsReady(k, u);
    } else if w: nat :| WakesAt(k, u, w) && w <= Now(k) + k.pendedTicks {
      ResumeAllWakes(k, u, w);
      ResumeAllTime(k);
    } else if u in k.tcbs {
      ResumeLeavesAsleep(k, u);
    } else {
      ResumeAllTime(k);
    }
  }

  lemma {:induction false} NestedResume(k: State)
    requires Known(k) && k.suspensions > 1
    ensures ResumeAll(k) == k.(suspensions := k.suspensions - 1)
  {
  }

  lemma {:induction false} ResumeKeepsReady(k: State, u: Task)
    requires Inv(k) && k.suspensions == 1 && OnOwnReadyList(k, u)
    ensures Known(k) && OnOwnReadyList(ResumeAll(k), u)
  {
    hide InvFrom, Drain, Replay, ResumeAll;
    ResumeAllTime(k);
    DrainedInv(k);
    DrainExact(k, u);
    ReplayKeepsReady(Drained(k), k.pendedTicks, u);
  }

  lemma {:induction false} ResumeLeavesAsleep(k: State, u: Task)
    requires Inv(k) && Known(k) && k.suspensions == 1 && u in k.tcbs && u !in k.pending && !OnOwnReadyList(k, u)
    requires forall w: nat :: WakesAt(k, u, w) ==> w > Now(k) + k.pendedTicks
    ensures !OnOwnReadyList(ResumeAll(k), u)
  {
    hide InvFrom, ResumeAll, WakesAt, Known, IsReady;
    ResumeAllInv(k);
    Whereabouts(k, u);
    if w: nat :| WakesAt(k, u, w) {
      ResumeAllWakes(k, u, w);
      WakesLater(ResumeAll(k), u, w);
      InvShape(ResumeAll(k));
    } else {
      ResumeIdles(k, u);
      IdlesUnready(ResumeAll(k), u);
    }
  }

  lemma {:induction false} BlockCurrentReady(k: State, ticks: Tick, indefinitely: bool)
    requires Inv(k) && Shaped(k) && IsReady(k, k.current) && k.current != IDLE && ticks > 0
    ensures var k' := BlockCurrent(k, ticks, indefinitely);
            && Inv(k') && Shaped(k') && OthersSame(k, k', k.current) && k.current in k'.tcbs && !IsReady(k', k.current)
  {
    hide InvFrom, TakeOut, PutToSleep, IsReady;
    var t, tcb := k.current, k.tcbs[k.current].(delayAborted := false);
    var k1, k' := k.(tcbs := k.tcbs[t := tcb]), BlockCurrent(k, ticks, indefinitely);
    BlockCurrentInv(k, ticks, indefinitely);
    BlockCurrentFrame(k, ticks, indefinitely);
    InvShape(k');
    TakeOutReady(k1, t);
    forall u | u in k.tcbs && u != t ensures IsReady(k', u) == IsReady(k, u) {
      KernelPreemption.SameReady(k, k1, u);
      KernelPreemption.SameReady(TakeOut(k1, t), k', u);
    }
    AsleepUnready(k', t);
  }

  lemma {:induction false} BlockReadies(k: State, op: Op, u: Task)
    requires Inv(k) && Known(k) && CanSelect(k) && Enabled(k, op)
    requires op.Block? || op.BlockEvent? || op.AwaitNotification?
    ensures OnOwnReadyList(Step(k, op), u) <==> ReadyAfter(k, op, u)
  {
    hide InvFrom, BlockCurrent, CanSelect, IsReady;
    var k1 := if op.AwaitNotification?
    then k.(tcbs := k.tcbs[k.current := k.tcbs[k.current].(awaitsNotification := true)]) else k;
    if op.ticks == 0 {
      KernelPreemption.SameReady(k, k1, k.current);
      if u in k.tcbs {
        KernelPreemption.SameReady(k, k1, u);
      }
    } else {
      AwaitingInv(k, k1);
      KernelPreemption.SameReady(k, k1, k.current);
      var indefinitely := if op.Block? then op.indefinitely else true;
      BlockCurrentReady(k1, op.ticks, indefinitely);
      BlockCurrentFrame(k1, op.ticks, indefinitely);
      SameReadyTask(BlockCurrent(k1, op.ticks, indefinitely), Step(k, op), u);
      if u in k.tcbs {
        KernelPreemption.SameReady(k, k1, u);
      }
    }
  }

  lemma {:induction false} AwaitingInv(k: State, k1: State)
    requires Inv(k) && Shaped(k) && IsReady(k, k.current)
    requires k1 == k || k1 == k.(tcbs := k.tcbs[k.current := k.tcbs[k.current].(awaitsNotification := true)])
    ensures Inv(k1) && Shaped(k1)
  {
    OnExactlyOneList(k, {}, k.current, k.tick + 1);
    if k1 != k {
      TcbInv(k, k.current, k.tcbs[k.current].(awaitsNotification := true));
    }
  }

  lemma {:induction false} EventReadies(k: State, op: Op, u: Task)
    requires Inv(k) && Known(k) && CanSelect(k) && Enabled(k, op) && (op.UnblockEvent? || op.UnblockUnordered?)
    ensures OnOwnReadyList(Step(k, op), u) <==> ReadyAfter(k, op, u)
  {
    hide InvFrom, MakeReady, CanSelect, IsReady;
    MakeReadyReady(k, op.t);
    var k' := if op.UnblockEvent? && k.suspensions > 0 then k else MakeReady(k, op.t);
    SameReadyTask(k', Step(k, op), u);
  }

  lemma {:induction false} AbortReadies(k: State, t: Task, u: Task)
    requires Inv(k) && Known(k) && CanSelect(k) && Enabled(k, Abort(t))
    ensures OnOwnReadyList(Step(k, Abort(t)), u) <==> ReadyAfter(k, Abort(t), u)
  {
    hide InvFrom, MakeReady, CanSelect, IsReady, IsBlocked;
    if IsBlocked(k, t) {
      MakeReadyReady(k, t);
      SameLooks(MakeReady(k, t), Step(k, Abort(t)), u);
    }
  }

  lemma {:induction false} NotifyReadies(k: State, t: Task, u: Task)
    requires Inv(k) && Known(k) && CanSelect(k) && Enabled(k, NotifyTask(t))
    ensures OnOwnReadyList(Step(k, NotifyTask(t)), u) <==> ReadyAfter(k, NotifyTask(t), u)
  {
    hide InvFrom, MakeReady, CanSelect, IsReady;
    var k1 := k.(tcbs := k.tcbs[t := k.tcbs[t].(awaitsNotification := false)]);
    SameLooks(k, k1, u);
    if k.tcbs[t].awaitsNotification {
      MakeReadyReady(k1, t);
      SameReadyTask(MakeReady(k1, t), Step(k, NotifyTask(t)), u);
    }
  }

  lemma {:induction false} ResumedReadies(k: State, t: Task, u: Task)
    requires Inv(k) && Known(k) && CanSelect(k) && Enabled(k, ResumeTask(t))
    ensures OnOwnReadyList(Step(k, ResumeTask(t)), u) <==> ReadyAfter(k, ResumeTask(t), u)
  {
    hide InvFrom, MakeReady, CanSelect, IsReady;
    if Resumable(k, t) {
      MakeReadyReady(k, t);
      SameReadyTask(MakeReady(k, t), Step(k, ResumeTask(t)), u);
    }
  }

  lemma {:induction false} SameLooks(k: State, k': State, u: Task)
    requires k'.ready == k.ready && k'.tcbs.Keys == k.tcbs.Keys
    requires forall t :: t in k.tcbs ==> Prio(k', t) == Prio(k, t)
    ensures OnOwnReadyList(k', u) == OnOwnReadyList(k, u)
  {
  }

  lemma {:induction false} CreateReadies(k: State, op: Op, u: Task)
    requires Inv(k) && Known(k) && CanSelect(k) && Enabled(k, op) && op.CreateTask?
    ensures OnOwnReadyList(Step(k, op), u) <==> ReadyAfter(k, op, u)
  {
    hide InvFrom, PutReady, CanSelect;
    var p := Clamped(op.p);
    var k1 := k.(tcbs := k.tcbs[op.t := Tcb(p, p, 0, false, false)], taskCount := k.taskCount + 1);
    assert Shaped(k1);
    PutReadyReady(k1, op.t);
    SameReadyTask(PutReady(k1, op.t), Step(k, op), u);
    if u in k.tcbs {
      KernelPreemption.SameReady(k, k1, u);
    }
  }

  lemma {:induction false} LeaveReadies(k: State, op: Op, u: Task)
    requires Inv(k) && Known(k) && CanSelect(k) && Enabled(k, op)
    requires op.DeleteTask? || op.SuspendTask? || op.IdleCleanUp?
    ensures OnOwnReadyList(Step(k, op), u) <==> ReadyAfter(k, op, u)
  {
    hide InvFrom, TakeOut, CanSelect, IsReady, Withdraw, Drop, Wrap;
    StepInv(k, op);
    InvShape(Step(k, op));
    if op.IdleCleanUp? {
      FreedUnready(k);
      if u in k.tcbs && u != k.terminating[0] {
        KernelPreemption.SameReady(k, Step(k, op), u);
      }
    } else {
      WithdrawIsTakeOut(k, op.t);
      TakeOutReady(DropEvent(k, op.t), op.t);
      LeaverUnready(k, op);
      if u in k.tcbs && u != op.t {
        KernelPreemption.SameReady(k, DropEvent(k, op.t), u);
        KernelPreemption.SameReady(TakeOut(DropEvent(k, op.t), op.t), Step(k, op), u);
      }
    }
  }

  lemma {:induction false} FreedUnready(k: State)
    requires Inv(k) && k.terminating != []
    ensures !OnOwnReadyList(k, k.terminating[0])
  {
    hide Partitioned;
    OnExactlyOneList(k, {}, k.terminating[0], k.tick + 1);
  }

  /** A task that is suspended or deleted is on no ready list afterwards. */
  lemma {:induction false} LeaverUnready(k: State, op: Op)
    requires Inv(k) && Known(k) && CanSelect(k) && Enabled(k, op) && (op.DeleteTask? || op.SuspendTask?)
    requires Inv(Step(k, op))
    ensures !OnOwnReadyList(Step(k, op), op.t)
  {
    hide InvFrom, Withdraw, CanSelect, Wrap, Drop, Known;
    if op.t in Step(k, op).tcbs {
      IdlesUnready(Step(k, op), op.t);
    }
  }

  lemma {:induction false} PriorityReadies(k: State, op: Op, u: Task)
    requires Inv(k) && Known(k) && CanSelect(k) && Enabled(k, op)
    requires op.SetPriority? || op.TakeMutex? || op.InheritFor? || op.TimeoutDisinherit?
    ensures OnOwnReadyList(Step(k, op), u) <==> ReadyAfter(k, op, u)
  {
    hide InvFrom, Reprioritise, CanSelect, IsReady, DisinheritAfterTimeout, BitSurvives, PrioritySet;
    match op
    case SetPriority(t, p) => RebasedReadies(k, t, Clamped(p), u);
    case TakeMutex => SameLooks(k, Step(k, op), u);
    case InheritFor(t) =>
      ReprioritiseReady(k, t, Prio(k, k.current));
      ReprioritiseFrame(k, t, Prio(k, k.current));
    case TimeoutDisinherit(t, w) => TimeoutReadies(k, t, w);
  }

  lemma {:induction false} RebasedReadies(k: State, t: Task, p: nat, u: Task)
    requires Inv(k) && Shaped(k) && t in k.tcbs && p < PRIORITIES
    ensures OnOwnReadyList(PrioritySet(k, t, p), u) == OnOwnReadyList(k, u)
  {
    hide InvFrom, Reprioritise, IsReady;
    var tcb := k.tcbs[t];
    if tcb.base != p {
      var q := if tcb.base == tcb.priority then p else tcb.priority;
      ReprioritiseReady(k, t, q);
      ReprioritiseFrame(k, t, q);
      SameLooks(Reprioritise(k, t, q), PrioritySet(k, t, p), u);
    }
  }

  lemma {:induction false} TimeoutReadies(k: State, t: Task, w: nat)
    requires Inv(k) && Shaped(k) && t in k.tcbs && w < PRIORITIES && BitSurvives(k, t, w)
    ensures var k' := DisinheritAfterTimeout(k, t, w);
            Shaped(k') && k'.tcbs.Keys == k.tcbs.Keys && forall u :: u in k.tcbs ==> IsReady(k', u) == IsReady(k, u)
  {
    hide InvFrom, Reprioritise, IsReady;
    if TimeoutLowers(k, t, w) {
      var p := TimeoutPriority(k.tcbs[t], w);
      TimeoutIsReprioritise(k, t, w);
      assert BitSurvives(k, t, w) && DisinheritAfterTimeout(k, t, w).bitmap == Reprioritise(k, t, p).bitmap;
      ReprioritiseReady(k, t, p);
      ReprioritiseFrame(k, t, p);
    }
  }

  lemma {:induction false} GiveReadies(k: State, waiter: Option<Task>, u: Task)
    requires Inv(k) && Known(k) && CanSelect(k) && Enabled(k, GiveMutex(waiter))
    ensures OnOwnReadyList(Step(k, GiveMutex(waiter)), u) <==> ReadyAfter(k, GiveMutex(waiter), u)
  {
    hide InvFrom, Disinherit, CanSelect, IsReady, MakeReady;
    var k' := Disinherit(k);
    DisinheritReadies(k, u);
    DisinheritWaiters(k);
    if waiter.Some? && k.suspensions == 0 {
      MakeReadyReady(k', waiter.value);
      SameReadyTask(MakeReady(k', waiter.value), Step(k, GiveMutex(waiter)), u);
    } else {
      SameReadyTask(k', Step(k, GiveMutex(waiter)), u);
    }
  }

  lemma {:induction false} DisinheritReadies(k: State, u: Task)
    requires Inv(k) && Shaped(k)
    ensures OnOwnReadyList(Disinherit(k), u) == OnOwnReadyList(k, u)
  {
    hide InvFrom, Reprioritise, IsReady;
    var t, tcb := k.current, k.tcbs[k.current].(mutexesHeld := Pred(k.tcbs[k.current].mutexesHeld));
    var k1 := k.(tcbs := k.tcbs[t := tcb]);
    HeldInv(k, t, tcb);
    SameLooks(k, k1, u);
    ReprioritiseReady(k1, t, tcb.base);
    ReprioritiseFrame(k1, t, tcb.base);
  }

  lemma {:induction false} HeldInv(k: State, t: Task, tcb: Tcb)
    requires Inv(k) && t in k.tcbs && tcb == k.tcbs[t].(mutexesHeld := tcb.mutexesHeld)
    ensures Inv(k.(tcbs := k.tcbs[t := tcb])) && Shaped(k.(tcbs := k.tcbs[t := tcb]))
  {
    TcbInv(k, t, tcb);
  }

  lemma {:induction false} SwitchReadies(k: State, u: Task)
    requires Inv(k) && Known(k) && CanSelect(k)
    ensures OnOwnReadyList(Step(k, Switch), u) == OnOwnReadyList(k, u)
  {
    hide InvFrom, HighestBelow;
    if k.suspensions == 0 {
      var p := Highest(k.bitmap);
      var r := Advance(k.ready[p]);
      assert r.items == k.ready[p].items;
      assert Step(k, Switch).tcbs == k.tcbs && Step(k, Switch).ready == k.ready[p := r];
    }
  }

  lemma {:induction false} PlainReadies(k: State, op: Op, u: Task)
    requires Inv(k) && Known(k) && CanSelect(k) && Enabled(k, op)
    requires op.Yield? || op.NotificationSeen? || op.SuspendScheduler?
    ensures OnOwnReadyList(Step(k, op), u) <==> ReadyAfter(k, op, u)
  {
    hide InvFrom, CanSelect;
  }

  /**
   * Every step readies exactly the tasks it is for and takes exactly the others it is for off
   * their ready lists: told from the state before it, for every call, tick and switch.
   */
  lemma {:induction false} StepReadies(k: State, op: Op, u: Task)
    requires Inv(k) && Known(k) && CanSelect(k) && Enabled(k, op)
    ensures OnOwnReadyList(Step(k, op), u) <==> ReadyAfter(k, op, u)
  {
    hide InvFrom, Known, CanSelect, Step, WakesAt, OnOwnReadyList, IsBlocked, BitSurvives;
    if op.Tick? {
      TickReadies(k, u);
    } else if op.Switch? {
      SwitchReadies(k, u);
    } else if op.ResumeScheduler? {
      ResumeReadies(k, u);
    } else if op.CreateTask? {
      CreateReadies(k, op, u);
    } else if op.GiveMutex? {
      GiveReadies(k, op.waiter, u);
    } else if op.Block? || op.BlockEvent? || op.AwaitNotification? {
      BlockReadies(k, op, u);
    } else if op.UnblockEvent? || op.UnblockUnordered? {
      EventReadies(k, op, u);
    } else if op.Abort? {
      AbortReadies(k, op.t, u);
    } else if op.NotifyTask? {
      NotifyReadies(k, op.t, u);
    } else if op.ResumeTask? {
      ResumedReadies(k, op.t, u);
    } else if op.DeleteTask? || op.SuspendTask? || op.IdleCleanUp? {
      LeaveReadies(k, op, u);
    } else if op.SetPriority? || op.TakeMutex? || op.InheritFor? || op.TimeoutDisinherit? {
      PriorityReadies(k, op, u);
    } else {
      PlainReadies(k, op, u);
    }
  }
}
