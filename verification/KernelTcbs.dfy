/**
 * What each step does to task control blocks, to the nesting of scheduler suspensions and to the
 * running task, told from the state before it.
 */
module KernelTcbs {
  import opened Ticks
  import opened Rings
  import opened Tasks
  import opened Kernel
  import opened KernelInvariant
  import opened KernelRuns
  import opened KernelTime
  import opened KernelReady
  import opened KernelEffects
  import opened KernelLists

  // ----- task control blocks after a step -----

  /** Which tasks are known after the step. */
  predicate LiveAfter(k: State, op: Op, u: Task) {
    match op
    case CreateTask(t, _) => u in k.tcbs || u == t
    case DeleteTask(t) => u in k.tcbs && (u != t || t == k.current)
    case IdleCleanUp => u in k.tcbs && k.terminating != [] && u != k.terminating[0]
    case _ => u in k.tcbs
  }

  function Max(a: nat, b: nat): nat {
    if a < b then b else a
  }

  /** What the step makes of the TCB of `u`. */
  function TcbAfter(k: State, op: Op, u: Task): Tcb
    requires u in k.tcbs && k.current in k.tcbs
  {
    var tcb := k.tcbs[u];
    match op
    case AwaitNotification(d) =>
      if u == k.current then tcb.(awaitsNotification := true, delayAborted := tcb.delayAborted && d == 0) else tcb
    case Abort(t) =>
      if u == t && IsBlocked(k, t) then
        tcb.(delayAborted := tcb.delayAborted || t in k.eventWaiters || t in k.pending)
      else tcb
    case InheritFor(t) => if u == t then tcb.(priority := Max(tcb.priority, Prio(k, k.current))) else tcb
    case SetPriority(t, p) =>
      if u == t then
        tcb.(base := Clamped(p), priority := if tcb.priority == tcb.base then Clamped(p) else tcb.priority)
      else tcb
    case GiveMutex(_) =>
      if u == k.current then
        tcb.(mutexesHeld := Pred(tcb.mutexesHeld),
             priority := if tcb.mutexesHeld <= 1 then tcb.base else tcb.priority)
      else tcb
    case TimeoutDisinherit(t, w) =>
      if u == t && tcb.mutexesHeld == 1 then tcb.(priority := Max(tcb.base, w)) else tcb
    case TakeMutex => if u == k.current then tcb.(mutexesHeld := tcb.mutexesHeld + 1) else tcb
    case Block(_, _) => if u == k.current then tcb.(delayAborted := false) else tcb
    case BlockEvent(_) => if u == k.current then tcb.(delayAborted := false) else tcb
    case NotificationSeen => if u == k.current then tcb.(awaitsNotification := false) else tcb
    case NotifyTask(t) => if u == t then tcb.(awaitsNotification := false) else tcb
    case SuspendTask(t) => if u == t then tcb.(awaitsNotification := false) else tcb
    case _ => tcb
  }

  lemma {:induction false} WakeTcbs(k: State, op: Op, u: Task)
    requires Known(k) && CanSelect(k) && Enabled(k, op)
    requires op.UnblockEvent? || op.UnblockUnordered? || op.Abort? || op.NotifyTask? || op.ResumeTask?
    ensures u in Step(k, op).tcbs <==> LiveAfter(k, op, u)
    ensures u in k.tcbs ==> Step(k, op).tcbs[u] == TcbAfter(k, op, u)
  {
    hide MakeReady, CanSelect, IsReady, IsBlocked;
    MakeReadyReady(k, op.t);
    MakeReadyReady(k.(tcbs := k.tcbs[op.t := k.tcbs[op.t].(awaitsNotification := false)]), op.t);
  }

  lemma {:induction false} RebasedTcbs(k: State, t: Task, p: nat)
    requires Shaped(k) && t in k.tcbs
    ensures PrioritySet(k, t, Clamped(p)).tcbs == k.tcbs[t := TcbAfter(k, SetPriority(t, p), t)]
  {
    hide Reprioritise;
    ReprioritiseFrame(k, t, if k.tcbs[t].base == k.tcbs[t].priority then Clamped(p) else k.tcbs[t].priority);
  }

  lemma {:induction false} TimeoutTcbs(k: State, t: Task, w: nat)
    requires Inv(k) && Shaped(k) && t in k.tcbs && w < PRIORITIES
    ensures DisinheritAfterTimeout(k, t, w).tcbs == k.tcbs[t := TcbAfter(k, TimeoutDisinherit(t, w), t)]
  {
    hide InvFrom, DisinheritAfterTimeout;
    TimeoutWaiting(k, t, w);
  }

  lemma {:induction false} PriorityTcbs(k: State, op: Op, u: Task)
    requires Inv(k) && Known(k) && CanSelect(k) && Enabled(k, op)
    requires op.SetPriority? || op.TakeMutex? || op.InheritFor? || op.TimeoutDisinherit?
    ensures u in Step(k, op).tcbs <==> LiveAfter(k, op, u)
    ensures u in k.tcbs ==> Step(k, op).tcbs[u] == TcbAfter(k, op, u)
  {
    hide InvFrom, Reprioritise, CanSelect, IsReady, BitSurvives, PrioritySet, DisinheritAfterTimeout;
    match op
    case SetPriority(t, p) => RebasedTcbs(k, t, p);
    case TakeMutex =>
    case InheritFor(t) => ReprioritiseFrame(k, t, Prio(k, k.current));
    case TimeoutDisinherit(t, w) => TimeoutTcbs(k, t, w);
  }

  lemma {:induction false} GiveTcbs(k: State, waiter: Option<Task>, u: Task)
    requires Inv(k) && Known(k) && CanSelect(k) && Enabled(k, GiveMutex(waiter))
    ensures u in Step(k, GiveMutex(waiter)).tcbs <==> u in k.tcbs
    ensures u in k.tcbs ==> Step(k, GiveMutex(waiter)).tcbs[u] == TcbAfter(k, GiveMutex(waiter), u)
  {
    hide InvFrom, Disinherit, CanSelect, IsReady, MakeReady;
    DisinheritTcbs(k);
    if waiter.Some? {
      MakeReadyReady(Disinherit(k), waiter.value);
    }
  }

  lemma {:induction false} DisinheritTcbs(k: State)
    requires Shaped(k)
    ensures Disinherit(k).tcbs == k.tcbs[k.current := TcbAfter(k, GiveMutex(None), k.current)]
  {
    hide Reprioritise;
    var tcb := k.tcbs[k.current].(mutexesHeld := Pred(k.tcbs[k.current].mutexesHeld));
    ReprioritiseFrame(k.(tcbs := k.tcbs[k.current := tcb]), k.current, tcb.base);
  }

  lemma {:induction false} BlockTcbs(k: State, op: Op, u: Task)
    requires Known(k) && CanSelect(k) && Enabled(k, op)
    requires op.Block? || op.BlockEvent? || op.AwaitNotification?
    ensures u in Step(k, op).tcbs <==> LiveAfter(k, op, u)
    ensures u in k.tcbs ==> Step(k, op).tcbs[u] == TcbAfter(k, op, u)
  {
    hide BlockCurrent, CanSelect, IsReady;
    BlockCurrentFrame(k, op.ticks, if op.Block? then op.indefinitely else true);
    BlockCurrentFrame(k.(tcbs := k.tcbs[k.current := k.tcbs[k.current].(awaitsNotification := true)]), op.ticks, true);
  }

  lemma {:induction false} OtherTcbs(k: State, op: Op, u: Task)
    requires Inv(k) && Known(k) && CanSelect(k) && Enabled(k, op)
    requires op.Yield? || op.NotificationSeen? || op.SuspendScheduler? || op.CreateTask? || op.IdleCleanUp?
             || op.DeleteTask? || op.SuspendTask?
    ensures u in Step(k, op).tcbs <==> LiveAfter(k, op, u)
    ensures u in k.tcbs && LiveAfter(k, op, u) ==> Step(k, op).tcbs[u] == TcbAfter(k, op, u)
  {
    hide InvFrom, InsertEnd, Withdraw, Drop, Wrap, IsReady, CanSelect;
  }

  /** Every step's effect on priorities, on held mutexes, on flags and on who is a task at all. */
  lemma {:induction false} StepTcbs(k: State, op: Op, u: Task)
    requires Inv(k) && Known(k) && CanSelect(k) && Enabled(k, op)
    ensures u in Step(k, op).tcbs <==> LiveAfter(k, op, u)
    ensures u in k.tcbs && LiveAfter(k, op, u) ==> Step(k, op).tcbs[u] == TcbAfter(k, op, u)
    ensures op.CreateTask? ==> Step(k, op).tcbs[op.t] == Tcb(Clamped(op.p), Clamped(op.p), 0, false, false)
  {
    hide InvFrom, CanSelect, TickIsr, ResumeAll, SwitchContext, IsBlocked, IsReady, BitSurvives, BlockCurrent,
      BlockOnEvent, BlockOnNotification, RemoveFromEventList, RemoveFromUnorderedEventList, AbortDelay, Notify, Resume,
      Delete, CleanUp, Suspend, PrioritySet, Inherit, Give, DisinheritAfterTimeout, PutReady;
    if op.Tick? || op.ResumeScheduler? || op.Switch? {
      TimeTcbs(k);
    } else if op.UnblockEvent? || op.UnblockUnordered? || op.Abort? || op.NotifyTask? || op.ResumeTask? {
      WakeTcbs(k, op, u);
    } else if op.Block? || op.BlockEvent? || op.AwaitNotification? {
      BlockTcbs(k, op, u);
    } else if op.SetPriority? || op.TakeMutex? || op.InheritFor? || op.TimeoutDisinherit? {
      PriorityTcbs(k, op, u);
    } else if op.GiveMutex? {
      GiveTcbs(k, op.waiter, u);
    } else {
      OtherTcbs(k, op, u);
    }
  }

  // ----- the nesting of suspensions and the running task -----

  lemma {:induction false} ResumedCurrent(k: State)
    requires Inv(k) && Known(k) && k.suspensions > 0
    ensures ResumeAll(k).suspensions == k.suspensions - 1 && ResumeAll(k).current == k.current
  {
    hide InvFrom, Drain, Replay, Wrap;
    if k.suspensions == 1 {
      ResumeAllTime(k);
    }
  }

  lemma {:induction false} MutexKeepsCurrent(k: State, op: Op)
    requires Known(k) && CanSelect(k) && Enabled(k, op)
    requires op.SetPriority? || op.TakeMutex? || op.InheritFor? || op.GiveMutex? || op.TimeoutDisinherit?
    ensures Step(k, op).current == k.current && Step(k, op).suspensions == k.suspensions
  {
    hide TakeOut, PutReady, Unready, Reprioritise, Disinherit, Drop, CanSelect, BitSurvives, TimeoutLowers, IsReady;
  }

  lemma {:induction false} CallKeepsCurrent(k: State, op: Op)
    requires Known(k) && CanSelect(k) && Enabled(k, op) && !op.Tick? && !op.ResumeScheduler? && !op.Switch?
    requires !op.SetPriority? && !op.TakeMutex? && !op.InheritFor? && !op.GiveMutex? && !op.TimeoutDisinherit?
    ensures Step(k, op).current == k.current
    ensures Step(k, op).suspensions == if op.SuspendScheduler? then k.suspensions + 1 else k.suspensions
  {
    hide TakeOut, PutReady, PutToSleep, Withdraw, Drop, Wrap, CanSelect, IsReady, IsBlocked;
  }

  /** Calls to suspend and resume the scheduler nest, and only a switch with it running changes the running task. */
  lemma {:induction false} StepNests(k: State, op: Op)
    requires Inv(k) && Known(k) && CanSelect(k) && Enabled(k, op)
    ensures Step(k, op).suspensions == (if op.SuspendScheduler? then k.suspensions + 1
                                        else if op.ResumeScheduler? then k.suspensions - 1 else k.suspensions)
    ensures !(op.Switch? && k.suspensions == 0) ==> Step(k, op).current == k.current
  {
    hide InvFrom, ResumeAll, TickNow, CanSelect, Known, Highest, Wrap;
    if op.Tick? {
      TickTime(k);
    } else if op.ResumeScheduler? {
      ResumedCurrent(k);
    } else if op.Switch? {
    } else if op.SetPriority? || op.TakeMutex? || op.InheritFor? || op.GiveMutex? || op.TimeoutDisinherit? {
      MutexKeepsCurrent(k, op);
    } else {
      CallKeepsCurrent(k, op);
    }
  }
}
