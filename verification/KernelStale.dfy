/**
 * What becomes of a ready bit that is set over an empty list, which the reset in
 * vTaskPriorityDisinheritAfterTimeout can leave behind.
 */
module KernelStale {
  import opened Ticks
  import opened Rings
  import opened Tasks
  import opened Kernel
  import opened KernelInvariant
  import opened KernelRuns

  /** `k` with bit `e` set as well. */
  function Marked(k: State, e: nat): State {
    k.(bitmap := k.bitmap + {e})
  }

  // ----- list primitives -----

  lemma {:induction false} MarkedShape(k: State, e: nat)
    ensures Shaped(k) ==> Shaped(Marked(k, e))
    ensures Known(k) ==> Known(Marked(k, e))
  {
  }

  lemma {:induction false} PutReadyMarked(k: State, e: nat, t: Task)
    requires Shaped(k) && t in k.tcbs
    ensures Shaped(Marked(k, e)) && PutReady(Marked(k, e), t) == Marked(PutReady(k, t), e)
  {
    hide InsertEnd;
    assert k.bitmap + {e} + {Prio(k, t)} == k.bitmap + {Prio(k, t)} + {e};
  }

  lemma {:induction false} UnreadyMarked(k: State, e: nat, p: nat, t: Task)
    requires Shaped(k) && p < PRIORITIES && t in k.ready[p].items && p != e
    ensures Shaped(Marked(k, e)) && Unready(Marked(k, e), p, t) == Marked(Unready(k, p, t), e)
  {
    hide RemoveAt, IndexOf;
    assert k.bitmap + {e} - {p} == k.bitmap - {p} + {e};
  }

  /** `t` is not on ready list `e`. */
  ghost predicate Off(k: State, e: nat, t: Task)
    requires Shaped(k) && t in k.tcbs
  {
    Prio(k, t) == e ==> !IsReady(k, t)
  }

  lemma {:induction false} TakeOutMarked(k: State, e: nat, t: Task)
    requires Shaped(k) && t in k.tcbs && Off(k, e, t)
    ensures Shaped(Marked(k, e)) && TakeOut(Marked(k, e), t) == Marked(TakeOut(k, t), e)
  {
    hide Unready, DropItem, Drop;
    if IsReady(k, t) {
      UnreadyMarked(k, e, Prio(k, t), t);
    }
  }

  lemma {:induction false} MakeReadyMarked(k: State, e: nat, t: Task)
    requires Shaped(k) && t in k.tcbs && Off(k, e, t)
    ensures Shaped(Marked(k, e)) && MakeReady(Marked(k, e), t) == Marked(MakeReady(k, t), e)
  {
    hide TakeOut, PutReady;
    TakeOutMarked(DropEvent(k, t), e, t);
    PutReadyMarked(TakeOut(DropEvent(k, t), t), e, t);
    assert DropEvent(Marked(k, e), t) == Marked(DropEvent(k, t), e);
  }

  lemma {:induction false} ReprioritiseMarked(k: State, e: nat, t: Task, p: nat)
    requires Shaped(k) && t in k.tcbs && p < PRIORITIES && Off(k, e, t)
    ensures Shaped(Marked(k, e)) && Reprioritise(Marked(k, e), t, p) == Marked(Reprioritise(k, t, p), e)
  {
    hide Unready, PutReady;
    if IsReady(k, t) {
      UnreadyMarked(k, e, Prio(k, t), t);
      var k1 := WithPriority(Unready(k, Prio(k, t), t), t, p);
      assert WithPriority(Marked(Unready(k, Prio(k, t), t), e), t, p) == Marked(k1, e);
      PutReadyMarked(k1, e, t);
    }
  }

  // ----- time -----

  lemma {:induction false} WakeHeadMarked(k: State, e: nat)
    requires Known(k) && k.delayed != []
    ensures Known(Marked(k, e)) && WakeHead(Marked(k, e)) == Marked(WakeHead(k), e)
  {
    hide PutReady, Drop;
    var t := k.delayed[0].owner;
    PutReadyMarked(DropEvent(k.(delayed := k.delayed[1..]), t), e, t);
  }

  lemma {:induction false} ExpireMarked(k: State, e: nat)
    requires Known(k)
    ensures Known(Marked(k, e)) && Expire(Marked(k, e)) == (Marked(Expire(k).0, e), Expire(k).1)
    decreases |k.delayed|
  {
    hide WakeHead, Known;
    MarkedShape(k, e);
    if k.delayed != [] && k.tick >= k.delayed[0].value {
      WakeHeadMarked(k, e);
      WakeHeadKnown(k);
      ExpireMarked(WakeHead(k), e);
    }
  }

  lemma {:induction false} WakeHeadKnown(k: State)
    requires Known(k) && k.delayed != []
    ensures Known(WakeHead(k)) && |WakeHead(k).delayed| < |k.delayed|
    ensures WakeHead(k).tcbs == k.tcbs && WakeHead(k).current == k.current
  {
  }

  lemma {:induction false} TickMarked(k: State, e: nat)
    requires Known(k)
    ensures Known(Marked(k, e)) && TickNow(Marked(k, e)) == (Marked(TickNow(k).0, e), TickNow(k).1)
  {
    hide Expire, Wrap;
    MarkedShape(k, e);
    assert AdvanceTick(Marked(k, e)) == Marked(AdvanceTick(k), e);
    ExpireMarked(AdvanceTick(k), e);
  }

  lemma {:induction false} ReplayMarked(k: State, e: nat, n: nat)
    requires Known(k)
    ensures Known(Marked(k, e)) && Replay(Marked(k, e), n) == Marked(Replay(k, n), e)
    decreases n
  {
    hide TickNow, Known;
    TickMarked(k, e);
    if n > 0 {
      var (k1, switch) := TickNow(k);
      assert Pend(Marked(k1, e), switch) == Marked(Pend(k1, switch), e);
      PendKnown(k1, switch);
      ReplayMarked(Pend(k1, switch), e, n - 1);
    }
  }

  lemma {:induction false} PendKnown(k: State, yes: bool)
    requires Known(k)
    ensures Known(Pend(k, yes))
  {
  }

  lemma {:induction false} AsleepOff(k: State, e: nat, t: Task)
    requires Inv(k) && Shaped(k) && Asleep(k, t)
    ensures Off(k, e, t)
  {
    hide Partitioned, WakeTimesFrom;
    OnExactlyOneList(k, {}, t, k.tick + 1);
  }

  lemma {:induction false} DrainOneMarked(k: State, e: nat)
    requires Inv(k) && Known(k) && k.pending != []
    ensures Known(Marked(k, e)) && DrainOne(Marked(k, e)) == Marked(DrainOne(k), e)
  {
    hide TakeOut, PutReady, Partitioned, WakeTimesFrom;
    var t, k1 := k.pending[0], k.(pending := k.pending[1..]);
    MarkedShape(k, e);
    assert t in k.pending;
    AsleepOff(k, e, t);
    TakeOutMarked(k1, e, t);
    PutReadyMarked(TakeOut(k1, t), e, t);
    assert Marked(k, e).(pending := k.pending[1..]) == Marked(k1, e);
  }

  lemma {:induction false} DrainMarked(k: State, e: nat)
    requires Inv(k) && Known(k) && k.suspensions > 0
    ensures Known(Marked(k, e)) && Drain(Marked(k, e)) == Marked(Drain(k), e)
    decreases |k.pending|
  {
    hide DrainOne, InvFrom, Known;
    MarkedShape(k, e);
    if k.pending != [] {
      DrainOneMarked(k, e);
      DrainOneInv(k);
      DrainOneShrinks(k);
      DrainMarked(DrainOne(k), e);
    }
  }

  lemma {:induction false} DrainOneShrinks(k: State)
    requires Known(k) && k.pending != []
    ensures Known(DrainOne(k)) && DrainOne(k).pending == k.pending[1..] && DrainOne(k).suspensions == k.suspensions
  {
    TakeOutKnown(k.(pending := k.pending[1..]), k.pending[0]);
  }

  lemma {:induction false} ResumeAllMarked(k: State, e: nat)
    requires Inv(k) && Known(k) && k.suspensions > 0
    ensures Known(Marked(k, e)) && ResumeAll(Marked(k, e)) == Marked(ResumeAll(k), e)
  {
    hide Drain, Replay, InvFrom, Wrap;
    MarkedShape(k, e);
    if k.suspensions == 1 {
      DrainMarked(k, e);
      var k1 := Drain(k);
      var k2 := if k.pending == [] then k1 else ResetUnblock(k1);
      var k3 := k2.(suspensions := 0, pendedTicks := 0);
      ReplayMarked(k3, e, k.pendedTicks);
      assert Marked(k2, e).(suspensions := 0, pendedTicks := 0) == Marked(k3, e);
    }
  }

  // ----- selection -----

  /** Bit `e` is not the highest: the marked state selects as the unmarked one does. */
  lemma {:induction false} HighestMarked(k: State, e: nat)
    requires Inv(k) && Shaped(k) && e < PRIORITIES && k.ready[e].items == []
    ensures CanSelect(Marked(k, e)) <==> e < Highest(k.bitmap)
    ensures e < Highest(k.bitmap) ==> Highest(Marked(k, e).bitmap) == Highest(k.bitmap)
  {
    hide Partitioned, OwnLists, WakeTimesFrom, EventsAsleep;
    SelectionSucceeds(k);
    var p, q := Highest(k.bitmap), Highest(Marked(k, e).bitmap);
    assert e in Marked(k, e).bitmap && p in Marked(k, e).bitmap;
    assert e !in k.bitmap;
    assert e <= q && p <= q;
    assert q in Marked(k, e).bitmap || q == 0;
    assert q == p || q == e;
  }

  lemma {:induction false} SwitchMarked(k: State, e: nat)
    requires Inv(k) && Known(k) && e < PRIORITIES && k.ready[e].items == [] && e < Highest(k.bitmap)
    ensures Shaped(Marked(k, e)) && CanSelect(Marked(k, e)) && CanSelect(k)
    ensures SwitchContext(Marked(k, e)) == Marked(SwitchContext(k), e)
  {
    hide InvFrom, Highest;
    MarkedShape(k, e);
    SelectionSucceeds(k);
    HighestMarked(k, e);
  }

  // ----- calls -----

  lemma {:induction false} BlockMarked(k: State, e: nat, ticks: Tick, indefinitely: bool)
    requires Shaped(k) && Off(k, e, k.current)
    ensures Shaped(Marked(k, e))
    ensures BlockCurrent(Marked(k, e), ticks, indefinitely) == Marked(BlockCurrent(k, ticks, indefinitely), e)
  {
    hide TakeOut, InsertSorted, Wrap;
    var t := k.current;
    var k1 := k.(tcbs := k.tcbs[t := k.tcbs[t].(delayAborted := false)]);
    TakeOutMarked(k1, e, t);
    assert Marked(k, e).(tcbs := k1.tcbs) == Marked(k1, e);
  }

  /** The step is a suspension or deletion whose reset clears the ready bit of priority `e`. */
  ghost predicate Clears(k: State, op: Op, e: nat)
    requires Known(k)
  {
    Enabled(k, op) && (op.SuspendTask? || op.DeleteTask?) && Prio(k, op.t) == e && SleepsAlone(k, op.t)
  }

  lemma {:induction false} WithdrawMarked(k: State, e: nat, t: Task)
    requires Shaped(k) && t in k.tcbs && Off(k, e, t) && e < PRIORITIES && k.ready[e].items == [] && e !in k.bitmap
    ensures Shaped(Marked(k, e))
    ensures Withdraw(Marked(k, e), t) ==
            if Prio(k, t) == e && SleepsAlone(k, t) then Withdraw(k, t) else Marked(Withdraw(k, t), e)
  {
    hide TakeOut, SleepsAlone;
    TakeOutMarked(k, e, t);
    var p, b := Prio(k, t), TakeOut(k, t).bitmap;
    TakeOutBitmap(k, t);
    SameSleepers(k, Marked(k, e), t);
    if p == e {
      assert b + {e} - {e} == b - {e} == b;
    } else {
      assert b + {e} - {p} == b - {p} + {e};
    }
  }

  lemma {:induction false} TakeOutBitmap(k: State, t: Task)
    requires Shaped(k) && t in k.tcbs
    ensures TakeOut(k, t).bitmap <= k.bitmap
  {
    hide RemoveAt, IndexOf, DropItem, Drop;
  }

  lemma {:induction false} LeaveMarked(k: State, e: nat, op: Op)
    requires Known(k) && e < PRIORITIES && k.ready[e].items == [] && e !in k.bitmap
    requires Enabled(k, op) && (op.SuspendTask? || op.DeleteTask?)
    ensures Shaped(Marked(k, e))
    ensures op.SuspendTask? ==>
              Suspend(Marked(k, e), op.t) == if Clears(k, op, e) then Suspend(k, op.t) else Marked(Suspend(k, op.t), e)
    ensures op.DeleteTask? ==>
              Delete(Marked(k, e), op.t) == if Clears(k, op, e) then Delete(k, op.t) else Marked(Delete(k, op.t), e)
  {
    hide Withdraw, SleepsAlone, Wrap;
    MarkedShape(k, e);
    var k1 := DropEvent(k, op.t);
    assert DropEvent(Marked(k, e), op.t) == Marked(k1, e);
    SameSleepers(k, k1, op.t);
    WithdrawMarked(k1, e, op.t);
  }

  lemma {:induction false} SameSleepers(k: State, k': State, t: Task)
    requires k'.delayed == k.delayed && k'.overflow == k.overflow
    requires k'.suspended == k.suspended && k'.terminating == k.terminating
    ensures SleepsAlone(k', t) == SleepsAlone(k, t)
  {
  }

  lemma {:induction false} WakeMarked(k: State, e: nat, t: Task)
    requires Shaped(k) && t in k.tcbs && Off(k, e, t)
    ensures Shaped(Marked(k, e))
    ensures RemoveFromEventList(Marked(k, e), t) == Marked(RemoveFromEventList(k, t), e)
    ensures RemoveFromUnorderedEventList(Marked(k, e), t) == Marked(RemoveFromUnorderedEventList(k, t), e)
    ensures AbortDelay(Marked(k, e), t) == Marked(AbortDelay(k, t), e)
    ensures Resume(Marked(k, e), t) == Marked(Resume(k, t), e)
  {
    hide MakeReady;
    MakeReadyMarked(k, e, t);
  }

  lemma {:induction false} NotifyMarked(k: State, e: nat, t: Task)
    requires Shaped(k) && t in k.tcbs && Off(k, e, t)
    ensures Shaped(Marked(k, e)) && Notify(Marked(k, e), t) == Marked(Notify(k, t), e)
  {
    hide MakeReady;
    var k1 := k.(tcbs := k.tcbs[t := k.tcbs[t].(awaitsNotification := false)]);
    assert Marked(k, e).(tcbs := k1.tcbs) == Marked(k1, e);
    MakeReadyMarked(k1, e, t);
  }

  lemma {:induction false} CreateMarked(k: State, e: nat, t: Task, p: nat)
    requires Shaped(k) && p < PRIORITIES
    ensures Shaped(Marked(k, e)) && Create(Marked(k, e), t, p) == Marked(Create(k, t, p), e)
  {
    hide PutReady;
    var k1 := k.(tcbs := k.tcbs[t := Tcb(p, p, 0, false, false)], taskCount := k.taskCount + 1);
    PutReadyMarked(k1, e, t);
    assert Marked(k, e).(tcbs := k1.tcbs, taskCount := k1.taskCount) == Marked(k1, e);
  }

  // ----- priorities -----

  lemma {:induction false} PriorityMarked(k: State, e: nat, t: Task, p: nat)
    requires Shaped(k) && t in k.tcbs && Off(k, e, t) && p < PRIORITIES
    ensures Shaped(Marked(k, e)) && PrioritySet(Marked(k, e), t, p) == Marked(PrioritySet(k, t, p), e)
    ensures Inherit(Marked(k, e), t) == Marked(Inherit(k, t), e)
  {
    hide Reprioritise;
    ReprioritiseMarked(k, e, t, if k.tcbs[t].base == k.tcbs[t].priority then p else k.tcbs[t].priority);
    ReprioritiseMarked(k, e, t, Prio(k, k.current));
  }

  lemma {:induction false} DisinheritMarked(k: State, e: nat)
    requires Shaped(k) && Off(k, e, k.current)
    ensures Shaped(Marked(k, e)) && Disinherit(Marked(k, e)) == Marked(Disinherit(k), e)
  {
    hide Reprioritise;
    var t := k.current;
    var k1 := k.(tcbs := k.tcbs[t := k.tcbs[t].(mutexesHeld := Pred(k.tcbs[t].mutexesHeld))]);
    assert Marked(k, e).(tcbs := k1.tcbs) == Marked(k1, e);
    ReprioritiseMarked(k1, e, t, k.tcbs[t].base);
  }

  lemma {:induction false} GiveMarked(k: State, e: nat, waiter: Option<Task>)
    requires Inv(k) && Known(k) && Off(k, e, k.current) && Enabled(k, GiveMutex(waiter))
    ensures Shaped(Marked(k, e)) && Give(Marked(k, e), waiter) == Marked(Give(k, waiter), e)
  {
    hide Disinherit, RemoveFromEventList, Partitioned, OwnLists, BitmapExact, WakeTimesFrom;
    DisinheritMarked(k, e);
    DisinheritInv(k);
    if waiter.Some? {
      DisinheritWaiters(k);
      AsleepOff(Disinherit(k), e, waiter.value);
      WakeMarked(Disinherit(k), e, waiter.value);
    }
  }

  lemma {:induction false} TimeoutMarked(k: State, e: nat, t: Task, w: nat)
    requires Shaped(k) && t in k.tcbs && w < PRIORITIES && Off(k, e, t) && BitSurvives(k, t, w)
    ensures Shaped(Marked(k, e))
    ensures DisinheritAfterTimeout(Marked(k, e), t, w) == Marked(DisinheritAfterTimeout(k, t, w), e)
  {
    hide PutReady, IndexOf;
    MarkedShape(k, e);
    if TimeoutLowers(k, t, w) && IsReady(k, t) {
      var entry, p := Prio(k, t), TimeoutPriority(k.tcbs[t], w);
      UnreadyMarked(k, e, entry, t);
      var k1 := Unready(k, entry, t);
      assert k1.ready[entry].items != [];
      var k2 := WithPriority(k1.(bitmap := k.bitmap), t, p);
      PutReadyMarked(k2, e, t);
      assert WithPriority(Marked(k1, e).(bitmap := Marked(k, e).bitmap), t, p) == Marked(k2, e);
    }
  }

  // ----- every step -----

  /** Nobody is on ready list `e`, so every task is off it, and its bit is clear. */
  lemma {:induction false} EmptyList(k: State, e: nat)
    requires Inv(k) && e < PRIORITIES && Shaped(k) && k.ready[e].items == []
    ensures e !in k.bitmap && forall t :: t in k.tcbs ==> Off(k, e, t)
  {
  }

  lemma {:induction false} SameEnabled(k: State, e: nat, op: Op)
    requires Known(k)
    ensures Known(Marked(k, e)) && Enabled(Marked(k, e), op) == Enabled(k, op)
  {
    MarkedShape(k, e);
  }

  lemma {:induction false} TimeStepMarked(k: State, e: nat, op: Op)
    requires Inv(k) && Known(k) && CanSelect(k) && Enabled(k, op)
    requires e < PRIORITIES && k.ready[e].items == [] && e < Highest(k.bitmap)
    requires op.Tick? || op.Switch? || op.Yield? || op.Block? || op.BlockEvent? || op.AwaitNotification?
             || op.NotificationSeen? || op.SuspendScheduler? || op.ResumeScheduler?
    ensures Known(Marked(k, e)) && CanSelect(Marked(k, e)) && Step(Marked(k, e), op) == Marked(Step(k, op), e)
  {
    hide InvFrom, TickNow, ResumeAll, SwitchContext, BlockCurrent, Highest, Wrap;
    SameEnabled(k, e, op);
    HighestMarked(k, e);
    EmptyList(k, e);
    match op
    case Tick => TickMarked(k, e);
    case Switch => SwitchMarked(k, e);
    case Block(d, indefinitely) => BlockMarked(k, e, d, indefinitely);
    case BlockEvent(d) => BlockMarked(k, e, d, true);
    case AwaitNotification(d) =>
      var k1 := k.(tcbs := k.tcbs[k.current := k.tcbs[k.current].(awaitsNotification := true)]);
      assert Marked(k, e).(tcbs := k1.tcbs) == Marked(k1, e);
      BlockMarked(k1, e, d, true);
    case ResumeScheduler => ResumeAllMarked(k, e);
    case _ =>
  }

  lemma {:induction false} TaskStepMarked(k: State, e: nat, op: Op)
    requires Inv(k) && Known(k) && CanSelect(k) && Enabled(k, op)
    requires e < PRIORITIES && k.ready[e].items == [] && e < Highest(k.bitmap)
    requires op.UnblockEvent? || op.UnblockUnordered? || op.Abort? || op.NotifyTask? || op.CreateTask?
             || op.IdleCleanUp? || op.ResumeTask?
    ensures Known(Marked(k, e)) && CanSelect(Marked(k, e)) && Step(Marked(k, e), op) == Marked(Step(k, op), e)
  {
    hide InvFrom, RemoveFromEventList, RemoveFromUnorderedEventList, AbortDelay, Notify, Create, Resume, Highest;
    SameEnabled(k, e, op);
    HighestMarked(k, e);
    EmptyList(k, e);
    match op
    case UnblockEvent(t) => WakeMarked(k, e, t);
    case UnblockUnordered(t) => WakeMarked(k, e, t);
    case Abort(t) => WakeMarked(k, e, t);
    case NotifyTask(t) => NotifyMarked(k, e, t);
    case CreateTask(t, p) => CreateMarked(k, e, t, Clamped(p));
    case ResumeTask(t) => WakeMarked(k, e, t);
    case IdleCleanUp =>
  }

  lemma {:induction false} PriorityStepMarked(k: State, e: nat, op: Op)
    requires Inv(k) && Known(k) && CanSelect(k) && Enabled(k, op)
    requires e < PRIORITIES && k.ready[e].items == [] && e < Highest(k.bitmap)
    requires op.SetPriority? || op.TakeMutex? || op.InheritFor? || op.GiveMutex? || op.TimeoutDisinherit?
    ensures Known(Marked(k, e)) && CanSelect(Marked(k, e)) && Step(Marked(k, e), op) == Marked(Step(k, op), e)
  {
    hide InvFrom, PrioritySet, Inherit, Give, DisinheritAfterTimeout, Highest, BitSurvives, CanSelect, IsReady;
    SameEnabled(k, e, op);
    HighestMarked(k, e);
    EmptyList(k, e);
    match op
    case SetPriority(t, p) => PriorityMarked(k, e, t, Clamped(p));
    case InheritFor(t) => PriorityMarked(k, e, t, 0);
    case GiveMutex(waiter) => GiveMarked(k, e, waiter);
    case TimeoutDisinherit(t, p) => TimeoutMarked(k, e, t, p);
    case TakeMutex =>
  }

  /**
   * A stale bit that is not the highest changes nothing else: every step of the marked state is
   * the step of the unmarked one with the bit kept, except that the suspension or deletion of a
   * task of that priority that sleeps alone on its list clears the bit.
   */
  lemma {:induction false} StepMarked(k: State, e: nat, op: Op)
    requires Inv(k) && e < PRIORITIES && Shaped(k) && k.ready[e].items == [] && e < Highest(k.bitmap)
    ensures Known(k) && CanSelect(k) && Known(Marked(k, e)) && CanSelect(Marked(k, e))
    ensures Step(Marked(k, e), op) == if Clears(k, op, e) then Step(k, op) else Marked(Step(k, op), e)
  {
    hide InvFrom, Highest, SleepsAlone, TickIsr, SwitchContext, BlockCurrent, BlockOnNotification, ResumeAll;
    StepInv(k, op);
    SameEnabled(k, e, op);
    HighestMarked(k, e);
    EmptyList(k, e);
    if Enabled(k, op) {
      if op.SuspendTask? || op.DeleteTask? {
        hide Suspend, Delete;
        LeaveMarked(k, e, op);
      } else if op.SetPriority? || op.TakeMutex? || op.InheritFor? || op.GiveMutex? || op.TimeoutDisinherit? {
        PriorityStepMarked(k, e, op);
      } else if op.UnblockEvent? || op.UnblockUnordered? || op.Abort? || op.NotifyTask? || op.CreateTask?
                || op.IdleCleanUp? || op.ResumeTask? {
        TaskStepMarked(k, e, op);
      } else {
        TimeStepMarked(k, e, op);
      }
    }
  }

  // ----- where stale bits come from and what they do -----

  /** Bit `e` is set though ready list `e` is empty; all other bits are right. */
  ghost predicate StaleAt(k: State, e: nat)
    requires Shaped(k)
  {
    && e < PRIORITIES && e in k.bitmap && k.ready[e].items == []
    && forall p: nat :: p != e ==> (p in k.bitmap <==> p < PRIORITIES && k.ready[p].items != [])
  }

  lemma {:induction false} MarkedIsStale(k: State, e: nat)
    requires Inv(k) && e < PRIORITIES && Shaped(k)
    ensures Shaped(Marked(k, e))
    ensures StaleAt(Marked(k, e), e) <==> k.ready[e].items == []
    ensures k.ready[e].items != [] ==> Marked(k, e) == k
  {
    MarkedShape(k, e);
    if k.ready[e].items != [] {
      assert e in k.bitmap && k.bitmap + {e} == k.bitmap;
    }
  }

  /**
   * A disinheritance after a timeout that empties the entry list is an ordinary reprioritisation
   * with exactly the bit of that list left stale.
   */
  lemma {:induction false} TimeoutLeavesStale(k: State, t: Task, w: nat)
    requires Inv(k) && t in k.tcbs && w < PRIORITIES && Shaped(k) && !BitSurvives(k, t, w)
    ensures var k', r := DisinheritAfterTimeout(k, t, w), Reprioritise(k, t, TimeoutPriority(k.tcbs[t], w));
            Inv(r) && Shaped(k') && StaleAt(k', Prio(k, t)) && k' == Marked(r, Prio(k, t))
  {
    hide Partitioned, WakeTimesFrom, EventsAsleep, Reprioritise, DisinheritAfterTimeout;
    var p := TimeoutPriority(k.tcbs[t], w);
    DisinheritBitExact(k, t, w);
    ReprioritiseInv(k, t, p);
    TimeoutIsReprioritise(k, t, w);
    EntryListEmptied(k, t, p);
  }

  /** In every state with a stale bit the selection fails exactly when that bit is the highest. */
  lemma {:induction false} StaleSelectionIff(k: State, e: nat)
    requires Shaped(k) && StaleAt(k, e)
    ensures CanSelect(k) <==> Highest(k.bitmap) != e
  {
    assert e <= Highest(k.bitmap);
  }

  /** Some task of priority `e` is on its ready list. */
  ghost predicate ReadyAt(k: State, e: nat)
    requires Shaped(k)
  {
    exists t :: t in k.tcbs && Prio(k, t) == e && IsReady(k, t)
  }

  lemma {:induction false} ReadyAtIff(k: State, e: nat)
    requires Inv(k) && Shaped(k) && e < PRIORITIES
    ensures ReadyAt(k, e) <==> k.ready[e].items != []
  {
    hide Partitioned, BitmapExact, WakeTimesFrom, EventsAsleep;
    if k.ready[e].items != [] {
      assert k.ready[e].items[0] in k.ready[e].items;
    }
  }

  /**
   * A stale bit survives a step exactly when the step leaves nobody ready at its priority and is
   * not a suspension or deletion that clears it; otherwise the bitmap is exact again.
   */
  lemma {:induction false} StaleSurvivesIff(k: State, e: nat, op: Op)
    requires Inv(k) && e < PRIORITIES && Shaped(k) && k.ready[e].items == [] && e < Highest(k.bitmap)
    ensures Known(k) && CanSelect(k) && Known(Marked(k, e)) && CanSelect(Marked(k, e))
    ensures Shaped(Step(k, op)) && Shaped(Step(Marked(k, e), op))
    ensures StaleAt(Step(Marked(k, e), op), e) <==> !Clears(k, op, e) && !ReadyAt(Step(k, op), e)
    ensures StaleAt(Step(Marked(k, e), op), e) || BitmapExact(Step(Marked(k, e), op))
  {
    hide Step, Clears, Highest, InvFrom, ReadyAt, StaleAt;
    StepMarked(k, e, op);
    StepInv(k, op);
    var k' := Step(k, op);
    InvShape(k');
    ReadyAtIff(k', e);
    MarkedIsStale(k', e);
    ExactNotStale(k', e);
  }

  lemma {:induction false} ExactNotStale(k: State, e: nat)
    requires Inv(k) && Shaped(k)
    ensures BitmapExact(k) && !StaleAt(k, e)
  {
  }

  // ----- runs -----

  /** A run from any state, which ends early when it reaches one in which the selection fails. */
  ghost function RunOn(k: State, ops: seq<Op>): Option<State>
    decreases |ops|
  {
    if ops == [] then Some(k)
    else if Known(k) && CanSelect(k) then RunOn(Step(k, ops[0]), ops[1..])
    else None
  }

  lemma {:induction false} RunOnIsRun(k: State, ops: seq<Op>)
    requires Inv(k)
    ensures RunOn(k, ops) == Some(Run(k, ops))
    decreases |ops|
  {
    hide InvFrom, Step, Known, CanSelect;
    if ops != [] {
      StepInv(k, ops[0]);
      RunOnIsRun(Step(k, ops[0]), ops[1..]);
    }
  }

  /** A run with a stale bit goes as it would without it, with the bit or cured of it, until the selection fails. */
  lemma {:induction false} StaleOverRuns(k: State, e: nat, ops: seq<Op>)
    requires Inv(k) && e < PRIORITIES && Shaped(k) && k.ready[e].items == []
    ensures var r := RunOn(Marked(k, e), ops);
            r == None || r == Some(Run(k, ops)) || r == Some(Marked(Run(k, ops), e))
    decreases |ops|
  {
    hide InvFrom, Step, Known, Clears, Highest, CanSelect;
    if ops != [] {
      HighestMarked(k, e);
      if e < Highest(k.bitmap) {
        StepMarked(k, e, ops[0]);
        StepInv(k, ops[0]);
        var k' := Step(k, ops[0]);
        InvShape(k');
        RunOnIsRun(k', ops[1..]);
        if k'.ready[e].items == [] {
          StaleOverRuns(k', e, ops[1..]);
        } else {
          MarkedIsStale(k', e);
        }
      }
    }
  }
}
