/**
 * Preemption: a ready task of higher priority than the running one has a context switch pending or
 * requested, and a permitted switch selects from the highest non-empty ready list. Every step
 * keeps the former, except two kinds of mutex calls under exact conditions.
 */
module KernelPreemption {
  import opened Ticks
  import opened Rings
  import opened Tasks
  import opened Kernel
  import opened KernelInvariant
  import opened KernelRuns

  /** A context switch is pending in the kernel or has been requested of the port. */
  predicate Flagged(k: State) {
    k.yieldPending || k.switchRequested
  }

  /** A set ready bit above the running task's priority comes with a flagged switch. */
  ghost predicate Preempts(k: State)
    requires k.current in k.tcbs
  {
    forall p: nat :: p in k.bitmap && p > Prio(k, k.current) ==> Flagged(k)
  }

  /** The same in terms of tasks. */
  ghost predicate NoMissedPreemption(k: State) {
    k.current in k.tcbs
    && forall t :: OnOwnReadyList(k, t) && Prio(k, t) > Prio(k, k.current) ==> Flagged(k)
  }

  predicate UsesMutex(op: Op) {
    op.TakeMutex? || op.InheritFor? || op.GiveMutex? || op.TimeoutDisinherit?
  }

  /** From `k` to `k'` the running task keeps its priority and each new bit above it is flagged. */
  ghost predicate Answers(k: State, k': State) {
    && k.current in k.tcbs && k'.current in k'.tcbs && Prio(k', k'.current) == Prio(k, k.current)
    && (Flagged(k) ==> Flagged(k'))
    && (forall p: nat :: p in k'.bitmap ==> p in k.bitmap || p <= Prio(k, k.current) || Flagged(k'))
  }

  lemma {:induction false} AnsweredPreempts(k: State, k': State)
    requires Answers(k, k') && Preempts(k)
    ensures Preempts(k')
  {
  }

  // ----- ticks -----

  lemma {:induction false} ExpireAnswers(k: State)
    requires Known(k)
    ensures forall p: nat :: p in Expire(k).0.bitmap ==> p in k.bitmap || p < Prio(k, k.current) || Expire(k).1
    ensures Flagged(Expire(k).0) == Flagged(k)
    decreases |k.delayed|
  {
    hide InsertEnd, Owners;
    if k.delayed != [] && k.tick >= k.delayed[0].value {
      ExpireAnswers(WakeHead(k));
    }
  }

  lemma {:induction false} TickAnswers(k: State)
    requires Known(k)
    ensures forall p: nat :: p in TickNow(k).0.bitmap ==> p in k.bitmap || p < Prio(k, k.current) || TickNow(k).1
    ensures Flagged(TickNow(k).0) == Flagged(k)
    ensures k.yieldPending ==> TickNow(k).1
  {
    hide Expire;
    ExpireAnswers(AdvanceTick(k));
    ExpireYield(AdvanceTick(k));
  }

  lemma {:induction false} ExpireYield(k: State)
    requires Known(k)
    ensures Expire(k).0.yieldPending == k.yieldPending
    decreases |k.delayed|
  {
    hide InsertEnd, Owners;
    if k.delayed != [] && k.tick >= k.delayed[0].value {
      ExpireYield(WakeHead(k));
    }
  }

  lemma {:induction false} TickIsrAnswers(k: State)
    requires Known(k)
    ensures Answers(k, TickIsr(k))
  {
    hide TickNow;
    TickAnswers(k);
  }

  /** With the scheduler running a pending yield becomes a request at the next tick. */
  lemma {:induction false} PendingYieldServed(k: State)
    requires Known(k) && k.suspensions == 0 && k.yieldPending
    ensures TickIsr(k).switchRequested
  {
    hide TickNow;
    TickAnswers(k);
  }

  // ----- resuming the scheduler -----

  lemma {:induction false} DrainOneAnswers(k: State)
    requires Known(k) && k.pending != []
    ensures Known(DrainOne(k))
    ensures Answers(k, DrainOne(k)) && DrainOne(k).tcbs == k.tcbs && DrainOne(k).current == k.current
    ensures k.yieldPending ==> DrainOne(k).yieldPending
  {
    hide InsertEnd, RemoveAt, DropItem, IndexOf, Drop;
    TakeOutKnown(k.(pending := k.pending[1..]), k.pending[0]);
  }

  lemma {:induction false} AnswersTransitive(k: State, k1: State, k2: State)
    requires Answers(k, k1) && Answers(k1, k2)
    ensures Answers(k, k2)
  {
  }

  lemma {:induction false} DrainAnswers(k: State)
    requires Known(k)
    ensures Answers(k, Drain(k)) && (k.yieldPending ==> Drain(k).yieldPending)
    decreases |k.pending|
  {
    hide DrainOne, Answers, Known;
    if k.pending == [] {
      AnswersSelf(k);
    } else {
      DrainOneAnswers(k);
      DrainOneShrinks(k);
      DrainAnswers(DrainOne(k));
      AnswersTransitive(k, DrainOne(k), Drain(k));
    }
  }

  lemma {:induction false} DrainOneShrinks(k: State)
    requires Known(k) && k.pending != []
    ensures DrainOne(k).pending == k.pending[1..]
  {
  }

  lemma {:induction false} AnswersSelf(k: State)
    requires Known(k)
    ensures Answers(k, k)
  {
  }

  lemma {:induction false} ReplayAnswers(k: State, n: nat)
    requires Known(k)
    ensures Answers(k, Replay(k, n)) && (k.yieldPending ==> Replay(k, n).yieldPending)
    decreases n
  {
    hide TickNow;
    AnswersSelf(k);
    if n > 0 {
      var k1 := Pend(TickNow(k).0, TickNow(k).1);
      TickAnswers(k);
      ReplayAnswers(k1, n - 1);
      hide Answers;
      AnswersTransitive(k, k1, Replay(k, n));
    }
  }

  lemma {:induction false} ResumeAllAnswers(k: State)
    requires Known(k) && k.suspensions > 0
    ensures Answers(k, ResumeAll(k))
    ensures k.suspensions == 1 ==> (ResumeAll(k).yieldPending ==> ResumeAll(k).switchRequested)
  {
    hide Drain, Replay;
    if k.suspensions == 1 {
      DrainAnswers(k);
      ReplayAnswers(Drained(k), k.pendedTicks);
      AnswersTransitive(k, Drained(k), Replay(Drained(k), k.pendedTicks));
    }
  }

  // ----- the other steps -----

  lemma {:induction false} MakeReadyBits(k: State, t: Task)
    requires Shaped(k) && t in k.tcbs
    ensures forall p: nat :: p in MakeReady(k, t).bitmap ==> p in k.bitmap || p == Prio(k, t)
    ensures MakeReady(k, t).tcbs == k.tcbs && MakeReady(k, t).current == k.current
    ensures Flagged(MakeReady(k, t)) == Flagged(k) && MakeReady(k, t).yieldPending == k.yieldPending
  {
    hide InsertEnd, RemoveAt, DropItem, IndexOf, Drop;
  }

  lemma {:induction false} TakeOutBits(k: State, t: Task)
    requires Shaped(k) && t in k.tcbs
    ensures TakeOut(k, t).bitmap <= k.bitmap
  {
    hide RemoveAt, DropItem, IndexOf, Drop;
  }

  lemma {:induction false} BlockAnswers(k: State, op: Op)
    requires Known(k) && CanSelect(k) && Enabled(k, op)
    requires op.Block? || op.BlockEvent? || op.AwaitNotification?
    ensures Answers(k, Step(k, op))
  {
    hide TakeOut, PutToSleep, CanSelect, IsReady;
    var k1 := if op.AwaitNotification?
    then k.(tcbs := k.tcbs[k.current := k.tcbs[k.current].(awaitsNotification := true)]) else k;
    TakeOutBits(k1.(tcbs := k1.tcbs[k.current := k1.tcbs[k.current].(delayAborted := false)]), k.current);
  }

  lemma {:induction false} WakeAnswers(k: State, op: Op)
    requires Known(k) && CanSelect(k) && Enabled(k, op)
    requires op.UnblockEvent? || op.UnblockUnordered? || op.Abort? || op.NotifyTask? || op.ResumeTask?
    ensures Answers(k, Step(k, op))
  {
    hide MakeReady, CanSelect, IsBlocked;
    MakeReadyBits(k, op.t);
    MakeReadyBits(k.(tcbs := k.tcbs[op.t := k.tcbs[op.t].(awaitsNotification := false)]), op.t);
  }

  lemma {:induction false} LeaveAnswers(k: State, op: Op)
    requires Inv(k) && Known(k) && CanSelect(k) && Enabled(k, op)
    requires op.DeleteTask? || op.SuspendTask? || op.IdleCleanUp?
    ensures Answers(k, Step(k, op))
  {
    hide TakeOut, CanSelect, InvFrom, Drop;
    if op.IdleCleanUp? {
      IdleNotTerminating(k);
    } else {
      TakeOutBits(DropEvent(k, op.t), op.t);
    }
  }

  lemma {:induction false} IdleNotTerminating(k: State)
    requires Inv(k)
    ensures IDLE !in k.terminating && IDLE in k.tcbs
  {
    OnExactlyOneList(k, {}, IDLE, k.tick + 1);
  }

  lemma {:induction false} SwitchPreempts(k: State)
    requires Inv(k) && Shaped(k) && CanSelect(k) && Preempts(k)
    ensures SwitchContext(k).current in SwitchContext(k).tcbs && Preempts(SwitchContext(k))
  {
    hide Partitioned, WakeTimesFrom, EventsAsleep;
    if k.suspensions == 0 {
      SelectsHighest(k);
    }
  }

  /** A permitted switch selects the head of the service order of the highest non-empty list. */
  lemma {:induction false} SelectsHighest(k: State)
    requires Inv(k) && k.suspensions == 0
    ensures Shaped(k) && CanSelect(k)
    ensures var k' := SwitchContext(k); var p := Highest(k.bitmap);
            && k'.current in k'.tcbs && k'.tcbs == k.tcbs && Prio(k', k'.current) == p
            && IsReady(k', k'.current) && k'.current == ServiceOrder(k.ready[p])[0]
            && (forall t :: t in k.tcbs && IsReady(k, t) ==> Prio(k, t) <= p)
            && !Flagged(k')
  {
    hide Partitioned, WakeTimesFrom, EventsAsleep;
    SelectionSucceeds(k);
    AdvanceRotates(k.ready[Highest(k.bitmap)]);
    var t := Selected(Advance(k.ready[Highest(k.bitmap)]));
    assert t in k.ready[Highest(k.bitmap)].items;
  }

  lemma {:induction false} CreateAnswers(k: State, t: Task, p: nat)
    requires Known(k) && p < PRIORITIES && t !in k.tcbs
    ensures Answers(k, Create(k, t, p))
  {
    hide InsertEnd;
  }

  lemma {:induction false} ReprioritiseBits(k: State, t: Task, p: nat)
    requires Shaped(k) && t in k.tcbs && p < PRIORITIES
    ensures forall q: nat :: q in Reprioritise(k, t, p).bitmap ==> q in k.bitmap || (q == p && IsReady(k, t))
  {
    hide InsertEnd, RemoveAt, IndexOf;
  }

  /** Lowering another task can only show a bit that was covered by its old one. */
  lemma {:induction false} PrioritySetPreempts(k: State, t: Task, p: nat)
    requires Inv(k) && Known(k) && t in k.tcbs && p < PRIORITIES && Preempts(k)
    ensures var k' := PrioritySet(k, t, p); k'.current in k'.tcbs && Preempts(k')
  {
    hide Reprioritise, InvFrom, IsReady;
    var q := if k.tcbs[t].base == k.tcbs[t].priority then p else k.tcbs[t].priority;
    ReprioritiseBits(k, t, q);
    ReprioritiseFrame(k, t, q);
    if IsReady(k, t) {
      ReadyBit(k, t);
    }
  }

  lemma {:induction false} ReadyBit(k: State, t: Task)
    requires Inv(k) && t in k.tcbs && Shaped(k) && IsReady(k, t)
    ensures Prio(k, t) in k.bitmap
  {
  }

  lemma {:induction false} NoStep(k: State, op: Op)
    requires Known(k) && CanSelect(k) && !Enabled(k, op)
    ensures Step(k, op) == k
  {
    hide Enabled;
  }

  lemma {:induction false} SwitchStep(k: State)
    requires Inv(k) && Known(k) && CanSelect(k) && Preempts(k)
    ensures Step(k, Switch).current in Step(k, Switch).tcbs && Preempts(Step(k, Switch))
  {
    hide InvFrom, SwitchContext, CanSelect, Preempts;
    SwitchPreempts(k);
  }

  lemma {:induction false} SetPriorityStep(k: State, op: Op)
    requires Inv(k) && Known(k) && CanSelect(k) && Enabled(k, op) && op.SetPriority? && Preempts(k)
    ensures Step(k, op).current in Step(k, op).tcbs && Preempts(Step(k, op))
  {
    hide InvFrom, PrioritySet, CanSelect, Preempts;
    PrioritySetPreempts(k, op.t, Clamped(op.p));
  }

  lemma {:induction false} StepAnswers(k: State, op: Op)
    requires Inv(k) && Known(k) && CanSelect(k) && Enabled(k, op)
    requires !UsesMutex(op) && !op.SetPriority? && !op.Switch?
    ensures Answers(k, Step(k, op))
  {
    hide InvFrom, TickIsr, BlockCurrent, BlockOnEvent, BlockOnNotification, RemoveFromEventList,
      RemoveFromUnorderedEventList, AbortDelay, Notify, ResumeAll, Create, Delete, CleanUp, Suspend, Resume,
      CanSelect, Known, IsReady;
    match op
    case Tick => TickIsrAnswers(k);
    case ResumeScheduler => ResumeAllAnswers(k);
    case CreateTask(t, p) => CreateAnswers(k, t, Clamped(p));
    case DeleteTask(_) => LeaveAnswers(k, op);
    case SuspendTask(_) => LeaveAnswers(k, op);
    case IdleCleanUp => LeaveAnswers(k, op);
    case Block(_, _) => BlockAnswers(k, op);
    case BlockEvent(_) => BlockAnswers(k, op);
    case AwaitNotification(_) => BlockAnswers(k, op);
    case UnblockEvent(_) => WakeAnswers(k, op);
    case UnblockUnordered(_) => WakeAnswers(k, op);
    case Abort(_) => WakeAnswers(k, op);
    case NotifyTask(_) => WakeAnswers(k, op);
    case ResumeTask(_) => WakeAnswers(k, op);
    case _ => PlainAnswers(k, op);
  }

  lemma {:induction false} PlainAnswers(k: State, op: Op)
    requires Known(k) && CanSelect(k)
    requires op.Yield? || op.NotificationSeen? || op.SuspendScheduler?
    ensures Answers(k, Step(k, op))
  {
  }

  lemma {:induction false} StartPreempts()
    ensures Shaped(Start()) && Preempts(Start())
  {
    hide EmptyLists;
  }

  lemma {:induction false} BitsCoverTasks(k: State)
    requires Inv(k) && Shaped(k) && Preempts(k)
    ensures NoMissedPreemption(k)
  {
    hide Partitioned, WakeTimesFrom, EventsAsleep;
    forall t | t in k.tcbs && IsReady(k, t) && Prio(k, t) > Prio(k, k.current) ensures Flagged(k) {
      ReadyBit(k, t);
    }
  }

  // ----- what mutexes change -----

  /** Giving the mutex back takes the giver down to its base priority. */
  predicate Lowers(k: State)
    requires k.current in k.tcbs
  {
    Pred(k.tcbs[k.current].mutexesHeld) == 0 && k.tcbs[k.current].base < Prio(k, k.current)
  }

  /** Another ready task is above priority `p`. */
  ghost predicate Exposed(k: State, p: nat)
    requires Shaped(k)
  {
    exists t :: t in k.tcbs && t != k.current && IsReady(k, t) && Prio(k, t) > p
  }

  /** Another ready task is above the giver's base priority. */
  ghost predicate Overtaken(k: State)
    requires Shaped(k)
  {
    Exposed(k, k.tcbs[k.current].base)
  }

  /**
   * Giving a mutex back that nobody waits for always keeps preemption. With a waiter it does so
   * exactly when the giver is not lowered, a switch was flagged already, the waiter outranks the
   * giver's base priority, or no other ready task is above that base: the yield that
   * xTaskPriorityDisinherit asks for is not looked at when a waiter is woken.
   */
  lemma {:induction false} GivePreemptsIff(k: State, waiter: Option<Task>)
    requires Inv(k) && Known(k) && IsReady(k, k.current) && Preempts(k) && Enabled(k, GiveMutex(waiter))
    ensures Give(k, waiter).current in Give(k, waiter).tcbs
    ensures waiter.None? ==> Preempts(Give(k, waiter))
    ensures waiter.Some? ==>
              (Preempts(Give(k, waiter)) <==>
               !Lowers(k) || Flagged(k) || Prio(k, waiter.value) > k.tcbs[k.current].base || !Overtaken(k))
  {
    hide InvFrom, Disinherit, RemoveFromEventList, IsReady, Preempts, Overtaken;
    var k1 := Disinherit(k);
    DisinheritReady(k);
    DisinheritWaiters(k);
    GivenBits(k);
    if waiter.Some? {
      var w := waiter.value;
      WaiterSleeps(k, w);
      WokenBits(k1, w);
      if Lowers(k) && Prio(k, w) <= k.tcbs[k.current].base {
        UnflaggedGive(k1, Give(k, waiter));
      } else {
        FlaggedGive(k1, Give(k, waiter), Prio(k1, w));
      }
    } else {
      FlaggedGive(k1, Give(k, waiter), 0);
    }
  }

  /** The bits above the giver's new priority are those of the other ready tasks. */
  lemma {:induction false} GivenBits(k: State)
    requires Inv(k) && Shaped(k) && IsReady(k, k.current) && Preempts(k)
    ensures var k1 := Disinherit(k);
            && (!Lowers(k) ==> Preempts(k1))
            && (Lowers(k) && !Flagged(k) ==> (Preempts(k1) <==> !Overtaken(k)))
            && (Flagged(k) ==> Preempts(k1))
  {
    hide InvFrom, Disinherit, IsReady;
    var k1 := Disinherit(k);
    DisinheritReady(k);
    forall t | t in k.tcbs && t != k.current && IsReady(k, t)
      ensures Prio(k, t) in k1.bitmap && Prio(k, t) in k.bitmap
    {
      ReadyBit(k1, t);
      ReadyBit(k, t);
    }
    forall p: nat | p in k1.bitmap && p > Prio(k1, k.current)
      ensures exists t :: t in k.tcbs && t != k.current && IsReady(k, t) && Prio(k, t) == p
    {
      var t := BitHasTask(k1, p);
    }
  }

  lemma {:induction false} WaiterSleeps(k: State, w: Task)
    requires Inv(k) && Shaped(k) && w in k.eventWaiters && IsReady(k, k.current)
    ensures w in k.tcbs && !IsReady(k, w) && w != k.current
  {
    OnExactlyOneList(k, {}, w, k.tick + 1);
  }

  /** Waking a sleeping task sets its own bit and clears none. */
  lemma {:induction false} WokenBits(k: State, w: Task)
    requires Shaped(k) && w in k.tcbs && !IsReady(k, w)
    ensures var k' := RemoveFromEventList(k, w);
            && k'.tcbs == k.tcbs && k'.current == k.current && k.bitmap <= k'.bitmap <= k.bitmap + {Prio(k, w)}
            && Flagged(k') == (Flagged(k) || Prio(k, w) > Prio(k, k.current))
  {
    hide InsertEnd, DropItem, IndexOf, Drop;
  }

  lemma {:induction false} FlaggedGive(k1: State, k': State, p: nat)
    requires k1.current in k1.tcbs && k'.tcbs == k1.tcbs && k'.current == k1.current
    requires k1.bitmap <= k'.bitmap <= k1.bitmap + {p} && (Flagged(k1) ==> Flagged(k'))
    requires Flagged(k') || (Preempts(k1) && p <= Prio(k1, k1.current))
    ensures Preempts(k')
  {
  }

  lemma {:induction false} UnflaggedGive(k1: State, k': State)
    requires k1.current in k1.tcbs && k'.tcbs == k1.tcbs && k'.current == k1.current
    requires exists p: nat :: p <= Prio(k1, k1.current) && k1.bitmap <= k'.bitmap <= k1.bitmap + {p}
    requires Flagged(k') == Flagged(k1)
    ensures Preempts(k') <==> Preempts(k1)
  {
  }

  lemma {:induction false} BitHasTask(k: State, p: nat) returns (t: Task)
    requires Inv(k) && p in k.bitmap
    ensures Shaped(k) && t in k.tcbs && IsReady(k, t) && Prio(k, t) == p
  {
    hide Partitioned, WakeTimesFrom, EventsAsleep;
    t := k.ready[p].items[0];
    assert t in k.ready[p].items;
  }

  lemma {:induction false} DisinheritReady(k: State)
    requires Inv(k) && Shaped(k) && IsReady(k, k.current)
    ensures Inv(Disinherit(k)) && Flagged(Disinherit(k)) == Flagged(k)
    ensures Disinherit(k).tcbs[k.current].base == k.tcbs[k.current].base
    ensures Prio(Disinherit(k), k.current)
         == if Pred(k.tcbs[k.current].mutexesHeld) == 0 then k.tcbs[k.current].base else Prio(k, k.current)
    ensures forall t :: t in k.tcbs && t != k.current ==>
              Prio(Disinherit(k), t) == Prio(k, t) && IsReady(Disinherit(k), t) == IsReady(k, t)
  {
    hide InvFrom, Reprioritise, IsReady;
    DisinheritInv(k);
    DisinheritWaiters(k);
    var tcb := k.tcbs[k.current].(mutexesHeld := Pred(k.tcbs[k.current].mutexesHeld));
    var k1 := k.(tcbs := k.tcbs[k.current := tcb]);
    ReprioritiseFrame(k1, k.current, tcb.base);
    forall t | t in k.tcbs && t != k.current ensures IsReady(Disinherit(k), t) == IsReady(k, t) {
      OthersStayPut(k1, k.current, tcb.base, t);
      SameReady(k, k1, t);
    }
  }

  lemma {:induction false} SameReady(k: State, k': State, t: Task)
    requires Shaped(k) && Shaped(k') && t in k.tcbs && t in k'.tcbs
    requires k'.ready == k.ready && Prio(k', t) == Prio(k, t)
    ensures IsReady(k', t) == IsReady(k, t)
  {
  }

  lemma {:induction false} OthersStayPut(k: State, t: Task, p: nat, u: Task)
    requires Shaped(k) && t in k.tcbs && p < PRIORITIES && u in k.tcbs && u != t
    ensures Shaped(Reprioritise(k, t, p)) && u in Reprioritise(k, t, p).tcbs
    ensures IsReady(Reprioritise(k, t, p), u) == IsReady(k, u)
  {
    hide RemoveAt, InsertEnd, IndexOf;
    if IsReady(k, t) {
      var e, k1 := Prio(k, t), Unready(k, Prio(k, t), t);
      InsertEndMember(k1.ready[p], t);
      RemovedMember(k.ready[e], t, u);
    }
  }

  lemma {:induction false} RemovedMember(r: Ring<Task>, t: Task, u: Task)
    requires r.Valid() && t in r.items && u != t
    ensures u in RemoveAt(r, IndexOf(r.items, t)).items <==> u in r.items
  {
    assert RemoveAt(r, IndexOf(r.items, t)).items == Drop(r.items, t);
    DropMember(r.items, t, u);
  }

  /** A reprioritisation of the running task shows the other ready tasks above its new priority. */
  lemma {:induction false} LoweredPreemptsIff(k: State, p: nat)
    requires Inv(k) && Shaped(k) && Preempts(k) && p < PRIORITIES
    ensures Preempts(Reprioritise(k, k.current, p)) <==> Flagged(k) || !Exposed(k, p)
  {
    hide InvFrom, Reprioritise, IsReady;
    var k' := Reprioritise(k, k.current, p);
    ReprioritiseInv(k, k.current, p);
    ReprioritiseFrame(k, k.current, p);
    forall t | t in k.tcbs && t != k.current ensures IsReady(k', t) == IsReady(k, t) && Prio(k', t) == Prio(k, t) {
      OthersStayPut(k, k.current, p, t);
    }
    forall t | t in k.tcbs && t != k.current && IsReady(k, t) ensures Prio(k, t) in k'.bitmap {
      ReadyBit(k', t);
    }
    forall q: nat | q in k'.bitmap && q > p ensures Exposed(k, p) {
      var t := BitHasTask(k', q);
    }
  }

  /** A reprioritisation of another task sets at most the bit of its new priority. */
  lemma {:induction false} MovedPreemptsIff(k: State, t: Task, p: nat)
    requires Inv(k) && Shaped(k) && Preempts(k) && t in k.tcbs && t != k.current && p < PRIORITIES
    ensures Preempts(Reprioritise(k, t, p)) <==> Flagged(k) || !IsReady(k, t) || p <= Prio(k, k.current)
  {
    hide InvFrom, Reprioritise, IsReady;
    ReprioritiseInv(k, t, p);
    ReprioritiseFrame(k, t, p);
    ReprioritiseBits(k, t, p);
    if IsReady(k, t) {
      ReadyBit(Reprioritise(k, t, p), t);
    }
  }

  /**
   * The disinheritance after a timeout keeps preemption exactly when it changes no priority, a
   * switch is flagged, or the priority it gives shows nobody: another holder, if ready, is not
   * raised above the caller, and the caller itself is not taken below another ready task.
   */
  ghost predicate TimeoutKeeps(k: State, t: Task, w: nat)
    requires Shaped(k) && t in k.tcbs
  {
    || !TimeoutLowers(k, t, w) || Flagged(k)
    || var p := TimeoutPriority(k.tcbs[t], w);
       if t == k.current then !Exposed(k, p) else !IsReady(k, t) || p <= Prio(k, k.current)
  }

  lemma {:induction false} TimeoutPreemptsIff(k: State, t: Task, w: nat)
    requires Inv(k) && Shaped(k) && Preempts(k) && t in k.tcbs && w < PRIORITIES && BitSurvives(k, t, w)
    ensures var k' := DisinheritAfterTimeout(k, t, w);
            k'.current in k'.tcbs && (Preempts(k') <==> TimeoutKeeps(k, t, w))
  {
    hide InvFrom, Reprioritise, Preempts, Exposed, Flagged;
    if TimeoutLowers(k, t, w) {
      var p := TimeoutPriority(k.tcbs[t], w);
      TimeoutIsReprioritise(k, t, w);
      assert DisinheritAfterTimeout(k, t, w) == Reprioritise(k, t, p);
      ReprioritiseFrame(k, t, p);
      if t == k.current {
        LoweredPreemptsIff(k, p);
      } else {
        MovedPreemptsIff(k, t, p);
      }
    }
  }

  // ----- every step and every run -----

  /** When a step keeps preemption; a mutex is given back by a task that is on its ready list. */
  ghost predicate Keeps(k: State, op: Op)
    requires Known(k)
  {
    Enabled(k, op) ==>
      match op
      case GiveMutex(Some(w)) => !Lowers(k) || Flagged(k) || Prio(k, w) > k.tcbs[k.current].base || !Overtaken(k)
      case TimeoutDisinherit(t, w) => TimeoutKeeps(k, t, w)
      case _ => true
  }

  lemma {:induction false} MutexStepPreemptsIff(k: State, op: Op)
    requires Inv(k) && Known(k) && CanSelect(k) && Preempts(k) && Enabled(k, op) && UsesMutex(op)
    requires op.GiveMutex? ==> IsReady(k, k.current)
    ensures Step(k, op).current in Step(k, op).tcbs && (Preempts(Step(k, op)) <==> Keeps(k, op))
  {
    hide InvFrom, Give, DisinheritAfterTimeout, CanSelect, Reprioritise, TimeoutKeeps, BitSurvives, Overtaken;
    match op
    case GiveMutex(waiter) => GivePreemptsIff(k, waiter);
    case TimeoutDisinherit(t, w) => TimeoutPreemptsIff(k, t, w);
    case InheritFor(t) =>
      ReprioritiseFrame(k, t, Prio(k, k.current));
      ReprioritiseBits(k, t, Prio(k, k.current));
    case TakeMutex =>
  }

  /**
   * Every step keeps preemption, except exactly the giving of a mutex to a waiter and the timeout
   * of a wait for one where the conditions of Keeps fail.
   */
  lemma {:induction false} StepPreemptsIff(k: State, op: Op)
    requires Inv(k) && Shaped(k) && Preempts(k) && (op.GiveMutex? ==> IsReady(k, k.current))
    ensures Known(k) && CanSelect(k)
    ensures Shaped(Step(k, op)) && (Preempts(Step(k, op)) <==> Keeps(k, op))
  {
    hide InvFrom, Enabled, Known, CanSelect, Preempts, Answers, Step, TimeoutKeeps, Overtaken, IsReady;
    StepInv(k, op);
    InvShape(Step(k, op));
    if !Enabled(k, op) {
      NoStep(k, op);
    } else if UsesMutex(op) {
      MutexStepPreemptsIff(k, op);
    } else if op.SetPriority? {
      SetPriorityStep(k, op);
    } else if op.Switch? {
      SwitchStep(k);
    } else {
      StepAnswers(k, op);
      AnsweredPreempts(k, Step(k, op));
    }
  }

  /** Every step of the run keeps preemption, and mutexes are given back by running tasks. */
  ghost predicate AllKeep(k: State, ops: seq<Op>)
    requires Inv(k)
    decreases |ops|
  {
    hide InvFrom, Step;
    ops == []
    || (StepInv(k, ops[0]);
        && (ops[0].GiveMutex? ==> OnOwnReadyList(k, k.current)) && Keeps(k, ops[0])
        && AllKeep(Step(k, ops[0]), ops[1..]))
  }

  lemma {:induction false} RunPreempts(k: State, ops: seq<Op>)
    requires Inv(k) && Shaped(k) && Preempts(k) && AllKeep(k, ops)
    ensures Shaped(Run(k, ops)) && Preempts(Run(k, ops))
    decreases |ops|
  {
    hide InvFrom, Step, Known, CanSelect, Preempts, Keeps, Shaped;
    if ops != [] {
      StepInv(k, ops[0]);
      StepPreemptsIff(k, ops[0]);
      RunPreempts(Step(k, ops[0]), ops[1..]);
    }
  }

  lemma {:induction false} MutexFreeKeeps(k: State, ops: seq<Op>)
    requires Inv(k) && forall i :: 0 <= i < |ops| ==> !UsesMutex(ops[i])
    ensures AllKeep(k, ops)
    decreases |ops|
  {
    hide InvFrom, Step, CanSelect, Shaped;
    if ops != [] {
      StepInv(k, ops[0]);
      MutexFreeKeeps(Step(k, ops[0]), ops[1..]);
    }
  }

  /**
   * No missed preemption: in every state that a run whose steps all keep it reaches from the start
   * of the scheduler, a ready task that outranks the running one has a switch pending or requested.
   */
  lemma {:induction false} NoMissedPreemptionOverRuns(ops: seq<Op>)
    requires Inv(Start()) ==> AllKeep(Start(), ops)
    ensures Inv(Start()) && NoMissedPreemption(Run(Start(), ops))
  {
    hide Run, Start, InvFrom, Preempts, AllKeep;
    StartInv();
    StartPreempts();
    RunPreempts(Start(), ops);
    BitsCoverTasks(Run(Start(), ops));
  }

  /** In particular no run without mutexes misses a preemption. */
  lemma {:induction false} NoMissedPreemptionWithoutMutexes(ops: seq<Op>)
    requires forall i :: 0 <= i < |ops| ==> !UsesMutex(ops[i])
    ensures Inv(Start()) && NoMissedPreemption(Run(Start(), ops))
  {
    hide Run, Start, InvFrom, AllKeep, NoMissedPreemption;
    StartInv();
    MutexFreeKeeps(Start(), ops);
    NoMissedPreemptionOverRuns(ops);
  }
}
