/**
 * tasks.c on values: the scheduler's state and what each API call, each tick and each
 * context switch makes of it. Critical sections and suspended-scheduler regions are atomic.
 */
module Kernel {
  import opened Ticks
  import opened Rings
  import opened Tasks

  const IDLE: Task := 0

  datatype Tcb = Tcb(priority: nat, base: nat, mutexesHeld: nat, awaitsNotification: bool, delayAborted: bool)

  /**
   * `bitmap` is uxTopReadyPriority as the set of its one bits. `delayed` and `overflow` are the
   * lists pxDelayedTaskList and pxOverflowDelayedTaskList point at. `eventWaiters` are the tasks
   * whose event item is on some event list, `pending` is xPendingReadyList, and
   * `switchRequested` says that a context switch has been asked of the port.
   */
  datatype State = State(
    tcbs: map<Task, Tcb>,
    ready: seq<Ring<Task>>,
    bitmap: set<nat>,
    delayed: seq<Item<Task>>,
    overflow: seq<Item<Task>>,
    suspended: seq<Task>,
    terminating: seq<Task>,
    eventWaiters: set<Task>,
    pending: seq<Task>,
    current: Task,
    tick: Tick,
    nextUnblock: Tick,
    overflows: nat,
    suspensions: nat,
    pendedTicks: Tick,
    yieldPending: bool,
    switchRequested: bool,
    taskCount: nat,
    deletedCount: nat)

  /** What every function below needs to be defined. */
  ghost predicate Shaped(k: State) {
    && |k.ready| == PRIORITIES
    && (forall p :: 0 <= p < PRIORITIES ==> k.ready[p].Valid())
    && (forall t :: t in k.tcbs ==> k.tcbs[t].priority < PRIORITIES && k.tcbs[t].base < PRIORITIES)
    && k.current in k.tcbs
  }

  function Prio(k: State, t: Task): nat
    requires t in k.tcbs
  {
    k.tcbs[t].priority
  }

  /** The unbounded time of the ticks processed so far. */
  function Now(k: State): nat {
    At(k.overflows, k.tick)
  }

  predicate IsReady(k: State, t: Task)
    requires |k.ready| == PRIORITIES && t in k.tcbs && Prio(k, t) < PRIORITIES
  {
    t in k.ready[Prio(k, t)].items
  }

  function IndexOf<T(==)>(s: seq<T>, t: T): (i: nat)
    requires t in s
    ensures i < |s| && s[i] == t
  {
    if s[0] == t then 0 else 1 + IndexOf(s[1..], t)
  }

  function Drop<T(==)>(s: seq<T>, t: T): seq<T> {
    if t in s then s[..IndexOf(s, t)] + s[IndexOf(s, t) + 1..] else s
  }

  /** The owners of a delayed list, in wake order. */
  function Owners(l: seq<Item<Task>>): (s: seq<Task>)
    ensures |s| == |l| && forall i :: 0 <= i < |l| ==> s[i] == l[i].owner
  {
    if l == [] then [] else [l[0].owner] + Owners(l[1..])
  }

  function DropItem(l: seq<Item<Task>>, t: Task): seq<Item<Task>> {
    if t in Owners(l) then
      var i := IndexOf(Owners(l), t);
      l[..i] + l[i + 1..]
    else l
  }

  // ----- list primitives -----

  /** `k'` differs from `k` only in where state items are. */
  ghost predicate OnlyMoves(k: State, k': State) {
    k' == k.(ready := k'.ready, bitmap := k'.bitmap, delayed := k'.delayed, overflow := k'.overflow,
             suspended := k'.suspended, terminating := k'.terminating, nextUnblock := k'.nextUnblock)
  }

  /** Neither the time, nor what is pended, nor the nesting of suspensions changes. */
  predicate SameClock(k: State, k': State) {
    && k'.tick == k.tick && k'.overflows == k.overflows
    && k'.pendedTicks == k.pendedTicks && k'.suspensions == k.suspensions
  }

  /** uxListRemove on a ready list, with the reset of the ready bit that follows it. */
  function Unready(k: State, p: nat, t: Task): (k': State)
    requires Shaped(k) && p < PRIORITIES && t in k.ready[p].items
    ensures Shaped(k') && OnlyMoves(k, k')
  {
    var r := RemoveAt(k.ready[p], IndexOf(k.ready[p].items, t));
    k.(ready := k.ready[p := r], bitmap := if r.items == [] then k.bitmap - {p} else k.bitmap)
  }

  /** uxListRemove of a state item from whichever list holds it. */
  function TakeOut(k: State, t: Task): (k': State)
    requires Shaped(k) && t in k.tcbs
    ensures Shaped(k') && OnlyMoves(k, k')
  {
    if IsReady(k, t) then Unready(k, Prio(k, t), t)
    else k.(delayed := DropItem(k.delayed, t), overflow := DropItem(k.overflow, t),
            suspended := Drop(k.suspended, t), terminating := Drop(k.terminating, t))
  }

  /** Taking `t` out empties the list it sleeps on. */
  predicate SleepsAlone(k: State, t: Task) {
    Owners(k.delayed) == [t] || Owners(k.overflow) == [t] || k.suspended == [t] || k.terminating == [t]
  }

  /**
   * uxListRemove followed by taskRESET_READY_PRIORITY, as in vTaskSuspend and vTaskDelete: the
   * emptying of any list clears the ready bit of the task's priority if that ready list is empty.
   */
  function Withdraw(k: State, t: Task): (k': State)
    requires Shaped(k) && t in k.tcbs
    ensures Shaped(k') && OnlyMoves(k, k')
  {
    var k' := TakeOut(k, t);
    if !IsReady(k, t) && SleepsAlone(k, t) && k.ready[Prio(k, t)].items == [] then
      k'.(bitmap := k'.bitmap - {Prio(k, t)})
    else k'
  }

  /** prvAddTaskToReadyList. */
  function PutReady(k: State, t: Task): (k': State)
    requires Shaped(k) && t in k.tcbs
    ensures Shaped(k') && OnlyMoves(k, k')
  {
    var p := Prio(k, t);
    k.(ready := k.ready[p := InsertEnd(k.ready[p], t)], bitmap := k.bitmap + {p})
  }

  function DropEvent(k: State, t: Task): State {
    k.(eventWaiters := k.eventWaiters - {t}, pending := Drop(k.pending, t))
  }

  /** Moves a task from wherever it waits to its ready list. */
  function MakeReady(k: State, t: Task): (k': State)
    requires Shaped(k) && t in k.tcbs
    ensures SameClock(k, k')
  {
    PutReady(TakeOut(DropEvent(k, t), t), t)
  }

  function HeadValue(l: seq<Item<Task>>): nat {
    if l == [] then MAX_DELAY else l[0].value
  }

  /** prvResetNextTaskUnblockTime. */
  function ResetUnblock(k: State): State {
    k.(nextUnblock := Wrap(HeadValue(k.delayed)))
  }

  function Request(k: State, yes: bool): State {
    k.(switchRequested := k.switchRequested || yes)
  }

  function Pend(k: State, yes: bool): State {
    k.(yieldPending := k.yieldPending || yes)
  }

  // ----- blocking -----

  /** The sleeping half of prvAddCurrentTaskToDelayedList: the item is on no list. */
  function PutToSleep(k: State, t: Task, ticks: Tick, indefinitely: bool): (k': State)
    ensures OnlyMoves(k, k') && k'.ready == k.ready && k'.bitmap == k.bitmap
  {
    if ticks == MAX_DELAY && indefinitely then
      k.(suspended := k.suspended + [t])
    else
      var wake := Wrap(k.tick + ticks);
      if wake < k.tick then
        k.(overflow := InsertSorted(k.overflow, Item(t, wake)))
      else
        k.(delayed := InsertSorted(k.delayed, Item(t, wake)),
           nextUnblock := if wake < k.nextUnblock then wake else k.nextUnblock)
  }

  /** prvAddCurrentTaskToDelayedList. */
  function BlockCurrent(k: State, ticks: Tick, indefinitely: bool): (k': State)
    requires Shaped(k)
    ensures SameClock(k, k')
  {
    var t := k.current;
    PutToSleep(TakeOut(k.(tcbs := k.tcbs[t := k.tcbs[t].(delayAborted := false)]), t), t, ticks, indefinitely)
  }

  /** vTaskPlaceOnEventList and its unordered form. */
  function BlockOnEvent(k: State, ticks: Tick): (k': State)
    requires Shaped(k)
    ensures SameClock(k, k')
  {
    var k' := BlockCurrent(k, ticks, true);
    k'.(eventWaiters := k'.eventWaiters + {k.current})
  }

  /** The blocking half of xTaskNotifyWait and ulTaskNotifyTake. */
  function BlockOnNotification(k: State, ticks: Tick): (k': State)
    requires Shaped(k)
    ensures SameClock(k, k')
  {
    var k' := k.(tcbs := k.tcbs[k.current := k.tcbs[k.current].(awaitsNotification := true)]);
    if ticks > 0 then Request(BlockCurrent(k', ticks, true), true) else k'
  }

  // ----- unblocking -----

  /** xTaskRemoveFromEventList. */
  function RemoveFromEventList(k: State, t: Task): (k': State)
    requires Shaped(k) && t in k.tcbs
    ensures SameClock(k, k')
  {
    var k' := if k.suspensions == 0 then MakeReady(k, t)
              else k.(eventWaiters := k.eventWaiters - {t}, pending := k.pending + [t]);
    Pend(k', Prio(k, t) > Prio(k, k.current))
  }

  /** vTaskRemoveFromUnorderedEventList. */
  function RemoveFromUnorderedEventList(k: State, t: Task): (k': State)
    requires Shaped(k) && t in k.tcbs
    ensures SameClock(k, k')
  {
    Pend(MakeReady(k, t), Prio(k, t) > Prio(k, k.current))
  }

  /** eTaskGetState(t) == eBlocked. */
  predicate IsBlocked(k: State, t: Task)
    requires t in k.tcbs
  {
    t != k.current
    && (t in Owners(k.delayed) || t in Owners(k.overflow)
        || (t in k.suspended && (t in k.eventWaiters || t in k.pending || k.tcbs[t].awaitsNotification)))
  }

  /** xTaskAbortDelay, between its suspend and its resume of the scheduler. */
  function AbortDelay(k: State, t: Task): (k': State)
    requires Shaped(k) && t in k.tcbs
    ensures SameClock(k, k')
  {
    if IsBlocked(k, t) then
      var aborted := k.tcbs[t].delayAborted || t in k.eventWaiters || t in k.pending;
      var k' := MakeReady(k, t);
      Pend(k'.(tcbs := k'.tcbs[t := k'.tcbs[t].(delayAborted := aborted)]), Prio(k, t) > Prio(k, k.current))
    else k
  }

  /** xTaskNotify. */
  function Notify(k: State, t: Task): (k': State)
    requires Shaped(k) && t in k.tcbs
    ensures SameClock(k, k')
  {
    var k' := k.(tcbs := k.tcbs[t := k.tcbs[t].(awaitsNotification := false)]);
    if k.tcbs[t].awaitsNotification then
      Request(MakeReady(k', t), Prio(k, t) > Prio(k, k.current))
    else k'
  }

  // ----- time -----

  /** Every listed task has a TCB. */
  ghost predicate Known(k: State) {
    && Shaped(k)
    && (forall i :: 0 <= i < |k.delayed| ==> k.delayed[i].owner in k.tcbs)
    && (forall i :: 0 <= i < |k.overflow| ==> k.overflow[i].owner in k.tcbs)
    && (forall t :: t in k.pending ==> t in k.tcbs)
  }

  /** One turn of the unblocking loop: the head of the delayed list becomes ready. */
  function WakeHead(k: State): State
    requires Known(k) && k.delayed != []
  {
    var t := k.delayed[0].owner;
    PutReady(DropEvent(k.(delayed := k.delayed[1..]), t), t)
  }

  /** The unblocking loop of xTaskIncrementTick. The flag says that a context switch is needed. */
  function Expire(k: State): (r: (State, bool))
    requires Known(k)
    ensures Known(r.0) && r.0.tcbs == k.tcbs && r.0.current == k.current
    decreases |k.delayed|
  {
    if k.delayed == [] || k.tick < k.delayed[0].value then
      (ResetUnblock(k), false)
    else
      var (rest, switch) := Expire(WakeHead(k));
      (rest, switch || Prio(k, k.delayed[0].owner) >= Prio(k, k.current))
  }

  /** xTickCount + 1, with taskSWITCH_DELAYED_LISTS when it wraps. */
  function AdvanceTick(k: State): State {
    var k' := k.(tick := Wrap(k.tick + 1));
    if k'.tick == 0 then
      ResetUnblock(k'.(delayed := k.overflow, overflow := k.delayed, overflows := k.overflows + 1))
    else k'
  }

  /** xTaskIncrementTick with the scheduler running. */
  function TickNow(k: State): (r: (State, bool))
    requires Known(k)
    ensures Known(r.0) && r.0.tcbs == k.tcbs && r.0.current == k.current
  {
    var k1 := AdvanceTick(k);
    var (k2, woke) := if k1.tick >= k1.nextUnblock then Expire(k1) else (k1, false);
    (k2, woke || |k2.ready[Prio(k2, k2.current)].items| > 1 || k2.yieldPending)
  }

  /** The tick interrupt. */
  function TickIsr(k: State): State
    requires Known(k)
  {
    if k.suspensions == 0 then Request(TickNow(k).0, TickNow(k).1)
    else k.(pendedTicks := Wrap(k.pendedTicks + 1))
  }

  // ----- suspending and resuming the scheduler -----

  function SuspendAll(k: State): State {
    k.(suspensions := k.suspensions + 1)
  }

  /** One turn of xTaskResumeAll's first loop. */
  function DrainOne(k: State): State
    requires Known(k) && k.pending != []
  {
    var t := k.pending[0];
    Pend(PutReady(TakeOut(k.(pending := k.pending[1..]), t), t), Prio(k, t) >= Prio(k, k.current))
  }

  lemma {:induction false} TakeOutKnown(k: State, t: Task)
    requires Known(k) && t in k.tcbs
    ensures Known(TakeOut(k, t))
  {
    hide RemoveAt, IndexOf, Drop;
  }

  function Drain(k: State): (k': State)
    requires Known(k)
    ensures Known(k') && k'.tcbs == k.tcbs && k'.current == k.current && k'.pending == []
    decreases |k.pending|
  {
    if k.pending == [] then k
    else
      TakeOutKnown(k.(pending := k.pending[1..]), k.pending[0]);
      Drain(DrainOne(k))
  }

  /** The pended ticks, processed one by one. */
  function Replay(k: State, n: nat): (k': State)
    requires Known(k)
    ensures Known(k') && k'.tcbs == k.tcbs && k'.current == k.current
    decreases n
  {
    if n == 0 then k
    else
      var (k1, switch) := TickNow(k);
      Replay(Pend(k1, switch), n - 1)
  }

  /** xTaskResumeAll. */
  function ResumeAll(k: State): State
    requires Known(k) && k.suspensions > 0
  {
    if k.suspensions > 1 then k.(suspensions := k.suspensions - 1)
    else
      var k1 := Drain(k);
      var k2 := if k.pending == [] then k1 else ResetUnblock(k1);
      var k3 := Replay(k2.(suspensions := 0, pendedTicks := 0), k.pendedTicks);
      Request(k3, k3.yieldPending)
  }

  // ----- context switch -----

  /** The highest set bit below bit `n`, by counting down as a leading-zero count does. */
  function HighestBelow(bits: set<nat>, n: nat): (p: nat)
    requires n > 0
    ensures p < n && (p in bits || p == 0)
    ensures forall q :: q in bits && q < n ==> q <= p
  {
    if n - 1 in bits || n == 1 then n - 1 else HighestBelow(bits, n - 1)
  }

  /** portGET_HIGHEST_PRIORITY. */
  function Highest(bits: set<nat>): nat {
    HighestBelow(bits, PRIORITIES)
  }

  /** The assertion in taskSELECT_HIGHEST_PRIORITY_TASK. */
  predicate CanSelect(k: State)
    requires |k.ready| == PRIORITIES
  {
    k.ready[Highest(k.bitmap)].items != []
  }

  /** vTaskSwitchContext, run by the port when a switch was requested. */
  function SwitchContext(k: State): State
    requires Shaped(k) && CanSelect(k)
  {
    var k1 := k.(switchRequested := false);
    if k.suspensions > 0 then k1.(yieldPending := true)
    else
      var p := Highest(k.bitmap);
      var r := Advance(k.ready[p]);
      k1.(yieldPending := false, ready := k.ready[p := r], current := Selected(r))
  }

  // ----- creating, deleting, suspending and resuming tasks -----

  /** The highest priority stands in for one that is out of range. */
  function Clamped(p: nat): (q: nat)
    ensures q < PRIORITIES && (p < PRIORITIES ==> q == p)
  {
    if p >= PRIORITIES then PRIORITIES - 1 else p
  }

  /** prvAddNewTaskToReadyList with the scheduler running. */
  function Create(k: State, t: Task, p: nat): (k': State)
    requires Shaped(k) && p < PRIORITIES
    ensures SameClock(k, k')
  {
    var k' := k.(tcbs := k.tcbs[t := Tcb(p, p, 0, false, false)], taskCount := k.taskCount + 1);
    Request(PutReady(k', t), Prio(k, k.current) < p)
  }

  function Pred(n: nat): nat {
    if n == 0 then 0 else n - 1
  }

  /** vTaskDelete. */
  function Delete(k: State, t: Task): (k': State)
    requires Shaped(k) && t in k.tcbs
    ensures SameClock(k, k')
  {
    var k' := Withdraw(DropEvent(k, t), t);
    if t == k.current then
      Request(k'.(terminating := k'.terminating + [t], deletedCount := k.deletedCount + 1), true)
    else
      ResetUnblock(k'.(tcbs := k'.tcbs - {t}, taskCount := Pred(k.taskCount)))
  }

  /** One turn of prvCheckTasksWaitingTermination, run by the idle task. */
  function CleanUp(k: State): (k': State)
    requires k.terminating != []
    ensures SameClock(k, k')
  {
    k.(terminating := k.terminating[1..], tcbs := k.tcbs - {k.terminating[0]},
       taskCount := Pred(k.taskCount), deletedCount := Pred(k.deletedCount))
  }

  /** vTaskSuspend. */
  function Suspend(k: State, t: Task): (k': State)
    requires Shaped(k) && t in k.tcbs
    ensures SameClock(k, k')
  {
    var k1 := Withdraw(DropEvent(k, t), t);
    var k2 := k1.(suspended := k1.suspended + [t],
                  tcbs := k1.tcbs[t := k1.tcbs[t].(awaitsNotification := false)]);
    Request(ResetUnblock(k2), t == k.current)
  }

  /** vTaskResume, with the test of prvTaskIsTaskSuspended. */
  function Resume(k: State, t: Task): (k': State)
    requires Shaped(k) && t in k.tcbs
    ensures SameClock(k, k')
  {
    if t != k.current && t in k.suspended && t !in k.pending && t !in k.eventWaiters then
      Request(MakeReady(k, t), Prio(k, t) >= Prio(k, k.current))
    else k
  }

  // ----- priorities -----

  function WithPriority(k: State, t: Task, p: nat): State
    requires t in k.tcbs
  {
    k.(tcbs := k.tcbs[t := k.tcbs[t].(priority := p)])
  }

  /** Gives `t` priority `p` and, if it is on its ready list, moves it to the list of `p`. */
  function Reprioritise(k: State, t: Task, p: nat): (k': State)
    requires Shaped(k) && t in k.tcbs && p < PRIORITIES
    ensures SameClock(k, k') && Shaped(k') && k'.tcbs.Keys == k.tcbs.Keys && k'.current == k.current
  {
    if IsReady(k, t) then PutReady(WithPriority(Unready(k, Prio(k, t), t), t, p), t)
    else WithPriority(k, t, p)
  }

  /** vTaskPrioritySet. */
  function PrioritySet(k: State, t: Task, p: nat): (k': State)
    requires Shaped(k) && t in k.tcbs && p < PRIORITIES
    ensures SameClock(k, k')
  {
    var tcb := k.tcbs[t];
    if tcb.base == p then k
    else
      var switch := if p > tcb.base then t != k.current && p >= Prio(k, k.current) else t == k.current;
      var k' := Reprioritise(k, t, if tcb.base == tcb.priority then p else tcb.priority);
      Request(k'.(tcbs := k'.tcbs[t := k'.tcbs[t].(base := p)]), switch)
  }

  /** xTaskPriorityInherit, called by the current task about a mutex holder. */
  function Inherit(k: State, holder: Task): (k': State)
    requires Shaped(k) && holder in k.tcbs
    ensures SameClock(k, k')
  {
    if Prio(k, holder) < Prio(k, k.current) then Reprioritise(k, holder, Prio(k, k.current)) else k
  }

  /** xTaskPriorityDisinherit, called by the current task as it gives a mutex back. */
  function Disinherit(k: State): (k': State)
    requires Shaped(k)
    ensures SameClock(k, k') && Shaped(k') && k'.tcbs.Keys == k.tcbs.Keys && k'.current == k.current
  {
    var t := k.current;
    var held := Pred(k.tcbs[t].mutexesHeld);
    var k' := k.(tcbs := k.tcbs[t := k.tcbs[t].(mutexesHeld := held)]);
    if Prio(k, t) != k.tcbs[t].base && held == 0 then Reprioritise(k', t, k.tcbs[t].base) else k'
  }

  /**
   * The critical section of xQueueGenericSend that gives a mutex back: the result of
   * xTaskPriorityDisinherit is looked at only when no task waits for the mutex.
   */
  function Give(k: State, waiter: Option<Task>): (k': State)
    requires Shaped(k) && (waiter.Some? ==> waiter.value in k.tcbs)
    ensures SameClock(k, k')
  {
    var k1 := Disinherit(k);
    match waiter
    case None => Request(k1, Prio(k1, k.current) != Prio(k, k.current))
    case Some(w) => Request(RemoveFromEventList(k1, w), Prio(k1, w) > Prio(k1, k.current))
  }

  /** The priority vTaskPriorityDisinheritAfterTimeout aims at. */
  function TimeoutPriority(tcb: Tcb, highestWaiting: nat): nat {
    if tcb.base < highestWaiting then highestWaiting else tcb.base
  }

  /** vTaskPriorityDisinheritAfterTimeout takes the branch that changes the priority. */
  predicate TimeoutLowers(k: State, holder: Task, highestWaiting: nat)
    requires holder in k.tcbs
  {
    k.tcbs[holder].mutexesHeld == 1 && Prio(k, holder) != TimeoutPriority(k.tcbs[holder], highestWaiting)
  }

  /**
   * vTaskPriorityDisinheritAfterTimeout. Unlike everywhere else the ready bit that is reset
   * when the removal empties a list is the bit of the new priority, not of the emptied list.
   */
  function DisinheritAfterTimeout(k: State, holder: Task, highestWaiting: nat): (k': State)
    requires Shaped(k) && holder in k.tcbs && highestWaiting < PRIORITIES
    ensures SameClock(k, k')
  {
    if TimeoutLowers(k, holder, highestWaiting) then
      var entry, p := Prio(k, holder), TimeoutPriority(k.tcbs[holder], highestWaiting);
      if IsReady(k, holder) then
        var k' := Unready(k, entry, holder);
        var bits := if k'.ready[entry].items == [] then k.bitmap - {p} else k.bitmap;
        PutReady(WithPriority(k'.(bitmap := bits), holder, p), holder)
      else WithPriority(k, holder, p)
    else k
  }

  // ----- runs -----

  datatype Op =
    | Tick
    | Switch
    | Yield
    | Block(ticks: Tick, indefinitely: bool)
    | BlockEvent(ticks: Tick)
    | AwaitNotification(ticks: Tick)
    | NotificationSeen
    | UnblockEvent(t: Task)
    | UnblockUnordered(t: Task)
    | Abort(t: Task)
    | NotifyTask(t: Task)
    | SuspendScheduler
    | ResumeScheduler
    | CreateTask(t: Task, p: nat)
    | DeleteTask(t: Task)
    | IdleCleanUp
    | SuspendTask(t: Task)
    | ResumeTask(t: Task)
    | SetPriority(t: Task, p: nat)
    | TakeMutex
    | InheritFor(t: Task)
    | GiveMutex(waiter: Option<Task>)
    | TimeoutDisinherit(t: Task, p: nat)

  /** The timed-out waiter's disinheritance does not empty the ready list it removes from. */
  predicate BitSurvives(k: State, holder: Task, highestWaiting: nat)
    requires |k.ready| == PRIORITIES && holder in k.tcbs && Prio(k, holder) < PRIORITIES
  {
    TimeoutLowers(k, holder, highestWaiting) && IsReady(k, holder) ==> |k.ready[Prio(k, holder)].items| > 1
  }

  /**
   * What callers owe. Only a task on its ready list can block. The idle task never blocks and
   * is never suspended or deleted. A block lasts at least one tick. A task does not wait for an
   * event while a notification wait of its own is open, and a deleted task is not named again.
   * The premise on TimeoutDisinherit is the one DisinheritBitExact shows to be exact.
   */
  ghost predicate Enabled(k: State, op: Op)
    requires Known(k)
  {
    match op
    case Block(d, _) => d > 0 && IsReady(k, k.current) && k.current != IDLE
    case BlockEvent(d) =>
      d > 0 && IsReady(k, k.current) && k.current != IDLE && !k.tcbs[k.current].awaitsNotification
    case AwaitNotification(_) => IsReady(k, k.current) && k.current != IDLE
    case UnblockEvent(t) => t in k.eventWaiters && t in k.tcbs
    case UnblockUnordered(t) => k.suspensions > 0 && t in k.eventWaiters && t in k.tcbs
    case Abort(t) => k.suspensions > 0 && t in k.tcbs
    case NotifyTask(t) => t in k.tcbs && t !in k.terminating
    case ResumeScheduler => k.suspensions > 0
    case CreateTask(t, _) => t !in k.tcbs
    case DeleteTask(t) =>
      t in k.tcbs && t != IDLE && t !in k.terminating && (t == k.current ==> k.suspensions == 0)
    case IdleCleanUp => k.current == IDLE && k.terminating != []
    case SuspendTask(t) =>
      t in k.tcbs && t != IDLE && t !in k.terminating && (t == k.current ==> k.suspensions == 0)
    case ResumeTask(t) => t in k.tcbs
    case SetPriority(t, _) => t in k.tcbs
    case InheritFor(t) => t in k.tcbs
    case GiveMutex(w) => w.Some? ==> w.value in k.eventWaiters && w.value in k.tcbs
    case TimeoutDisinherit(t, p) => t in k.tcbs && p < PRIORITIES && BitSurvives(k, t, p)
    case _ => true
  }

  /** One step of the system; a call its caller was not entitled to make is no step. */
  ghost function Step(k: State, op: Op): State
    requires Known(k) && CanSelect(k)
  {
    if !Enabled(k, op) then k else
    match op
    case Tick => TickIsr(k)
    case Switch => SwitchContext(k)
    case Yield => Request(k, true)
    case Block(d, indefinitely) => BlockCurrent(k, d, indefinitely)
    case BlockEvent(d) => BlockOnEvent(k, d)
    case AwaitNotification(d) => BlockOnNotification(k, d)
    case NotificationSeen => k.(tcbs := k.tcbs[k.current := k.tcbs[k.current].(awaitsNotification := false)])
    case UnblockEvent(t) => RemoveFromEventList(k, t)
    case UnblockUnordered(t) => RemoveFromUnorderedEventList(k, t)
    case Abort(t) => AbortDelay(k, t)
    case NotifyTask(t) => Notify(k, t)
    case SuspendScheduler => SuspendAll(k)
    case ResumeScheduler => ResumeAll(k)
    case CreateTask(t, p) => Create(k, t, Clamped(p))
    case DeleteTask(t) => Delete(k, t)
    case IdleCleanUp => CleanUp(k)
    case SuspendTask(t) => Suspend(k, t)
    case ResumeTask(t) => Resume(k, t)
    case SetPriority(t, p) => PrioritySet(k, t, Clamped(p))
    case TakeMutex =>
      k.(tcbs := k.tcbs[k.current := k.tcbs[k.current].(mutexesHeld := k.tcbs[k.current].mutexesHeld + 1)])
    case InheritFor(t) => Inherit(k, t)
    case GiveMutex(waiter) => Give(k, waiter)
    case TimeoutDisinherit(t, p) => DisinheritAfterTimeout(k, t, p)
  }
}
