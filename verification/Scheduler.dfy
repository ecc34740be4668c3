/** tasks.c: the scheduler's globals, updated in place by the calls that loop or branch most. */
module Scheduler {
  import opened Ticks
  import opened Rings
  import opened Tasks
  import opened Kernel
  import opened KernelInvariant
  import opened KernelRuns
  import KernelTime

  class Globals {
    var tcbs: map<Task, Tcb>
    var ready: seq<Ring<Task>>
    var bitmap: set<nat>
    var delayed: seq<Item<Task>>
    var overflow: seq<Item<Task>>
    var suspended: seq<Task>
    var terminating: seq<Task>
    var eventWaiters: set<Task>
    var pending: seq<Task>
    var current: Task
    var tick: Tick
    var nextUnblock: Tick
    var overflows: nat
    var suspensions: nat
    var pendedTicks: Tick
    var yieldPending: bool
    var switchRequested: bool
    var taskCount: nat
    var deletedCount: nat

    function View(): State
      reads this
    {
      State(tcbs, ready, bitmap, delayed, overflow, suspended, terminating, eventWaiters, pending, current, tick,
            nextUnblock, overflows, suspensions, pendedTicks, yieldPending, switchRequested, taskCount, deletedCount)
    }

    /** vTaskStartScheduler: the idle task runs alone. */
    constructor ()
      ensures View() == Start() && Inv(View())
    {
      tcbs := map[IDLE := Tcb(0, 0, 0, false, false)];
      ready := seq(PRIORITIES, _ => Empty())[0 := Ring([IDLE], 0)];
      bitmap, delayed, overflow, suspended, terminating, eventWaiters, pending := {0}, [], [], [], [], {}, [];
      current, tick, nextUnblock, overflows, suspensions, pendedTicks := IDLE, 0, MAX_DELAY, 0, 0, 0;
      yieldPending, switchRequested, taskCount, deletedCount := false, false, 1, 0;
      new;
      StartInv();
      assert ready == EmptyLists()[0 := Ring([IDLE], 0)];
    }

    /** prvAddTaskToReadyList. */
    method AddTaskToReadyList(t: Task)
      requires Shaped(View()) && t in tcbs
      modifies `ready, `bitmap
      ensures View() == PutReady(old(View()), t)
    {
      var p := tcbs[t].priority;
      bitmap := bitmap + {p};
      ready := ready[p := InsertEnd(ready[p], t)];
    }

    /** uxListRemove of a state item, with the reset of the ready bit where a ready list empties. */
    method RemoveStateItem(t: Task)
      requires Shaped(View()) && t in tcbs
      modifies `ready, `bitmap, `delayed, `overflow, `suspended, `terminating
      ensures View() == TakeOut(old(View()), t)
    {
      var p := tcbs[t].priority;
      if t in ready[p].items {
        ready := ready[p := RemoveAt(ready[p], IndexOf(ready[p].items, t))];
        if ready[p].items == [] {
          bitmap := bitmap - {p};
        }
      } else {
        delayed, overflow := DropItem(delayed, t), DropItem(overflow, t);
        suspended, terminating := Drop(suspended, t), Drop(terminating, t);
      }
    }

    /** Where prvAddCurrentTaskToDelayedList puts a task that is on no list. */
    method Sleep(t: Task, ticks: Tick, canBlockIndefinitely: bool)
      modifies `suspended, `delayed, `overflow, `nextUnblock
      ensures View() == PutToSleep(old(View()), t, ticks, canBlockIndefinitely)
      ensures ticks == MAX_DELAY && canBlockIndefinitely ==> suspended == old(suspended) + [t]
    {
      hide InsertSorted, Wrap;
      if ticks == MAX_DELAY && canBlockIndefinitely {
        suspended := suspended + [t];
      } else {
        var wake := Wrap(tick + ticks);
        if wake < tick {
          overflow := InsertSorted(overflow, Item(t, wake));
        } else {
          delayed := InsertSorted(delayed, Item(t, wake));
          if wake < nextUnblock {
            nextUnblock := wake;
          }
        }
      }
    }

    /** prvAddCurrentTaskToDelayedList. */
    method AddCurrentTaskToDelayedList(ticks: Tick, canBlockIndefinitely: bool)
      requires Inv(View()) && Known(View()) && Enabled(View(), Block(ticks, canBlockIndefinitely))
      modifies this
      ensures View() == BlockCurrent(old(View()), ticks, canBlockIndefinitely) && Inv(View())
      ensures if ticks == MAX_DELAY && canBlockIndefinitely then current in suspended
              else KernelTime.WakesAt(View(), current, Now(old(View())) + ticks)
    {
      hide InvFrom, TakeOut, PutToSleep, KernelTime.WakesAt;
      if !(ticks == MAX_DELAY && canBlockIndefinitely) {
        KernelTime.BlockWakesAt(View(), ticks, canBlockIndefinitely);
      }
      BlockCurrentInv(View(), ticks, canBlockIndefinitely);
      tcbs := tcbs[current := tcbs[current].(delayAborted := false)];
      RemoveStateItem(current);
      Sleep(current, ticks, canBlockIndefinitely);
    }

    /** taskSWITCH_DELAYED_LISTS. */
    method SwitchDelayedLists()
      modifies `delayed, `overflow, `overflows, `nextUnblock
      ensures View() == old(View()).(delayed := old(overflow), overflow := old(delayed),
                                     overflows := old(overflows) + 1, nextUnblock := Wrap(HeadValue(old(overflow))))
    {
      hide Wrap;
      delayed, overflow := overflow, delayed;
      overflows := overflows + 1;
      nextUnblock := Wrap(HeadValue(delayed));
    }

    /** The tick count moves on, and the lists are switched when it wraps. */
    method MoveTick()
      modifies `tick, `delayed, `overflow, `overflows, `nextUnblock
      ensures View() == AdvanceTick(old(View()))
    {
      hide Wrap;
      tick := Wrap(tick + 1);
      if tick == 0 {
        SwitchDelayedLists();
      }
    }

    /** The head of the delayed list leaves it, and any event list it is on. */
    method TakeDelayedHead() returns (t: Task)
      requires Known(View()) && delayed != []
      modifies `delayed, `eventWaiters, `pending
      ensures t == old(delayed)[0].owner && t in tcbs
      ensures View() == DropEvent(old(View()).(delayed := old(delayed)[1..]), t) && Shaped(View())
    {
      hide Drop;
      t := delayed[0].owner;
      delayed := delayed[1..];
      eventWaiters, pending := eventWaiters - {t}, Drop(pending, t);
    }

    /** One turn of the unblocking loop; `outranks` if the task is due a context switch. */
    method UnblockHead() returns (outranks: bool)
      requires Known(View()) && delayed != []
      modifies `delayed, `eventWaiters, `pending, `ready, `bitmap
      ensures View() == WakeHead(old(View()))
      ensures outranks == (Prio(old(View()), old(delayed)[0].owner) >= Prio(old(View()), old(current)))
    {
      hide PutReady, DropEvent;
      var t := TakeDelayedHead();
      AddTaskToReadyList(t);
      outranks := tcbs[t].priority >= tcbs[current].priority;
    }

    /** The unblocking loop of xTaskIncrementTick. */
    method UnblockDue() returns (switch: bool)
      requires Known(View())
      modifies this
      ensures (View(), switch) == Expire(old(View()))
    {
      hide Wrap, WakeHead, Known;
      switch := false;
      while delayed != [] && tick >= delayed[0].value
        invariant Known(View()) && Expire(View()).0 == Expire(old(View())).0
        invariant (switch || Expire(View()).1) == Expire(old(View())).1
        decreases |delayed|
      {
        ExpireUnfolds(View());
        var outranks := UnblockHead();
        if outranks {
          switch := true;
        }
      }
      ExpireEnds(View());
      nextUnblock := Wrap(if delayed == [] then MAX_DELAY else delayed[0].value);
    }

    /** xTaskIncrementTick with the scheduler running. */
    method ProcessTick() returns (switch: bool)
      requires Known(View())
      modifies this
      ensures (View(), switch) == TickNow(old(View()))
    {
      hide Expire, Wrap, AdvanceTick;
      AdvanceKnown(View());
      MoveTick();
      switch := false;
      if tick >= nextUnblock {
        switch := UnblockDue();
      }
      if |ready[tcbs[current].priority].items| > 1 {
        switch := true;
      }
      if yieldPending {
        switch := true;
      }
    }

    /** xTaskIncrementTick, called by the tick interrupt, which requests the switch. */
    method TickInterrupt()
      requires Inv(View()) && Known(View())
      modifies this
      ensures View() == TickIsr(old(View())) && Inv(View())
    {
      hide TickNow, Wrap, InvFrom;
      TickIsrInv(View());
      if suspensions == 0 {
        var switch := ProcessTick();
        if switch {
          switchRequested := true;
        }
      } else {
        pendedTicks := Wrap(pendedTicks + 1);
      }
    }

    /** One turn of xTaskResumeAll's first loop. */
    method ReadyPending()
      requires Known(View()) && pending != []
      modifies this
      ensures View() == DrainOne(old(View()))
    {
      hide TakeOut, PutReady;
      var t := pending[0];
      pending := pending[1..];
      RemoveStateItem(t);
      AddTaskToReadyList(t);
      if tcbs[t].priority >= tcbs[current].priority {
        yieldPending := true;
      }
    }

    /** The first loop of xTaskResumeAll. */
    method DrainPending()
      requires Known(View())
      modifies this
      ensures View() == Drain(old(View()))
    {
      hide DrainOne, Known;
      while pending != []
        invariant Known(View()) && Drain(View()) == Drain(old(View()))
        decreases |pending|
      {
        DrainUnfolds(View());
        ReadyPending();
      }
    }

    /** The loop of xTaskResumeAll over the pended ticks. */
    method ReplayTicks(n: nat)
      requires Known(View())
      modifies this
      ensures View() == Replay(old(View()), n)
    {
      hide TickNow, Known;
      var left: nat := n;
      while left > 0
        invariant Known(View()) && left <= n && Replay(View(), left) == Replay(old(View()), n)
      {
        PendKnown(View());
        var switch := ProcessTick();
        if switch {
          yieldPending := true;
        }
        left := left - 1;
      }
    }

    /** The outermost xTaskResumeAll up to the pended ticks, whose number it returns. */
    method EndSuspension() returns (ticks: Tick)
      requires Known(View())
      modifies this
      ensures View() == Drained(old(View())) && ticks == old(pendedTicks)
    {
      hide Drain, Wrap, HeadValue, Known;
      DrainKeepsTicks(View());
      var anyPending := pending != [];
      DrainPending();
      if anyPending {
        nextUnblock := Wrap(HeadValue(delayed));
      }
      ticks := pendedTicks;
      suspensions, pendedTicks := 0, 0;
    }

    /** xTaskResumeAll. */
    method ResumeScheduler() returns (alreadyYielded: bool)
      requires Inv(View()) && Known(View()) && suspensions > 0
      modifies this
      ensures View() == ResumeAll(old(View())) && Inv(View())
      ensures alreadyYielded == (old(suspensions) == 1 && yieldPending)
    {
      hide InvFrom, Drained, Replay, ResumeAll;
      ResumeAllInv(View());
      ResumeAllIs(View());
      alreadyYielded := false;
      if suspensions > 1 {
        suspensions := suspensions - 1;
      } else {
        var ticks := EndSuspension();
        ReplayTicks(ticks);
        if yieldPending {
          alreadyYielded, switchRequested := true, true;
        }
      }
    }

    /** taskSELECT_HIGHEST_PRIORITY_TASK. */
    method SelectHighestPriorityTask()
      requires Shaped(View()) && CanSelect(View())
      modifies `ready, `current
      ensures var top := Highest(bitmap);
              View() == old(View()).(ready := old(ready)[top := Advance(old(ready)[top])],
                                     current := Selected(Advance(old(ready)[top])))
    {
      var top := Highest(bitmap);
      ready := ready[top := Advance(ready[top])];
      current := Selected(ready[top]);
    }

    /** vTaskSwitchContext, with the selection of the highest priority ready task. */
    method SwitchTask()
      requires Inv(View())
      modifies this
      ensures Shaped(old(View())) && CanSelect(old(View()))
      ensures View() == SwitchContext(old(View())) && Inv(View())
    {
      hide InvFrom, Highest;
      InvShape(View());
      SelectionSucceeds(View());
      SwitchContextInv(View());
      switchRequested := false;
      if suspensions != 0 {
        yieldPending := true;
      } else {
        yieldPending := false;
        SelectHighestPriorityTask();
      }
    }

    /** One turn of prvCheckTasksWaitingTermination's loop. */
    method ReapOne()
      requires terminating != []
      modifies `tcbs, `terminating, `taskCount, `deletedCount
      ensures View() == CleanUp(old(View()))
    {
      tcbs := tcbs - {terminating[0]};
      terminating := terminating[1..];
      taskCount, deletedCount := Pred(taskCount), Pred(deletedCount);
    }

    /** prvCheckTasksWaitingTermination, run by the idle task. */
    method CheckTasksWaitingTermination()
      requires Inv(View()) && Known(View()) && current == IDLE
      modifies this
      ensures View() == Reaped(old(View())) && Inv(View()) && terminating == [] && deletedCount == 0
    {
      hide InvFrom, CleanUp;
      DeletedCounts(View());
      while deletedCount > 0
        invariant Inv(View()) && current == IDLE && deletedCount == |terminating|
        invariant Reaped(View()) == Reaped(old(View()))
        decreases |terminating|
      {
        MembersAreLive(View(), {}, tick + 1);
        CleanUpInv(View());
        ReapedUnfolds(View());
        ReapOne();
        DeletedCounts(View());
      }
    }

    /** The removal in vTaskPriorityDisinheritAfterTimeout, which resets the bit of `use`. */
    method RemoveFromEntryList(holder: Task, entry: nat, use: nat)
      requires Shaped(View()) && entry < PRIORITIES && holder in ready[entry].items
      modifies `ready, `bitmap
      ensures var k := Unready(old(View()), entry, holder);
              View() == k.(bitmap := if k.ready[entry].items == [] then old(bitmap) - {use} else old(bitmap))
    {
      hide RemoveAt, IndexOf;
      ready := ready[entry := RemoveAt(ready[entry], IndexOf(ready[entry].items, holder))];
      if ready[entry].items == [] {
        bitmap := bitmap - {use};
      }
    }

    method SetPriority(t: Task, p: nat)
      requires t in tcbs
      modifies `tcbs
      ensures View() == WithPriority(old(View()), t, p)
    {
      tcbs := tcbs[t := tcbs[t].(priority := p)];
    }

    /** vTaskPriorityDisinheritAfterTimeout, with the reset of the ready bit as it is in the source. */
    method PriorityDisinheritAfterTimeout(holder: Task, highestWaiting: nat)
      requires Inv(View()) && Shaped(View()) && holder in tcbs && highestWaiting < PRIORITIES
      modifies this
      ensures View() == DisinheritAfterTimeout(old(View()), holder, highestWaiting)
      ensures Shaped(View()) && (BitmapExact(View()) <==> BitSurvives(old(View()), holder, highestWaiting))
    {
      hide InvFrom, BitmapExact, Unready, PutReady, BitSurvives, DisinheritAfterTimeout;
      TimeoutIs(View(), holder, highestWaiting);
      DisinheritBitExact(View(), holder, highestWaiting);
      var use := if tcbs[holder].base < highestWaiting then highestWaiting else tcbs[holder].base;
      if tcbs[holder].priority != use && tcbs[holder].mutexesHeld == 1 {
        var entry := tcbs[holder].priority;
        SetPriority(holder, use);
        if holder in ready[entry].items {
          RemoveFromEntryList(holder, entry, use);
          AddTaskToReadyList(holder);
        }
      }
    }
  }

  lemma {:induction false} TimeoutIs(k: State, holder: Task, w: nat)
    requires Shaped(k) && holder in k.tcbs && w < PRIORITIES
    ensures var use, entry := TimeoutPriority(k.tcbs[holder], w), Prio(k, holder);
            && use < PRIORITIES && Shaped(WithPriority(k, holder, use))
            && DisinheritAfterTimeout(k, holder, w)
            == if k.tcbs[holder].mutexesHeld != 1 || entry == use then k
               else if holder !in k.ready[entry].items then WithPriority(k, holder, use)
               else
                 var k1 := Unready(WithPriority(k, holder, use), entry, holder);
                 PutReady(k1.(bitmap := if k1.ready[entry].items == [] then k.bitmap - {use} else k.bitmap), holder)
  {
    hide Unready, PutReady;
    UnreadyCommutes(k, Prio(k, holder), holder, TimeoutPriority(k.tcbs[holder], w));
  }

  lemma {:induction false} UnreadyCommutes(k: State, entry: nat, holder: Task, use: nat)
    requires Shaped(k) && holder in k.tcbs && entry < PRIORITIES && use < PRIORITIES
    ensures Shaped(WithPriority(k, holder, use))
    ensures holder in k.ready[entry].items ==>
              Unready(WithPriority(k, holder, use), entry, holder) ==
              WithPriority(Unready(k, entry, holder), holder, use)
  {
    hide RemoveAt, IndexOf;
  }

  lemma {:induction false} DrainKeepsTicks(k: State)
    requires Known(k)
    ensures Drain(k).pendedTicks == k.pendedTicks
    decreases |k.pending|
  {
    hide TakeOut, PutReady;
    if k.pending != [] {
      DrainUnfolds(k);
      DrainKeepsTicks(DrainOne(k));
    }
  }

  lemma {:induction false} ResumeAllIs(k: State)
    requires Inv(k) && Known(k) && k.suspensions > 0
    ensures Known(Drained(k))
    ensures ResumeAll(k) == if k.suspensions > 1 then k.(suspensions := k.suspensions - 1)
                            else var k' := Replay(Drained(k), k.pendedTicks); Request(k', k'.yieldPending)
  {
    hide InvFrom, Drain, Replay;
    DrainedInv(k);
    MembersAreLive(Drained(k), {}, Drained(k).tick + 1);
  }

  lemma {:induction false} DeletedCounts(k: State)
    requires Inv(k)
    ensures k.deletedCount == |k.terminating|
  {
  }

  lemma {:induction false} ReapedUnfolds(k: State)
    requires k.terminating != []
    ensures Reaped(k) == Reaped(CleanUp(k)) && CleanUp(k).current == k.current
    ensures |CleanUp(k).terminating| < |k.terminating|
  {
  }

  /** Every terminated task is freed. */
  function Reaped(k: State): State
    decreases |k.terminating|
  {
    if k.terminating == [] then k else Reaped(CleanUp(k))
  }

  lemma {:induction false} ExpireUnfolds(k: State)
    requires Known(k) && k.delayed != [] && k.tick >= k.delayed[0].value
    ensures Known(WakeHead(k)) && |WakeHead(k).delayed| < |k.delayed|
    ensures k.delayed[0].owner in k.tcbs && k.current in k.tcbs
    ensures Expire(k).0 == Expire(WakeHead(k)).0
    ensures Expire(k).1 == (Expire(WakeHead(k)).1 || Prio(k, k.delayed[0].owner) >= Prio(k, k.current))
  {
    hide PutReady;
    WakeHeadKnown(k);
  }

  lemma {:induction false} WakeHeadKnown(k: State)
    requires Known(k) && k.delayed != []
    ensures Known(WakeHead(k)) && WakeHead(k).delayed == k.delayed[1..]
  {
  }

  lemma {:induction false} ExpireEnds(k: State)
    requires Known(k) && (k.delayed == [] || k.tick < k.delayed[0].value)
    ensures Expire(k) == (k.(nextUnblock := Wrap(if k.delayed == [] then MAX_DELAY else k.delayed[0].value)), false)
  {
  }

  lemma {:induction false} AdvanceKnown(k: State)
    requires Known(k)
    ensures Known(AdvanceTick(k)) && AdvanceTick(k).tcbs == k.tcbs && AdvanceTick(k).current == k.current
  {
    hide Wrap;
  }

  lemma {:induction false} PendKnown(k: State)
    requires Known(k)
    ensures Known(Pend(TickNow(k).0, TickNow(k).1))
  {
    hide TickNow;
  }

  lemma {:induction false} DrainUnfolds(k: State)
    requires Known(k) && k.pending != []
    ensures Known(DrainOne(k)) && Drain(k) == Drain(DrainOne(k)) && |DrainOne(k).pending| < |k.pending|
  {
    hide TakeOut, PutReady;
    TakeOutKnown(k.(pending := k.pending[1..]), k.pending[0]);
    DrainOneKnown(k);
  }

  lemma {:induction false} DrainOneKnown(k: State)
    requires Known(k) && k.pending != []
    ensures Known(DrainOne(k))
  {
    TakeOutKnown(k.(pending := k.pending[1..]), k.pending[0]);
    hide TakeOut;
  }
}
