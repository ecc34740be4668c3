/**
 * Two runs of the scheduler, worked out state by state: one in which giving a mutex back misses
 * a preemption, and one in which a timed-out wait for a mutex leaves the selection nothing to select.
 */
module KernelExamples {
  import opened Ticks
  import opened Rings
  import opened Tasks
  import opened Kernel
  import opened KernelInvariant
  import opened KernelRuns
  import opened KernelPreemption
  import opened KernelStale

  ghost function T(p: nat, base: nat, held: nat): Tcb {
    Tcb(p, base, held, false, false)
  }

  /** In an invariant state `op` leads to `k'`. */
  ghost predicate Leads(k: State, op: Op, k': State) {
    Inv(k) ==> Known(k) && CanSelect(k) && Step(k, op) == k'
  }

  lemma {:induction false} RunLeads(k: State, ops: seq<Op>, i: nat, k': State)
    requires Inv(k) && i < |ops| && Leads(k, ops[i], k')
    ensures Inv(k') && Run(k, ops[i..]) == Run(k', ops[i + 1..])
  {
    hide InvFrom, Step, Known, CanSelect;
    StepInv(k, ops[i]);
    assert ops[i..][0] == ops[i] && ops[i..][1..] == ops[i + 1..];
  }

  lemma {:induction false} SameShape(k: State, k': State)
    requires Shaped(k) && k' == k.(tcbs := k'.tcbs) && k'.tcbs.Keys == k.tcbs.Keys
    requires forall t :: t in k'.tcbs ==> k'.tcbs[t].priority < PRIORITIES && k'.tcbs[t].base < PRIORITIES
    ensures Shaped(k')
  {
  }

  // ----- the list effects of the calls used below -----

  lemma {:induction false} RemovedRings()
    ensures RemoveAt<Task>(Ring([1], 1), IndexOf<Task>([1], 1)) == Ring([], 0)
    ensures RemoveAt<Task>(Ring([3, 1], 1), IndexOf<Task>([3, 1], 3)) == Ring([1], 0)
    ensures RemoveAt<Task>(Ring([1, 2], 2), IndexOf<Task>([1, 2], 2)) == Ring([1], 1)
  {
  }

  lemma {:induction false} InsertedRings()
    ensures InsertEnd<Task>(Ring([2], 1), 1) == Ring([1, 2], 2) && InsertEnd<Task>(Ring([1], 1), 2) == Ring([2, 1], 2)
    ensures InsertEnd<Task>(Ring([1], 1), 3) == Ring([3, 1], 2) && InsertEnd<Task>(Ring([], 0), 1) == Ring([1], 0)
    ensures InsertEnd<Task>(Empty(), 2) == Ring([2], 0)
  {
  }

  lemma {:induction false} DelayValues()
    ensures InsertSorted<Task>([], Item(3, 5)) == [Item(3, 5)] && InsertSorted<Task>([], Item(2, 1)) == [Item(2, 1)]
    ensures InsertSorted<Task>([Item(3, 5)], Item(2, 5)) == [Item(3, 5), Item(2, 5)]
    ensures DropItem([Item(3, 5), Item(2, 5)], 2) == [Item(3, 5)] && DropItem([Item(3, 5)], 3) == []
  {
    assert Owners([Item(3, 5), Item(2, 5)])[1] == 2 && Owners([Item(3, 5)])[0] == 3;
  }

  /** The running task leaves ready list `r` behind and sleeps for `ticks`. */
  lemma {:induction false} Blocked(k: State, r: Ring<Task>, ticks: Tick, l: seq<Item<Task>>)
    requires Inv(k) && Shaped(k) && IsReady(k, k.current) && k.tick + ticks < MAX_DELAY
    requires var p := Prio(k, k.current); r == RemoveAt(k.ready[p], IndexOf(k.ready[p].items, k.current))
    requires l == InsertSorted(k.delayed, Item(k.current, k.tick + ticks)) && !k.tcbs[k.current].delayAborted
    ensures var p, wake := Prio(k, k.current), k.tick + ticks;
            BlockOnEvent(k, ticks) ==
            k.(ready := k.ready[p := r], bitmap := if r.items == [] then k.bitmap - {p} else k.bitmap, delayed := l,
               nextUnblock := if wake < k.nextUnblock then wake else k.nextUnblock,
               eventWaiters := k.eventWaiters + {k.current})
  {
    hide InvFrom, RemoveAt, IndexOf, InsertSorted;
    assert k.tcbs[k.current := k.tcbs[k.current].(delayAborted := false)] == k.tcbs;
  }

  /** A ready task moves to the list of priority `q`. */
  lemma {:induction false} Moved(k: State, t: Task, q: nat, from: Ring<Task>, to: Ring<Task>)
    requires Shaped(k) && t in k.tcbs && IsReady(k, t) && q < PRIORITIES && q != Prio(k, t)
    requires var p := Prio(k, t); from == RemoveAt(k.ready[p], IndexOf(k.ready[p].items, t))
    requires to == InsertEnd(k.ready[q], t)
    ensures var p := Prio(k, t);
            Reprioritise(k, t, q) ==
            k.(tcbs := k.tcbs[t := k.tcbs[t].(priority := q)], ready := k.ready[p := from][q := to],
               bitmap := (if from.items == [] then k.bitmap - {p} else k.bitmap) + {q})
  {
    hide RemoveAt, IndexOf, InsertEnd;
  }

  /** The one delayed task wakes at this tick. */
  lemma {:induction false} Ticked(k: State, t: Task, r: Ring<Task>)
    requires Known(k) && k.suspensions == 0 && t in k.tcbs && k.tick + 1 < MAX_DELAY && k.nextUnblock == k.tick + 1
    requires k.delayed == [Item(t, k.tick + 1)] && k.pending == [] && Prio(k, t) >= Prio(k, k.current)
    requires r == InsertEnd(k.ready[Prio(k, t)], t)
    ensures TickIsr(k)
         == k.(tick := k.tick + 1, delayed := [], nextUnblock := MAX_DELAY, eventWaiters := k.eventWaiters - {t},
               ready := k.ready[Prio(k, t) := r], bitmap := k.bitmap + {Prio(k, t)}, switchRequested := true)
  {
    hide InsertEnd, Owners;
    var k1 := k.(tick := k.tick + 1);
    assert AdvanceTick(k) == k1 && Known(k1);
    var k2 := WakeHead(k1);
    assert k2.delayed == [] && Known(k2) && Expire(k2) == (k2.(nextUnblock := MAX_DELAY), false);
    assert Expire(k1) == (k2.(nextUnblock := MAX_DELAY), true);
  }

  /** A delayed waiter joins its ready list. */
  lemma {:induction false} Woken(k: State, t: Task, l: seq<Item<Task>>, r: Ring<Task>)
    requires Shaped(k) && t in k.tcbs && !IsReady(k, t) && k.suspensions == 0
    requires k.overflow == [] && k.suspended == [] && k.terminating == [] && k.pending == []
    requires l == DropItem(k.delayed, t) && r == InsertEnd(k.ready[Prio(k, t)], t)
    ensures MakeReady(k, t)
         == k.(delayed := l, eventWaiters := k.eventWaiters - {t}, ready := k.ready[Prio(k, t) := r],
               bitmap := k.bitmap + {Prio(k, t)})
  {
    hide InsertEnd;
    assert DropItem(k.overflow, t) == [] && Drop(k.suspended, t) == [] && Drop(k.pending, t) == [];
  }

  // ----- the states -----

  ghost function A1(): State {
    Start().(tcbs := Start().tcbs[1 := T(1, 1, 0)], ready := Start().ready[1 := Ring([1], 0)],
             bitmap := Start().bitmap + {1}, switchRequested := true, taskCount := Start().taskCount + 1)
  }

  ghost function A2(): State {
    A1().(ready := A1().ready[1 := Ring([1], 1)], current := 1, switchRequested := false)
  }

  ghost function A3(): State {
    A2().(tcbs := A2().tcbs[1 := T(1, 1, 1)])
  }

  ghost function A4(): State {
    A3().(tcbs := A3().tcbs[1 := T(1, 1, 2)])
  }

  ghost function A5(): State {
    A4().(tcbs := A4().tcbs[3 := T(1, 1, 0)], ready := A4().ready[1 := Ring([3, 1], 2)], bitmap := A4().bitmap + {1},
          switchRequested := false, taskCount := A4().taskCount + 1)
  }

  ghost function A6(): State {
    A5().(ready := A5().ready[1 := Ring([3, 1], 1)], current := 3, switchRequested := false)
  }

  ghost function A7(): State {
    A6().(ready := A6().ready[1 := Ring([1], 0)], delayed := [Item(3, 5)], nextUnblock := 5,
          eventWaiters := A6().eventWaiters + {3})
  }

  ghost function A8(): State {
    A7().(ready := A7().ready[1 := Ring([1], 1)], current := 1, switchRequested := false)
  }

  ghost function A9(): State {
    A8().(tcbs := A8().tcbs[2 := T(5, 5, 0)], ready := A8().ready[5 := Ring([2], 0)], bitmap := A8().bitmap + {5},
          switchRequested := true, taskCount := A8().taskCount + 1)
  }

  ghost function A10(): State {
    A9().(ready := A9().ready[5 := Ring([2], 1)], current := 2, switchRequested := false)
  }

  ghost function A11(): State {
    A10().(tcbs := A10().tcbs[1 := T(5, 1, 2)], ready := A10().ready[1 := Ring([], 0)][5 := Ring([1, 2], 2)],
           bitmap := A10().bitmap - {1} + {5})
  }

  ghost function A12(): State {
    A11().(ready := A11().ready[5 := Ring([1], 1)], delayed := [Item(3, 5), Item(2, 5)],
           eventWaiters := A11().eventWaiters + {2})
  }

  ghost function A13(): State {
    A12().(ready := A12().ready[5 := Ring([1], 1)], current := 1, switchRequested := false)
  }

  ghost function A14(): State {
    A13().(tcbs := A13().tcbs[1 := T(5, 1, 1)], ready := A13().ready[5 := Ring([2, 1], 2)],
           bitmap := A13().bitmap + {5}, delayed := [Item(3, 5)], eventWaiters := A13().eventWaiters - {2})
  }

  ghost function B4(): State {
    A3().(tcbs := A3().tcbs[2 := T(3, 3, 0)], ready := A3().ready[3 := Ring([2], 0)], bitmap := A3().bitmap + {3},
          switchRequested := true, taskCount := A3().taskCount + 1)
  }

  ghost function B5(): State {
    B4().(ready := B4().ready[3 := Ring([2], 1)], current := 2, switchRequested := false)
  }

  ghost function B6(): State {
    B5().(tcbs := B5().tcbs[1 := T(3, 1, 1)], ready := B5().ready[1 := Ring([], 0)][3 := Ring([1, 2], 2)],
          bitmap := B5().bitmap - {1} + {3})
  }

  ghost function B7(): State {
    B6().(ready := B6().ready[3 := Ring([1], 1)], delayed := [Item(2, 1)], nextUnblock := 1,
          eventWaiters := B6().eventWaiters + {2})
  }

  ghost function B8(): State {
    B7().(ready := B7().ready[3 := Ring([1], 1)], current := 1, switchRequested := false)
  }

  ghost function B9(): State {
    B8().(tcbs := B8().tcbs[2 := T(7, 7, 0)], switchRequested := true)
  }

  ghost function B10(): State {
    B9().(tick := 1, delayed := [], nextUnblock := MAX_DELAY, eventWaiters := B9().eventWaiters - {2},
          ready := B9().ready[7 := Ring([2], 0)], bitmap := B9().bitmap + {7})
  }

  ghost function B11(): State {
    B10().(ready := B10().ready[7 := Ring([2], 1)], current := 2, switchRequested := false)
  }

  lemma {:induction false} A1Follows()
    ensures Leads(Start(), CreateTask(1, 1), A1())
  {
    hide InvFrom, Known, Shaped, CanSelect, IndexOf, RemoveAt, InsertEnd;
    if Inv(Start()) {
      StepInv(Start(), CreateTask(1, 1));
      assert Start().ready[1] == Ring([], 0);
      assert InsertEnd<Task>(Ring([], 0), 1) == Ring([1], 0) by {
        InsertedRings();
      }
    }
  }

  lemma {:induction false} A2Follows()
    ensures Leads(A1(), Switch, A2())
  {
    hide InvFrom, Known, Shaped, CanSelect;
    if Inv(A1()) {
      StepInv(A1(), Switch);
      assert A1().ready[1] == Ring([1], 0);
    }
  }

  lemma {:induction false} A3Follows()
    ensures Leads(A2(), TakeMutex, A3())
  {
    hide InvFrom, Known, Shaped, CanSelect;
    if Inv(A2()) {
      StepInv(A2(), TakeMutex);
    }
  }

  lemma {:induction false} A4Follows()
    ensures Leads(A3(), TakeMutex, A4())
  {
    hide InvFrom, Known, Shaped, CanSelect;
    if Inv(A3()) {
      StepInv(A3(), TakeMutex);
    }
  }

  lemma {:induction false} A5Follows()
    ensures Leads(A4(), CreateTask(3, 1), A5())
  {
    hide InvFrom, Known, Shaped, CanSelect, IndexOf, RemoveAt, InsertEnd;
    if Inv(A4()) {
      StepInv(A4(), CreateTask(3, 1));
      assert A4().ready[1] == Ring([1], 1);
      assert InsertEnd<Task>(Ring([1], 1), 3) == Ring([3, 1], 2) by {
        InsertedRings();
      }
    }
  }

  lemma {:induction false} A6Follows()
    ensures Leads(A5(), Switch, A6())
  {
    hide InvFrom, Known, Shaped, CanSelect;
    if Inv(A5()) {
      StepInv(A5(), Switch);
      assert A5().ready[1] == Ring([3, 1], 2);
    }
  }

  lemma {:induction false} A7Follows()
    ensures Leads(A6(), BlockEvent(5), A7())
  {
    hide InvFrom, Known, Shaped, CanSelect, IndexOf, RemoveAt, InsertEnd, BlockOnEvent, InsertSorted;
    if Inv(A6()) {
      StepInv(A6(), BlockEvent(5));
      InvShape(A6());
      assert A6().ready[1] == Ring([3, 1], 1);
      assert RemoveAt<Task>(Ring([3, 1], 1), IndexOf<Task>([3, 1], 3)) == Ring([1], 0) by {
        RemovedRings();
      }
      assert InsertSorted<Task>([], Item(3, 5)) == [Item(3, 5)] by {
        DelayValues();
      }
      Blocked(A6(), Ring([1], 0), 5, [Item(3, 5)]);
    }
  }

  lemma {:induction false} A8Follows()
    ensures Leads(A7(), Switch, A8())
  {
    hide InvFrom, Known, Shaped, CanSelect;
    if Inv(A7()) {
      StepInv(A7(), Switch);
      assert A7().ready[1] == Ring([1], 0);
    }
  }

  lemma {:induction false} A9Follows()
    ensures Leads(A8(), CreateTask(2, 5), A9())
  {
    hide InvFrom, Known, Shaped, CanSelect, IndexOf, RemoveAt, InsertEnd;
    if Inv(A8()) {
      StepInv(A8(), CreateTask(2, 5));
      assert A8().ready[5] == Empty();
      assert InsertEnd<Task>(Empty(), 2) == Ring([2], 0) by {
        InsertedRings();
      }
    }
  }

  lemma {:induction false} A10Follows()
    ensures Leads(A9(), Switch, A10())
  {
    hide InvFrom, Known, Shaped, CanSelect;
    if Inv(A9()) {
      StepInv(A9(), Switch);
      assert A9().ready[5] == Ring([2], 0);
    }
  }

  lemma {:induction false} A11Follows()
    ensures Leads(A10(), InheritFor(1), A11())
  {
    hide InvFrom, Known, Shaped, CanSelect, IndexOf, RemoveAt, InsertEnd, Reprioritise;
    if Inv(A10()) {
      StepInv(A10(), InheritFor(1));
      InvShape(A10());
      assert A10().ready[1] == Ring([1], 1) && A10().ready[5] == Ring([2], 1);
      assert RemoveAt<Task>(Ring([1], 1), IndexOf<Task>([1], 1)) == Ring([], 0) by {
        RemovedRings();
      }
      assert InsertEnd<Task>(Ring([2], 1), 1) == Ring([1, 2], 2) by {
        InsertedRings();
      }
      Moved(A10(), 1, 5, Ring([], 0), Ring([1, 2], 2));
    }
  }

  lemma {:induction false} A12Follows()
    ensures Leads(A11(), BlockEvent(5), A12())
  {
    hide InvFrom, Known, Shaped, CanSelect, IndexOf, RemoveAt, InsertEnd, BlockOnEvent, InsertSorted;
    if Inv(A11()) {
      StepInv(A11(), BlockEvent(5));
      InvShape(A11());
      assert A11().ready[5] == Ring([1, 2], 2);
      assert RemoveAt<Task>(Ring([1, 2], 2), IndexOf<Task>([1, 2], 2)) == Ring([1], 1) by {
        RemovedRings();
      }
      assert InsertSorted<Task>([Item(3, 5)], Item(2, 5)) == [Item(3, 5), Item(2, 5)] by {
        DelayValues();
      }
      Blocked(A11(), Ring([1], 1), 5, [Item(3, 5), Item(2, 5)]);
    }
  }

  lemma {:induction false} A13Follows()
    ensures Leads(A12(), Switch, A13())
  {
    hide InvFrom, Known, Shaped, CanSelect;
    if Inv(A12()) {
      StepInv(A12(), Switch);
      assert A12().ready[5] == Ring([1], 1);
    }
  }

  lemma {:induction false} A14Follows()
    ensures Leads(A13(), GiveMutex(Some(2)), A14())
  {
    hide InvFrom, Known, Shaped, CanSelect, Give, A14;
    if Inv(A13()) {
      StepInv(A13(), GiveMutex(Some(2)));
      InvShape(A13());
      GivenBack();
    }
  }

  lemma {:induction false} B4Follows()
    ensures Leads(A3(), CreateTask(2, 3), B4())
  {
    hide InvFrom, Known, Shaped, CanSelect, IndexOf, RemoveAt, InsertEnd;
    if Inv(A3()) {
      StepInv(A3(), CreateTask(2, 3));
      assert A3().ready[3] == Empty();
      assert InsertEnd<Task>(Empty(), 2) == Ring([2], 0) by {
        InsertedRings();
      }
    }
  }

  lemma {:induction false} B5Follows()
    ensures Leads(B4(), Switch, B5())
  {
    hide InvFrom, Known, Shaped, CanSelect;
    if Inv(B4()) {
      StepInv(B4(), Switch);
      assert B4().ready[3] == Ring([2], 0);
    }
  }

  lemma {:induction false} B6Follows()
    ensures Leads(B5(), InheritFor(1), B6())
  {
    hide InvFrom, Known, Shaped, CanSelect, IndexOf, RemoveAt, InsertEnd, Reprioritise;
    if Inv(B5()) {
      StepInv(B5(), InheritFor(1));
      InvShape(B5());
      assert B5().ready[1] == Ring([1], 1) && B5().ready[3] == Ring([2], 1);
      assert RemoveAt<Task>(Ring([1], 1), IndexOf<Task>([1], 1)) == Ring([], 0) by {
        RemovedRings();
      }
      assert InsertEnd<Task>(Ring([2], 1), 1) == Ring([1, 2], 2) by {
        InsertedRings();
      }
      Moved(B5(), 1, 3, Ring([], 0), Ring([1, 2], 2));
    }
  }

  lemma {:induction false} B7Follows()
    ensures Leads(B6(), BlockEvent(1), B7())
  {
    hide InvFrom, Known, Shaped, CanSelect, IndexOf, RemoveAt, InsertEnd, BlockOnEvent, InsertSorted;
    if Inv(B6()) {
      StepInv(B6(), BlockEvent(1));
      InvShape(B6());
      assert B6().ready[3] == Ring([1, 2], 2);
      assert RemoveAt<Task>(Ring([1, 2], 2), IndexOf<Task>([1, 2], 2)) == Ring([1], 1) by {
        RemovedRings();
      }
      assert InsertSorted<Task>([], Item(2, 1)) == [Item(2, 1)] by {
        DelayValues();
      }
      Blocked(B6(), Ring([1], 1), 1, [Item(2, 1)]);
    }
  }

  lemma {:induction false} B8Follows()
    ensures Leads(B7(), Switch, B8())
  {
    hide InvFrom, Known, Shaped, CanSelect;
    if Inv(B7()) {
      StepInv(B7(), Switch);
      assert B7().ready[3] == Ring([1], 1);
    }
  }

  lemma {:induction false} B9Follows()
    ensures Leads(B8(), SetPriority(2, 7), B9())
  {
    hide InvFrom, Known, Shaped, CanSelect;
    if Inv(B8()) {
      StepInv(B8(), SetPriority(2, 7));
      assert B8().ready[3] == Ring([1], 1);
    }
  }

  lemma {:induction false} B10Follows()
    ensures Leads(B9(), Tick, B10())
  {
    hide InvFrom, Known, Shaped, CanSelect, IndexOf, RemoveAt, InsertEnd, TickIsr;
    if Inv(B9()) {
      StepInv(B9(), Tick);
      assert B9().ready[7] == Empty();
      assert InsertEnd<Task>(Empty(), 2) == Ring([2], 0) by {
        InsertedRings();
      }
      Ticked(B9(), 2, Ring([2], 0));
    }
  }

  lemma {:induction false} B11Follows()
    ensures Leads(B10(), Switch, B11())
  {
    hide InvFrom, Known, Shaped, CanSelect;
    if Inv(B10()) {
      StepInv(B10(), Switch);
      assert B10().ready[7] == Ring([2], 0);
    }
  }

  lemma {:induction false} GivenBack()
    requires Inv(A13()) && Shaped(A13())
    ensures 2 in A13().tcbs && Give(A13(), Some(2)) == A14()
  {
    hide InvFrom, IndexOf, RemoveAt, InsertEnd, MakeReady, DropItem, Reprioritise, Shaped;
    assert A13().ready[5] == Ring([1], 1);
    InsertedRings();
    DelayValues();
    var k := A13().(tcbs := A13().tcbs[1 := T(5, 1, 1)]);
    SameShape(A13(), k);
    Woken(k, 2, [Item(3, 5)], Ring([2, 1], 2));
  }

  // ----- the runs -----

  /** Task 1 takes two mutexes, tasks 3 and 2 wait for one each, and it gives back the one 2 waits for. */
  ghost function GivesOutOfOrder(): seq<Op> {
    [CreateTask(1, 1), Switch, TakeMutex, TakeMutex, CreateTask(3, 1), Switch, BlockEvent(5), Switch,
     CreateTask(2, 5), Switch, InheritFor(1), BlockEvent(5), Switch, GiveMutex(Some(2))]
  }

  lemma {:induction false} RunToA3(ops: seq<Op>)
    requires |ops| > 3 && ops[..3] == [CreateTask(1, 1), Switch, TakeMutex]
    ensures Inv(Start()) && Inv(A3()) && Run(Start(), ops) == Run(A3(), ops[3..])
  {
    hide InvFrom, Run, Leads, Step, A1, A2, A3;
    StartInv();
    assert ops[0..] == ops && ops[0] == ops[..3][0] && ops[1] == ops[..3][1] && ops[2] == ops[..3][2];
    A1Follows();
    RunLeads(Start(), ops, 0, A1());
    A2Follows();
    RunLeads(A1(), ops, 1, A2());
    A3Follows();
    RunLeads(A2(), ops, 2, A3());
  }

  lemma {:induction false} RunA()
    ensures Inv(Start()) && Inv(A14()) && Run(Start(), GivesOutOfOrder()) == A14()
  {
    hide InvFrom, Run, Leads, Step, A3, A4, A5, A6, A7, A8, A9, A10, A11, A12, A13, A14;
    var ops := GivesOutOfOrder();
    RunToA3(ops);
    A4Follows();
    RunLeads(A3(), ops, 3, A4());
    A5Follows();
    RunLeads(A4(), ops, 4, A5());
    A6Follows();
    RunLeads(A5(), ops, 5, A6());
    A7Follows();
    RunLeads(A6(), ops, 6, A7());
    A8Follows();
    RunLeads(A7(), ops, 7, A8());
    A9Follows();
    RunLeads(A8(), ops, 8, A9());
    A10Follows();
    RunLeads(A9(), ops, 9, A10());
    A11Follows();
    RunLeads(A10(), ops, 10, A11());
    A12Follows();
    RunLeads(A11(), ops, 11, A12());
    A13Follows();
    RunLeads(A12(), ops, 12, A13());
    A14Follows();
    RunLeads(A13(), ops, 13, A14());
    RunEnds(A14(), ops);
  }

  lemma {:induction false} RunEnds(k: State, ops: seq<Op>)
    requires Inv(k)
    ensures Run(k, ops[|ops|..]) == k
  {
  }

  /** Preemption is lost by giving back a mutex that `w` waits for. */
  ghost predicate GiveMisses(k: State, w: Task) {
    && Known(k) && Preempts(k) && Enabled(k, GiveMutex(Some(w)))
    && var k' := Give(k, Some(w)); k'.current in k'.tcbs && !Preempts(k')
  }

  /** Giving the other mutex too leaves task 2 ready above the running task 1 and no switch flagged. */
  lemma {:induction false} GivingMissesPreemption()
    ensures Inv(Start())
    ensures GiveMisses(Run(Start(), GivesOutOfOrder()), 3)
  {
    hide InvFrom, Run, Give, Known, Preempts, Overtaken, A14;
    RunA();
    InvShape(A14());
    MembersAreLive(A14(), {}, A14().tick + 1);
    AboutToGive();
    GivePreemptsIff(A14(), Some(3));
  }

  lemma {:induction false} AboutToGive()
    requires Shaped(A14()) && Known(A14())
    ensures var k := A14();
            && 3 in k.tcbs && k.current == 1 && IsReady(k, 1) && Preempts(k) && Enabled(k, GiveMutex(Some(3)))
            && Lowers(k) && !Flagged(k) && Prio(k, 3) <= k.tcbs[1].base && Overtaken(k)
  {
    hide Known, Shaped;
    assert A14().ready[5] == Ring([2, 1], 2);
    assert A14().ready[5].items[0] == 2 && A14().ready[5].items[1] == 1;
    assert IsReady(A14(), 2);
  }

  /** Task 2 waits for the mutex of task 1, is raised meanwhile, and times out. */
  ghost function RaisedWhileWaiting(): seq<Op> {
    [CreateTask(1, 1), Switch, TakeMutex, CreateTask(2, 3), Switch, InheritFor(1), BlockEvent(1),
     Switch, SetPriority(2, 7), Tick, Switch]
  }

  lemma {:induction false} RunB()
    ensures Inv(Start()) && Inv(B11()) && Run(Start(), RaisedWhileWaiting()) == B11()
  {
    hide InvFrom, Run, Leads, Step, A3, B4, B5, B6, B7, B8, B9, B10, B11;
    var ops := RaisedWhileWaiting();
    RunToA3(ops);
    B4Follows();
    RunLeads(A3(), ops, 3, B4());
    B5Follows();
    RunLeads(B4(), ops, 4, B5());
    B6Follows();
    RunLeads(B5(), ops, 5, B6());
    B7Follows();
    RunLeads(B6(), ops, 6, B7());
    B8Follows();
    RunLeads(B7(), ops, 7, B8());
    B9Follows();
    RunLeads(B8(), ops, 8, B9());
    B10Follows();
    RunLeads(B9(), ops, 9, B10());
    B11Follows();
    RunLeads(B10(), ops, 10, B11());
    RunEnds(B11(), ops);
  }

  /**
   * The run reaches a state in which the timed-out task 2 runs alone at the top and its
   * disinheritance of task 1 leaves bit 3 stale: the selection still succeeds, and fails as soon
   * as task 2 blocks.
   */
  lemma {:induction false} TimeoutBreaksSelection()
    ensures Inv(Start()) && Inv(Run(Start(), RaisedWhileWaiting()))
    ensures var k := Run(Start(), RaisedWhileWaiting());
            && k.current == 2 && 1 in k.tcbs && Shaped(k) && IsReady(k, 2) && Preempts(k)
            && !BitSurvives(k, 1, 0)
            && var k1 := DisinheritAfterTimeout(k, 1, 0);
               && Shaped(k1) && CanSelect(k1)
               && Shaped(BlockCurrent(k1, 1, false)) && !CanSelect(BlockCurrent(k1, 1, false))
  {
    hide InvFrom, Run, DisinheritAfterTimeout, BlockCurrent, BitSurvives, Preempts;
    RunB();
    BrokenSelection();
  }

  lemma {:induction false} AfterTimeout()
    requires Inv(B11()) && Shaped(B11())
    ensures !BitSurvives(B11(), 1, 0)
    ensures DisinheritAfterTimeout(B11(), 1, 0)
         == B11().(tcbs := B11().tcbs[1 := T(1, 1, 1)], bitmap := {0, 1, 3, 7},
                   ready := B11().ready[3 := Ring([], 0)][1 := Ring([1], 0)])
  {
    hide InvFrom, Reprioritise, DisinheritAfterTimeout, RemoveAt, InsertEnd, IndexOf;
    RemovedRings();
    InsertedRings();
    assert B11().ready[3] == Ring([1], 1) && B11().ready[1] == Ring([], 0);
    Moved(B11(), 1, 1, Ring([], 0), Ring([1], 0));
    TimeoutIsReprioritise(B11(), 1, 0);
    assert {0, 3, 7} - {3} + {1} + {3} == {0, 1, 3, 7};
  }

  lemma {:induction false} BrokenSelection()
    requires Inv(B11())
    ensures var k := B11();
            && 1 in k.tcbs && 2 in k.tcbs && Shaped(k) && IsReady(k, 2) && Preempts(k) && !BitSurvives(k, 1, 0)
            && var k1 := DisinheritAfterTimeout(k, 1, 0);
               && Shaped(k1) && CanSelect(k1)
               && Shaped(BlockCurrent(k1, 1, false)) && !CanSelect(BlockCurrent(k1, 1, false))
  {
    hide InvFrom, DisinheritAfterTimeout, BlockCurrent, BitSurvives, Shaped, StaleAt, CanSelect, Preempts, IsReady;
    InvShape(B11());
    RunsAlone();
    AfterTimeout();
    TimeoutLeavesStale(B11(), 1, 0);
    var k1 := DisinheritAfterTimeout(B11(), 1, 0);
    StaleSelectionIff(k1, 3);
    LastBlock(k1);
    StaleSelectionIff(BlockCurrent(k1, 1, false), 3);
  }

  lemma {:induction false} RunsAlone()
    requires Shaped(B11())
    ensures B11().ready[7] == Ring([2], 1) && IsReady(B11(), 2) && Preempts(B11())
  {
  }

  lemma {:induction false} StaleThroughRemoval(k: State, e: nat, t: Task)
    requires Shaped(k) && StaleAt(k, e) && t in k.tcbs
    ensures StaleAt(TakeOut(k, t), e)
  {
    hide RemoveAt, IndexOf, DropItem, Drop;
  }

  lemma {:induction false} LastBlock(k: State)
    requires Shaped(k) && k.current == 2 && Prio(k, 2) == 7 && k.ready[7] == Ring([2], 1) && k.bitmap == {0, 1, 3, 7}
    requires StaleAt(k, 3)
    ensures var k' := BlockCurrent(k, 1, false); Shaped(k') && StaleAt(k', 3) && k'.bitmap == {0, 1, 3}
  {
    hide IndexOf, InsertSorted, Wrap;
    var k1 := k.(tcbs := k.tcbs[2 := k.tcbs[2].(delayAborted := false)]);
    StaleThroughRemoval(k1, 3, 2);
    assert TakeOut(k1, 2).ready[7].items == [];
  }

  // ----- a stale bit put right by a suspension -----

  /** B11 as an exact reprioritisation of task 1 would leave it. */
  ghost function C0(): State {
    B11().(tcbs := B11().tcbs[1 := T(1, 1, 1)], ready := B11().ready[3 := Ring([], 0)][1 := Ring([1], 0)],
           bitmap := {0, 1, 7})
  }

  ghost function C1(): State {
    C0().(tcbs := C0().tcbs[4 := T(8, 8, 0)], ready := C0().ready[8 := Ring([4], 0)], bitmap := C0().bitmap + {8},
          switchRequested := true, taskCount := C0().taskCount + 1)
  }

  ghost function C2(): State {
    C1().(ready := C1().ready[8 := Ring([4], 1)], current := 4, switchRequested := false)
  }

  ghost function C3(): State {
    C2().(ready := C2().ready[8 := Ring([], 0)], bitmap := C2().bitmap - {8}, delayed := [Item(4, 6)],
          nextUnblock := 6, eventWaiters := C2().eventWaiters + {4})
  }

  ghost function C4(): State {
    C3().(ready := C3().ready[7 := Ring([2], 1)], current := 2, switchRequested := false)
  }

  ghost function C5(): State {
    C4().(tcbs := C4().tcbs[4 := T(3, 3, 0)])
  }

  lemma {:induction false} B11Facts()
    ensures var k := B11();
            && k.current == 2 && k.suspensions == 0 && k.tick == 1 && k.delayed == [] && k.nextUnblock == MAX_DELAY
            && k.tcbs.Keys == {0, 1, 2} && k.tcbs[2] == T(7, 7, 0) && |k.ready| == PRIORITIES
            && k.ready[8] == Empty() && k.ready[7] == Ring([2], 1) && !k.switchRequested && !k.yieldPending
  {
  }

  lemma {:induction false} C1Follows()
    ensures Leads(C0(), CreateTask(4, 8), C1())
  {
    hide InvFrom, Known, Shaped, CanSelect, IndexOf, RemoveAt, InsertEnd, B11;
    B11Facts();
    if Inv(C0()) {
      StepInv(C0(), CreateTask(4, 8));
      assert C0().ready[8] == Empty();
      assert InsertEnd<Task>(Empty(), 4) == Ring([4], 0) by {
        LaterRings();
      }
    }
  }

  lemma {:induction false} LaterRings()
    ensures InsertEnd<Task>(Empty(), 4) == Ring([4], 0)
    ensures RemoveAt<Task>(Ring([4], 1), IndexOf<Task>([4], 4)) == Ring([], 0)
    ensures InsertSorted<Task>([], Item(4, 6)) == [Item(4, 6)]
  {
  }

  lemma {:induction false} C2Follows()
    ensures Leads(C1(), Switch, C2())
  {
    hide InvFrom, Known, Shaped, CanSelect, B11;
    B11Facts();
    if Inv(C1()) {
      StepInv(C1(), Switch);
      assert C1().ready[8] == Ring([4], 0);
    }
  }

  lemma {:induction false} C3Follows()
    ensures Leads(C2(), BlockEvent(5), C3())
  {
    hide InvFrom, Known, Shaped, CanSelect, IndexOf, RemoveAt, InsertEnd, BlockOnEvent, InsertSorted, B11;
    B11Facts();
    if Inv(C2()) {
      StepInv(C2(), BlockEvent(5));
      InvShape(C2());
      assert C2().ready[8] == Ring([4], 1);
      LaterRings();
      Blocked(C2(), Ring([], 0), 5, [Item(4, 6)]);
    }
  }

  lemma {:induction false} C4Follows()
    ensures Leads(C3(), Switch, C4())
  {
    hide InvFrom, Known, Shaped, CanSelect, B11;
    B11Facts();
    if Inv(C3()) {
      StepInv(C3(), Switch);
      assert C3().ready[7] == Ring([2], 1);
    }
  }

  lemma {:induction false} C5Follows()
    ensures Leads(C4(), SetPriority(4, 3), C5())
  {
    hide InvFrom, Known, Shaped, CanSelect, B11;
    B11Facts();
    if Inv(C4()) {
      StepInv(C4(), SetPriority(4, 3));
      assert C4().ready[8] == Ring([], 0);
    }
  }

  /** Nobody is ready at priority 3, and task 2 is at priority 7. */
  ghost predicate OnlyAbove(k: State) {
    |k.ready| == PRIORITIES && k.ready[3].items == [] && 7 in k.bitmap
  }

  lemma {:induction false} AllAbove()
    ensures OnlyAbove(C0()) && OnlyAbove(C1()) && OnlyAbove(C2()) && OnlyAbove(C3()) && OnlyAbove(C4())
  {
  }

  /** With bit 3 stale below the highest bit, the marked run goes along. */
  lemma {:induction false} GoesAlong(k: State, ops: seq<Op>, i: nat, k': State)
    requires Inv(k) && i < |ops| && Leads(k, ops[i], k') && !ops[i].SuspendTask? && !ops[i].DeleteTask?
    requires OnlyAbove(k)
    ensures Inv(k') && RunOn(Marked(k, 3), ops[i..]) == RunOn(Marked(k', 3), ops[i + 1..])
  {
    hide InvFrom, Step, Known, CanSelect;
    InvShape(k);
    assert 7 <= Highest(k.bitmap);
    StepMarked(k, 3, ops[i]);
    StepInv(k, ops[i]);
    assert ops[i..][0] == ops[i] && ops[i..][1..] == ops[i + 1..];
  }

  /** Task 4 is created, blocks, and is given priority 3 in its sleep. */
  ghost function SleeperAtThree(): seq<Op> {
    [CreateTask(4, 8), Switch, BlockEvent(5), Switch, SetPriority(4, 3)]
  }

  lemma {:induction false} RunC()
    requires Inv(C0())
    ensures Inv(C5()) && RunOn(Marked(C0(), 3), SleeperAtThree()) == Some(Marked(C5(), 3))
  {
    hide InvFrom, RunOn, Leads, Step, OnlyAbove, C0, C1, C2, C3, C4, C5;
    var ops := SleeperAtThree();
    AllAbove();
    C1Follows();
    GoesAlong(C0(), ops, 0, C1());
    C2Follows();
    GoesAlong(C1(), ops, 1, C2());
    C3Follows();
    GoesAlong(C2(), ops, 2, C3());
    C4Follows();
    GoesAlong(C3(), ops, 3, C4());
    C5Follows();
    GoesAlong(C4(), ops, 4, C5());
    assert ops[0..] == ops && ops[5..] == [];
    NothingLeft(Marked(C5(), 3));
  }

  lemma {:induction false} NothingLeft(k: State)
    ensures RunOn(k, []) == Some(k)
  {
  }

  lemma {:induction false} TimeoutMarksC0()
    requires Inv(B11())
    ensures Inv(C0()) && Shaped(B11()) && DisinheritAfterTimeout(B11(), 1, 0) == Marked(C0(), 3)
  {
    hide InvFrom, Reprioritise, DisinheritAfterTimeout, RemoveAt, InsertEnd, IndexOf, BitSurvives;
    InvShape(B11());
    AfterTimeout();
    TimeoutLeavesStale(B11(), 1, 0);
    RemovedRings();
    InsertedRings();
    assert B11().ready[3] == Ring([1], 1) && B11().ready[1] == Ring([], 0);
    Moved(B11(), 1, 1, Ring([], 0), Ring([1], 0));
    assert {0, 3, 7} - {3} + {1} == {0, 1, 7};
    assert TimeoutPriority(B11().tcbs[1], 0) == 1 && Reprioritise(B11(), 1, 1) == C0();
  }

  /**
   * From the state with the stale bit 3 a run reaches one in which the bit is still stale and task
   * 2 suspends a sleeping task of priority 3: the bitmap is exact again and nobody became ready.
   */
  lemma {:induction false} SuspensionRepairs()
    ensures Inv(Start()) && Shaped(Run(Start(), RaisedWhileWaiting())) && 1 in Run(Start(), RaisedWhileWaiting()).tcbs
    ensures var r := RunOn(DisinheritAfterTimeout(Run(Start(), RaisedWhileWaiting()), 1, 0), SleeperAtThree());
            r.Some? && Repairs(r.value, SuspendTask(4), 3)
  {
    hide InvFrom, Run, RunOn, DisinheritAfterTimeout, C0, C5, Repairs;
    RunB();
    TimeoutMarksC0();
    RunC();
    LastSleeper();
  }

  /** Bit `e` is stale, and the step makes the bitmap exact though list `e` stays empty. */
  ghost predicate Repairs(k: State, op: Op, e: nat) {
    && Shaped(k) && StaleAt(k, e) && Known(k) && CanSelect(k)
    && var k' := Step(k, op); Shaped(k') && BitmapExact(k') && k'.ready[e].items == []
  }

  lemma {:induction false} LastSleeper()
    requires Inv(C5())
    ensures Repairs(Marked(C5(), 3), SuspendTask(4), 3)
  {
    hide InvFrom, Step, CanSelect, StaleAt, Known, Shaped, C5, Highest, Clears;
    InvShape(C5());
    MembersAreLive(C5(), {}, C5().tick + 1);
    C5Facts();
    MarkedIsStale(C5(), 3);
    StepMarked(C5(), 3, SuspendTask(4));
    StepInv(C5(), SuspendTask(4));
    StaleSurvivesIff(C5(), 3, SuspendTask(4));
    SuspendedLists(C5(), 4, 3);
  }

  lemma {:induction false} C5Facts()
    requires Shaped(C5()) && Known(C5())
    ensures C5().ready[3].items == [] && 3 < Highest(C5().bitmap) && 4 in C5().tcbs && !IsReady(C5(), 4)
    ensures Enabled(C5(), SuspendTask(4)) && Clears(C5(), SuspendTask(4), 3)
  {
    hide Shaped, Known;
    assert 7 in C5().bitmap && 7 <= Highest(C5().bitmap);
    assert C5().ready[3] == Ring([], 0);
    OneSleeper();
  }

  lemma {:induction false} OneSleeper()
    ensures Owners([Item(4, 6)]) == [4]
  {
  }

  lemma {:induction false} SuspendedLists(k: State, t: Task, p: nat)
    requires Inv(k) && Known(k) && CanSelect(k) && Enabled(k, SuspendTask(t)) && !IsReady(k, t) && p < PRIORITIES
    ensures |Step(k, SuspendTask(t)).ready| == PRIORITIES && Step(k, SuspendTask(t)).ready[p] == k.ready[p]
  {
    hide InvFrom, DropItem, Drop, SleepsAlone;
  }
}
