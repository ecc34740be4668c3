/**
 * Which steps keep priority inheritance, exactly, and what happens to it when a premise of the
 * theorem over runs is dropped.
 */
module MutexPremises {
  import opened Ticks
  import opened Rings
  import opened Tasks
  import Kernel
  import KernelRuns
  import opened Queues
  import opened Mutexes

  // ----- exact conditions -----

  /** A take keeps the property exactly when nobody left waiting outranks the taker. */
  lemma {:induction false} TakeKeepsIff(s: System, t: Task, m: Mutex)
    requires Inherits(s) && Applies(s, Take(t, m))
    requires Sorted(s.mutexes[m].waiters) && forall x :: x in s.mutexes[m].waiters ==> Waiter(s.tcbs, x)
    ensures Inherits(Apply(s, Take(t, m))) <==> HighestWaiting(s.mutexes[m].waiters) <= s.tcbs[t].priority
  {
    hide Sorted;
    var s', waiters := Apply(s, Take(t, m)), s.mutexes[m].waiters;
    CountsKept(s, s', m);
    forall u | u in s.tcbs ensures HeldBy(s.mutexes, u) <= HeldBy(s'.mutexes, u) {
    }
    assert m in HeldBy(s'.mutexes, t);
    if waiters != [] {
      assert waiters[0] in waiters && Waiter(s.tcbs, waiters[0]);
      assert Outranked(s'.tcbs, waiters[0].owner, t) <==> HighestWaiting(waiters) <= s.tcbs[t].priority;
      forall x | x in waiters ensures s.tcbs[x.owner].priority <= HighestWaiting(waiters) {
        HighestIsHighest(s.tcbs, waiters, x);
      }
    }
    forall m', x | m' in s.mutexes && m' != m && x in s.mutexes[m'].waiters && s.mutexes[m'].holder.Some?
      ensures Outranked(s'.tcbs, x.owner, s'.mutexes[m'].holder.value)
    {
      assert Outranked(s.tcbs, x.owner, s.mutexes[m'].holder.value);
    }
  }

  /** The task `h` waits for no mutex whose holder is another task below priority `p`. */
  ghost predicate NotHeldUpBelow(s: System, h: Task, p: nat) {
    forall m, x :: m in s.mutexes && x in s.mutexes[m].waiters && x.owner == h
                   && s.mutexes[m].holder.Some? && s.mutexes[m].holder.value != h ==>
      s.mutexes[m].holder.value in s.tcbs && p <= s.tcbs[s.mutexes[m].holder.value].priority
  }

  lemma {:induction false} PlacedAdds(l: seq<Item<Task>>, t: Task, p: nat)
    requires p < PRIORITIES
    ensures forall x :: x in Placed(l, t, p) <==> x in l || x == Item(t, PRIORITIES - p)
  {
    InsertSortedAdds(l, Item(t, PRIORITIES - p));
    forall x ensures x in Placed(l, t, p) <==> x in multiset(l) + multiset{Item(t, PRIORITIES - p)} {
      assert x in Placed(l, t, p) <==> x in multiset(Placed(l, t, p));
    }
  }

  /** Inheritance is not passed on: a wait keeps the property exactly when nothing is left to pass on. */
  lemma {:induction false} WaitKeepsIff(s: System, t: Task, m: Mutex)
    requires Inherits(s) && Applies(s, Wait(t, m))
    ensures Inherits(Apply(s, Wait(t, m))) <==> NotHeldUpBelow(s, s.mutexes[m].holder.value, s.tcbs[t].priority)
  {
    hide Inherits, Apply, NotHeldUpBelow;
    if NotHeldUpBelow(s, s.mutexes[m].holder.value, s.tcbs[t].priority) {
      NothingToPassOn(s, t, m);
    } else {
      NothingPassedOn(s, t, m);
    }
  }

  lemma {:induction false} NothingToPassOn(s: System, t: Task, m: Mutex)
    requires Inherits(s) && Applies(s, Wait(t, m))
    requires NotHeldUpBelow(s, s.mutexes[m].holder.value, s.tcbs[t].priority)
    ensures Inherits(Apply(s, Wait(t, m)))
  {
    hide Placed, Counted;
    var s', h, p := Apply(s, Wait(t, m)), s.mutexes[m].holder.value, s.tcbs[t].priority;
    PlacedAdds(s.mutexes[m].waiters, t, p);
    forall u ensures HeldBy(s.mutexes, u) == HeldBy(s'.mutexes, u) {
    }
    assert m in HeldBy(s.mutexes, h);
    CountsAfterWait(s, t, m);
    forall m', x | m' in s'.mutexes && x in s'.mutexes[m'].waiters && s'.mutexes[m'].holder.Some?
      ensures Outranked(s'.tcbs, x.owner, s'.mutexes[m'].holder.value)
    {
      assert x in s.mutexes[m'].waiters ==> Outranked(s.tcbs, x.owner, s.mutexes[m'].holder.value);
    }
  }

  lemma {:induction false} CountsAfterWait(s: System, t: Task, m: Mutex)
    requires Counted(s) && Applies(s, Wait(t, m))
    ensures Counted(Apply(s, Wait(t, m)))
  {
    hide Placed;
    CountsKept(s, Apply(s, Wait(t, m)), m);
  }

  lemma {:induction false} NothingPassedOn(s: System, t: Task, m: Mutex)
    requires Inherits(s) && Applies(s, Wait(t, m))
    requires !NotHeldUpBelow(s, s.mutexes[m].holder.value, s.tcbs[t].priority)
    ensures !Inherits(Apply(s, Wait(t, m)))
  {
    hide Placed, Counted;
    var s', h, p := Apply(s, Wait(t, m)), s.mutexes[m].holder.value, s.tcbs[t].priority;
    var m', x :| m' in s.mutexes && x in s.mutexes[m'].waiters && x.owner == h && s.mutexes[m'].holder.Some?
      && s.mutexes[m'].holder.value != h
      && !(s.mutexes[m'].holder.value in s.tcbs && p <= s.tcbs[s.mutexes[m'].holder.value].priority);
    assert Outranked(s.tcbs, x.owner, s.mutexes[m'].holder.value);
    assert x in s'.mutexes[m'].waiters && !Outranked(s'.tcbs, h, s'.mutexes[m'].holder.value);
  }

  /** What vTaskPrioritySet does to a TCB: it leaves an inherited priority alone. No mutex is told. */
  function Rebased(tcb: Tcb, p: nat): Tcb {
    tcb.(base := p, priority := if tcb.base == tcb.priority then p else tcb.priority)
  }

  ghost function WithBase(s: System, t: Task, p: nat): System
    requires t in s.tcbs
  {
    s.(tcbs := s.tcbs[t := Rebased(s.tcbs[t], p)])
  }

  lemma {:induction false} RebasedAsKernel(k: Kernel.State, t: Task, p: nat)
    requires Kernel.Shaped(k) && t in k.tcbs && p < PRIORITIES
    ensures Kernel.PrioritySet(k, t, p).tcbs == k.tcbs[t := Rebased(k.tcbs[t], p)]
  {
    hide Kernel.Reprioritise;
    KernelRuns.ReprioritiseFrame(k, t, if k.tcbs[t].base == k.tcbs[t].priority then p else k.tcbs[t].priority);
  }

  /** Everyone else waiting for a mutex that `t` holds is at most at priority `p`. */
  ghost predicate HoldsUpNobodyAbove(s: System, t: Task, p: nat) {
    forall m, x :: m in s.mutexes && x in s.mutexes[m].waiters && x.owner != t && s.mutexes[m].holder == Some(t) ==>
      x.owner in s.tcbs && s.tcbs[x.owner].priority <= p
  }

  /**
   * A new base priority keeps the property exactly when an inherited priority is not below it,
   * and a priority that moves with it fits between those the task holds up and those it waits for.
   */
  lemma {:induction false} PrioritySetKeepsIff(s: System, t: Task, p: nat)
    requires Inherits(s) && t in s.tcbs
    ensures Inherits(WithBase(s, t, p)) <==>
            if s.tcbs[t].base == s.tcbs[t].priority then HoldsUpNobodyAbove(s, t, p) && NotHeldUpBelow(s, t, p)
            else p <= s.tcbs[t].priority
  {
    var s' := WithBase(s, t, p);
    var moves := s.tcbs[t].base == s.tcbs[t].priority;
    var fits := HoldsUpNobodyAbove(s, t, p) && NotHeldUpBelow(s, t, p);
    assert Counted(s');
    if moves && !fits {
      UnfitBreaks(s, t, p);
    } else {
      forall m, x | m in s.mutexes && x in s.mutexes[m].waiters && s.mutexes[m].holder.Some?
        ensures Outranked(s'.tcbs, x.owner, s'.mutexes[m].holder.value)
      {
        assert Outranked(s.tcbs, x.owner, s.mutexes[m].holder.value);
      }
      assert s'.tcbs[t].priority >= s'.tcbs[t].base <==> moves || p <= s.tcbs[t].priority;
    }
  }

  lemma {:induction false} UnfitBreaks(s: System, t: Task, p: nat)
    requires Inherits(s) && t in s.tcbs && s.tcbs[t].base == s.tcbs[t].priority
    requires !HoldsUpNobodyAbove(s, t, p) || !NotHeldUpBelow(s, t, p)
    ensures !Inherits(WithBase(s, t, p))
  {
    var s' := WithBase(s, t, p);
    if !HoldsUpNobodyAbove(s, t, p) {
      var m, x :| m in s.mutexes && x in s.mutexes[m].waiters && x.owner != t && s.mutexes[m].holder == Some(t)
        && !(x.owner in s.tcbs && s.tcbs[x.owner].priority <= p);
      assert m in s'.mutexes && x in s'.mutexes[m].waiters && !Outranked(s'.tcbs, x.owner, t);
    } else {
      var m, x :| m in s.mutexes && x in s.mutexes[m].waiters && x.owner == t && s.mutexes[m].holder.Some?
        && s.mutexes[m].holder.value != t
        && !(s.mutexes[m].holder.value in s.tcbs && p <= s.tcbs[s.mutexes[m].holder.value].priority);
      assert m in s'.mutexes && x in s'.mutexes[m].waiters && !Outranked(s'.tcbs, t, s'.mutexes[m].holder.value);
    }
  }

  // ----- the premises are needed -----

  ghost function Plain(p: nat): Tcb {
    Kernel.Tcb(p, p, 0, false, false)
  }

  /** Task 2 was woken to take mutex 0 and task 3 still waits for it. */
  ghost function HandOver(): System {
    System(map[1 := Plain(1), 2 := Plain(5), 3 := Plain(4)],
           map[0 := MutexState(None, [Item(3, PRIORITIES - 4)], {2}, {})], {1, 2})
  }

  lemma {:induction false} HandOverInv()
    ensures Inv(HandOver())
  {
    var s, x := HandOver(), Item(3, PRIORITIES - 4);
    assert s.mutexes[0].waiters == [x];
    forall t | t in s.tcbs ensures s.tcbs[t].mutexesHeld == |HeldBy(s.mutexes, t)| {
      assert HeldBy(s.mutexes, t) == {};
    }
    assert 2 in s.mutexes[0].woken;
  }

  /** A take by a task that a ready one outranks leaves a waiter above the holder. */
  lemma {:induction false} TakerMustRun()
    ensures Inv(HandOver()) && Applies(HandOver(), Take(1, 0)) && !Inherits(Apply(HandOver(), Take(1, 0)))
  {
    hide Apply, Inherits, Inv;
    HandOverInv();
    InvInherits(HandOver());
    assert HandOver().mutexes[0].waiters == [Item(3, PRIORITIES - 4)];
    TakeKeepsIff(HandOver(), 1, 0);
  }

  /** Task 1 holds mutex 0; task 2 waits for it and holds mutex 1. */
  ghost function Nested(): System {
    System(map[1 := Kernel.Tcb(2, 1, 1, false, false), 2 := Kernel.Tcb(2, 2, 1, false, false), 3 := Plain(9)],
           map[0 := MutexState(Some(1), [Item(2, PRIORITIES - 2)], {}, {}), 1 := MutexState(Some(2), [], {}, {})],
           {1, 3})
  }

  /** Inheritance is not passed on: waiting while holding breaks the property. */
  lemma {:induction false} WaiterMustHoldNothing()
    ensures Inherits(Nested()) && Applies(Nested(), Wait(3, 1)) && !Inherits(Apply(Nested(), Wait(3, 1)))
  {
    hide Apply;
    var s := Nested();
    assert HeldBy(s.mutexes, 1) == {0} && HeldBy(s.mutexes, 2) == {1} && HeldBy(s.mutexes, 3) == {};
    var x := Item(2, PRIORITIES - 2);
    assert s.mutexes[0].waiters[0] == x && x in s.mutexes[0].waiters && s.mutexes[0].holder == Some(1);
    assert !NotHeldUpBelow(s, 2, 9);
    WaitKeepsIff(s, 3, 1);
  }

  /** A woken waiter that is suspended before it retries lets a lower task take, legally, and hold up a waiter. */
  lemma {:induction false} WokenMustStayReady()
    ensures Inv(HandOver()) && Applies(HandOver(), Block(2))
    ensures var s := Apply(HandOver(), Block(2)); Enabled(s, Take(1, 0)) && !Inherits(Apply(s, Take(1, 0)))
  {
    TakerMustRun();
    var s, x := Apply(HandOver(), Block(2)), Item(3, PRIORITIES - 4);
    assert s.mutexes[0].waiters == [x];
    var s' := Apply(s, Take(1, 0));
    assert s'.mutexes[0].waiters[0] == x && x in s'.mutexes[0].waiters && !Outranked(s'.tcbs, 3, 1);
  }

  /** Task 1 holds mutex 0 at the priority of task 2, which waits for it. */
  ghost function Inheriting(): System {
    System(map[1 := Kernel.Tcb(3, 1, 1, false, false), 2 := Plain(3)],
           map[0 := MutexState(Some(1), [Item(2, PRIORITIES - 3)], {}, {})], {1})
  }

  /** Raising the base priority of a waiter, or of a holder that has inherited, breaks the property. */
  lemma {:induction false} BasesMustStay()
    ensures Inv(Inheriting()) && !Inherits(WithBase(Inheriting(), 2, 7)) && !Inherits(WithBase(Inheriting(), 1, 7))
  {
    var s, x := Inheriting(), Item(2, PRIORITIES - 3);
    assert s.mutexes[0].waiters[0] == x;
    assert HeldBy(s.mutexes, 1) == {0} && HeldBy(s.mutexes, 2) == {};
    assert x in s.mutexes[0].waiters && Waiter(s.tcbs, x);
    assert x in WithBase(s, 2, 7).mutexes[0].waiters && !Outranked(WithBase(s, 2, 7).tcbs, 2, 1);
  }
}
