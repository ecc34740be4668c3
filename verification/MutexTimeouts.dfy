/**
 * When the wrong bit reset of vTaskPriorityDisinheritAfterTimeout can matter. As long as base
 * priorities stay and every call is made by the running task, the holder that a timed-out waiter
 * lowers is never alone on a ready list, so the scheduler's ready bitmap stays exact.
 */
module MutexTimeouts {
  import opened Ticks
  import opened Rings
  import opened Tasks
  import Kernel
  import KernelReady
  import opened Queues
  import opened Mutexes

  ghost predicate LateSomewhere(s: System, t: Task) {
    exists m :: m in s.mutexes && t in s.mutexes[m].late
  }

  /**
   * The running task makes the calls. A task whose wait has ended stays ready, and its next call is
   * the one that acts on it: it disinherits the holder, or resigns because the mutex has become
   * free, because it caused no inheritance, or in order to wait again.
   */
  ghost predicate Orderly(s: System, op: Op) {
    && Enabled(s, op)
    && match op
       case Take(t, _) => !LateSomewhere(s, t)
       case Wait(t, _) => Runs(s, t) && !LateSomewhere(s, t)
       case Retry(t, m) => t in s.mutexes[m].woken
       case Expire(t, m) => exists x :: x in s.mutexes[m].waiters && x.owner == t
       case DisinheritFor(t, m) => Runs(s, t) && t in s.mutexes[m].late
       case Resign(t, m) => Runs(s, t) && t in s.mutexes[m].late
       case Block(t) => !LateSomewhere(s, t)
       case _ => true
  }

  ghost predicate OrderlyRun(s: System, ops: seq<Op>)
    decreases |ops|
  {
    ops == [] || (Orderly(s, ops[0]) && OrderlyRun(Step(s, ops[0]), ops[1..]))
  }

  // ----- the invariant -----

  /** The holder's only mutex is this one, and its priority is explained by its base, its waiters or a late task. */
  ghost predicate Settled(tcbs: map<Task, Tcb>, mu: MutexState, h: Task)
    requires h in tcbs
  {
    && tcbs[h].mutexesHeld == 1
    && (|| TimedOut(tcbs[h], HighestWaiting(mu.waiters)) == tcbs[h]
        || exists x :: x in mu.late && x in tcbs && tcbs[x].priority == tcbs[h].priority)
  }

  ghost predicate AboveAll(tcbs: map<Task, Tcb>, tasks: set<Task>, h: Task)
    requires h in tcbs
  {
    forall t :: t in tasks && t in tcbs ==> tcbs[t].priority <= tcbs[h].priority
  }

  ghost predicate LateSound(tcbs: map<Task, Tcb>, ready: set<Task>, mu: MutexState) {
    && (forall t :: t in mu.late ==> Unburdened(tcbs, t) && t in ready)
    && (mu.holder.Some? && mu.holder.value in tcbs ==>
          AboveAll(tcbs, mu.late + mu.woken, mu.holder.value) || Settled(tcbs, mu, mu.holder.value))
  }

  ghost predicate LateInv(s: System) {
    forall m :: m in s.mutexes ==> LateSound(s.tcbs, s.ready, s.mutexes[m])
  }

  // ----- a mutex and a task whose priority stays -----

  /** `t` is neither late for nor woken from the mutex and, where it holds it, does not sink. */
  lemma {:induction false} OtherChanged(tcbs: map<Task, Tcb>, ready: set<Task>, mu: MutexState, t: Task, tcb: Tcb)
    requires LateSound(tcbs, ready, mu) && t in tcbs && t !in mu.late && t !in mu.woken
    requires mu.holder == Some(t) ==> AboveAll(tcbs, mu.late + mu.woken, t) && tcbs[t].priority <= tcb.priority
    ensures LateSound(tcbs[t := tcb], ready, mu)
  {
    hide TimedOut, HighestWaiting;
    if mu.holder.Some? && mu.holder.value in tcbs && mu.holder != Some(t) {
      var h := mu.holder.value;
      if Settled(tcbs, mu, h) && exists x :: x in mu.late && x in tcbs && tcbs[x].priority == tcbs[h].priority {
        var x :| x in mu.late && x in tcbs && tcbs[x].priority == tcbs[h].priority;
        assert x in mu.late && x in tcbs[t := tcb] && tcbs[t := tcb][x].priority == tcbs[h].priority;
      }
    }
  }

  lemma {:induction false} HoldersFree(s: System, m: Mutex, t: Task)
    requires Inv(s) && LateInv(s) && m in s.mutexes && t in s.tcbs && s.tcbs[t].mutexesHeld > 0
    ensures t !in s.mutexes[m].late && t !in s.mutexes[m].woken
  {
    assert MutexSound(s.tcbs, s.ready, s.mutexes[m]) && LateSound(s.tcbs, s.ready, s.mutexes[m]);
  }

  /** The running task is above everyone late or woken. */
  lemma {:induction false} RunnerAbove(s: System, m: Mutex, t: Task)
    requires Inv(s) && LateInv(s) && m in s.mutexes && Runs(s, t)
    ensures AboveAll(s.tcbs, s.mutexes[m].late + s.mutexes[m].woken, t)
  {
    assert MutexSound(s.tcbs, s.ready, s.mutexes[m]) && LateSound(s.tcbs, s.ready, s.mutexes[m]);
  }

  // ----- steps keep the invariant -----

  lemma {:induction false} TakeLate(s: System, t: Task, m: Mutex)
    requires Inv(s) && LateInv(s) && Orderly(s, Take(t, m))
    ensures LateInv(Apply(s, Take(t, m)))
  {
    hide MutexSound, Settled;
    var s' := Apply(s, Take(t, m));
    forall m' | m' in s'.mutexes ensures LateSound(s'.tcbs, s'.ready, s'.mutexes[m']) {
      RunnerAbove(s, m', t);
      assert LateSound(s.tcbs, s.ready, s.mutexes[m']) && t !in s.mutexes[m'].late;
      if m' != m {
        OtherChanged(s.tcbs, s.ready, s.mutexes[m'], t, s'.tcbs[t]);
      }
    }
  }

  lemma {:induction false} GiveLate(s: System, t: Task, m: Mutex)
    requires Inv(s) && LateInv(s) && Orderly(s, Give(t, m))
    ensures LateInv(Apply(s, Give(t, m)))
  {
    hide MutexSound, Tail;
    var s' := Apply(s, Give(t, m));
    WaitersBelow(s, m);
    forall m' | m' in s'.mutexes ensures LateSound(s'.tcbs, s'.ready, s'.mutexes[m']) {
      assert LateSound(s.tcbs, s.ready, s.mutexes[m']);
      HoldersFree(s, m', t);
      if m' != m {
        if s.mutexes[m'].holder == Some(t) {
          HoldsTwo(s, t, m, m');
        }
        OtherChanged(s.tcbs, s.ready, s.mutexes[m'], t, s'.tcbs[t]);
      }
    }
  }

  /** The mutex waited for: a raised holder is above everyone, another one stays as it was. */
  lemma {:induction false} WaitedLate(s: System, t: Task, m: Mutex)
    requires Inv(s) && LateInv(s) && Orderly(s, Wait(t, m))
    ensures var s' := Apply(s, Wait(t, m)); LateSound(s'.tcbs, s'.ready, s'.mutexes[m])
  {
    hide Placed, Sorted, Waiter;
    var s', mu, h := Apply(s, Wait(t, m)), s.mutexes[m], s.mutexes[m].holder.value;
    assert LateSound(s.tcbs, s.ready, mu) && t !in mu.late;
    RunnerAbove(s, m, t);
    WaitersBelow(s, m);
    HoldersFree(s, m, h);
    assert MutexSound(s.tcbs, s.ready, mu);
    PlacedHighest(mu.waiters, t, s.tcbs[t].priority);
    if s.tcbs[t].priority <= s.tcbs[h].priority {
      assert s'.tcbs == s.tcbs;
    } else {
      assert AboveAll(s'.tcbs, mu.late + mu.woken, h);
    }
  }

  lemma {:induction false} WaitLate(s: System, t: Task, m: Mutex)
    requires Inv(s) && LateInv(s) && Orderly(s, Wait(t, m))
    ensures LateInv(Apply(s, Wait(t, m)))
  {
    hide MutexSound, Placed, Settled;
    var s', h := Apply(s, Wait(t, m)), s.mutexes[m].holder.value;
    WaitersBelow(s, m);
    forall m' | m' in s'.mutexes ensures LateSound(s'.tcbs, s'.ready, s'.mutexes[m']) {
      assert LateSound(s.tcbs, s.ready, s.mutexes[m']) && t !in s.mutexes[m'].late;
      if m' == m {
        WaitedLate(s, t, m);
      } else {
        HoldersFree(s, m', h);
        if s.mutexes[m'].holder == Some(h) {
          TwoUnsettled(s, h, m, m');
        }
        OtherChanged(s.tcbs, s.ready, s.mutexes[m'], h, s'.tcbs[h]);
      }
    }
  }

  /** A holder of two mutexes is above everyone late for either. */
  lemma {:induction false} TwoUnsettled(s: System, h: Task, m: Mutex, m': Mutex)
    requires Inv(s) && LateInv(s) && h in s.tcbs && m in s.mutexes && m' in s.mutexes && m != m'
    requires s.mutexes[m].holder == Some(h) && s.mutexes[m'].holder == Some(h)
    ensures s.tcbs[h].mutexesHeld >= 2 && AboveAll(s.tcbs, s.mutexes[m'].late + s.mutexes[m'].woken, h)
  {
    HoldsTwo(s, h, m, m');
    assert LateSound(s.tcbs, s.ready, s.mutexes[m']);
  }

  lemma {:induction false} WithoutHead(l: seq<Item<Task>>, t: Task)
    requires Sorted(l) && l != [] && l[0].owner != t
    ensures HighestWaiting(Without(l, t)) == HighestWaiting(l)
  {
  }

  /** A waiter that times out and was what the holder's priority rested on is late at that priority. */
  lemma {:induction false} ExpiredSettled(s: System, t: Task, m: Mutex, h: Task)
    requires Inv(s) && Orderly(s, Expire(t, m)) && s.mutexes[m].holder == Some(h)
    requires h in s.tcbs && Settled(s.tcbs, s.mutexes[m], h)
    ensures Settled(s.tcbs, Apply(s, Expire(t, m)).mutexes[m], h)
  {
    hide Without, Sorted;
    var mu, mu' := s.mutexes[m], Apply(s, Expire(t, m)).mutexes[m];
    assert MutexSound(s.tcbs, s.ready, mu);
    WithoutLower(mu.waiters, t);
    if exists x :: x in mu.late && x in s.tcbs && s.tcbs[x].priority == s.tcbs[h].priority {
      var x :| x in mu.late && x in s.tcbs && s.tcbs[x].priority == s.tcbs[h].priority;
      assert x in mu'.late;
    } else if mu.waiters[0].owner != t {
      WithoutHead(mu.waiters, t);
    } else {
      assert mu.waiters[0] in mu.waiters && Waiter(s.tcbs, mu.waiters[0]) && t in mu'.late;
    }
  }

  /** The mutex whose waiter times out: the holder was at least at the waiter's priority. */
  lemma {:induction false} ExpiredLate(s: System, t: Task, m: Mutex)
    requires Inv(s) && LateInv(s) && Orderly(s, Expire(t, m))
    ensures var s' := Apply(s, Expire(t, m)); LateSound(s'.tcbs, s'.ready, s'.mutexes[m])
  {
    hide Settled, Without, Sorted, Claimed, HighestWaiting, Counted;
    var mu := s.mutexes[m];
    assert LateSound(s.tcbs, s.ready, mu) && MutexSound(s.tcbs, s.ready, mu);
    var x :| x in mu.waiters && x.owner == t;
    assert Waiter(s.tcbs, x);
    HighestIsHighest(s.tcbs, mu.waiters, x);
    if mu.holder.Some? && Settled(s.tcbs, mu, mu.holder.value) {
      ExpiredSettled(s, t, m, mu.holder.value);
    }
  }

  lemma {:induction false} ExpireLate(s: System, t: Task, m: Mutex)
    requires Inv(s) && LateInv(s) && Orderly(s, Expire(t, m))
    ensures LateInv(Apply(s, Expire(t, m)))
  {
    hide Settled, Without, MutexSound;
    var s' := Apply(s, Expire(t, m));
    ExpiredLate(s, t, m);
    forall m' | m' in s'.mutexes && m' != m ensures LateSound(s'.tcbs, s'.ready, s'.mutexes[m']) {
      assert LateSound(s.tcbs, s.ready, s.mutexes[m']);
    }
  }

  lemma {:induction false} RetryLate(s: System, t: Task, m: Mutex)
    requires Inv(s) && LateInv(s) && Orderly(s, Retry(t, m))
    ensures LateInv(Apply(s, Retry(t, m)))
  {
    hide TimedOut, HighestWaiting, Sorted;
    var s', mu := Apply(s, Retry(t, m)), s.mutexes[m];
    assert LateSound(s.tcbs, s.ready, mu) && MutexSound(s.tcbs, s.ready, mu);
    assert s'.mutexes[m].late + s'.mutexes[m].woken == mu.late + mu.woken;
    forall m' | m' in s'.mutexes ensures LateSound(s'.tcbs, s'.ready, s'.mutexes[m']) {
      assert LateSound(s.tcbs, s.ready, s.mutexes[m']);
    }
  }

  /** The mutex timed out on: its holder is where its base and its waiters put it, or holds others too. */
  lemma {:induction false} DisinheritedLate(tcbs: map<Task, Tcb>, ready: set<Task>, mu: MutexState, t: Task, h: Task)
    requires LateSound(tcbs, ready, mu) && mu.holder == Some(h) && h in tcbs && tcbs[h].mutexesHeld > 0
    ensures LateSound(tcbs[h := TimedOut(tcbs[h], HighestWaiting(mu.waiters))], ready, mu.(late := mu.late - {t}))
  {
    hide HighestWaiting;
    if tcbs[h].mutexesHeld != 1 {
      assert tcbs[h := TimedOut(tcbs[h], HighestWaiting(mu.waiters))] == tcbs;
    }
  }

  lemma {:induction false} DisinheritForLate(s: System, t: Task, m: Mutex)
    requires Inv(s) && LateInv(s) && Orderly(s, DisinheritFor(t, m))
    ensures LateInv(Apply(s, DisinheritFor(t, m)))
  {
    hide HighestWaiting, LateSound, MutexSound;
    var s', mu := Apply(s, DisinheritFor(t, m)), s.mutexes[m];
    if mu.holder.None? {
      assert LateSound(s.tcbs, s.ready, mu);
      FreeLate(s.tcbs, s.ready, mu, t);
    } else {
      var h := mu.holder.value;
      WaitersBelow(s, m);
      forall m' | m' in s'.mutexes ensures LateSound(s'.tcbs, s'.ready, s'.mutexes[m']) {
        assert LateSound(s.tcbs, s.ready, s.mutexes[m']);
        HoldersFree(s, m', h);
        if m' == m {
          DisinheritedLate(s.tcbs, s.ready, mu, t, h);
        } else {
          if s.mutexes[m'].holder == Some(h) {
            TwoUnsettled(s, h, m, m');
          }
          OtherChanged(s.tcbs, s.ready, s.mutexes[m'], h, s'.tcbs[h]);
        }
      }
    }
  }

  lemma {:induction false} FreeLate(tcbs: map<Task, Tcb>, ready: set<Task>, mu: MutexState, t: Task)
    requires LateSound(tcbs, ready, mu) && mu.holder.None?
    ensures LateSound(tcbs, ready, mu.(late := mu.late - {t}))
  {
  }

  lemma {:induction false} ResignLate(s: System, t: Task, m: Mutex)
    requires Inv(s) && LateInv(s) && Orderly(s, Resign(t, m))
    ensures LateInv(Apply(s, Resign(t, m)))
  {
    hide TimedOut, HighestWaiting, MutexSound;
    var s' := Apply(s, Resign(t, m));
    RunnerAbove(s, m, t);
    forall m' | m' in s'.mutexes ensures LateSound(s'.tcbs, s'.ready, s'.mutexes[m']) {
      assert LateSound(s.tcbs, s.ready, s.mutexes[m']);
    }
  }

  lemma {:induction false} StepLate(s: System, op: Op)
    requires Inv(s) && LateInv(s) && Orderly(s, op)
    ensures LateInv(Step(s, op))
  {
    hide Inv, LateSound;
    match op
    case Take(t, m) => TakeLate(s, t, m);
    case Give(t, m) => GiveLate(s, t, m);
    case Wait(t, m) => WaitLate(s, t, m);
    case Retry(t, m) => RetryLate(s, t, m);
    case Expire(t, m) => ExpireLate(s, t, m);
    case DisinheritFor(t, m) => DisinheritForLate(s, t, m);
    case Resign(t, m) => ResignLate(s, t, m);
    case Block(_) => ReadyLate(s, op);
    case Unblock(_) => ReadyLate(s, op);
  }

  lemma {:induction false} ReadyLate(s: System, op: Op)
    requires LateInv(s) && Orderly(s, op) && (op.Block? || op.Unblock?)
    ensures LateInv(Apply(s, op))
  {
    hide Settled;
    forall m | m in s.mutexes ensures LateSound(s.tcbs, Apply(s, op).ready, s.mutexes[m]) {
      assert LateSound(s.tcbs, s.ready, s.mutexes[m]);
    }
  }

  lemma {:induction false} RunLate(s: System, ops: seq<Op>)
    requires Inv(s) && LateInv(s) && OrderlyRun(s, ops)
    ensures Inv(Run(s, ops)) && LateInv(Run(s, ops))
    decreases |ops|
  {
    hide Inv, LateInv, Step, Orderly;
    if ops != [] {
      StepInv(s, ops[0]);
      StepLate(s, ops[0]);
      RunLate(Step(s, ops[0]), ops[1..]);
    }
  }

  // ----- the theorem -----

  /** A holder about to be lowered, if ready, has company at its priority. */
  lemma {:induction false} HolderHasCompany(s: System, t: Task, m: Mutex, h: Task) returns (u: Task)
    requires Inv(s) && LateInv(s) && Orderly(s, DisinheritFor(t, m))
    requires s.mutexes[m].holder == Some(h) && h in s.ready
    requires TimedOut(s.tcbs[h], HighestWaiting(s.mutexes[m].waiters)) != s.tcbs[h]
    ensures u != h && u in s.tcbs && u in s.ready && s.tcbs[u].priority == s.tcbs[h].priority
  {
    var mu := s.mutexes[m];
    WaitersBelow(s, m);
    HoldersFree(s, m, h);
    assert LateSound(s.tcbs, s.ready, mu);
    if AboveAll(s.tcbs, mu.late + mu.woken, h) {
      u := t;
    } else {
      u :| u in mu.late && u in s.tcbs && s.tcbs[u].priority == s.tcbs[h].priority;
    }
  }

  /** The scheduler's state and the mutexes' see the same tasks. */
  ghost predicate Matches(k: Kernel.State, s: System)
    requires Kernel.Shaped(k)
  {
    KernelReady.SameRanks(k.tcbs, s.tcbs) && forall t :: t in k.tcbs ==> (Kernel.IsReady(k, t) <==> t in s.ready)
  }

  lemma {:induction false} TwoOnList(l: seq<Task>, t: Task, u: Task)
    requires t in l && u in l && t != u
    ensures |l| > 1
  {
  }

  lemma {:induction false} HighestInRange(s: System, m: Mutex)
    requires Inv(s) && m in s.mutexes
    ensures 0 <= HighestWaiting(s.mutexes[m].waiters) < PRIORITIES
  {
    hide Counted, Sorted;
    var mu := s.mutexes[m];
    assert MutexSound(s.tcbs, s.ready, mu);
    if mu.waiters != [] {
      assert mu.waiters[0] in mu.waiters && Waiter(s.tcbs, mu.waiters[0]);
      assert TaskSound(s.tcbs[mu.waiters[0].owner]);
    }
  }

  lemma {:induction false} BitKept(k: Kernel.State, s: System, t: Task, m: Mutex, h: Task)
    requires Kernel.Shaped(k) && Matches(k, s)
    requires Inv(s) && LateInv(s) && Orderly(s, DisinheritFor(t, m)) && s.mutexes[m].holder == Some(h)
    ensures 0 <= HighestWaiting(s.mutexes[m].waiters) < PRIORITIES
    ensures Kernel.BitSurvives(k, h, HighestWaiting(s.mutexes[m].waiters))
  {
    hide Inv, LateInv, MutexSound, Runs, HighestWaiting;
    var mu := s.mutexes[m];
    HighestInRange(s, m);
    WaitersBelow(s, m);
    var w := HighestWaiting(mu.waiters);
    if Kernel.TimeoutLowers(k, h, w) && Kernel.IsReady(k, h) {
      var u := HolderHasCompany(s, t, m, h);
      TwoOnList(k.ready[Kernel.Prio(k, h)].items, h, u);
    }
  }
}
