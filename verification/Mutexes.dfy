/**
 * Mutexes and priority inheritance over whole runs: xQueueSemaphoreTake and the giving of a
 * mutex in queue.c, with the inheritance functions of tasks.c. A mutex that is free has one
 * item queued; a waiter is on its receive list.
 */
module Mutexes {
  import opened Ticks
  import opened Rings
  import opened Tasks
  import Kernel
  import KernelRuns
  import opened Queues

  type Mutex = nat
  type Tcb = Kernel.Tcb

  /**
   * `woken` are the tasks taken off `waiters` by a give that have not retried their take yet;
   * `late` are those whose wait has ended without the mutex and that have not acted on it yet.
   */
  datatype MutexState = MutexState(holder: Option<Task>, waiters: seq<Item<Task>>, woken: set<Task>, late: set<Task>)

  datatype System = System(tcbs: map<Task, Tcb>, mutexes: map<Mutex, MutexState>, ready: set<Task>)

  // ----- what the calls do to priorities -----

  /** prvGetDisinheritPriorityAfterTimeout. */
  function HighestWaiting(waiters: seq<Item<Task>>): int {
    if waiters == [] then 0 else PRIORITIES - waiters[0].value
  }

  /** xTaskPriorityInherit by a task of priority `p`. */
  function Inherited(tcb: Tcb, p: nat): Tcb {
    if tcb.priority < p then tcb.(priority := p) else tcb
  }

  /** xTaskPriorityDisinherit. */
  function GivenBack(tcb: Tcb): Tcb {
    var tcb' := tcb.(mutexesHeld := Kernel.Pred(tcb.mutexesHeld));
    if tcb.priority != tcb.base && tcb'.mutexesHeld == 0 then tcb'.(priority := tcb.base) else tcb'
  }

  /** vTaskPriorityDisinheritAfterTimeout with the priority found on the mutex's receive list. */
  function TimedOut(tcb: Tcb, highest: int): Tcb {
    var p := Kernel.TimeoutPriority(tcb, if highest < 0 then 0 else highest);
    if tcb.mutexesHeld == 1 && tcb.priority != p then tcb.(priority := p) else tcb
  }

  /** These are what the scheduler's own versions of the calls make of the TCBs. */
  lemma {:induction false} SameAsKernel(k: Kernel.State, h: Task, w: nat)
    requires Kernel.Shaped(k) && h in k.tcbs && w < PRIORITIES
    ensures Kernel.Inherit(k, h).tcbs == k.tcbs[h := Inherited(k.tcbs[h], Kernel.Prio(k, k.current))]
    ensures Kernel.Disinherit(k).tcbs == k.tcbs[k.current := GivenBack(k.tcbs[k.current])]
    ensures Kernel.DisinheritAfterTimeout(k, h, w).tcbs == k.tcbs[h := TimedOut(k.tcbs[h], w)]
  {
    hide Kernel.Reprioritise, Kernel.DisinheritAfterTimeout;
    KernelRuns.ReprioritiseFrame(k, h, Kernel.Prio(k, k.current));
    var tcb := k.tcbs[k.current].(mutexesHeld := Kernel.Pred(k.tcbs[k.current].mutexesHeld));
    KernelRuns.ReprioritiseFrame(k.(tcbs := k.tcbs[k.current := tcb]), k.current, tcb.base);
    TimeoutSameAsKernel(k, h, w);
  }

  lemma {:induction false} TimeoutSameAsKernel(k: Kernel.State, h: Task, w: nat)
    requires Kernel.Shaped(k) && h in k.tcbs && w < PRIORITIES
    ensures Kernel.DisinheritAfterTimeout(k, h, w).tcbs == k.tcbs[h := TimedOut(k.tcbs[h], w)]
  {
    hide Kernel.Unready, Kernel.IsReady;
  }

  // ----- steps -----

  datatype Op =
    | Take(t: Task, m: Mutex)
    | Give(t: Task, m: Mutex)
    | Wait(t: Task, m: Mutex)
    | Retry(t: Task, m: Mutex)
    | Expire(t: Task, m: Mutex)
    | DisinheritFor(t: Task, m: Mutex)
    | Resign(t: Task, m: Mutex)
    | Block(t: Task)
    | Unblock(t: Task)

  ghost predicate Waits(s: System, t: Task) {
    exists m, x :: m in s.mutexes && x in s.mutexes[m].waiters && x.owner == t
  }

  /** The running task: ready, and no ready task outranks it. */
  ghost predicate Runs(s: System, t: Task) {
    t in s.ready && t in s.tcbs && forall u :: u in s.ready && u in s.tcbs ==> s.tcbs[u].priority <= s.tcbs[t].priority
  }

  /** What it takes for a step to be a step at all. */
  ghost predicate Applies(s: System, op: Op) {
    match op
    case Take(t, m) => m in s.mutexes && t in s.tcbs && s.mutexes[m].holder.None?
    case Give(t, m) => m in s.mutexes && t in s.tcbs && s.mutexes[m].holder == Some(t)
    case Wait(t, m) =>
      && m in s.mutexes && t in s.tcbs && s.tcbs[t].priority < PRIORITIES
      && s.mutexes[m].holder.Some? && s.mutexes[m].holder.value in s.tcbs
    case Retry(t, m) => m in s.mutexes && s.mutexes[m].holder.Some?
    case Expire(t, m) => m in s.mutexes
    case DisinheritFor(t, m) => m in s.mutexes && (s.mutexes[m].holder.Some? ==> s.mutexes[m].holder.value in s.tcbs)
    case Resign(t, m) => m in s.mutexes
    case Block(_) => true
    case Unblock(t) => t in s.tcbs
  }

  /**
   * The premises of the inheritance property. A take is done by a running task. Only the holder
   * gives. A task does not wait for a mutex while it holds one. A woken waiter stays ready until
   * it has retried, which is its next call. A waiting task makes no call.
   */
  ghost predicate Enabled(s: System, op: Op) {
    && Applies(s, op)
    && match op
       case Take(t, m) =>
         Runs(s, t) && !Waits(s, t) && forall m' :: m' in s.mutexes && m' != m ==> t !in s.mutexes[m'].woken
       case Wait(t, m) =>
         && s.tcbs[t].mutexesHeld == 0 && !Waits(s, t)
         && forall m' :: m' in s.mutexes ==> t !in s.mutexes[m'].woken
       case Block(t) => forall m' :: m' in s.mutexes ==> t !in s.mutexes[m'].woken
       case _ => true
  }

  ghost function Apply(s: System, op: Op): System
    requires Applies(s, op)
  {
    match op
    case Take(t, m) =>
      var mu := s.mutexes[m];
      s.(mutexes := s.mutexes[m := mu.(holder := Some(t), woken := mu.woken - {t})],
         tcbs := s.tcbs[t := s.tcbs[t].(mutexesHeld := s.tcbs[t].mutexesHeld + 1)])
    case Give(t, m) =>
      var mu := s.mutexes[m];
      s.(mutexes := s.mutexes[m := MutexState(None, Tail(mu.waiters), mu.woken + Head(mu.waiters), mu.late)],
         tcbs := s.tcbs[t := GivenBack(s.tcbs[t])],
         ready := s.ready + Head(mu.waiters))
    case Wait(t, m) =>
      var mu, h := s.mutexes[m], s.mutexes[m].holder.value;
      s.(mutexes := s.mutexes[m := mu.(waiters := Placed(mu.waiters, t, s.tcbs[t].priority))],
         tcbs := s.tcbs[h := Inherited(s.tcbs[h], s.tcbs[t].priority)],
         ready := s.ready - {t})
    case Retry(t, m) =>
      var mu := s.mutexes[m];
      s.(mutexes := s.mutexes[m := mu.(woken := mu.woken - {t}, late := mu.late + {t})])
    case Expire(t, m) =>
      var mu := s.mutexes[m];
      s.(mutexes := s.mutexes[m := mu.(waiters := Without(mu.waiters, t), late := mu.late + {t})],
         ready := s.ready + {t})
    case DisinheritFor(t, m) =>
      var mu := s.mutexes[m];
      s.(mutexes := s.mutexes[m := mu.(late := mu.late - {t})],
         tcbs := if mu.holder.None? then s.tcbs
                 else s.tcbs[mu.holder.value := TimedOut(s.tcbs[mu.holder.value], HighestWaiting(mu.waiters))])
    case Resign(t, m) => s.(mutexes := s.mutexes[m := s.mutexes[m].(late := s.mutexes[m].late - {t})])
    case Block(t) => s.(ready := s.ready - {t})
    case Unblock(t) => s.(ready := s.ready + {t})
  }

  ghost function Step(s: System, op: Op): System {
    if Enabled(s, op) then Apply(s, op) else s
  }

  ghost function Run(s: System, ops: seq<Op>): System
    decreases |ops|
  {
    if ops == [] then s else Run(Step(s, ops[0]), ops[1..])
  }

  // ----- the invariant -----

  ghost function HeldBy(mutexes: map<Mutex, MutexState>, t: Task): set<Mutex> {
    set m | m in mutexes && mutexes[m].holder == Some(t)
  }

  ghost predicate Unburdened(tcbs: map<Task, Tcb>, t: Task) {
    t in tcbs && tcbs[t].mutexesHeld == 0
  }

  ghost predicate Waiter(tcbs: map<Task, Tcb>, x: Item<Task>) {
    Unburdened(tcbs, x.owner) && x.value == PRIORITIES - tcbs[x.owner].priority
  }

  /** Some woken waiter, still ready, outranks everyone left waiting. */
  ghost predicate Claimed(tcbs: map<Task, Tcb>, mu: MutexState) {
    mu.waiters == [] || exists u :: u in mu.woken && u in tcbs && HighestWaiting(mu.waiters) <= tcbs[u].priority
  }

  ghost predicate MutexSound(tcbs: map<Task, Tcb>, ready: set<Task>, mu: MutexState) {
    && Sorted(mu.waiters)
    && (forall x :: x in mu.waiters ==> Waiter(tcbs, x))
    && (forall u :: u in mu.woken ==> Unburdened(tcbs, u) && u in ready)
    && match mu.holder
       case None => Claimed(tcbs, mu)
       case Some(h) => h in tcbs && tcbs[h].mutexesHeld > 0 && HighestWaiting(mu.waiters) <= tcbs[h].priority
  }

  ghost predicate TaskSound(tcb: Tcb) {
    tcb.base <= tcb.priority < PRIORITIES && (tcb.mutexesHeld == 0 ==> tcb.priority == tcb.base)
  }

  /** uxMutexesHeld counts the mutexes that name the task. */
  ghost predicate Counted(s: System) {
    forall t :: t in s.tcbs ==> s.tcbs[t].mutexesHeld == |HeldBy(s.mutexes, t)|
  }

  ghost predicate Inv(s: System) {
    && (forall m :: m in s.mutexes ==> MutexSound(s.tcbs, s.ready, s.mutexes[m]))
    && (forall t :: t in s.tcbs ==> TaskSound(s.tcbs[t]))
    && Counted(s)
  }

  /** In a sorted receive list no waiter outranks the head. */
  lemma {:induction false} HighestIsHighest(tcbs: map<Task, Tcb>, waiters: seq<Item<Task>>, x: Item<Task>)
    requires Sorted(waiters) && x in waiters && Waiter(tcbs, x)
    ensures tcbs[x.owner].priority <= HighestWaiting(waiters)
  {
    var i :| 0 <= i < |waiters| && waiters[i] == x;
    assert i > 0 ==> waiters[0].value <= waiters[i].value;
  }

  /** And somebody has that priority; with nobody waiting it is the lowest there is. */
  lemma {:induction false} HighestIsSomebodys(tcbs: map<Task, Tcb>, waiters: seq<Item<Task>>)
    requires forall x :: x in waiters ==> Waiter(tcbs, x)
    ensures waiters == [] ==> HighestWaiting(waiters) == 0
    ensures waiters != [] ==>
              exists x :: x in waiters && x.owner in tcbs && tcbs[x.owner].priority == HighestWaiting(waiters)
  {
    if waiters != [] {
      assert waiters[0] in waiters;
    }
  }

  lemma {:induction false} WaitersBelow(s: System, m: Mutex)
    requires Inv(s) && m in s.mutexes && s.mutexes[m].holder.Some?
    ensures s.mutexes[m].holder.value in s.tcbs && s.tcbs[s.mutexes[m].holder.value].mutexesHeld > 0
    ensures HighestWaiting(s.mutexes[m].waiters) <= s.tcbs[s.mutexes[m].holder.value].priority
  {
    assert MutexSound(s.tcbs, s.ready, s.mutexes[m]);
  }

  // ----- counting -----

  lemma {:induction false} HeldUpdate(mutexes: map<Mutex, MutexState>, m: Mutex, mu: MutexState, t: Task)
    requires m in mutexes
    ensures HeldBy(mutexes[m := mu], t)
         == if mu.holder == Some(t) then HeldBy(mutexes, t) + {m} else HeldBy(mutexes, t) - {m}
  {
  }

  lemma {:induction false} HoldsTwo(s: System, t: Task, m: Mutex, m': Mutex)
    requires Inv(s) && t in s.tcbs && m in s.mutexes && m' in s.mutexes && m != m'
    requires s.mutexes[m].holder == Some(t) && s.mutexes[m'].holder == Some(t)
    ensures s.tcbs[t].mutexesHeld >= 2
  {
    assert {m, m'} <= HeldBy(s.mutexes, t);
    Subset({m, m'}, HeldBy(s.mutexes, t));
  }

  lemma {:induction false} Subset(a: set<Mutex>, b: set<Mutex>)
    requires a <= b
    ensures |a| <= |b|
  {
    assert b == a + (b - a);
  }

  // ----- frames: a mutex not named by the step -----

  /** `t` holds something before and after and does not sink below what it holds. */
  lemma {:induction false} HolderChanged(tcbs: map<Task, Tcb>, ready: set<Task>, mu: MutexState, t: Task, tcb: Tcb)
    requires MutexSound(tcbs, ready, mu) && t in tcbs && tcbs[t].mutexesHeld > 0
    requires mu.holder == Some(t) ==> tcb.mutexesHeld > 0 && HighestWaiting(mu.waiters) <= tcb.priority
    ensures MutexSound(tcbs[t := tcb], ready, mu)
  {
    forall x | x in mu.waiters ensures Waiter(tcbs[t := tcb], x) {
      assert Waiter(tcbs, x);
    }
    if mu.holder.None? && mu.waiters != [] {
      var u :| u in mu.woken && u in tcbs && HighestWaiting(mu.waiters) <= tcbs[u].priority;
      assert u in mu.woken && u in tcbs[t := tcb] && HighestWaiting(mu.waiters) <= tcbs[t := tcb][u].priority;
    }
  }

  lemma {:induction false} ReadyChanged(tcbs: map<Task, Tcb>, ready: set<Task>, mu: MutexState, ready': set<Task>)
    requires MutexSound(tcbs, ready, mu) && ready * mu.woken <= ready'
    ensures MutexSound(tcbs, ready', mu)
  {
  }

  lemma {:induction false} LateChanged(tcbs: map<Task, Tcb>, ready: set<Task>, mu: MutexState, late: set<Task>)
    requires MutexSound(tcbs, ready, mu)
    ensures MutexSound(tcbs, ready, mu.(late := late))
  {
    if mu.holder.None? && mu.waiters != [] {
      var u :| u in mu.woken && u in tcbs && HighestWaiting(mu.waiters) <= tcbs[u].priority;
      assert u in mu.woken;
    }
  }

  // ----- steps keep the invariant -----

  lemma {:induction false} CountsKept(s: System, s': System, m: Mutex)
    requires Counted(s) && m in s.mutexes && s'.tcbs.Keys == s.tcbs.Keys
    requires m in s'.mutexes && s'.mutexes == s.mutexes[m := s'.mutexes[m]]
    requires forall t :: t in s.tcbs ==>
               s'.tcbs[t].mutexesHeld == s.tcbs[t].mutexesHeld
                 + (if s'.mutexes[m].holder == Some(t) then 1 else 0)
                 - (if s.mutexes[m].holder == Some(t) then 1 else 0)
    ensures Counted(s')
  {
    forall t | t in s'.tcbs ensures s'.tcbs[t].mutexesHeld == |HeldBy(s'.mutexes, t)| {
      assert t in s.tcbs;
      HeldUpdate(s.mutexes, m, s'.mutexes[m], t);
      assert m in HeldBy(s.mutexes, t) <==> s.mutexes[m].holder == Some(t);
    }
  }

  /** A task that takes a mutex is neither waiting for nor woken from another one. */
  lemma {:induction false} TakerElsewhere(tcbs: map<Task, Tcb>, ready: set<Task>, mu: MutexState, t: Task, tcb: Tcb)
    requires MutexSound(tcbs, ready, mu) && t in tcbs && t !in mu.woken
    requires forall x :: x in mu.waiters ==> x.owner != t
    requires tcb.priority == tcbs[t].priority && tcb.mutexesHeld > 0
    ensures MutexSound(tcbs[t := tcb], ready, mu)
  {
    hide Sorted;
    if mu.holder.None? && mu.waiters != [] {
      var u :| u in mu.woken && u in tcbs && HighestWaiting(mu.waiters) <= tcbs[u].priority;
      assert u in mu.woken && u in tcbs[t := tcb] && HighestWaiting(mu.waiters) <= tcbs[t := tcb][u].priority;
    }
  }

  /** The running task outranks the woken one, which outranks those still waiting. */
  lemma {:induction false} TakenSound(tcbs: map<Task, Tcb>, ready: set<Task>, mu: MutexState, t: Task, tcb: Tcb)
    requires MutexSound(tcbs, ready, mu) && mu.holder.None? && t in tcbs
    requires forall u :: u in ready && u in tcbs ==> tcbs[u].priority <= tcbs[t].priority
    requires forall x :: x in mu.waiters ==> x.owner != t
    requires tcb.priority == tcbs[t].priority && tcb.mutexesHeld > 0
    ensures MutexSound(tcbs[t := tcb], ready, mu.(holder := Some(t), woken := mu.woken - {t}))
  {
    hide Sorted;
    if mu.waiters != [] {
      var u :| u in mu.woken && u in tcbs && HighestWaiting(mu.waiters) <= tcbs[u].priority;
      assert u in ready;
    }
  }

  lemma {:induction false} TakeInv(s: System, t: Task, m: Mutex)
    requires Inv(s) && Enabled(s, Take(t, m))
    ensures Inv(Apply(s, Take(t, m)))
  {
    hide MutexSound;
    var s' := Apply(s, Take(t, m));
    CountsKept(s, s', m);
    forall m' | m' in s'.mutexes ensures MutexSound(s'.tcbs, s'.ready, s'.mutexes[m']) {
      assert forall x :: x in s.mutexes[m'].waiters ==> x.owner != t;
      if m' == m {
        TakenSound(s.tcbs, s.ready, s.mutexes[m], t, s'.tcbs[t]);
      } else {
        TakerElsewhere(s.tcbs, s.ready, s.mutexes[m'], t, s'.tcbs[t]);
      }
    }
    assert TaskSound(s.tcbs[t]);
  }

  lemma {:induction false} TailSorted(l: seq<Item<Task>>)
    requires Sorted(l)
    ensures Sorted(Tail(l)) && (Tail(l) != [] ==> HighestWaiting(Tail(l)) <= HighestWaiting(l))
    ensures forall x :: x in Tail(l) ==> x in l
  {
  }

  lemma {:induction false} GiveInv(s: System, t: Task, m: Mutex)
    requires Inv(s) && Enabled(s, Give(t, m))
    ensures Inv(Apply(s, Give(t, m)))
  {
    hide MutexSound, Tail, HighestWaiting;
    var s', mu := Apply(s, Give(t, m)), s.mutexes[m];
    WaitersBelow(s, m);
    CountsKept(s, s', m);
    forall m' | m' in s'.mutexes ensures MutexSound(s'.tcbs, s'.ready, s'.mutexes[m']) {
      if m' == m {
        GivenSound(s.tcbs, s.ready, mu, t, s'.tcbs[t]);
      } else {
        if s.mutexes[m'].holder == Some(t) {
          HoldsTwo(s, t, m, m');
          WaitersBelow(s, m');
        }
        HolderChanged(s.tcbs, s.ready, s.mutexes[m'], t, s'.tcbs[t]);
        ReadyChanged(s'.tcbs, s.ready, s.mutexes[m'], s'.ready);
      }
    }
    assert TaskSound(s.tcbs[t]);
  }

  lemma {:induction false} GivenSound(tcbs: map<Task, Tcb>, ready: set<Task>, mu: MutexState, t: Task, tcb: Tcb)
    requires MutexSound(tcbs, ready, mu) && mu.holder == Some(t)
    ensures MutexSound(tcbs[t := tcb], ready + Head(mu.waiters),
                       MutexState(None, Tail(mu.waiters), mu.woken + Head(mu.waiters), mu.late))
  {
    var tcbs' := tcbs[t := tcb];
    var mu' := MutexState(None, Tail(mu.waiters), mu.woken + Head(mu.waiters), mu.late);
    TailSorted(mu.waiters);
    if mu.waiters != [] {
      var u := mu.waiters[0].owner;
      assert mu.waiters[0] in mu.waiters && Waiter(tcbs, mu.waiters[0]);
      assert u in mu'.woken && u in tcbs' && (mu'.waiters != [] ==> HighestWaiting(mu'.waiters) <= tcbs'[u].priority);
    }
    forall x | x in mu'.waiters ensures Waiter(tcbs', x) {
      assert x in mu.waiters && Waiter(tcbs, x);
    }
  }

  lemma {:induction false} PlacedHighest(l: seq<Item<Task>>, t: Task, p: nat)
    requires Sorted(l) && p < PRIORITIES
    ensures Sorted(Placed(l, t, p))
    ensures HighestWaiting(Placed(l, t, p)) == p || (l != [] && HighestWaiting(Placed(l, t, p)) == HighestWaiting(l))
    ensures forall x :: x in Placed(l, t, p) ==> x in l || x == Item(t, PRIORITIES - p)
  {
    InsertSortedStable(l, Item(t, PRIORITIES - p));
  }

  lemma {:induction false} WaitInv(s: System, t: Task, m: Mutex)
    requires Inv(s) && Enabled(s, Wait(t, m))
    ensures Inv(Apply(s, Wait(t, m)))
  {
    hide MutexSound, Placed, HighestWaiting;
    var s' := Apply(s, Wait(t, m));
    var mu, h := s.mutexes[m], s.mutexes[m].holder.value;
    WaitersBelow(s, m);
    CountsKept(s, s', m);
    assert TaskSound(s.tcbs[h]) && TaskSound(s.tcbs[t]);
    forall m' | m' in s'.mutexes ensures MutexSound(s'.tcbs, s'.ready, s'.mutexes[m']) {
      if s.mutexes[m'].holder == Some(h) {
        WaitersBelow(s, m');
      }
      HolderChanged(s.tcbs, s.ready, s.mutexes[m'], h, s'.tcbs[h]);
      ReadyChanged(s'.tcbs, s.ready, s.mutexes[m'], s'.ready);
      if m' == m {
        WaiterJoins(s'.tcbs, s'.ready, mu, t);
      }
    }
  }

  lemma {:induction false} WaiterJoins(tcbs: map<Task, Tcb>, ready: set<Task>, mu: MutexState, t: Task)
    requires MutexSound(tcbs, ready, mu) && mu.holder.Some? && Unburdened(tcbs, t) && tcbs[t].priority < PRIORITIES
    requires tcbs[t].priority <= tcbs[mu.holder.value].priority
    ensures MutexSound(tcbs, ready, mu.(waiters := Placed(mu.waiters, t, tcbs[t].priority)))
  {
    hide Placed, Sorted;
    PlacedHighest(mu.waiters, t, tcbs[t].priority);
  }

  lemma {:induction false} WithoutLower(l: seq<Item<Task>>, t: Task)
    requires Sorted(l)
    ensures Without(l, t) != [] ==> l != [] && HighestWaiting(Without(l, t)) <= HighestWaiting(l)
  {
    if Without(l, t) != [] {
      var i :| 0 <= i < |l| && l[i] == Without(l, t)[0];
      assert i > 0 ==> l[0].value <= l[i].value;
    }
  }

  lemma {:induction false} ExpiredSound(tcbs: map<Task, Tcb>, ready: set<Task>, mu: MutexState, t: Task)
    requires MutexSound(tcbs, ready, mu) && (forall u :: u in tcbs ==> TaskSound(tcbs[u]))
    ensures MutexSound(tcbs, ready, mu.(waiters := Without(mu.waiters, t), late := mu.late + {t}))
  {
    hide Sorted, Waiter, Without;
    WithoutSorted(mu.waiters, t);
    WithoutLower(mu.waiters, t);
    if mu.holder.None? && Without(mu.waiters, t) != [] {
      var u :| u in mu.woken && u in tcbs && HighestWaiting(mu.waiters) <= tcbs[u].priority;
      assert u in mu.woken;
    }
  }

  lemma {:induction false} ExpireInv(s: System, t: Task, m: Mutex)
    requires Inv(s) && Enabled(s, Expire(t, m))
    ensures Inv(Apply(s, Expire(t, m)))
  {
    hide Without, MutexSound;
    var s' := Apply(s, Expire(t, m));
    CountsKept(s, s', m);
    forall m' | m' in s'.mutexes ensures MutexSound(s'.tcbs, s'.ready, s'.mutexes[m']) {
      if m' == m {
        ExpiredSound(s.tcbs, s.ready, s.mutexes[m], t);
      }
      ReadyChanged(s.tcbs, s.ready, s'.mutexes[m'], s'.ready);
    }
  }

  /** A holder lowered by a timeout stays above those waiting for any mutex it holds. */
  lemma {:induction false} TimedOutElsewhere(s: System, h: Task, m: Mutex, m': Mutex)
    requires Inv(s) && m in s.mutexes && s.mutexes[m].holder == Some(h) && h in s.tcbs && m' in s.mutexes
    ensures MutexSound(s.tcbs[h := TimedOut(s.tcbs[h], HighestWaiting(s.mutexes[m].waiters))], s.ready, s.mutexes[m'])
  {
    hide Waiter, Sorted, Claimed;
    assert MutexSound(s.tcbs, s.ready, s.mutexes[m]) && MutexSound(s.tcbs, s.ready, s.mutexes[m']);
    if m' != m && s.mutexes[m'].holder == Some(h) {
      HoldsTwo(s, h, m, m');
    }
    HolderChanged(s.tcbs, s.ready, s.mutexes[m'], h, TimedOut(s.tcbs[h], HighestWaiting(s.mutexes[m].waiters)));
  }

  lemma {:induction false} DisinheritForInv(s: System, t: Task, m: Mutex)
    requires Inv(s) && Enabled(s, DisinheritFor(t, m))
    ensures Inv(Apply(s, DisinheritFor(t, m)))
  {
    hide MutexSound, HighestWaiting;
    var s', mu := Apply(s, DisinheritFor(t, m)), s.mutexes[m];
    CountsKept(s, s', m);
    forall m' | m' in s'.mutexes ensures MutexSound(s'.tcbs, s'.ready, s'.mutexes[m']) {
      if mu.holder.Some? {
        TimedOutElsewhere(s, mu.holder.value, m, m');
      }
      LateChanged(s'.tcbs, s'.ready, s.mutexes[m'], s'.mutexes[m'].late);
    }
    if mu.holder.Some? {
      WaitersBelow(s, m);
      assert TaskSound(s.tcbs[mu.holder.value]);
    }
  }

  lemma {:induction false} RetryInv(s: System, op: Op)
    requires Inv(s) && Enabled(s, op) && (op.Retry? || op.Resign?)
    ensures Inv(Apply(s, op))
  {
    hide Waiter, Sorted;
    var s' := Apply(s, op);
    CountsKept(s, s', op.m);
    forall m | m in s'.mutexes ensures MutexSound(s'.tcbs, s'.ready, s'.mutexes[m]) {
      assert MutexSound(s.tcbs, s.ready, s.mutexes[m]);
      if m == op.m {
        LateChanged(s.tcbs, s.ready, s.mutexes[m], s'.mutexes[m].late);
      }
    }
  }

  lemma {:induction false} ReadyStepInv(s: System, op: Op)
    requires Inv(s) && Enabled(s, op) && (op.Block? || op.Unblock?)
    ensures Inv(Apply(s, op))
  {
    hide MutexSound;
    forall m | m in s.mutexes ensures MutexSound(s.tcbs, Apply(s, op).ready, s.mutexes[m]) {
      ReadyChanged(s.tcbs, s.ready, s.mutexes[m], Apply(s, op).ready);
    }
  }

  lemma {:induction false} StepInv(s: System, op: Op)
    requires Inv(s)
    ensures Inv(Step(s, op))
  {
    hide Inv, Apply, Enabled;
    if Enabled(s, op) {
      match op
      case Take(t, m) => TakeInv(s, t, m);
      case Give(t, m) => GiveInv(s, t, m);
      case Wait(t, m) => WaitInv(s, t, m);
      case Retry(_, _) => RetryInv(s, op);
      case Resign(_, _) => RetryInv(s, op);
      case Expire(t, m) => ExpireInv(s, t, m);
      case DisinheritFor(t, m) => DisinheritForInv(s, t, m);
      case Block(_) => ReadyStepInv(s, op);
      case Unblock(_) => ReadyStepInv(s, op);
    }
  }

  lemma {:induction false} RunInv(s: System, ops: seq<Op>)
    requires Inv(s)
    ensures Inv(Run(s, ops))
    decreases |ops|
  {
    hide Inv, Step;
    if ops != [] {
      StepInv(s, ops[0]);
      RunInv(Step(s, ops[0]), ops[1..]);
    }
  }

  // ----- the theorem -----

  /** Any tasks at their base priorities, any free mutexes, nobody waiting. */
  ghost predicate Initial(s: System) {
    && (forall t :: t in s.tcbs ==>
          s.tcbs[t].base == s.tcbs[t].priority < PRIORITIES && s.tcbs[t].mutexesHeld == 0)
    && (forall m :: m in s.mutexes ==> s.mutexes[m] == MutexState(None, [], {}, {}))
  }

  lemma {:induction false} InitialInv(s: System)
    requires Initial(s)
    ensures Inv(s)
  {
    forall t | t in s.tcbs ensures s.tcbs[t].mutexesHeld == |HeldBy(s.mutexes, t)| {
      assert HeldBy(s.mutexes, t) == {};
    }
    forall m | m in s.mutexes ensures MutexSound(s.tcbs, s.ready, s.mutexes[m]) {
    }
  }

  ghost predicate Outranked(tcbs: map<Task, Tcb>, t: Task, h: Task) {
    t in tcbs && h in tcbs && tcbs[t].priority <= tcbs[h].priority
  }

  /** A holder is at least at its base and at least at every waiter on every mutex it holds. */
  ghost predicate Inherits(s: System) {
    && (forall t :: t in s.tcbs ==> s.tcbs[t].priority >= s.tcbs[t].base)
    && Counted(s)
    && (forall t :: t in s.tcbs && HeldBy(s.mutexes, t) == {} ==> s.tcbs[t].priority == s.tcbs[t].base)
    && (forall m, x :: m in s.mutexes && x in s.mutexes[m].waiters && s.mutexes[m].holder.Some? ==>
          Outranked(s.tcbs, x.owner, s.mutexes[m].holder.value))
  }

  lemma {:induction false} InvInherits(s: System)
    requires Inv(s)
    ensures Inherits(s)
  {
    hide Sorted, HighestWaiting;
    forall m, x | m in s.mutexes && x in s.mutexes[m].waiters && s.mutexes[m].holder.Some?
      ensures Outranked(s.tcbs, x.owner, s.mutexes[m].holder.value)
    {
      assert MutexSound(s.tcbs, s.ready, s.mutexes[m]);
      HighestIsHighest(s.tcbs, s.mutexes[m].waiters, x);
    }
    forall t | t in s.tcbs ensures TaskSound(s.tcbs[t]) {
    }
  }

  /** Priority inheritance holds in every state of every run that meets the premises. */
  lemma {:induction false} InheritanceOverRuns(s: System, ops: seq<Op>)
    requires Initial(s)
    ensures Inherits(Run(s, ops))
  {
    hide Inv, Run, Inherits;
    InitialInv(s);
    RunInv(s, ops);
    InvInherits(Run(s, ops));
  }
}
