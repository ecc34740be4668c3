/**
 * The mutexes and the scheduler run together: each mutex call is the calls it makes of the
 * scheduler, and whatever else the scheduler does is seen by the mutexes as waits that end and
 * tasks that block. Base priorities are fixed.
 */
module MutexRuns {
  import opened Ticks
  import opened Rings
  import opened Tasks
  import opened Queues
  import K = Kernel
  import KernelInvariant
  import KernelRuns
  import KernelReady
  import M = Mutexes
  import T = MutexTimeouts
  import Q = QueueProtocol

  type Mutex = M.Mutex

  datatype Joint = Joint(k: K.State, s: M.System)

  datatype Op =
    | Take(m: Mutex)
    | Give(m: Mutex)
    | Wait(m: Mutex, ticks: Tick)
    | Retry(m: Mutex)
    | Disinherit(m: Mutex)
    | Resign(m: Mutex)
    | Create(t: Task, p: nat)
    | Other(call: K.Op)

  // ----- waits that end because of what the scheduler does -----

  ghost function WaitersOf(s: M.System, m: Mutex): set<Task>
    requires m in s.mutexes
  {
    Q.Waiting(s.mutexes[m].waiters)
  }

  /** A wait for a mutex ends; any other task is simply unblocked. */
  ghost function WakeOp(s: M.System, t: Task): M.Op {
    if exists m :: m in s.mutexes && t in WaitersOf(s, m) then
      var m :| m in s.mutexes && t in WaitersOf(s, m);
      M.Expire(t, m)
    else M.Unblock(t)
  }

  ghost function Pick(ts: set<Task>): (t: Task)
    requires ts != {}
    ensures t in ts
  {
    var t :| t in ts;
    t
  }

  ghost function WakeAll(s: M.System, ts: set<Task>): M.System
    decreases |ts|
  {
    if ts == {} then s else WakeAll(M.Step(s, WakeOp(s, Pick(ts))), ts - {Pick(ts)})
  }

  /** Nobody waits twice. */
  ghost predicate Single(s: M.System) {
    && (forall m :: m in s.mutexes ==> Q.OneEach(s.mutexes[m].waiters))
    && (forall m, m' :: m in s.mutexes && m' in s.mutexes && m != m' ==> WaitersOf(s, m) !! WaitersOf(s, m'))
  }

  /** The mutexes' own part of the invariant. */
  ghost predicate Sound(s: M.System) {
    M.Inv(s) && T.LateInv(s) && Single(s)
  }

  /** From `s` to `s'` the tasks in `ts` have stopped waiting and become ready; nothing else matters. */
  ghost predicate Woke(s: M.System, s': M.System, ts: set<Task>) {
    && s'.tcbs == s.tcbs && s'.ready == s.ready + ts && s'.mutexes.Keys == s.mutexes.Keys
    && (forall m :: m in s.mutexes ==>
          && WaitersOf(s', m) == WaitersOf(s, m) - ts && s'.mutexes[m].holder == s.mutexes[m].holder
          && s'.mutexes[m].woken == s.mutexes[m].woken && s'.mutexes[m].late <= s.mutexes[m].late + ts)
  }

  lemma {:induction false} WakeOneSound(s: M.System, t: Task)
    requires Sound(s) && t in s.tcbs
    ensures var s' := M.Step(s, WakeOp(s, t)); Sound(s') && Woke(s, s', {t})
  {
    hide M.Inv, T.LateInv, Without, Q.OneEach, Q.Waiting, M.Runs;
    var op, s' := WakeOp(s, t), M.Step(s, WakeOp(s, t));
    M.StepInv(s, op);
    if op.Expire? {
      assert T.Orderly(s, op) by {
        WaiterListed(s.mutexes[op.m].waiters, t);
      }
      Q.WithoutWaiting(s.mutexes[op.m].waiters, t);
    } else {
      assert T.Orderly(s, op);
    }
    T.StepLate(s, op);
    forall m | m in s.mutexes ensures WaitersOf(s', m) == WaitersOf(s, m) - {t} {
    }
  }

  lemma {:induction false} WaiterListed(l: seq<Item<Task>>, t: Task)
    requires t in Q.Waiting(l)
    ensures exists x :: x in l && x.owner == t
  {
  }

  lemma {:induction false} WakeAllSound(s: M.System, ts: set<Task>)
    requires Sound(s) && ts <= s.tcbs.Keys
    ensures Sound(WakeAll(s, ts)) && Woke(s, WakeAll(s, ts), ts)
    decreases |ts|
  {
    hide Sound, WakeOp, M.Step, Q.Waiting;
    if ts != {} {
      var t := Pick(ts);
      var s1 := M.Step(s, WakeOp(s, t));
      WakeOneSound(s, t);
      WakeAllSound(s1, ts - {t});
      assert {t} + (ts - {t}) == ts;
    }
  }

  // ----- steps -----

  ghost function ReadySet(k: K.State): set<Task>
    requires K.Shaped(k)
  {
    set t | t in k.tcbs && K.IsReady(k, t)
  }

  ghost predicate Harmless(j: Joint, call: K.Op)
    requires KernelInvariant.Inv(j.k)
  {
    && KernelReady.Plain(call)
    && (forall m, u :: m in j.s.mutexes && u in WaitersOf(j.s, m) ==> !KernelReady.Unlists(call, u))
    && (forall m, u :: m in j.s.mutexes && u in ReadySet(j.k) - ReadySet(KernelRuns.Run(j.k, [call])) ==>
          u !in j.s.mutexes[m].woken && u !in j.s.mutexes[m].late)
  }

  /** Waits end for those who become ready; whoever ceases to be ready blocks. */
  ghost function Mirrored(j: Joint, call: K.Op): M.System
    requires KernelInvariant.Inv(j.k)
  {
    var before, after := ReadySet(j.k), ReadySet(KernelRuns.Run(j.k, [call]));
    var s' := WakeAll(j.s, after - before);
    s'.(ready := s'.ready - (before - after))
  }

  /**
   * The premises. Mutex calls are made by the running task, with the scheduler not suspended, and
   * keep to the order that Orderly describes. Of the scheduler's other calls those that change base
   * priorities or delete tasks are left out, a task waiting for a mutex is not suspended or taken
   * off its event list, and one whose wait has ended is not blocked before it has acted on it.
   */
  ghost predicate Entitled(j: Joint, op: Op)
    requires KernelInvariant.Inv(j.k)
  {
    var t, s, calm := j.k.current, j.s, j.k.suspensions == 0;
    match op
    case Take(m) => calm && T.Orderly(s, M.Take(t, m))
    case Give(m) => calm && M.Runs(s, t) && T.Orderly(s, M.Give(t, m))
    case Wait(m, ticks) =>
      && calm && ticks > 0 && t != K.IDLE && t in j.k.tcbs && !j.k.tcbs[t].awaitsNotification
      && T.Orderly(s, M.Wait(t, m))
    case Retry(m) => T.Orderly(s, M.Retry(t, m))
    case Disinherit(m) => T.Orderly(s, M.DisinheritFor(t, m)) && s.mutexes[m].holder.Some?
    case Resign(m) => T.Orderly(s, M.Resign(t, m))
    case Create(u, _) => u !in j.k.tcbs
    case Other(call) => Harmless(j, call)
  }

  ghost function First(l: seq<Item<Task>>): Option<Task> {
    if l == [] then None else Some(l[0].owner)
  }

  /** The scheduler's calls that make up the step. */
  ghost function Calls(j: Joint, op: Op): seq<K.Op>
    requires KernelInvariant.Inv(j.k) && Entitled(j, op)
  {
    match op
    case Take(m) => [K.TakeMutex]
    case Give(m) => [K.GiveMutex(First(j.s.mutexes[m].waiters))]
    case Wait(m, ticks) => [K.InheritFor(j.s.mutexes[m].holder.value), K.BlockEvent(ticks)]
    case Retry(m) => []
    case Disinherit(m) =>
      var w := M.HighestWaiting(j.s.mutexes[m].waiters);
      [K.TimeoutDisinherit(j.s.mutexes[m].holder.value, if w < 0 then 0 else w)]
    case Resign(m) => []
    case Create(t, p) => [K.CreateTask(t, p)]
    case Other(call) => [call]
  }

  /** What the mutexes see of it. */
  ghost function Seen(j: Joint, op: Op): M.System
    requires KernelInvariant.Inv(j.k) && Entitled(j, op)
  {
    var t, s := j.k.current, j.s;
    match op
    case Take(m) => M.Apply(s, M.Take(t, m))
    case Give(m) => M.Apply(s, M.Give(t, m))
    case Wait(m, _) => M.Apply(s, M.Wait(t, m))
    case Retry(m) => M.Apply(s, M.Retry(t, m))
    case Disinherit(m) => M.Apply(s, M.DisinheritFor(t, m))
    case Resign(m) => M.Apply(s, M.Resign(t, m))
    case Create(u, p) =>
      s.(tcbs := s.tcbs[u := K.Tcb(K.Clamped(p), K.Clamped(p), 0, false, false)], ready := s.ready + {u})
    case Other(call) => Mirrored(j, call)
  }

  ghost function Step(j: Joint, op: Op): (j': Joint)
    requires KernelInvariant.Inv(j.k)
    ensures KernelInvariant.Inv(j'.k)
  {
    if Entitled(j, op) then Joint(KernelRuns.Run(j.k, Calls(j, op)), Seen(j, op)) else j
  }

  ghost function Run(j: Joint, ops: seq<Op>): (j': Joint)
    requires KernelInvariant.Inv(j.k)
    ensures KernelInvariant.Inv(j'.k)
    decreases |ops|
  {
    if ops == [] then j else Run(Step(j, ops[0]), ops[1..])
  }

  // ----- the invariant -----

  /** Whoever waits for a mutex is on an event list of the scheduler. */
  ghost predicate Listed(k: K.State, s: M.System) {
    forall m, t :: m in s.mutexes && t in WaitersOf(s, m) ==> t in k.eventWaiters && t in k.tcbs
  }

  ghost predicate Inv(j: Joint) {
    && KernelInvariant.Inv(j.k) && K.Shaped(j.k)
    && Sound(j.s) && T.Matches(j.k, j.s) && Listed(j.k, j.s)
  }

  lemma {:induction false} RunOne(k: K.State, call: K.Op)
    requires KernelInvariant.Inv(k)
    ensures K.Known(k) && K.CanSelect(k) && KernelRuns.Run(k, [call]) == K.Step(k, call)
    ensures K.Shaped(K.Step(k, call))
  {
    hide KernelInvariant.InvFrom, K.Step, K.Known, K.CanSelect;
    KernelRuns.StepInv(k, call);
    KernelRuns.InvShape(K.Step(k, call));
    assert [call][1..] == [];
  }

  // ----- the scheduler's other calls -----

  lemma {:induction false} BlockedSound(s: M.System, ts: set<Task>)
    requires Sound(s)
    requires forall m, t :: m in s.mutexes && t in ts ==> t !in s.mutexes[m].woken && t !in s.mutexes[m].late
    ensures Sound(s.(ready := s.ready - ts))
  {
    hide M.MutexSound, T.Settled, Q.OneEach, Q.Waiting;
    var s' := s.(ready := s.ready - ts);
    forall m | m in s.mutexes
      ensures M.MutexSound(s.tcbs, s'.ready, s.mutexes[m]) && T.LateSound(s.tcbs, s'.ready, s.mutexes[m])
    {
      M.ReadyChanged(s.tcbs, s.ready, s.mutexes[m], s'.ready);
      assert T.LateSound(s.tcbs, s.ready, s.mutexes[m]);
    }
    forall m, m' | m in s.mutexes && m' in s.mutexes && m != m' ensures WaitersOf(s', m) !! WaitersOf(s', m') {
      assert WaitersOf(s, m) !! WaitersOf(s, m');
    }
  }

  lemma {:induction false} OtherSound(j: Joint, call: K.Op)
    requires Inv(j) && Harmless(j, call)
    ensures Sound(Mirrored(j, call))
  {
    hide Sound, KernelInvariant.Inv, K.Shaped, Listed, WakeAll, KernelReady.Plain, KernelReady.Unlists, ReadySet;
    RunOne(j.k, call);
    ReadyRanks(j, call);
    var before, after := ReadySet(j.k), ReadySet(KernelRuns.Run(j.k, [call]));
    WakeAllSound(j.s, after - before);
    BlockedSound(WakeAll(j.s, after - before), before - after);
  }

  lemma {:induction false} OtherMatches(j: Joint, call: K.Op)
    requires Inv(j) && Harmless(j, call)
    ensures var k' := KernelRuns.Run(j.k, [call]); K.Shaped(k') && T.Matches(k', Mirrored(j, call))
  {
    hide Sound, KernelInvariant.Inv, K.Shaped, Listed, WakeAll, K.IsReady, KernelReady.Plain, K.Step;
    RunOne(j.k, call);
    ReadyRanks(j, call);
    KernelReady.PlainRanks(j.k, call);
    var before, after := ReadySet(j.k), ReadySet(KernelRuns.Run(j.k, [call]));
    WakeAllSound(j.s, after - before);
  }

  /** Whoever does not become ready stays on its event list. */
  lemma {:induction false} StaysListed(k: K.State, call: K.Op, t: Task)
    requires KernelInvariant.Inv(k) && KernelReady.Plain(call) && t in k.eventWaiters && !KernelReady.Unlists(call, t)
    requires K.Shaped(k) && K.Shaped(KernelRuns.Run(k, [call]))
    requires t !in ReadySet(KernelRuns.Run(k, [call])) - ReadySet(k)
    ensures var k' := KernelRuns.Run(k, [call]); t in k'.eventWaiters && t in k'.tcbs
  {
    hide KernelInvariant.Inv, K.Step, K.Shaped, KernelReady.Plain;
    RunOne(k, call);
    WaiterUnready(k, t);
    KernelReady.PlainListed(k, call, t);
    KernelReady.PlainRanks(k, call);
  }

  lemma {:induction false} OtherListed(j: Joint, call: K.Op)
    requires Inv(j) && Harmless(j, call)
    ensures Listed(KernelRuns.Run(j.k, [call]), Mirrored(j, call))
  {
    hide Sound, KernelInvariant.Inv, WakeAll, K.Step, Q.Waiting, K.Shaped, T.Matches, KernelReady.Plain,
      KernelReady.Unlists, ReadySet;
    RunOne(j.k, call);
    ReadyRanks(j, call);
    var k', s' := KernelRuns.Run(j.k, [call]), Mirrored(j, call);
    var before, after := ReadySet(j.k), ReadySet(k');
    WakeAllSound(j.s, after - before);
    forall m, t | m in s'.mutexes && t in WaitersOf(s', m) ensures t in k'.eventWaiters && t in k'.tcbs {
      assert WaitersOf(s', m) == WaitersOf(WakeAll(j.s, after - before), m);
      assert t in WaitersOf(j.s, m) && t !in after - before;
      StaysListed(j.k, call, t);
    }
  }

  lemma {:induction false} ReadyRanks(j: Joint, call: K.Op)
    requires Inv(j) && KernelReady.Plain(call) && K.Shaped(KernelRuns.Run(j.k, [call]))
    ensures ReadySet(KernelRuns.Run(j.k, [call])) <= j.s.tcbs.Keys
  {
    hide Sound, KernelInvariant.Inv, K.Step, K.Shaped;
    RunOne(j.k, call);
    KernelReady.PlainRanks(j.k, call);
  }

  lemma {:induction false} WaiterUnready(k: K.State, t: Task)
    requires KernelInvariant.Inv(k) && t in k.eventWaiters && K.Shaped(k)
    ensures t in k.tcbs && !K.IsReady(k, t)
  {
    KernelInvariant.OnExactlyOneList(k, {}, t, k.tick + 1);
  }

  // ----- mutex calls: the mutexes' part -----

  lemma {:induction false} SameWaitersSingle(s: M.System, s': M.System)
    requires Single(s) && s'.mutexes.Keys == s.mutexes.Keys
    requires forall m :: m in s.mutexes ==> s'.mutexes[m].waiters == s.mutexes[m].waiters
    ensures Single(s')
  {
    hide Q.OneEach, Q.Waiting;
    forall m, m' | m in s'.mutexes && m' in s'.mutexes && m != m' ensures WaitersOf(s', m) !! WaitersOf(s', m') {
      assert WaitersOf(s, m) !! WaitersOf(s, m');
    }
  }

  /** One list changes, and gains at most a task that waited nowhere. */
  lemma {:induction false} OneListSingle(s: M.System, s': M.System, m: Mutex, gained: set<Task>)
    requires Single(s) && m in s.mutexes && m in s'.mutexes && s'.mutexes == s.mutexes[m := s'.mutexes[m]]
    requires Q.OneEach(s'.mutexes[m].waiters) && WaitersOf(s', m) <= WaitersOf(s, m) + gained
    requires forall m' :: m' in s.mutexes ==> WaitersOf(s, m') !! gained
    ensures Single(s')
  {
    hide Q.OneEach, Q.Waiting;
    forall m1, m2 | m1 in s'.mutexes && m2 in s'.mutexes && m1 != m2 ensures WaitersOf(s', m1) !! WaitersOf(s', m2) {
      assert WaitersOf(s, m1) !! WaitersOf(s, m2);
    }
  }

  lemma {:induction false} WaitsNowhere(s: M.System, t: Task)
    requires !M.Waits(s, t)
    ensures forall m :: m in s.mutexes ==> t !in WaitersOf(s, m)
  {
  }

  lemma {:induction false} CallSound(s: M.System, op: M.Op)
    requires Sound(s) && T.Orderly(s, op)
    requires op.Take? || op.Give? || op.Wait? || op.Retry? || op.DisinheritFor? || op.Resign?
    ensures Sound(M.Apply(s, op))
  {
    hide M.Inv, T.LateInv, Single, Placed, Tail, Q.OneEach, Q.Waiting, M.Waits;
    M.StepInv(s, op);
    T.StepLate(s, op);
    var s', l := M.Apply(s, op), s.mutexes[op.m].waiters;
    if op.Give? {
      SingleList(s, op.m);
      Q.TailWaiting(l);
      OneListSingle(s, s', op.m, {});
    } else if op.Wait? {
      SingleList(s, op.m);
      WaitsNowhere(s, op.t);
      Q.PlacedWaiting(l, op.t, s.tcbs[op.t].priority);
      OneListSingle(s, s', op.m, {op.t});
    } else {
      SameWaitersSingle(s, s');
    }
  }

  lemma {:induction false} SingleList(s: M.System, m: Mutex)
    requires Single(s) && m in s.mutexes
    ensures Q.OneEach(s.mutexes[m].waiters)
  {
  }

  // ----- mutex calls: the scheduler's part -----

  /** Nobody's readiness changes, and the ranks change alike on both sides. */
  lemma {:induction false} RankMatches(j: Joint, j': Joint, t: Task)
    requires K.Shaped(j.k) && K.Shaped(j'.k) && T.Matches(j.k, j.s) && t in j.k.tcbs && t in j'.k.tcbs && t in j'.s.tcbs
    requires j'.k.tcbs == j.k.tcbs[t := j'.k.tcbs[t]] && j'.s.tcbs == j.s.tcbs[t := j'.s.tcbs[t]]
    requires KernelReady.SameRank(j'.k.tcbs[t], j'.s.tcbs[t]) && j'.s.ready == j.s.ready
    requires KernelReady.OthersSame(j.k, j'.k, t) && K.IsReady(j'.k, t) == K.IsReady(j.k, t)
    ensures T.Matches(j'.k, j'.s)
  {
    hide K.Shaped, K.IsReady;
  }

  /** The scheduler's state fits the mutexes'. */
  ghost predicate Fits(k: K.State, s: M.System) {
    K.Shaped(k) && T.Matches(k, s) && Listed(k, s)
  }

  lemma {:induction false} SameWaitersListed(k: K.State, k': K.State, s: M.System, s': M.System)
    requires Listed(k, s) && k'.eventWaiters == k.eventWaiters && k'.tcbs.Keys == k.tcbs.Keys
    requires s'.mutexes.Keys == s.mutexes.Keys
    requires forall m :: m in s.mutexes ==> s'.mutexes[m].waiters == s.mutexes[m].waiters
    ensures Listed(k', s')
  {
    hide Q.Waiting;
    forall m, t | m in s'.mutexes && t in WaitersOf(s', m) ensures t in k'.eventWaiters && t in k'.tcbs {
      assert t in WaitersOf(s, m);
    }
  }

  /** What the mutexes see of a take. */
  lemma {:induction false} TakeSeen(s: M.System, t: Task, m: Mutex)
    requires M.Applies(s, M.Take(t, m))
    ensures var s' := M.Apply(s, M.Take(t, m));
            && s'.tcbs == s.tcbs[t := s.tcbs[t].(mutexesHeld := s.tcbs[t].mutexesHeld + 1)]
            && s'.ready == s.ready && s'.mutexes.Keys == s.mutexes.Keys
            && (forall m' :: m' in s.mutexes ==> s'.mutexes[m'].waiters == s.mutexes[m'].waiters)
  {
  }

  lemma {:induction false} TakenReady(k: K.State)
    requires K.Known(k) && K.CanSelect(k)
    ensures var k', t := K.Step(k, K.TakeMutex), k.current;
            && K.Shaped(k') && t in k'.tcbs && KernelReady.OthersSame(k, k', t) && K.IsReady(k', t) == K.IsReady(k, t)
            && k'.eventWaiters == k.eventWaiters
            && k'.tcbs == k.tcbs[t := k.tcbs[t].(mutexesHeld := k.tcbs[t].mutexesHeld + 1)]
  {
    hide K.CanSelect;
  }

  lemma {:induction false} TakeFits(j: Joint, m: Mutex)
    requires Inv(j) && T.Orderly(j.s, M.Take(j.k.current, m))
    requires K.Known(j.k) && K.CanSelect(j.k)
    ensures Fits(K.Step(j.k, K.TakeMutex), M.Apply(j.s, M.Take(j.k.current, m)))
  {
    hide Sound, KernelInvariant.Inv, Listed, M.Waits, M.Runs, K.Shaped, K.Step, M.Apply, K.IsReady, K.Known;
    var k', s' := K.Step(j.k, K.TakeMutex), M.Apply(j.s, M.Take(j.k.current, m));
    TakenReady(j.k);
    TakeSeen(j.s, j.k.current, m);
    RankMatches(j, Joint(k', s'), j.k.current);
    SameWaitersListed(j.k, k', j.s, s');
  }

  lemma {:induction false} HolderKnown(j: Joint, m: Mutex)
    requires Inv(j) && m in j.s.mutexes && j.s.mutexes[m].holder.Some?
    ensures j.s.mutexes[m].holder.value in j.s.tcbs && j.s.mutexes[m].holder.value in j.k.tcbs
    ensures j.s.tcbs[j.s.mutexes[m].holder.value].mutexesHeld > 0
  {
    M.WaitersBelow(j.s, m);
  }

  lemma {:induction false} SameTimedOut(a: K.Tcb, b: K.Tcb, w: int)
    requires KernelReady.SameRank(a, b)
    ensures KernelReady.SameRank(M.TimedOut(a, w), M.TimedOut(b, w))
  {
  }

  /** What the mutexes see of a disinheritance after a timeout. */
  lemma {:induction false} TimeoutSeen(s: M.System, t: Task, m: Mutex, h: Task)
    requires M.Applies(s, M.DisinheritFor(t, m)) && s.mutexes[m].holder == Some(h)
    ensures var s' := M.Apply(s, M.DisinheritFor(t, m));
            && s'.tcbs == s.tcbs[h := M.TimedOut(s.tcbs[h], M.HighestWaiting(s.mutexes[m].waiters))]
            && s'.ready == s.ready && s'.mutexes.Keys == s.mutexes.Keys
            && (forall m' :: m' in s.mutexes ==> s'.mutexes[m'].waiters == s.mutexes[m'].waiters)
  {
    hide M.TimedOut, M.HighestWaiting;
  }

  lemma {:induction false} DisinheritFits(j: Joint, m: Mutex, h: Task)
    requires Inv(j) && T.Orderly(j.s, M.DisinheritFor(j.k.current, m)) && j.s.mutexes[m].holder == Some(h)
    ensures h in j.k.tcbs && 0 <= M.HighestWaiting(j.s.mutexes[m].waiters) < PRIORITIES
    ensures var w := M.HighestWaiting(j.s.mutexes[m].waiters);
            && K.BitSurvives(j.k, h, w)
            && Fits(K.DisinheritAfterTimeout(j.k, h, w), M.Apply(j.s, M.DisinheritFor(j.k.current, m)))
  {
    hide KernelInvariant.Inv, Listed, M.Inv, T.LateInv, M.Runs, K.DisinheritAfterTimeout, M.HighestWaiting,
      K.BitSurvives, Single, M.Apply, M.TimedOut, K.Shaped, K.IsReady;
    var k, s := j.k, j.s;
    HolderKnown(j, m);
    T.BitKept(k, s, k.current, m, h);
    var w := M.HighestWaiting(s.mutexes[m].waiters);
    var k', s' := K.DisinheritAfterTimeout(k, h, w), M.Apply(s, M.DisinheritFor(k.current, m));
    M.TimeoutSameAsKernel(k, h, w);
    TimeoutSeen(s, k.current, m, h);
    TimeoutReady(k, h, w);
    SameTimedOut(k.tcbs[h], s.tcbs[h], w);
    RankMatches(j, Joint(k', s'), h);
    SameWaitersListed(k, k', s, s');
  }

  lemma {:induction false} TimeoutReady(k: K.State, h: Task, w: nat)
    requires KernelInvariant.Inv(k) && K.Shaped(k) && h in k.tcbs && w < PRIORITIES && K.BitSurvives(k, h, w)
    ensures var k' := K.DisinheritAfterTimeout(k, h, w);
            && K.Shaped(k') && h in k'.tcbs && KernelReady.OthersSame(k, k', h) && K.IsReady(k', h) == K.IsReady(k, h)
            && k'.eventWaiters == k.eventWaiters
  {
    hide KernelInvariant.InvFrom, K.Reprioritise;
    if K.TimeoutLowers(k, h, w) {
      var p := K.TimeoutPriority(k.tcbs[h], w);
      KernelRuns.TimeoutIsReprioritise(k, h, w);
      assert K.DisinheritAfterTimeout(k, h, w) == K.Reprioritise(k, h, p);
      KernelReady.ReprioritiseReady(k, h, p);
      KernelRuns.ReprioritiseFrame(k, h, p);
    }
  }

  // ----- waiting -----

  lemma {:induction false} InheritReady(k: K.State, h: Task)
    requires KernelInvariant.Inv(k) && K.Shaped(k) && h in k.tcbs
    ensures var k' := K.Inherit(k, h);
            && KernelInvariant.Inv(k') && K.Shaped(k') && k'.current == k.current && k'.eventWaiters == k.eventWaiters
            && k'.tcbs == k.tcbs[h := M.Inherited(k.tcbs[h], K.Prio(k, k.current))]
            && KernelReady.OthersSame(k, k', h) && K.IsReady(k', h) == K.IsReady(k, h)
  {
    hide KernelInvariant.InvFrom, K.Reprioritise;
    var p := K.Prio(k, k.current);
    if K.Prio(k, h) < p {
      KernelRuns.ReprioritiseInv(k, h, p);
      KernelReady.ReprioritiseReady(k, h, p);
      KernelRuns.ReprioritiseFrame(k, h, p);
    }
  }

  /** What the mutexes see of a wait. */
  lemma {:induction false} WaitSeen(s: M.System, t: Task, m: Mutex, h: Task)
    requires Single(s) && M.Enabled(s, M.Wait(t, m)) && s.mutexes[m].holder == Some(h)
    ensures var s' := M.Apply(s, M.Wait(t, m));
            && s'.tcbs == s.tcbs[h := M.Inherited(s.tcbs[h], s.tcbs[t].priority)]
            && s'.ready == s.ready - {t} && s'.mutexes.Keys == s.mutexes.Keys
            && (forall m' :: m' in s.mutexes ==> WaitersOf(s', m') <= WaitersOf(s, m') + {t})
  {
    hide M.Inherited, Placed, Q.Waiting, Q.OneEach, M.Waits;
    WaitsNowhere(s, t);
    SingleList(s, m);
    Q.PlacedWaiting(s.mutexes[m].waiters, t, s.tcbs[t].priority);
  }

  /** The ranks after inheriting and blocking. */
  lemma {:induction false} WaitRanks(k: map<Task, K.Tcb>, s: map<Task, K.Tcb>, h: Task, t: Task)
    requires KernelReady.SameRanks(k, s) && h in k && t in k
    ensures var k' := k[h := M.Inherited(k[h], k[t].priority)];
            KernelReady.SameRanks(k'[t := k'[t].(delayAborted := false)], s[h := M.Inherited(s[h], s[t].priority)])
  {
  }

  lemma {:induction false} WaitFits(j: Joint, m: Mutex, h: Task, ticks: Tick)
    requires Inv(j) && T.Orderly(j.s, M.Wait(j.k.current, m)) && j.s.mutexes[m].holder == Some(h)
    requires ticks > 0 && j.k.current != K.IDLE && !j.k.tcbs[j.k.current].awaitsNotification
    ensures h in j.k.tcbs
    ensures var k1 := K.Inherit(j.k, h);
            && KernelInvariant.Inv(k1) && K.Shaped(k1) && k1.current in k1.tcbs && K.IsReady(k1, k1.current)
            && k1.current == j.k.current && !k1.tcbs[k1.current].awaitsNotification
            && Fits(K.BlockOnEvent(k1, ticks), M.Apply(j.s, M.Wait(j.k.current, m)))
  {
    hide KernelInvariant.Inv, M.Inv, T.LateInv, M.Waits, Single, M.Apply, M.Inherited, K.Shaped, K.Inherit,
      K.BlockOnEvent, Q.Waiting, K.IsReady;
    var k, s, t := j.k, j.s, j.k.current;
    HolderKnown(j, m);
    InheritReady(k, h);
    WaitSeen(s, t, m, h);
    WaitRanks(k.tcbs, s.tcbs, h, t);
    var k1 := K.Inherit(k, h);
    Unawaiting(k.tcbs, h, t, k.tcbs[t].priority);
    KernelReady.BlockReady(k1, ticks);
  }

  lemma {:induction false} Unawaiting(tcbs: map<Task, K.Tcb>, h: Task, t: Task, p: nat)
    requires h in tcbs && t in tcbs
    ensures tcbs[h := M.Inherited(tcbs[h], p)][t].awaitsNotification == tcbs[t].awaitsNotification
  {
  }

  // ----- giving -----

  lemma {:induction false} DisinheritReady(k: K.State)
    requires KernelInvariant.Inv(k) && K.Shaped(k)
    ensures var k', t := K.Disinherit(k), k.current;
            && KernelInvariant.Inv(k') && k'.eventWaiters == k.eventWaiters && k'.suspensions == k.suspensions
            && k'.tcbs == k.tcbs[t := M.GivenBack(k.tcbs[t])]
            && KernelReady.OthersSame(k, k', t) && K.IsReady(k', t) == K.IsReady(k, t)
  {
    hide KernelInvariant.InvFrom, K.Reprioritise;
    var t, tcb := k.current, k.tcbs[k.current].(mutexesHeld := K.Pred(k.tcbs[k.current].mutexesHeld));
    var k1 := k.(tcbs := k.tcbs[t := tcb]);
    KernelRuns.DisinheritInv(k);
    KernelRuns.DisinheritWaiters(k);
    HeldInv(k, t, tcb);
    KernelReady.ReprioritiseReady(k1, t, tcb.base);
    KernelRuns.ReprioritiseFrame(k1, t, tcb.base);
  }

  lemma {:induction false} HeldInv(k: K.State, t: Task, tcb: K.Tcb)
    requires KernelInvariant.Inv(k) && t in k.tcbs && tcb == k.tcbs[t].(mutexesHeld := tcb.mutexesHeld)
    ensures KernelInvariant.Inv(k.(tcbs := k.tcbs[t := tcb])) && K.Shaped(k.(tcbs := k.tcbs[t := tcb]))
  {
    KernelRuns.TcbInv(k, t, tcb);
  }

  /** What the mutexes see of a give. */
  lemma {:induction false} GiveSeen(s: M.System, t: Task, m: Mutex)
    requires Single(s) && M.Applies(s, M.Give(t, m))
    ensures var s', l := M.Apply(s, M.Give(t, m)), s.mutexes[m].waiters;
            && s'.tcbs == s.tcbs[t := M.GivenBack(s.tcbs[t])]
            && s'.ready == s.ready + Head(l) && s'.mutexes.Keys == s.mutexes.Keys
            && (forall m' :: m' in s.mutexes ==> WaitersOf(s', m') <= WaitersOf(s, m') - Head(l))
            && (l != [] ==> l[0].owner in WaitersOf(s, m))
  {
    hide M.GivenBack, Tail, Q.OneEach;
    var s', l := M.Apply(s, M.Give(t, m)), s.mutexes[m].waiters;
    Q.TailWaiting(l);
    assert l != [] ==> l[0] in l && l[0].owner in WaitersOf(s, m);
    forall m' | m' in s.mutexes ensures WaitersOf(s', m') <= WaitersOf(s, m') - Head(l) {
      if m' != m {
        assert WaitersOf(s, m) !! WaitersOf(s, m');
      }
    }
  }

  lemma {:induction false} GivenRanks(k: map<Task, K.Tcb>, s: map<Task, K.Tcb>, t: Task)
    requires KernelReady.SameRanks(k, s) && t in k
    ensures KernelReady.SameRanks(k[t := M.GivenBack(k[t])], s[t := M.GivenBack(s[t])])
  {
  }

  /** Readiness and event lists after a give. */
  lemma {:induction false} GiveReady(k: K.State, waiter: Option<Task>)
    requires KernelInvariant.Inv(k) && K.Shaped(k) && k.suspensions == 0
    requires waiter.Some? ==> waiter.value in k.eventWaiters && waiter.value in k.tcbs
    ensures var k', woken := K.Give(k, waiter), if waiter.None? then {} else {waiter.value};
            && K.Shaped(k') && k'.tcbs == k.tcbs[k.current := M.GivenBack(k.tcbs[k.current])]
            && k'.eventWaiters == k.eventWaiters - woken
            && (forall u :: u in k.tcbs ==> (K.IsReady(k', u) <==> K.IsReady(k, u) || u in woken))
  {
    hide KernelInvariant.Inv, K.Disinherit, K.MakeReady, M.GivenBack, K.IsReady;
    DisinheritReady(k);
    var k1 := K.Disinherit(k);
    if waiter.Some? {
      KernelReady.MakeReadyReady(k1, waiter.value);
      SameLists(K.MakeReady(k1, waiter.value), K.Give(k, waiter));
    } else {
      SameLists(k1, K.Give(k, waiter));
    }
  }

  lemma {:induction false} SameLists(k: K.State, k': K.State)
    requires K.Shaped(k) && k' == k.(yieldPending := k'.yieldPending, switchRequested := k'.switchRequested)
    ensures K.Shaped(k') && forall u :: u in k.tcbs ==> K.IsReady(k', u) == K.IsReady(k, u)
  {
  }

  lemma {:induction false} GiveFits(j: Joint, m: Mutex)
    requires Inv(j) && j.k.suspensions == 0 && T.Orderly(j.s, M.Give(j.k.current, m))
    ensures var waiter := First(j.s.mutexes[m].waiters);
            && (waiter.Some? ==> waiter.value in j.k.eventWaiters && waiter.value in j.k.tcbs)
            && Fits(K.Give(j.k, waiter), M.Apply(j.s, M.Give(j.k.current, m)))
  {
    hide KernelInvariant.Inv, M.Inv, T.LateInv, Single, M.Apply, M.GivenBack, K.Shaped, K.Give, Q.Waiting, K.IsReady;
    GiveSeen(j.s, j.k.current, m);
    GiveReady(j.k, First(j.s.mutexes[m].waiters));
    GivenRanks(j.k.tcbs, j.s.tcbs, j.k.current);
  }

  // ----- creating -----

  lemma {:induction false} CreateSound(s: M.System, u: Task, tcb: K.Tcb)
    requires Sound(s) && u !in s.tcbs && tcb.base == tcb.priority < PRIORITIES && tcb.mutexesHeld == 0
    ensures Sound(s.(tcbs := s.tcbs[u := tcb], ready := s.ready + {u}))
  {
    hide Q.OneEach, Q.Waiting, Sorted;
    var s' := s.(tcbs := s.tcbs[u := tcb], ready := s.ready + {u});
    forall m | m in s.mutexes
      ensures M.MutexSound(s'.tcbs, s'.ready, s.mutexes[m]) && T.LateSound(s'.tcbs, s'.ready, s.mutexes[m])
      ensures s.mutexes[m].holder != Some(u)
    {
      NewTaskSound(s.tcbs, s.ready, s.mutexes[m], u, tcb);
    }
    forall t | t in s'.tcbs ensures s'.tcbs[t].mutexesHeld == |M.HeldBy(s'.mutexes, t)| {
      assert t == u ==> M.HeldBy(s'.mutexes, t) == {};
    }
    SameWaitersSingle(s, s');
  }

  lemma {:induction false} NewTaskSound(tcbs: map<Task, K.Tcb>, ready: set<Task>, mu: M.MutexState, u: Task, tcb: K.Tcb)
    requires M.MutexSound(tcbs, ready, mu) && T.LateSound(tcbs, ready, mu) && u !in tcbs
    ensures M.MutexSound(tcbs[u := tcb], ready + {u}, mu) && T.LateSound(tcbs[u := tcb], ready + {u}, mu)
    ensures mu.holder != Some(u)
  {
    hide Sorted, M.TimedOut;
    var tcbs' := tcbs[u := tcb];
    if mu.holder.None? && mu.waiters != [] {
      var v :| v in mu.woken && v in tcbs && M.HighestWaiting(mu.waiters) <= tcbs[v].priority;
      assert v in mu.woken && v in tcbs' && M.HighestWaiting(mu.waiters) <= tcbs'[v].priority;
    }
    if mu.holder.Some? && T.Settled(tcbs, mu, mu.holder.value) {
      var h := mu.holder.value;
      if exists x :: x in mu.late && x in tcbs && tcbs[x].priority == tcbs[h].priority {
        var x :| x in mu.late && x in tcbs && tcbs[x].priority == tcbs[h].priority;
        assert x in mu.late && x in tcbs' && tcbs'[x].priority == tcbs'[h].priority;
      }
    }
  }

  lemma {:induction false} CreateReady(k: K.State, u: Task, p: nat)
    requires K.Shaped(k) && u !in k.tcbs && p < PRIORITIES
    ensures var k' := K.Create(k, u, p);
            && K.Shaped(k') && k'.tcbs == k.tcbs[u := K.Tcb(p, p, 0, false, false)] && k'.eventWaiters == k.eventWaiters
            && K.IsReady(k', u) && forall t :: t in k.tcbs ==> K.IsReady(k', t) == K.IsReady(k, t)
  {
    hide K.PutReady;
    var k1 := k.(tcbs := k.tcbs[u := K.Tcb(p, p, 0, false, false)], taskCount := k.taskCount + 1);
    assert K.Shaped(k1);
    KernelReady.PutReadyReady(k1, u);
    SameLists(K.PutReady(k1, u), K.Create(k, u, p));
    forall t | t in k.tcbs ensures K.IsReady(k1, t) == K.IsReady(k, t) {
    }
  }

  lemma {:induction false} CreateFits(j: Joint, u: Task, p: nat)
    requires Inv(j) && u !in j.k.tcbs && p < PRIORITIES
    ensures var tcb := K.Tcb(p, p, 0, false, false);
            Fits(K.Create(j.k, u, p), j.s.(tcbs := j.s.tcbs[u := tcb], ready := j.s.ready + {u}))
  {
    hide Sound, KernelInvariant.Inv, K.Create, K.Shaped, Listed, K.IsReady;
    CreateReady(j.k, u, p);
    var s' := j.s.(tcbs := j.s.tcbs[u := K.Tcb(p, p, 0, false, false)], ready := j.s.ready + {u});
    MoreTasksListed(j.k, K.Create(j.k, u, p), j.s, s');
  }

  lemma {:induction false} MoreTasksListed(k: K.State, k': K.State, s: M.System, s': M.System)
    requires Listed(k, s) && k'.eventWaiters == k.eventWaiters && k.tcbs.Keys <= k'.tcbs.Keys && s'.mutexes == s.mutexes
    ensures Listed(k', s')
  {
    hide Q.Waiting;
    forall m, t | m in s'.mutexes && t in WaitersOf(s', m) ensures t in k'.eventWaiters && t in k'.tcbs {
      assert t in WaitersOf(s, m);
    }
  }

  // ----- every step and every run -----

  /** In an entitled step the scheduler's calls are all enabled, so each has its effect. */
  lemma {:induction false} CallsTakeEffect(j: Joint, op: Op)
    requires Inv(j) && Entitled(j, op)
    ensures Fits(KernelRuns.Run(j.k, Calls(j, op)), Seen(j, op))
  {
    hide KernelInvariant.Inv, Sound, K.Shaped, T.Matches, Listed, K.Step, Seen, K.Known, K.CanSelect;
    match op
    case Take(m) => TakeEffect(j, m);
    case Give(m) => GiveEffect(j, m);
    case Wait(m, ticks) => WaitEffect(j, m, ticks);
    case Disinherit(m) => DisinheritEffect(j, m);
    case Create(u, p) => CreateEffect(j, u, p);
    case Other(call) => OtherEffect(j, call);
    case Retry(m) => UnseenEffect(j, op);
    case Resign(m) => UnseenEffect(j, op);
  }

  lemma {:induction false} OtherEffect(j: Joint, call: K.Op)
    requires Inv(j) && Entitled(j, Other(call))
    ensures Fits(KernelRuns.Run(j.k, Calls(j, Other(call))), Seen(j, Other(call)))
  {
    hide KernelInvariant.Inv, Sound, K.Shaped, T.Matches, Listed, Harmless, Mirrored;
    OtherMatches(j, call);
    OtherListed(j, call);
  }

  lemma {:induction false} UnseenEffect(j: Joint, op: Op)
    requires Inv(j) && Entitled(j, op) && (op.Retry? || op.Resign?)
    ensures Fits(KernelRuns.Run(j.k, Calls(j, op)), Seen(j, op))
  {
    hide KernelInvariant.Inv, Sound, K.Shaped, Listed, M.Runs;
    SameWaitersListed(j.k, j.k, j.s, Seen(j, op));
  }

  lemma {:induction false} TakeEffect(j: Joint, m: Mutex)
    requires Inv(j) && Entitled(j, Take(m))
    ensures Fits(KernelRuns.Run(j.k, Calls(j, Take(m))), Seen(j, Take(m)))
  {
    hide KernelInvariant.Inv, Sound, K.Shaped, T.Matches, Listed, K.Step, M.Apply, T.Orderly, K.Known;
    RunOne(j.k, K.TakeMutex);
    TakeFits(j, m);
  }

  lemma {:induction false} GiveEffect(j: Joint, m: Mutex)
    requires Inv(j) && Entitled(j, Give(m))
    ensures Fits(KernelRuns.Run(j.k, Calls(j, Give(m))), Seen(j, Give(m)))
  {
    hide KernelInvariant.Inv, Sound, K.Shaped, T.Matches, Listed, M.Apply, K.Give, M.Runs, K.Known;
    RunOne(j.k, K.GiveMutex(First(j.s.mutexes[m].waiters)));
    GiveFits(j, m);
  }

  lemma {:induction false} WaitEffect(j: Joint, m: Mutex, ticks: Tick)
    requires Inv(j) && Entitled(j, Wait(m, ticks))
    ensures Fits(KernelRuns.Run(j.k, Calls(j, Wait(m, ticks))), Seen(j, Wait(m, ticks)))
  {
    hide KernelInvariant.Inv, Sound, K.Shaped, T.Matches, Listed, M.Apply, K.Inherit, K.BlockOnEvent, M.Runs, M.Waits,
      K.Known;
    var h := j.s.mutexes[m].holder.value;
    WaitFits(j, m, h, ticks);
    RunOne(j.k, K.InheritFor(h));
    RunOne(K.Inherit(j.k, h), K.BlockEvent(ticks));
    RunTwo(j.k, K.InheritFor(h), K.BlockEvent(ticks));
  }

  lemma {:induction false} RunTwo(k: K.State, a: K.Op, b: K.Op)
    requires KernelInvariant.Inv(k)
    ensures KernelRuns.Run(k, [a, b]) == KernelRuns.Run(KernelRuns.Run(k, [a]), [b])
  {
    hide KernelInvariant.InvFrom, K.Step;
    RunOne(k, a);
    assert [a, b][1..] == [b];
  }

  lemma {:induction false} DisinheritEffect(j: Joint, m: Mutex)
    requires Inv(j) && Entitled(j, Disinherit(m))
    ensures Fits(KernelRuns.Run(j.k, Calls(j, Disinherit(m))), Seen(j, Disinherit(m)))
  {
    hide KernelInvariant.Inv, Sound, K.Shaped, T.Matches, Listed, M.Apply, K.DisinheritAfterTimeout, M.Runs,
      M.HighestWaiting, K.BitSurvives, K.Known;
    var h := j.s.mutexes[m].holder.value;
    DisinheritFits(j, m, h);
    RunOne(j.k, K.TimeoutDisinherit(h, M.HighestWaiting(j.s.mutexes[m].waiters)));
  }

  lemma {:induction false} CreateEffect(j: Joint, u: Task, p: nat)
    requires Inv(j) && Entitled(j, Create(u, p))
    ensures Fits(KernelRuns.Run(j.k, Calls(j, Create(u, p))), Seen(j, Create(u, p)))
  {
    hide KernelInvariant.Inv, Sound, K.Shaped, T.Matches, Listed, K.Create, K.Known;
    RunOne(j.k, K.CreateTask(u, p));
    CreateFits(j, u, K.Clamped(p));
  }

  lemma {:induction false} SeenSound(j: Joint, op: Op)
    requires Inv(j) && Entitled(j, op)
    ensures Sound(Seen(j, op))
  {
    hide KernelInvariant.Inv, Sound, K.Shaped, Listed, M.Apply, T.Orderly, M.Runs;
    var t := j.k.current;
    match op
    case Take(m) => CallSound(j.s, M.Take(t, m));
    case Give(m) => CallSound(j.s, M.Give(t, m));
    case Wait(m, _) => CallSound(j.s, M.Wait(t, m));
    case Retry(m) => CallSound(j.s, M.Retry(t, m));
    case Disinherit(m) => CallSound(j.s, M.DisinheritFor(t, m));
    case Resign(m) => CallSound(j.s, M.Resign(t, m));
    case Create(u, p) => CreateSound(j.s, u, K.Tcb(K.Clamped(p), K.Clamped(p), 0, false, false));
    case Other(call) => OtherSound(j, call);
  }

  /** Every step keeps both invariants and the two states matching. */
  lemma {:induction false} StepInv(j: Joint, op: Op)
    requires Inv(j)
    ensures Inv(Step(j, op))
  {
    hide KernelInvariant.Inv, Sound, K.Shaped, T.Matches, Listed, Entitled, Calls, Seen;
    if Entitled(j, op) {
      SeenSound(j, op);
      CallsTakeEffect(j, op);
    }
  }

  lemma {:induction false} RunInv(j: Joint, ops: seq<Op>)
    requires Inv(j)
    ensures Inv(Run(j, ops))
    decreases |ops|
  {
    hide KernelInvariant.Inv, Sound, K.Shaped, T.Matches, Listed, Step;
    if ops != [] {
      StepInv(j, ops[0]);
      RunInv(Step(j, ops[0]), ops[1..]);
    }
  }

  /** The scheduler just started, with the idle task only, and free mutexes. */
  ghost function Start(mutexes: set<Mutex>): (j: Joint)
    ensures KernelInvariant.Inv(j.k)
  {
    hide KernelInvariant.InvFrom;
    KernelRuns.StartInv();
    Joint(KernelRuns.Start(),
          M.System(KernelRuns.Start().tcbs, map m | m in mutexes :: M.MutexState(None, [], {}, {}), {K.IDLE}))
  }

  lemma {:induction false} StartInv(mutexes: set<Mutex>)
    ensures Inv(Start(mutexes))
  {
    hide KernelInvariant.InvFrom;
    var j := Start(mutexes);
    KernelRuns.InvShape(j.k);
    M.InitialInv(j.s);
    assert forall m :: m in j.s.mutexes ==> j.s.mutexes[m].waiters == [];
  }

  /** A disinheritance the running task is entitled to does not empty the ready list it removes from. */
  ghost predicate TimeoutSafe(j: Joint, m: Mutex)
    requires KernelInvariant.Inv(j.k)
  {
    Entitled(j, Disinherit(m)) ==>
      var h, w := j.s.mutexes[m].holder.value, M.HighestWaiting(j.s.mutexes[m].waiters);
      && h in j.k.tcbs && 0 <= w < PRIORITIES && K.BitSurvives(j.k, h, w)
      && KernelInvariant.Inv(K.DisinheritAfterTimeout(j.k, h, w))
  }

  /**
   * In every run of tasks, mutexes and scheduler from the start the scheduler's invariant holds
   * with its bitmap exact, the priorities in its TCBs obey inheritance, and the disinheritance a
   * timed-out waiter is entitled to never empties the ready list it removes from.
   */
  lemma {:induction false} TimeoutsKeepBitmap(mutexes: set<Mutex>, ops: seq<Op>)
    ensures var j := Run(Start(mutexes), ops);
            && KernelInvariant.Inv(j.k) && KernelReady.SameRanks(j.k.tcbs, j.s.tcbs) && M.Inherits(j.s)
            && forall m :: m in j.s.mutexes ==> TimeoutSafe(j, m)
  {
    hide KernelInvariant.Inv, Run, Start, M.Inv, T.LateInv, Single, M.Inherits, K.Shaped, Listed, TimeoutSafe;
    StartInv(mutexes);
    RunInv(Start(mutexes), ops);
    var j := Run(Start(mutexes), ops);
    M.InvInherits(j.s);
    forall m | m in j.s.mutexes ensures TimeoutSafe(j, m) {
      TimeoutIsSafe(j, m);
    }
  }

  lemma {:induction false} TimeoutIsSafe(j: Joint, m: Mutex)
    requires Inv(j)
    ensures TimeoutSafe(j, m)
  {
    hide KernelInvariant.Inv, Sound, K.Shaped, Listed, M.HighestWaiting, K.DisinheritAfterTimeout, K.BitSurvives,
      T.Matches;
    if Entitled(j, Disinherit(m)) {
      var h := j.s.mutexes[m].holder.value;
      DisinheritFits(j, m, h);
      KernelRuns.DisinheritBitExact(j.k, h, M.HighestWaiting(j.s.mutexes[m].waiters));
    }
  }
}
