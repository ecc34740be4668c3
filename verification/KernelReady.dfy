/**
 * Who is ready after a call, who is still on an event list, and what calls leave priorities alone:
 * what the mutexes see of the scheduler.
 */
module KernelReady {
  import opened Ticks
  import opened Rings
  import opened Tasks
  import opened Kernel
  import opened KernelInvariant
  import opened KernelRuns
  import opened KernelTime
  import opened KernelPreemption
  import KernelStale

  // ----- readiness -----

  /** Of the other tasks, exactly those ready in `k` are ready in `k'`. */
  ghost predicate OthersSame(k: State, k': State, t: Task)
    requires Shaped(k) && Shaped(k')
  {
    forall u :: u in k.tcbs && u != t ==> u in k'.tcbs && IsReady(k', u) == IsReady(k, u)
  }

  lemma {:induction false} ReprioritiseReady(k: State, t: Task, p: nat)
    requires Inv(k) && Shaped(k) && t in k.tcbs && p < PRIORITIES
    ensures Shaped(Reprioritise(k, t, p)) && OthersSame(k, Reprioritise(k, t, p), t)
    ensures IsReady(Reprioritise(k, t, p), t) == IsReady(k, t)
  {
    hide InvFrom, Reprioritise, IsReady;
    ReprioritiseInv(k, t, p);
    forall u | u in k.tcbs && u != t ensures IsReady(Reprioritise(k, t, p), u) == IsReady(k, u) {
      OthersStayPut(k, t, p, u);
    }
  }

  lemma {:induction false} TakeOutReady(k: State, t: Task)
    requires Shaped(k) && t in k.tcbs
    ensures OthersSame(k, TakeOut(k, t), t)
  {
    hide RemoveAt, IndexOf, DropItem, Drop;
    if IsReady(k, t) {
      forall u | u in k.tcbs && u != t ensures IsReady(TakeOut(k, t), u) == IsReady(k, u) {
        RemovedMember(k.ready[Prio(k, t)], t, u);
      }
    }
  }

  lemma {:induction false} PutReadyReady(k: State, t: Task)
    requires Shaped(k) && t in k.tcbs
    ensures OthersSame(k, PutReady(k, t), t) && IsReady(PutReady(k, t), t)
  {
    InsertEndMember(k.ready[Prio(k, t)], t);
    assert t in InsertEnd(k.ready[Prio(k, t)], t).items;
  }

  lemma {:induction false} MakeReadyReady(k: State, t: Task)
    requires Shaped(k) && t in k.tcbs
    ensures Shaped(MakeReady(k, t)) && OthersSame(k, MakeReady(k, t), t) && IsReady(MakeReady(k, t), t)
    ensures MakeReady(k, t).tcbs == k.tcbs && MakeReady(k, t).eventWaiters == k.eventWaiters - {t}
  {
    hide TakeOut, PutReady, Drop;
    var k1 := DropEvent(k, t);
    TakeOutReady(k1, t);
    PutReadyReady(TakeOut(k1, t), t);
  }

  /** A call that blocks takes the running task, and nobody else, off its ready list. */
  lemma {:induction false} BlockReady(k: State, ticks: Tick)
    requires Inv(k) && Shaped(k) && IsReady(k, k.current) && k.current != IDLE && ticks > 0
    requires !k.tcbs[k.current].awaitsNotification
    ensures var k' := BlockOnEvent(k, ticks);
            && Inv(k') && Shaped(k') && OthersSame(k, k', k.current) && k.current in k'.tcbs && !IsReady(k', k.current)
            && k'.tcbs == k.tcbs[k.current := k.tcbs[k.current].(delayAborted := false)]
            && k'.eventWaiters == k.eventWaiters + {k.current} && k'.suspensions == k.suspensions
  {
    hide InvFrom, TakeOut, PutToSleep, IsReady;
    var t, tcb := k.current, k.tcbs[k.current].(delayAborted := false);
    var k1, k' := k.(tcbs := k.tcbs[t := tcb]), BlockOnEvent(k, ticks);
    BlockOnEventInv(k, ticks);
    BlockCurrentFrame(k, ticks, true);
    BlockCurrentInv(k, ticks, true);
    InvShape(k');
    TakeOutReady(k1, t);
    forall u | u in k.tcbs && u != t ensures IsReady(k', u) == IsReady(k, u) {
      SameReady(k, k1, u);
      SameReady(TakeOut(k1, t), k', u);
    }
    AsleepUnready(k', t);
  }

  lemma {:induction false} AsleepUnready(k: State, t: Task)
    requires Inv(k) && Shaped(k) && Asleep(k, t)
    ensures !IsReady(k, t)
  {
    hide Partitioned, WakeTimesFrom;
    OnExactlyOneList(k, {}, t, k.tick + 1);
  }

  // ----- priorities -----

  /** Calls that leave the set of tasks, their priorities and the mutexes they hold alone. */
  predicate Plain(op: Op) {
    !UsesMutex(op) && !op.SetPriority? && !op.CreateTask? && !op.DeleteTask? && !op.IdleCleanUp?
  }

  predicate SameRank(a: Tcb, b: Tcb) {
    a.priority == b.priority && a.base == b.base && a.mutexesHeld == b.mutexesHeld
  }

  ghost predicate SameRanks(a: map<Task, Tcb>, b: map<Task, Tcb>) {
    a.Keys == b.Keys && forall t :: t in a ==> SameRank(a[t], b[t])
  }

  lemma {:induction false} RankUpdate(tcbs: map<Task, Tcb>, t: Task, tcb: Tcb)
    requires t in tcbs && SameRank(tcbs[t], tcb)
    ensures SameRanks(tcbs, tcbs[t := tcb])
  {
  }

  lemma {:induction false} CallRanks(k: State, t: Task)
    requires Shaped(k) && t in k.tcbs
    ensures SameRanks(k.tcbs, AbortDelay(k, t).tcbs)
    ensures SameRanks(k.tcbs, Notify(k, t).tcbs)
    ensures SameRanks(k.tcbs, Suspend(k, t).tcbs)
  {
    hide MakeReady, IsBlocked, Withdraw, Drop, Wrap, SameRanks;
    var tcb := k.tcbs[t];
    MakeReadyReady(k, t);
    MakeReadyReady(k.(tcbs := k.tcbs[t := tcb.(awaitsNotification := false)]), t);
    RankUpdate(k.tcbs, t, tcb);
    assert k.tcbs[t := tcb] == k.tcbs;
    RankUpdate(k.tcbs, t, tcb.(awaitsNotification := false));
    RankUpdate(k.tcbs, t, AbortDelay(k, t).tcbs[t]);
  }

  lemma {:induction false} PlainRanks(k: State, op: Op)
    requires Known(k) && CanSelect(k) && Plain(op)
    ensures SameRanks(k.tcbs, Step(k, op).tcbs)
  {
    hide CanSelect, IsReady, AbortDelay, Notify, Suspend, BlockCurrent, BlockOnEvent, BlockOnNotification,
      RemoveFromEventList, RemoveFromUnorderedEventList, Resume, TickIsr, ResumeAll, SwitchContext, SameRanks;
    if Enabled(k, op) {
      if op.Abort? || op.NotifyTask? || op.SuspendTask? {
        CallRanks(k, op.t);
      } else if op.UnblockEvent? || op.UnblockUnordered? || op.ResumeTask? {
        WakeRanks(k, op.t);
      } else if op.Block? || op.BlockEvent? || op.AwaitNotification? {
        BlockRanks(k, op.ticks, true);
        BlockRanks(k, op.ticks, false);
      } else if op.NotificationSeen? {
        RankUpdate(k.tcbs, k.current, k.tcbs[k.current].(awaitsNotification := false));
      } else {
        TimeTcbs(k);
      }
    }
    NoUpdate(k.tcbs);
  }

  lemma {:induction false} NoUpdate(tcbs: map<Task, Tcb>)
    ensures SameRanks(tcbs, tcbs)
  {
  }

  lemma {:induction false} BlockRanks(k: State, ticks: Tick, indefinitely: bool)
    requires Shaped(k)
    ensures SameRanks(k.tcbs, BlockCurrent(k, ticks, indefinitely).tcbs)
    ensures SameRanks(k.tcbs, BlockOnEvent(k, ticks).tcbs)
    ensures SameRanks(k.tcbs, BlockOnNotification(k, ticks).tcbs)
  {
    hide BlockCurrent;
    BlockCurrentFrame(k, ticks, indefinitely);
    BlockCurrentFrame(k, ticks, true);
    BlockCurrentFrame(k.(tcbs := k.tcbs[k.current := k.tcbs[k.current].(awaitsNotification := true)]), ticks, true);
  }

  lemma {:induction false} TimeTcbs(k: State)
    requires Known(k)
    ensures TickIsr(k).tcbs == k.tcbs && (k.suspensions > 0 ==> ResumeAll(k).tcbs == k.tcbs)
    ensures CanSelect(k) ==> SwitchContext(k).tcbs == k.tcbs
  {
    hide TickNow, Drain, Replay, CanSelect, Highest, Wrap;
  }

  lemma {:induction false} WakeRanks(k: State, t: Task)
    requires Shaped(k) && t in k.tcbs
    ensures RemoveFromEventList(k, t).tcbs == RemoveFromUnorderedEventList(k, t).tcbs == Resume(k, t).tcbs == k.tcbs
  {
    hide MakeReady;
    MakeReadyReady(k, t);
  }

  // ----- event lists -----

  /** `t` is still on an event list, or it is ready. */
  ghost predicate StillListed(k: State, t: Task) {
    t in k.eventWaiters || OnOwnReadyList(k, t)
  }

  lemma {:induction false} WakeHeadListed(k: State, t: Task)
    requires Known(k) && k.delayed != [] && t in k.tcbs && StillListed(k, t)
    ensures Known(WakeHead(k)) && WakeHead(k).tcbs == k.tcbs && StillListed(WakeHead(k), t)
  {
    hide PutReady, Drop;
    var u, k1 := k.delayed[0].owner, k.(delayed := k.delayed[1..]);
    PutReadyReady(DropEvent(k1, u), u);
    KernelStale.WakeHeadKnown(k);
  }

  lemma {:induction false} ExpireListed(k: State, t: Task)
    requires Known(k) && t in k.tcbs && StillListed(k, t)
    ensures StillListed(Expire(k).0, t)
    decreases |k.delayed|
  {
    hide WakeHead, Known;
    if k.delayed != [] && k.tick >= k.delayed[0].value {
      WakeHeadListed(k, t);
      KernelStale.WakeHeadKnown(k);
      ExpireListed(WakeHead(k), t);
    }
  }

  lemma {:induction false} TickListed(k: State, t: Task)
    requires Known(k) && t in k.tcbs && StillListed(k, t)
    ensures StillListed(TickNow(k).0, t)
  {
    hide Expire, Wrap;
    ExpireListed(AdvanceTick(k), t);
  }

  lemma {:induction false} ReplayListed(k: State, n: nat, t: Task)
    requires Known(k) && t in k.tcbs && StillListed(k, t)
    ensures StillListed(Replay(k, n), t)
    decreases n
  {
    hide TickNow;
    if n > 0 {
      TickListed(k, t);
      ReplayListed(Pend(TickNow(k).0, TickNow(k).1), n - 1, t);
    }
  }

  lemma {:induction false} DrainListed(k: State, t: Task)
    requires Inv(k) && Known(k) && k.suspensions > 0 && t in k.tcbs && StillListed(k, t)
    ensures StillListed(Drain(k), t)
    decreases |k.pending|
  {
    hide InvFrom, Known, DrainOne;
    if k.pending != [] {
      DrainOneInv(k);
      DrainOneListed(k, t);
      DrainListed(DrainOne(k), t);
    }
  }

  lemma {:induction false} DrainOneListed(k: State, t: Task)
    requires Inv(k) && Known(k) && k.pending != [] && k.suspensions > 0 && t in k.tcbs && StillListed(k, t)
    ensures Known(DrainOne(k)) && t in DrainOne(k).tcbs && StillListed(DrainOne(k), t)
    ensures |DrainOne(k).pending| < |k.pending| && DrainOne(k).suspensions == k.suspensions
  {
    hide InvFrom, TakeOut, PutReady;
    DrainOneInv(k);
    KernelStale.DrainOneShrinks(k);
    if OnOwnReadyList(k, t) {
      DrainOneKeepsReady(k, t);
    }
  }

  lemma {:induction false} ResumeListed(k: State, t: Task)
    requires Inv(k) && Known(k) && k.suspensions > 0 && t in k.tcbs && StillListed(k, t)
    ensures StillListed(ResumeAll(k), t)
  {
    hide InvFrom, Drain, Replay, Wrap;
    if k.suspensions == 1 {
      DrainListed(k, t);
      var k1 := Drain(k);
      var k2 := if k.pending == [] then k1 else ResetUnblock(k1);
      ReplayListed(k2.(suspensions := 0, pendedTicks := 0), k.pendedTicks, t);
    }
  }

  /** The call takes `t` off its event list other than by making it ready. */
  predicate Unlists(op: Op, t: Task) {
    (op.SuspendTask? || op.UnblockEvent? || op.UnblockUnordered?) && op.t == t
  }

  lemma {:induction false} WakeListed(k: State, op: Op, t: Task)
    requires Known(k) && CanSelect(k) && Enabled(k, op) && t in k.eventWaiters && t in k.tcbs && !Unlists(op, t)
    requires op.UnblockEvent? || op.UnblockUnordered? || op.Abort? || op.NotifyTask? || op.ResumeTask?
             || op.SuspendTask?
    ensures StillListed(Step(k, op), t)
  {
    hide CanSelect, RemoveFromEventList, RemoveFromUnorderedEventList, AbortDelay, Notify, Resume, Suspend, IsReady;
    if op.SuspendTask? {
      SuspendListed(k, op.t, t);
    } else {
      CallListed(k, op.t, t);
    }
  }

  lemma {:induction false} SuspendListed(k: State, u: Task, t: Task)
    requires Shaped(k) && u in k.tcbs && t in k.eventWaiters && t != u
    ensures t in Suspend(k, u).eventWaiters
  {
    hide Withdraw, Drop, Wrap;
  }

  /** A call that may ready `u` takes only `u` off its event list, and only to ready it. */
  lemma {:induction false} CallListed(k: State, u: Task, t: Task)
    requires Shaped(k) && u in k.tcbs && t in k.eventWaiters && t in k.tcbs
    ensures t != u ==> StillListed(RemoveFromEventList(k, u), t) && StillListed(RemoveFromUnorderedEventList(k, u), t)
    ensures StillListed(AbortDelay(k, u), t) && StillListed(Notify(k, u), t) && StillListed(Resume(k, u), t)
  {
    hide MakeReady, IsBlocked, Drop;
    MakeReadyReady(k, u);
    MakeReadyReady(k.(tcbs := k.tcbs[u := k.tcbs[u].(awaitsNotification := false)]), u);
  }

  /** A task on an event list stays there through every plain call that does not unlist it, or becomes ready. */
  lemma {:induction false} PlainListed(k: State, op: Op, t: Task)
    requires Inv(k) && Known(k) && CanSelect(k) && Plain(op) && t in k.eventWaiters && t in k.tcbs && !Unlists(op, t)
    ensures StillListed(Step(k, op), t)
  {
    hide InvFrom, CanSelect, TakeOut, PutToSleep, TickNow, ResumeAll, Highest, MakeReady, Withdraw, IsBlocked,
      RemoveFromEventList, RemoveFromUnorderedEventList, AbortDelay, Notify, Suspend, Resume;
    if Enabled(k, op) {
      if op.Tick? {
        TickListed(k, t);
      } else if op.ResumeScheduler? {
        ResumeListed(k, t);
      } else if op.UnblockEvent? || op.UnblockUnordered? || op.Abort? || op.NotifyTask? || op.ResumeTask?
                || op.SuspendTask? {
        WakeListed(k, op, t);
      }
    }
  }
}
