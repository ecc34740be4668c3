/**
 * Waiting over runs: what is woken with the scheduler suspended is ready when it resumes, a wait
 * without a time limit is ended by no tick, a suspended task stays suspended whatever else is
 * called, and a wait with a time limit ends on exactly its tick, whichever call began it.
 */
module KernelWaits {
  import opened Ticks
  import opened Rings
  import opened Tasks
  import opened Kernel
  import opened KernelInvariant
  import opened KernelRuns
  import opened KernelTime
  import opened KernelReady
  import opened KernelEffects
  import opened KernelLists
  import opened KernelTcbs
  import KernelPreemption
  import KernelStale

  // ----- woken while the scheduler is suspended -----

  /** Readied, or about to be: nothing but its own suspension or deletion can undo it. */
  ghost predicate Released(k: State, t: Task) {
    && k.suspensions > 0 && t in k.tcbs
    && (t in k.pending || (OnOwnReadyList(k, t) && t != k.current))
  }

  /** Neither takes `t` away nor lets the scheduler run again. */
  ghost predicate Within(k: State, op: Op, t: Task) {
    && !((op.SuspendTask? || op.DeleteTask?) && op.t == t)
    && !(op.ResumeScheduler? && k.suspensions <= 1)
  }

  lemma {:induction false} ReleasedStays(k: State, op: Op, t: Task)
    requires Inv(k) && Known(k) && CanSelect(k) && Released(k, t) && Within(k, op, t)
    ensures Released(Step(k, op), t)
  {
    hide InvFrom, Known, CanSelect, Step, WakesAt, OnOwnReadyList;
    if Enabled(k, op) {
      StepNests(k, op);
      StepLists(k, op, t);
      StepReadies(k, op, t);
      StepInv(k, op);
      PendingKnown(k);
      PendingKnown(Step(k, op));
      ReadyKnown(Step(k, op), t);
    } else {
      KernelPreemption.NoStep(k, op);
    }
  }

  lemma {:induction false} PendingKnown(k: State)
    requires Inv(k)
    ensures forall t :: t in k.pending ==> t in k.tcbs
  {
  }

  lemma {:induction false} ReadyKnown(k: State, t: Task)
    ensures OnOwnReadyList(k, t) ==> t in k.tcbs
  {
  }

  /** A stretch of steps with the scheduler suspended throughout in which `t` is not taken away. */
  ghost predicate StaysSuspended(k: State, t: Task, ops: seq<Op>)
    requires Inv(k)
    decreases |ops|
  {
    hide InvFrom, Known, CanSelect, Step;
    ops == [] || (StepInv(k, ops[0]); Within(k, ops[0], t) && StaysSuspended(Step(k, ops[0]), t, ops[1..]))
  }

  lemma {:induction false} ReleasedOverRun(k: State, t: Task, ops: seq<Op>)
    requires Inv(k) && Released(k, t) && StaysSuspended(k, t, ops)
    ensures Released(Run(k, ops), t)
    decreases |ops|
  {
    hide InvFrom, Known, CanSelect, Step, Released, Within;
    if ops != [] {
      StepInv(k, ops[0]);
      ReleasedStays(k, ops[0], t);
      ReleasedOverRun(Step(k, ops[0]), t, ops[1..]);
    }
  }

  /** The calls that end `t`'s wait for an event. */
  predicate Wakes(op: Op, t: Task) {
    op == UnblockEvent(t) || op == GiveMutex(Some(t))
  }

  /**
   * Nothing woken is lost. With the scheduler running the woken task is ready at once. With the
   * scheduler suspended it is ready as soon as it runs again, whatever is called meanwhile, unless
   * the task itself is suspended or deleted.
   */
  lemma {:induction false} WokenIsReady(k: State, op: Op, t: Task, ops: seq<Op>)
    requires Inv(k) && Known(k) && CanSelect(k) && Wakes(op, t) && Enabled(k, op)
    ensures Inv(Step(k, op)) && (k.suspensions == 0 ==> OnOwnReadyList(Step(k, op), t))
    ensures k.suspensions > 0 && StaysSuspended(Step(k, op), t, ops) && Run(Step(k, op), ops).suspensions == 1 ==>
              var k' := Run(Step(k, op), ops);
              Known(k') && CanSelect(k') && OnOwnReadyList(Step(k', ResumeScheduler), t)
  {
    hide InvFrom, Known, CanSelect, Step, WakesAt, OnOwnReadyList, StaysSuspended, Run;
    StepInv(k, op);
    StepReadies(k, op, t);
    StepLists(k, op, t);
    StepNests(k, op);
    PendingKnown(Step(k, op));
    if k.suspensions > 0 && StaysSuspended(Step(k, op), t, ops) && Run(Step(k, op), ops).suspensions == 1 {
      ReleasedOverRun(Step(k, op), t, ops);
      var k' := Run(Step(k, op), ops);
      StepInv(k', ResumeScheduler);
      StepReadies(k', ResumeScheduler, t);
    }
  }

  // ----- waits that no tick ends -----

  predicate Parked(k: State, t: Task) {
    t in k.suspended && t !in k.pending
  }

  lemma {:induction false} ParkedStays(k: State, op: Op, t: Task)
    requires Inv(k) && Known(k) && CanSelect(k) && Parked(k, t) && !Disturbs(op, t) && op != ResumeTask(t)
    ensures Parked(Step(k, op), t)
  {
    hide InvFrom, Known, CanSelect, Step, IsBlocked;
    if Enabled(k, op) {
      assert op.ResumeTask? ==> op == ResumeTask(op.t);
      StepLists(k, op, t);
    } else {
      KernelPreemption.NoStep(k, op);
    }
  }

  lemma {:induction false} ParkedOverRun(k: State, t: Task, ops: seq<Op>)
    requires Inv(k) && Parked(k, t)
    requires forall i :: 0 <= i < |ops| ==> !Disturbs(ops[i], t) && ops[i] != ResumeTask(t)
    ensures Parked(Run(k, ops), t)
    decreases |ops|
  {
    hide InvFrom, Known, CanSelect, Step, Parked, Disturbs;
    if ops != [] {
      StepInv(k, ops[0]);
      ParkedStays(k, ops[0], t);
      ParkedOverRun(Step(k, ops[0]), t, ops[1..]);
    }
  }

  /** The call blocks the running task without a time limit. */
  predicate Forever(op: Op) {
    op == Block(MAX_DELAY, true) || op == BlockEvent(MAX_DELAY) || op == AwaitNotification(MAX_DELAY)
  }

  /**
   * A task that waits with portMAX_DELAY is ready in no state of any run that neither ends its
   * wait nor resumes it, however many ticks pass.
   */
  lemma {:induction false} BlockedForever(k: State, op: Op, ops: seq<Op>)
    requires Inv(k) && Known(k) && CanSelect(k) && Forever(op) && Enabled(k, op)
    requires forall i :: 0 <= i < |ops| ==> !Disturbs(ops[i], k.current) && ops[i] != ResumeTask(k.current)
    ensures Inv(Step(k, op)) && !OnOwnReadyList(Run(Step(k, op), ops), k.current)
  {
    hide InvFrom, Known, CanSelect, Step, Run, OnOwnReadyList, Disturbs;
    StepInv(k, op);
    StepLists(k, op, k.current);
    InvShape(k);
    CurrentNotPending(k);
    ParkedOverRun(Step(k, op), k.current, ops);
    IdlesUnready(Run(Step(k, op), ops), k.current);
  }

  // ----- suspended tasks -----

  /** Suspended and waiting for nothing. */
  ghost predicate Held(k: State, t: Task) {
    t in k.tcbs && Parked(k, t) && t !in k.eventWaiters && !k.tcbs[t].awaitsNotification
  }

  lemma {:induction false} HeldAsleep(k: State, t: Task)
    requires Inv(k) && Held(k, t)
    ensures !IsBlocked(k, t) && t !in k.terminating
  {
    hide Partitioned;
    OnExactlyOneList(k, {}, t, k.tick + 1);
    OccursMember(Owners(k.delayed), t);
    OccursMember(Owners(k.overflow), t);
    OccursMember(k.suspended, t);
  }

  lemma {:induction false} HeldStays(k: State, op: Op, t: Task)
    requires Inv(k) && Known(k) && CanSelect(k) && Held(k, t)
    requires !((op.ResumeTask? || op.DeleteTask?) && op.t == t)
    ensures Held(Step(k, op), t)
  {
    hide InvFrom, Known, CanSelect, Step, WakesAt;
    if Enabled(k, op) {
      StepLists(k, op, t);
      StepListed(k, op, t);
      StepTcbs(k, op, t);
      InvShape(k);
      IdlesUnready(k, t);
      HeldAsleep(k, t);
    } else {
      KernelPreemption.NoStep(k, op);
    }
  }

  lemma {:induction false} HeldOverRun(k: State, t: Task, ops: seq<Op>)
    requires Inv(k) && Held(k, t)
    requires forall i :: 0 <= i < |ops| ==> !((ops[i].ResumeTask? || ops[i].DeleteTask?) && ops[i].t == t)
    ensures Held(Run(k, ops), t)
    decreases |ops|
  {
    hide InvFrom, Known, CanSelect, Step, Held;
    if ops != [] {
      StepInv(k, ops[0]);
      HeldStays(k, ops[0], t);
      HeldOverRun(Step(k, ops[0]), t, ops[1..]);
    }
  }

  lemma {:induction false} SuspendHolds(k: State, t: Task)
    requires Inv(k) && Known(k) && CanSelect(k) && Enabled(k, SuspendTask(t))
    ensures Inv(Step(k, SuspendTask(t))) && Held(Step(k, SuspendTask(t)), t)
  {
    hide InvFrom, Known, CanSelect, Step, WakesAt;
    StepInv(k, SuspendTask(t));
    StepLists(k, SuspendTask(t), t);
    StepListed(k, SuspendTask(t), t);
    StepTcbs(k, SuspendTask(t), t);
  }

  /**
   * A suspended task is ready in no state of any run until it is resumed or deleted, whatever it
   * waited for before and whatever else is called; resuming it, unless it is still the running
   * task, makes it ready.
   */
  lemma {:induction false} SuspendedUntilResumed(k: State, t: Task, ops: seq<Op>)
    requires Inv(k) && Known(k) && CanSelect(k) && Enabled(k, SuspendTask(t))
    requires forall i :: 0 <= i < |ops| ==> !((ops[i].ResumeTask? || ops[i].DeleteTask?) && ops[i].t == t)
    ensures Inv(Step(k, SuspendTask(t)))
    ensures var k' := Run(Step(k, SuspendTask(t)), ops);
            && Known(k') && CanSelect(k') && !OnOwnReadyList(k', t)
            && (OnOwnReadyList(Step(k', ResumeTask(t)), t) <==> t != k'.current)
  {
    hide InvFrom, Known, CanSelect, Step, Run, OnOwnReadyList;
    SuspendHolds(k, t);
    HeldOverRun(Step(k, SuspendTask(t)), t, ops);
    var k' := Run(Step(k, SuspendTask(t)), ops);
    IdlesUnready(k', t);
    StepInv(k', ResumeTask(t));
    StepReadies(k', ResumeTask(t), t);
  }

  // ----- waits with a time limit -----

  /** The call blocks the running task for `d` ticks at most. */
  predicate WaitsFor(op: Op, d: Tick) {
    || op == Block(d, false)
    || (d < MAX_DELAY && (op == Block(d, true) || op == BlockEvent(d) || op == AwaitNotification(d)))
  }

  lemma {:induction false} WaitWakesAt(k: State, op: Op, d: Tick)
    requires Inv(k) && Known(k) && CanSelect(k) && d > 0 && WaitsFor(op, d) && Enabled(k, op)
    ensures WakesAt(Step(k, op), k.current, Now(k) + d) && k.current !in Step(k, op).pending
  {
    hide InvFrom, BlockCurrent, CanSelect, WakesAt;
    var k1 := if op.AwaitNotification?
    then k.(tcbs := k.tcbs[k.current := k.tcbs[k.current].(awaitsNotification := true)]) else k;
    var indefinitely := if op.Block? then op.indefinitely else true;
    BlockWakesAt(k1, d, indefinitely);
    BlockCurrentFrame(k1, d, indefinitely);
    CurrentNotPending(k);
    SameDelaysKeepWake(BlockCurrent(k1, d, indefinitely), Step(k, op), k.current, Now(k) + d);
  }

  /**
   * Whichever call it blocks by, a task that waits for `d` ticks at time T and that nobody
   * disturbs is still delayed in every state before time T + d, and is ready in the first state
   * at which the time has come.
   */
  lemma {:induction false} BlockedForExactly(k: State, op: Op, d: Tick, ops: seq<Op>, n: nat)
    requires Inv(k) && Known(k) && CanSelect(k) && d > 0 && WaitsFor(op, d) && Enabled(k, op)
    requires n <= |ops| && forall i :: 0 <= i < |ops| ==> !Disturbs(ops[i], k.current)
    requires forall i :: 0 <= i < n ==> Now(Run(k, [op] + ops[..i])) < Now(k) + d
    ensures SleepsUntil(Run(k, [op] + ops[..n]), k.current, Now(k) + d)
  {
    hide InvFrom, Run, Step, WakesAt, Disturbs, SleepsUntil, CanSelect, Known;
    WaitWakesAt(k, op, d);
    RunCons(k, op, ops[..n]);
    forall i | 0 <= i < n ensures Now(Run(Step(k, op), ops[..i])) < Now(k) + d {
      RunCons(k, op, ops[..i]);
    }
    WakesExactly(Step(k, op), ops, k.current, Now(k) + d, n);
  }
}
