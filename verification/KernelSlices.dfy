/**
 * Sharing the processor: which ticks and calls ask for a context switch, and in which order
 * switches serve the tasks of one priority.
 */
module KernelSlices {
  import opened Ticks
  import opened Rings
  import opened Tasks
  import opened Kernel
  import opened KernelInvariant
  import opened KernelRuns
  import opened KernelTime
  import opened KernelReady
  import opened KernelEffects
  import opened KernelLists
  import opened KernelTcbs
  import KernelPreemption
  import KernelStale

  // ----- ticks -----

  /** How many tasks are ready at the running task's priority. */
  function Sharers(k: State): nat
    requires Shaped(k)
  {
    |k.ready[Prio(k, k.current)].items|
  }

  predicate Crowded(k: State)
    requires Shaped(k)
  {
    Sharers(k) > 1
  }

  ghost predicate AtLeast(k: State, t: Task) {
    t in k.tcbs && k.current in k.tcbs && Prio(k, t) >= Prio(k, k.current)
  }

  /** Expiry asks for a switch exactly when it readies a task not below the running one. */
  lemma {:induction false} ExpireAsksIff(k: State)
    requires InvFrom(k, {}, k.tick)
    ensures Known(k) && k.current in k.tcbs
    ensures Expire(k).1 <==> exists x :: x in k.delayed && x.value <= k.tick && AtLeast(k, x.owner)
    decreases |k.delayed|
  {
    hide InvFrom, WakeHead;
    MembersAreLive(k, {}, k.tick);
    if k.delayed == [] {
    } else if k.tick < k.delayed[0].value {
      forall x | x in k.delayed ensures x.value > k.tick {
        HeadFirst(k, x);
      }
    } else {
      WakeHeadInv(k, k.tick);
      WokenHead(k);
      ExpireAsksIff(WakeHead(k));
      assert k.delayed == [k.delayed[0]] + k.delayed[1..];
      assert k.delayed[0] in k.delayed;
    }
  }

  lemma {:induction false} WokenHead(k: State)
    requires Known(k) && k.delayed != []
    ensures var k' := WakeHead(k);
            k'.tcbs == k.tcbs && k'.current == k.current && k'.tick == k.tick && k'.delayed == k.delayed[1..]
  {
    hide InsertEnd, Drop;
  }

  /** A task due at the next tick that is not below the running one. */
  ghost predicate WakesAtLeast(k: State, t: Task) {
    WakesAt(k, t, Now(k) + 1) && AtLeast(k, t)
  }

  lemma {:induction false} NextTick(overflows: nat, tick: Tick)
    ensures var w := At(overflows, tick) + 1;
            && Wrap(w) == Wrap(tick + 1) == (if tick == MAX_DELAY then 0 else tick + 1)
            && Epoch(w) == if tick == MAX_DELAY then overflows + 1 else overflows
  {
    WrapOnce(tick, 1);
    if tick == MAX_DELAY {
      AtUnique(overflows + 1, 0);
    } else {
      AtUnique(overflows, tick + 1);
    }
  }

  lemma {:induction false} DueItems(k: State, x: Item<Task>)
    requires Inv(k)
    ensures x in AdvanceTick(k).delayed && x.value <= AdvanceTick(k).tick ==>
              x.value == AdvanceTick(k).tick && WakesAt(k, x.owner, Now(k) + 1)
  {
    hide Wrap, Epoch, At, Partitioned, OwnLists, BitmapExact, EventsAsleep;
    NextTick(k.overflows, k.tick);
    if k.tick == MAX_DELAY {
      EmptyAtWrap(k);
    }
  }

  lemma {:induction false} DueListed(k: State, t: Task)
    requires Inv(k) && WakesAt(k, t, Now(k) + 1)
    ensures Item(t, AdvanceTick(k).tick) in AdvanceTick(k).delayed
  {
    hide Wrap, Epoch, At, Partitioned, OwnLists, BitmapExact, EventsAsleep;
    NextTick(k.overflows, k.tick);
    if k.tick == MAX_DELAY {
      EmptyAtWrap(k);
    }
  }

  lemma {:induction false} ScanAsksIff(k: State)
    requires Inv(k)
    ensures Known(AdvanceTick(k)) && (Expire(AdvanceTick(k)).1 <==> exists t :: WakesAtLeast(k, t))
  {
    hide InvFrom, Expire, WakesAt, Known;
    var k1 := AdvanceTick(k);
    AdvanceTickInv(k);
    ExpireAsksIff(k1);
    forall x | x in k1.delayed && x.value <= k1.tick && AtLeast(k1, x.owner) ensures WakesAtLeast(k, x.owner) {
      DueItems(k, x);
    }
    forall t: Task | WakesAtLeast(k, t) ensures Item(t, k1.tick) in k1.delayed && AtLeast(k1, t) {
      DueListed(k, t);
    }
    if t: Task :| WakesAtLeast(k, t) {
      var x := Item(t, k1.tick);
      assert x in k1.delayed && x.value <= k1.tick && AtLeast(k1, x.owner);
    }
  }

  /** What a tick with the scheduler running asks for. */
  lemma {:induction false} TickAsksIff(k: State)
    requires Inv(k) && Known(k)
    ensures Inv(TickNow(k).0) && Shaped(TickNow(k).0)
    ensures TickNow(k).1 <==> k.yieldPending || Crowded(TickNow(k).0) || exists t :: WakesAtLeast(k, t)
  {
    hide InvFrom, Expire, WakesAtLeast, AdvanceTick;
    TickNowInv(k);
    InvShape(TickNow(k).0);
    EarlyOutSound(k);
    ScanAsksIff(k);
    ExpireFrame(AdvanceTick(k));
    AdvanceKeepsYield(k);
    ScanReady(k);
  }

  lemma {:induction false} AdvanceKeepsYield(k: State)
    ensures AdvanceTick(k).yieldPending == k.yieldPending
  {
  }

  lemma {:induction false} ScanReady(k: State)
    requires Known(k) && Known(AdvanceTick(k)) && TickNow(k).0.(nextUnblock := 0) == TickScan(k).0.(nextUnblock := 0)
    ensures Shaped(TickNow(k).0) && Shaped(TickScan(k).0) && Crowded(TickNow(k).0) == Crowded(TickScan(k).0)
  {
    hide TickNow, TickScan;
  }

  lemma {:induction false} OnceListed(k: State, t: Task, p: nat, i: nat, j: nat)
    requires Inv(k) && Shaped(k) && p < PRIORITIES && i < j < |k.ready[p].items| && k.ready[p].items[i] == t
    ensures k.ready[p].items[j] != t
  {
    hide OwnLists, BitmapExact, WakeTimesFrom, EventsAsleep;
    var s := k.ready[p].items;
    OccursMember(s, t);
    OccursReadyMember(k.ready, t);
    assert Places(k, t) + One(t in {}) == One(t in k.tcbs);
    if s[j] == t {
      OccursTwice(s, t, i, j);
    }
  }

  lemma {:induction false} OccursTwice(s: seq<Task>, t: Task, i: nat, j: nat)
    requires i < j < |s| && s[i] == s[j] == t
    ensures Occurs(s, t) >= 2
  {
    assert s == s[..j] + s[j..];
    OccursConcat(s[..j], s[j..], t);
    OccursMember(s[..j], t);
    OccursMember(s[j..], t);
    assert s[..j][i] == t && s[j..][0] == t;
  }

  /** Another ready task of the running task's priority. */
  ghost predicate Rival(k: State, u: Task) {
    u != k.current && u in k.tcbs && k.current in k.tcbs && OnOwnReadyList(k, u) && Prio(k, u) == Prio(k, k.current)
  }

  /** Crowded means that another ready task shares the running task's priority. */
  lemma {:induction false} CrowdedIff(k: State)
    requires Inv(k) && Shaped(k) && OnOwnReadyList(k, k.current)
    ensures Crowded(k) <==> exists u :: Rival(k, u)
  {
    hide InvFrom;
    var p := Prio(k, k.current);
    var s := k.ready[p].items;
    if |s| > 1 {
      var i := if s[0] == k.current then 1 else 0;
      if i == 1 {
        OnceListed(k, k.current, p, 0, 1);
      }
      ListedIsReady(k, p, i);
      assert Rival(k, s[i]);
    }
  }

  lemma {:induction false} ListedIsReady(k: State, p: nat, i: nat)
    requires Inv(k) && Shaped(k) && p < PRIORITIES && i < |k.ready[p].items|
    ensures var t := k.ready[p].items[i]; OnOwnReadyList(k, t) && Prio(k, t) == p
  {
    hide Partitioned, BitmapExact, WakeTimesFrom, EventsAsleep;
    assert k.ready[p].items[i] in k.ready[p].items;
  }

  /** A reason for the tick handler to ask for a switch. */
  ghost predicate Contends(k: State, u: Task)
    requires Known(k) && CanSelect(k)
  {
    || Rival(Step(k, Tick), u)
    || (WakesAt(k, u, Now(k) + 1) && u in k.tcbs && k.current in k.tcbs && Prio(k, u) > Prio(k, k.current))
  }

  /**
   * Time slicing. With the scheduler running and the running task ready, a tick asks for a switch
   * exactly when one was asked for or pending before, another task of the running task's priority
   * is ready to share the processor, or a task of higher priority wakes at this tick.
   */
  lemma {:induction false} SlicesTime(k: State)
    requires Inv(k) && Known(k) && CanSelect(k) && k.suspensions == 0 && OnOwnReadyList(k, k.current)
    ensures Step(k, Tick).switchRequested <==>
            k.switchRequested || k.yieldPending || exists u :: Contends(k, u)
  {
    hide InvFrom, TickNow, WakesAt, OnOwnReadyList, Known, CanSelect;
    var k1 := TickNow(k).0;
    TickAsksIff(k);
    TickKeepsRunning(k);
    CrowdedIff(k1);
    forall u ensures Rival(Step(k, Tick), u) == Rival(k1, u) {
      SameReadyTask(k1, Step(k, Tick), u);
    }
    forall t | WakesAtLeast(k, t) ensures Contends(k, t) {
      WakersContend(k, t);
    }
    if u :| Rival(k1, u) {
      assert Contends(k, u);
    }
    if u :| Contends(k, u) {
      assert Rival(k1, u) || WakesAtLeast(k, u);
    }
  }

  lemma {:induction false} TickKeepsRunning(k: State)
    requires Inv(k) && Known(k) && CanSelect(k) && k.suspensions == 0 && OnOwnReadyList(k, k.current)
    ensures TickNow(k).0.tcbs == k.tcbs && TickNow(k).0.current == k.current
    ensures TickNow(k).0.switchRequested == k.switchRequested && OnOwnReadyList(TickNow(k).0, k.current)
  {
    hide InvFrom, Expire, WakesAt, IsReady;
    TickKeepsReady(k, k.current);
    AdvanceTickInv(k);
    MembersAreLive(AdvanceTick(k), {}, AdvanceTick(k).tick);
    ExpireFrame(AdvanceTick(k));
  }

  lemma {:induction false} WakersContend(k: State, t: Task)
    requires Inv(k) && Known(k) && CanSelect(k) && k.suspensions == 0 && OnOwnReadyList(k, k.current)
    requires WakesAtLeast(k, t)
    ensures Contends(k, t)
  {
    hide InvFrom, TickNow, WakesAt, CanSelect, IsReady, Known;
    TickKeepsRunning(k);
    WakesLater(k, t, Now(k) + 1);
    TickReadies(k, t);
  }

  // ----- resuming the scheduler -----

  lemma {:induction false} DrainAsksIff(k: State)
    requires Inv(k) && Known(k) && k.suspensions > 0
    ensures Drain(k).switchRequested == k.switchRequested
    ensures Drain(k).yieldPending <==> k.yieldPending || exists t :: t in k.pending && AtLeast(k, t)
    decreases |k.pending|
  {
    hide InvFrom, Known, DrainOne;
    if k.pending != [] {
      DrainOneInv(k);
      DrainOneAsks(k);
      DrainAsksIff(DrainOne(k));
      var k1, u := DrainOne(k), k.pending[0];
      assert forall t :: AtLeast(k1, t) == AtLeast(k, t);
      assert k.pending == [u] + k1.pending;
      assert forall t :: t in k.pending <==> t == u || t in k1.pending;
    }
  }

  lemma {:induction false} DrainOneAsks(k: State)
    requires Known(k) && k.pending != []
    ensures var k' := DrainOne(k);
            && Known(k') && k'.tcbs == k.tcbs && k'.current == k.current && k'.pending == k.pending[1..]
            && k'.suspensions == k.suspensions && k'.switchRequested == k.switchRequested
            && (k'.yieldPending <==> k.yieldPending || AtLeast(k, k.pending[0]))
  {
    hide TakeOut, PutReady;
    KernelStale.DrainOneShrinks(k);
    assert k.pending[0] in k.pending;
  }

  lemma {:induction false} OwnedOnce(l: seq<Item<Task>>, i: nat, j: nat)
    requires i < j < |l| && l[i].owner == l[j].owner
    ensures Occurs(Owners(l), l[i].owner) >= 2
  {
    OccursTwice(Owners(l), l[i].owner, i, j);
  }

  /** A task is delayed until one time only. */
  lemma {:induction false} WakesOnce(k: State, t: Task, w: nat, v: nat)
    requires Inv(k) && WakesAt(k, t, w) && WakesAt(k, t, v)
    ensures w == v
  {
    hide Wrap, Epoch, OwnLists, BitmapExact, WakeTimesFrom, EventsAsleep;
    var x, y := Item(t, Wrap(w)), Item(t, Wrap(v));
    AtSplits(w);
    AtSplits(v);
    assert Places(k, t) + One(t in {}) == One(t in k.tcbs);
    ItemCounted(k.delayed, x);
    ItemCounted(k.overflow, x);
    ItemCounted(k.delayed, y);
    ItemCounted(k.overflow, y);
    if x in k.delayed && y in k.delayed {
      ItemsCounted(k.delayed, x, y);
    }
    if x in k.overflow && y in k.overflow {
      ItemsCounted(k.overflow, x, y);
    }
  }

  lemma {:induction false} ItemCounted(l: seq<Item<Task>>, x: Item<Task>)
    ensures x in l ==> Occurs(Owners(l), x.owner) >= 1
  {
    ItemOwner(l, x);
    OccursMember(Owners(l), x.owner);
  }

  lemma {:induction false} ItemsCounted(l: seq<Item<Task>>, x: Item<Task>, y: Item<Task>)
    requires x in l && y in l && x.owner == y.owner
    ensures x == y || Occurs(Owners(l), x.owner) >= 2
  {
    hide Occurs, Owners;
    var i :| 0 <= i < |l| && l[i] == x;
    var j :| 0 <= j < |l| && l[j] == y;
    if i < j {
      OwnedOnce(l, i, j);
    } else if j < i {
      OwnedOnce(l, j, i);
    }
  }

  /** A tick delays nobody. */
  lemma {:induction false} TickDelaysNobody(k: State, t: Task, w: nat)
    requires Inv(k) && Known(k) && WakesAt(TickNow(k).0, t, w)
    ensures WakesAt(k, t, w)
  {
    hide InvFrom, TickNow, WakesAt, Known, IsReady;
    var k1 := TickNow(k).0;
    TickNowInv(k);
    InvShape(k1);
    WakesLater(k1, t, w);
    DelayedNotSuspended(k1, t, w);
    Whereabouts(k, t);
    if OnOwnReadyList(k, t) {
      TickKeepsReady(k, t);
    } else if v: nat :| WakesAt(k, t, v) {
      TickWakesExactly(k, t, v);
      WakesLater(k, t, v);
      WakesOnce(k1, t, w, v);
    } else {
      TickIdles(k);
      AsleepLives(k1, t);
    }
  }

  lemma {:induction false} AsleepLives(k: State, t: Task)
    requires Inv(k) && Asleep(k, t)
    ensures t !in k.terminating
  {
    hide Partitioned;
    OnExactlyOneList(k, {}, t, k.tick + 1);
  }

  lemma {:induction false} ExpireGrows(k: State)
    requires Known(k)
    ensures Sharers(Expire(k).0) >= Sharers(k)
    decreases |k.delayed|
  {
    hide Known, WakeHead;
    KnownShaped(k);
    KnownShaped(Expire(k).0);
    if k.delayed != [] && k.tick >= k.delayed[0].value {
      KernelStale.WakeHeadKnown(k);
      WokenHead(k);
      WakeHeadGrows(k);
      KnownShaped(WakeHead(k));
      ExpireGrows(WakeHead(k));
    }
  }

  lemma {:induction false} KnownShaped(k: State)
    requires Known(k)
    ensures Shaped(k)
  {
  }

  lemma {:induction false} WakeHeadGrows(k: State)
    requires Known(k) && k.delayed != []
    ensures Shaped(WakeHead(k)) && Sharers(WakeHead(k)) >= Sharers(k)
  {
    hide Drop;
  }

  lemma {:induction false} TickGrows(k: State)
    requires Known(k)
    ensures Sharers(TickNow(k).0) >= Sharers(k)
  {
    hide Expire;
    ExpireGrows(AdvanceTick(k));
  }

  lemma {:induction false} ReplayGrows(k: State, n: nat)
    requires Known(k)
    ensures Sharers(Replay(k, n)) >= Sharers(k)
    decreases n
  {
    hide TickNow;
    if n > 0 {
      TickGrows(k);
      ReplayGrows(Pend(TickNow(k).0, TickNow(k).1), n - 1);
    }
  }

  /** A task not below the running one is due within the next `n` ticks. */
  ghost predicate WakesWithin(k: State, n: nat) {
    exists t: Task, w: nat :: WakesAt(k, t, w) && w <= Now(k) + n && AtLeast(k, t)
  }

  lemma {:induction false} WithinStep(k: State, n: nat)
    requires Inv(k) && Known(k) && n > 0
    ensures var k1 := Pend(TickNow(k).0, TickNow(k).1);
            WakesWithin(k, n) <==> (exists t :: WakesAtLeast(k, t)) || WakesWithin(k1, n - 1)
  {
    hide InvFrom, TickNow, WakesAt, Known;
    var k1 := Pend(TickNow(k).0, TickNow(k).1);
    TickTime(k);
    forall t: Task, w: nat | WakesAt(k1, t, w) && w <= Now(k1) + n - 1 && AtLeast(k1, t)
      ensures WakesAt(k, t, w) && AtLeast(k, t)
    {
      SameDelaysKeepWake(k1, TickNow(k).0, t, w);
      TickDelaysNobody(k, t, w);
    }
    forall t: Task, w: nat | WakesAt(k, t, w) && w <= Now(k) + n && AtLeast(k, t) && w != Now(k) + 1
      ensures WakesAt(k1, t, w) && AtLeast(k1, t)
    {
      ReplayOne(k, t, w);
    }
    if WakesWithin(k, n) {
      var t: Task, w: nat :| WakesAt(k, t, w) && w <= Now(k) + n && AtLeast(k, t);
      if w == Now(k) + 1 {
        assert WakesAtLeast(k, t);
      } else {
        assert WakesAt(k1, t, w) && w <= Now(k1) + (n - 1) && AtLeast(k1, t);
      }
    }
    if t: Task :| WakesAtLeast(k, t) {
      assert WakesAt(k, t, Now(k) + 1) && Now(k) + 1 <= Now(k) + n && AtLeast(k, t);
    }
    if WakesWithin(k1, n - 1) {
      var t: Task, w: nat :| WakesAt(k1, t, w) && w <= Now(k1) + (n - 1) && AtLeast(k1, t);
      assert WakesAt(k, t, w) && w <= Now(k) + n && AtLeast(k, t);
    }
  }

  lemma {:induction false} ReplayAsksIff(k: State, n: nat)
    requires Inv(k) && Known(k)
    ensures Replay(k, n).switchRequested == k.switchRequested
    ensures Replay(k, n).yieldPending <==>
            k.yieldPending || (n > 0 && Crowded(Replay(k, n))) || WakesWithin(k, n)
    decreases n
  {
    hide InvFrom, TickNow, WakesWithin, WakesAtLeast, Known;
    KnownShaped(k);
    if n == 0 {
      NothingWithin(k);
    } else {
      var k1 := Pend(TickNow(k).0, TickNow(k).1);
      TickPendInv(k);
      TickAsksIff(k);
      TickFlags(k);
      WithinStep(k, n);
      ReplayAsksIff(k1, n - 1);
      ReplayGrows(k1, n - 1);
      KnownShaped(Replay(k1, n - 1));
    }
  }

  lemma {:induction false} TickFlags(k: State)
    requires Inv(k) && Known(k)
    ensures TickNow(k).0.yieldPending == k.yieldPending && TickNow(k).0.switchRequested == k.switchRequested
    ensures Known(Pend(TickNow(k).0, TickNow(k).1))
    ensures var k1 := Pend(TickNow(k).0, TickNow(k).1); Crowded(TickNow(k).0) == Crowded(k1)
  {
    hide InvFrom, Expire;
    AdvanceTickInv(k);
    MembersAreLive(AdvanceTick(k), {}, AdvanceTick(k).tick);
    ExpireFrame(AdvanceTick(k));
  }

  lemma {:induction false} NothingWithin(k: State)
    requires Inv(k)
    ensures !WakesWithin(k, 0)
  {
    hide InvFrom, WakesAt;
    if t: Task, w: nat :| WakesAt(k, t, w) && w <= Now(k) && AtLeast(k, t) {
      WakesLater(k, t, w);
    }
  }

  /**
   * The outermost xTaskResumeAll leaves a yield pending exactly when one was pending, a task it
   * readies from the pending-ready list is not below the running one, one of the ticks it replays
   * wakes such a task, or it replays any tick at all and finds the running task's priority shared;
   * and then, and only then or when one was asked for before, it asks for a switch.
   */
  lemma {:induction false} ResumeAsksIff(k: State)
    requires Inv(k) && Known(k) && CanSelect(k) && k.suspensions == 1
    ensures Shaped(Step(k, ResumeScheduler))
    ensures var k' := Step(k, ResumeScheduler);
            && (k'.yieldPending <==>
                  k.yieldPending || (exists t :: t in k.pending && AtLeast(k, t))
                  || WakesPended(k) || (k.pendedTicks > 0 && Crowded(k')))
            && (k'.switchRequested <==> k.switchRequested || k'.yieldPending)
  {
    hide InvFrom, Drain, Replay, WakesPended, WakesWithin, AtLeast, CanSelect, Known;
    StepInv(k, ResumeScheduler);
    InvShape(Step(k, ResumeScheduler));
    DrainedInv(k);
    DrainAsksIff(k);
    DrainedFrame(k);
    MembersAreLive(Drained(k), {}, Drained(k).tick + 1);
    ReplayAsksIff(Drained(k), k.pendedTicks);
    WithinDrained(k);
  }

  /** A task not below the running one, and not pending already, is due within the pended ticks. */
  ghost predicate WakesPended(k: State) {
    exists t: Task, w: nat :: WakesAt(k, t, w) && t !in k.pending && w <= Now(k) + k.pendedTicks && AtLeast(k, t)
  }

  lemma {:induction false} DrainedFrame(k: State)
    requires Inv(k) && Known(k) && k.suspensions > 0
    ensures Drained(k).yieldPending == Drain(k).yieldPending && Drained(k).switchRequested == Drain(k).switchRequested
    ensures Drained(k).tcbs == k.tcbs && Drained(k).current == k.current && Now(Drained(k)) == Now(k)
  {
    hide InvFrom, Drain;
    DrainInv(k);
  }

  lemma {:induction false} WithinDrained(k: State)
    requires Inv(k) && Known(k) && k.suspensions == 1
    ensures WakesWithin(Drained(k), k.pendedTicks) <==> WakesPended(k)
  {
    hide InvFrom, WakesAt, Drained, Known;
    var k1 := Drained(k);
    DrainedFrame(k);
    forall t: Task, w: nat | WakesAt(k, t, w) && t !in k.pending ensures WakesAt(k1, t, w) {
      DrainedKeepsWake(k, t, w);
    }
    forall t: Task, w: nat | WakesAt(k1, t, w) ensures WakesAt(k, t, w) && t !in k.pending {
      DrainDelaysNobody(k, t, w);
    }
    if WakesPended(k) {
      var t: Task, w: nat :| WakesAt(k, t, w) && t !in k.pending && w <= Now(k) + k.pendedTicks && AtLeast(k, t);
      assert WakesAt(k1, t, w) && w <= Now(k1) + k.pendedTicks && AtLeast(k1, t);
    }
    if WakesWithin(k1, k.pendedTicks) {
      var t: Task, w: nat :| WakesAt(k1, t, w) && w <= Now(k1) + k.pendedTicks && AtLeast(k1, t);
      assert WakesAt(k, t, w) && t !in k.pending && w <= Now(k) + k.pendedTicks && AtLeast(k, t);
    }
  }

  lemma {:induction false} DrainedKeepsWake(k: State, t: Task, w: nat)
    requires Inv(k) && Known(k) && k.suspensions > 0 && WakesAt(k, t, w) && t !in k.pending
    ensures WakesAt(Drained(k), t, w)
  {
    hide InvFrom, Drain, Wrap, Epoch;
    WakesLater(k, t, w);
    DrainKeepsWake(k, t, w);
  }

  lemma {:induction false} DrainDelaysNobody(k: State, t: Task, w: nat)
    requires Inv(k) && Known(k) && k.suspensions > 0 && WakesAt(Drained(k), t, w)
    ensures WakesAt(k, t, w) && t !in k.pending
  {
    hide InvFrom, Drain, WakesAt, IsReady;
    var k1 := Drained(k);
    DrainedInv(k);
    DrainedFrame(k);
    InvShape(k1);
    WakesLater(k1, t, w);
    DelayedNotSuspended(k1, t, w);
    AsleepLives(k1, t);
    DrainExact(k, t);
    Whereabouts(k, t);
    if t in k.pending || OnOwnReadyList(k, t) {
      SameReadyTask(Drain(k), k1, t);
    } else if v: nat :| WakesAt(k, t, v) {
      DrainedKeepsWake(k, t, v);
      WakesOnce(k1, t, w, v);
    } else {
      DrainIdles(k, t);
    }
  }

  // ----- calls -----

  /** Whether a switch has been asked of the port after a call, told from the state before it. */
  ghost predicate AskedAfter(k: State, op: Op)
    requires Known(k) && Enabled(k, op)
  {
    var mine := Prio(k, k.current);
    k.switchRequested
    || match op
       case Yield => true
       case AwaitNotification(d) => d > 0
       case NotifyTask(t) => k.tcbs[t].awaitsNotification && Prio(k, t) > mine
       case CreateTask(_, p) => Clamped(p) > mine
       case DeleteTask(t) => t == k.current
       case SuspendTask(t) => t == k.current
       case ResumeTask(t) => Resumable(k, t) && Prio(k, t) >= mine
       case SetPriority(t, p) =>
         if t == k.current then Clamped(p) < k.tcbs[t].base else Clamped(p) > k.tcbs[t].base && Clamped(p) >= mine
       case GiveMutex(waiter) =>
         var after := TcbAfter(k, op, k.current).priority;
         if waiter.Some? then TcbAfter(k, op, waiter.value).priority > after else after != mine
       case _ => false
  }

  /** Whether a yield is pending in the kernel after a call. */
  ghost predicate PendedAfter(k: State, op: Op)
    requires Known(k) && Enabled(k, op)
  {
    k.yieldPending
    || match op
       case UnblockEvent(t) => Prio(k, t) > Prio(k, k.current)
       case UnblockUnordered(t) => Prio(k, t) > Prio(k, k.current)
       case Abort(t) => IsBlocked(k, t) && Prio(k, t) > Prio(k, k.current)
       case GiveMutex(waiter) =>
         waiter.Some? && TcbAfter(k, op, waiter.value).priority > TcbAfter(k, op, k.current).priority
       case _ => false
  }

  lemma {:induction false} MakeReadyFlags(k: State, t: Task)
    requires Shaped(k) && t in k.tcbs
    ensures var k' := MakeReady(k, t); k'.switchRequested == k.switchRequested && k'.yieldPending == k.yieldPending
  {
    hide TakeOut, PutReady;
  }

  lemma {:induction false} WakeAsks(k: State, op: Op)
    requires Inv(k) && Known(k) && CanSelect(k) && Enabled(k, op)
    requires op.UnblockEvent? || op.UnblockUnordered? || op.Abort? || op.NotifyTask? || op.ResumeTask?
    ensures Step(k, op).switchRequested <==> AskedAfter(k, op)
    ensures Step(k, op).yieldPending <==> PendedAfter(k, op)
  {
    hide InvFrom, MakeReady, CanSelect, IsReady, IsBlocked;
    MakeReadyFlags(k, op.t);
    MakeReadyFlags(k.(tcbs := k.tcbs[op.t := k.tcbs[op.t].(awaitsNotification := false)]), op.t);
  }

  lemma {:induction false} GiveAsks(k: State, waiter: Option<Task>)
    requires Inv(k) && Known(k) && CanSelect(k) && Enabled(k, GiveMutex(waiter))
    ensures Step(k, GiveMutex(waiter)).switchRequested <==> AskedAfter(k, GiveMutex(waiter))
    ensures Step(k, GiveMutex(waiter)).yieldPending <==> PendedAfter(k, GiveMutex(waiter))
  {
    hide InvFrom, MakeReady, CanSelect, IsReady, Disinherit, TcbAfter;
    DisinheritWaiters(k);
    DisinheritTcbs(k);
    if waiter.Some? {
      OthersTcb(k, waiter);
      MakeReadyFlags(Disinherit(k), waiter.value);
      MakeReadyReady(Disinherit(k), waiter.value);
    }
    OthersTcb(k, None);
  }

  lemma {:induction false} OthersTcb(k: State, waiter: Option<Task>)
    requires Shaped(k) && (waiter.Some? ==> waiter.value in k.tcbs)
    ensures TcbAfter(k, GiveMutex(waiter), k.current) == TcbAfter(k, GiveMutex(None), k.current)
    ensures waiter.Some? && waiter.value != k.current ==>
              TcbAfter(k, GiveMutex(waiter), waiter.value) == k.tcbs[waiter.value]
  {
  }

  lemma {:induction false} RebaseFlags(k: State, t: Task, p: nat)
    requires Shaped(k) && t in k.tcbs && p < PRIORITIES
    ensures var k' := Reprioritise(k, t, p);
            k'.switchRequested == k.switchRequested && k'.yieldPending == k.yieldPending
  {
    hide Reprioritise;
    ReprioritiseFrame(k, t, p);
  }

  lemma {:induction false} PriorityAsks(k: State, op: Op)
    requires Inv(k) && Known(k) && CanSelect(k) && Enabled(k, op)
    requires op.SetPriority? || op.TakeMutex? || op.InheritFor? || op.TimeoutDisinherit?
    ensures Step(k, op).switchRequested <==> AskedAfter(k, op)
    ensures Step(k, op).yieldPending <==> PendedAfter(k, op)
  {
    hide InvFrom, Reprioritise, CanSelect, IsReady, BitSurvives, DisinheritAfterTimeout;
    match op
    case SetPriority(t, p) =>
      RebaseFlags(k, t, if k.tcbs[t].base == k.tcbs[t].priority then Clamped(p) else k.tcbs[t].priority);
    case TakeMutex =>
    case InheritFor(t) => RebaseFlags(k, t, Prio(k, k.current));
    case TimeoutDisinherit(t, w) =>
      if TimeoutLowers(k, t, w) {
        TimeoutIsReprioritise(k, t, w);
        RebaseFlags(k, t, TimeoutPriority(k.tcbs[t], w));
      } else {
        NoTimeout(k, t, w);
      }
  }

  lemma {:induction false} OtherAsks(k: State, op: Op)
    requires Inv(k) && Known(k) && CanSelect(k) && Enabled(k, op)
    requires op.Yield? || op.NotificationSeen? || op.SuspendScheduler? || op.CreateTask? || op.IdleCleanUp?
             || op.DeleteTask? || op.SuspendTask? || op.Block? || op.BlockEvent? || op.AwaitNotification?
    ensures Step(k, op).switchRequested <==> AskedAfter(k, op)
    ensures Step(k, op).yieldPending <==> PendedAfter(k, op)
  {
    hide InvFrom, TakeOut, PutToSleep, PutReady, Withdraw, Drop, Wrap, IsReady, CanSelect;
  }

  /** Every call asks for a context switch, and leaves one pending, exactly when it should. */
  lemma {:induction false} CallAsksIff(k: State, op: Op)
    requires Inv(k) && Known(k) && CanSelect(k) && Enabled(k, op) && !op.Tick? && !op.Switch? && !op.ResumeScheduler?
    ensures Step(k, op).switchRequested <==> AskedAfter(k, op)
    ensures Step(k, op).yieldPending <==> PendedAfter(k, op)
  {
    hide InvFrom, Known, CanSelect, Step, AskedAfter, PendedAfter, BitSurvives;
    if op.UnblockEvent? || op.UnblockUnordered? || op.Abort? || op.NotifyTask? || op.ResumeTask? {
      WakeAsks(k, op);
    } else if op.GiveMutex? {
      GiveAsks(k, op.waiter);
    } else if op.SetPriority? || op.TakeMutex? || op.InheritFor? || op.TimeoutDisinherit? {
      PriorityAsks(k, op);
    } else {
      OtherAsks(k, op);
    }
  }

  // ----- the order of service -----

  /** `n` context switches one after the other. */
  ghost function Switches(n: nat): (ops: seq<Op>)
    ensures |ops| == n && forall i :: 0 <= i < n ==> ops[i] == Switch
  {
    seq(n, _ => Switch)
  }

  /** The ready tasks of the highest priority, in the order in which switches serve them. */
  ghost function Turns(k: State): seq<Task>
    requires Shaped(k)
  {
    ServiceOrder(k.ready[Highest(k.bitmap)])
  }

  /** Who is served after `n` others, going round. */
  ghost function Served(order: seq<Task>, n: nat): Task
    requires order != []
  {
    order[n % |order|]
  }

  lemma {:induction false} SwitchServes(k: State)
    requires Inv(k) && Known(k) && CanSelect(k) && k.suspensions == 0
    ensures Inv(Step(k, Switch)) && Shaped(Step(k, Switch)) && Step(k, Switch).suspensions == 0
    ensures Turns(k) != [] && Step(k, Switch).current == Turns(k)[0]
    ensures Turns(Step(k, Switch)) == Turns(k)[1..] + [Turns(k)[0]]
  {
    hide InvFrom, HighestBelow;
    StepInv(k, Switch);
    InvShape(Step(k, Switch));
    AdvanceRotates(k.ready[Highest(k.bitmap)]);
  }

  lemma {:induction false} NextTurn(j: nat, n: nat)
    requires n > 0
    ensures (j + 1) % n == if j % n + 1 < n then j % n + 1 else 0
  {
    var q, r := j / n, j % n;
    assert j + 1 == q * n + (r + 1);
    if r + 1 < n {
      ModIs(j + 1, q, r + 1, n);
    } else {
      assert j + 1 == (q + 1) * n + 0;
      ModIs(j + 1, q + 1, 0, n);
    }
  }

  lemma {:induction false} ModIs(v: nat, q: nat, r: nat, n: nat)
    requires n > 0 && r < n && v == q * n + r
    ensures v % n == r
  {
    assert v == (v / n) * n + v % n;
    if v / n < q {
      MultiplesApart(v / n, q, n);
    } else if v / n > q {
      MultiplesApart(q, v / n, n);
    }
  }

  lemma {:induction false} ServedNext(order: seq<Task>, n: nat)
    requires order != []
    ensures Served(order, 0) == order[0] && Served(order[1..] + [order[0]], n) == Served(order, n + 1)
  {
    NextTurn(n, |order|);
    ModIs(0, 0, 0, |order|);
  }

  lemma {:induction false} FirstSwitch(n: nat)
    ensures Switches(n + 1) == [Switch] + Switches(n)
  {
  }

  /**
   * Round robin. However many switches follow one another with nothing between them, they run the
   * ready tasks of the highest priority in turn, in the service order of their list.
   */
  lemma {:induction false} RoundRobin(k: State, n: nat)
    requires Inv(k) && Shaped(k) && k.suspensions == 0
    ensures Turns(k) != [] && Run(k, Switches(n + 1)).current == Served(Turns(k), n)
    decreases n
  {
    hide InvFrom, Step, Known, CanSelect, Turns, Served, Run, Switches;
    StepInv(k, Switch);
    SwitchServes(k);
    FirstSwitch(n);
    RunCons(k, Switch, Switches(n));
    if n == 0 {
      ServedNext(Turns(k), 0);
      RunNothing(Step(k, Switch), Switches(0));
      NoSwitches();
    } else {
      RoundRobin(Step(k, Switch), n - 1);
      ServedNext(Turns(k), n - 1);
    }
  }

  lemma {:induction false} NoSwitches()
    ensures Switches(0)[..0] == Switches(0)
  {
  }

  /** `t` is served after all in `order`, except perhaps the one that was served last. */
  predicate Behind(order: seq<Task>, order': seq<Task>, t: Task) {
    || order' == order + [t]
    || (order != [] && order' == order[..|order| - 1] + [t, order[|order| - 1]])
  }

  lemma {:induction false} PutReadyBehind(k: State, t: Task)
    requires Shaped(k) && t in k.tcbs
    ensures var p := Prio(k, t); Behind(ServiceOrder(k.ready[p]), ServiceOrder(PutReady(k, t).ready[p]), t)
    ensures forall q :: 0 <= q < PRIORITIES && q != Prio(k, t) ==> PutReady(k, t).ready[q] == k.ready[q]
  {
    InsertEndServedLast(k.ready[Prio(k, t)], t);
  }

  lemma {:induction false} MakeReadyBehind(k: State, t: Task)
    requires Shaped(k) && t in k.tcbs && !OnOwnReadyList(k, t)
    ensures var p := Prio(k, t);
            && |MakeReady(k, t).ready| == PRIORITIES && MakeReady(k, t).ready[p].Valid()
            && Behind(ServiceOrder(k.ready[p]), ServiceOrder(MakeReady(k, t).ready[p]), t)
            && forall q :: 0 <= q < PRIORITIES && q != p ==> MakeReady(k, t).ready[q] == k.ready[q]
  {
    hide PutReady, Drop, DropItem, ServiceOrder, Behind;
    PutReadyBehind(TakeOut(DropEvent(k, t), t), t);
  }

  /** The calls that ready a task of their choice. */
  predicate Readies(op: Op) {
    op.UnblockEvent? || op.UnblockUnordered? || op.Abort? || op.NotifyTask? || op.ResumeTask? || op.CreateTask?
  }

  /** Only the list of priority `p` changes, by `t` joining it behind the others. */
  ghost predicate Joins(k: State, k': State, p: nat, t: Task) {
    && Shaped(k) && Shaped(k') && p < PRIORITIES
    && Behind(ServiceOrder(k.ready[p]), ServiceOrder(k'.ready[p]), t)
    && forall q :: 0 <= q < PRIORITIES && q != p ==> k'.ready[q] == k.ready[q]
  }

  lemma {:induction false} CreatedLast(k: State, op: Op)
    requires Inv(k) && Known(k) && CanSelect(k) && Enabled(k, op) && op.CreateTask?
    ensures Joins(k, Step(k, op), Clamped(op.p), op.t)
  {
    hide InvFrom, PutReady, CanSelect, ServiceOrder, Behind;
    var p := Clamped(op.p);
    var k1 := k.(tcbs := k.tcbs[op.t := Tcb(p, p, 0, false, false)], taskCount := k.taskCount + 1);
    assert Shaped(k1);
    PutReadyBehind(k1, op.t);
  }

  lemma {:induction false} NotifiedLast(k: State, t: Task)
    requires Inv(k) && Known(k) && CanSelect(k) && Enabled(k, NotifyTask(t))
    requires !OnOwnReadyList(k, t) && k.tcbs[t].awaitsNotification
    ensures Joins(k, Step(k, NotifyTask(t)), Prio(k, t), t)
  {
    hide InvFrom, MakeReady, CanSelect, ServiceOrder, Behind, IsReady;
    var k1 := k.(tcbs := k.tcbs[t := k.tcbs[t].(awaitsNotification := false)]);
    KernelPreemption.SameReady(k, k1, t);
    MakeReadyReady(k1, t);
    MakeReadyBehind(k1, t);
  }

  lemma {:induction false} WokenLast(k: State, op: Op)
    requires Inv(k) && Known(k) && CanSelect(k) && Enabled(k, op)
    requires op.UnblockEvent? || op.UnblockUnordered? || op.Abort? || op.ResumeTask?
    requires !OnOwnReadyList(k, op.t) && ReadyAfter(k, op, op.t)
    ensures Joins(k, Step(k, op), Prio(k, op.t), op.t)
  {
    hide InvFrom, MakeReady, CanSelect, IsBlocked, ServiceOrder, Behind, IsReady;
    MakeReadyReady(k, op.t);
    MakeReadyBehind(k, op.t);
  }

  /**
   * A task that a call readies joins its priority's list behind the tasks already there, and the
   * order of service of every other list stays as it was.
   */
  lemma {:induction false} ReadiedServedLast(k: State, op: Op)
    requires Inv(k) && Known(k) && CanSelect(k) && Enabled(k, op) && Readies(op)
    requires !OnOwnReadyList(k, op.t) && OnOwnReadyList(Step(k, op), op.t)
    ensures op.t in Step(k, op).tcbs && Joins(k, Step(k, op), Prio(Step(k, op), op.t), op.t)
  {
    hide InvFrom, CanSelect, Known, Step, IsBlocked, Joins, IsReady;
    StepReadies(k, op, op.t);
    StepTcbs(k, op, op.t);
    if op.CreateTask? {
      CreatedLast(k, op);
    } else if op.NotifyTask? {
      NotifiedLast(k, op.t);
    } else {
      WokenLast(k, op);
    }
  }
}
