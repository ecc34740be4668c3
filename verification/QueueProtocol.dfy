/**
 * The lock protocol of queue.c: tasks and interrupts sharing one queue, interleaved at the
 * granularity of critical sections, and the proof that no wake-up is lost.
 */
module QueueProtocol {
  import opened Ticks
  import opened Rings
  import opened Tasks
  import opened Queues

  datatype Side = Receiving | Sending

  /** Where the one task is that has suspended the scheduler to block on the queue. */
  datatype Region =
    | Outside
    | Entered(t: Task, side: Side)
    | FoundBlocked(t: Task, side: Side)
    | Unlocking(t: Task)
    | UnlockingRx(t: Task)

  /** `wokenR` and `wokenS` are the tasks taken off an event list that have not retried yet. */
  datatype System = System(
    q: QueueState, wokenR: set<Task>, wokenS: set<Task>, region: Region,
    sent: seq<Message>, received: seq<Message>)

  datatype Op =
    | TrySend(t: Task, x: Message, position: CopyPosition)
    | TryReceive(t: Task)
    | TryPeek(t: Task)
    | IsrSend(x: Message, position: CopyPosition)
    | IsrReceive
    | Enter(t: Task, side: Side)
    | Check(timedOut: bool)
    | Place(priority: nat)
    | UnlockSending
    | UnlockReceiving
    | StopWaiting(t: Task)
    | Reprioritise(t: Task, priority: nat)

  ghost function Waiting(l: seq<Item<Task>>): set<Task> {
    set x | x in l :: x.owner
  }

  ghost predicate Acts(s: System, t: Task) {
    s.region.Outside? && t !in Waiting(s.q.receivers) && t !in Waiting(s.q.senders)
  }

  /**
   * A waiting task does nothing, a woken one first retries the call it was woken from, and with
   * the scheduler suspended only the suspending task and interrupts act. At most 127 sends and
   * 127 receives by interrupts are counted per lock.
   */
  ghost predicate Enabled(s: System, op: Op) {
    match op
    case TrySend(t, x, position) =>
      Acts(s, t) && t !in s.wokenR && |x| == s.q.itemSize && (position.Overwrite? ==> s.q.length == 1)
    case TryReceive(t) => Acts(s, t) && t !in s.wokenS
    case TryPeek(t) => Acts(s, t) && t !in s.wokenS
    case IsrSend(x, position) =>
      s.q.txLock < INT8_MAX && |x| == s.q.itemSize && (position.Overwrite? ==> s.q.length == 1)
    case IsrReceive => s.q.rxLock < INT8_MAX
    case Enter(t, _) => Acts(s, t) && t !in s.wokenR && t !in s.wokenS
    case Check(_) => s.region.Entered?
    case Place(priority) => s.region.FoundBlocked? && priority < PRIORITIES
    case UnlockSending => s.region.Unlocking?
    case UnlockReceiving => s.region.UnlockingRx?
    case StopWaiting(_) => true
    case Reprioritise(_, priority) => priority < PRIORITIES
  }

  ghost function Step(s: System, op: Op): System {
    if !Enabled(s, op) then s else
    match op
    case TrySend(t, x, position) =>
      var s' := s.(wokenS := s.wokenS - {t});
      if CanSend(s.q, position) then
        s'.(q := Send(s.q, x, position), wokenR := s.wokenR + Head(s.q.receivers), sent := s.sent + [x])
      else s'
    case TryReceive(t) =>
      var s' := s.(wokenR := s.wokenR - {t});
      if s.q.items != [] then
        s'.(q := Receive(s.q), wokenS := s.wokenS + Head(s.q.senders), received := s.received + [s.q.items[0]])
      else s'
    case TryPeek(t) =>
      var s' := s.(wokenR := s.wokenR - {t});
      if s.q.items != [] then s'.(q := Peek(s.q), wokenR := s'.wokenR + Head(s.q.receivers)) else s'
    case IsrSend(x, position) =>
      if CanSend(s.q, position) then
        s.(q := SendFromIsr(s.q, x, position), sent := s.sent + [x],
           wokenR := if s.q.txLock == UNLOCKED then s.wokenR + Head(s.q.receivers) else s.wokenR)
      else s
    case IsrReceive =>
      if s.q.items != [] then
        s.(q := ReceiveFromIsr(s.q), received := s.received + [s.q.items[0]],
           wokenS := if s.q.rxLock == UNLOCKED then s.wokenS + Head(s.q.senders) else s.wokenS)
      else s
    case Enter(t, side) => s.(q := Lock(s.q), region := Entered(t, side))
    case Check(timedOut) =>
      var blocked := if s.region.side.Receiving? then s.q.items == [] else |s.q.items| == s.q.length;
      s.(region := if !timedOut && blocked then FoundBlocked(s.region.t, s.region.side) else Unlocking(s.region.t))
    case Place(priority) =>
      var t := s.region.t;
      if s.region.side.Receiving? then
        s.(q := s.q.(receivers := Placed(s.q.receivers, t, priority)), region := Unlocking(t))
      else
        s.(q := s.q.(senders := Placed(s.q.senders, t, priority)), region := Unlocking(t))
    case UnlockSending =>
      s.(q := UnlockTx(s.q), region := UnlockingRx(s.region.t),
         wokenR := s.wokenR + First(s.q.receivers, Wakes(s.q.txLock, s.q.receivers)))
    case UnlockReceiving =>
      s.(q := UnlockRx(s.q), region := Outside,
         wokenS := s.wokenS + First(s.q.senders, Wakes(s.q.rxLock, s.q.senders)))
    case StopWaiting(t) =>
      s.(q := s.q.(receivers := Without(s.q.receivers, t), senders := Without(s.q.senders, t)))
    case Reprioritise(t, priority) =>
      var value := PRIORITIES - priority;
      s.(q := s.q.(receivers := Rewritten(s.q.receivers, t, value), senders := Rewritten(s.q.senders, t, value)))
  }

  /** vTaskPrioritySet and xTaskPriorityInherit rewrite the event item value of a waiter where it stands. */
  function Rewritten(l: seq<Item<Task>>, t: Task, value: nat): (r: seq<Item<Task>>)
    ensures |r| == |l|
    ensures forall i :: 0 <= i < |l| ==> r[i] == if l[i].owner == t then Item(t, value) else l[i]
  {
    seq(|l|, i requires 0 <= i < |l| => if l[i].owner == t then Item(t, value) else l[i])
  }

  ghost function Run(s: System, ops: seq<Op>): System
    decreases |ops|
  {
    if ops == [] then s else Run(Step(s, ops[0]), ops[1..])
  }

  ghost function Start(length: nat, itemSize: nat): System {
    System(QueueState(length, itemSize, [], [], [], UNLOCKED, UNLOCKED), {}, {}, Outside, [], [])
  }

  // ----- the invariant -----

  function Count(lock: int): nat {
    if lock < 0 then 0 else lock
  }

  ghost predicate OneEach(l: seq<Item<Task>>) {
    forall i, j :: 0 <= i < j < |l| ==> l[i].owner != l[j].owner
  }

  /** `n` items or free slots are covered by `woken` tasks and counted but undelivered wake-ups. */
  ghost predicate Served(n: int, waiting: seq<Item<Task>>, woken: set<Task>, lock: int) {
    && OneEach(waiting) && Waiting(waiting) !! woken
    && (waiting != [] ==> n <= |woken| + Count(lock))
  }

  ghost predicate LocksMatch(s: System) {
    match s.region
    case Outside => s.q.txLock == UNLOCKED && s.q.rxLock == UNLOCKED
    case UnlockingRx(_) => s.q.txLock == UNLOCKED && s.q.rxLock >= 0
    case _ => s.q.txLock >= 0 && s.q.rxLock >= 0
  }

  ghost predicate Fresh(s: System, t: Task) {
    t !in Waiting(s.q.receivers) && t !in Waiting(s.q.senders) && t !in s.wokenR && t !in s.wokenS
  }

  /** The task about to be placed is on no list, and what arrived since its check is counted. */
  ghost predicate RegionSound(s: System) {
    && (s.region.Entered? || s.region.FoundBlocked? ==> Fresh(s, s.region.t))
    && (s.region.FoundBlocked? && s.region.side.Receiving? ==> |s.q.items| <= s.q.txLock)
    && (s.region.FoundBlocked? && s.region.side.Sending? ==> s.q.length - |s.q.items| <= s.q.rxLock)
  }

  ghost predicate Inv(s: System) {
    && LocksMatch(s) && RegionSound(s)
    && Served(|s.q.items|, s.q.receivers, s.wokenR, s.q.txLock)
    && Served(s.q.length - |s.q.items|, s.q.senders, s.wokenS, s.q.rxLock)
  }

  // ----- event lists -----

  lemma {:induction false} TailWaiting(l: seq<Item<Task>>)
    requires OneEach(l)
    ensures OneEach(Tail(l)) && Waiting(Tail(l)) == Waiting(l) - Head(l)
  {
    if l != [] {
      assert l == [l[0]] + l[1..];
      forall x | x in l[1..] ensures x.owner != l[0].owner {
        var i :| 0 <= i < |l[1..]| && l[1..][i] == x;
        assert l[i + 1] == x;
      }
    }
  }

  lemma {:induction false} AddBack(h: Task, a: set<Task>, b: set<Task>, all: set<Task>)
    requires a + b == all - {h} && a !! b && h in all
    ensures |{h} + a| == |a| + 1 && {h} + a + b == all && {h} + a !! b
  {
  }

  /** The woken prefix and the rest split an event list. */
  lemma {:induction false} FirstSplits(l: seq<Item<Task>>, n: nat)
    requires OneEach(l) && n <= |l|
    ensures |First(l, n)| == n && First(l, n) + Waiting(l[n..]) == Waiting(l)
    ensures First(l, n) !! Waiting(l[n..]) && OneEach(l[n..])
    decreases n
  {
    hide Waiting, OneEach, First;
    FirstUnfolds(l, n);
    if n > 0 {
      TailWaiting(l);
      HeadWaits(l);
      FirstSplits(l[1..], n - 1);
      assert l[1..][n - 1..] == l[n..];
      AddBack(l[0].owner, First(l[1..], n - 1), Waiting(l[n..]), Waiting(l));
    } else {
      assert l[n..] == l;
    }
  }

  lemma {:induction false} FirstUnfolds(l: seq<Item<Task>>, n: nat)
    requires n <= |l|
    ensures n == 0 ==> First(l, n) == {}
    ensures n > 0 ==> First(l, n) == {l[0].owner} + First(l[1..], n - 1)
  {
  }

  lemma {:induction false} HeadWaits(l: seq<Item<Task>>)
    requires l != []
    ensures l[0].owner in Waiting(l)
  {
  }

  lemma {:induction false} PlacedWaiting(l: seq<Item<Task>>, t: Task, priority: nat)
    requires OneEach(l) && t !in Waiting(l) && priority < PRIORITIES
    ensures Waiting(Placed(l, t, priority)) == Waiting(l) + {t} && OneEach(Placed(l, t, priority))
  {
    hide Position;
    SplicedWaiting(l, Position(l, PRIORITIES - priority), Item(t, PRIORITIES - priority));
  }

  lemma {:induction false} SplicedWaiting(l: seq<Item<Task>>, p: nat, x: Item<Task>)
    requires OneEach(l) && x.owner !in Waiting(l) && p <= |l|
    ensures var l' := l[..p] + [x] + l[p..]; Waiting(l') == Waiting(l) + {x.owner} && OneEach(l')
  {
    var l' := l[..p] + [x] + l[p..];
    assert l == l[..p] + l[p..];
    assert l'[p] == x;
    assert forall y :: y in l' <==> y == x || y in l;
    forall i, j | 0 <= i < j < |l'| ensures l'[i].owner != l'[j].owner {
      var i', j' := if i < p then i else i - 1, if j < p then j else j - 1;
      assert i != p ==> l'[i] == l[i'] && l[i'].owner in Waiting(l);
      assert j != p ==> l'[j] == l[j'] && l[j'].owner in Waiting(l);
    }
  }

  lemma {:induction false} ConsWaiting(x: Item<Task>, l: seq<Item<Task>>)
    ensures Waiting([x] + l) == {x.owner} + Waiting(l)
    ensures OneEach(l) && x.owner !in Waiting(l) ==> OneEach([x] + l)
  {
    if x.owner !in Waiting(l) {
      forall i | 0 <= i < |l| ensures l[i].owner != x.owner {
        assert l[i].owner in Waiting(l);
      }
    }
  }

  lemma {:induction false} WithoutWaiting(l: seq<Item<Task>>, t: Task)
    requires OneEach(l)
    ensures OneEach(Without(l, t)) && Waiting(Without(l, t)) == Waiting(l) - {t}
  {
    hide Waiting, OneEach;
    if l == [] {
      NobodyWaits(l);
    } else {
      TailWaiting(l);
      WithoutWaiting(l[1..], t);
      assert l == [l[0]] + l[1..];
      ConsWaiting(l[0], l[1..]);
      ConsWaiting(l[0], Without(l[1..], t));
    }
  }

  lemma {:induction false} NobodyWaits(l: seq<Item<Task>>)
    requires l == []
    ensures Waiting(l) == {}
  {
  }

  // ----- what each kind of step does to one side -----

  /** One more item (or slot) with a wake-up if anyone waits. */
  lemma {:induction false} WakeServes(n: int, l: seq<Item<Task>>, woken: set<Task>, lock: int)
    requires Served(n, l, woken, lock)
    ensures Served(n + 1, Tail(l), woken + Head(l), lock)
  {
    TailWaiting(l);
    if l != [] {
      assert l[0].owner in Waiting(l);
    }
  }

  /** A retry that uses up an item (or slot), or finds none. */
  lemma {:induction false} RetryServes(n: int, n': int, l: seq<Item<Task>>, woken: set<Task>, lock: int, t: Task)
    requires Served(n, l, woken, lock) && (n' < n || n' <= 0)
    ensures Served(n', l, woken - {t}, lock)
  {
  }

  /** A retry that leaves the item for another waiter. */
  lemma {:induction false} PeekServes(n: int, l: seq<Item<Task>>, woken: set<Task>, lock: int, t: Task)
    requires Served(n, l, woken, lock)
    ensures Served(n, Tail(l), woken - {t} + Head(l), lock)
  {
    TailWaiting(l);
    if l != [] {
      assert l[0].owner in Waiting(l);
    }
  }

  lemma {:induction false} UnlockServes(n: int, l: seq<Item<Task>>, woken: set<Task>, lock: int)
    requires Served(n, l, woken, lock)
    ensures var w := Wakes(lock, l); Served(n, l[w..], woken + First(l, w), UNLOCKED)
  {
    var w := Wakes(lock, l);
    FirstSplits(l, w);
    assert |woken + First(l, w)| == |woken| + |First(l, w)|;
  }

  lemma {:induction false} PlaceServes(n: int, l: seq<Item<Task>>, woken: set<Task>, lock: int, t: Task, priority: nat)
    requires Served(n, l, woken, lock) && t !in Waiting(l) && t !in woken && priority < PRIORITIES && n <= lock
    ensures Served(n, Placed(l, t, priority), woken, lock)
  {
    PlacedWaiting(l, t, priority);
  }

  lemma {:induction false} StopServes(n: int, l: seq<Item<Task>>, woken: set<Task>, lock: int, t: Task)
    requires Served(n, l, woken, lock)
    ensures Served(n, Without(l, t), woken, lock)
  {
    WithoutWaiting(l, t);
  }

  lemma {:induction false} RewrittenWaiting(l: seq<Item<Task>>, t: Task, value: nat)
    ensures Waiting(Rewritten(l, t, value)) == Waiting(l)
    ensures OneEach(l) ==> OneEach(Rewritten(l, t, value))
  {
    var r := Rewritten(l, t, value);
    forall u ensures u in Waiting(r) <==> u in Waiting(l) {
      if u in Waiting(l) {
        var i :| 0 <= i < |l| && l[i].owner == u;
        assert r[i] in r && r[i].owner == u;
      }
      if u in Waiting(r) {
        var i :| 0 <= i < |r| && r[i].owner == u;
        assert l[i] in l && l[i].owner == u;
      }
    }
  }

  lemma {:induction false} RewriteServes(n: int, l: seq<Item<Task>>, woken: set<Task>, lock: int, t: Task, value: nat)
    requires Served(n, l, woken, lock)
    ensures Served(n, Rewritten(l, t, value), woken, lock)
  {
    RewrittenWaiting(l, t, value);
  }

  // ----- every step keeps the invariant -----

  lemma {:induction false} TaskStepInv(s: System, op: Op)
    requires Inv(s) && Enabled(s, op) && (op.TrySend? || op.TryReceive? || op.TryPeek?)
    ensures Inv(Step(s, op))
  {
    hide Served;
    var n, f := |s.q.items|, s.q.length - |s.q.items|;
    match op
    case TrySend(t, x, position) =>
      if CanSend(s.q, position) {
        WakeServes(n, s.q.receivers, s.wokenR, s.q.txLock);
        SameOrMore(|Step(s, op).q.items|, n + 1, Tail(s.q.receivers), s.wokenR + Head(s.q.receivers), s.q.txLock);
        RetryServes(f, s.q.length - |Step(s, op).q.items|, s.q.senders, s.wokenS, s.q.rxLock, t);
      } else {
        RetryServes(f, f, s.q.senders, s.wokenS, s.q.rxLock, t);
      }
    case TryReceive(t) =>
      if s.q.items != [] {
        RetryServes(n, n - 1, s.q.receivers, s.wokenR, s.q.txLock, t);
        WakeServes(f, s.q.senders, s.wokenS, s.q.rxLock);
      } else {
        RetryServes(n, n, s.q.receivers, s.wokenR, s.q.txLock, t);
      }
    case TryPeek(t) =>
      if s.q.items != [] {
        PeekServes(n, s.q.receivers, s.wokenR, s.q.txLock, t);
      } else {
        RetryServes(n, n, s.q.receivers, s.wokenR, s.q.txLock, t);
      }
  }

  lemma {:induction false} SameOrMore(n: int, bound: int, l: seq<Item<Task>>, woken: set<Task>, lock: int)
    requires Served(bound, l, woken, lock) && n <= bound
    ensures Served(n, l, woken, lock)
  {
  }

  lemma {:induction false} CountServes(n: int, l: seq<Item<Task>>, woken: set<Task>, lock: int)
    requires Served(n, l, woken, lock) && lock >= 0
    ensures Served(n + 1, l, woken, lock + 1)
  {
  }

  lemma {:induction false} IsrStepInv(s: System, op: Op)
    requires Inv(s) && Enabled(s, op) && (op.IsrSend? || op.IsrReceive?)
    ensures Inv(Step(s, op))
  {
    hide Served;
    var n, f := |s.q.items|, s.q.length - |s.q.items|;
    var s' := Step(s, op);
    if op.IsrSend? && CanSend(s.q, op.position) {
      if s.q.txLock == UNLOCKED {
        WakeServes(n, s.q.receivers, s.wokenR, s.q.txLock);
        WakeKeepsFresh(s.q.receivers);
      } else {
        CountServes(n, s.q.receivers, s.wokenR, s.q.txLock);
      }
      SameOrMore(|s'.q.items|, n + 1, s'.q.receivers, s'.wokenR, s'.q.txLock);
      SameOrMore(s.q.length - |s'.q.items|, f, s.q.senders, s.wokenS, s.q.rxLock);
    } else if op.IsrReceive? && s.q.items != [] {
      SameOrMore(n - 1, n, s.q.receivers, s.wokenR, s.q.txLock);
      if s.q.rxLock == UNLOCKED {
        WakeServes(f, s.q.senders, s.wokenS, s.q.rxLock);
      } else {
        CountServes(f, s.q.senders, s.wokenS, s.q.rxLock);
      }
    }
  }

  lemma {:induction false} WakeKeepsFresh(l: seq<Item<Task>>)
    ensures Head(l) <= Waiting(l) && Waiting(Tail(l)) <= Waiting(l)
  {
  }

  lemma {:induction false} RegionStepInv(s: System, op: Op)
    requires Inv(s) && Enabled(s, op)
    requires op.Enter? || op.Check? || op.Place? || op.UnlockSending? || op.UnlockReceiving? || op.StopWaiting?
             || op.Reprioritise?
    ensures Inv(Step(s, op))
  {
    hide Served, Placed, Without, Wakes, First, Rewritten;
    var n, f := |s.q.items|, s.q.length - |s.q.items|;
    match op
    case Enter(t, side) =>
      LockServes(n, s.q.receivers, s.wokenR, s.q.txLock);
      LockServes(f, s.q.senders, s.wokenS, s.q.rxLock);
    case Check(timedOut) =>
    case Place(priority) =>
      if s.region.side.Receiving? {
        PlaceServes(n, s.q.receivers, s.wokenR, s.q.txLock, s.region.t, priority);
      } else {
        PlaceServes(f, s.q.senders, s.wokenS, s.q.rxLock, s.region.t, priority);
      }
    case UnlockSending => UnlockServes(n, s.q.receivers, s.wokenR, s.q.txLock);
    case UnlockReceiving => UnlockServes(f, s.q.senders, s.wokenS, s.q.rxLock);
    case StopWaiting(t) =>
      StopServes(n, s.q.receivers, s.wokenR, s.q.txLock, t);
      StopServes(f, s.q.senders, s.wokenS, s.q.rxLock, t);
      StopKeepsFresh(s, t);
    case Reprioritise(t, priority) =>
      RewriteServes(n, s.q.receivers, s.wokenR, s.q.txLock, t, PRIORITIES - priority);
      RewriteServes(f, s.q.senders, s.wokenS, s.q.rxLock, t, PRIORITIES - priority);
      RewrittenWaiting(s.q.receivers, t, PRIORITIES - priority);
      RewrittenWaiting(s.q.senders, t, PRIORITIES - priority);
  }

  lemma {:induction false} StopKeepsFresh(s: System, t: Task)
    requires Inv(s)
    ensures Waiting(Without(s.q.receivers, t)) <= Waiting(s.q.receivers)
    ensures Waiting(Without(s.q.senders, t)) <= Waiting(s.q.senders)
  {
    WithoutWaiting(s.q.receivers, t);
    WithoutWaiting(s.q.senders, t);
  }

  lemma {:induction false} LockServes(n: int, l: seq<Item<Task>>, woken: set<Task>, lock: int)
    requires Served(n, l, woken, lock) && lock == UNLOCKED
    ensures Served(n, l, woken, LOCKED_UNMODIFIED)
  {
  }

  lemma {:induction false} StepInv(s: System, op: Op)
    requires Inv(s)
    ensures Inv(Step(s, op))
  {
    hide Inv, Enabled;
    if Enabled(s, op) {
      if op.TrySend? || op.TryReceive? || op.TryPeek? {
        TaskStepInv(s, op);
      } else if op.IsrSend? || op.IsrReceive? {
        IsrStepInv(s, op);
      } else {
        RegionStepInv(s, op);
      }
    }
  }

  lemma {:induction false} RunInv(s: System, ops: seq<Op>)
    requires Inv(s)
    ensures Inv(Run(s, ops))
    decreases |ops|
  {
    hide Inv, Step;
    if ops != [] {
      StepInv(s, ops[0]);
      RunInv(Step(s, ops[0]), ops[1..]);
    }
  }

  /**
   * No lost wake-up. In every interleaving, while someone waits to receive, the items queued are
   * at most the woken receivers that have not retried plus the arrivals counted by the lock; and
   * likewise for senders, free slots and the other count.
   */
  lemma {:induction false} NoLostWakeup(length: nat, itemSize: nat, ops: seq<Op>)
    ensures var s := Run(Start(length, itemSize), ops);
            && (s.q.receivers != [] ==> |s.q.items| <= |s.wokenR| + Count(s.q.txLock))
            && (s.q.senders != [] ==> s.q.length - |s.q.items| <= |s.wokenS| + Count(s.q.rxLock))
  {
    hide Run;
    RunInv(Start(length, itemSize), ops);
  }

  /** Once nobody is between waking and retrying and the queue is unlocked, waiting is justified. */
  lemma {:induction false} QuiescentWaitersAreRight(length: nat, itemSize: nat, ops: seq<Op>)
    requires Run(Start(length, itemSize), ops).region.Outside?
    ensures var s := Run(Start(length, itemSize), ops);
            && (s.wokenR == {} && s.q.receivers != [] ==> s.q.items == [])
            && (s.wokenS == {} && s.q.senders != [] ==> |s.q.items| >= s.q.length)
  {
    hide Run;
    RunInv(Start(length, itemSize), ops);
  }

  // ----- the order of waking -----

  ghost predicate InPriorityOrder(q: QueueState) {
    Sorted(q.receivers) && Sorted(q.senders)
  }

  /** The new value of a waiter lies between those of its neighbours on the list. */
  ghost predicate FitsBetween(l: seq<Item<Task>>, t: Task, value: nat) {
    forall i :: 0 <= i < |l| && l[i].owner == t ==>
      (i == 0 || l[i - 1].value <= value) && (i + 1 == |l| || value <= l[i + 1].value)
  }

  /** Rewriting a waiter's value in place keeps the list in order exactly when the value fits there. */
  lemma {:induction false} RewriteKeepsOrderIff(l: seq<Item<Task>>, t: Task, value: nat)
    requires Sorted(l) && OneEach(l)
    ensures Sorted(Rewritten(l, t, value)) <==> FitsBetween(l, t, value)
  {
    var r := Rewritten(l, t, value);
    if Sorted(r) {
      forall i | 0 <= i < |l| && l[i].owner == t
        ensures (i == 0 || l[i - 1].value <= value) && (i + 1 == |l| || value <= l[i + 1].value)
      {
        assert i > 0 ==> r[i - 1] == l[i - 1] && r[i - 1].value <= r[i].value;
        assert i + 1 < |l| ==> r[i + 1] == l[i + 1] && r[i].value <= r[i + 1].value;
      }
    }
    if FitsBetween(l, t, value) {
      forall i, j | 0 <= i < j < |r| ensures r[i].value <= r[j].value {
        assert l[i].value <= l[j].value;
        if l[i].owner == t {
          assert i + 1 == j || l[i + 1].value <= l[j].value;
        } else if l[j].owner == t {
          assert i == j - 1 || l[i].value <= l[j - 1].value;
        }
      }
    }
  }

  lemma {:induction false} RestSorted(l: seq<Item<Task>>, n: nat)
    requires Sorted(l) && n <= |l|
    ensures Sorted(l[n..]) && Sorted(Tail(l))
  {
  }

  /** The step rewrites no waiter out of its place. */
  ghost predicate StaysPut(s: System, op: Op) {
    op.Reprioritise? && op.priority < PRIORITIES ==>
      && FitsBetween(s.q.receivers, op.t, PRIORITIES - op.priority)
      && FitsBetween(s.q.senders, op.t, PRIORITIES - op.priority)
  }

  /** Every step keeps both lists in order, except exactly a rewriting that does not fit. */
  lemma {:induction false} StepOrderedIff(s: System, op: Op)
    requires InPriorityOrder(s.q) && Inv(s)
    ensures InPriorityOrder(Step(s, op).q) <==> StaysPut(s, op)
  {
    hide Sorted, Waiting, First, Tail, Without, InsertSorted, Rewritten, FitsBetween;
    RestSorted(s.q.receivers, Wakes(s.q.txLock, s.q.receivers));
    RestSorted(s.q.senders, Wakes(s.q.rxLock, s.q.senders));
    if op.Place? && Enabled(s, op) {
      InsertSortedStable(s.q.receivers, Item(s.region.t, PRIORITIES - op.priority));
      InsertSortedStable(s.q.senders, Item(s.region.t, PRIORITIES - op.priority));
    } else if op.StopWaiting? {
      WithoutSorted(s.q.receivers, op.t);
      WithoutSorted(s.q.senders, op.t);
    } else if op.Reprioritise? && op.priority < PRIORITIES {
      RewriteKeepsOrderIff(s.q.receivers, op.t, PRIORITIES - op.priority);
      RewriteKeepsOrderIff(s.q.senders, op.t, PRIORITIES - op.priority);
    }
  }

  lemma {:induction false} FirstOutranks(l: seq<Item<Task>>, n: nat, x: Item<Task>, y: Item<Task>)
    requires Sorted(l) && n <= |l| && x in l && y in l[n..] && x.owner in First(l, n) && OneEach(l)
    ensures x.value <= y.value
  {
    hide First, OneEach, Waiting;
    var i :| 0 <= i < |l| && l[i] == x;
    var j :| n <= j < |l| && l[j] == y;
    FirstIndex(l, n, i);
  }

  /** Only the first `n` are among the first `n`. */
  lemma {:induction false} FirstIndex(l: seq<Item<Task>>, n: nat, i: nat)
    requires OneEach(l) && n <= |l| && i < |l|
    ensures l[i].owner in First(l, n) <==> i < n
    decreases n
  {
    FirstUnfolds(l, n);
    if n > 0 && i > 0 {
      FirstIndex(l[1..], n - 1, i - 1);
    }
  }

  lemma {:induction false} HeadIsFirst(l: seq<Item<Task>>)
    requires l != []
    ensures Head(l) == First(l, 1) && Tail(l) == l[1..]
  {
    assert First(l[1..], 0) == {};
  }

  /** Whoever a step wakes is at least as urgent as everyone it leaves waiting. */
  lemma {:induction false} WokenOutranks(s: System, op: Op, x: Item<Task>, y: Item<Task>)
    requires InPriorityOrder(s.q) && Inv(s)
    ensures x in s.q.receivers && y in Step(s, op).q.receivers && x.owner in Step(s, op).wokenR - s.wokenR ==>
              x.value <= y.value
    ensures x in s.q.senders && y in Step(s, op).q.senders && x.owner in Step(s, op).wokenS - s.wokenS ==>
              x.value <= y.value
  {
    hide Sorted, OneEach, Waiting, First, InsertSorted, Without, Rewritten, LocksMatch, RegionSound;
    var n, m := Wakes(s.q.txLock, s.q.receivers), Wakes(s.q.rxLock, s.q.senders);
    if x in s.q.receivers && y in Step(s, op).q.receivers && x.owner in Step(s, op).wokenR - s.wokenR {
      HeadIsFirst(s.q.receivers);
      FirstOutranks(s.q.receivers, if op.UnlockSending? then n else 1, x, y);
    }
    if x in s.q.senders && y in Step(s, op).q.senders && x.owner in Step(s, op).wokenS - s.wokenS {
      HeadIsFirst(s.q.senders);
      FirstOutranks(s.q.senders, if op.UnlockReceiving? then m else 1, x, y);
    }
  }

  ghost predicate AllStayPut(s: System, ops: seq<Op>)
    decreases |ops|
  {
    ops == [] || (StaysPut(s, ops[0]) && AllStayPut(Step(s, ops[0]), ops[1..]))
  }

  /**
   * In every run that rewrites no waiter out of its place both event lists are in order, so that a
   * wake-up takes a waiter whose event item carries the highest priority, which is the priority it
   * began to wait with or the base priority it was given since.
   */
  lemma {:induction false} HighestWokenFirst(s: System, ops: seq<Op>)
    requires InPriorityOrder(s.q) && Inv(s) && AllStayPut(s, ops)
    ensures InPriorityOrder(Run(s, ops).q)
    ensures forall x :: x in Run(s, ops).q.receivers ==> Run(s, ops).q.receivers[0].value <= x.value
    ensures forall x :: x in Run(s, ops).q.senders ==> Run(s, ops).q.senders[0].value <= x.value
    decreases |ops|
  {
    hide Step, Inv, StaysPut;
    if ops != [] {
      StepOrderedIff(s, ops[0]);
      StepInv(s, ops[0]);
      HighestWokenFirst(Step(s, ops[0]), ops[1..]);
    }
  }

  /** An empty queue of one zero-size item with these receivers waiting. */
  ghost function ReceiversWait(l: seq<Item<Task>>): System {
    System(QueueState(1, 0, [], l, [], UNLOCKED, UNLOCKED), {}, {}, Outside, [], [])
  }

  ghost function WaitOps(t: Task, priority: nat): seq<Op> {
    [Enter(t, Receiving), Check(false), Place(priority), UnlockSending, UnlockReceiving]
  }

  lemma {:induction false} OneMoreWaits(l: seq<Item<Task>>, t: Task, priority: nat, ops: seq<Op>)
    requires t !in Waiting(l) && priority < PRIORITIES
    ensures Run(ReceiversWait(l), WaitOps(t, priority) + ops) == Run(ReceiversWait(Placed(l, t, priority)), ops)
  {
    hide InsertSorted, Waiting;
    var s0, all := ReceiversWait(l), WaitOps(t, priority) + ops;
    var s1 := s0.(q := s0.q.(rxLock := 0, txLock := 0), region := Entered(t, Receiving));
    var s2 := s1.(region := FoundBlocked(t, Receiving));
    var s3 := s1.(q := s1.q.(receivers := Placed(l, t, priority)), region := Unlocking(t));
    var s4 := s3.(q := s3.q.(txLock := UNLOCKED), region := UnlockingRx(t));
    NobodyWaits([]);
    assert Step(s0, all[0]) == s1 && Step(s1, all[1]) == s2 && Step(s2, all[2]) == s3;
    assert Step(s3, all[3]) == s4 && Step(s4, all[4]) == ReceiversWait(Placed(l, t, priority));
    RunFive(s0, all);
    assert all[5..] == ops;
  }

  lemma {:induction false} RunFive(s: System, ops: seq<Op>)
    requires |ops| >= 5
    ensures Run(s, ops) == Run(Step(Step(Step(Step(Step(s, ops[0]), ops[1]), ops[2]), ops[3]), ops[4]), ops[5..])
  {
    hide Step;
    var s1 := Step(s, ops[0]);
    var s2 := Step(s1, ops[1]);
    var s3 := Step(s2, ops[2]);
    var s4 := Step(s3, ops[3]);
    assert ops[1..][1..] == ops[2..] && ops[2..][1..] == ops[3..];
    assert ops[3..][1..] == ops[4..] && ops[4..][1..] == ops[5..];
    assert Run(s, ops) == Run(s1, ops[1..]) && Run(s1, ops[1..]) == Run(s2, ops[2..]);
    assert Run(s2, ops[2..]) == Run(s3, ops[3..]) && Run(s3, ops[3..]) == Run(s4, ops[4..]);
    assert Run(s4, ops[4..]) == Run(Step(s4, ops[4]), ops[5..]);
  }

  /**
   * The premise is needed: task 1 waits at priority 5, task 2 at priority 3, task 2 is raised to
   * 9 where it stands, and the next send wakes task 1.
   */
  lemma {:induction false} RaisedWaiterIsPassedOver()
    ensures var s := Run(Start(1, 0), WaitOps(1, 5) + (WaitOps(2, 3) + [Reprioritise(2, 9)]));
            && s.q.receivers == [Item(1, PRIORITIES - 5), Item(2, PRIORITIES - 9)]
            && Step(s, TrySend(3, [], Back)).wokenR == {1}
  {
    hide Step, Run, InsertSorted;
    OneMoreWaits([], 1, 5, WaitOps(2, 3) + [Reprioritise(2, 9)]);
    assert InsertSorted<Task>([], Item(1, 27)) == [Item(1, 27)] by {
      InsertValues();
    }
    assert 2 !in Waiting([Item(1, 27)]);
    OneMoreWaits([Item(1, 27)], 2, 3, [Reprioritise(2, 9)]);
    assert InsertSorted<Task>([Item(1, 27)], Item(2, 29)) == [Item(1, 27), Item(2, 29)] by {
      InsertValues();
    }
    Raised();
  }

  lemma {:induction false} InsertValues()
    ensures InsertSorted<Task>([], Item(1, 27)) == [Item(1, 27)]
    ensures InsertSorted<Task>([Item(1, 27)], Item(2, 29)) == [Item(1, 27), Item(2, 29)]
  {
  }

  lemma {:induction false} Raised()
    ensures var s := Run(ReceiversWait([Item(1, 27), Item(2, 29)]), [Reprioritise(2, 9)]);
            s.q.receivers == [Item(1, 27), Item(2, 23)] && Step(s, TrySend(3, [], Back)).wokenR == {1}
  {
    var l: seq<Item<Task>> := [Item(1, 27), Item(2, 29)];
    assert Rewritten(l, 2, 23) == [Item(1, 27), Item(2, 23)];
    var s := ReceiversWait([Item(1, 27), Item(2, 23)]);
    assert Run(ReceiversWait(l), [Reprioritise(2, 9)]) == Step(ReceiversWait(l), Reprioritise(2, 9)) == s;
    assert 3 !in Waiting(s.q.receivers);
  }

  // ----- contents over runs -----

  predicate SendsToBack(op: Op) {
    (op.TrySend? || op.IsrSend?) ==> op.position.Back?
  }

  lemma {:induction false} StepFifo(s: System, op: Op)
    requires s.received + s.q.items == s.sent && SendsToBack(op)
    ensures Step(s, op).received + Step(s, op).q.items == Step(s, op).sent
  {
    hide Placed, Without, Wakes, First, Waiting;
    if s.q.items != [] {
      assert s.received + s.q.items == s.received + [s.q.items[0]] + s.q.items[1..];
    }
  }

  /** First in, first out, nothing lost or duplicated: with sends to the back only, in every run. */
  lemma {:induction false} FirstInFirstOut(s: System, ops: seq<Op>)
    requires s.received + s.q.items == s.sent
    requires forall i :: 0 <= i < |ops| ==> SendsToBack(ops[i])
    ensures Run(s, ops).received + Run(s, ops).q.items == Run(s, ops).sent
    decreases |ops|
  {
    hide Step;
    if ops != [] {
      StepFifo(s, ops[0]);
      FirstInFirstOut(Step(s, ops[0]), ops[1..]);
    }
  }

  // ----- who comes to wait -----

  /** The way to block on the queue, with nobody interfering. */
  ghost function BlockingOps(t: Task, side: Side, timedOut: bool, priority: nat): seq<Op> {
    [Enter(t, side), Check(timedOut), Place(priority), UnlockSending, UnlockReceiving]
  }

  predicate MustWait(q: QueueState, side: Side) {
    if side.Receiving? then q.items == [] else |q.items| == q.length
  }

  /** The queue with `t` waiting on one side. */
  ghost function Joined(q: QueueState, t: Task, side: Side, priority: nat): QueueState
    requires priority <= PRIORITIES
  {
    if side.Receiving? then q.(receivers := Placed(q.receivers, t, priority))
    else q.(senders := Placed(q.senders, t, priority))
  }

  /** The queue is locked and its state checked. */
  lemma {:induction false} CheckedSteps(s: System, t: Task, side: Side, timedOut: bool)
    requires Inv(s) && Enabled(s, Enter(t, side))
    ensures var s1 := s.(q := s.q.(rxLock := 0, txLock := 0), region := Entered(t, side));
            && Step(s, Enter(t, side)) == s1
            && Step(s1, Check(timedOut))
               == s1.(region := if !timedOut && MustWait(s.q, side) then FoundBlocked(t, side) else Unlocking(t))
  {
    hide Waiting, OneEach;
  }

  /** It is unlocked with nothing counted. */
  lemma {:induction false} UnlockedSteps(s: System, q: QueueState, t: Task)
    requires s.q == q.(rxLock := 0, txLock := 0) && q.rxLock == UNLOCKED && q.txLock == UNLOCKED
    requires s.region == Unlocking(t)
    ensures Step(Step(s, UnlockSending), UnlockReceiving) == s.(q := q, region := Outside)
  {
    assert forall l :: Wakes(0, l) == 0 && First(l, 0) == {};
    assert s.q.receivers[0..] == s.q.receivers && s.q.senders[0..] == s.q.senders;
  }

  lemma {:induction false} BlockedPath(s: System, t: Task, side: Side, priority: nat)
    requires Inv(s) && Enabled(s, Enter(t, side)) && priority < PRIORITIES && MustWait(s.q, side)
    ensures Run(s, BlockingOps(t, side, false, priority)) == s.(q := Joined(s.q, t, side, priority))
  {
    hide Placed, Waiting, OneEach, Run;
    var ops := BlockingOps(t, side, false, priority);
    var s2 := s.(q := s.q.(rxLock := 0, txLock := 0), region := FoundBlocked(t, side));
    var s3 := s.(q := Joined(s.q, t, side, priority).(rxLock := 0, txLock := 0), region := Unlocking(t));
    CheckedSteps(s, t, side, false);
    assert Step(s2, ops[2]) == s3;
    UnlockedSteps(s3, Joined(s.q, t, side, priority), t);
    RunFive(s, ops);
    NoMore(s.(q := Joined(s.q, t, side, priority)), ops[5..]);
  }

  lemma {:induction false} NoMore(s: System, ops: seq<Op>)
    requires ops == []
    ensures Run(s, ops) == s
  {
  }

  lemma {:induction false} UnblockedPath(s: System, t: Task, side: Side, timedOut: bool, priority: nat)
    requires Inv(s) && Enabled(s, Enter(t, side)) && (timedOut || !MustWait(s.q, side))
    ensures Run(s, BlockingOps(t, side, timedOut, priority)) == s
  {
    hide Placed, Waiting, OneEach, Run;
    var ops := BlockingOps(t, side, timedOut, priority);
    var s2 := s.(q := s.q.(rxLock := 0, txLock := 0), region := Unlocking(t));
    CheckedSteps(s, t, side, timedOut);
    assert Step(s2, ops[2]) == s2;
    UnlockedSteps(s2, s.q, t);
    RunFive(s, ops);
    NoMore(s, ops[5..]);
  }

  /**
   * A task that looks at the queue again with the scheduler suspended comes to wait, by the
   * priority it has, exactly when its time is not up and the queue is still empty, or full;
   * otherwise the queue is as it was.
   */
  lemma {:induction false} WaitsIff(s: System, t: Task, side: Side, timedOut: bool, priority: nat)
    requires Inv(s) && Enabled(s, Enter(t, side)) && priority < PRIORITIES
    ensures var s' := Run(s, BlockingOps(t, side, timedOut, priority));
            var (l, l') := if side.Receiving? then (s.q.receivers, s'.q.receivers) else (s.q.senders, s'.q.senders);
            && (timedOut || !MustWait(s.q, side) ==> s' == s)
            && (!timedOut && MustWait(s.q, side) ==>
                  && s'.q.items == s.q.items && s'.region == s.region
                  && (side.Receiving? ==> s'.q.senders == s.q.senders)
                  && (side.Sending? ==> s'.q.receivers == s.q.receivers)
                  && Waiting(l') == Waiting(l) + {t} && Item(t, PRIORITIES - priority) in l')
  {
    hide Run, Inv, OneEach, Waiting, InsertSorted, BlockingOps;
    if timedOut || !MustWait(s.q, side) {
      UnblockedPath(s, t, side, timedOut, priority);
    } else {
      BlockedPath(s, t, side, priority);
      JoinedWaits(s, t, side, priority);
    }
  }

  lemma {:induction false} JoinedWaits(s: System, t: Task, side: Side, priority: nat)
    requires Inv(s) && Enabled(s, Enter(t, side)) && priority < PRIORITIES
    ensures var l := if side.Receiving? then s.q.receivers else s.q.senders;
            && Waiting(Placed(l, t, priority)) == Waiting(l) + {t}
            && Item(t, PRIORITIES - priority) in Placed(l, t, priority)
  {
    hide Waiting, OneEach, Position;
    PlacedWaiting(if side.Receiving? then s.q.receivers else s.q.senders, t, priority);
  }

  /** A task whose block time ends, or whose wait is aborted, is on neither list; all others stay. */
  lemma {:induction false} StopEndsWait(s: System, t: Task)
    requires Inv(s)
    ensures var q := Step(s, StopWaiting(t)).q;
            && Waiting(q.receivers) == Waiting(s.q.receivers) - {t}
            && Waiting(q.senders) == Waiting(s.q.senders) - {t} && q.items == s.q.items
  {
    hide Waiting, OneEach;
    WithoutWaiting(s.q.receivers, t);
    WithoutWaiting(s.q.senders, t);
  }

  // ----- what a step does to the contents -----

  /** A send that finds room, or does not need it. */
  ghost predicate Sends(s: System, op: Op) {
    && Enabled(s, op) && (op.TrySend? || op.IsrSend?)
    && (|s.q.items| < s.q.length || op.position.Overwrite?)
  }

  /** A receive that finds an item. */
  ghost predicate Receives(s: System, op: Op) {
    Enabled(s, op) && s.q.items != [] && (op.TryReceive? || op.IsrReceive?)
  }

  /**
   * A send adds its item where it was told to, overwriting at most the last one; a receive takes
   * the first; and a send without room, a receive without an item and every other step leave the
   * contents as they are.
   */
  lemma {:induction false} StepContents(s: System, op: Op)
    ensures var s', items := Step(s, op), s.q.items;
            if Sends(s, op) then
              && s'.sent == s.sent + [op.x] && s'.received == s.received
              && s'.q.items == if op.position.Back? || s.q.itemSize == 0 then items + [op.x]
                               else if op.position.Overwrite? && items != [] then [op.x] + items[..|items| - 1]
                               else [op.x] + items
            else if Receives(s, op) then
              s'.sent == s.sent && s'.received == s.received + [items[0]] && s'.q.items == items[1..]
            else s'.sent == s.sent && s'.received == s.received && s'.q.items == items
  {
    hide Placed, Without, Rewritten, Wakes, First, Waiting;
  }

  // ----- sends to the front -----

  /** An item is sent to the front and there is room for it. */
  ghost predicate FrontSent(s: System, op: Op, x: Message) {
    && Enabled(s, op) && s.q.itemSize > 0 && |s.q.items| < s.q.length
    && ((op.TrySend? && op.x == x && op.position.Front?) || op == IsrSend(x, Front))
  }

  predicate NoReceive(op: Op) {
    !op.TryReceive? && !op.IsrReceive?
  }

  lemma {:induction false} StepAppends(s: System, op: Op)
    requires NoReceive(op) && SendsToBack(op)
    ensures var s' := Step(s, op);
            && s.sent <= s'.sent && s'.q.itemSize == s.q.itemSize
            && s'.q.items == s.q.items + s'.sent[|s.sent|..] && s'.received == s.received
  {
    hide Placed, Without, Rewritten, Wakes, First, Waiting;
  }

  /** Steps that neither receive nor send to the front add what they send at the back. */
  lemma {:induction false} RunAppends(s: System, ops: seq<Op>)
    requires forall i :: 0 <= i < |ops| ==> NoReceive(ops[i]) && SendsToBack(ops[i])
    ensures var s' := Run(s, ops);
            s.sent <= s'.sent && s'.q.items == s.q.items + s'.sent[|s.sent|..] && s'.received == s.received
    decreases |ops|
  {
    hide Step, NoReceive, SendsToBack;
    if ops != [] {
      StepAppends(s, ops[0]);
      RunAppends(Step(s, ops[0]), ops[1..]);
      Appended(s.sent, Step(s, ops[0]).sent, Run(s, ops).sent);
    }
  }

  lemma {:induction false} Appended(a: seq<Message>, b: seq<Message>, c: seq<Message>)
    requires a <= b && |b| <= |c| && b <= c
    ensures c[|a|..] == b[|a|..] + c[|b|..]
  {
  }

  lemma {:induction false} FrontSend(s: System, op: Op, x: Message)
    requires FrontSent(s, op, x)
    ensures Step(s, op).q.items == [x] + s.q.items && Step(s, op).received == s.received
  {
    hide Step;
    StepContents(s, op);
  }

  /**
   * An item sent to the front is the next one received, by whomever, whatever is sent to the back
   * meanwhile, and what was queued before it is served after it, ahead of what came meanwhile.
   */
  lemma {:induction false} FrontServedNext(s: System, front: Op, x: Message, ops: seq<Op>, receive: Op)
    requires FrontSent(s, front, x)
    requires forall i :: 0 <= i < |ops| ==> NoReceive(ops[i]) && SendsToBack(ops[i])
    requires Receives(Run(Step(s, front), ops), receive)
    ensures var s1 := Step(s, front);
            var s2 := Run(s1, ops);
            var s3 := Step(s2, receive);
            && s3.received == s.received + [x]
            && s1.sent <= s2.sent && s3.q.items == s.q.items + s2.sent[|s1.sent|..]
  {
    hide Step, Run, NoReceive, SendsToBack, FrontSent, Enabled;
    FrontSend(s, front, x);
    RunAppends(Step(s, front), ops);
    StepContents(Run(Step(s, front), ops), receive);
  }

  /** Overwriting leaves the one item last written, which the next receive takes. */
  lemma {:induction false} OverwriteReplaces(s: System, op: Op, receive: Op)
    requires Enabled(s, op) && s.q.itemSize > 0 && |s.q.items| <= s.q.length
    requires (op.TrySend? || op.IsrSend?) && op.position.Overwrite?
    ensures Step(s, op).q.items == [op.x]
    ensures Receives(Step(s, op), receive) ==>
              var s' := Step(Step(s, op), receive); s'.received == s.received + [op.x] && s'.q.items == []
  {
    hide Step;
    StepContents(s, op);
    StepContents(Step(s, op), receive);
  }

  /** Sending keeps the bound, except for overwriting a full queue of zero-size items. */
  lemma {:induction false} SendKeepsBoundIff(q: QueueState, x: Message, position: CopyPosition)
    requires CanSend(q, position) && |q.items| <= q.length && (position.Overwrite? ==> q.length == 1)
    ensures |Send(q, x, position).items| <= q.length <==>
            !(q.itemSize == 0 && position.Overwrite? && |q.items| == q.length)
  {
  }

  /** Overwriting is only done to items that have a size. */
  predicate OverwritesItems(s: System, op: Op) {
    (op.TrySend? || op.IsrSend?) && op.position.Overwrite? ==> s.q.itemSize > 0
  }

  lemma {:induction false} StepBounded(s: System, op: Op)
    requires |s.q.items| <= s.q.length && OverwritesItems(s, op)
    ensures var s' := Step(s, op); |s'.q.items| <= s'.q.length && s'.q.itemSize == s.q.itemSize
  {
    hide Placed, Without, Rewritten, Wakes, First, Waiting;
  }

  /** In every run of a queue with item size, and of one without that is not overwritten, the bound holds. */
  lemma {:induction false} BoundedOverRuns(s: System, ops: seq<Op>)
    requires |s.q.items| <= s.q.length && forall i :: 0 <= i < |ops| ==> OverwritesItems(s, ops[i])
    ensures |Run(s, ops).q.items| <= Run(s, ops).q.length
    decreases |ops|
  {
    hide Step;
    if ops != [] {
      StepBounded(s, ops[0]);
      BoundedOverRuns(Step(s, ops[0]), ops[1..]);
    }
  }

  /** Overwriting a binary semaphore twice leaves two items in a queue of length one. */
  lemma {:induction false} OverwriteExceedsBound()
    ensures |Run(Start(1, 0), [TrySend(1, [], Overwrite), TrySend(1, [], Overwrite)]).q.items| == 2
  {
    var op := TrySend(1, [], Overwrite);
    NobodyWaits([]);
    var s := Step(Start(1, 0), op);
    assert s.q.items == [[]] && s.region.Outside? && s.q.receivers == [] && s.q.senders == [];
    assert [op, op][1..] == [op] && Run(Start(1, 0), [op, op]) == Run(s, [op]) == Step(s, op);
  }
}
