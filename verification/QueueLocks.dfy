/**
 * What locking a queue is for: interrupts that use a locked queue leave the event lists alone, and
 * the unlock makes up for it, as if they had found the queue unlocked, until a count overflows.
 */
module QueueLocks {
  import opened Rings
  import opened Tasks
  import opened Queues

  /** What an interrupt does to a queue. */
  datatype Use = Put(x: Message, position: CopyPosition) | Get

  /** A queue and the tasks that have been taken off its two event lists. */
  datatype Woken = Woken(q: QueueState, receivers: set<Task>, senders: set<Task>)

  /** xQueueGenericSendFromISR or xQueueReceiveFromISR; on a full or empty queue nothing happens. */
  ghost function Interrupt(w: Woken, use: Use): Woken {
    match use
    case Put(x, position) =>
      if CanSend(w.q, position) then
        Woken(SendFromIsr(w.q, x, position),
              w.receivers + (if w.q.txLock == UNLOCKED then Head(w.q.receivers) else {}), w.senders)
      else w
    case Get =>
      if w.q.items != [] then
        Woken(ReceiveFromIsr(w.q), w.receivers,
              w.senders + (if w.q.rxLock == UNLOCKED then Head(w.q.senders) else {}))
      else w
  }

  ghost function Interrupts(w: Woken, uses: seq<Use>): Woken
    decreases |uses|
  {
    if uses == [] then w else Interrupts(Interrupt(w, uses[0]), uses[1..])
  }

  /** prvUnlockQueue. */
  ghost function Unlock(w: Woken): Woken {
    Woken(UnlockRx(UnlockTx(w.q)),
          w.receivers + First(w.q.receivers, Wakes(w.q.txLock, w.q.receivers)),
          w.senders + First(w.q.senders, Wakes(w.q.rxLock, w.q.senders)))
  }

  // ----- how many were counted, and what the count says -----

  /** How many of the uses find room, or an item. */
  ghost function Puts(w: Woken, uses: seq<Use>): nat
    decreases |uses|
  {
    if uses == [] then 0
    else (if uses[0].Put? && CanSend(w.q, uses[0].position) then 1 else 0) + Puts(Interrupt(w, uses[0]), uses[1..])
  }

  ghost function Gets(w: Woken, uses: seq<Use>): nat
    decreases |uses|
  {
    if uses == [] then 0
    else (if uses[0].Get? && w.q.items != [] then 1 else 0) + Gets(Interrupt(w, uses[0]), uses[1..])
  }

  /** What a count shows after `n` increments, until it has wrapped round to the mark of an unlocked queue. */
  function Shown(n: nat): Int8 {
    if n < 128 then n else if n < 256 then n - 256 else UNLOCKED
  }

  function AtMost(n: int, l: seq<Item<Task>>): (m: nat)
    ensures m <= |l|
  {
    if n < 0 then 0 else if n < |l| then n else |l|
  }

  /** The queue `q` with other items, `a` receivers and `b` senders taken off their lists and other counts. */
  ghost predicate After(q: QueueState, w: Woken, a: nat, b: nat, tx: Int8, rx: Int8) {
    && a <= |q.receivers| && b <= |q.senders|
    && w.q == q.(items := w.q.items, receivers := q.receivers[a..], senders := q.senders[b..],
                 txLock := tx, rxLock := rx)
    && w.receivers == First(q.receivers, a) && w.senders == First(q.senders, b)
  }

  /** After `n` puts and `g` gets by interrupts that found the queue unlocked. */
  ghost predicate Direct(q: QueueState, w: Woken, n: nat, g: nat) {
    After(q, w, AtMost(n, q.receivers), AtMost(g, q.senders), UNLOCKED, UNLOCKED)
  }

  /** After `n` puts and `g` gets by interrupts that found it locked. */
  ghost predicate Deferred(q: QueueState, w: Woken, n: nat, g: nat) {
    After(q, w, AtMost(n - 255, q.receivers), AtMost(g - 255, q.senders), Shown(n), Shown(g))
  }

  /** One more wake-up takes one more waiter off the list. */
  lemma {:induction false} OneMore(l: seq<Item<Task>>, n: nat)
    ensures l[AtMost(n + 1, l)..] == Tail(l[AtMost(n, l)..])
    ensures First(l, AtMost(n + 1, l)) == First(l, AtMost(n, l)) + Head(l[AtMost(n, l)..])
  {
    if n < |l| {
      FirstSnoc(l, n);
    }
  }

  lemma {:induction false} PutCounts(q: QueueState, w: Woken, n: nat, g: nat, use: Use)
    requires use.Put? && CanSend(w.q, use.position)
    ensures Direct(q, w, n, g) ==> Direct(q, Interrupt(w, use), n + 1, g)
    ensures Deferred(q, w, n, g) ==> Deferred(q, Interrupt(w, use), n + 1, g)
  {
    hide First, AtMost;
    OneMore(q.receivers, n);
    if n >= 255 {
      OneMore(q.receivers, n - 255);
    } else {
      NoneYet(q.receivers, n);
    }
  }

  lemma {:induction false} GetCounts(q: QueueState, w: Woken, n: nat, g: nat)
    requires w.q.items != []
    ensures Direct(q, w, n, g) ==> Direct(q, Interrupt(w, Get), n, g + 1)
    ensures Deferred(q, w, n, g) ==> Deferred(q, Interrupt(w, Get), n, g + 1)
  {
    hide First, AtMost;
    OneMore(q.senders, g);
    if g >= 255 {
      OneMore(q.senders, g - 255);
    } else {
      NoneYet(q.senders, g);
    }
  }

  /** While the count has not come round to the mark of an unlocked queue nobody is woken. */
  lemma {:induction false} NoneYet(l: seq<Item<Task>>, n: nat)
    requires n < 255
    ensures AtMost(n - 255, l) == AtMost(n + 1 - 255, l) == 0 && First(l, 0) == {}
  {
  }

  lemma {:induction false} UseCounts(q: QueueState, w: Woken, n: nat, g: nat, use: Use)
    ensures var w', n', g' := Interrupt(w, use), n + Puts(w, [use]), g + Gets(w, [use]);
            && (Direct(q, w, n, g) ==> Direct(q, w', n', g')) && (Deferred(q, w, n, g) ==> Deferred(q, w', n', g'))
  {
    hide Direct, Deferred;
    match use
    case Put(_, position) =>
      if CanSend(w.q, position) {
        PutCounts(q, w, n, g, use);
      }
    case Get =>
      if w.q.items != [] {
        GetCounts(q, w, n, g);
      }
  }

  lemma {:induction false} RunCounts(q: QueueState, w: Woken, n: nat, g: nat, uses: seq<Use>)
    ensures var w', n', g' := Interrupts(w, uses), n + Puts(w, uses), g + Gets(w, uses);
            && (Direct(q, w, n, g) ==> Direct(q, w', n', g')) && (Deferred(q, w, n, g) ==> Deferred(q, w', n', g'))
    decreases |uses|
  {
    hide Direct, Deferred;
    if uses != [] {
      UseCounts(q, w, n, g, uses[0]);
      RunCounts(q, Interrupt(w, uses[0]), n + Puts(w, [uses[0]]), g + Gets(w, [uses[0]]), uses[1..]);
    }
  }

  /** The locks do not bear on which uses succeed or on what is stored. */
  lemma {:induction false} SameItems(w: Woken, v: Woken, uses: seq<Use>)
    requires w.q.items == v.q.items && w.q.length == v.q.length && w.q.itemSize == v.q.itemSize
    ensures Interrupts(w, uses).q.items == Interrupts(v, uses).q.items
    ensures Puts(w, uses) == Puts(v, uses) && Gets(w, uses) == Gets(v, uses)
    decreases |uses|
  {
    if uses != [] {
      SameItems(Interrupt(w, uses[0]), Interrupt(v, uses[0]), uses[1..]);
    }
  }

  // ----- the theorem -----

  /** Deferring `n` wake-ups of the tasks on `l` makes up for them in full. */
  predicate MadeUp(n: nat, l: seq<Item<Task>>) {
    n <= 127 || l == [] || |l| <= n - 255
  }

  lemma {:induction false} MadeUpIff(n: nat, l: seq<Item<Task>>)
    ensures var left := l[AtMost(n - 255, l)..];
            && left[Wakes(Shown(n), left)..] == l[AtMost(n - 255, l) + Wakes(Shown(n), left)..]
            && (AtMost(n - 255, l) + Wakes(Shown(n), left) == AtMost(n, l) <==> MadeUp(n, l))
  {
  }

  lemma {:induction false} FirstTwice(l: seq<Item<Task>>, a: nat, b: nat)
    requires a + b <= |l|
    ensures First(l, a + b) == First(l, a) + First(l[a..], b)
    decreases b
  {
    if b > 0 {
      FirstTwice(l, a, b - 1);
      FirstSnoc(l, a + b - 1);
      FirstSnoc(l[a..], b - 1);
    }
  }

  /** The unlock after `n` deferred wake-ups of `l`, in the list and in the tasks woken. */
  lemma {:induction false} UnlockedSide(l: seq<Item<Task>>, n: nat)
    ensures var a := AtMost(n - 255, l);
            var left, woken := l[a..], First(l, a);
            && (left[Wakes(Shown(n), left)..] == l[AtMost(n, l)..] <==> MadeUp(n, l))
            && (MadeUp(n, l) ==> woken + First(left, Wakes(Shown(n), left)) == First(l, AtMost(n, l)))
  {
    hide First;
    var a := AtMost(n - 255, l);
    var b := Wakes(Shown(n), l[a..]);
    MadeUpIff(n, l);
    FirstTwice(l, a, b);
    assert |l[a + b..]| == |l| - a - b && |l[AtMost(n, l)..]| == |l| - AtMost(n, l);
  }

  /**
   * The interrupt sends and receives between lock and unlock end in the queue, and wake the tasks,
   * that the same sequence on the unlocked queue does, exactly when neither count overflows past
   * its 127 while somebody is there to be woken (or overflows so far round that, taken for
   * unlocked, the queue has woken everybody).
   */
  lemma {:induction false} LockTransparentIff(q: QueueState, uses: seq<Use>)
    requires q.txLock == UNLOCKED && q.rxLock == UNLOCKED
    ensures var direct := Woken(q, {}, {});
            Unlock(Interrupts(Woken(Lock(q), {}, {}), uses)) == Interrupts(direct, uses) <==>
            MadeUp(Puts(direct, uses), q.receivers) && MadeUp(Gets(direct, uses), q.senders)
  {
    hide MadeUp, Interrupts, Direct, Deferred, Unlock;
    var direct, locked := Woken(q, {}, {}), Woken(Lock(q), {}, {});
    Beginning(q);
    SameItems(direct, locked, uses);
    RunCounts(q, direct, 0, 0, uses);
    RunCounts(q, locked, 0, 0, uses);
    UnlockedIff(q, Interrupts(locked, uses), Interrupts(direct, uses), Puts(direct, uses), Gets(direct, uses));
  }

  lemma {:induction false} UnlockedIff(q: QueueState, w: Woken, d: Woken, n: nat, g: nat)
    requires Deferred(q, w, n, g) && Direct(q, d, n, g) && w.q.items == d.q.items
    ensures Unlock(w) == d <==> MadeUp(n, q.receivers) && MadeUp(g, q.senders)
  {
    hide First, AtMost, Wakes, Shown, MadeUp;
    UnlockedSide(q.receivers, n);
    UnlockedSide(q.senders, g);
  }

  lemma {:induction false} Beginning(q: QueueState)
    requires q.txLock == UNLOCKED && q.rxLock == UNLOCKED
    ensures Direct(q, Woken(q, {}, {}), 0, 0) && Deferred(q, Woken(Lock(q), {}, {}), 0, 0)
  {
  }

  /** So it does whenever there are at most 127 uses. */
  lemma {:induction false} LockIsTransparent(q: QueueState, uses: seq<Use>)
    requires q.txLock == UNLOCKED && q.rxLock == UNLOCKED && |uses| <= 127
    ensures Unlock(Interrupts(Woken(Lock(q), {}, {}), uses)) == Interrupts(Woken(q, {}, {}), uses)
  {
    hide Interrupts, Unlock;
    AtMostAll(Woken(q, {}, {}), uses);
    LockTransparentIff(q, uses);
  }

  lemma {:induction false} AtMostAll(w: Woken, uses: seq<Use>)
    ensures Puts(w, uses) + Gets(w, uses) <= |uses|
    decreases |uses|
  {
    if uses != [] {
      AtMostAll(Interrupt(w, uses[0]), uses[1..]);
    }
  }

  // ----- one interrupt too many -----

  /** A counting queue of 200 with task 1 waiting. */
  ghost function Counting(): QueueState {
    QueueState(200, 0, [], [Item(1, 0)], [], UNLOCKED, UNLOCKED)
  }

  ghost function Sends(n: nat): seq<Use> {
    seq(n, _ => Put([], Back))
  }

  lemma {:induction false} AllSucceed(w: Woken, n: nat)
    requires w.q.itemSize == 0 && |w.q.items| + n <= w.q.length
    ensures Puts(w, Sends(n)) == n
    decreases n
  {
    if n > 0 {
      assert Sends(n)[1..] == Sends(n - 1);
      AllSucceed(Interrupt(w, Sends(n)[0]), n - 1);
    }
  }

  /** 127 sends under the lock wake the waiter, as on the unlocked queue; one more and it sleeps on. */
  lemma {:induction false} OneSendTooMany()
    ensures Unlock(Interrupts(Woken(Lock(Counting()), {}, {}), Sends(127))).receivers == {1}
    ensures Unlock(Interrupts(Woken(Lock(Counting()), {}, {}), Sends(128))).receivers == {}
    ensures Interrupts(Woken(Counting(), {}, {}), Sends(128)).receivers == {1}
  {
    hide Interrupts, Puts, First;
    var l := Counting().receivers;
    assert First(l, 0) == {} && First(l, 1) == {1} && First([], 0) == {} by {
      OneWaiter();
    }
    SendsDefer(127);
    SendsDefer(128);
  }

  lemma {:induction false} OneWaiter()
    ensures First([Item(1, 0)], 0) == {} && First([Item(1, 0)], 1) == {1} && First([], 0) == {}
  {
  }

  lemma {:induction false} SendsDefer(n: nat)
    requires n <= 200
    ensures exists g :: Direct(Counting(), Interrupts(Woken(Counting(), {}, {}), Sends(n)), n, g)
    ensures exists g :: Deferred(Counting(), Interrupts(Woken(Lock(Counting()), {}, {}), Sends(n)), n, g)
  {
    hide Direct, Deferred, Interrupts, Puts, Gets;
    var direct, locked := Woken(Counting(), {}, {}), Woken(Lock(Counting()), {}, {});
    Beginning(Counting());
    AllSucceed(direct, n);
    AllSucceed(locked, n);
    RunCounts(Counting(), direct, 0, 0, Sends(n));
    RunCounts(Counting(), locked, 0, 0, Sends(n));
  }
}
