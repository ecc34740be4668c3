/**
 * The scheduler's invariant: every live task's state item is on exactly one list, a ready task
 * is on the list of its priority, the bitmap mirrors the ready lists, the delayed lists hold
 * future wake times in order and the cached unblock time is never late.
 */
module KernelInvariant {
  import opened Ticks
  import opened Rings
  import opened Tasks
  import opened Kernel

  // ----- the partition -----

  ghost function One(b: bool): nat {
    if b then 1 else 0
  }

  ghost function Occurs<T>(s: seq<T>, t: T): nat {
    if s == [] then 0 else One(s[0] == t) + Occurs(s[1..], t)
  }

  lemma {:induction false} OccursConcat<T>(a: seq<T>, b: seq<T>, t: T)
    ensures Occurs(a + b, t) == Occurs(a, t) + Occurs(b, t)
  {
    if a == [] {
      assert a + b == b;
    } else {
      assert (a + b)[1..] == a[1..] + b;
      OccursConcat(a[1..], b, t);
    }
  }

  lemma {:induction false} OccursMember<T>(s: seq<T>, t: T)
    ensures Occurs(s, t) > 0 <==> t in s
  {
    if s != [] {
      OccursMember(s[1..], t);
      assert t in s <==> t == s[0] || t in s[1..];
    }
  }

  ghost function OccursReady(ready: seq<Ring<Task>>, t: Task): nat {
    if ready == [] then 0 else Occurs(ready[0].items, t) + OccursReady(ready[1..], t)
  }

  /** How many state lists hold `t`, counting repetitions. */
  ghost function Places(k: State, t: Task): nat {
    OccursReady(k.ready, t) + Occurs(Owners(k.delayed), t) + Occurs(Owners(k.overflow), t)
    + Occurs(k.suspended, t) + Occurs(k.terminating, t)
  }

  lemma {:induction false} OccursReadyUpdate(ready: seq<Ring<Task>>, p: nat, r: Ring<Task>, t: Task)
    requires p < |ready|
    ensures OccursReady(ready[p := r], t) == OccursReady(ready, t) - Occurs(ready[p].items, t) + Occurs(r.items, t)
  {
    if p == 0 {
      assert ready[p := r][1..] == ready[1..];
    } else {
      assert ready[p := r][1..] == ready[1..][p - 1 := r];
      OccursReadyUpdate(ready[1..], p - 1, r, t);
    }
  }

  lemma {:induction false} OccursReadyMember(ready: seq<Ring<Task>>, t: Task)
    ensures OccursReady(ready, t) > 0 <==> exists p :: 0 <= p < |ready| && t in ready[p].items
    ensures forall p :: 0 <= p < |ready| ==> OccursReady(ready, t) >= Occurs(ready[p].items, t)
  {
    if ready != [] {
      OccursReadyMember(ready[1..], t);
      OccursMember(ready[0].items, t);
      forall p | 0 < p < |ready| ensures OccursReady(ready, t) >= Occurs(ready[p].items, t) {
        assert ready[p] == ready[1..][p - 1];
      }
      if OccursReady(ready[1..], t) > 0 {
        var p :| 0 <= p < |ready[1..]| && t in ready[1..][p].items;
        assert t in ready[p + 1].items;
      }
      if exists p :: 0 < p < |ready| && t in ready[p].items {
        var p :| 0 < p < |ready| && t in ready[p].items;
        assert t in ready[1..][p - 1].items;
      }
    }
  }

  lemma {:induction false} OccursInsert<T>(s: seq<T>, i: nat, t: T, u: T)
    requires i <= |s|
    ensures Occurs(s[..i] + [t] + s[i..], u) == Occurs(s, u) + One(u == t)
  {
    OccursConcat(s[..i] + [t], s[i..], u);
    OccursConcat(s[..i], [t], u);
    OccursConcat(s[..i], s[i..], u);
    assert s == s[..i] + s[i..];
  }

  lemma {:induction false} OccursDrop<T>(s: seq<T>, t: T, u: T)
    ensures Occurs(Drop(s, t), u) == Occurs(s, u) - One(u == t && t in s)
  {
    if t in s {
      var i := IndexOf(s, t);
      OccursConcat(s[..i], s[i + 1..], u);
      OccursConcat(s[..i], [t] + s[i + 1..], u);
      OccursConcat([t], s[i + 1..], u);
      assert s == s[..i] + ([t] + s[i + 1..]);
    }
  }

  lemma {:induction false} DropItemOwners(l: seq<Item<Task>>, t: Task)
    ensures Owners(DropItem(l, t)) == Drop(Owners(l), t)
  {
  }

  lemma {:induction false} InsertItemOwners(l: seq<Item<Task>>, x: Item<Task>)
    ensures var p := Position(l, x.value);
            Owners(InsertSorted(l, x)) == Owners(l)[..p] + [x.owner] + Owners(l)[p..]
  {
  }

  // ----- the invariant -----

  /** Everyone with a TCB is on exactly one list, except that the tasks in `out` are on none. */
  ghost predicate Partitioned(k: State, out: set<Task>) {
    forall t {:trigger Places(k, t)} :: Places(k, t) + One(t in out) == One(t in k.tcbs)
  }

  ghost predicate OwnLists(k: State)
    requires Shaped(k)
  {
    forall p, t {:trigger t in k.ready[p].items} ::
      0 <= p < PRIORITIES && t in k.ready[p].items ==> t in k.tcbs && k.tcbs[t].priority == p
  }

  ghost predicate BitmapExact(k: State)
    requires Shaped(k)
  {
    forall p: nat :: p in k.bitmap <==> p < PRIORITIES && k.ready[p].items != []
  }

  /** The delayed lists are in wake order, and this epoch's list holds no time before `low`. */
  ghost predicate WakeTimesFrom(k: State, low: nat) {
    && Sorted(k.delayed) && Sorted(k.overflow)
    && (forall i :: 0 <= i < |k.delayed| ==> low <= k.delayed[i].value <= MAX_DELAY)
    && (forall i :: 0 <= i < |k.overflow| ==> k.overflow[i].value <= MAX_DELAY)
  }

  ghost predicate CacheSound(k: State) {
    k.delayed != [] ==> k.nextUnblock <= k.delayed[0].value
  }

  ghost predicate Asleep(k: State, t: Task) {
    t in k.tcbs && (t in Owners(k.delayed) || t in Owners(k.overflow) || t in k.suspended)
  }

  /** `t` is on the ready list of its priority. */
  ghost predicate OnOwnReadyList(k: State, t: Task) {
    |k.ready| == PRIORITIES && t in k.tcbs && Prio(k, t) < PRIORITIES && IsReady(k, t)
  }

  /** A task on an event list or on the pending-ready list is asleep, and on only one of the two. */
  ghost predicate EventsAsleep(k: State) {
    && (forall t :: t in k.eventWaiters || t in k.pending ==> Asleep(k, t) && !k.tcbs[t].awaitsNotification)
    && (forall t :: t in k.pending ==> t !in k.eventWaiters && Occurs(k.pending, t) == 1)
  }

  ghost predicate Counted(k: State) {
    && k.taskCount == |k.tcbs| && k.deletedCount == |k.terminating|
    && (k.suspensions == 0 ==> k.pending == [] && k.pendedTicks == 0)
  }

  /** The invariant while the tasks in `out` are on no list and wake times from `low` on are listed. */
  ghost predicate InvFrom(k: State, out: set<Task>, low: nat) {
    && Shaped(k) && Partitioned(k, out)
    && OwnLists(k) && BitmapExact(k)
    && WakeTimesFrom(k, low) && CacheSound(k)
    && EventsAsleep(k) && Counted(k)
    && IDLE in k.tcbs && (IsReady(k, IDLE) || IDLE in out)
  }

  ghost predicate InvExcept(k: State, out: set<Task>) {
    InvFrom(k, out, k.tick + 1)
  }

  /** Between steps everyone is on a list and every listed wake time is still to come. */
  ghost predicate Inv(k: State) {
    InvExcept(k, {})
  }

  /** The partition, read off: a live task is on exactly one list, and ready only on its own. */
  lemma {:induction false} OnExactlyOneList(k: State, out: set<Task>, t: Task, low: nat)
    requires InvFrom(k, out, low)
    ensures t in k.tcbs && t !in out ==> Places(k, t) == 1
    ensures t in k.tcbs && IsReady(k, t) ==> !Asleep(k, t) && t !in k.terminating
    ensures t in k.tcbs && !IsReady(k, t) && t !in out ==> Asleep(k, t) != (t in k.terminating)
    ensures t !in k.tcbs || t in out ==> t !in Owners(k.delayed) && t !in Owners(k.overflow)
                                         && t !in k.suspended && t !in k.terminating
    ensures t !in k.tcbs || t in out ==> forall p :: 0 <= p < PRIORITIES ==> t !in k.ready[p].items
  {
    OccursReadyMember(k.ready, t);
    OccursMember(Owners(k.delayed), t);
    OccursMember(Owners(k.overflow), t);
    OccursMember(k.suspended, t);
    OccursMember(k.terminating, t);
    assert Places(k, t) + One(t in out) == One(t in k.tcbs);
  }

  lemma {:induction false} MembersAreLive(k: State, out: set<Task>, low: nat)
    requires InvFrom(k, out, low)
    ensures Known(k)
  {
    forall i | 0 <= i < |k.delayed| ensures k.delayed[i].owner in k.tcbs {
      assert Owners(k.delayed)[i] in Owners(k.delayed);
      OnExactlyOneList(k, out, k.delayed[i].owner, low);
    }
    forall i | 0 <= i < |k.overflow| ensures k.overflow[i].owner in k.tcbs {
      assert Owners(k.overflow)[i] in Owners(k.overflow);
      OnExactlyOneList(k, out, k.overflow[i].owner, low);
    }
  }

  // ----- the list primitives keep it -----

  lemma {:induction false} UnreadyPlaces(k: State, p: nat, t: Task, u: Task)
    requires Shaped(k) && p < PRIORITIES && t in k.ready[p].items
    ensures Places(Unready(k, p, t), u) == Places(k, u) - One(u == t)
  {
    var i := IndexOf(k.ready[p].items, t);
    var r := RemoveAt(k.ready[p], i);
    assert r.items == Drop(k.ready[p].items, t);
    OccursDrop(k.ready[p].items, t, u);
    OccursReadyUpdate(k.ready, p, r, u);
  }

  lemma {:induction false} TakeOutPlaces(k: State, t: Task, u: Task)
    requires Inv(k) && t in k.tcbs
    ensures Places(TakeOut(k, t), u) == Places(k, u) - One(u == t)
  {
    OnExactlyOneList(k, {}, t, k.tick + 1);
    if IsReady(k, t) {
      UnreadyPlaces(k, Prio(k, t), t, u);
    } else {
      DropItemOwners(k.delayed, t);
      DropItemOwners(k.overflow, t);
      OccursDrop(Owners(k.delayed), t, u);
      OccursDrop(Owners(k.overflow), t, u);
      OccursDrop(k.suspended, t, u);
      OccursDrop(k.terminating, t, u);
      OccursReadyMember(k.ready, t);
    }
  }

  lemma {:induction false} PutReadyPlaces(k: State, t: Task, u: Task)
    requires Shaped(k) && t in k.tcbs
    ensures Places(PutReady(k, t), u) == Places(k, u) + One(u == t)
  {
    var p := Prio(k, t);
    var c := if k.ready[p].cursor == 0 then |k.ready[p].items| else k.ready[p].cursor - 1;
    OccursInsert(k.ready[p].items, c, t, u);
    OccursReadyUpdate(k.ready, p, InsertEnd(k.ready[p], t), u);
  }

  lemma {:induction false} RemoveIndexOrder(l: seq<Item<Task>>, i: nat)
    requires Sorted(l) && i < |l|
    ensures var l' := l[..i] + l[i + 1..];
            && Sorted(l') && (forall x :: x in l' ==> x in l) && (l' != [] ==> l[0].value <= l'[0].value)
  {
    var l' := l[..i] + l[i + 1..];
    assert forall j :: 0 <= j < |l'| ==> l'[j] == if j < i then l[j] else l[j + 1];
  }

  /** Removing an item keeps a delayed list in order and does not move its head closer. */
  lemma {:induction false} DropItemOrder(l: seq<Item<Task>>, t: Task)
    requires Sorted(l)
    ensures Sorted(DropItem(l, t)) && forall x :: x in DropItem(l, t) ==> x in l
    ensures DropItem(l, t) != [] ==> l != [] && l[0].value <= DropItem(l, t)[0].value
  {
    if t in Owners(l) {
      RemoveIndexOrder(l, IndexOf(Owners(l), t));
    }
  }

  lemma {:induction false} DropMember<T>(s: seq<T>, t: T, u: T)
    ensures u != t ==> (u in Drop(s, t) <==> u in s)
  {
    OccursDrop(s, t, u);
    OccursMember(s, u);
    OccursMember(Drop(s, t), u);
  }

  /** Taking a state item off its list leaves everyone else where they were. */
  lemma {:induction false} TakeOutFrame(k: State, t: Task, u: Task)
    requires Inv(k) && t in k.tcbs && u in k.tcbs && u != t
    ensures Asleep(TakeOut(k, t), u) == Asleep(k, u) && IsReady(TakeOut(k, t), u) == IsReady(k, u)
  {
    if IsReady(k, t) {
      var p := Prio(k, t);
      assert TakeOut(k, t).ready[p].items == Drop(k.ready[p].items, t);
      DropMember(k.ready[p].items, t, u);
    } else {
      DropItemOwners(k.delayed, t);
      DropItemOwners(k.overflow, t);
      DropMember(Owners(k.delayed), t, u);
      DropMember(Owners(k.overflow), t, u);
      DropMember(k.suspended, t, u);
    }
  }

  lemma {:induction false} ShrunkDelays(k: State, k': State, low: nat)
    requires WakeTimesFrom(k, low) && CacheSound(k)
    requires k'.nextUnblock == k.nextUnblock && Sorted(k'.delayed) && Sorted(k'.overflow)
    requires (forall x :: x in k'.delayed ==> x in k.delayed) && (forall x :: x in k'.overflow ==> x in k.overflow)
    requires k'.delayed != [] ==> k.delayed != [] && k.delayed[0].value <= k'.delayed[0].value
    ensures WakeTimesFrom(k', low) && CacheSound(k')
  {
    forall i | 0 <= i < |k'.delayed| ensures low <= k'.delayed[i].value <= MAX_DELAY {
      assert k'.delayed[i] in k.delayed;
    }
    forall i | 0 <= i < |k'.overflow| ensures k'.overflow[i].value <= MAX_DELAY {
      assert k'.overflow[i] in k.overflow;
    }
  }

  lemma {:induction false} UnreadyLists(k: State, p: nat, t: Task)
    requires Shaped(k) && OwnLists(k) && BitmapExact(k) && p < PRIORITIES && t in k.ready[p].items
    ensures var k' := Unready(k, p, t); Shaped(k') && OwnLists(k') && BitmapExact(k')
  {
    var k' := Unready(k, p, t);
    var i := IndexOf(k.ready[p].items, t);
    assert k'.ready[p].items == k.ready[p].items[..i] + k.ready[p].items[i + 1..];
    assert forall u :: u in k'.ready[p].items ==> u in k.ready[p].items;
  }

  /** A state item leaves its list. */
  lemma {:induction false} LeaveInv(k: State, k': State, t: Task, low: nat)
    requires InvFrom(k, {}, low) && t in k.tcbs && t !in k.eventWaiters && t !in k.pending
    requires OnlyMoves(k, k') && |k'.terminating| == |k.terminating|
    requires Shaped(k') && OwnLists(k') && BitmapExact(k') && WakeTimesFrom(k', low) && CacheSound(k')
    requires forall u :: Places(k', u) == Places(k, u) - One(u == t)
    requires forall u :: u in k.tcbs && u != t ==> Asleep(k', u) == Asleep(k, u) && IsReady(k', u) == IsReady(k, u)
    ensures InvFrom(k', {t}, low)
  {
    forall u ensures Places(k', u) + One(u in {t}) == One(u in k'.tcbs) {
      assert Places(k, u) + One(u in {}) == One(u in k.tcbs);
    }
  }

  /** A state item that was on no list joins one. */
  lemma {:induction false} JoinInv(k: State, k': State, t: Task, low: nat)
    requires InvFrom(k, {t}, low) && t in k.tcbs
    requires OnlyMoves(k, k') && |k'.terminating| == |k.terminating|
    requires Shaped(k') && OwnLists(k') && BitmapExact(k') && WakeTimesFrom(k', low) && CacheSound(k')
    requires forall u :: Places(k', u) == Places(k, u) + One(u == t)
    requires forall u :: Asleep(k, u) ==> Asleep(k', u)
    requires IsReady(k', IDLE)
    ensures InvFrom(k', {}, low)
  {
    forall u ensures Places(k', u) + One(u in {}) == One(u in k'.tcbs) {
      assert Places(k, u) + One(u in {t}) == One(u in k.tcbs);
    }
  }

  lemma {:induction false} TakeOutLists(k: State, t: Task)
    requires Inv(k) && t in k.tcbs
    ensures var k' := TakeOut(k, t); Shaped(k') && OwnLists(k') && BitmapExact(k')
  {
    if IsReady(k, t) {
      UnreadyLists(k, Prio(k, t), t);
    } else {
      assert TakeOut(k, t).ready == k.ready;
    }
  }

  lemma {:induction false} TakeOutDelays(k: State, t: Task)
    requires Inv(k) && t in k.tcbs
    ensures WakeTimesFrom(TakeOut(k, t), k.tick + 1) && CacheSound(TakeOut(k, t))
  {
    hide DropItem, Sorted, Partitioned, OwnLists, BitmapExact, EventsAsleep;
    if !IsReady(k, t) {
      DropItemOrder(k.delayed, t);
      DropItemOrder(k.overflow, t);
      ShrunkDelays(k, TakeOut(k, t), k.tick + 1);
    }
  }

  lemma {:induction false} TakeOutInv(k: State, t: Task)
    requires Inv(k) && t in k.tcbs && t !in k.eventWaiters && t !in k.pending && t !in k.terminating
    ensures InvExcept(TakeOut(k, t), {t})
  {
    var k' := TakeOut(k, t);
    TakeOutLists(k, t);
    TakeOutDelays(k, t);
    forall u ensures Places(k', u) == Places(k, u) - One(u == t) {
      TakeOutPlaces(k, t, u);
    }
    forall u | u in k.tcbs && u != t ensures Asleep(k', u) == Asleep(k, u) && IsReady(k', u) == IsReady(k, u) {
      TakeOutFrame(k, t, u);
    }
    LeaveInv(k, k', t, k.tick + 1);
  }

  lemma {:induction false} InsertEndMember(r: Ring<Task>, t: Task)
    requires r.Valid()
    ensures forall u :: u in InsertEnd(r, t).items <==> u == t || u in r.items
  {
    var c := if r.cursor == 0 then |r.items| else r.cursor - 1;
    assert r.items == r.items[..c] + r.items[c..];
    assert InsertEnd(r, t).items[c] == t;
  }

  lemma {:induction false} PutReadyLists(k: State, t: Task)
    requires Shaped(k) && OwnLists(k) && BitmapExact(k) && t in k.tcbs
    ensures var k' := PutReady(k, t); Shaped(k') && OwnLists(k') && BitmapExact(k')
    ensures forall u :: u in k.tcbs ==> (IsReady(PutReady(k, t), u) <==> u == t || IsReady(k, u))
  {
    InsertEndMember(k.ready[Prio(k, t)], t);
    assert t in InsertEnd(k.ready[Prio(k, t)], t).items;
  }

  lemma {:induction false} PutReadyInv(k: State, t: Task, low: nat)
    requires InvFrom(k, {t}, low) && t in k.tcbs
    ensures InvFrom(PutReady(k, t), {}, low) && IsReady(PutReady(k, t), t)
  {
    PutReadyLists(k, t);
    forall u ensures Places(PutReady(k, t), u) == Places(k, u) + One(u == t) {
      PutReadyPlaces(k, t, u);
    }
    JoinInv(k, PutReady(k, t), t, low);
  }

  ghost predicate SameLists(k: State, k': State) {
    && k'.ready == k.ready && k'.bitmap == k.bitmap && k'.delayed == k.delayed && k'.overflow == k.overflow
    && k'.suspended == k.suspended && k'.terminating == k.terminating
  }

  /** Steps that touch no state list and no priority. */
  lemma {:induction false} InvFrame(k: State, k': State, out: set<Task>, low: nat)
    requires InvFrom(k, out, low) && SameLists(k, k')
    requires k'.tcbs.Keys == k.tcbs.Keys && k'.current in k.tcbs
    requires forall t :: t in k.tcbs ==> k'.tcbs[t].priority == k.tcbs[t].priority && k'.tcbs[t].base < PRIORITIES
    requires CacheSound(k') && EventsAsleep(k') && Counted(k')
    ensures InvFrom(k', out, low)
  {
    forall u ensures Places(k', u) == Places(k, u) {
    }
  }

  lemma {:induction false} DropEventInv(k: State, t: Task, low: nat)
    requires InvFrom(k, {}, low)
    ensures InvFrom(DropEvent(k, t), {}, low)
    ensures t !in DropEvent(k, t).eventWaiters && t !in DropEvent(k, t).pending
  {
    var k' := DropEvent(k, t);
    forall u ensures u in k'.pending ==> u != t && u in k.pending && Occurs(k'.pending, u) == Occurs(k.pending, u) {
      OccursDrop(k.pending, t, u);
      OccursMember(k'.pending, u);
      OccursMember(k.pending, u);
    }
    InvFrame(k, k', {}, low);
  }

  lemma {:induction false} MakeReadyInv(k: State, t: Task)
    requires Inv(k) && t in k.tcbs && t !in k.terminating
    ensures Inv(MakeReady(k, t)) && IsReady(MakeReady(k, t), t)
  {
    hide InvFrom;
    DropEventInv(k, t, k.tick + 1);
    TakeOutInv(DropEvent(k, t), t);
    PutReadyInv(TakeOut(DropEvent(k, t), t), t, k.tick + 1);
  }

  lemma {:induction false} InsertedOwners(l: seq<Item<Task>>, x: Item<Task>, u: Task)
    ensures Occurs(Owners(InsertSorted(l, x)), u) == Occurs(Owners(l), u) + One(u == x.owner)
    ensures u in Owners(InsertSorted(l, x)) <==> u == x.owner || u in Owners(l)
  {
    InsertItemOwners(l, x);
    OccursInsert(Owners(l), Position(l, x.value), x.owner, u);
    OccursMember(Owners(l), u);
    OccursMember(Owners(InsertSorted(l, x)), u);
  }

  lemma {:induction false} InsertedOrder(l: seq<Item<Task>>, x: Item<Task>)
    requires Sorted(l)
    ensures Sorted(InsertSorted(l, x)) && InsertSorted(l, x) != []
    ensures InsertSorted(l, x)[0].value == if l == [] || x.value < l[0].value then x.value else l[0].value
    ensures forall y :: y in InsertSorted(l, x) <==> y == x || y in l
  {
    hide Sorted;
    InsertSortedStable(l, x);
    InsertSortedAdds(l, x);
    forall y ensures y in InsertSorted(l, x) <==> y == x || y in l {
      assert y in InsertSorted(l, x) <==> y in multiset(InsertSorted(l, x));
    }
  }

  /** What sorted insertion does to a delayed list. */
  lemma {:induction false} InsertedDelay(l: seq<Item<Task>>, x: Item<Task>, l': seq<Item<Task>>)
    requires Sorted(l) && l' == InsertSorted(l, x)
    ensures Sorted(l') && l' != []
    ensures l'[0].value == if l == [] || x.value < l[0].value then x.value else l[0].value
    ensures forall y :: y in l' <==> y == x || y in l
    ensures forall u :: u in Owners(l') <==> u == x.owner || u in Owners(l)
    ensures forall u :: Occurs(Owners(l'), u) == Occurs(Owners(l), u) + One(u == x.owner)
  {
    InsertedOrder(l, x);
    forall u
      ensures Occurs(Owners(l'), u) == Occurs(Owners(l), u) + One(u == x.owner)
      ensures u in Owners(l') <==> u == x.owner || u in Owners(l)
    {
      InsertedOwners(l, x, u);
    }
  }

  lemma {:induction false} PutSuspendedInv(k: State, t: Task)
    requires InvExcept(k, {t}) && t in k.tcbs && t != IDLE
    ensures Inv(k.(suspended := k.suspended + [t]))
  {
    var k' := k.(suspended := k.suspended + [t]);
    forall u ensures Places(k', u) == Places(k, u) + One(u == t) {
      OccursConcat(k.suspended, [t], u);
    }
    JoinInv(k, k', t, k.tick + 1);
  }

  lemma {:induction false} PutDelayedInv(k: State, t: Task, wake: Tick)
    requires InvExcept(k, {t}) && t in k.tcbs && t != IDLE && k.tick < wake
    ensures Inv(k.(delayed := InsertSorted(k.delayed, Item(t, wake)),
                   nextUnblock := if wake < k.nextUnblock then wake else k.nextUnblock))
  {
    var k' := k.(delayed := InsertSorted(k.delayed, Item(t, wake)),
                 nextUnblock := if wake < k.nextUnblock then wake else k.nextUnblock);
    InsertedDelay(k.delayed, Item(t, wake), k'.delayed);
    forall i | 0 <= i < |k'.delayed| ensures k.tick < k'.delayed[i].value <= MAX_DELAY {
      assert k'.delayed[i] in k'.delayed;
    }
    forall u ensures Places(k', u) == Places(k, u) + One(u == t) {
    }
    JoinInv(k, k', t, k.tick + 1);
  }

  lemma {:induction false} PutOverflowInv(k: State, t: Task, wake: Tick)
    requires InvExcept(k, {t}) && t in k.tcbs && t != IDLE
    ensures Inv(k.(overflow := InsertSorted(k.overflow, Item(t, wake))))
  {
    var k' := k.(overflow := InsertSorted(k.overflow, Item(t, wake)));
    InsertedDelay(k.overflow, Item(t, wake), k'.overflow);
    forall i | 0 <= i < |k'.overflow| ensures k'.overflow[i].value <= MAX_DELAY {
      assert k'.overflow[i] in k'.overflow;
    }
    forall u ensures Places(k', u) == Places(k, u) + One(u == t) {
    }
    JoinInv(k, k', t, k.tick + 1);
  }

  lemma {:induction false} PutToSleepInv(k: State, t: Task, ticks: Tick, indefinitely: bool)
    requires InvExcept(k, {t}) && t in k.tcbs && t != IDLE && ticks > 0
    ensures Inv(PutToSleep(k, t, ticks, indefinitely))
  {
    hide InvFrom, Wrap, InsertSorted;
    var wake := Wrap(k.tick + ticks);
    if ticks == MAX_DELAY && indefinitely {
      PutSuspendedInv(k, t);
    } else if wake < k.tick {
      PutOverflowInv(k, t, wake);
    } else {
      assert wake != k.tick by {
        WrapOnce(k.tick, ticks);
      }
      PutDelayedInv(k, t, wake);
    }
  }
}
