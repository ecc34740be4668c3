/**
 * The two delayed lists of tasks.c as pointer structures: the tick handler and the blocking call on
 * real lists do to the sleeping tasks what the scheduler's functions do to sequences.
 */
module DelayedLists {
  import opened Ticks
  import opened Rings
  import opened Tasks
  import opened Kernel
  import opened Lists

  /** The part of the scheduler's state that says who sleeps until when. */
  datatype Sleepers = Sleepers(delayed: seq<Item<Task>>, overflow: seq<Item<Task>>, tick: Tick, overflows: nat,
                               nextUnblock: Tick)

  function Sleeping(k: State): Sleepers {
    Sleepers(k.delayed, k.overflow, k.tick, k.overflows, k.nextUnblock)
  }

  // ----- one list -----

  /** Owners and values of the items of a list, in link order. */
  ghost function Contents(l: List): (s: seq<Item<Task>>)
    requires |l.ring| > 0
    reads l, l.ring
    ensures |s| == |l.ring| - 1
    ensures forall i :: 0 <= i < |s| ==> s[i] == Item(l.ring[i + 1].owner, l.ring[i + 1].value)
  {
    seq(|l.ring| - 1,
        i requires 0 <= i < |l.ring| - 1 reads l, l.ring => Item(l.ring[i + 1].owner, l.ring[i + 1].value))
  }

  lemma {:induction false} SamePosition<S, T>(a: seq<Item<S>>, b: seq<Item<T>>, v: nat)
    requires |a| == |b| && forall i :: 0 <= i < |a| ==> a[i].value == b[i].value
    ensures Position(a, v) == Position(b, v)
  {
    PositionUnique(a, v, Position(b, v));
  }

  /** A list whose items are `items` behind its end marker. */
  ghost predicate Holds(l: List, items: seq<ListItem>)
    reads l
  {
    |l.ring| == |items| + 1 && l.ring[0] == l.end && l.ring[1..] == items
  }

  /** vListInsert, seen through owners and values. */
  method InsertInto(l: List, x: ListItem)
    requires l.Valid() && x !in l.ring
    modifies l, l.ring`next, l.ring`previous, x`next, x`previous, x`container
    ensures l.Valid() && Contents(l) == InsertSorted(old(Contents(l)), Item(x.owner, x.value))
    ensures forall i :: 0 <= i < |l.ring| ==> l.ring[i] in old(l.ring) || l.ring[i] == x
  {
    hide Linked, IsSplice, Position;
    ghost var was, items, p := Contents(l), l.View().items, Position(Contents(l), x.value);
    assert Holds(l, items);
    SamePosition(l.Values(), was, x.value);
    l.Insert(x);
    assert Holds(l, items[..p] + [x] + items[p..]);
    assert Contents(l) == was[..p] + [Item(x.owner, x.value)] + was[p..];
    SplicedMembers(old(l.ring), l.ring, items, p, x);
  }

  lemma {:induction false} SplicedMembers<T>(was: seq<T>, ring: seq<T>, items: seq<T>, p: nat, x: T)
    requires |was| == |items| + 1 && was[1..] == items && p <= |items|
    requires |ring| == |was| + 1 && ring[0] == was[0] && ring[1..] == items[..p] + [x] + items[p..]
    ensures forall i :: 0 <= i < |ring| ==> ring[i] in was || ring[i] == x
  {
    forall i | 0 < i < |ring| ensures ring[i] in was || ring[i] == x {
      assert ring[i] == ring[1..][i - 1];
      assert i - 1 < p ==> ring[i] == was[i];
      assert i - 1 > p ==> ring[i] == items[i - 2] == was[i - 1];
    }
  }

  method RemoveHead(l: List) returns (owner: Task)
    requires l.Valid() && l.numberOfItems > 0
    modifies l, l.ring`next, l.ring`previous, l.ring`container
    ensures l.Valid() && Contents(l) == old(Contents(l))[1..] && owner == old(Contents(l))[0].owner
    ensures forall i :: 0 <= i < |l.ring| ==> l.ring[i] in old(l.ring)
  {
    assert Joined(l.ring, 0);
    var x := l.end.next;
    owner := x.owner;
    l.Detach(x, 1);
    assert l.ring == [l.end] + l.View().items;
  }

  // ----- due tasks -----

  /** `left` is the list `l` without a prefix of items due at `tick`, whose owners are `woken`. */
  ghost predicate TookDue(l: seq<Item<Task>>, tick: Tick, woken: seq<Task>, left: seq<Item<Task>>) {
    && |woken| <= |l| && left == l[|woken|..]
    && (forall i :: 0 <= i < |woken| ==> l[i].value <= tick && l[i].owner == woken[i])
  }

  lemma {:induction false} TookNothing(l: seq<Item<Task>>, tick: Tick)
    ensures TookDue(l, tick, [], l)
  {
  }

  lemma {:induction false} TakeAnother(l: seq<Item<Task>>, tick: Tick, woken: seq<Task>, left: seq<Item<Task>>)
    requires TookDue(l, tick, woken, left) && left != [] && left[0].value <= tick
    ensures TookDue(l, tick, woken + [left[0].owner], left[1..])
  {
  }

  /** The scheduler's expiry takes exactly the due prefix. */
  lemma {:induction false} ExpireTakesDue(k: State, woken: seq<Task>, left: seq<Item<Task>>)
    requires Known(k) && TookDue(k.delayed, k.tick, woken, left) && (left != [] ==> k.tick < left[0].value)
    ensures Sleeping(Expire(k).0) == Sleeping(k).(delayed := left, nextUnblock := Wrap(HeadValue(left)))
    decreases |woken|
  {
    hide InsertEnd, Wrap;
    if woken != [] {
      ExpireTakesDue(WakeHead(k), woken[1..], left);
    }
  }

  lemma {:induction false} TickTakesDue(k: State, woken: seq<Task>, left: seq<Item<Task>>)
    requires Known(k)
    requires var k' := AdvanceTick(k);
             k'.tick >= k'.nextUnblock ==>
               TookDue(k'.delayed, k'.tick, woken, left) && (left != [] ==> k'.tick < left[0].value)
    ensures var s := Sleeping(AdvanceTick(k));
            Sleeping(TickNow(k).0) ==
            if s.tick < s.nextUnblock then s else s.(delayed := left, nextUnblock := Wrap(HeadValue(left)))
  {
    hide Wrap, Expire;
    var k' := AdvanceTick(k);
    assert Known(k');
    if k'.tick >= k'.nextUnblock {
      ExpireTakesDue(k', woken, left);
    }
  }

  class Delays {
    var delayed: List
    var overflow: List
    var tick: Tick
    var overflows: nat
    var nextUnblock: Tick

    ghost predicate Valid()
      reads this, delayed, overflow, delayed.ring, overflow.ring
    {
      && delayed != overflow && delayed.Valid() && overflow.Valid()
      && (forall i, j :: 0 <= i < |delayed.ring| && 0 <= j < |overflow.ring| ==> delayed.ring[i] != overflow.ring[j])
    }

    ghost function View(): Sleepers
      requires Valid()
      reads this, delayed, overflow, delayed.ring, overflow.ring
    {
      Sleepers(Contents(delayed), Contents(overflow), tick, overflows, nextUnblock)
    }

    /** prvInitialiseTaskLists and the clock of a started scheduler. */
    constructor ()
      ensures Valid() && fresh(delayed) && fresh(overflow) && fresh(delayed.ring) && fresh(overflow.ring)
      ensures View() == Sleepers([], [], 0, 0, MAX_DELAY)
    {
      delayed := new List();
      overflow := new List();
      tick, overflows, nextUnblock := 0, 0, MAX_DELAY;
    }

    method InsertDelayed(x: ListItem)
      requires Valid() && x !in delayed.ring && x !in overflow.ring
      modifies delayed, delayed.ring`next, delayed.ring`previous, x`next, x`previous, x`container
      ensures Valid()
      ensures View() == old(View()).(delayed := InsertSorted(old(View()).delayed, Item(x.owner, x.value)))
    {
      hide InsertSorted, Linked;
      InsertInto(delayed, x);
    }

    method InsertOverflow(x: ListItem)
      requires Valid() && x !in delayed.ring && x !in overflow.ring
      modifies overflow, overflow.ring`next, overflow.ring`previous, x`next, x`previous, x`container
      ensures Valid()
      ensures View() == old(View()).(overflow := InsertSorted(old(View()).overflow, Item(x.owner, x.value)))
    {
      hide InsertSorted, Linked;
      InsertInto(overflow, x);
    }

    /** The delaying branch of prvAddCurrentTaskToDelayedList. */
    method Sleep(x: ListItem, ticks: Tick, ghost k: State)
      requires Valid() && x !in delayed.ring && x !in overflow.ring && Sleeping(k) == View()
      modifies `nextUnblock, delayed, overflow, delayed.ring, overflow.ring, x
      ensures Valid() && x.owner == old(x.owner)
      ensures View() == Sleeping(PutToSleep(k, x.owner, ticks, false))
    {
      hide InsertSorted, Wrap, Linked;
      var wake := Wrap(tick + ticks);
      x.value := wake;
      if wake < tick {
        InsertOverflow(x);
      } else {
        InsertDelayed(x);
        if wake < nextUnblock {
          nextUnblock := wake;
        }
      }
    }

    /** prvResetNextTaskUnblockTime. */
    method ResetNextUnblock()
      requires Valid()
      modifies `nextUnblock
      ensures Valid() && View() == old(View()).(nextUnblock := Wrap(HeadValue(old(View()).delayed)))
    {
      if delayed.numberOfItems == 0 {
        nextUnblock := MAX_DELAY;
      } else {
        assert Joined(delayed.ring, 0);
        nextUnblock := delayed.end.next.value;
      }
    }

    /** The tick count moves on, with taskSWITCH_DELAYED_LISTS when it wraps. */
    method MoveTick(ghost k: State)
      requires Valid() && Sleeping(k) == View()
      modifies this
      ensures Valid() && View() == Sleeping(AdvanceTick(k))
      ensures {delayed, overflow} == old({delayed, overflow})
    {
      hide Wrap;
      tick := Wrap(tick + 1);
      if tick == 0 {
        delayed, overflow := overflow, delayed;
        overflows := overflows + 1;
        ResetNextUnblock();
      }
    }

    /** The test of the unblocking loop: the list has a head and it is due. */
    method HeadDue() returns (due: bool)
      requires Valid()
      ensures due <==> Contents(delayed) != [] && Contents(delayed)[0].value <= tick
    {
      if delayed.numberOfItems == 0 {
        return false;
      }
      assert Joined(delayed.ring, 0);
      return delayed.end.next.value <= tick;
    }

    method UnblockHead() returns (t: Task)
      requires Valid() && Contents(delayed) != []
      modifies delayed, delayed.ring
      ensures Valid() && forall i :: 0 <= i < |delayed.ring| ==> delayed.ring[i] in old(delayed.ring)
      ensures View() == old(View()).(delayed := old(View()).delayed[1..]) && t == old(View()).delayed[0].owner
    {
      hide Linked;
      t := RemoveHead(delayed);
    }

    /** The unblocking loop of xTaskIncrementTick. */
    method UnblockDue() returns (woken: seq<Task>)
      requires Valid()
      modifies `nextUnblock, delayed, delayed.ring
      ensures Valid()
      ensures TookDue(old(View()).delayed, tick, woken, View().delayed)
      ensures View().delayed != [] ==> tick < View().delayed[0].value
      ensures View() == old(View()).(delayed := View().delayed, nextUnblock := Wrap(HeadValue(View().delayed)))
    {
      hide Valid, Wrap, Contents, TookDue;
      ghost var was := View();
      woken := [];
      TookNothing(was.delayed, tick);
      var due := HeadDue();
      while due
        invariant Valid() && TookDue(was.delayed, tick, woken, View().delayed)
        invariant View() == was.(delayed := View().delayed)
        invariant due <==> View().delayed != [] && View().delayed[0].value <= tick
        invariant forall i :: 0 <= i < |delayed.ring| ==> delayed.ring[i] in old(delayed.ring)
        decreases |View().delayed|
      {
        TakeAnother(was.delayed, tick, woken, View().delayed);
        var t := UnblockHead();
        woken := woken + [t];
        due := HeadDue();
      }
      ResetNextUnblock();
    }

    /** xTaskIncrementTick with the scheduler running, as far as the sleepers go. */
    method ProcessTick(ghost k: State) returns (woken: seq<Task>)
      requires Valid() && Known(k) && Sleeping(k) == View()
      modifies this, delayed, overflow, delayed.ring, overflow.ring
      ensures Valid() && View() == Sleeping(TickNow(k).0)
      ensures TookDue(AdvanceTick(k).delayed, tick, woken, View().delayed)
    {
      hide Valid, Contents, AdvanceTick, TickNow, Known, TookDue;
      woken := [];
      MoveTick(k);
      TookNothing(View().delayed, tick);
      if tick >= nextUnblock {
        woken := UnblockDue();
      }
      TickTakesDue(k, woken, View().delayed);
    }
  }
}
