/** list.c: the intrusive circular list, refining a Ring of items. */
module Lists {
  import opened Ticks
  import opened Rings

  class ListItem {
    var value: Tick
    var next: ListItem
    var previous: ListItem
    var owner: nat
    var container: List?

    /** vListInitialiseItem. */
    constructor (owner: nat, value: Tick)
      ensures this.owner == owner && this.value == value && container == null
      ensures next == this && previous == this
    {
      this.owner, this.value, container := owner, value, null;
      next, previous := this, this;
    }
  }

  ghost predicate Distinct<T>(s: seq<T>) {
    forall i, j :: 0 <= i < j < |s| ==> s[i] != s[j]
  }

  /** `ring[i]` and its successor (the first item for the last one) point at each other. */
  ghost predicate Joined(ring: seq<ListItem>, i: nat)
    requires i < |ring|
    reads ring
  {
    var after := if i + 1 < |ring| then ring[i + 1] else ring[0];
    ring[i].next == after && after.previous == ring[i]
  }

  ghost predicate Linked(ring: seq<ListItem>)
    reads ring
  {
    |ring| > 0 && Distinct(ring) && forall i :: 0 <= i < |ring| ==> Joined(ring, i)
  }

  class List {
    var numberOfItems: nat
    var index: ListItem
    const end: ListItem
    ghost var ring: seq<ListItem>  // the end marker, then the items
    ghost var cursor: nat

    ghost predicate Valid()
      reads this, ring
    {
      && Linked(ring) && ring[0] == end
      && (forall y :: y in ring && y != end ==> y.container == this)
      && end.value == MAX_DELAY
      && numberOfItems == |ring| - 1
      && cursor < |ring| && index == ring[cursor]
    }

    ghost function View(): (r: Ring<ListItem>)
      reads this
      requires cursor < |ring|
      ensures r.Valid()
    {
      Ring(ring[1..], cursor)
    }

    /** The items as vListInsert sees them. */
    ghost function Values(): (l: seq<Item<ListItem>>)
      reads this, ring
      requires |ring| > 0
    {
      seq(|ring| - 1, i requires 0 <= i < |ring| - 1 reads this, ring => Item(ring[i + 1], ring[i + 1].value))
    }

    /** vListInitialise. */
    constructor ()
      ensures Valid() && fresh(end) && View() == Empty()
    {
      var e := new ListItem(0, MAX_DELAY);
      end, index, numberOfItems := e, e, 0;
      ring, cursor := [e], 0;
    }

    /** The link surgery shared by both insertions: `x` goes between `before` and its successor. */
    method Link(x: ListItem, before: ListItem, ghost k: nat)
      requires Linked(ring) && x !in ring
      requires k < |ring| && before == ring[k]
      modifies this`ring, ring`next, ring`previous, x`next, x`previous, x`container
      ensures Linked(ring) && IsSplice(old(ring), k, x, ring) && x.container == this
    {
      ghost var was := ring;
      assert Joined(was, k);
      var after := before.next;
      x.next, x.previous := after, before;
      after.previous := x;
      before.next := x;
      x.container := this;
      ring := SpliceShape(was, k, x);
      forall i | 0 <= i < |ring| ensures Joined(ring, i) {
        if i < k {
          assert old(Joined(was, i));
        } else if i > k + 1 {
          assert old(Joined(was, i - 1));
        }
      }
    }

    method Splice(x: ListItem, before: ListItem, ghost k: nat)
      requires Valid() && x !in ring
      requires k < |ring| && before == ring[k]
      modifies this, ring`next, ring`previous, x`next, x`previous, x`container
      ensures Valid() && View() == InsertAt(old(View()), k, x)
    {
      Link(x, before, k);
      numberOfItems := numberOfItems + 1;
      cursor := if k < cursor then cursor + 1 else cursor;
    }

    method InsertEnd(x: ListItem)
      requires Valid() && x !in ring
      modifies this, ring`next, ring`previous, x`next, x`previous, x`container
      ensures Valid() && View() == Rings.InsertEnd(old(View()), x)
    {
      ghost var k := if cursor == 0 then |ring| - 1 else cursor - 1;
      assert Joined(ring, k);
      Splice(x, index.previous, k);
    }

    method Insert(x: ListItem)
      requires Valid() && x !in ring
      modifies this, ring`next, ring`previous, x`next, x`previous, x`container
      ensures Valid() && View() == InsertAt(old(View()), Position(old(Values()), x.value), x)
    {
      var before := end;
      ghost var k := |ring| - 1;
      assert Joined(ring, k);
      if x.value == MAX_DELAY {
        before := end.previous;
      } else {
        k := 0;
        while before.next.value <= x.value
          invariant k < |ring| && before == ring[k]
          invariant forall i :: 1 <= i <= k ==> ring[i].value <= x.value
          decreases |ring| - k
        {
          assert Joined(ring, k);
          before := before.next;
          k := k + 1;
        }
        assert Joined(ring, k);
      }
      PositionUnique(Values(), x.value, k);
      Splice(x, before, k);
    }

    /** The link surgery of uxListRemove. */
    method Unlink(x: ListItem, ghost k: nat)
      requires Linked(ring) && 1 <= k < |ring| && ring[k] == x
      modifies this`ring, ring`next, ring`previous, x`container
      ensures Linked(ring) && IsRemoval(old(ring), k, ring) && x.container == null
      ensures x.previous == ring[k - 1]
    {
      ghost var was := ring;
      assert Joined(was, k - 1) && Joined(was, k);
      x.next.previous := x.previous;
      x.previous.next := x.next;
      x.container := null;
      ring := RemoveShape(was, k);
      forall i | 0 <= i < |ring| ensures Joined(ring, i) {
        if i < k - 1 {
          assert old(Joined(was, i));
        } else if i >= k {
          assert old(Joined(was, i + 1));
        }
      }
    }

    /** Unlinking with the index stepping back from the removed item. */
    method Detach(x: ListItem, ghost k: nat)
      requires Valid() && 1 <= k < |ring| && ring[k] == x
      modifies this, ring`next, ring`previous, x`container
      ensures Valid() && x.container == null && View() == RemoveAt(old(View()), k - 1)
    {
      ghost var was := ring;
      var onIt := index == x;
      assert onIt <==> cursor == k;
      Unlink(x, k);
      RemovalView(was, k, ring, cursor);
      if onIt {
        index := x.previous;
      }
      numberOfItems := numberOfItems - 1;
      cursor := if k <= cursor then cursor - 1 else cursor;
    }

    /** uxListRemove. */
    method Remove(x: ListItem) returns (remaining: nat, ghost at: nat)
      requires Valid() && x in ring && x != end
      modifies this, ring`next, ring`previous, x`container
      ensures Valid() && x.container == null
      ensures at < |old(View()).items| && old(View()).items[at] == x && View() == RemoveAt(old(View()), at)
      ensures remaining == |View().items|
    {
      ghost var k :| 1 <= k < |ring| && ring[k] == x;
      Detach(x, k);
      return numberOfItems, k - 1;
    }

    /** listGET_OWNER_OF_NEXT_ENTRY. */
    method OwnerOfNextEntry() returns (owner: nat)
      requires Valid() && |ring| > 1
      modifies this`index, this`cursor
      ensures Valid() && View() == Advance(old(View()))
      ensures owner == Selected(View()).owner
    {
      assert Joined(ring, cursor) && Joined(ring, 0);
      index := index.next;
      if index == end {
        index := index.next;
      }
      owner := index.owner;
      cursor := Advance(View()).cursor;
    }
  }

  /** `ring` is `was` with `x` put behind position `k`. */
  ghost predicate IsSplice<T>(was: seq<T>, k: nat, x: T, ring: seq<T>)
    requires k < |was|
  {
    && |ring| == |was| + 1 && Distinct(ring) && ring[1..] == was[1..][..k] + [x] + was[1..][k..]
    && (forall i :: 0 <= i <= k ==> ring[i] == was[i])
    && ring[k + 1] == x
    && (forall i :: k + 1 < i < |ring| ==> ring[i] == was[i - 1])
    && (forall y :: y in ring ==> y == x || y in was)
  }

  lemma SpliceShape<T>(was: seq<T>, k: nat, x: T) returns (ring: seq<T>)
    requires Distinct(was) && k < |was| && x !in was
    ensures IsSplice(was, k, x, ring)
  {
    ring := was[..k + 1] + [x] + was[k + 1..];
    assert ring[1..] == was[1..][..k] + [x] + was[1..][k..];
  }

  /** `ring` is `was` without position `k`. */
  ghost predicate IsRemoval<T>(was: seq<T>, k: nat, ring: seq<T>)
    requires 1 <= k < |was|
  {
    && |ring| == |was| - 1 && Distinct(ring) && ring[1..] == was[1..][..k - 1] + was[1..][k..]
    && (forall i :: 0 <= i < k ==> ring[i] == was[i])
    && (forall i :: k <= i < |ring| ==> ring[i] == was[i + 1])
    && (forall y :: y in ring ==> y != was[k] && y in was)
  }

  lemma RemoveShape<T>(was: seq<T>, k: nat) returns (ring: seq<T>)
    requires Distinct(was) && 1 <= k < |was|
    ensures IsRemoval(was, k, ring)
  {
    ring := was[..k] + was[k + 1..];
    assert ring[1..] == was[1..][..k - 1] + was[1..][k..];
  }

  lemma {:induction false} RemovalView<T>(was: seq<T>, k: nat, ring: seq<T>, cursor: nat)
    requires 1 <= k < |was| && IsRemoval(was, k, ring) && cursor < |was|
    ensures Ring(ring[1..], if k <= cursor then cursor - 1 else cursor) == RemoveAt(Ring(was[1..], cursor), k - 1)
  {
  }

  lemma {:induction false} PositionUnique<T>(l: seq<Item<T>>, v: nat, k: nat)
    requires k <= |l|
    requires forall i :: 0 <= i < k ==> l[i].value <= v
    requires k < |l| ==> l[k].value > v
    ensures Position(l, v) == k
  {
    if Position(l, v) < k {
    }
  }
}
