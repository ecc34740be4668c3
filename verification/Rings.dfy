/** The value a kernel list denotes: its items in link order plus the position of pxIndex. */
module Rings {

  /** An item of a list: its owner and the value it is sorted by. */
  datatype Item<T> = Item(owner: T, value: nat)

  /** `cursor == 0` stands for the end marker, `cursor == i + 1` for `items[i]`. */
  datatype Ring<T> = Ring(items: seq<T>, cursor: nat) {
    predicate Valid() {
      cursor <= |items|
    }
  }

  function Empty<T>(): Ring<T> {
    Ring([], 0)
  }

  /** Links `x` in so that it becomes `items[k]`; the cursor stays on the item it was on. */
  function InsertAt<T>(r: Ring<T>, k: nat, x: T): (r': Ring<T>)
    requires r.Valid() && k <= |r.items|
    ensures r'.Valid()
  {
    Ring(r.items[..k] + [x] + r.items[k..], if k < r.cursor then r.cursor + 1 else r.cursor)
  }

  /** vListInsertEnd: just before the cursor, going backwards round the ring. */
  function InsertEnd<T>(r: Ring<T>, x: T): (r': Ring<T>)
    requires r.Valid()
    ensures r'.Valid()
  {
    InsertAt(r, if r.cursor == 0 then |r.items| else r.cursor - 1, x)
  }

  /** uxListRemove: a cursor on the removed item steps back to its predecessor. */
  function RemoveAt<T>(r: Ring<T>, k: nat): (r': Ring<T>)
    requires r.Valid() && k < |r.items|
    ensures r'.Valid()
  {
    Ring(r.items[..k] + r.items[k + 1..], if k < r.cursor then r.cursor - 1 else r.cursor)
  }

  /** listGET_OWNER_OF_NEXT_ENTRY: step to the next item, skipping the end marker. */
  function Advance<T>(r: Ring<T>): (r': Ring<T>)
    requires r.Valid() && r.items != []
    ensures r'.Valid() && r'.cursor > 0
  {
    r.(cursor := if r.cursor == |r.items| then 1 else r.cursor + 1)
  }

  function Selected<T>(r: Ring<T>): T
    requires r.Valid() && r.cursor > 0
  {
    r.items[r.cursor - 1]
  }

  /** The order in which repeated calls of listGET_OWNER_OF_NEXT_ENTRY serve the items. */
  function ServiceOrder<T>(r: Ring<T>): seq<T>
    requires r.Valid()
  {
    r.items[r.cursor..] + r.items[..r.cursor]
  }

  /** The owners returned by `n` successive calls. */
  function Walk<T>(r: Ring<T>, n: nat): seq<T>
    requires r.Valid() && (n > 0 ==> r.items != [])
    decreases n
  {
    if n == 0 then [] else [Selected(Advance(r))] + Walk(Advance(r), n - 1)
  }

  lemma AdvanceRotates<T>(r: Ring<T>)
    requires r.Valid() && r.items != []
    ensures Selected(Advance(r)) == ServiceOrder(r)[0]
    ensures ServiceOrder(Advance(r)) == ServiceOrder(r)[1..] + [ServiceOrder(r)[0]]
  {
  }

  lemma {:induction false} WalkPrefix<T>(r: Ring<T>, n: nat)
    requires r.Valid() && n <= |r.items|
    ensures Walk(r, n) == ServiceOrder(r)[..n]
    decreases n
  {
    if n > 0 {
      AdvanceRotates(r);
      WalkPrefix(Advance(r), n - 1);
    }
  }

  /** n cursor steps on an unchanged n-item list return each owner exactly once. */
  lemma WalkServesEachOnce<T>(r: Ring<T>)
    requires r.Valid()
    ensures Walk(r, |r.items|) == ServiceOrder(r)
    ensures multiset(Walk(r, |r.items|)) == multiset(r.items)
  {
    WalkPrefix(r, |r.items|);
    assert r.items == r.items[..r.cursor] + r.items[r.cursor..];
    assert ServiceOrder(r)[..|r.items|] == ServiceOrder(r);
  }

  /** A new item is served after every other item except the one under the cursor. */
  lemma InsertEndServedLast<T>(r: Ring<T>, x: T)
    requires r.Valid()
    ensures r.cursor == 0 ==> ServiceOrder(InsertEnd(r, x)) == ServiceOrder(r) + [x]
    ensures r.cursor > 0 ==>
              var n := |r.items|;
              ServiceOrder(InsertEnd(r, x)) == ServiceOrder(r)[..n - 1] + [x, Selected(r)]
              && ServiceOrder(r)[n - 1] == Selected(r)
  {
  }

  /** Where `items[k]` stands in the service order. */
  function ServicePosition<T>(r: Ring<T>, k: nat): (p: nat)
    requires r.Valid() && k < |r.items|
    ensures p < |r.items| && ServiceOrder(r)[p] == r.items[k]
  {
    if k < r.cursor then |r.items| - r.cursor + k else k - r.cursor
  }

  /** Removal drops one owner and keeps the service order of the rest. */
  lemma RemoveKeepsServiceOrder<T>(r: Ring<T>, k: nat)
    requires r.Valid() && k < |r.items|
    ensures var p := ServicePosition(r, k);
            ServiceOrder(RemoveAt(r, k)) == ServiceOrder(r)[..p] + ServiceOrder(r)[p + 1..]
  {
    var p := ServicePosition(r, k);
    var items', c := RemoveAt(r, k).items, RemoveAt(r, k).cursor;
    if k < r.cursor {
      assert items'[c..] == r.items[r.cursor..];
      assert items'[..c] == r.items[..k] + r.items[k + 1..r.cursor];
    } else {
      assert items'[c..] == r.items[r.cursor..k] + r.items[k + 1..];
      assert items'[..c] == r.items[..r.cursor];
    }
  }

  /** Taking back what was just inserted restores the ring. */
  lemma RemoveUndoesInsertEnd<T>(r: Ring<T>, x: T)
    requires r.Valid()
    ensures RemoveAt(InsertEnd(r, x), if r.cursor == 0 then |r.items| else r.cursor - 1) == r
  {
  }

  // ----- sorted lists -----

  ghost predicate Sorted<T>(l: seq<Item<T>>) {
    forall i, j :: 0 <= i < j < |l| ==> l[i].value <= l[j].value
  }

  /** vListInsert's search: the first position whose value exceeds `v`. */
  function Position<T>(l: seq<Item<T>>, v: nat): (p: nat)
    ensures p <= |l|
    ensures forall i :: 0 <= i < p ==> l[i].value <= v
    ensures p < |l| ==> l[p].value > v
  {
    if l == [] || l[0].value > v then 0 else 1 + Position(l[1..], v)
  }

  function InsertSorted<T>(l: seq<Item<T>>, x: Item<T>): seq<Item<T>> {
    var p := Position(l, x.value);
    l[..p] + [x] + l[p..]
  }

  /** Sorted insertion keeps the order and puts `x` behind its equals. */
  lemma {:induction false} InsertSortedStable<T>(l: seq<Item<T>>, x: Item<T>)
    requires Sorted(l)
    ensures Sorted(InsertSorted(l, x))
    ensures forall i :: Position(l, x.value) <= i < |l| ==> l[i].value > x.value
  {
    SpliceSorted(l, Position(l, x.value), x);
  }

  lemma {:induction false} SpliceSorted<T>(l: seq<Item<T>>, p: nat, x: Item<T>)
    requires Sorted(l) && p <= |l|
    requires forall i :: 0 <= i < p ==> l[i].value <= x.value
    requires p < |l| ==> l[p].value > x.value
    ensures forall i :: p <= i < |l| ==> l[i].value > x.value
    ensures Sorted(l[..p] + [x] + l[p..])
  {
    forall i | p <= i < |l| ensures l[i].value > x.value {
      assert l[p].value <= l[i].value;
    }
    var l' := l[..p] + [x] + l[p..];
    forall i, j | 0 <= i < j < |l'| ensures l'[i].value <= l'[j].value {
      assert l'[i] == if i < p then l[i] else if i == p then x else l[i - 1];
      assert l'[j] == if j < p then l[j] else if j == p then x else l[j - 1];
    }
  }

  lemma InsertSortedAdds<T>(l: seq<Item<T>>, x: Item<T>)
    ensures multiset(InsertSorted(l, x)) == multiset(l) + multiset{x}
  {
    var p := Position(l, x.value);
    assert l == l[..p] + l[p..];
  }

  /** A list without the items of owner `t`. */
  function Without<T(==)>(l: seq<Item<T>>, t: T): (r: seq<Item<T>>)
    ensures |r| <= |l|
    ensures forall i :: 0 <= i < |r| ==> r[i] in l && r[i].owner != t
  {
    if l == [] then [] else if l[0].owner == t then Without(l[1..], t) else [l[0]] + Without(l[1..], t)
  }

  lemma {:induction false} WithoutSorted<T>(l: seq<Item<T>>, t: T)
    requires Sorted(l)
    ensures Sorted(Without(l, t))
  {
    if l != [] {
      WithoutSorted(l[1..], t);
      var r := Without(l[1..], t);
      forall i | 0 <= i < |r| ensures l[0].value <= r[i].value {
        assert r[i] in l[1..];
      }
    }
  }

  // ----- ring buffers -----

  /** Position `i` of a ring buffer, one turn of which has `length` positions. */
  function Around(i: nat, length: nat): nat
    requires i < 2 * length
  {
    if i < length then i else i - length
  }
}
