/** queue.c: what a queue holds and what each critical section makes of it. */
module Queues {
  import opened Ticks
  import opened Rings
  import opened Tasks

  type Message = seq<Byte>

  /** The lock counts are 8 bits wide. */
  type Int8 = n: int | -128 <= n < 128

  const UNLOCKED: Int8 := -1
  const LOCKED_UNMODIFIED: Int8 := 0
  const INT8_MAX: Int8 := 127

  /** `(int8_t)(lock + 1)`: the assertion before it reports a count at its maximum and goes on. */
  function CountUp(lock: Int8): Int8 {
    if lock == INT8_MAX then -128 else lock + 1
  }

  datatype CopyPosition = Back | Front | Overwrite

  /** `receivers` and `senders` are the event lists, ordered by PRIORITIES - priority. */
  datatype QueueState = QueueState(
    length: nat, itemSize: nat, items: seq<Message>,
    receivers: seq<Item<Task>>, senders: seq<Item<Task>>,
    rxLock: Int8, txLock: Int8)

  // ----- creation -----

  /** The multiplication-overflow assertion of xQueueGenericCreate, in 32-bit arithmetic. */
  predicate CreationCheck(length: Tick, itemSize: Tick) {
    itemSize == 0 || length == Wrap(length * itemSize) / itemSize
  }

  /** The assertion passes exactly when the storage size is representable. */
  lemma {:induction false} CreationCheckExact(length: Tick, itemSize: Tick)
    ensures CreationCheck(length, itemSize) <==> length * itemSize < TICKS
  {
    hide Wrap;
    if itemSize > 0 {
      var product := length * itemSize;
      WrapBelow(product);
      Quotient(product, itemSize, length);
      if product >= TICKS {
        QuotientBound(Wrap(product), itemSize, length);
      }
    }
  }

  lemma WrapBelow(v: nat)
    ensures v < TICKS ==> Wrap(v) == v
  {
  }

  lemma Quotient(v: nat, d: nat, q: nat)
    requires d > 0 && v == q * d
    ensures v / d == q
  {
    var e := v / d;
    assert v == e * d + v % d;
    if e < q {
      MultiplesApart(e, q, d);
    } else if q < e {
      MultiplesApart(q, e, d);
    }
  }

  lemma QuotientBound(v: nat, d: nat, q: nat)
    requires d > 0 && v < q * d
    ensures v / d != q
  {
    assert v == (v / d) * d + v % d;
  }

  // ----- items -----

  /** prvCopyDataToQueue. A zero item size goes before the position is looked at. */
  function Enqueued(q: QueueState, x: Message, position: CopyPosition): QueueState {
    q.(items :=
       if q.itemSize == 0 || position.Back? then q.items + [x]
       else if position.Overwrite? && q.items != [] then [x] + q.items[..|q.items| - 1]
       else [x] + q.items)
  }

  predicate CanSend(q: QueueState, position: CopyPosition) {
    |q.items| < q.length || position.Overwrite?
  }

  /** The task a wake-up takes off an event list, if any. */
  function Head(l: seq<Item<Task>>): set<Task> {
    if l == [] then {} else {l[0].owner}
  }

  function Tail(l: seq<Item<Task>>): seq<Item<Task>> {
    if l == [] then [] else l[1..]
  }

  function First(l: seq<Item<Task>>, n: nat): set<Task> {
    if n == 0 || l == [] then {} else {l[0].owner} + First(l[1..], n - 1)
  }

  lemma {:induction false} FirstSnoc(l: seq<Item<Task>>, n: nat)
    requires n < |l|
    ensures First(l, n + 1) == First(l, n) + {l[n].owner}
    decreases n
  {
    if n > 0 {
      FirstSnoc(l[1..], n - 1);
    }
  }

  // ----- critical sections -----

  /** The successful critical section of xQueueGenericSend. */
  function Send(q: QueueState, x: Message, position: CopyPosition): QueueState {
    Enqueued(q, x, position).(receivers := Tail(q.receivers))
  }

  /** xQueueGenericSendFromISR: a locked queue counts the item instead of waking. */
  function SendFromIsr(q: QueueState, x: Message, position: CopyPosition): QueueState {
    if q.txLock == UNLOCKED then Send(q, x, position)
    else Enqueued(q, x, position).(txLock := CountUp(q.txLock))
  }

  /** The successful critical section of xQueueReceive. */
  function Receive(q: QueueState): QueueState
    requires q.items != []
  {
    q.(items := q.items[1..], senders := Tail(q.senders))
  }

  function ReceiveFromIsr(q: QueueState): QueueState
    requires q.items != []
  {
    if q.rxLock == UNLOCKED then Receive(q) else q.(items := q.items[1..], rxLock := CountUp(q.rxLock))
  }

  /** The successful critical section of xQueuePeek passes the item on to the next receiver. */
  function Peek(q: QueueState): QueueState {
    q.(receivers := Tail(q.receivers))
  }

  /** xQueueGenericReset of a queue in use. */
  function Reset(q: QueueState): QueueState {
    q.(items := [], rxLock := UNLOCKED, txLock := UNLOCKED, senders := Tail(q.senders))
  }

  function Lock(q: QueueState): QueueState {
    q.(rxLock := if q.rxLock == UNLOCKED then LOCKED_UNMODIFIED else q.rxLock,
       txLock := if q.txLock == UNLOCKED then LOCKED_UNMODIFIED else q.txLock)
  }

  /** How many waiters an unlock wakes: one per counted item, as long as there are any. */
  function Wakes(lock: int, l: seq<Item<Task>>): (n: nat)
    ensures n <= |l|
  {
    if lock <= 0 then 0 else if lock < |l| then lock else |l|
  }

  /** The first critical section of prvUnlockQueue. */
  function UnlockTx(q: QueueState): QueueState {
    q.(receivers := q.receivers[Wakes(q.txLock, q.receivers)..], txLock := UNLOCKED)
  }

  /** The second critical section of prvUnlockQueue. */
  function UnlockRx(q: QueueState): QueueState {
    q.(senders := q.senders[Wakes(q.rxLock, q.senders)..], rxLock := UNLOCKED)
  }

  /** The event list after vTaskPlaceOnEventList: highest priority first, equals in order. */
  function Placed(l: seq<Item<Task>>, t: Task, priority: nat): seq<Item<Task>>
    requires priority <= PRIORITIES
  {
    InsertSorted(l, Item(t, PRIORITIES - priority))
  }

  // ----- storage -----

  /** The byte offset of slot `i`. */
  function Offset(i: nat, size: nat): nat {
    i * size
  }

  /** Slot `i` of a storage area of `size`-byte slots. */
  function SlotAt(d: seq<Byte>, size: nat, i: nat): Message
    requires Offset(i, size) + size <= |d|
  {
    d[Offset(i, size)..Offset(i, size) + size]
  }

  lemma {:induction false} SlotOrder(i: nat, j: nat, size: nat)
    requires i < j
    ensures Offset(i, size) + size <= Offset(j, size)
  {
    MultiplesApart(i, j, size);
  }

  lemma SlotFits(i: nat, length: nat, size: nat)
    requires i < length
    ensures Offset(i, size) + size <= Offset(length, size)
  {
    SlotOrder(i, length, size);
  }

  /** Overwriting one slot leaves the others as they were. */
  lemma {:induction false} WrittenSlot(d: seq<Byte>, d': seq<Byte>, length: nat, size: nat, j: nat, x: Message, i: nat)
    requires |d| == |d'| == Offset(length, size) && |x| == size && i < length && j < length
    requires Offset(j, size) + size <= |d| && d' == d[..Offset(j, size)] + x + d[Offset(j, size) + size..]
    ensures Offset(i, size) + size <= |d|
    ensures SlotAt(d', size, i) == if i == j then x else SlotAt(d, size, i)
  {
    hide Offset;
    SlotFits(i, length, size);
    if i < j {
      SlotOrder(i, j, size);
    } else if j < i {
      SlotOrder(j, i, size);
    }
  }

  /** The `n` items stored from slot `first` on, going round. */
  ghost function Stored(d: seq<Byte>, length: nat, size: nat, first: nat, n: nat): (s: seq<Message>)
    requires |d| == Offset(length, size) && first < length && n <= length
    ensures |s| == n
  {
    seq(n, i requires 0 <= i < n => SlotFits(Around(first + i, length), length, size);
                                    SlotAt(d, size, Around(first + i, length)))
  }

  lemma {:induction false} StoredAt(d: seq<Byte>, length: nat, size: nat, first: nat, n: nat, i: nat)
    requires |d| == Offset(length, size) && first < length && n <= length && i < n
    ensures Offset(Around(first + i, length), size) + size <= |d|
    ensures Stored(d, length, size, first, n)[i] == SlotAt(d, size, Around(first + i, length))
  {
    hide Offset;
    SlotFits(Around(first + i, length), length, size);
  }

  lemma {:induction false} StoredAppend(d: seq<Byte>, d': seq<Byte>, length: nat, size: nat, first: nat, n: nat,
                                        x: Message)
    requires |d| == |d'| == Offset(length, size) && first < length && n < length && |x| == size
    requires var j := Around(first + n, length);
             Offset(j, size) + size <= |d| && d' == d[..Offset(j, size)] + x + d[Offset(j, size) + size..]
    ensures Stored(d', length, size, first, n + 1) == Stored(d, length, size, first, n) + [x]
  {
    hide Offset;
    var j := Around(first + n, length);
    forall i | 0 <= i < n + 1
      ensures Stored(d', length, size, first, n + 1)[i] == (Stored(d, length, size, first, n) + [x])[i]
    {
      StoredAt(d', length, size, first, n + 1, i);
      WrittenSlot(d, d', length, size, j, x, Around(first + i, length));
      if i < n {
        StoredAt(d, length, size, first, n, i);
      }
    }
  }

  /** Writing the slot before the first and starting there puts `x` in front. */
  lemma {:induction false} StoredPrepend(d: seq<Byte>, d': seq<Byte>, length: nat, size: nat, before: nat, n: nat,
                                         m: nat, x: Message)
    requires |d| == |d'| == Offset(length, size) && before < length && m < n + 1 <= length + 1 && m < length
    requires |x| == size && Offset(before, size) + size <= |d|
    requires d' == d[..Offset(before, size)] + x + d[Offset(before, size) + size..]
    ensures Stored(d', length, size, before, m + 1)
         == [x] + Stored(d, length, size, Around(before + 1, length), n)[..m]
  {
    hide Offset;
    var first := Around(before + 1, length);
    forall i | 0 <= i < m + 1
      ensures Stored(d', length, size, before, m + 1)[i] == ([x] + Stored(d, length, size, first, n)[..m])[i]
    {
      StoredAt(d', length, size, before, m + 1, i);
      WrittenSlot(d, d', length, size, before, x, Around(before + i, length));
      if i > 0 {
        StoredAt(d, length, size, first, n, i - 1);
        assert Around(first + i - 1, length) == Around(before + i, length);
      }
    }
  }

  lemma {:induction false} StoredTail(d: seq<Byte>, length: nat, size: nat, first: nat, n: nat)
    requires |d| == Offset(length, size) && first < length && 0 < n <= length
    ensures Stored(d, length, size, Around(first + 1, length), n - 1) == Stored(d, length, size, first, n)[1..]
  {
    hide Offset;
    var next := Around(first + 1, length);
    forall i | 0 <= i < n - 1
      ensures Stored(d, length, size, next, n - 1)[i] == Stored(d, length, size, first, n)[1..][i]
    {
      StoredAt(d, length, size, next, n - 1, i);
      StoredAt(d, length, size, first, n, i + 1);
      assert Around(next + i, length) == Around(first + i + 1, length);
    }
  }
}
