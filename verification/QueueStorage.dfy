/** queue.c: the queue object, its byte storage refining a bounded double-ended queue. */
module QueueStorage {
  import opened Ticks
  import opened Rings
  import opened Tasks
  import opened Queues

  class Queue {
    const length: nat
    const itemSize: nat
    const tail: nat       // pcTail and the two below are byte offsets from pcHead
    const storage: array<Byte>
    var writeTo: nat
    var readFrom: nat
    var messagesWaiting: nat
    var receivers: seq<Item<Task>>
    var senders: seq<Item<Task>>
    var rxLock: Int8
    var txLock: Int8
    ghost var writeSlot: nat
    ghost var readSlot: nat

    /** The slots in use run from the one after `readSlot` up to the one before `writeSlot`. */
    ghost predicate Valid()
      reads this, storage
    {
      && length > 0 && storage.Length == tail == Offset(length, itemSize)
      && (itemSize > 0 ==>
            && messagesWaiting <= length && writeSlot < length && readSlot < length
            && writeTo == Offset(writeSlot, itemSize) && readFrom == Offset(readSlot, itemSize)
            && writeSlot == Around(Around(readSlot + 1, length) + messagesWaiting, length))
    }

    ghost function Contents(): (s: seq<Message>)
      requires Valid()
      reads this, storage
      ensures |s| == messagesWaiting
    {
      if itemSize == 0 then seq(messagesWaiting, _ => [])
      else Stored(storage[..], length, itemSize, Around(readSlot + 1, length), messagesWaiting)
    }

    ghost function View(): QueueState
      requires Valid()
      reads this, storage
    {
      QueueState(length, itemSize, Contents(), receivers, senders, rxLock, txLock)
    }

    /** xQueueGenericCreate past its assertions, with a successful allocation. */
    constructor (length: Tick, itemSize: Tick)
      requires length > 0 && CreationCheck(length, itemSize)
      ensures Valid() && fresh(storage)
      ensures View() == QueueState(length, itemSize, [], [], [], UNLOCKED, UNLOCKED)
    {
      hide CreationCheck, Stored, Offset;
      this.length, this.itemSize := length, itemSize;
      tail := Offset(length, itemSize);
      storage := new Byte[Offset(length, itemSize)];
      writeTo, readFrom, messagesWaiting := Offset(0, itemSize), Offset(length - 1, itemSize), 0;
      receivers, senders, rxLock, txLock := [], [], UNLOCKED, UNLOCKED;
      writeSlot, readSlot := 0, length - 1;
    }

    /** memcpy of one item into the slot at byte offset `at`. */
    method CopyIn(at: nat, item: Message)
      requires |item| == itemSize && at + itemSize <= storage.Length
      modifies storage
      ensures storage[..] == old(storage[..at]) + item + old(storage[at + itemSize..])
    {
      for i := 0 to itemSize
        invariant forall j :: 0 <= j < storage.Length ==>
            storage[j] == if at <= j < at + i then item[j - at] else old(storage[j])
      {
        storage[at + i] := item[i];
      }
    }

    /** The branch of prvCopyDataToQueue that writes at pcWriteTo. */
    method CopyToBack(item: Message)
      requires Valid() && itemSize > 0 && |item| == itemSize && messagesWaiting < length
      modifies storage, `writeTo, `messagesWaiting, `writeSlot
      ensures Valid() && Contents() == old(Contents()) + [item]
    {
      hide Offset, Stored;
      ghost var bytes := storage[..];
      SlotFits(writeSlot, length, itemSize);
      CopyIn(writeTo, item);
      StoredAppend(bytes, storage[..], length, itemSize, Around(readSlot + 1, length), messagesWaiting, item);
      StepSlot(writeSlot, length, itemSize);
      writeTo := writeTo + itemSize;
      if writeTo >= tail {
        writeTo := 0;
      }
      writeSlot := Around(writeSlot + 1, length);
      messagesWaiting := messagesWaiting + 1;
    }

    /** The branch that writes at pcReadFrom, where `kept` of the waiting items are kept. */
    method CopyToFront(item: Message, kept: nat)
      requires Valid() && itemSize > 0 && |item| == itemSize && kept < length && kept <= messagesWaiting
      requires kept == messagesWaiting || length == 1
      modifies storage, `readFrom, `messagesWaiting, `readSlot
      ensures Valid() && Contents() == [item] + old(Contents())[..kept]
    {
      hide Offset, Stored;
      ghost var bytes := storage[..];
      SlotFits(readSlot, length, itemSize);
      CopyIn(readFrom, item);
      StoredPrepend(bytes, storage[..], length, itemSize, readSlot, messagesWaiting, kept, item);
      BackSlot(readSlot, length, itemSize);
      if readFrom < itemSize {
        readFrom := tail - itemSize;
      } else {
        readFrom := readFrom - itemSize;
      }
      readSlot := if readSlot == 0 then length - 1 else readSlot - 1;
      messagesWaiting := kept + 1;
      assert Around(readSlot + 1, length) == old(readSlot);
    }

    /** prvCopyDataToQueue of a queue that is not a mutex. */
    method CopyDataToQueue(item: Message, position: CopyPosition)
      requires Valid() && |item| == itemSize
      requires messagesWaiting < length || position.Overwrite?
      requires position.Overwrite? ==> length == 1
      modifies storage, `writeTo, `readFrom, `messagesWaiting, `writeSlot, `readSlot
      ensures Valid() && View() == Enqueued(old(View()), item, position)
      ensures itemSize == 0 || position.Back? ==> Contents() == old(Contents()) + [item]
      ensures itemSize > 0 && position.Front? ==> Contents() == [item] + old(Contents())
      ensures itemSize > 0 && position.Overwrite? ==> Contents() == [item]
    {
      hide Offset, Stored;
      if itemSize == 0 {
        messagesWaiting := messagesWaiting + 1;
        assert Contents() == old(Contents()) + [item];
      } else if position.Back? {
        CopyToBack(item);
      } else if position.Overwrite? && messagesWaiting > 0 {
        CopyToFront(item, messagesWaiting - 1);
      } else {
        CopyToFront(item, messagesWaiting);
        assert old(Contents())[..old(messagesWaiting)] == old(Contents());
      }
    }

    /** memcpy of one item out of the slot at byte offset `at`. */
    method CopyOut(at: nat) returns (item: Message)
      requires at + itemSize <= storage.Length
      ensures item == storage[at..at + itemSize]
    {
      item := [];
      for i := 0 to itemSize
        invariant item == storage[at..at + i]
      {
        item := item + [storage[at + i]];
      }
    }

    /** prvCopyDataFromQueue: advances pcReadFrom and leaves the count to the caller. */
    method CopyDataFromQueue() returns (item: Message)
      requires Valid() && messagesWaiting > 0
      modifies `readFrom, `readSlot
      ensures item == old(Contents())[0]
      ensures itemSize > 0 ==> old(readSlot) < length && readSlot == Around(old(readSlot) + 1, length)
      ensures itemSize > 0 ==> readFrom == Offset(readSlot, itemSize)
      ensures itemSize == 0 ==> readFrom == old(readFrom)
    {
      hide Offset, Stored;
      item := [];
      if itemSize != 0 {
        StepSlot(readSlot, length, itemSize);
        StoredAt(storage[..], length, itemSize, Around(readSlot + 1, length), messagesWaiting, 0);
        readFrom := readFrom + itemSize;
        if readFrom >= tail {
          readFrom := 0;
        }
        readSlot := Around(readSlot + 1, length);
        item := CopyOut(readFrom);
      }
    }

    /** Takes the front item out, as every receiving call does. */
    method Dequeue() returns (item: Message)
      requires Valid() && messagesWaiting > 0
      modifies `readFrom, `readSlot, `messagesWaiting
      ensures Valid() && [item] + Contents() == old(Contents())
    {
      hide Offset, Stored;
      item := CopyDataFromQueue();
      if itemSize > 0 {
        StoredTail(storage[..], length, itemSize, readSlot, messagesWaiting);
      }
      messagesWaiting := messagesWaiting - 1;
    }

    /** The wake-up of a waiting receiver, whose task xTaskRemoveFromEventList readies. */
    method WakeReceiver() returns (woken: set<Task>)
      requires Valid()
      modifies `receivers
      ensures Valid() && woken == Head(old(receivers)) && receivers == Tail(old(receivers))
      ensures old(receivers) == [] ==> receivers == [] && woken == {}
      ensures old(receivers) != [] ==> woken == {old(receivers)[0].owner} && receivers == old(receivers)[1..]
    {
      woken := {};
      if receivers != [] {
        woken, receivers := {receivers[0].owner}, receivers[1..];
      }
    }

    method WakeSender() returns (woken: set<Task>)
      requires Valid()
      modifies `senders
      ensures Valid() && woken == Head(old(senders)) && senders == Tail(old(senders))
      ensures old(senders) == [] ==> senders == [] && woken == {}
      ensures old(senders) != [] ==> woken == {old(senders)[0].owner} && senders == old(senders)[1..]
    {
      woken := {};
      if senders != [] {
        woken, senders := {senders[0].owner}, senders[1..];
      }
    }

    /** The first critical section of xQueueGenericSend. */
    method TrySend(item: Message, position: CopyPosition) returns (sent: bool, woken: set<Task>)
      requires Valid() && |item| == itemSize && (position.Overwrite? ==> length == 1)
      modifies this, storage
      ensures Valid() && sent == CanSend(old(View()), position)
      ensures sent <==> old(|Contents()|) < length || position.Overwrite?
      ensures sent ==> View() == Send(old(View()), item, position) && woken == Head(old(receivers))
      ensures sent && (itemSize == 0 || position.Back?) ==> Contents() == old(Contents()) + [item]
      ensures sent && itemSize > 0 && position.Front? ==> Contents() == [item] + old(Contents())
      ensures sent && itemSize > 0 && position.Overwrite? ==> Contents() == [item]
      ensures !sent ==> View() == old(View()) && woken == {}
    {
      hide Offset, Stored;
      sent, woken := messagesWaiting < length || position.Overwrite?, {};
      if sent {
        CopyDataToQueue(item, position);
        woken := WakeReceiver();
      }
    }

    /** xQueueGenericSendFromISR. */
    method TrySendFromIsr(item: Message, position: CopyPosition) returns (sent: bool, woken: set<Task>)
      requires Valid() && |item| == itemSize && (position.Overwrite? ==> length == 1)
      modifies this, storage
      ensures Valid() && sent == CanSend(old(View()), position)
      ensures sent <==> old(|Contents()|) < length || position.Overwrite?
      ensures sent ==> View() == SendFromIsr(old(View()), item, position)
      ensures sent && (itemSize == 0 || position.Back?) ==> Contents() == old(Contents()) + [item]
      ensures sent && itemSize > 0 && position.Front? ==> Contents() == [item] + old(Contents())
      ensures sent && itemSize > 0 && position.Overwrite? ==> Contents() == [item]
      ensures woken == if sent && old(txLock) == UNLOCKED then Head(old(receivers)) else {}
      ensures !sent ==> View() == old(View())
    {
      hide Offset, Stored;
      sent, woken := messagesWaiting < length || position.Overwrite?, {};
      if sent {
        CopyDataToQueue(item, position);
        if txLock == UNLOCKED {
          woken := WakeReceiver();
        } else {
          txLock := CountUp(txLock);
        }
      }
    }

    /** The first critical section of xQueueReceive. */
    method TryReceive() returns (got: bool, item: Message, woken: set<Task>)
      requires Valid()
      modifies this
      ensures Valid() && got == (old(Contents()) != [])
      ensures got ==> [item] + Contents() == old(Contents())
      ensures got ==> View() == Receive(old(View())) && woken == Head(old(senders))
      ensures !got ==> View() == old(View()) && woken == {}
    {
      hide Offset, Stored;
      got, item, woken := messagesWaiting > 0, [], {};
      if got {
        item := Dequeue();
        assert Contents() == old(Contents())[1..];
        woken := WakeSender();
      }
    }

    /** xQueueReceiveFromISR. */
    method TryReceiveFromIsr() returns (got: bool, item: Message, woken: set<Task>)
      requires Valid()
      modifies this
      ensures Valid() && got == (old(Contents()) != [])
      ensures got ==> [item] + Contents() == old(Contents()) && View() == ReceiveFromIsr(old(View()))
      ensures woken == if got && old(rxLock) == UNLOCKED then Head(old(senders)) else {}
      ensures !got ==> View() == old(View())
    {
      hide Offset, Stored;
      got, item, woken := messagesWaiting > 0, [], {};
      if got {
        item := Dequeue();
        assert Contents() == old(Contents())[1..];
        if rxLock == UNLOCKED {
          woken := WakeSender();
        } else {
          rxLock := CountUp(rxLock);
        }
      }
    }

    /** The first critical section of xQueuePeek: the read position is put back. */
    method TryPeek() returns (got: bool, item: Message, woken: set<Task>)
      requires Valid()
      modifies this
      ensures Valid() && got == (old(Contents()) != [])
      ensures Contents() == old(Contents())
      ensures got ==> item == Contents()[0] && View() == Peek(old(View())) && woken == Head(old(receivers))
      ensures !got ==> View() == old(View()) && woken == {}
    {
      hide Offset, Stored;
      got, item, woken := messagesWaiting > 0, [], {};
      if got {
        var original := readFrom;
        ghost var slot := readSlot;
        item := CopyDataFromQueue();
        readFrom, readSlot := original, slot;
        woken := WakeReceiver();
      }
    }

    /** xQueueGenericReset of a queue in use: at most one waiting sender is woken. */
    method ResetQueue() returns (woken: set<Task>)
      requires Valid()
      modifies this
      ensures Valid() && View() == Reset(old(View())) && woken == Head(old(senders))
      ensures Contents() == [] && rxLock == txLock == UNLOCKED
      ensures receivers == old(receivers) && senders == Tail(old(senders))
    {
      hide Offset, Stored;
      messagesWaiting, writeTo, readFrom := 0, Offset(0, itemSize), Offset(length - 1, itemSize);
      writeSlot, readSlot := 0, length - 1;
      rxLock, txLock := UNLOCKED, UNLOCKED;
      assert Contents() == [];
      woken := WakeSender();
    }

    /** prvLockQueue. */
    method LockQueue()
      requires Valid()
      modifies `rxLock, `txLock
      ensures Valid() && View() == Lock(old(View()))
    {
      if rxLock == UNLOCKED {
        rxLock := LOCKED_UNMODIFIED;
      }
      if txLock == UNLOCKED {
        txLock := LOCKED_UNMODIFIED;
      }
    }

    /** The first loop of prvUnlockQueue. */
    method UnlockSending() returns (woken: set<Task>)
      requires Valid()
      modifies `receivers, `txLock
      ensures Valid() && View() == UnlockTx(old(View()))
      ensures woken == First(old(receivers), Wakes(old(txLock), old(receivers)))
    {
      hide Offset, Stored, Around;
      var count := txLock;
      ghost var done := 0;
      woken := {};
      while count > LOCKED_UNMODIFIED
        invariant done <= Wakes(txLock, old(receivers)) && receivers == old(receivers)[done..]
        invariant count == txLock - done
        invariant woken == First(old(receivers), done)
        invariant Valid() && txLock == old(txLock)
        decreases count
      {
        if receivers == [] {
          break;
        }
        FirstSnoc(old(receivers), done);
        woken, receivers := woken + {receivers[0].owner}, receivers[1..];
        count, done := count - 1, done + 1;
      }
      txLock := UNLOCKED;
    }

    /** The second loop of prvUnlockQueue. */
    method UnlockReceiving() returns (woken: set<Task>)
      requires Valid()
      modifies `senders, `rxLock
      ensures Valid() && View() == UnlockRx(old(View()))
      ensures woken == First(old(senders), Wakes(old(rxLock), old(senders)))
    {
      hide Offset, Stored, Around;
      var count := rxLock;
      ghost var done := 0;
      woken := {};
      while count > LOCKED_UNMODIFIED
        invariant done <= Wakes(rxLock, old(senders)) && senders == old(senders)[done..]
        invariant count == rxLock - done
        invariant woken == First(old(senders), done)
        invariant Valid() && rxLock == old(rxLock)
        decreases count
      {
        if senders == [] {
          break;
        }
        FirstSnoc(old(senders), done);
        woken, senders := woken + {senders[0].owner}, senders[1..];
        count, done := count - 1, done + 1;
      }
      rxLock := UNLOCKED;
    }
  }

  lemma {:induction false} StepSlot(slot: nat, length: nat, size: nat)
    requires slot < length && size > 0
    ensures Offset(slot, size) + size >= Offset(length, size) <==> slot + 1 == length
    ensures Offset(slot + 1, size) == Offset(slot, size) + size
    ensures Offset(0, size) == 0
  {
    SlotFits(slot, length, size);
    if slot + 1 < length {
      SlotOrder(slot + 1, length, size);
    }
  }

  lemma {:induction false} BackSlot(slot: nat, length: nat, size: nat)
    requires slot < length && size > 0
    ensures Offset(slot, size) < size <==> slot == 0
    ensures slot > 0 ==> Offset(slot - 1, size) == Offset(slot, size) - size
    ensures Offset(length - 1, size) == Offset(length, size) - size
  {
    if slot > 0 {
      SlotFits(0, slot, size);
    }
  }
}
