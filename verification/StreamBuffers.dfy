/** stream_buffer.c: a byte ring with one writer and one reader, and length-prefixed messages. */
module StreamBuffers {
  import opened Ticks
  import opened Rings
  import opened Tasks

  /** sbBYTES_TO_STORE_MESSAGE_LENGTH: a message length is stored as a 32-bit size_t. */
  const HEADER: nat := 4

  // ----- used and free space -----

  /** prvBytesInBuffer in 32-bit arithmetic. */
  function BytesIn(length: nat, head: nat, tail: nat): Tick {
    var count := Wrap(Wrap(length + head) - tail);
    if count >= length then Wrap(count - length) else count
  }

  /** xStreamBufferSpacesAvailable in 32-bit arithmetic. */
  function Spaces(length: nat, head: nat, tail: nat): Tick {
    var space := Wrap(Wrap(Wrap(length + tail) - head) - 1);
    if space >= length then Wrap(space - length) else space
  }

  /** The distance from `tail` to `head` round a ring. */
  function Distance(length: nat, head: nat, tail: nat): nat
    requires head < length && tail < length
  {
    if head >= tail then head - tail else length + head - tail
  }

  /** Both computations are exact exactly when their intermediate sum fits 32 bits. */
  lemma {:induction false} SpaceExactIff(length: Tick, head: nat, tail: nat)
    requires head < length && tail < length
    ensures BytesIn(length, head, tail) == Distance(length, head, tail) <==> length + head - tail < TICKS
    ensures Spaces(length, head, tail) == length - 1 - Distance(length, head, tail) <==>
            length + tail - head - 1 < TICKS
  {
    hide Wrap;
    WrapMinus(length + head, tail);
    WrapMinus(length + tail, head);
    WrapMinus(length + tail - head, 1);
    WrapSmall(length + head - tail);
    WrapSmall(length + tail - head - 1);
    WrapSmall(length + head - tail - length);
    WrapSmall(length + tail - head - 1 - length);
  }

  lemma {:induction false} WrapMinus(a: int, b: nat)
    ensures Wrap(Wrap(a) - b) == Wrap(a - b)
  {
    assert a == a / 0x1_0000_0000 * 0x1_0000_0000 + a % 0x1_0000_0000;
  }

  lemma {:induction false} WrapSmall(a: int)
    requires a < 2 * TICKS
    ensures a >= 0 ==> Wrap(a) == if a < TICKS then a else a - TICKS
  {
  }

  /** Buffers of at most 2^31 bytes account exactly: used plus free is one less than the length. */
  lemma {:induction false} UsedPlusFree(length: nat, head: nat, tail: nat)
    requires head < length && tail < length && length <= TICKS / 2
    ensures BytesIn(length, head, tail) == Distance(length, head, tail)
    ensures Spaces(length, head, tail) == length - 1 - Distance(length, head, tail)
    ensures BytesIn(length, head, tail) + Spaces(length, head, tail) == length - 1
  {
    SpaceExactIff(length, head, tail);
  }

  /** Where a computation is not exact it reports too little, never too much. */
  lemma {:induction false} SpaceNeverOver(length: Tick, head: nat, tail: nat)
    requires head < length && tail < length
    ensures BytesIn(length, head, tail) <= Distance(length, head, tail)
    ensures Spaces(length, head, tail) <= length - 1 - Distance(length, head, tail)
  {
    hide Wrap;
    WrapMinus(length + head, tail);
    WrapMinus(length + tail, head);
    WrapMinus(length + tail - head, 1);
    WrapSmall(length + head - tail);
    WrapSmall(length + tail - head - 1);
    WrapSmall(length + head - tail - length);
    WrapSmall(length + tail - head - 1 - length);
  }

  /** In a buffer of 3 * 2^30 bytes, 0x9000_0000 bytes in use or free are taken for 0x5000_0000. */
  lemma {:induction false} LargeBuffersUnderReport()
    ensures BytesIn(0xC000_0000, 0x9000_0000, 0) == 0x5000_0000 && Distance(0xC000_0000, 0x9000_0000, 0) == 0x9000_0000
    ensures Spaces(0xC000_0000, 0, 0x9000_0001) == 0x5000_0000 && Distance(0xC000_0000, 0, 0x9000_0001) == 0x2FFF_FFFF
  {
  }

  // ----- cells -----

  /** `n` cells from `at` on, going round. */
  ghost function Cells(buffer: seq<Byte>, at: nat, n: nat): (s: seq<Byte>)
    requires at < |buffer| && n <= |buffer|
    ensures |s| == n && forall j :: 0 <= j < n ==> s[j] == buffer[Around(at + j, |buffer|)]
  {
    seq(n, j requires 0 <= j < n => buffer[Around(at + j, |buffer|)])
  }

  /** `after` is `before` with `data` written from `at` on, going round. */
  ghost predicate Written(before: seq<Byte>, after: seq<Byte>, at: nat, data: seq<Byte>)
    requires at < |before| && |data| <= |before|
  {
    && |after| == |before|
    && forall k :: 0 <= k < |before| ==>
         var j := Distance(|before|, k, at);
         after[k] == if j < |data| then data[j] else before[k]
  }

  lemma {:induction false} CellsSplit(buffer: seq<Byte>, at: nat, a: nat, b: nat)
    requires at < |buffer| && a + b <= |buffer| && a < |buffer|
    ensures Cells(buffer, at, a + b) == Cells(buffer, at, a) + Cells(buffer, Around(at + a, |buffer|), b)
  {
  }

  /** Writing behind the used cells leaves them alone and puts the data right behind them. */
  lemma {:induction false} WriteKeepsCells(before: seq<Byte>, after: seq<Byte>, tail: nat, used: nat, data: seq<Byte>)
    requires tail < |before| && used + |data| <= |before| && used < |before|
    requires Written(before, after, Around(tail + used, |before|), data)
    ensures Cells(after, tail, used) == Cells(before, tail, used)
    ensures Cells(after, Around(tail + used, |before|), |data|) == data
  {
  }

  lemma {:induction false} AroundSum(tail: nat, a: nat, b: nat, length: nat)
    requires tail < length && a < length && b <= length && a + b < length
    ensures Around(Around(tail + a, length) + b, length) == Around(tail + a + b, length)
    ensures Distance(length, Around(tail + a, length), tail) == a
  {
  }

  // ----- message framing -----

  /** The length of a message as it is stored, least significant byte first. */
  function Encode(n: Tick): (h: seq<Byte>)
    ensures |h| == HEADER
  {
    [n % 256, n / 256 % 256, n / 65536 % 256, n / 16777216]
  }

  function Decode(h: seq<Byte>): (n: Tick)
    requires |h| == HEADER
  {
    var a: int, b: int, c: int, d: int := h[0], h[1], h[2], h[3];
    a + 256 * b + 65536 * c + 16777216 * d
  }

  lemma {:induction false} DecodeEncode(n: Tick)
    ensures Decode(Encode(n)) == n
  {
    var a, b := n / 256, n / 65536;
    assert b == a / 256;
    assert n / 16777216 == b / 256;
  }

  // ----- the object -----

  class StreamBuffer {
    const length: nat
    const isMessageBuffer: bool
    const buffer: array<Byte>
    var head: nat
    var tail: nat

    ghost predicate Valid()
      reads this
    {
      && 1 < length < TICKS && (isMessageBuffer ==> HEADER + 1 < length)
      && buffer.Length == length && head < length && tail < length
    }

    /** The bytes written and not yet read. */
    ghost function Contents(): (s: seq<Byte>)
      requires Valid()
      reads this, buffer
    {
      Cells(buffer[..], tail, Distance(length, head, tail))
    }

    /** xStreamBufferGenericCreate, with one more byte than may be stored. */
    constructor (size: nat, isMessageBuffer: bool)
      requires (if isMessageBuffer then HEADER else 0) < size < MAX_DELAY
      ensures Valid() && Contents() == [] && length == size + 1 && fresh(buffer)
      ensures this.isMessageBuffer == isMessageBuffer && head == tail == 0
    {
      length, this.isMessageBuffer, head, tail := size + 1, isMessageBuffer, 0, 0;
      buffer := new Byte[size + 1];
    }

    /** memcpy into the ring, up to its end. */
    method CopyIn(at: nat, data: seq<Byte>)
      requires at + |data| <= buffer.Length
      modifies buffer
      ensures forall k :: 0 <= k < buffer.Length ==>
                buffer[k] == if at <= k < at + |data| then data[k - at] else old(buffer[k])
    {
      for i := 0 to |data|
        invariant forall k :: 0 <= k < buffer.Length ==>
            buffer[k] == if at <= k < at + i then data[k - at] else old(buffer[k])
      {
        buffer[at + i] := data[i];
      }
    }

    /** The two copies of prvWriteBytesToBuffer, before the head moves. */
    method CopyBytes(data: seq<Byte>)
      requires Valid() && 0 < |data| < length
      modifies buffer
      ensures Written(old(buffer[..]), buffer[..], head, data)
    {
      var first := if length - head < |data| then length - head else |data|;
      CopyIn(head, data[..first]);
      if |data| > first {
        CopyIn(0, data[first..]);
      }
    }

    /** prvWriteBytesToBuffer: appends, given the room. */
    method WriteBytes(data: seq<Byte>)
      requires Valid() && 0 < |data| && |Contents()| + |data| < length
      modifies buffer, `head
      ensures Valid() && Contents() == old(Contents()) + data
    {
      hide Cells, Written;
      ghost var used, before := Distance(length, head, tail), buffer[..];
      assert head == Around(tail + used, length);
      CopyBytes(data);
      WriteKeepsCells(before, buffer[..], tail, used, data);
      CellsSplit(buffer[..], tail, used, |data|);
      AroundSum(tail, used, |data|, length);
      AroundSum(tail, used + |data|, 0, length);
      var next := head + |data|;
      if next >= length {
        next := next - length;
      }
      head := next;
    }

    /** The two copies of prvReadBytesFromBuffer, before the tail moves. */
    method CopyOut(count: nat) returns (data: seq<Byte>)
      requires Valid() && 0 < count < length
      ensures data == Cells(buffer[..], tail, count)
    {
      var first := if length - tail < count then length - tail else count;
      data := buffer[tail..tail + first];
      if count > first {
        data := data + buffer[..count - first];
      }
    }

    /** prvReadBytesFromBuffer: takes up to `max` of the `available` bytes off the front. */
    method ReadBytes(max: nat, available: nat) returns (data: seq<Byte>)
      requires Valid() && available <= |Contents()|
      modifies `tail
      ensures Valid() && data + Contents() == old(Contents())
      ensures |data| == if available < max then available else max
    {
      hide Cells;
      var count := if available < max then available else max;
      ghost var used := Distance(length, head, tail);
      data := [];
      if count > 0 {
        data := CopyOut(count);
        CellsSplit(buffer[..], tail, count, used - count);
        AroundSum(tail, count, used - count, length);
        var next := tail + count;
        if next >= length {
          next := next - length;
        }
        tail := next;
        assert Distance(length, head, tail) == used - count;
      }
    }

    /** prvWriteMessageToBuffer with all the free space that is reported. */
    method Send(data: seq<Byte>) returns (sent: nat)
      requires Valid() && 0 < |data| < TICKS - HEADER
      modifies buffer, `head
      ensures Valid()
      ensures var space := Spaces(length, old(head), old(tail));
              if isMessageBuffer then
                sent == (if |data| + HEADER <= space then |data| else 0)
                && Contents() == old(Contents()) + (if sent > 0 then Encode(|data|) + data else [])
              else
                sent == (if |data| < space then |data| else space) && Contents() == old(Contents()) + data[..sent]
      ensures length <= TICKS / 2 && isMessageBuffer ==> (sent > 0 <==> |old(Contents())| + HEADER + |data| < length)
      ensures length <= TICKS / 2 && !isMessageBuffer && sent < |data| ==> |Contents()| == length - 1
    {
      SpaceNeverOver(length, head, tail);
      SpaceExactIff(length, head, tail);
      var space := Spaces(length, head, tail);
      sent := 0;
      if space != 0 {
        if !isMessageBuffer {
          sent := if |data| < space then |data| else space;
          WriteBytes(data[..sent]);
        } else if space >= |data| + HEADER {
          WriteBytes(Encode(|data|));
          WriteBytes(data);
          sent := |data|;
          assert old(Contents()) + Encode(|data|) + data == old(Contents()) + (Encode(|data|) + data);
        }
      }
    }

    /**
     * The reading half of xStreamBufferReceive on a message buffer. Where the contents begin with
     * a frame of `n` bytes, it is returned whole when the bytes reported cover it, left in place
     * when it does not fit `capacity`, and otherwise cut short.
     */
    method ReceiveMessage(capacity: nat) returns (data: seq<Byte>)
      requires Valid() && isMessageBuffer
      modifies `tail
      ensures Valid()
      ensures BytesIn(length, old(head), old(tail)) <= HEADER ==> data == [] && Contents() == old(Contents())
      ensures forall n: Tick, rest :: 0 < n <= |rest| && old(Contents()) == Encode(n) + rest ==>
                Delivered(BytesIn(length, old(head), old(tail)), capacity, n, rest, data, old(Contents()), Contents())
      ensures forall n: Tick, rest :: 0 < n <= |rest| && old(Contents()) == Encode(n) + rest ==>
                (length <= TICKS / 2 && n <= capacity ==> data == rest[..n] && Contents() == rest[n..])
    {
      hide Encode, Decode, Cells, BytesIn, Wrap;
      SpaceNeverOver(length, head, tail);
      SpaceExactIff(length, head, tail);
      var available := BytesIn(length, head, tail);
      data := [];
      if available > HEADER {
        var original := tail;
        var header := ReadBytes(HEADER, available);
        ghost var frames := Contents();
        var next := Decode(header);
        if next > capacity {
          tail := original;
        } else {
          data := ReadBytes(next, available - HEADER);
        }
        forall n: Tick, rest | 0 < n <= |rest| && old(Contents()) == Encode(n) + rest
          ensures Delivered(available, capacity, n, rest, data, old(Contents()), Contents())
        {
          FirstFrame(n, rest, header, frames);
          assert n <= capacity ==> data == rest[..|data|] && Contents() == rest[|data|..];
        }
      }
    }
  }

  lemma {:induction false} FirstFrame(n: Tick, rest: seq<Byte>, header: seq<Byte>, frames: seq<Byte>)
    requires |header| == HEADER && header + frames == Encode(n) + rest
    ensures Decode(header) == n && frames == rest
  {
    assert header == (header + frames)[..HEADER] == Encode(n);
    assert frames == (header + frames)[HEADER..] == rest;
    DecodeEncode(n);
  }

  /** What becomes of a frame of `n` bytes, followed by `rest` from its data on, when `reported` bytes are seen. */
  ghost predicate Delivered(reported: nat, capacity: nat, n: nat, rest: seq<Byte>, data: seq<Byte>,
                            before: seq<Byte>, after: seq<Byte>)
    requires n <= |rest|
  {
    if reported <= HEADER || n > capacity then data == [] && after == before
    else
      var count := if n <= reported - HEADER then n else reported - HEADER;
      data == rest[..count] && after == rest[count..]
  }

  /**
   * In a message buffer of 3 * 2^30 bytes a message of 0x8FFF_FFFC bytes is sent whole and received
   * as its first 0x4FFF_FFFC bytes, although the receiver has room for all of it.
   */
  method CutsLargeMessageShort(data: seq<Byte>) returns (sent: nat, received: seq<Byte>)
    requires |data| == 0x8FFF_FFFC
    ensures sent == |data| && received == data[..0x4FFF_FFFC]
  {
    hide Encode, Cells;
    var b := new StreamBuffer(0xBFFF_FFFF, true);
    assert Spaces(b.length, 0, 0) == 0xBFFF_FFFF;
    sent := b.Send(data);
    EncodeLength(|data|);
    assert b.Contents() == Encode(|data|) + data;
    assert |b.Contents()| == Distance(b.length, b.head, b.tail) == b.head == 0x9000_0000;
    LargeBuffersUnderReport();
    received := b.ReceiveMessage(|data|);
  }

  lemma {:induction false} EncodeLength(n: Tick)
    ensures |Encode(n)| == HEADER
  {
  }
}
