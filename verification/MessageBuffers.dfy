/**
 * A message buffer shared by one writer and one reader, interleaved step by step: copying bytes
 * and publishing them by moving the head or the tail are separate steps.
 */
module MessageBuffers {
  import opened Ticks
  import opened Rings
  import opened Tasks
  import opened StreamBuffers

  type Message = m: seq<Byte> | |m| < 0x1_0000_0000

  /** How far xStreamBufferSend has got. */
  datatype Writer =
    | Resting
    | Admitted(m: Message)
    | HeaderCopied(m: Message)
    | HeaderOut(m: Message)
    | DataCopied(m: Message)

  /** How far xStreamBufferReceive has got; `available` is the count it sampled, less what it read. */
  datatype Reader =
    | Waiting
    | Looked(available: nat)
    | HeaderRead(n: nat, available: nat)
    | DataRead(data: Message)

  /**
   * `out` are all bytes ever published by the head and `taken` how many the tail has released;
   * `sent` and `received` are the messages completely written and completely read.
   */
  datatype System = System(
    buffer: seq<Byte>, head: nat, tail: nat, writer: Writer, reader: Reader,
    out: seq<Byte>, taken: nat, sent: seq<Message>, received: seq<Message>)

  datatype Op =
    | Begin(m: Message)
    | CopyHeader
    | PublishHeader
    | CopyData
    | PublishData
    | Look
    | TakeHeader(capacity: nat)
    | ReadData
    | PublishTail

  ghost function Frames(messages: seq<Message>): seq<Byte> {
    if messages == [] then [] else Encode(|messages[0]|) + messages[0] + Frames(messages[1..])
  }

  ghost predicate Sendable(m: Message) {
    0 < |m| < TICKS - HEADER
  }

  // ----- the invariant -----

  ghost function Used(s: System): int {
    |s.out| - s.taken
  }

  /** The ring holds the published bytes that were not released, from the tail to the head. */
  ghost predicate RingSound(s: System) {
    && HEADER < |s.buffer| <= TICKS / 2 && s.head < |s.buffer| && s.tail < |s.buffer|
    && 0 <= Used(s) < |s.buffer|
    && s.head == Around(s.tail + Used(s), |s.buffer|)
    && Cells(s.buffer, s.tail, Used(s)) == s.out[s.taken..]
  }

  ghost predicate MessagesSound(s: System) {
    && (forall m :: m in s.sent ==> Sendable(m))
    && s.received <= s.sent
  }

  /** Whole frames, then at most one header whose data is still to come. */
  ghost predicate WriterSound(s: System)
    requires RingSound(s) && MessagesSound(s)
  {
    match s.writer
    case Resting => s.out == Frames(s.sent)
    case Admitted(m) => Sendable(m) && s.out == Frames(s.sent) && Used(s) + HEADER + |m| < |s.buffer|
    case HeaderCopied(m) =>
      && Sendable(m) && s.out == Frames(s.sent) && Used(s) + HEADER + |m| < |s.buffer|
      && Cells(s.buffer, s.head, HEADER) == Encode(|m|)
    case HeaderOut(m) => Sendable(m) && s.out == Frames(s.sent) + Encode(|m|) && Used(s) + |m| < |s.buffer|
    case DataCopied(m) =>
      && Sendable(m) && s.out == Frames(s.sent) + Encode(|m|) && Used(s) + |m| < |s.buffer|
      && Cells(s.buffer, s.head, |m|) == m
  }

  ghost predicate ReaderSound(s: System)
    requires RingSound(s) && MessagesSound(s)
  {
    match s.reader
    case Waiting => s.taken == |Frames(s.received)|
    case Looked(available) =>
      && s.taken == |Frames(s.received)| && |s.received| < |s.sent|
      && HEADER + |s.sent[|s.received|]| <= available <= Used(s)
    case HeaderRead(n, available) =>
      && s.taken == |Frames(s.received)| + HEADER && |s.received| < |s.sent|
      && n == |s.sent[|s.received|]| <= available <= Used(s)
    case DataRead(data) =>
      && s.taken == |Frames(s.received)| + HEADER && |s.received| < |s.sent|
      && data == s.sent[|s.received|] && |data| <= Used(s)
  }

  ghost predicate Inv(s: System) {
    RingSound(s) && MessagesSound(s) && WriterSound(s) && ReaderSound(s)
  }

  // ----- steps -----

  ghost predicate Enabled(s: System, op: Op) {
    match op
    case Begin(m) => s.writer.Resting? && Sendable(m)
    case CopyHeader => s.writer.Admitted?
    case PublishHeader => s.writer.HeaderCopied?
    case CopyData => s.writer.HeaderOut?
    case PublishData => s.writer.DataCopied?
    case Look => s.reader.Waiting?
    case TakeHeader(_) => s.reader.Looked?
    case ReadData => s.reader.HeaderRead?
    case PublishTail => s.reader.DataRead?
  }

  /** The ring after the writer's copy of `data` behind the head. */
  ghost function Copied(buffer: seq<Byte>, head: nat, data: seq<Byte>): (after: seq<Byte>)
    requires head < |buffer| && |data| <= |buffer|
    ensures |after| == |buffer| && Written(buffer, after, head, data)
  {
    seq(|buffer|, k requires 0 <= k < |buffer| =>
          var j := Distance(|buffer|, k, head);
          if j < |data| then data[j] else buffer[k])
  }

  ghost function PublishHead(s: System, data: seq<Byte>): System
    requires s.head + |data| < 2 * |s.buffer|
  {
    s.(head := Around(s.head + |data|, |s.buffer|), out := s.out + data)
  }

  ghost function ReleaseTail(s: System, n: nat): System
    requires s.tail + n < 2 * |s.buffer|
  {
    s.(tail := Around(s.tail + n, |s.buffer|), taken := s.taken + n)
  }

  ghost function Step(s: System, op: Op): System
    requires Inv(s)
  {
    if !Enabled(s, op) then s else
    match op
    case Begin(m) =>
      var space := Spaces(|s.buffer|, s.head, s.tail);
      if space != 0 && space >= |m| + HEADER then s.(writer := Admitted(m)) else s
    case CopyHeader =>
      s.(buffer := Copied(s.buffer, s.head, Encode(|s.writer.m|)), writer := HeaderCopied(s.writer.m))
    case PublishHeader => PublishHead(s, Cells(s.buffer, s.head, HEADER)).(writer := HeaderOut(s.writer.m))
    case CopyData => s.(buffer := Copied(s.buffer, s.head, s.writer.m), writer := DataCopied(s.writer.m))
    case PublishData =>
      PublishHead(s, Cells(s.buffer, s.head, |s.writer.m|)).(writer := Resting, sent := s.sent + [s.writer.m])
    case Look =>
      var available := BytesIn(|s.buffer|, s.head, s.tail);
      if available > HEADER then s.(reader := Looked(available)) else s
    case TakeHeader(capacity) =>
      var n := Decode(Cells(s.buffer, s.tail, HEADER));
      if n > capacity then s.(reader := Waiting)
      else ReleaseTail(s, HEADER).(reader := HeaderRead(n, s.reader.available - HEADER))
    case ReadData =>
      var count := if s.reader.available < s.reader.n then s.reader.available else s.reader.n;
      s.(reader := DataRead(Cells(s.buffer, s.tail, count)))
    case PublishTail =>
      ReleaseTail(s, |s.reader.data|).(reader := Waiting, received := s.received + [s.reader.data])
  }

  // ----- frames -----

  lemma {:induction false} FramesConcat(a: seq<Message>, b: seq<Message>)
    ensures Frames(a + b) == Frames(a) + Frames(b)
  {
    if a == [] {
      assert a + b == b;
    } else {
      assert (a + b)[1..] == a[1..] + b && (a + b)[0] == a[0];
      FramesConcat(a[1..], b);
    }
  }

  /** The frames still to be received follow those received. */
  lemma {:induction false} FramesSplit(s: System)
    requires MessagesSound(s)
    ensures Frames(s.sent) == Frames(s.received) + Frames(s.sent[|s.received|..])
    ensures |s.received| < |s.sent| ==>
              var m := s.sent[|s.received|];
              Frames(s.sent[|s.received|..]) == Encode(|m|) + m + Frames(s.sent[|s.received| + 1..])
  {
    assert s.received == s.sent[..|s.received|];
    assert s.sent == s.received + s.sent[|s.received|..];
    FramesConcat(s.received, s.sent[|s.received|..]);
  }

  lemma {:induction false} FramesSnoc(messages: seq<Message>, m: Message)
    ensures Frames(messages + [m]) == Frames(messages) + Encode(|m|) + m
  {
    FramesConcat(messages, [m]);
    assert Frames([m]) == Encode(|m|) + m;
  }

  // ----- the ring under each step -----

  lemma {:induction false} SpaceIs(s: System)
    requires RingSound(s)
    ensures BytesIn(|s.buffer|, s.head, s.tail) == Used(s)
    ensures Spaces(|s.buffer|, s.head, s.tail) == |s.buffer| - 1 - Used(s)
  {
    UsedPlusFree(|s.buffer|, s.head, s.tail);
    AroundSum(s.tail, Used(s), 0, |s.buffer|);
  }

  /** Copying behind the head is invisible to the reader. */
  lemma {:induction false} CopyRing(s: System, data: seq<Byte>)
    requires RingSound(s) && Used(s) + |data| < |s.buffer|
    ensures var s' := s.(buffer := Copied(s.buffer, s.head, data));
            RingSound(s') && Cells(s'.buffer, s.head, |data|) == data
  {
    hide Cells, Written, Copied;
    WriteKeepsCells(s.buffer, Copied(s.buffer, s.head, data), s.tail, Used(s), data);
  }

  lemma {:induction false} PublishRing(s: System, n: nat)
    requires RingSound(s) && Used(s) + n < |s.buffer|
    ensures RingSound(PublishHead(s, Cells(s.buffer, s.head, n)))
  {
    hide Cells;
    CellsSplit(s.buffer, s.tail, Used(s), n);
    AroundSum(s.tail, Used(s), n, |s.buffer|);
    var more := Cells(s.buffer, s.head, n);
    assert (s.out + more)[s.taken..] == s.out[s.taken..] + more;
  }

  lemma {:induction false} ReleaseCells(buffer: seq<Byte>, tail: nat, used: nat, n: nat, held: seq<Byte>)
    requires tail < |buffer| && n <= used < |buffer| && Cells(buffer, tail, used) == held
    ensures Cells(buffer, tail, n) == held[..n] && Cells(buffer, Around(tail + n, |buffer|), used - n) == held[n..]
    ensures Around(Around(tail + n, |buffer|) + (used - n), |buffer|) == Around(tail + used, |buffer|)
  {
    hide Cells;
    CellsSplit(buffer, tail, n, used - n);
    AroundSum(tail, n, used - n, |buffer|);
    Halves(Cells(buffer, tail, n), Cells(buffer, Around(tail + n, |buffer|), used - n), held);
  }

  lemma {:induction false} ReleaseRing(s: System, n: nat)
    requires RingSound(s) && n <= Used(s)
    ensures RingSound(ReleaseTail(s, n)) && Cells(s.buffer, s.tail, n) == s.out[s.taken..s.taken + n]
  {
    hide Cells;
    ReleaseCells(s.buffer, s.tail, Used(s), n, s.out[s.taken..]);
    DropTwice(s.out, s.taken, n);
  }

  lemma {:induction false} DropTwice(x: seq<Byte>, a: nat, b: nat)
    requires a + b <= |x|
    ensures x[a..][..b] == x[a..a + b] && x[a..][b..] == x[a + b..]
  {
  }

  lemma {:induction false} Halves(x: seq<Byte>, y: seq<Byte>, z: seq<Byte>)
    requires x + y == z
    ensures x == z[..|x|] && y == z[|x|..]
  {
  }

  // ----- every step keeps the invariant -----

  lemma {:induction false} WriterStepInv(s: System, op: Op)
    requires Inv(s) && Enabled(s, op)
    requires op.Begin? || op.CopyHeader? || op.CopyData?
    ensures Inv(Step(s, op))
  {
    hide Frames, Cells, Copied, Written;
    match op
    case Begin(m) => SpaceIs(s);
    case CopyHeader => CopyRing(s, Encode(|s.writer.m|));
    case CopyData => CopyRing(s, s.writer.m);
  }

  lemma {:induction false} PublishHeaderInv(s: System)
    requires Inv(s) && s.writer.HeaderCopied?
    ensures Inv(Step(s, PublishHeader))
  {
    hide Frames, Cells;
    PublishRing(s, HEADER);
  }

  lemma {:induction false} PublishDataInv(s: System)
    requires Inv(s) && s.writer.DataCopied?
    ensures Inv(Step(s, PublishData))
  {
    hide Frames, Cells;
    var m := s.writer.m;
    PublishRing(s, |m|);
    FramesSnoc(s.sent, m);
  }

  /** More than a header available means that a whole frame is. */
  lemma {:induction false} LookInv(s: System)
    requires Inv(s) && s.reader.Waiting?
    ensures Inv(Step(s, Look))
  {
    hide Cells, Encode;
    SpaceIs(s);
    FramesSplit(s);
    assert s.sent[|s.received|..] == [] ==> Frames(s.sent[|s.received|..]) == [];
  }

  lemma {:induction false} NextFrame(s: System)
    requires Inv(s) && |s.received| < |s.sent|
    ensures var m, at := s.sent[|s.received|], |Frames(s.received)|;
            && at + HEADER + |m| <= |s.out|
            && s.out[at..at + HEADER] == Encode(|m|)
            && s.out[at + HEADER..at + HEADER + |m|] == m
  {
    hide Cells, Frames, Encode;
    FramesSplit(s);
    var m, a, b := s.sent[|s.received|], Frames(s.received), Frames(s.sent[|s.received| + 1..]);
    Slices(s.out, Frames(s.sent), a, Encode(|m|), m, b);
  }

  lemma {:induction false} Slices(out: seq<Byte>, whole: seq<Byte>, a: seq<Byte>, h: seq<Byte>, m: seq<Byte>,
                                  b: seq<Byte>)
    requires whole <= out && whole == a + (h + m + b)
    ensures |a| + |h| + |m| <= |out|
    ensures out[|a|..|a| + |h|] == h && out[|a| + |h|..|a| + |h| + |m|] == m
  {
    assert whole[|a|..|a| + |h|] == h && whole[|a| + |h|..|a| + |h| + |m|] == m;
  }

  lemma {:induction false} TakeHeaderInv(s: System, capacity: nat)
    requires Inv(s) && s.reader.Looked?
    ensures Inv(Step(s, TakeHeader(capacity)))
    ensures Decode(Cells(s.buffer, s.tail, HEADER)) == |s.sent[|s.received|]|
  {
    hide Frames, Cells, Decode, Encode;
    var m := s.sent[|s.received|];
    ReleaseRing(s, HEADER);
    NextFrame(s);
    DecodeEncode(|m|);
  }

  lemma {:induction false} ReadDataInv(s: System)
    requires Inv(s) && s.reader.HeaderRead?
    ensures Inv(Step(s, ReadData))
  {
    hide Frames, Cells, Encode;
    ReleaseRing(s, s.reader.n);
    NextFrame(s);
  }

  lemma {:induction false} PublishTailInv(s: System)
    requires Inv(s) && s.reader.DataRead?
    ensures Inv(Step(s, PublishTail))
  {
    hide Frames, Cells, Encode;
    var data := s.reader.data;
    ReleaseRing(s, |data|);
    FramesSnoc(s.received, data);
    assert s.received + [data] == s.sent[..|s.received| + 1];
  }

  lemma {:induction false} StepInv(s: System, op: Op)
    requires Inv(s)
    ensures Inv(Step(s, op))
  {
    hide Inv, Step;
    if Enabled(s, op) {
      match op
      case Begin(_) => WriterStepInv(s, op);
      case CopyHeader => WriterStepInv(s, op);
      case CopyData => WriterStepInv(s, op);
      case PublishHeader => PublishHeaderInv(s);
      case PublishData => PublishDataInv(s);
      case Look => LookInv(s);
      case TakeHeader(capacity) => TakeHeaderInv(s, capacity);
      case ReadData => ReadDataInv(s);
      case PublishTail => PublishTailInv(s);
    } else {
      NoStep(s, op);
    }
  }

  lemma {:induction false} NoStep(s: System, op: Op)
    requires Inv(s) && !Enabled(s, op)
    ensures Step(s, op) == s
  {
  }

  ghost function Run(s: System, ops: seq<Op>): (s': System)
    requires Inv(s)
    ensures Inv(s')
    decreases |ops|
  {
    hide Inv, Step;
    if ops == [] then s
    else
      StepInv(s, ops[0]);
      Run(Step(s, ops[0]), ops[1..])
  }

  ghost function Start(buffer: seq<Byte>): System {
    System(buffer, 0, 0, Resting, Waiting, [], 0, [], [])
  }

  /**
   * The ring holds the published bytes not yet released; these are whole frames, less the header
   * of a frame being read, and followed by at most one bare header; and the messages received
   * are the first of those sent, whole and in order.
   */
  ghost predicate Framed(s: System)
    requires RingSound(s)
  {
    && s.received <= s.sent
    && Cells(s.buffer, s.tail, Used(s)) == s.out[s.taken..]
    && (s.out == Frames(s.sent) || exists m :: Sendable(m) && s.out == Frames(s.sent) + Encode(|m|))
    && (s.taken == |Frames(s.received)| || s.taken == |Frames(s.received)| + HEADER)
  }

  lemma {:induction false} InvFramed(s: System)
    requires Inv(s)
    ensures Framed(s)
  {
    hide Frames, Cells, Encode;
    if s.writer.HeaderOut? || s.writer.DataCopied? {
      assert Sendable(s.writer.m) && s.out == Frames(s.sent) + Encode(|s.writer.m|);
    }
  }

  /** In every interleaving, with used plus free space always the length less one. */
  lemma {:induction false} WholeMessagesInOrder(buffer: seq<Byte>, ops: seq<Op>)
    requires HEADER < |buffer| <= TICKS / 2
    ensures Inv(Start(buffer)) && Framed(Run(Start(buffer), ops))
    ensures var s := Run(Start(buffer), ops);
            && BytesIn(|s.buffer|, s.head, s.tail) == Used(s)
            && BytesIn(|s.buffer|, s.head, s.tail) + Spaces(|s.buffer|, s.head, s.tail) == |s.buffer| - 1
  {
    hide Run, Frames, Cells, Encode, WriterSound, ReaderSound, MessagesSound, Framed;
    StartInv(buffer);
    InvFramed(Run(Start(buffer), ops));
    SpaceIs(Run(Start(buffer), ops));
  }

  lemma {:induction false} StartInv(buffer: seq<Byte>)
    requires HEADER < |buffer| <= TICKS / 2
    ensures Inv(Start(buffer))
  {
  }

  /** A sent message is there to be received: four reader steps deliver the next one. */
  lemma {:induction false} NextDelivered(s: System, capacity: nat)
    requires Inv(s) && s.reader.Waiting? && |s.received| < |s.sent| && |s.sent[|s.received|]| <= capacity
    ensures Run(s, [Look, TakeHeader(capacity), ReadData, PublishTail]).received
         == s.received + [s.sent[|s.received|]]
  {
    hide Inv, Run;
    LookDelivers(s);
    var s1 := Step(s, Look);
    TakeDelivers(s1, capacity);
    var s2 := Step(s1, TakeHeader(capacity));
    ReadDelivers(s2);
    var s3 := Step(s2, ReadData);
    PublishTailInv(s3);
    FourSteps(s, Look, TakeHeader(capacity), ReadData, PublishTail);
  }

  lemma {:induction false} FourSteps(s: System, a: Op, b: Op, c: Op, d: Op)
    requires Inv(s)
    ensures Inv(Step(s, a)) && Inv(Step(Step(s, a), b)) && Inv(Step(Step(Step(s, a), b), c))
    ensures Run(s, [a, b, c, d]) == Step(Step(Step(Step(s, a), b), c), d)
  {
    hide Inv, Step;
    StepInv(s, a);
    StepInv(Step(s, a), b);
    StepInv(Step(Step(s, a), b), c);
    StepInv(Step(Step(Step(s, a), b), c), d);
    assert [a, b, c, d][1..] == [b, c, d] && [b, c, d][1..] == [c, d] && [c, d][1..] == [d] && [d][1..] == [];
    assert Run(Step(Step(Step(s, a), b), c), [d]) == Step(Step(Step(Step(s, a), b), c), d);
    assert Run(Step(Step(s, a), b), [c, d]) == Run(Step(Step(Step(s, a), b), c), [d]);
    assert Run(Step(s, a), [b, c, d]) == Run(Step(Step(s, a), b), [c, d]);
  }

  lemma {:induction false} LookDelivers(s: System)
    requires Inv(s) && s.reader.Waiting? && |s.received| < |s.sent|
    ensures var s' := Step(s, Look);
            Inv(s') && s'.reader.Looked? && s'.received == s.received && s'.sent == s.sent
  {
    hide Frames, Cells, Encode;
    LookInv(s);
    NextFrame(s);
    SpaceIs(s);
    assert s.sent[|s.received|] in s.sent;
  }

  lemma {:induction false} TakeDelivers(s: System, capacity: nat)
    requires Inv(s) && s.reader.Looked? && |s.sent[|s.received|]| <= capacity
    ensures var s' := Step(s, TakeHeader(capacity));
            Inv(s') && s'.reader.HeaderRead? && s'.received == s.received && s'.sent == s.sent
  {
    hide Frames, Cells, Encode, Decode;
    TakeHeaderInv(s, capacity);
  }

  lemma {:induction false} ReadDelivers(s: System)
    requires Inv(s) && s.reader.HeaderRead?
    ensures var s' := Step(s, ReadData);
            && Inv(s') && s'.received == s.received && s'.sent == s.sent
            && s'.reader == DataRead(s.sent[|s.received|])
  {
    hide Frames, Cells, Encode;
    ReadDataInv(s);
  }

  // ----- the writer -----

  lemma {:induction false} BeginAdmits(s: System, m: Message)
    requires Inv(s) && s.writer.Resting? && Sendable(m)
    ensures Step(s, Begin(m))
            == if Used(s) + HEADER + |m| < |s.buffer| then s.(writer := Admitted(m)) else s
  {
    hide Frames, Cells, Encode;
    SpaceIs(s);
  }

  lemma {:induction false} HeaderGoesOut(s: System)
    requires Inv(s) && s.writer.Admitted?
    ensures Inv(Step(s, CopyHeader))
    ensures var s' := Step(Step(s, CopyHeader), PublishHeader);
            && s'.writer == HeaderOut(s.writer.m) && s'.sent == s.sent
            && s'.received == s.received && s'.reader == s.reader
  {
    hide Frames, Cells, Encode;
    StepInv(s, CopyHeader);
  }

  lemma {:induction false} DataGoesOut(s: System)
    requires Inv(s) && s.writer.HeaderOut?
    ensures Inv(Step(s, CopyData))
    ensures var s' := Step(Step(s, CopyData), PublishData);
            && s'.writer == Resting && s'.sent == s.sent + [s.writer.m]
            && s'.received == s.received && s'.reader == s.reader
  {
    hide Frames, Cells, Encode;
    StepInv(s, CopyData);
  }

  /** The five steps of a send complete the message exactly when it fits, and otherwise do nothing. */
  lemma {:induction false} SentIff(s: System, m: Message)
    requires Inv(s) && s.writer.Resting? && Sendable(m)
    ensures var s' := Run(s, [Begin(m), CopyHeader, PublishHeader, CopyData, PublishData]);
            if Used(s) + HEADER + |m| < |s.buffer| then
              s'.sent == s.sent + [m] && s'.received == s.received && s'.reader == s.reader && s'.writer.Resting?
            else s' == s
  {
    hide Inv, Run, Step;
    StepInv(s, Begin(m));
    BeginAdmits(s, m);
    var s1 := Step(s, Begin(m));
    FiveSteps(s, Begin(m), CopyHeader, PublishHeader, CopyData, PublishData);
    FourSteps(s1, CopyHeader, PublishHeader, CopyData, PublishData);
    if Used(s) + HEADER + |m| < |s.buffer| {
      HeaderGoesOut(s1);
      DataGoesOut(Step(Step(s1, CopyHeader), PublishHeader));
    } else {
      NoStep(s, CopyHeader);
      NoStep(s, PublishHeader);
      NoStep(s, CopyData);
      NoStep(s, PublishData);
    }
  }

  lemma {:induction false} FiveSteps(s: System, a: Op, b: Op, c: Op, d: Op, e: Op)
    requires Inv(s)
    ensures Inv(Step(s, a)) && Run(s, [a, b, c, d, e]) == Run(Step(s, a), [b, c, d, e])
  {
    hide Inv, Step;
    StepInv(s, a);
    assert [a, b, c, d, e][1..] == [b, c, d, e];
  }

  /** A message longer than the reader has room for is left where it is. */
  lemma {:induction false} TooLongIsLeft(s: System, capacity: nat)
    requires Inv(s) && s.reader.Looked? && |s.sent[|s.received|]| > capacity
    ensures Step(s, TakeHeader(capacity)) == s.(reader := Waiting)
  {
    hide Frames, Cells, Encode, Decode;
    TakeHeaderInv(s, capacity);
  }
}
