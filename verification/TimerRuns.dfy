/**
 * The timer service over whole runs: an auto-reload timer that is started once and then left
 * alone fires once per period, never early, across any number of wraps of the tick count.
 */
module TimerRuns {
  import opened Ticks
  import opened Rings
  import opened Timers

  /** `clock` is the unbounded time now, `sampled` the time the service task last looked at. */
  datatype System = System(d: Daemon, sampled: nat, clock: nat)

  datatype Op =
    | Elapse
    | DoTimer
    | DoCommand
    | Submit(m: Message)

  ghost function Step(s: System, op: Op): System
    requires Known(s.d)
  {
    match op
    case Elapse => s.(clock := s.clock + 1)
    case DoTimer => s.(d := ProcessTimer(s.d, s.clock), sampled := s.clock)
    case DoCommand => if s.d.commands == [] then s else s.(d := ProcessCommand(s.d, s.clock), sampled := s.clock)
    case Submit(m) =>
      if m.timer in s.d.timers && |s.d.commands| < QUEUE_LENGTH then s.(d := s.d.(commands := s.d.commands + [m]))
      else s
  }

  // ----- one timer's share of the state -----

  ghost function ItemsOf(l: seq<Item<Id>>, x: Id): seq<Item<Id>> {
    if l == [] then [] else if l[0].owner == x then [l[0]] + ItemsOf(l[1..], x) else ItemsOf(l[1..], x)
  }

  ghost function MessagesOf(c: seq<Message>, x: Id): seq<Message> {
    if c == [] then [] else if c[0].timer == x then [c[0]] + MessagesOf(c[1..], x) else MessagesOf(c[1..], x)
  }

  /** The times at which the callbacks of `x` ran. */
  ghost function FiredAt(log: seq<(Id, nat)>, x: Id): seq<nat> {
    if log == [] then [] else if log[0].0 == x then [log[0].1] + FiredAt(log[1..], x) else FiredAt(log[1..], x)
  }

  lemma {:induction false} ItemsConcat(a: seq<Item<Id>>, b: seq<Item<Id>>, x: Id)
    ensures ItemsOf(a + b, x) == ItemsOf(a, x) + ItemsOf(b, x)
  {
    if a == [] {
      assert a + b == b;
    } else {
      assert (a + b)[1..] == a[1..] + b && (a + b)[0] == a[0];
      ItemsConcat(a[1..], b, x);
    }
  }

  lemma {:induction false} ItemsInsert(l: seq<Item<Id>>, y: Item<Id>, x: Id)
    requires y.owner == x ==> ItemsOf(l, x) == []
    ensures ItemsOf(InsertSorted(l, y), x) == if y.owner == x then [y] else ItemsOf(l, x)
  {
    var p := Position(l, y.value);
    ItemsConcat(l[..p] + [y], l[p..], x);
    ItemsConcat(l[..p], [y], x);
    ItemsConcat(l[..p], l[p..], x);
    assert l == l[..p] + l[p..];
    assert ItemsOf([y], x) == if y.owner == x then [y] else [];
  }

  lemma {:induction false} ItemsWithout(l: seq<Item<Id>>, y: Id, x: Id)
    ensures ItemsOf(Without(l, y), x) == if y == x then [] else ItemsOf(l, x)
  {
    if l != [] {
      ItemsWithout(l[1..], y, x);
      assert l[0].owner != y ==> Without(l, y)[1..] == Without(l[1..], y);
    }
  }

  lemma {:induction false} MessagesSnoc(c: seq<Message>, m: Message, x: Id)
    ensures MessagesOf(c + [m], x) == if m.timer == x then MessagesOf(c, x) + [m] else MessagesOf(c, x)
  {
    if c == [] {
      assert c + [m] == [m];
    } else {
      assert (c + [m])[1..] == c[1..] + [m];
      MessagesSnoc(c[1..], m, x);
    }
  }

  lemma {:induction false} FiredSnoc(log: seq<(Id, nat)>, y: Id, now: nat, x: Id)
    ensures FiredAt(log + [(y, now)], x) == if y == x then FiredAt(log, x) + [now] else FiredAt(log, x)
  {
    if log == [] {
      assert log + [(y, now)] == [(y, now)];
    } else {
      assert (log + [(y, now)])[1..] == log[1..] + [(y, now)];
      FiredSnoc(log[1..], y, now, x);
    }
  }

  // ----- the invariant -----

  /** The expiry number `k` of a timer of period `p` started at `c`. */
  ghost function Expiry(c: nat, p: nat, k: nat): nat {
    c + k * p
  }

  lemma ExpiryStep(c: nat, p: nat, k: nat)
    ensures Expiry(c, p, k + 1) == Expiry(c, p, k) + p
  {
  }

  /** `x` is listed for, or has a restart posted towards, the unbounded time `due`. */
  ghost predicate Located(d: Daemon, x: Id, p: nat, due: nat, epoch: nat, now: nat) {
    var i, o, m := ItemsOf(d.current, x), ItemsOf(d.overflow, x), MessagesOf(d.commands, x);
    || (i == [Item(x, Wrap(due))] && o == [] && m == [] && Epoch(due) == epoch)
    || (i == [] && o == [Item(x, Wrap(due))] && m == [] && Epoch(due) == epoch + 1)
    || (i == [] && o == [] && due >= p && m == [Message(x, Start, Wrap(due - p))] && due - p <= now)
  }

  /** No callback of `x` ran before the expiry it stands for. */
  ghost predicate NeverEarly(fired: seq<nat>, c: nat, p: nat) {
    forall k: nat :: k < |fired| ==> fired[k] >= Expiry(c, p, k + 1)
  }

  /** The service state as it concerns `x`, seen in `epoch`, with nothing later than `now` done. */
  ghost predicate Tracks(d: Daemon, x: Id, p: nat, c: nat, epoch: nat, now: nat) {
    var fired := FiredAt(d.log, x);
    && Known(d) && Sorted(d.current) && Sorted(d.overflow)
    && x in d.timers && d.timers[x].period == p > 0 && d.timers[x].autoReload
    && NeverEarly(fired, c, p) && (fired == [] || Expiry(c, p, |fired|) <= now)
    && Located(d, x, p, Expiry(c, p, |fired| + 1), epoch, now)
  }

  // ----- switching the lists -----

  lemma {:induction false} Posted(d: Daemon, m: Message, x: Id)
    ensures Post(d, m).lost || MessagesOf(Post(d, m).commands, x)
                             == if m.timer == x then MessagesOf(d.commands, x) + [m] else MessagesOf(d.commands, x)
  {
    MessagesSnoc(d.commands, m, x);
  }

  lemma {:induction false} PostOther(d: Daemon, m: Message, x: Id)
    requires m.timer != x
    ensures MessagesOf(Post(d, m).commands, x) == MessagesOf(d.commands, x)
  {
    MessagesSnoc(d.commands, m, x);
  }

  /** After a callback of `x` the next expiry is one period on. */
  lemma {:induction false} FiredOnce(log: seq<(Id, nat)>, x: Id, p: nat, c: nat, now: nat)
    requires NeverEarly(FiredAt(log, x), c, p) && Expiry(c, p, |FiredAt(log, x)| + 1) <= now
    ensures var fired := FiredAt(log + [(x, now)], x);
            && |fired| == |FiredAt(log, x)| + 1 && NeverEarly(fired, c, p) && Expiry(c, p, |fired|) <= now
            && Expiry(c, p, |fired| + 1) == Expiry(c, p, |FiredAt(log, x)| + 1) + p
  {
    hide Expiry;
    FiredSnoc(log, x, now, x);
    ExpiryStep(c, p, |FiredAt(log, x)| + 1);
  }

  lemma {:induction false} TailSorted(l: seq<Item<Id>>)
    requires Sorted(l) && l != []
    ensures Sorted(l[1..])
  {
  }

  /** Whether a reload stays below the wrap tells whether the next expiry is in the same epoch. */
  lemma {:induction false} ReloadEpoch(due: nat, p: Tick)
    requires p > 0
    ensures Wrap(due + p) == Wrap(Wrap(due) + p)
    ensures Wrap(due + p) > Wrap(due) <==> Epoch(due + p) == Epoch(due)
  {
    WrapSum(due, p);
    NearEpochs(due, due + p);
    AtSplits(due);
    AtSplits(due + p);
  }

  lemma {:induction false} HeadKnown(d: Daemon)
    requires Known(d) && d.current != []
    ensures d.current[0].owner in d.timers && d.current[0].value < TICKS
  {
  }

  /** What `x` sees of one turn of the switching loop. */
  ghost predicate Follows(d: Daemon, x: Id, p: nat, c: nat, epoch: nat, now: nat) {
    var fired := FiredAt(d.log, x);
    && NeverEarly(fired, c, p) && (fired == [] || Expiry(c, p, |fired|) <= now)
    && Located(d, x, p, Expiry(c, p, |fired| + 1), epoch, now)
  }

  lemma {:induction false} SwitchShape(d: Daemon, now: nat)
    requires Known(d) && d.current != [] && Sorted(d.current) && Sorted(d.overflow)
    ensures var d' := SwitchOne(d, now); Known(d') && Sorted(d'.current) && Sorted(d'.overflow) && d'.timers == d.timers
  {
    hide Wrap, InsertSorted, Known;
    SwitchOneProgress(d, now);
    HeadKnown(d);
    TailSorted(d.current);
    var id, next := d.current[0].owner, d.current[0].value;
    InsertSortedStable(d.current[1..], Item(id, Wrap(next + d.timers[id].period)));
  }

  lemma {:induction false} SwitchOneTracks(d: Daemon, x: Id, p: nat, c: nat, epoch: nat, now: nat)
    requires Tracks(d, x, p, c, epoch, now) && d.current != [] && Epoch(now) == epoch + 1
    ensures var d' := SwitchOne(d, now); d'.lost || Tracks(d', x, p, c, epoch, now)
  {
    hide Located, Expiry, Epoch, NeverEarly, Known, Sorted, SwitchOne;
    HeadKnown(d);
    SwitchShape(d, now);
    if d.current[0].owner == x {
      SwitchSelf(d, x, p, c, epoch, now);
    } else {
      SwitchOther(d, x, now);
      SameFollows(d, SwitchOne(d, now), x, p, c, epoch, now);
    }
  }

  /** `d'` looks to `x` as `d` does. */
  ghost predicate SameFor(d: Daemon, d': Daemon, x: Id) {
    && ItemsOf(d'.current, x) == ItemsOf(d.current, x) && ItemsOf(d'.overflow, x) == ItemsOf(d.overflow, x)
    && MessagesOf(d'.commands, x) == MessagesOf(d.commands, x) && FiredAt(d'.log, x) == FiredAt(d.log, x)
  }

  lemma {:induction false} SameFollows(d: Daemon, d': Daemon, x: Id, p: nat, c: nat, epoch: nat, now: nat)
    requires Follows(d, x, p, c, epoch, now) && SameFor(d, d', x)
    ensures Follows(d', x, p, c, epoch, now)
  {
    hide ItemsOf, MessagesOf, FiredAt, Expiry, Wrap, Epoch, NeverEarly;
  }

  /** A turn of the switching loop for another timer does not touch `x`. */
  lemma {:induction false} SwitchOther(d: Daemon, x: Id, now: nat)
    requires Known(d) && d.current != [] && d.current[0].owner != x
    ensures SameFor(d, SwitchOne(d, now), x)
  {
    hide Wrap, InsertSorted, Known, MessagesOf, FiredAt;
    HeadKnown(d);
    var y, next := d.current[0].owner, d.current[0].value;
    FiredSnoc(d.log, y, now, x);
    assert ItemsOf(d.current, x) == ItemsOf(d.current[1..], x);
    ItemsInsert(d.current[1..], Item(y, Wrap(next + d.timers[y].period)), x);
    PostOther(d.(current := d.current[1..], log := d.log + [(y, now)]), Message(y, Start, next), x);
  }

  /** The head of the current list, when it belongs to `x`, is what `x` is listed for. */
  lemma {:induction false} HeadIsSelf(d: Daemon, x: Id, p: nat, due: nat, epoch: nat, now: nat)
    requires Located(d, x, p, due, epoch, now) && d.current != [] && d.current[0].owner == x
    ensures d.current[0].value == Wrap(due) && Epoch(due) == epoch
    ensures ItemsOf(d.current[1..], x) == [] && ItemsOf(d.overflow, x) == [] && MessagesOf(d.commands, x) == []
  {
    hide MessagesOf, Wrap, Epoch;
    assert ItemsOf(d.current, x) == [d.current[0]] + ItemsOf(d.current[1..], x);
    assert ItemsOf(d.current, x)[0] == d.current[0];
  }

  lemma {:induction false} SwitchSelf(d: Daemon, x: Id, p: nat, c: nat, epoch: nat, now: nat)
    requires Tracks(d, x, p, c, epoch, now) && d.current != [] && d.current[0].owner == x && Epoch(now) == epoch + 1
    ensures var d' := SwitchOne(d, now); d'.lost || Follows(d', x, p, c, epoch, now)
  {
    hide Expiry, Wrap, Epoch, InsertSorted, NeverEarly, Known, Sorted, Located, ItemsOf, MessagesOf, FiredAt;
    HeadKnown(d);
    var due, next := Expiry(c, p, |FiredAt(d.log, x)| + 1), d.current[0].value;
    HeadIsSelf(d, x, p, due, epoch, now);
    EarlierEpoch(due, now);
    FiredOnce(d.log, x, p, c, now);
    ReloadEpoch(due, p);
    var d1 := d.(current := d.current[1..], log := d.log + [(x, now)]);
    if Wrap(next + p) > next {
      ReloadLocates(d1, SwitchOne(d, now), x, p, due, epoch, now);
    } else {
      Posted(d1, Message(x, Start, next), x);
      PostLocates(Post(d1, Message(x, Start, next)), SwitchOne(d, now), x, p, due, epoch, now);
    }
  }

  lemma {:induction false} ReloadLocates(d: Daemon, d': Daemon, x: Id, p: nat, from: nat, epoch: nat, now: nat)
    requires d' == d.(current := InsertSorted(d.current, Item(x, Wrap(from + p)))) && Epoch(from + p) == epoch
    requires ItemsOf(d.current, x) == [] && ItemsOf(d.overflow, x) == [] && MessagesOf(d.commands, x) == []
    ensures Located(d', x, p, from + p, epoch, now)
  {
    hide InsertSorted, Wrap, Epoch, MessagesOf;
    ItemsInsert(d.current, Item(x, Wrap(from + p)), x);
  }

  lemma {:induction false} PostLocates(d: Daemon, d': Daemon, x: Id, p: nat, from: nat, epoch: nat, now: nat)
    requires d'.current == d.current && d'.overflow == d.overflow && d'.commands == d.commands && from <= now
    requires ItemsOf(d.current, x) == [] && ItemsOf(d.overflow, x) == []
    requires d.lost || MessagesOf(d.commands, x) == [Message(x, Start, Wrap(from))]
    ensures d.lost || Located(d', x, p, from + p, epoch, now)
  {
    hide ItemsOf, MessagesOf, Wrap, Epoch;
  }

  lemma {:induction false} EarlierEpoch(a: nat, b: nat)
    requires Epoch(a) < Epoch(b)
    ensures a < b
  {
    AtSplits(a);
    AtSplits(b);
  }

  lemma {:induction false} LostStays(d: Daemon, now: nat)
    requires Known(d) && d.lost
    ensures SwitchLoop(d, now).lost
    decreases Remaining(d.current)
  {
    hide InsertSorted, Wrap;
    if d.current != [] {
      SwitchOneProgress(d, now);
      LostStays(SwitchOne(d, now), now);
    }
  }

  lemma {:induction false} SwitchLoopTracks(d: Daemon, x: Id, p: nat, c: nat, epoch: nat, now: nat)
    requires Tracks(d, x, p, c, epoch, now) && Epoch(now) == epoch + 1
    ensures var d' := SwitchLoop(d, now); d'.lost || Tracks(d', x, p, c, epoch, now)
    decreases Remaining(d.current)
  {
    hide SwitchOne, Located, NeverEarly, Sorted, Epoch, Expiry;
    if d.current != [] {
      SwitchOneProgress(d, now);
      SwitchOneTracks(d, x, p, c, epoch, now);
      if SwitchOne(d, now).lost {
        LostStays(SwitchOne(d, now), now);
      } else {
        SwitchLoopTracks(SwitchOne(d, now), x, p, c, epoch, now);
      }
    }
  }

  /** What was on the overflow list is on the current one in the new epoch. */
  lemma {:induction false} SwitchTracks(d: Daemon, x: Id, p: nat, c: nat, epoch: nat, now: nat)
    requires Tracks(d, x, p, c, epoch, now) && Epoch(now) == epoch + 1
    ensures var d' := SwitchLists(d, now); d'.lost || Tracks(d', x, p, c, epoch + 1, now)
  {
    hide SwitchLoop, NeverEarly, Epoch, Expiry, Wrap, MessagesOf, FiredAt;
    SwitchLoopTracks(d, x, p, c, epoch, now);
  }

  /** Sampling the time brings the lists into the epoch of that time. */
  lemma {:induction false} SampleTracks(d: Daemon, x: Id, p: nat, c: nat, sampled: nat, now: nat)
    requires Tracks(d, x, p, c, Epoch(sampled), now) && d.last == Wrap(sampled) && sampled <= now < sampled + TICKS
    ensures var d' := Sample(d, now).0; d'.lost || Tracks(d', x, p, c, Epoch(now), now)
    ensures Sample(d, now).1 == (Epoch(now) == Epoch(sampled) + 1)
    ensures Epoch(now) == Epoch(sampled) || Epoch(now) == Epoch(sampled) + 1
  {
    hide SwitchLists, NeverEarly, Epoch, Expiry, Wrap, MessagesOf, FiredAt, ItemsOf, Sorted, Known;
    NearEpochs(sampled, now);
    if Wrap(now) < d.last {
      SwitchTracks(d, x, p, c, Epoch(sampled), now);
    }
  }

  // ----- inserting -----

  /** Where a timer whose base time is `from` ends up, as `x` itself sees it. */
  lemma {:induction false} InsertLocates(d: Daemon, x: Id, p: Tick, from: nat, now: nat)
    requires Known(d) && x in d.timers && d.timers[x].period == p > 0 && from <= now < from + TICKS
    requires ItemsOf(d.current, x) == [] && ItemsOf(d.overflow, x) == [] && MessagesOf(d.commands, x) == []
    ensures var (d', due) := InsertTimer(d, x, Wrap(from + p), Wrap(now), Wrap(from));
            && (due <==> from + p <= now) && (due ==> d' == d)
            && (!due ==> Located(d', x, p, from + p, Epoch(now), now))
  {
    hide Wrap, Epoch, InsertSorted, Known, Classify, MessagesOf;
    ClassifyExact(from, p, now);
    ItemsInsert(d.current, Item(x, Wrap(from + p)), x);
    ItemsInsert(d.overflow, Item(x, Wrap(from + p)), x);
  }

  lemma {:induction false} InsertShape(d: Daemon, y: Id, expiry: Tick, now: Tick, command: Tick)
    requires Known(d) && y in d.timers && Sorted(d.current) && Sorted(d.overflow)
    ensures var d' := InsertTimer(d, y, expiry, now, command).0;
            && Sorted(d'.current) && Sorted(d'.overflow) && d'.timers == d.timers && d'.log == d.log
            && d'.commands == d.commands && d'.lost == d.lost && d'.last == d.last
  {
    hide InsertSorted, Known, Classify, Wrap, Sorted;
    InsertSortedStable(d.current, Item(y, expiry));
    InsertSortedStable(d.overflow, Item(y, expiry));
  }

  lemma {:induction false} InsertOther(d: Daemon, y: Id, expiry: Tick, now: Tick, command: Tick, x: Id)
    requires Known(d) && y in d.timers && y != x
    ensures SameFor(d, InsertTimer(d, y, expiry, now, command).0, x)
  {
    hide InsertSorted, Known, Classify, Wrap, MessagesOf, FiredAt, ItemsOf;
    ItemsInsert(d.current, Item(y, expiry), x);
    ItemsInsert(d.overflow, Item(y, expiry), x);
  }

  // ----- the service task's steps -----

  lemma {:induction false} ExpiredSelf(d: Daemon, x: Id, p: nat, c: nat, now: nat)
    requires Tracks(d, x, p, c, Epoch(now), now) && d.current != [] && d.current[0].owner == x
    requires d.current[0].value <= Wrap(now)
    ensures var d' := ProcessExpired(d, now); d'.lost || Follows(d', x, p, c, Epoch(now), now)
    ensures FiredAt(ProcessExpired(d, now).log, x) == FiredAt(d.log, x) + [now]
  {
    hide Expiry, Wrap, Epoch, NeverEarly, Known, Sorted, InsertTimer, Located;
    HeadKnown(d);
    var due := Expiry(c, p, |FiredAt(d.log, x)| + 1);
    HeadIsDue(d, x, p, due, now);
    var d1 := d.(current := d.current[1..]);
    WrapSum(due, p);
    FiredOnce(d.log, x, p, c, now);
    FiredSnoc(d.log, x, now, x);
    KnownTail(d);
    InsertLocates(d1, x, p, due, now);
    var (d2, late) := InsertTimer(d1, x, Wrap(due + p), Wrap(now), Wrap(due));
    InsertShapeLog(d1, x, Wrap(due + p), Wrap(now), Wrap(due));
    assert ProcessExpired(d, now).log == d.log + [(x, now)];
    if late {
      Posted(d1, Message(x, Start, Wrap(due)), x);
      PostLocates(Post(d1, Message(x, Start, Wrap(due))), ProcessExpired(d, now), x, p, due, Epoch(now), now);
    } else {
      LogLocates(d2, ProcessExpired(d, now), x, p, due + p, Epoch(now), now);
    }
  }

  lemma {:induction false} KnownTail(d: Daemon)
    requires Known(d) && d.current != []
    ensures Known(d.(current := d.current[1..]))
  {
  }

  lemma {:induction false} InsertShapeLog(d: Daemon, y: Id, expiry: Tick, now: Tick, command: Tick)
    requires Known(d) && y in d.timers
    ensures var d' := InsertTimer(d, y, expiry, now, command).0;
            d'.timers == d.timers && d'.log == d.log && d'.commands == d.commands && d'.lost == d.lost
  {
    hide InsertSorted, Known, Classify, Wrap;
  }

  /** A due head of the current list, read in unbounded time. */
  lemma {:induction false} HeadIsDue(d: Daemon, x: Id, p: nat, due: nat, now: nat)
    requires Located(d, x, p, due, Epoch(now), now) && d.current != [] && d.current[0].owner == x
    requires d.current[0].value <= Wrap(now)
    ensures d.current[0].value == Wrap(due) && due <= now < due + TICKS
    ensures ItemsOf(d.current[1..], x) == [] && ItemsOf(d.overflow, x) == [] && MessagesOf(d.commands, x) == []
  {
    hide MessagesOf, ItemsOf;
    HeadIsSelf(d, x, p, due, Epoch(now), now);
    AtSplits(due);
    AtSplits(now);
  }

  lemma {:induction false} LogLocates(d: Daemon, d': Daemon, x: Id, p: nat, due: nat, epoch: nat, now: nat)
    requires Located(d, x, p, due, epoch, now)
    requires d'.current == d.current && d'.overflow == d.overflow && d'.commands == d.commands
    ensures Located(d', x, p, due, epoch, now)
  {
  }

  /** Neither does processing another timer that has expired. */
  lemma {:induction false} ExpiredOther(d: Daemon, x: Id, now: nat)
    requires Known(d) && d.current != [] && d.current[0].owner != x
    ensures SameFor(d, ProcessExpired(d, now), x)
  {
    hide Wrap, Known, InsertTimer, MessagesOf, FiredAt;
    HeadKnown(d);
    KnownTail(d);
    var y, next := d.current[0].owner, d.current[0].value;
    var d1, expiry := d.(current := d.current[1..]), Wrap(next + d.timers[y].period);
    assert ItemsOf(d.current, x) == ItemsOf(d.current[1..], x);
    InsertOther(d1, y, expiry, Wrap(now), next, x);
    InsertShapeLog(d1, y, expiry, Wrap(now), next);
    PostOther(InsertTimer(d1, y, expiry, Wrap(now), next).0, Message(y, Start, next), x);
    FiredSnoc(d.log, y, now, x);
  }

  lemma {:induction false} ExpiredShape(d: Daemon, now: nat)
    requires Known(d) && d.current != [] && Sorted(d.current) && Sorted(d.overflow)
    ensures var d' := ProcessExpired(d, now);
            && Known(d') && Sorted(d'.current) && Sorted(d'.overflow) && d'.last == d.last
            && forall y :: y in d.timers ==>
                 y in d'.timers && d'.timers[y].(active := false) == d.timers[y].(active := false)
  {
    hide Wrap, Known, InsertTimer, Sorted;
    HeadKnown(d);
    KnownTail(d);
    TailSorted(d.current);
    var y, next := d.current[0].owner, d.current[0].value;
    InsertShape(d.(current := d.current[1..]), y, Wrap(next + d.timers[y].period), Wrap(now), next);
  }

  /** prvProcessTimerOrBlockTask keeps track of `x`. */
  lemma {:induction false} TimerStepTracks(d: Daemon, x: Id, p: nat, c: nat, sampled: nat, now: nat)
    requires Tracks(d, x, p, c, Epoch(sampled), now) && d.last == Wrap(sampled) && sampled <= now < sampled + TICKS
    ensures var d' := ProcessTimer(d, now); d'.last == Wrap(now) && (d'.lost || Tracks(d', x, p, c, Epoch(now), now))
  {
    hide Expiry, Wrap, Epoch, NeverEarly, Known, Sorted, Located, SwitchLists, ProcessExpired;
    SampleTracks(d, x, p, c, sampled, now);
    var (d1, switched) := Sample(d, now);
    if !switched && d.current != [] && d.current[0].value <= Wrap(now) {
      if d1.lost {
        ExpiredLost(d1, now);
      } else {
        ExpiredShape(d1, now);
        if d1.current[0].owner == x {
          ExpiredSelf(d1, x, p, c, now);
        } else {
          ExpiredOther(d1, x, now);
          SameFollows(d1, ProcessExpired(d1, now), x, p, c, Epoch(now), now);
        }
      }
    }
  }

  lemma {:induction false} ExpiredLost(d: Daemon, now: nat)
    requires Known(d) && d.current != [] && d.lost
    ensures ProcessExpired(d, now).lost && ProcessExpired(d, now).last == d.last
  {
    hide Known, Wrap, InsertSorted, Classify;
  }

  // ----- commands -----

  lemma {:induction false} TakenShape(d: Daemon)
    requires Known(d) && d.commands != [] && Sorted(d.current) && Sorted(d.overflow)
    ensures Sorted(Taken(d).current) && Sorted(Taken(d).overflow)
    ensures d.commands[0].timer in d.timers
  {
    WithoutSorted(d.current, d.commands[0].timer);
    WithoutSorted(d.overflow, d.commands[0].timer);
  }

  ghost predicate Gone(d: Daemon, x: Id) {
    ItemsOf(d.current, x) == [] && ItemsOf(d.overflow, x) == [] && MessagesOf(d.commands, x) == []
  }

  lemma {:induction false} HeadElse(l: seq<Item<Id>>, x: Id)
    requires l != [] && ItemsOf(l, x) == []
    ensures l[0].owner != x && ItemsOf(l[1..], x) == []
  {
  }

  /** Switching the lists does not touch a timer that is not on the current one. */
  lemma {:induction false} SwitchLoopUnlisted(d: Daemon, x: Id, now: nat)
    requires Known(d) && ItemsOf(d.current, x) == [] && Sorted(d.current) && Sorted(d.overflow)
    ensures var d' := SwitchLoop(d, now);
            && SameFor(d, d', x) && Sorted(d'.current) && Sorted(d'.overflow) && d'.timers == d.timers
            && (d.lost ==> d'.lost)
    decreases Remaining(d.current)
  {
    hide SwitchOne, Sorted, ItemsOf, MessagesOf, FiredAt;
    if d.current != [] {
      SwitchOneProgress(d, now);
      SwitchShape(d, now);
      HeadElse(d.current, x);
      SwitchOther(d, x, now);
      SwitchOneLost(d, now);
      SwitchLoopUnlisted(SwitchOne(d, now), x, now);
    }
  }

  lemma {:induction false} SwitchOneLost(d: Daemon, now: nat)
    requires Known(d) && d.current != []
    ensures d.lost ==> SwitchOne(d, now).lost
  {
    hide InsertSorted, Wrap, Known;
    HeadKnown(d);
  }

  ghost predicate Unlisted(d: Daemon, x: Id) {
    ItemsOf(d.current, x) == [] && ItemsOf(d.overflow, x) == []
  }

  lemma {:induction false} SampleUnlisted(d: Daemon, x: Id, now: nat)
    requires Known(d) && Unlisted(d, x) && Sorted(d.current) && Sorted(d.overflow)
    ensures var d' := Sample(d, now).0;
            && Unlisted(d', x) && MessagesOf(d'.commands, x) == MessagesOf(d.commands, x)
            && FiredAt(d'.log, x) == FiredAt(d.log, x) && Sorted(d'.current) && Sorted(d'.overflow)
            && (d.lost ==> d'.lost) && d'.last == Wrap(now)
  {
    hide SwitchLoop, FiredAt, MessagesOf, Wrap;
    SwitchLoopUnlisted(d, x, now);
  }

  /** Taking the message of `x` itself: it was a restart, and `x` was on no list. */
  lemma {:induction false} TakenSelf(d: Daemon, x: Id, p: nat, due: nat, epoch: nat, now: nat)
    requires Known(d) && Located(d, x, p, due, epoch, now) && d.commands != [] && d.commands[0].timer == x
    ensures due >= p && d.commands[0] == Message(x, Start, Wrap(due - p)) && due - p <= now && Gone(Taken(d), x)
  {
    hide Wrap, Epoch;
    ItemsWithout(d.current, x, x);
    ItemsWithout(d.overflow, x, x);
    assert MessagesOf(d.commands, x) == [d.commands[0]] + MessagesOf(d.commands[1..], x);
    assert MessagesOf(d.commands, x)[0] == d.commands[0];
  }

  /** Starting the auto-reload timer `x`, on no list, from its last expiry or from `c`, less than a wrap ago. */
  lemma {:induction false} ObeyedRestart(d: Daemon, x: Id, p: nat, c: nat, now: nat)
    requires Known(d) && Sorted(d.current) && Sorted(d.overflow) && Gone(d, x)
    requires x in d.timers && d.timers[x].period == p > 0 && d.timers[x].autoReload
    requires var fired := FiredAt(d.log, x);
             && NeverEarly(fired, c, p) && Expiry(c, p, |fired|) <= now < Expiry(c, p, |fired|) + TICKS
    ensures var d' := Obey(d, Message(x, Start, Wrap(Expiry(c, p, |FiredAt(d.log, x)|))), now);
            d'.last == d.last && (d'.lost || Tracks(d', x, p, c, Epoch(now), now))
  {
    hide Expiry, Wrap, Epoch, NeverEarly, Known, Sorted, InsertTimer, Located, SwitchLists, Without;
    hide ItemsOf, MessagesOf;
    var from, due := Expiry(c, p, |FiredAt(d.log, x)|), Expiry(c, p, |FiredAt(d.log, x)| + 1);
    var m := Message(x, Start, Wrap(from));
    ExpiryStep(c, p, |FiredAt(d.log, x)|);
    var d1 := d.(timers := d.timers[x := d.timers[x].(active := true)]);
    KnownTimers(d, x, d.timers[x].(active := true));
    WrapSum(from, p);
    InsertLocates(d1, x, p, from, now);
    InsertShape(d1, x, Wrap(due), Wrap(now), Wrap(from));
    ObeyShape(d, m, now);
    var (d2, late) := InsertTimer(d1, x, Wrap(due), Wrap(now), Wrap(from));
    if late {
      FiredOnce(d.log, x, p, c, now);
      FiredSnoc(d.log, x, now, x);
      Posted(Fire(d2, x, now), Message(x, Start, Wrap(due)), x);
      PostLocates(Post(Fire(d2, x, now), Message(x, Start, Wrap(due))), Obey(d, m, now), x, p, due, Epoch(now), now);
    }
  }

  lemma {:induction false} CommandSelf(d: Daemon, x: Id, p: nat, c: nat, epoch: nat, now: nat)
    requires Tracks(d, x, p, c, epoch, now) && d.commands != [] && d.commands[0].timer == x
    requires now < Expiry(c, p, |FiredAt(d.log, x)|) + TICKS
    ensures var d' := ProcessCommand(d, now); d'.last == Wrap(now) && (d'.lost || Tracks(d', x, p, c, Epoch(now), now))
  {
    hide Expiry, Wrap, Epoch, NeverEarly, Known, Sorted, Obey, Located, SwitchLists, Without;
    hide ItemsOf, MessagesOf, FiredAt;
    var fired := |FiredAt(d.log, x)|;
    TakenShape(d);
    TakenSelf(d, x, p, Expiry(c, p, fired + 1), epoch, now);
    ExpiryStep(c, p, fired);
    SampleUnlisted(Taken(d), x, now);
    ObeyedRestart(Sample(Taken(d), now).0, x, p, c, now);
  }

  lemma {:induction false} KnownTimers(d: Daemon, y: Id, timer: Timer)
    requires Known(d)
    ensures Known(d.(timers := d.timers[y := timer]))
  {
  }

  lemma {:induction false} TakenOther(d: Daemon, x: Id)
    requires Known(d) && d.commands != [] && d.commands[0].timer != x
    ensures SameFor(d, Taken(d), x)
  {
    hide FiredAt;
    ItemsWithout(d.current, d.commands[0].timer, x);
    ItemsWithout(d.overflow, d.commands[0].timer, x);
    assert MessagesOf(d.commands, x) == MessagesOf(d.commands[1..], x);
  }

  lemma {:induction false} CommandOther(d: Daemon, x: Id, p: nat, c: nat, sampled: nat, now: nat)
    requires Tracks(d, x, p, c, Epoch(sampled), now) && d.last == Wrap(sampled) && sampled <= now < sampled + TICKS
    requires d.commands != [] && d.commands[0].timer != x
    ensures var d' := ProcessCommand(d, now); d'.last == Wrap(now) && (d'.lost || Tracks(d', x, p, c, Epoch(now), now))
  {
    hide Expiry, Wrap, Epoch, NeverEarly, Known, Sorted, InsertTimer, Located, SwitchLists, Without;
    hide ItemsOf, MessagesOf, FiredAt;
    var d1 := Taken(d);
    TakenShape(d);
    TakenOther(d, x);
    SameFollows(d, d1, x, p, c, Epoch(sampled), now);
    SampleTracks(d1, x, p, c, sampled, now);
    var d2 := Sample(d1, now).0;
    ObeyShape(d2, d.commands[0], now);
    if !ProcessCommand(d, now).lost {
      ObeyOther(d2, d.commands[0], x, now);
      SameFollows(d2, ProcessCommand(d, now), x, p, c, Epoch(now), now);
    }
  }

  lemma {:induction false} ObeyShape(d: Daemon, m: Message, now: nat)
    requires Known(d) && m.timer in d.timers
    ensures var d' := Obey(d, m, now);
            && d'.last == d.last && (d.lost ==> d'.lost)
            && (Sorted(d.current) && Sorted(d.overflow) ==> Sorted(d'.current) && Sorted(d'.overflow))
            && forall y :: y in d.timers && y != m.timer ==> y in d'.timers && d'.timers[y] == d.timers[y]
  {
    hide Wrap, Sorted, Known, InsertSorted, Classify;
    if Sorted(d.current) && Sorted(d.overflow) {
      InsertSortedStable(d.current, Item(m.timer, Wrap(m.value + d.timers[m.timer].period)));
      InsertSortedStable(d.overflow, Item(m.timer, Wrap(m.value + d.timers[m.timer].period)));
      InsertSortedStable(d.current, Item(m.timer, Wrap(Wrap(now) + m.value)));
      InsertSortedStable(d.overflow, Item(m.timer, Wrap(Wrap(now) + m.value)));
    }
  }

  lemma {:induction false} ObeyOther(d: Daemon, m: Message, x: Id, now: nat)
    requires Known(d) && m.timer in d.timers && m.timer != x
    ensures SameFor(d, Obey(d, m, now), x)
  {
    hide Wrap, Sorted, Known, InsertTimer, ItemsOf, MessagesOf, FiredAt;
    var timer, y := d.timers[m.timer], m.timer;
    KnownTimers(d, y, timer.(active := true));
    KnownTimers(d, y, timer.(active := true, period := m.value));
    FiredSnoc(d.log, y, now, x);
    match m.command
    case Start =>
      var d1 := d.(timers := d.timers[y := timer.(active := true)]);
      var expiry := Wrap(m.value + timer.period);
      InsertOther(d1, y, expiry, Wrap(now), m.value, x);
      InsertShapeLog(d1, y, expiry, Wrap(now), m.value);
      var d2 := InsertTimer(d1, y, expiry, Wrap(now), m.value).0;
      PostOther(Fire(d2, y, now), Message(y, Start, expiry), x);
    case Stop =>
    case ChangePeriod =>
      var d1 := d.(timers := d.timers[y := timer.(active := true, period := m.value)]);
      InsertOther(d1, y, Wrap(Wrap(now) + m.value), Wrap(now), Wrap(now), x);
      InsertShapeLog(d1, y, Wrap(Wrap(now) + m.value), Wrap(now), Wrap(now));
  }

  // ----- runs -----

  /** The timer `x` of period `p`, started at `c`, is where it should be. */
  ghost predicate Tracked(s: System, x: Id, p: nat, c: nat) {
    && Tracks(s.d, x, p, c, Epoch(s.sampled), s.clock) && s.d.last == Wrap(s.sampled) && s.sampled <= s.clock
    && (FiredAt(s.d.log, x) == [] || Expiry(c, p, |FiredAt(s.d.log, x)|) <= s.sampled)
  }

  /**
   * The service task looks at the time more than once per wrap, and at a restart posted for `x`
   * before a full wrap has passed since the expiry it restarts from.
   */
  ghost predicate Punctual(s: System, x: Id, p: nat, c: nat) {
    && s.clock < s.sampled + TICKS
    && (MessagesOf(s.d.commands, x) != [] ==> s.clock < Expiry(c, p, |FiredAt(s.d.log, x)|) + TICKS)
  }

  lemma {:induction false} StepTracked(s: System, op: Op, x: Id, p: nat, c: nat)
    requires Tracked(s, x, p, c) && Punctual(s, x, p, c) && (op.Submit? ==> op.m.timer != x)
    ensures Step(s, op).d.lost || Tracked(Step(s, op), x, p, c)
  {
    hide Expiry, Wrap, Epoch, NeverEarly, Sorted, Listed, ProcessTimer, ProcessCommand, ItemsOf, FiredAt, MessagesOf;
    match op
    case Elapse =>
    case DoTimer => TimerStepTracks(s.d, x, p, c, s.sampled, s.clock);
    case DoCommand =>
      if s.d.commands != [] {
        if s.d.commands[0].timer == x {
          HasMessage(s.d.commands, x);
          CommandSelf(s.d, x, p, c, Epoch(s.sampled), s.clock);
        } else {
          CommandOther(s.d, x, p, c, s.sampled, s.clock);
        }
      }
    case Submit(m) => MessagesSnoc(s.d.commands, m, x);
  }

  lemma {:induction false} HasMessage(c: seq<Message>, x: Id)
    requires c != [] && c[0].timer == x
    ensures MessagesOf(c, x) != []
  {
  }

  lemma {:induction false} LostForever(s: System, op: Op)
    requires Known(s.d) && s.d.lost
    ensures Known(Step(s, op).d) && Step(s, op).d.lost
  {
    hide Wrap, InsertSorted, Classify, SwitchLoop, Without;
    if op.DoTimer? {
      SampleLost(s.d, s.clock);
    } else if op.DoCommand? && s.d.commands != [] {
      SampleLost(Taken(s.d), s.clock);
    }
  }

  lemma {:induction false} SampleLost(d: Daemon, now: nat)
    requires Known(d) && d.lost
    ensures Sample(d, now).0.lost
  {
    LostStays(d, now);
  }

  lemma {:induction false} StepKnown(s: System, op: Op)
    requires Known(s.d)
    ensures Known(Step(s, op).d)
  {
  }

  ghost function Run(s: System, ops: seq<Op>): (s': System)
    requires Known(s.d)
    ensures Known(s'.d)
    decreases |ops|
  {
    if ops == [] then s
    else
      StepKnown(s, ops[0]);
      Run(Step(s, ops[0]), ops[1..])
  }

  lemma {:induction false} RunLost(s: System, ops: seq<Op>)
    requires Known(s.d) && s.d.lost
    ensures Run(s, ops).d.lost
    decreases |ops|
  {
    hide Step, Known;
    if ops != [] {
      LostForever(s, ops[0]);
      RunLost(Step(s, ops[0]), ops[1..]);
    }
  }

  /** A run in which the service task keeps up with `x` and nobody else sends commands for it. */
  ghost predicate KeepsUp(s: System, ops: seq<Op>, x: Id, p: nat, c: nat)
    requires Known(s.d)
    decreases |ops|
  {
    && Punctual(s, x, p, c)
    && (ops != [] ==>
          && (ops[0].Submit? ==> ops[0].m.timer != x)
          && (StepKnown(s, ops[0]); KeepsUp(Step(s, ops[0]), ops[1..], x, p, c)))
  }

  lemma {:induction false} RunTracked(s: System, ops: seq<Op>, x: Id, p: nat, c: nat)
    requires Tracked(s, x, p, c) && KeepsUp(s, ops, x, p, c)
    ensures Run(s, ops).d.lost || Tracked(Run(s, ops), x, p, c)
    decreases |ops|
  {
    hide Step, Expiry, Wrap, Epoch, NeverEarly, Sorted, Located, ItemsOf, MessagesOf, FiredAt, Punctual;
    if ops != [] {
      StepKnown(s, ops[0]);
      StepTracked(s, ops[0], x, p, c);
      if Step(s, ops[0]).d.lost {
        RunLost(Step(s, ops[0]), ops[1..]);
      } else {
        RunTracked(Step(s, ops[0]), ops[1..], x, p, c);
      }
    }
  }

  // ----- the theorem -----

  /** The auto-reload timer `x`, never fired and on no list, has just been started at time `c`. */
  ghost predicate Started(s: System, x: Id, c: nat) {
    && Known(s.d) && Sorted(s.d.current) && Sorted(s.d.overflow)
    && x in s.d.timers && s.d.timers[x].period > 0 && s.d.timers[x].autoReload
    && s.d.last == Wrap(s.sampled) && s.sampled <= s.clock && c <= s.clock
    && FiredAt(s.d.log, x) == [] && ItemsOf(s.d.current, x) == [] && ItemsOf(s.d.overflow, x) == []
    && MessagesOf(s.d.commands, x) == [Message(x, Start, Wrap(c))]
  }

  lemma {:induction false} StartedTracked(s: System, x: Id, c: nat)
    requires Started(s, x, c)
    ensures Tracked(s, x, s.d.timers[x].period, c)
  {
    ExpiryStep(c, s.d.timers[x].period, 0);
  }

  /** The service task blocks: no commands, and no timer due at the time it looked at. */
  ghost predicate CaughtUp(d: Daemon) {
    d.commands == [] && (d.current == [] || d.current[0].value > d.last)
  }

  lemma {:induction false} ItemsOfIn(l: seq<Item<Id>>, x: Id, y: Item<Id>)
    requires ItemsOf(l, x) == [y]
    ensures y in l
  {
    if l[0].owner == x {
      assert ItemsOf(l, x)[0] == l[0];
    } else {
      assert ItemsOf(l, x) == ItemsOf(l[1..], x);
      ItemsOfIn(l[1..], x, y);
    }
  }

  lemma {:induction false} NextAhead(s: System, x: Id, p: nat, c: nat)
    requires Tracked(s, x, p, c) && CaughtUp(s.d)
    ensures Expiry(c, p, |FiredAt(s.d.log, x)| + 1) > s.sampled
  {
    hide Expiry, NeverEarly, FiredAt;
    var due := Expiry(c, p, |FiredAt(s.d.log, x)| + 1);
    AtSplits(due);
    AtSplits(s.sampled);
    assert MessagesOf(s.d.commands, x) == [];
    if ItemsOf(s.d.current, x) != [] {
      ItemsOfIn(s.d.current, x, Item(x, Wrap(due)));
      var i :| 0 <= i < |s.d.current| && s.d.current[i] == Item(x, Wrap(due));
      assert i > 0 ==> s.d.current[0].value <= s.d.current[i].value;
    }
  }

  lemma {:induction false} WholePeriods(c: nat, p: nat, k: nat, now: nat)
    requires p > 0 && c <= now && (k == 0 || Expiry(c, p, k) <= now) && now < Expiry(c, p, k + 1)
    ensures (now - c) / p == k
  {
    var n := now - c;
    assert k * p <= n < (k + 1) * p;
    assert n == (n / p) * p + n % p;
    if n / p < k {
      MultiplesApart(n / p, k, p);
    } else if n / p > k {
      MultiplesApart(k, n / p, p);
    }
  }

  lemma {:induction false} TrackedPeriods(s: System, ops: seq<Op>, x: Id, p: nat, c: nat)
    requires Tracked(s, x, p, c) && KeepsUp(s, ops, x, p, c)
    ensures var s' := Run(s, ops);
            s'.d.lost
            || (&& (forall k: nat :: k < |FiredAt(s'.d.log, x)| ==> FiredAt(s'.d.log, x)[k] >= c + (k + 1) * p)
                && (CaughtUp(s'.d) && c <= s'.sampled ==> |FiredAt(s'.d.log, x)| == (s'.sampled - c) / p))
  {
    hide Run, Located, ItemsOf, MessagesOf, FiredAt, Wrap, Epoch, Sorted, Known;
    var s' := Run(s, ops);
    RunTracked(s, ops, x, p, c);
    if !s'.d.lost {
      if CaughtUp(s'.d) && c <= s'.sampled {
        NextAhead(s', x, p, c);
        WholePeriods(c, p, |FiredAt(s'.d.log, x)|, s'.sampled);
      }
      assert NeverEarly(FiredAt(s'.d.log, x), c, p);
    }
  }

  /**
   * Auto-reload timers neither drift nor lose periods. In every run that keeps up and posts no
   * message to a full queue, whenever the service task has caught up at time N there have been
   * exactly (N - c) / p callbacks, and callback number k ran no earlier than c + k * p.
   */
  lemma {:induction false} OncePerPeriod(s: System, ops: seq<Op>, x: Id, c: nat)
    requires Started(s, x, c) && KeepsUp(s, ops, x, s.d.timers[x].period, c)
    ensures var s', p := Run(s, ops), s.d.timers[x].period;
            s'.d.lost
            || (&& (forall k: nat :: k < |FiredAt(s'.d.log, x)| ==> FiredAt(s'.d.log, x)[k] >= c + (k + 1) * p)
                && (CaughtUp(s'.d) && c <= s'.sampled ==> |FiredAt(s'.d.log, x)| == (s'.sampled - c) / p))
  {
    hide Run, Tracked, FiredAt, CaughtUp;
    StartedTracked(s, x, c);
    TrackedPeriods(s, ops, x, s.d.timers[x].period, c);
  }

  /** A wait that starts at `now` and is for a tick value ahead of it in the same epoch. */
  lemma {:induction false} WaitLength(now: nat, v: Tick)
    ensures v >= Wrap(now) ==> now + Wrap(v - Wrap(now)) == At(Epoch(now), v)
    ensures now + Wrap(0 - Wrap(now)) <= At(Epoch(now) + 1, 0)
  {
    AtSplits(now);
  }

  lemma {:induction false} BlockedInTime(s: System, x: Id, p: nat, c: nat)
    requires Tracked(s, x, p, c) && CaughtUp(s.d)
    ensures !WaitsForever(s.d)
    ensures s.sampled + BlockTicks(s.d, s.sampled) <= Expiry(c, p, |FiredAt(s.d.log, x)| + 1)
  {
    hide Expiry, Wrap, Epoch, NeverEarly, FiredAt;
    var due := Expiry(c, p, |FiredAt(s.d.log, x)| + 1);
    AtSplits(due);
    if s.d.current != [] {
      WaitLength(s.sampled, s.d.current[0].value);
    } else {
      WaitLength(s.sampled, 0);
    }
    if ItemsOf(s.d.current, x) == [Item(x, Wrap(due))] {
      ItemsOfIn(s.d.current, x, Item(x, Wrap(due)));
      var i :| 0 <= i < |s.d.current| && s.d.current[i] == Item(x, Wrap(due));
      assert i > 0 ==> s.d.current[0].value <= s.d.current[i].value;
    }
  }

  /**
   * The service task never oversleeps: whenever it has caught up and blocks, the wait is finite
   * and ends no later than the timer's next expiry, whichever list the timer is on.
   */
  lemma {:induction false} NeverOversleeps(s: System, ops: seq<Op>, x: Id, c: nat)
    requires Started(s, x, c) && KeepsUp(s, ops, x, s.d.timers[x].period, c)
    ensures var s', p := Run(s, ops), s.d.timers[x].period;
            s'.d.lost || !CaughtUp(s'.d)
            || (&& !WaitsForever(s'.d)
                && s'.sampled + BlockTicks(s'.d, s'.sampled) <= c + (|FiredAt(s'.d.log, x)| + 1) * p)
  {
    hide Run, Tracked, FiredAt, Wrap, CaughtUp, WaitsForever, BlockTicks;
    StartedTracked(s, x, c);
    var s', p := Run(s, ops), s.d.timers[x].period;
    RunTracked(s, ops, x, p, c);
    if !s'.d.lost && CaughtUp(s'.d) {
      BlockedInTime(s', x, p, c);
    }
  }
}
