/**
 * One-shot timers over whole runs: started once and left alone, one is called back exactly once,
 * never early, across any number of wraps of the tick count, and leaves nothing behind.
 */
module TimerOneShot {
  import opened Ticks
  import opened Rings
  import opened Timers
  import opened TimerRuns

  // ----- every due timer is called back -----

  /** A due head gets one callback, at once, whichever kind of timer it is. */
  lemma {:induction false} DueHeadFires(d: Daemon, now: nat)
    requires Known(d) && d.current != []
    ensures ProcessExpired(d, now).log == d.log + [(d.current[0].owner, now)]
    ensures SwitchOne(d, now).log == d.log + [(d.current[0].owner, now)]
  {
    hide Known, InsertTimer, InsertSorted, Wrap;
    HeadKnown(d);
    KnownTail(d);
    var y, next := d.current[0].owner, d.current[0].value;
    InsertShapeLog(d.(current := d.current[1..]), y, Wrap(next + d.timers[y].period), Wrap(now), next);
  }

  /** Between wraps the service task calls back the head exactly when it is due. */
  lemma {:induction false} CalledBackWhenDue(d: Daemon, now: nat)
    requires Known(d) && Wrap(now) >= d.last
    ensures ProcessTimer(d, now).log
            == if d.current != [] && d.current[0].value <= Wrap(now) then d.log + [(d.current[0].owner, now)] else d.log
  {
    hide ProcessExpired, SwitchLists;
    if d.current != [] {
      DueHeadFires(d.(last := Wrap(now)), now);
    }
  }

  // ----- the invariant -----

  /** `x` is still to expire at `due`, or it has had its one callback and is on no list. */
  ghost predicate Once(d: Daemon, x: Id, p: nat, due: nat, epoch: nat, now: nat) {
    var fired := FiredAt(d.log, x);
    if fired == [] then Located(d, x, p, due, epoch, now)
    else |fired| == 1 && due <= fired[0] <= now && Gone(d, x)
  }

  ghost predicate OneShot(d: Daemon, x: Id, p: nat) {
    x in d.timers && d.timers[x].period == p > 0 && !d.timers[x].autoReload
  }

  ghost predicate Shape(d: Daemon) {
    Known(d) && Sorted(d.current) && Sorted(d.overflow)
  }

  ghost predicate OnceTracks(d: Daemon, x: Id, p: nat, due: nat, epoch: nat, now: nat) {
    Shape(d) && OneShot(d, x, p) && Once(d, x, p, due, epoch, now)
  }

  lemma {:induction false} SameOnce(d: Daemon, d': Daemon, x: Id, p: nat, due: nat, epoch: nat, now: nat)
    requires Once(d, x, p, due, epoch, now) && SameFor(d, d', x)
    ensures Once(d', x, p, due, epoch, now)
  {
    hide ItemsOf, MessagesOf, FiredAt, Wrap, Epoch;
  }

  lemma {:induction false} FiresOnce(d: Daemon, d': Daemon, x: Id, p: nat, due: nat, epoch: nat, now: nat)
    requires FiredAt(d.log, x) == [] && d'.log == d.log + [(x, now)] && due <= now && Gone(d', x)
    ensures Once(d', x, p, due, epoch, now)
  {
    hide Gone, Located;
    FiredSnoc(d.log, x, now, x);
  }

  /** What has fired is not at the head of the current list. */
  lemma {:induction false} HeadNotFired(d: Daemon, x: Id, p: nat, due: nat, epoch: nat, now: nat)
    requires Once(d, x, p, due, epoch, now) && d.current != [] && d.current[0].owner == x
    ensures FiredAt(d.log, x) == [] && Located(d, x, p, due, epoch, now)
  {
    hide Located, FiredAt;
    if FiredAt(d.log, x) != [] {
      HeadElse(d.current, x);
    }
  }

  // ----- switching the lists -----

  lemma {:induction false} SwitchOneOnce(d: Daemon, x: Id, p: nat, due: nat, epoch: nat, now: nat)
    requires OnceTracks(d, x, p, due, epoch, now) && d.current != [] && Epoch(now) == epoch + 1
    ensures OnceTracks(SwitchOne(d, now), x, p, due, epoch, now)
  {
    hide Once, Located, Epoch, Wrap, Known, Sorted, SwitchOne, ItemsOf, MessagesOf, FiredAt;
    SwitchShape(d, now);
    if d.current[0].owner == x {
      HeadNotFired(d, x, p, due, epoch, now);
      HeadIsSelf(d, x, p, due, epoch, now);
      EarlierEpoch(due, now);
      DueHeadFires(d, now);
      SwitchSelfGone(d, x, now);
      FiresOnce(d, SwitchOne(d, now), x, p, due, epoch, now);
    } else {
      SwitchOther(d, x, now);
      SameOnce(d, SwitchOne(d, now), x, p, due, epoch, now);
    }
  }

  lemma {:induction false} SwitchSelfGone(d: Daemon, x: Id, now: nat)
    requires Known(d) && d.current != [] && d.current[0].owner == x && !d.timers[x].autoReload
    requires ItemsOf(d.current[1..], x) == [] && ItemsOf(d.overflow, x) == [] && MessagesOf(d.commands, x) == []
    ensures Gone(SwitchOne(d, now), x)
  {
    hide Known, Wrap, InsertSorted;
  }

  lemma {:induction false} SwitchLoopOnce(d: Daemon, x: Id, p: nat, due: nat, epoch: nat, now: nat)
    requires OnceTracks(d, x, p, due, epoch, now) && Epoch(now) == epoch + 1
    ensures OnceTracks(SwitchLoop(d, now), x, p, due, epoch, now)
    decreases Remaining(d.current)
  {
    hide SwitchOne, Once, Sorted, Epoch;
    if d.current != [] {
      SwitchOneProgress(d, now);
      SwitchOneOnce(d, x, p, due, epoch, now);
      SwitchLoopOnce(SwitchOne(d, now), x, p, due, epoch, now);
    }
  }

  lemma {:induction false} SampleOnce(d: Daemon, x: Id, p: nat, due: nat, sampled: nat, now: nat)
    requires OnceTracks(d, x, p, due, Epoch(sampled), now)
    requires d.last == Wrap(sampled) && sampled <= now < sampled + TICKS
    ensures OnceTracks(Sample(d, now).0, x, p, due, Epoch(now), now) && Sample(d, now).0.last == Wrap(now)
    ensures Sample(d, now).1 == (Epoch(now) == Epoch(sampled) + 1)
  {
    hide SwitchLists, Epoch, Wrap, MessagesOf, FiredAt, ItemsOf, Sorted, Known;
    NearEpochs(sampled, now);
    if Wrap(now) < d.last {
      SwitchedOnce(d, x, p, due, Epoch(sampled), now);
    }
  }

  lemma {:induction false} SwitchedOnce(d: Daemon, x: Id, p: nat, due: nat, epoch: nat, now: nat)
    requires OnceTracks(d, x, p, due, epoch, now) && Epoch(now) == epoch + 1
    ensures OnceTracks(SwitchLists(d, now), x, p, due, epoch + 1, now)
  {
    hide SwitchLoop, Epoch, Wrap, MessagesOf, FiredAt;
    SwitchLoopOnce(d, x, p, due, epoch, now);
  }

  // ----- the service task's steps -----

  lemma {:induction false} ExpiredOnce(d: Daemon, x: Id, p: nat, due: nat, now: nat)
    requires OnceTracks(d, x, p, due, Epoch(now), now) && d.current != [] && d.current[0].owner == x
    requires d.current[0].value <= Wrap(now)
    ensures Once(ProcessExpired(d, now), x, p, due, Epoch(now), now)
  {
    hide Once, Located, Epoch, Wrap, Known, Sorted, ItemsOf, MessagesOf, FiredAt, InsertTimer, ProcessExpired;
    HeadNotFired(d, x, p, due, Epoch(now), now);
    HeadIsDue(d, x, p, due, now);
    DueHeadFires(d, now);
    ExpiredSelfGone(d, x, now);
    FiresOnce(d, ProcessExpired(d, now), x, p, due, Epoch(now), now);
  }

  lemma {:induction false} ExpiredSelfGone(d: Daemon, x: Id, now: nat)
    requires Known(d) && d.current != [] && d.current[0].owner == x && !d.timers[x].autoReload
    requires ItemsOf(d.current[1..], x) == [] && ItemsOf(d.overflow, x) == [] && MessagesOf(d.commands, x) == []
    ensures Gone(ProcessExpired(d, now), x)
  {
    hide Known, Wrap, InsertTimer;
  }

  lemma {:induction false} TimerStepOnce(d: Daemon, x: Id, p: nat, due: nat, sampled: nat, now: nat)
    requires OnceTracks(d, x, p, due, Epoch(sampled), now)
    requires d.last == Wrap(sampled) && sampled <= now < sampled + TICKS
    ensures OnceTracks(ProcessTimer(d, now), x, p, due, Epoch(now), now) && ProcessTimer(d, now).last == Wrap(now)
  {
    hide Once, Epoch, Wrap, Known, Sorted, SwitchLists, ProcessExpired;
    SampleOnce(d, x, p, due, sampled, now);
    var (d1, switched) := Sample(d, now);
    if !switched && d.current != [] && d.current[0].value <= Wrap(now) {
      ExpiredShape(d1, now);
      if d1.current[0].owner == x {
        ExpiredOnce(d1, x, p, due, now);
      } else {
        ExpiredOther(d1, x, now);
        SameOnce(d1, ProcessExpired(d1, now), x, p, due, Epoch(now), now);
      }
    }
  }

  // ----- commands -----

  /** Starting a timer that is on no list, for a base time `from` less than a wrap ago. */
  lemma {:induction false} ObeyedStart(d: Daemon, x: Id, p: Tick, from: nat, now: nat)
    requires Shape(d) && OneShot(d, x, p) && Gone(d, x) && FiredAt(d.log, x) == [] && from <= now < from + TICKS
    ensures var d' := Obey(d, Message(x, Start, Wrap(from)), now);
            OnceTracks(d', x, p, from + p, Epoch(now), now) && d'.last == d.last
  {
    hide Epoch, Wrap, Known, Sorted, InsertTimer, Located, ItemsOf, MessagesOf, FiredAt;
    var d1 := d.(timers := d.timers[x := d.timers[x].(active := true)]);
    KnownTimers(d, x, d.timers[x].(active := true));
    WrapSum(from, p);
    InsertLocates(d1, x, p, from, now);
    InsertShape(d1, x, Wrap(from + p), Wrap(now), Wrap(from));
    ObeyShape(d, Message(x, Start, Wrap(from)), now);
    var (d2, late) := InsertTimer(d1, x, Wrap(from + p), Wrap(now), Wrap(from));
    if late {
      FiresOnce(d, Fire(d2, x, now), x, p, from + p, Epoch(now), now);
    }
  }

  lemma {:induction false} CommandOnceSelf(d: Daemon, x: Id, p: nat, c: nat, epoch: nat, now: nat)
    requires OnceTracks(d, x, p, c + p, epoch, now) && d.commands != [] && d.commands[0].timer == x && now < c + TICKS
    ensures OnceTracks(ProcessCommand(d, now), x, p, c + p, Epoch(now), now) && ProcessCommand(d, now).last == Wrap(now)
  {
    hide Epoch, Wrap, Known, Sorted, Located, ItemsOf, FiredAt, Obey, Sample, Without;
    HasMessage(d.commands, x);
    TakenShape(d);
    TakenSelf(d, x, p, c + p, epoch, now);
    SampleUnlisted(Taken(d), x, now);
    SampleTimers(Taken(d), now);
    ObeyedStart(Sample(Taken(d), now).0, x, p, c, now);
  }

  lemma {:induction false} SampleTimers(d: Daemon, now: nat)
    requires Known(d)
    ensures Known(Sample(d, now).0) && Sample(d, now).0.timers == d.timers
  {
    hide Known;
  }

  lemma {:induction false} CommandOnceOther(d: Daemon, x: Id, p: nat, due: nat, sampled: nat, now: nat)
    requires OnceTracks(d, x, p, due, Epoch(sampled), now)
    requires d.last == Wrap(sampled) && sampled <= now < sampled + TICKS
    requires d.commands != [] && d.commands[0].timer != x
    ensures OnceTracks(ProcessCommand(d, now), x, p, due, Epoch(now), now) && ProcessCommand(d, now).last == Wrap(now)
  {
    hide Once, Epoch, Wrap, Known, Sorted, Sample, Obey, Without, ItemsOf, MessagesOf, FiredAt;
    TakenShape(d);
    TakenOther(d, x);
    SameOnce(d, Taken(d), x, p, due, Epoch(sampled), now);
    SampleOnce(Taken(d), x, p, due, sampled, now);
    var d2 := Sample(Taken(d), now).0;
    ObeyShape(d2, d.commands[0], now);
    ObeyOther(d2, d.commands[0], x, now);
    SameOnce(d2, ProcessCommand(d, now), x, p, due, Epoch(now), now);
  }

  // ----- runs -----

  ghost predicate OnceTracked(s: System, x: Id, p: nat, c: nat) {
    && OnceTracks(s.d, x, p, c + p, Epoch(s.sampled), s.clock) && s.d.last == Wrap(s.sampled) && s.sampled <= s.clock
    && (FiredAt(s.d.log, x) != [] ==> c + p <= s.sampled)
  }

  lemma {:induction false} OnceLater(s: System, x: Id, p: nat, c: nat)
    requires OnceTracked(s, x, p, c)
    ensures OnceTracked(s.(clock := s.clock + 1), x, p, c)
  {
    hide Epoch, Wrap, Known, Sorted, ItemsOf, MessagesOf, FiredAt;
  }

  lemma {:induction false} OnceSampled(d: Daemon, x: Id, p: nat, c: nat, now: nat)
    requires OnceTracks(d, x, p, c + p, Epoch(now), now) && d.last == Wrap(now)
    ensures OnceTracked(System(d, now, now), x, p, c)
  {
    hide Epoch, Wrap, Known, Sorted, Located, Gone, FiredAt;
  }

  lemma {:induction false} OnceSubmitted(s: System, m: Message, x: Id, p: nat, c: nat)
    requires OnceTracked(s, x, p, c) && m.timer != x && m.timer in s.d.timers
    ensures OnceTracked(s.(d := s.d.(commands := s.d.commands + [m])), x, p, c)
  {
    hide Epoch, Wrap, Sorted, ItemsOf, FiredAt, Once, MessagesOf;
    MessagesSnoc(s.d.commands, m, x);
    SameOnce(s.d, s.d.(commands := s.d.commands + [m]), x, p, c + p, Epoch(s.sampled), s.clock);
  }

  lemma {:induction false} StepOnce(s: System, op: Op, x: Id, p: nat, c: nat)
    requires OnceTracked(s, x, p, c) && s.clock < s.sampled + TICKS && (op.Submit? ==> op.m.timer != x)
    requires MessagesOf(s.d.commands, x) != [] ==> s.clock < c + TICKS
    ensures OnceTracked(Step(s, op), x, p, c)
  {
    hide Once, Epoch, Wrap, Sorted, ProcessTimer, ProcessCommand, ItemsOf, FiredAt, MessagesOf, OneShot, Listed;
    match op
    case Elapse => OnceLater(s, x, p, c);
    case DoTimer =>
      TimerStepOnce(s.d, x, p, c + p, s.sampled, s.clock);
      OnceSampled(ProcessTimer(s.d, s.clock), x, p, c, s.clock);
    case DoCommand =>
      if s.d.commands != [] {
        if s.d.commands[0].timer == x {
          HasMessage(s.d.commands, x);
          CommandOnceSelf(s.d, x, p, c, Epoch(s.sampled), s.clock);
        } else {
          CommandOnceOther(s.d, x, p, c + p, s.sampled, s.clock);
        }
        OnceSampled(ProcessCommand(s.d, s.clock), x, p, c, s.clock);
      }
    case Submit(m) =>
      if m.timer in s.d.timers {
        OnceSubmitted(s, m, x, p, c);
      }
  }

  /**
   * A run in which the service task looks at the time more than once per wrap, and at the start
   * command of `x` less than a wrap after it was given, and nobody sends another for `x`.
   */
  ghost predicate LeftAlone(s: System, ops: seq<Op>, x: Id, c: nat)
    requires Known(s.d)
    decreases |ops|
  {
    && s.clock < s.sampled + TICKS && (MessagesOf(s.d.commands, x) != [] ==> s.clock < c + TICKS)
    && (ops != [] ==>
          && (ops[0].Submit? ==> ops[0].m.timer != x)
          && (StepKnown(s, ops[0]); LeftAlone(Step(s, ops[0]), ops[1..], x, c)))
  }

  lemma {:induction false} RunOnce(s: System, ops: seq<Op>, x: Id, p: nat, c: nat)
    requires OnceTracked(s, x, p, c) && LeftAlone(s, ops, x, c)
    ensures OnceTracked(Run(s, ops), x, p, c)
    decreases |ops|
  {
    hide Step, Once, Wrap, Epoch, Sorted, MessagesOf, FiredAt, OneShot, Listed;
    if ops != [] {
      StepKnown(s, ops[0]);
      StepOnce(s, ops[0], x, p, c);
      RunOnce(Step(s, ops[0]), ops[1..], x, p, c);
    }
  }

  /** The one-shot timer `x`, on no list, has just been started at time `c`. */
  ghost predicate StartedOnce(s: System, x: Id, c: nat) {
    && Shape(s.d) && x in s.d.timers && s.d.timers[x].period > 0 && !s.d.timers[x].autoReload
    && s.d.last == Wrap(s.sampled) && s.sampled <= s.clock && c <= s.clock
    && FiredAt(s.d.log, x) == [] && ItemsOf(s.d.current, x) == [] && ItemsOf(s.d.overflow, x) == []
    && MessagesOf(s.d.commands, x) == [Message(x, Start, Wrap(c))]
  }

  lemma {:induction false} StartedOnceTracked(s: System, x: Id, c: nat)
    requires StartedOnce(s, x, c)
    ensures OnceTracked(s, x, s.d.timers[x].period, c)
  {
    hide Wrap, Epoch;
  }

  lemma {:induction false} NotDueYet(s: System, x: Id, p: nat, c: nat)
    requires OnceTracked(s, x, p, c) && CaughtUp(s.d) && FiredAt(s.d.log, x) == []
    ensures c + p > s.sampled
  {
    hide FiredAt;
    var due := c + p;
    AtSplits(due);
    AtSplits(s.sampled);
    assert MessagesOf(s.d.commands, x) == [];
    if ItemsOf(s.d.current, x) != [] {
      ItemsOfIn(s.d.current, x, Item(x, Wrap(due)));
      var i :| 0 <= i < |s.d.current| && s.d.current[i] == Item(x, Wrap(due));
      assert i > 0 ==> s.d.current[0].value <= s.d.current[i].value;
    }
  }

  lemma {:induction false} TrackedFiresOnce(s: System, ops: seq<Op>, x: Id, p: nat, c: nat)
    requires OnceTracked(s, x, p, c) && LeftAlone(s, ops, x, c)
    ensures var s' := Run(s, ops);
            var fired := FiredAt(s'.d.log, x);
            && |fired| <= 1 && (fired != [] ==> fired[0] >= c + p && Gone(s'.d, x))
            && (CaughtUp(s'.d) ==> (|fired| == 1 <==> c + p <= s'.sampled))
  {
    hide Run, Located, Gone, FiredAt, Wrap, Epoch, Sorted, Known, CaughtUp;
    RunOnce(s, ops, x, p, c);
    if CaughtUp(Run(s, ops).d) && FiredAt(Run(s, ops).d.log, x) == [] {
      NotDueYet(Run(s, ops), x, p, c);
    }
  }

  /**
   * A one-shot timer of period `p` started at `c` and left alone is called back at most once and
   * not before `c + p`; once it has been, it is on no list and no message of it is queued; and a
   * service task that has caught up at time N has called it back exactly if `c + p <= N`.
   */
  lemma {:induction false} FiresExactlyOnce(s: System, ops: seq<Op>, x: Id, c: nat)
    requires StartedOnce(s, x, c) && LeftAlone(s, ops, x, c)
    ensures var s', p := Run(s, ops), s.d.timers[x].period;
            var fired := FiredAt(s'.d.log, x);
            && |fired| <= 1 && (fired != [] ==> fired[0] >= c + p && Gone(s'.d, x))
            && (CaughtUp(s'.d) ==> (|fired| == 1 <==> c + p <= s'.sampled))
  {
    hide Run, Gone, FiredAt, CaughtUp, OnceTracked;
    StartedOnceTracked(s, x, c);
    TrackedFiresOnce(s, ops, x, s.d.timers[x].period, c);
  }
}
