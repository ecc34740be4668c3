/**
 * What a command does to its timer over whole runs: a stopped timer is silent until it is commanded
 * again, provided no restart of it is queued behind the stop, and a started or changed timer expires
 * from then on as if it were new.
 */
module TimerCommands {
  import opened Ticks
  import opened Rings
  import opened Timers
  import opened TimerRuns
  import opened TimerOneShot

  // ----- a timer that is on no list -----

  lemma {:induction false} StepGone(s: System, op: Op, x: Id)
    requires Shape(s.d) && Gone(s.d, x) && (op.Submit? ==> op.m.timer != x)
    ensures var d' := Step(s, op).d;
            Shape(d') && Gone(d', x) && FiredAt(d'.log, x) == FiredAt(s.d.log, x)
  {
    hide Sorted, Known, ItemsOf, MessagesOf, FiredAt, Sample, ProcessExpired, Obey, Taken;
    match op
    case Elapse =>
    case DoTimer => TimerGone(s.d, x, s.clock);
    case DoCommand =>
      if s.d.commands != [] {
        CommandGone(s.d, x, s.clock);
      }
    case Submit(m) => SubmitGone(s, m, x);
  }

  lemma {:induction false} TimerGone(d: Daemon, x: Id, now: nat)
    requires Shape(d) && Gone(d, x)
    ensures var d' := ProcessTimer(d, now); Shape(d') && Gone(d', x) && FiredAt(d'.log, x) == FiredAt(d.log, x)
  {
    hide Sorted, Known, ItemsOf, MessagesOf, FiredAt, ProcessExpired, SwitchLists;
    SampleTimers(d, now);
    SampleUnlisted(d, x, now);
    var (d1, switched) := Sample(d, now);
    if !switched && d.current != [] && d.current[0].value <= Wrap(now) {
      HeadElse(d1.current, x);
      ExpiredOther(d1, x, now);
      ExpiredShape(d1, now);
    }
  }

  lemma {:induction false} CommandGone(d: Daemon, x: Id, now: nat)
    requires Shape(d) && Gone(d, x) && d.commands != []
    ensures var d' := ProcessCommand(d, now); Shape(d') && Gone(d', x) && FiredAt(d'.log, x) == FiredAt(d.log, x)
  {
    hide Sorted, Known, ItemsOf, MessagesOf, FiredAt, Sample, Obey, Without;
    if d.commands[0].timer == x {
      HasMessage(d.commands, x);
    }
    TakenShape(d);
    TakenOther(d, x);
    SampleTimers(Taken(d), now);
    SampleUnlisted(Taken(d), x, now);
    var d2 := Sample(Taken(d), now).0;
    ObeyShape(d2, d.commands[0], now);
    ObeyOther(d2, d.commands[0], x, now);
  }

  lemma {:induction false} SubmitGone(s: System, m: Message, x: Id)
    requires Shape(s.d) && Gone(s.d, x) && m.timer != x
    ensures var d' := Step(s, Submit(m)).d; Shape(d') && Gone(d', x) && d'.log == s.d.log
  {
    hide Sorted, ItemsOf, MessagesOf;
    MessagesSnoc(s.d.commands, m, x);
  }

  /** A timer on no list, with no message queued, is never called back until it is commanded again. */
  lemma {:induction false} GoneIsSilent(s: System, ops: seq<Op>, x: Id)
    requires Shape(s.d) && Gone(s.d, x)
    requires forall i :: 0 <= i < |ops| && ops[i].Submit? ==> ops[i].m.timer != x
    ensures Gone(Run(s, ops).d, x) && FiredAt(Run(s, ops).d.log, x) == FiredAt(s.d.log, x)
    decreases |ops|
  {
    hide Step, Gone, FiredAt, Sorted, Known;
    if ops != [] {
      StepKnown(s, ops[0]);
      StepGone(s, ops[0], x);
      GoneIsSilent(Step(s, ops[0]), ops[1..], x);
    }
  }

  // ----- stopping -----

  /** The service task takes a command for `x` off the queue. */
  ghost predicate TakesUp(s: System, x: Id, command: Command, value: Tick) {
    Shape(s.d) && s.d.commands != [] && s.d.commands[0] == Message(x, command, value) && x in s.d.timers
  }

  /** A timer is taken off its list before anything else is done about a command for it. */
  lemma {:induction false} TakenOff(d: Daemon, x: Id, now: nat)
    requires Shape(d) && d.commands != [] && d.commands[0].timer == x
    ensures var d' := Sample(Taken(d), now).0;
            && Shape(d') && d'.timers == d.timers && d'.last == Wrap(now) && Unlisted(d', x)
            && MessagesOf(d'.commands, x) == MessagesOf(d.commands[1..], x)
            && FiredAt(d'.log, x) == FiredAt(d.log, x)
  {
    hide Sorted, Known, ItemsOf, MessagesOf, FiredAt, Sample, Without;
    TakenShape(d);
    ItemsWithout(d.current, x, x);
    ItemsWithout(d.overflow, x, x);
    SampleTimers(Taken(d), now);
    SampleUnlisted(Taken(d), x, now);
  }

  /**
   * Stopping takes the timer off its list and calls nothing back; it leaves nothing of the timer
   * behind, and so silences it until its next command, exactly when no message for it is queued
   * behind the stop.
   */
  lemma {:induction false} StopSilencesIff(s: System, x: Id, value: Tick, ops: seq<Op>)
    requires TakesUp(s, x, Stop, value)
    requires forall i :: 0 <= i < |ops| && ops[i].Submit? ==> ops[i].m.timer != x
    ensures Known(Step(s, DoCommand).d)
    ensures var d' := Step(s, DoCommand).d;
            && FiredAt(d'.log, x) == FiredAt(s.d.log, x) && Unlisted(d', x)
            && (Gone(d', x) <==> MessagesOf(s.d.commands[1..], x) == [])
            && (Gone(d', x) ==> FiredAt(Run(Step(s, DoCommand), ops).d.log, x) == FiredAt(s.d.log, x))
  {
    hide Sorted, Known, ItemsOf, MessagesOf, FiredAt, Sample, Taken, Run;
    TakenOff(s.d, x, s.clock);
    StepKnown(s, DoCommand);
    if Gone(Step(s, DoCommand).d, x) {
      GoneIsSilent(Step(s, DoCommand), ops, x);
    }
  }

  /** The service, last run at `sampled`, with one auto-reload timer of period 1. */
  ghost function One(active: bool, l: seq<Item<Id>>, commands: seq<Message>, log: seq<(Id, nat)>,
                     sampled: Tick, clock: nat): System
  {
    System(Daemon(map[0 := Timer(1, true, active)], l, [], sampled, commands, false, log), sampled, clock)
  }

  const STOP_LATE: Message := Message(0, Stop, 2)
  const RESTART: Message := Message(0, Start, 1)

  lemma {:induction false} RunFirst(s: System, op: Op, ops: seq<Op>)
    requires Known(s.d)
    ensures Known(Step(s, op).d) && Run(s, [op] + ops) == Run(Step(s, op), ops)
  {
    hide Step;
    StepKnown(s, op);
    assert ([op] + ops)[1..] == ops;
  }

  lemma {:induction false} ListedForOne()
    ensures Known(One(false, [], [Message(0, Start, 0)], [], 0, 0).d)
    ensures Step(One(false, [], [Message(0, Start, 0)], [], 0, 0), DoCommand) == One(true, [Item(0, 1)], [], [], 0, 0)
  {
  }

  lemma {:induction false} RestartPosted()
    ensures Known(One(true, [Item(0, 1)], [STOP_LATE], [], 0, 2).d)
    ensures Step(One(true, [Item(0, 1)], [STOP_LATE], [], 0, 2), DoTimer)
            == One(true, [], [STOP_LATE, RESTART], [(0, 2)], 2, 2)
  {
    var d := Daemon(map[0 := Timer(1, true, true)], [Item(0, 1)], [], 2, [STOP_LATE], false, []);
    assert Sample(One(true, [Item(0, 1)], [STOP_LATE], [], 0, 2).d, 2) == (d, false);
    assert d.current[1..] == [] && Classify(2, 2, 1, 1) == Due;
    assert ProcessExpired(d, 2).commands == [STOP_LATE, RESTART];
  }

  lemma {:induction false} Stopped()
    ensures Known(One(true, [], [STOP_LATE, RESTART], [(0, 2)], 2, 2).d)
    ensures Step(One(true, [], [STOP_LATE, RESTART], [(0, 2)], 2, 2), DoCommand)
            == One(false, [], [RESTART], [(0, 2)], 2, 2)
  {
    assert [STOP_LATE, RESTART][1..] == [RESTART];
  }

  lemma {:induction false} Revived()
    ensures Known(One(false, [], [RESTART], [(0, 2)], 2, 2).d)
    ensures var d := Step(One(false, [], [RESTART], [(0, 2)], 2, 2), DoCommand).d;
            d.log == [(0, 2)] + [(0, 2)] && 0 in d.timers && d.timers[0].active
  {
    assert Classify(2, 2, 1, 1) == Due;
  }

  /**
   * The condition is needed. The timer is started at time 0 and expires at 1, but the service task
   * runs again only at time 2, when a stop is queued. It calls the timer back, posts the restart
   * behind the stop, obeys the stop, and the restart brings the timer back to life.
   */
  lemma {:induction false} StopUndone()
    ensures var s := One(false, [], [Message(0, Start, 0)], [], 0, 0);
            var ops := [DoCommand] + ([Elapse] + ([Elapse] + ([Submit(STOP_LATE)] + ([DoTimer] + [DoCommand]))));
            && Known(s.d) && FiredAt(Run(s, ops).d.log, 0) == [2]
            && 0 in Run(s, ops).d.timers && !Run(s, ops).d.timers[0].active
            && FiredAt(Step(Run(s, ops), DoCommand).d.log, 0) == [2, 2]
            && 0 in Step(Run(s, ops), DoCommand).d.timers && Step(Run(s, ops), DoCommand).d.timers[0].active
  {
    hide Step, Run, FiredAt, Known;
    var s := One(false, [], [Message(0, Start, 0)], [], 0, 0);
    var s1, s2 := One(true, [Item(0, 1)], [], [], 0, 0), One(true, [Item(0, 1)], [], [], 0, 2);
    ListedForOne();
    RestartPosted();
    Stopped();
    Revived();
    RunFirst(s, DoCommand, [Elapse] + ([Elapse] + ([Submit(STOP_LATE)] + ([DoTimer] + [DoCommand]))));
    TwoTicks(s1);
    RunFirst(s1, Elapse, [Elapse] + ([Submit(STOP_LATE)] + ([DoTimer] + [DoCommand])));
    RunFirst(Step(s1, Elapse), Elapse, [Submit(STOP_LATE)] + ([DoTimer] + [DoCommand]));
    Submitted(s2);
    RunFirst(s2, Submit(STOP_LATE), [DoTimer] + [DoCommand]);
    var s3 := One(true, [Item(0, 1)], [STOP_LATE], [], 0, 2);
    RunFirst(s3, DoTimer, [DoCommand]);
    var s4 := One(true, [], [STOP_LATE, RESTART], [(0, 2)], 2, 2);
    assert [DoCommand] == [DoCommand] + [];
    RunFirst(s4, DoCommand, []);
    RunEnds(One(false, [], [RESTART], [(0, 2)], 2, 2));
    Fired();
  }

  lemma {:induction false} TwoTicks(s: System)
    requires Known(s.d)
    ensures Step(Step(s, Elapse), Elapse) == s.(clock := s.clock + 2)
  {
  }

  lemma {:induction false} Submitted(s: System)
    requires Known(s.d) && s.d.commands == [] && 0 in s.d.timers
    ensures Step(s, Submit(STOP_LATE)) == s.(d := s.d.(commands := [STOP_LATE]))
  {
  }

  lemma {:induction false} RunEnds(s: System)
    requires Known(s.d)
    ensures Run(s, []) == s
  {
  }

  lemma {:induction false} Fired()
    ensures FiredAt([(0, 2)], 0) == [2] && FiredAt([(0, 2)] + [(0, 2)], 0) == [2, 2]
  {
    FiredSnoc([], 0, 2, 0);
    assert [] + [(0, 2)] == [(0, 2)];
    FiredSnoc([(0, 2)], 0, 2, 0);
  }

  // ----- the log is only written -----

  /** The state with nothing logged, to count callbacks from here on. */
  ghost function Afresh(s: System): System {
    s.(d := s.d.(log := []))
  }

  ghost function After(d: Daemon, log: seq<(Id, nat)>): Daemon {
    d.(log := log + d.log)
  }

  lemma {:induction false} AfterFire(d: Daemon, log: seq<(Id, nat)>, id: Id, now: nat)
    ensures Fire(After(d, log), id, now) == After(Fire(d, id, now), log)
  {
    assert (log + d.log) + [(id, now)] == log + (d.log + [(id, now)]);
  }

  lemma {:induction false} AfterSwitchOne(d: Daemon, log: seq<(Id, nat)>, now: nat)
    requires Known(d) && d.current != []
    ensures SwitchOne(After(d, log), now) == After(SwitchOne(d, now), log)
  {
    hide Wrap, InsertSorted;
    AfterFire(d.(current := d.current[1..]), log, d.current[0].owner, now);
  }

  lemma {:induction false} AfterSwitchLoop(d: Daemon, log: seq<(Id, nat)>, now: nat)
    requires Known(d)
    ensures SwitchLoop(After(d, log), now) == After(SwitchLoop(d, now), log)
    decreases Remaining(d.current)
  {
    hide SwitchOne;
    if d.current != [] {
      AfterSwitchOne(d, log, now);
      SwitchOneProgress(d, now);
      AfterSwitchLoop(SwitchOne(d, now), log, now);
    }
  }

  lemma {:induction false} AfterSample(d: Daemon, log: seq<(Id, nat)>, now: nat)
    requires Known(d)
    ensures Sample(After(d, log), now) == (After(Sample(d, now).0, log), Sample(d, now).1)
  {
    hide SwitchLoop;
    AfterSwitchLoop(d, log, now);
  }

  lemma {:induction false} AfterInsert(d: Daemon, log: seq<(Id, nat)>, id: Id, expiry: Tick, now: Tick, command: Tick)
    requires Known(d) && id in d.timers
    ensures InsertTimer(After(d, log), id, expiry, now, command)
            == (After(InsertTimer(d, id, expiry, now, command).0, log), InsertTimer(d, id, expiry, now, command).1)
  {
    hide InsertSorted, Classify;
  }

  lemma {:induction false} AfterExpired(d: Daemon, log: seq<(Id, nat)>, now: nat)
    requires Known(d) && d.current != []
    ensures ProcessExpired(After(d, log), now) == After(ProcessExpired(d, now), log)
  {
    hide InsertTimer, Wrap;
    HeadKnown(d);
    KnownTail(d);
    var id, next := d.current[0].owner, d.current[0].value;
    var d1 := d.(current := d.current[1..]);
    AfterInsert(d1, log, id, Wrap(next + d.timers[id].period), Wrap(now), next);
    var (d2, due) := InsertTimer(d1, id, Wrap(next + d.timers[id].period), Wrap(now), next);
    AfterFire(if due then Post(d2, Message(id, Start, next)) else d2, log, id, now);
    AfterFire(d1.(timers := d.timers[id := d.timers[id].(active := false)]), log, id, now);
  }

  lemma {:induction false} AfterObey(d: Daemon, log: seq<(Id, nat)>, m: Message, now: nat)
    requires Known(d) && m.timer in d.timers
    ensures Obey(After(d, log), m, now) == After(Obey(d, m, now), log)
  {
    hide InsertTimer, Wrap;
    var timer := d.timers[m.timer];
    var d1 := d.(timers := d.timers[m.timer := timer.(active := true)]);
    var d2 := d.(timers := d.timers[m.timer := timer.(active := true, period := m.value)]);
    KnownTimers(d, m.timer, timer.(active := true));
    KnownTimers(d, m.timer, timer.(active := true, period := m.value));
    AfterInsert(d1, log, m.timer, Wrap(m.value + timer.period), Wrap(now), m.value);
    AfterInsert(d2, log, m.timer, Wrap(Wrap(now) + m.value), Wrap(now), Wrap(now));
    AfterFire(InsertTimer(d1, m.timer, Wrap(m.value + timer.period), Wrap(now), m.value).0, log, m.timer, now);
  }

  /** Nothing depends on what has been logged before. */
  lemma {:induction false} AfterStep(s: System, log: seq<(Id, nat)>, op: Op)
    requires Known(s.d)
    ensures Step(s.(d := After(s.d, log)), op) == Step(s, op).(d := After(Step(s, op).d, log))
  {
    hide Sample, ProcessExpired, Obey, Without, Wrap;
    match op
    case Elapse =>
    case DoTimer =>
      AfterSample(s.d, log, s.clock);
      if s.d.current != [] && s.d.current[0].value <= Wrap(s.clock) && !Sample(s.d, s.clock).1 {
        HeadStays(s.d, s.clock);
        AfterExpired(Sample(s.d, s.clock).0, log, s.clock);
      }
    case DoCommand =>
      if s.d.commands != [] {
        AfterSample(Taken(s.d), log, s.clock);
        SampleTimers(Taken(s.d), s.clock);
        AfterObey(Sample(Taken(s.d), s.clock).0, log, s.d.commands[0], s.clock);
      }
    case Submit(m) =>
  }

  lemma {:induction false} HeadStays(d: Daemon, now: nat)
    requires Known(d) && !Sample(d, now).1
    ensures Sample(d, now).0.current == d.current
  {
    hide SwitchLists, Wrap;
  }

  lemma {:induction false} AfterRun(s: System, log: seq<(Id, nat)>, ops: seq<Op>)
    requires Known(s.d)
    ensures Run(s.(d := After(s.d, log)), ops) == Run(s, ops).(d := After(Run(s, ops).d, log))
    decreases |ops|
  {
    hide Step;
    if ops != [] {
      StepKnown(s, ops[0]);
      AfterStep(s, log, ops[0]);
      AfterRun(Step(s, ops[0]), log, ops[1..]);
    }
  }

  lemma {:induction false} FiredConcat(a: seq<(Id, nat)>, b: seq<(Id, nat)>, x: Id)
    ensures FiredAt(a + b, x) == FiredAt(a, x) + FiredAt(b, x)
  {
    if a == [] {
      assert a + b == b;
    } else {
      assert (a + b)[1..] == a[1..] + b && (a + b)[0] == a[0];
      FiredConcat(a[1..], b, x);
    }
  }

  /** The callbacks of a run are those it makes when counted from its beginning, after those before it. */
  lemma {:induction false} CountedAfresh(s: System, ops: seq<Op>, x: Id)
    requires Known(s.d)
    ensures Known(Afresh(s).d)
    ensures Run(s, ops) == Run(Afresh(s), ops).(d := Run(s, ops).d)
            && Run(s, ops).d == After(Run(Afresh(s), ops).d, s.d.log)
            && FiredAt(Run(s, ops).d.log, x) == FiredAt(s.d.log, x) + FiredAt(Run(Afresh(s), ops).d.log, x)
  {
    AfterRun(Afresh(s), s.d.log, ops);
    assert s.d.log + [] == s.d.log;
    assert Afresh(s).(d := After(Afresh(s).d, s.d.log)) == s;
    FiredConcat(s.d.log, Run(Afresh(s), ops).d.log, x);
  }

  // ----- starting and changing -----

  /** `x` will expire as a timer of period `p` started at `c` does. */
  ghost predicate New(s: System, x: Id, p: nat, c: nat) {
    x in s.d.timers && if s.d.timers[x].autoReload then Tracked(s, x, p, c) else OnceTracked(s, x, p, c)
  }

  /** The service task keeps up with `x` and nobody else commands it. */
  ghost predicate Watched(s: System, ops: seq<Op>, x: Id, p: nat, c: nat)
    requires Known(s.d) && x in s.d.timers
  {
    if s.d.timers[x].autoReload then KeepsUp(s, ops, x, p, c) else LeftAlone(s, ops, x, c)
  }

  /**
   * The callbacks `fired` are those of a timer of period `p` started at `c`: of an auto-reload
   * timer one per period and none early, of a one-shot timer the one at `c + p`.
   */
  ghost predicate FiredAsNew(s: System, x: Id, autoReload: bool, fired: seq<nat>, p: nat, c: nat)
    requires p > 0
  {
    if autoReload then
      s.d.lost
      || (&& (forall k: nat :: k < |fired| ==> fired[k] >= c + (k + 1) * p)
          && (CaughtUp(s.d) && c <= s.sampled ==> |fired| == (s.sampled - c) / p))
    else
      && |fired| <= 1 && (fired != [] ==> fired[0] >= c + p && Gone(s.d, x))
      && (CaughtUp(s.d) ==> (|fired| == 1 <==> c + p <= s.sampled))
  }

  lemma {:induction false} NewFires(s: System, ops: seq<Op>, x: Id, p: nat, c: nat)
    requires New(s, x, p, c) && Known(s.d) && Watched(s, ops, x, p, c) && p > 0
    ensures FiredAsNew(Run(s, ops), x, s.d.timers[x].autoReload, FiredAt(Run(s, ops).d.log, x), p, c)
  {
    hide Run, Tracked, OnceTracked, KeepsUp, LeftAlone, FiredAt, CaughtUp, Gone, Known;
    if s.d.timers[x].autoReload {
      TrackedPeriods(s, ops, x, p, c);
    } else {
      TrackedFiresOnce(s, ops, x, p, c);
    }
  }

  lemma {:induction false} ObeyedChange(d: Daemon, x: Id, v: Tick, now: nat)
    requires Shape(d) && x in d.timers && Gone(d, x) && v > 0
    ensures var d' := Obey(d, Message(x, ChangePeriod, v), now);
            && Shape(d') && d'.last == d.last && d'.log == d.log
            && x in d'.timers && d'.timers[x] == d.timers[x].(active := true, period := v)
            && Located(d', x, v, now + v, Epoch(now), now)
  {
    hide Epoch, Wrap, Known, Sorted, InsertTimer, Located, ItemsOf, MessagesOf;
    var d1 := d.(timers := d.timers[x := d.timers[x].(active := true, period := v)]);
    KnownTimers(d, x, d.timers[x].(active := true, period := v));
    WrapSum(now, v);
    InsertLocates(d1, x, v, now, now);
    InsertShape(d1, x, Wrap(now + v), Wrap(now), Wrap(now));
    ObeyShape(d, Message(x, ChangePeriod, v), now);
  }

  lemma {:induction false} LocatedIsNew(d: Daemon, x: Id, p: nat, now: nat)
    requires Shape(d) && x in d.timers && d.timers[x].period == p > 0 && d.last == Wrap(now) && FiredAt(d.log, x) == []
    requires Located(d, x, p, now + p, Epoch(now), now)
    ensures New(System(d, now, now), x, p, now)
  {
    hide Epoch, Wrap, Known, Sorted, Located, FiredAt;
    ExpiryStep(now, p, 0);
  }

  /**
   * A changed timer, running or not, next expires one new period after the time of the change,
   * provided no other message for it is queued behind it; the change itself calls nothing back.
   */
  lemma {:induction false} ChangedIsNew(s: System, x: Id, v: Tick, ops: seq<Op>)
    requires TakesUp(s, x, ChangePeriod, v) && v > 0 && MessagesOf(s.d.commands[1..], x) == []
    ensures Known(Step(s, DoCommand).d) && Known(Afresh(Step(s, DoCommand)).d)
    ensures var s1 := Step(s, DoCommand);
            && New(Afresh(s1), x, v, s.clock)
            && s1.d.timers[x] == s.d.timers[x].(active := true, period := v)
            && FiredAt(s1.d.log, x) == FiredAt(s.d.log, x)
            && (Watched(Afresh(s1), ops, x, v, s.clock) ==>
                  var fired := FiredAt(Run(Afresh(s1), ops).d.log, x);
                  && FiredAt(Run(s1, ops).d.log, x) == FiredAt(s.d.log, x) + fired
                  && FiredAsNew(Run(s1, ops), x, s.d.timers[x].autoReload, fired, v, s.clock))
  {
    hide Sorted, Known, ItemsOf, MessagesOf, FiredAt, Sample, Taken, Obey, Run, Located, Watched, CaughtUp, Wrap, Epoch;
    StepKnown(s, DoCommand);
    var s1 := Step(s, DoCommand);
    TakenOff(s.d, x, s.clock);
    ObeyedChange(Sample(Taken(s.d), s.clock).0, x, v, s.clock);
    CountedAfresh(s1, ops, x);
    NothingFired(x);
    SameLocated(s1.d, x, v, s.clock);
    LocatedIsNew(Afresh(s1).d, x, v, s.clock);
    if Watched(Afresh(s1), ops, x, v, s.clock) {
      NewFires(Afresh(s1), ops, x, v, s.clock);
      SameFired(Run(Afresh(s1), ops), Run(s1, ops), x, s.d.timers[x].autoReload,
                FiredAt(Run(Afresh(s1), ops).d.log, x), v, s.clock);
    }
  }

  lemma {:induction false} NothingFired(x: Id)
    ensures FiredAt([], x) == []
  {
  }

  lemma {:induction false} SameLocated(d: Daemon, x: Id, p: nat, now: nat)
    requires Located(d, x, p, now + p, Epoch(now), now)
    ensures Located(d.(log := []), x, p, now + p, Epoch(now), now)
  {
  }

  lemma {:induction false} SameFired(s: System, s': System, x: Id, autoReload: bool, fired: seq<nat>, p: nat, c: nat)
    requires p > 0 && FiredAsNew(s, x, autoReload, fired, p, c) && s' == s.(d := s.d.(log := s'.d.log))
    ensures FiredAsNew(s', x, autoReload, fired, p, c)
  {
    hide ItemsOf, MessagesOf;
  }

  lemma {:induction false} StartedIsNew(d: Daemon, x: Id, p: Tick, c: nat, now: nat)
    requires Shape(d) && x in d.timers && d.timers[x].period == p > 0 && Gone(d, x) && FiredAt(d.log, x) == []
    requires d.last == Wrap(now) && c <= now < c + TICKS
    ensures var d' := Obey(d, Message(x, Start, Wrap(c)), now); d'.lost || New(System(d', now, now), x, p, c)
  {
    hide Epoch, Wrap, Known, Sorted, Located, ItemsOf, MessagesOf, FiredAt, Obey, NeverEarly;
    NeverEarlyYet(c, p);
    var m := Message(x, Start, Wrap(c));
    ObeyKind(d, m, now);
    if d.timers[x].autoReload {
      ObeyedRestart(d, x, p, c, now);
      FiredBy(Obey(d, m, now), x, p, c, now);
    } else {
      ObeyedStart(d, x, p, c, now);
      OnceSampled(Obey(d, m, now), x, p, c, now);
    }
  }

  lemma {:induction false} NeverEarlyYet(c: nat, p: nat)
    ensures NeverEarly([], c, p) && Expiry(c, p, 0) == c
  {
  }

  lemma {:induction false} ObeyKind(d: Daemon, m: Message, now: nat)
    requires Known(d) && m.timer in d.timers
    ensures var d' := Obey(d, m, now);
            && m.timer in d'.timers && d'.timers[m.timer].autoReload == d.timers[m.timer].autoReload
            && d'.timers[m.timer].active == (m.command != Stop)
            && d'.timers[m.timer].period == if m.command == ChangePeriod then m.value else d.timers[m.timer].period
  {
    hide Wrap, Known, InsertSorted, Classify;
  }

  lemma {:induction false} FiredBy(d: Daemon, x: Id, p: nat, c: nat, now: nat)
    requires d.lost || Tracks(d, x, p, c, Epoch(now), now)
    requires d.last == Wrap(now)
    ensures d.lost || Tracked(System(d, now, now), x, p, c)
  {
    hide Epoch, Wrap, Known, Sorted, Located, FiredAt, NeverEarly, Expiry;
  }

  /**
   * A start command given at `c` and taken up less than a wrap later, whether the timer was running
   * or not, makes it expire as a new one from `c` on, provided no other message for it is queued
   * behind the command. The callbacks counted are those from the taking up of the command on.
   */
  lemma {:induction false} RestartedIsNew(s: System, x: Id, c: nat, ops: seq<Op>)
    requires TakesUp(s, x, Start, Wrap(c)) && MessagesOf(s.d.commands[1..], x) == []
    requires c <= s.clock < c + TICKS && s.d.timers[x].period > 0
    ensures Known(Afresh(s).d) && Known(Step(Afresh(s), DoCommand).d)
    ensures var s1, p := Step(Afresh(s), DoCommand), s.d.timers[x].period;
            s1.d.lost
            || (&& New(s1, x, p, c) && s1.d.timers[x] == s.d.timers[x].(active := true)
                && (Watched(s1, ops, x, p, c) ==>
                      FiredAsNew(Run(s1, ops), x, s.d.timers[x].autoReload, FiredAt(Run(s1, ops).d.log, x), p, c)))
  {
    hide Sorted, Known, ItemsOf, MessagesOf, FiredAt, Sample, Taken, Obey, Run, Located, Watched, CaughtUp, Wrap, Epoch,
      Tracked, OnceTracked;
    KnownAfresh(s);
    StepKnown(Afresh(s), DoCommand);
    TakenOff(Afresh(s).d, x, s.clock);
    NothingFired(x);
    var d := Sample(Taken(Afresh(s).d), s.clock).0;
    ObeyKind(d, s.d.commands[0], s.clock);
    StartedIsNew(d, x, s.d.timers[x].period, c, s.clock);
    var s1 := Step(Afresh(s), DoCommand);
    if !s1.d.lost && Watched(s1, ops, x, s.d.timers[x].period, c) {
      NewFires(s1, ops, x, s.d.timers[x].period, c);
    }
  }

  lemma {:induction false} KnownAfresh(s: System)
    requires Shape(s.d)
    ensures Shape(Afresh(s).d)
  {
  }

  // ----- whether a timer counts as active -----

  /**
   * xTimerIsTimerActive after a callback. Processing an expired one-shot timer marks it inactive;
   * the loop that switches the lists, and a start command that finds its timer due, do not, and
   * leave it marked active with nothing to call it back.
   */
  lemma {:induction false} ActiveAfterCallback(d: Daemon, now: nat)
    requires Known(d) && d.current != []
    ensures var x := d.current[0].owner;
            && x in d.timers && x in ProcessExpired(d, now).timers
            && ProcessExpired(d, now).timers[x].active == (d.timers[x].active && d.timers[x].autoReload)
            && SwitchOne(d, now).timers == d.timers
  {
    hide Known, InsertTimer, InsertSorted, Wrap;
    HeadKnown(d);
    KnownTail(d);
    var y, next := d.current[0].owner, d.current[0].value;
    InsertShapeLog(d.(current := d.current[1..]), y, Wrap(next + d.timers[y].period), Wrap(now), next);
  }
}
