/** timers.c: the timer service task, its two active lists and its command queue. */
module Timers {
  import opened Ticks
  import opened Rings

  type Id = nat

  const QUEUE_LENGTH: nat := 50

  datatype Timer = Timer(period: Tick, autoReload: bool, active: bool)

  datatype Command = Start | Stop | ChangePeriod

  datatype Message = Message(timer: Id, command: Command, value: Tick)

  /**
   * `log` records each callback with the unbounded time it ran at. `lost` says that a message
   * found the command queue full, which the service task asserts against.
   */
  datatype Daemon = Daemon(
    timers: map<Id, Timer>, current: seq<Item<Id>>, overflow: seq<Item<Id>>, last: Tick,
    commands: seq<Message>, lost: bool, log: seq<(Id, nat)>)

  ghost predicate Listed(timers: map<Id, Timer>, l: seq<Item<Id>>) {
    forall i :: 0 <= i < |l| ==> l[i].owner in timers && l[i].value < TICKS
  }

  ghost predicate Known(d: Daemon) {
    && Listed(d.timers, d.current) && Listed(d.timers, d.overflow)
    && (forall i :: 0 <= i < |d.commands| ==> d.commands[i].timer in d.timers)
  }

  // ----- inserting a timer -----

  datatype Place = Due | Current | Overflow

  /** The tests of prvInsertTimerInActiveList. */
  function Classify(expiry: Tick, now: Tick, command: Tick, period: Tick): Place {
    if expiry <= now then if Wrap(now - command) >= period then Due else Overflow
    else if now < command && expiry >= command then Due
    else Current
  }

  /**
   * The tests are exact in unbounded time: for a command given at `c` and looked at less than a
   * full wrap later, the timer is due exactly when its expiry has passed, goes to the current
   * list exactly when it expires in this epoch and to the overflow list exactly when in the next.
   */
  lemma {:induction false} ClassifyExact(c: nat, period: Tick, now: nat)
    requires c <= now < c + TICKS && period > 0
    ensures var place := Classify(Wrap(c + period), Wrap(now), Wrap(c), period);
            && (place == Due <==> c + period <= now)
            && (place == Current <==> c + period > now && Epoch(c + period) == Epoch(now))
            && (place == Overflow <==> c + period > now && Epoch(c + period) == Epoch(now) + 1)
  {
    hide Wrap, Epoch;
    AtSplits(c);
    AtSplits(now);
    AtSplits(c + period);
    WrapDistance(c, now);
    NearEpochs(c, now);
    NearEpochs(c, c + period);
  }

  function InsertTimer(d: Daemon, id: Id, expiry: Tick, now: Tick, command: Tick): (r: (Daemon, bool))
    requires Known(d) && id in d.timers
    ensures Known(r.0)
  {
    InsertListed(d.timers, d.current, Item(id, expiry));
    InsertListed(d.timers, d.overflow, Item(id, expiry));
    match Classify(expiry, now, command, d.timers[id].period)
    case Due => (d, true)
    case Current => (d.(current := InsertSorted(d.current, Item(id, expiry))), false)
    case Overflow => (d.(overflow := InsertSorted(d.overflow, Item(id, expiry))), false)
  }

  lemma {:induction false} InsertListed(timers: map<Id, Timer>, l: seq<Item<Id>>, x: Item<Id>)
    requires Listed(timers, l) && x.owner in timers && x.value < TICKS
    ensures Listed(timers, InsertSorted(l, x))
  {
  }

  /** xTimerGenericCommand by the service task itself, which does not wait for room. */
  function Post(d: Daemon, m: Message): Daemon {
    if |d.commands| < QUEUE_LENGTH then d.(commands := d.commands + [m]) else d.(lost := true)
  }

  function Fire(d: Daemon, id: Id, now: nat): Daemon {
    d.(log := d.log + [(id, now)])
  }

  // ----- switching the lists -----

  /** Ticks left to the wrap, summed over a list: what draining it uses up. */
  ghost function Remaining(l: seq<Item<Id>>): nat {
    if l == [] then 0 else (if l[0].value < TICKS then TICKS - l[0].value else 0) + Remaining(l[1..])
  }

  lemma {:induction false} RemainingConcat(a: seq<Item<Id>>, b: seq<Item<Id>>)
    ensures Remaining(a + b) == Remaining(a) + Remaining(b)
  {
    if a == [] {
      assert a + b == b;
    } else {
      assert (a + b)[1..] == a[1..] + b;
      RemainingConcat(a[1..], b);
    }
  }

  lemma {:induction false} RemainingInsert(l: seq<Item<Id>>, x: Item<Id>)
    requires x.value < TICKS
    ensures Remaining(InsertSorted(l, x)) == Remaining(l) + TICKS - x.value
  {
    var p := Position(l, x.value);
    RemainingConcat(l[..p] + [x], l[p..]);
    RemainingConcat(l[..p], [x]);
    RemainingConcat(l[..p], l[p..]);
    assert l == l[..p] + l[p..];
  }

  /**
   * One turn of prvSwitchTimerLists' loop: the head's callback runs; an auto-reload timer that
   * expires again before the wrap goes back on the same list, otherwise its restart is posted.
   */
  function SwitchOne(d: Daemon, now: nat): Daemon
    requires Known(d) && d.current != []
  {
    var id, next := d.current[0].owner, d.current[0].value;
    var d1 := Fire(d.(current := d.current[1..]), id, now);
    var reload := Wrap(next + d.timers[id].period);
    if !d.timers[id].autoReload then d1
    else if reload > next then d1.(current := InsertSorted(d1.current, Item(id, reload)))
    else Post(d1, Message(id, Start, next))
  }

  /** Each turn removes a timer or strictly raises its expiry without wrapping. */
  lemma {:induction false} SwitchOneProgress(d: Daemon, now: nat)
    requires Known(d) && d.current != []
    ensures Known(SwitchOne(d, now)) && Remaining(SwitchOne(d, now).current) < Remaining(d.current)
  {
    hide Wrap, InsertSorted;
    var id, next := d.current[0].owner, d.current[0].value;
    var x := Item(id, Wrap(next + d.timers[id].period));
    RemainingInsert(d.current[1..], x);
    InsertListed(d.timers, d.current[1..], x);
  }

  /** The loop: it ends, with the list empty. */
  function SwitchLoop(d: Daemon, now: nat): (d': Daemon)
    requires Known(d)
    ensures Known(d') && d'.current == [] && d'.overflow == d.overflow && d'.timers == d.timers
    decreases Remaining(d.current)
  {
    hide SwitchOne;
    if d.current == [] then d
    else
      SwitchOneProgress(d, now);
      SwitchOneFrame(d, now);
      SwitchLoop(SwitchOne(d, now), now)
  }

  lemma {:induction false} SwitchOneFrame(d: Daemon, now: nat)
    requires Known(d) && d.current != []
    ensures SwitchOne(d, now).overflow == d.overflow && SwitchOne(d, now).timers == d.timers
  {
  }

  function SwitchLists(d: Daemon, now: nat): (d': Daemon)
    requires Known(d)
    ensures Known(d') && d'.timers == d.timers && d'.overflow == [] && d'.current == d.overflow
  {
    var d1 := SwitchLoop(d, now);
    d1.(current := d1.overflow, overflow := [])
  }

  /** prvSampleTimeNow: a tick count below the last one means the counter wrapped. */
  function Sample(d: Daemon, now: nat): (r: (Daemon, bool))
    requires Known(d)
    ensures Known(r.0) && r.0.timers == d.timers
  {
    if Wrap(now) < d.last then (SwitchLists(d, now).(last := Wrap(now)), true) else (d.(last := Wrap(now)), false)
  }

  // ----- the service task -----

  /** prvProcessExpiredTimer on the head of the current list. */
  function ProcessExpired(d: Daemon, now: nat): (d': Daemon)
    requires Known(d) && d.current != []
    ensures Known(d')
  {
    var id, next := d.current[0].owner, d.current[0].value;
    var timer := d.timers[id];
    var d1 := d.(current := d.current[1..]);
    var d2 :=
      if timer.autoReload then
        var (d3, due) := InsertTimer(d1, id, Wrap(next + timer.period), Wrap(now), next);
        if due then Post(d3, Message(id, Start, next)) else d3
      else d1.(timers := d.timers[id := timer.(active := false)]);
    Fire(d2, id, now)
  }

  /** prvProcessTimerOrBlockTask, looking at the head found by prvGetNextExpireTime. */
  function ProcessTimer(d: Daemon, now: nat): (d': Daemon)
    requires Known(d)
    ensures Known(d')
  {
    var (d1, switched) := Sample(d, now);
    if !switched && d.current != [] && d.current[0].value <= Wrap(now) then ProcessExpired(d1, now) else d1
  }

  /** The wait handed to the command queue: to the head's expiry or, with no timer left before it, to the wrap. */
  function BlockTicks(d: Daemon, now: nat): Tick {
    Wrap((if d.current == [] then 0 else d.current[0].value) - Wrap(now))
  }

  /** With no timer on either list only a command ends the wait. */
  predicate WaitsForever(d: Daemon) {
    d.current == [] && d.overflow == []
  }

  /** A message is taken off the queue and its timer off whichever list it is on. */
  function Taken(d: Daemon): (d': Daemon)
    requires Known(d) && d.commands != []
    ensures Known(d')
  {
    var y := d.commands[0].timer;
    d.(commands := d.commands[1..], current := Without(d.current, y), overflow := Without(d.overflow, y))
  }

  /** The switch over the command, once the time has been sampled. */
  function Obey(d: Daemon, m: Message, now: nat): (d': Daemon)
    requires Known(d) && m.timer in d.timers
    ensures Known(d')
  {
    var timer := d.timers[m.timer];
    match m.command
    case Start =>
      var d1 := d.(timers := d.timers[m.timer := timer.(active := true)]);
      var expiry := Wrap(m.value + timer.period);
      var (d2, due) := InsertTimer(d1, m.timer, expiry, Wrap(now), m.value);
      if !due then d2
      else
        var d3 := Fire(d2, m.timer, now);
        if timer.autoReload then Post(d3, Message(m.timer, Start, expiry)) else d3
    case Stop => d.(timers := d.timers[m.timer := timer.(active := false)])
    case ChangePeriod =>
      var d1 := d.(timers := d.timers[m.timer := timer.(active := true, period := m.value)]);
      InsertTimer(d1, m.timer, Wrap(Wrap(now) + m.value), Wrap(now), Wrap(now)).0
  }

  /** prvProcessReceivedCommands on one message. */
  function ProcessCommand(d: Daemon, now: nat): (d': Daemon)
    requires Known(d) && d.commands != []
    ensures Known(d')
  {
    Obey(Sample(Taken(d), now).0, d.commands[0], now)
  }
}
