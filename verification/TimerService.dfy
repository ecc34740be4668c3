/** timers.c: the service task's data, updated in place. */
module TimerService {
  import opened Ticks
  import opened Rings
  import opened Timers

  class Service {
    var timers: map<Id, Timer>
    var current: seq<Item<Id>>
    var overflow: seq<Item<Id>>
    var last: Tick
    var commands: seq<Message>
    var lost: bool
    var log: seq<(Id, nat)>

    function View(): Daemon
      reads this
    {
      Daemon(timers, current, overflow, last, commands, lost, log)
    }

    /** prvCheckForValidListAndQueue: empty lists and an empty queue. */
    constructor ()
      ensures View() == Daemon(map[], [], [], 0, [], false, []) && Known(View())
    {
      timers, current, overflow, last, commands, lost, log := map[], [], [], 0, [], false, [];
    }

    method PostMessage(m: Message)
      modifies `commands, `lost
      ensures View() == Post(old(View()), m)
    {
      if |commands| < QUEUE_LENGTH {
        commands := commands + [m];
      } else {
        lost := true;
      }
    }

    /** prvInsertTimerInActiveList. */
    method InsertTimerInActiveList(id: Id, expiry: Tick, now: Tick, command: Tick) returns (processNow: bool)
      requires Known(View()) && id in timers
      modifies `current, `overflow
      ensures (View(), processNow) == InsertTimer(old(View()), id, expiry, now, command)
    {
      processNow := false;
      if expiry <= now {
        if Wrap(now - command) >= timers[id].period {
          processNow := true;
        } else {
          overflow := InsertSorted(overflow, Item(id, expiry));
        }
      } else if now < command && expiry >= command {
        processNow := true;
      } else {
        current := InsertSorted(current, Item(id, expiry));
      }
    }

    /** prvSwitchTimerLists, whose loop uses up the ticks its timers have left before the wrap. */
    method SwitchTimerLists(now: nat)
      requires Known(View())
      modifies this
      ensures Known(View()) && View() == SwitchLists(old(View()), now)
    {
      hide Wrap, InsertSorted;
      while current != []
        invariant Known(View()) && SwitchLoop(View(), now) == SwitchLoop(old(View()), now)
        decreases Remaining(current)
      {
        SwitchOneProgress(View(), now);
        ghost var before := View();
        var id, next := current[0].owner, current[0].value;
        current := current[1..];
        log := log + [(id, now)];
        if timers[id].autoReload {
          var reload := Wrap(next + timers[id].period);
          if reload > next {
            current := InsertSorted(current, Item(id, reload));
          } else {
            PostMessage(Message(id, Start, next));
          }
        }
        assert View() == SwitchOne(before, now);
      }
      current, overflow := overflow, current;
    }

    /** prvSampleTimeNow. */
    method SampleTimeNow(now: nat) returns (switched: bool)
      requires Known(View())
      modifies this
      ensures Known(View()) && (View(), switched) == Sample(old(View()), now)
    {
      switched := Wrap(now) < last;
      if switched {
        SwitchTimerLists(now);
      }
      last := Wrap(now);
    }

    /** prvProcessExpiredTimer. */
    method ProcessExpiredTimer(now: nat)
      requires Known(View()) && current != []
      modifies this
      ensures Known(View()) && View() == ProcessExpired(old(View()), now)
    {
      hide InsertTimer, Wrap;
      var id, next := current[0].owner, current[0].value;
      current := current[1..];
      if timers[id].autoReload {
        var due := InsertTimerInActiveList(id, Wrap(next + timers[id].period), Wrap(now), next);
        if due {
          PostMessage(Message(id, Start, next));
        }
      } else {
        timers := timers[id := timers[id].(active := false)];
      }
      log := log + [(id, now)];
    }

    /**
     * prvProcessTimerOrBlockTask. When it goes on to block it does so for `ticks`, or until a
     * command comes if `indefinitely`.
     */
    method ProcessTimerOrBlock(now: nat) returns (blocks: bool, ticks: Tick, indefinitely: bool)
      requires Known(View())
      modifies this
      ensures Known(View()) && View() == ProcessTimer(old(View()), now)
      ensures blocks == (Wrap(now) >= old(last) && (old(current) == [] || old(current)[0].value > Wrap(now)))
      ensures blocks ==> View() == old(View()).(last := Wrap(now))
      ensures blocks ==> ticks == BlockTicks(View(), now) && indefinitely == WaitsForever(View())
    {
      hide SwitchLists, ProcessExpired, Wrap;
      var wasEmpty, next := current == [], if current == [] then 0 else current[0].value;
      var switched := SampleTimeNow(now);
      blocks, ticks, indefinitely := false, 0, false;
      if !switched {
        if !wasEmpty && next <= Wrap(now) {
          ProcessExpiredTimer(now);
        } else {
          blocks, ticks := true, Wrap(next - Wrap(now));
          indefinitely := wasEmpty && overflow == [];
        }
      }
    }

    /** The switch of prvProcessReceivedCommands. */
    method ObeyCommand(m: Message, now: nat)
      requires Known(View()) && m.timer in timers
      modifies this
      ensures Known(View()) && View() == Obey(old(View()), m, now)
    {
      hide InsertTimer, Wrap;
      match m.command
      case Start =>
        timers := timers[m.timer := timers[m.timer].(active := true)];
        var expiry := Wrap(m.value + timers[m.timer].period);
        var due := InsertTimerInActiveList(m.timer, expiry, Wrap(now), m.value);
        if due {
          log := log + [(m.timer, now)];
          if timers[m.timer].autoReload {
            PostMessage(Message(m.timer, Start, expiry));
          }
        }
      case Stop =>
        timers := timers[m.timer := timers[m.timer].(active := false)];
      case ChangePeriod =>
        timers := timers[m.timer := timers[m.timer].(active := true, period := m.value)];
        var _ := InsertTimerInActiveList(m.timer, Wrap(Wrap(now) + m.value), Wrap(now), Wrap(now));
    }

    /** One turn of prvProcessReceivedCommands' loop. */
    method ProcessReceivedCommand(now: nat)
      requires Known(View()) && commands != []
      modifies this
      ensures Known(View()) && View() == ProcessCommand(old(View()), now)
    {
      hide Sample, Obey, Taken, Without;
      ghost var before := View();
      var m := commands[0];
      commands := commands[1..];
      current, overflow := Without(current, m.timer), Without(overflow, m.timer);
      TakenIs(before, View());
      var _ := SampleTimeNow(now);
      ObeyCommand(m, now);
    }

    /** prvProcessReceivedCommands, sampling `times[i]` for message number `i` until none is left. */
    method ProcessReceivedCommands(times: seq<nat>)
      requires Known(View())
      modifies this
      ensures Known(View()) && View() == Drained(old(View()), times)
    {
      hide Sample, Obey, Taken, Known, ProcessCommand;
      var i := 0;
      while i < |times| && commands != []
        invariant i <= |times| && Known(View()) && Drained(View(), times[i..]) == Drained(old(View()), times)
      {
        assert times[i..][1..] == times[i + 1..];
        ProcessReceivedCommand(times[i]);
        i := i + 1;
      }
    }
  }

  lemma {:induction false} TakenIs(d: Daemon, d': Daemon)
    requires Known(d) && d.commands != []
    requires d' == d.(commands := d.commands[1..], current := Without(d.current, d.commands[0].timer),
                      overflow := Without(d.overflow, d.commands[0].timer))
    ensures d' == Taken(d) && d.commands[0].timer in d.timers
  {
  }

  /** Commands processed one after the other at the given times, as long as there are any. */
  function Drained(d: Daemon, times: seq<nat>): Daemon
    requires Known(d)
    decreases |times|
  {
    if times == [] || d.commands == [] then d else Drained(ProcessCommand(d, times[0]), times[1..])
  }
}
