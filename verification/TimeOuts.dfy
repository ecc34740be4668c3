/** Block-time accounting and periodic delays of tasks.c, in wrapped and in unbounded time. */
module TimeOuts {
  import opened Ticks
  import opened Tasks
  import Kernel
  import KernelTime

  // ----- xTaskCheckForTimeOut -----

  /** What TimeOut_t and the caller's remaining block time hold. */
  datatype Entry = Entry(overflowCount: nat, timeOnEntering: Tick, ticksToWait: Tick)

  /** vTaskInternalSetTimeOutState at time `now`, with `wait` ticks left. */
  function Entered(now: nat, wait: Tick): Entry {
    Entry(Epoch(now), Wrap(now), wait)
  }

  /** xTaskCheckForTimeOut at time `now`, past the test for an aborted delay. */
  function CheckForTimeOut(e: Entry, now: nat): (r: (Entry, bool)) {
    var elapsed := Wrap(Wrap(now) - e.timeOnEntering);
    if e.ticksToWait == MAX_DELAY then (e, false)
    else if Epoch(now) != e.overflowCount && Wrap(now) >= e.timeOnEntering then (e.(ticksToWait := 0), true)
    else if elapsed < e.ticksToWait then (Entered(now, e.ticksToWait - elapsed), false)
    else (e.(ticksToWait := 0), true)
  }

  /** The caller's TimeOut_t and block time, updated in place. */
  class TimeOut {
    var overflowCount: nat
    var timeOnEntering: Tick
    var ticksToWait: Tick

    function View(): Entry
      reads this
    {
      Entry(overflowCount, timeOnEntering, ticksToWait)
    }

    /** vTaskSetTimeOutState. */
    constructor (overflows: nat, tick: Tick, wait: Tick)
      ensures View() == Entered(At(overflows, tick), wait)
    {
      AtUnique(overflows, tick);
      overflowCount, timeOnEntering, ticksToWait := overflows, tick, wait;
    }

    /** xTaskCheckForTimeOut; `aborted` is ucDelayAborted of the running task, which is cleared. */
    method Check(overflows: nat, tick: Tick, aborted: bool) returns (timedOut: bool, aborted': bool)
      modifies this
      ensures !aborted' && (aborted ==> timedOut && View() == old(View()))
      ensures !aborted ==> (View(), timedOut) == CheckForTimeOut(old(View()), At(overflows, tick))
      ensures !aborted && old(ticksToWait) == MAX_DELAY ==> !timedOut && View() == old(View())
      ensures !aborted && timedOut ==> View() == old(View()).(ticksToWait := 0)
    {
      AtUnique(overflows, tick);
      hide Wrap, Epoch;
      var elapsed := Wrap(tick - timeOnEntering);
      aborted' := false;
      if aborted {
        timedOut := true;
      } else if ticksToWait == MAX_DELAY {
        timedOut := false;
      } else if overflows != overflowCount && tick >= timeOnEntering {
        timedOut, ticksToWait := true, 0;
      } else if elapsed < ticksToWait {
        ticksToWait := ticksToWait - elapsed;
        overflowCount, timeOnEntering := overflows, tick;
        timedOut := false;
      } else {
        ticksToWait, timedOut := 0, true;
      }
    }
  }

  /** Two or more wraps went by, the tick is below the one on entering, and the distance looks short. */
  predicate LooksEarly(start: nat, wait: Tick, now: nat) {
    Epoch(now) >= Epoch(start) + 2 && Wrap(now) < Wrap(start) && Wrap(Wrap(now) - Wrap(start)) < wait
  }

  /** One check tells the truth, unless the counter wrapped unseen; then it does not. */
  lemma {:induction false} CheckExactIff(start: nat, wait: Tick, now: nat)
    requires start <= now && wait < MAX_DELAY
    ensures CheckForTimeOut(Entered(start, wait), now).1 == (now - start >= wait) <==> !LooksEarly(start, wait, now)
    ensures now - start < wait ==>
              CheckForTimeOut(Entered(start, wait), now).0 == Entered(now, wait - (now - start))
    ensures CheckForTimeOut(Entered(start, wait), now).1 ==>
              CheckForTimeOut(Entered(start, wait), now).0 == Entered(start, 0)
  {
    AtSplits(start);
    AtSplits(now);
    if Epoch(now) == Epoch(start) {
      WrapDistance(start, now);
    } else if Epoch(now) == Epoch(start) + 1 && Wrap(now) < Wrap(start) {
      WrapDistance(start, now);
    }
  }

  /** A wait that ended two wraps ago goes unnoticed by a check at a tick just below the entry's. */
  lemma {:induction false} UnseenWraps()
    ensures LooksEarly(5, MAX_DELAY - 1, 2 * TICKS + 2)
    ensures !CheckForTimeOut(Entered(5, MAX_DELAY - 1), 2 * TICKS + 2).1
  {
  }

  // ----- a loop of checks -----

  /** At most one wrap of the counter between one check and the next. */
  predicate Spaced(start: nat, times: seq<nat>)
    decreases |times|
  {
    times == [] || (start <= times[0] && Epoch(times[0]) <= Epoch(start) + 1 && Spaced(times[0], times[1..]))
  }

  /** The first of the checks made at `times` that reports a timeout. */
  function FirstReport(e: Entry, times: seq<nat>): nat
    decreases |times|
  {
    if times == [] || CheckForTimeOut(e, times[0]).1 then 0
    else 1 + FirstReport(CheckForTimeOut(e, times[0]).0, times[1..])
  }

  /** The first of `times` by which `wait` ticks have passed since `start`. */
  function FirstDue(start: nat, wait: nat, times: seq<nat>): nat {
    if times == [] || times[0] >= start + wait then 0 else 1 + FirstDue(start, wait, times[1..])
  }

  lemma {:induction false} DueShifts(start: nat, wait: nat, now: nat, times: seq<nat>)
    requires start <= now <= start + wait
    ensures FirstDue(now, wait - (now - start), times) == FirstDue(start, wait, times)
  {
    if times != [] && times[0] < start + wait {
      DueShifts(start, wait, now, times[1..]);
    }
  }

  /**
   * The accounting telescopes: over any sequence of checks with at most one wrap in between, the
   * first to report a timeout is the first at which the original wait has passed in full.
   */
  lemma {:induction false} ChecksTelescope(start: nat, wait: Tick, times: seq<nat>)
    requires wait < MAX_DELAY && Spaced(start, times)
    ensures FirstReport(Entered(start, wait), times) == FirstDue(start, wait, times)
    decreases |times|
  {
    hide CheckForTimeOut, Wrap, Epoch;
    if times != [] {
      var now := times[0];
      CheckExactIff(start, wait, now);
      if now < start + wait {
        ChecksTelescope(now, wait - (now - start), times[1..]);
        DueShifts(start, wait, now, times[1..]);
      }
    }
  }

  /** A wait of portMAX_DELAY is reported over by no check, however many wraps go by, and stays as it was. */
  lemma {:induction false} ForeverNeverReports(e: Entry, times: seq<nat>)
    requires e.ticksToWait == MAX_DELAY
    ensures FirstReport(e, times) == |times|
    ensures forall i :: 0 <= i < |times| ==> CheckForTimeOut(e, times[i]) == (e, false)
    decreases |times|
  {
    if times != [] {
      ForeverNeverReports(e, times[1..]);
    }
  }

  // ----- xTaskDelayUntil -----

  /** What a call makes of the previous wake time, and for how long it blocks if it does. */
  datatype Delay = Delay(previousWake: Tick, delays: bool, ticks: Tick)

  /** xTaskDelayUntil up to its blocking. */
  function Until(previous: Tick, increment: Tick, tick: Tick): Delay {
    var wake := Wrap(previous + increment);
    var delays := if tick < previous then wake < previous && wake > tick else wake < previous || wake > tick;
    Delay(wake, delays, if delays then Wrap(wake - tick) else 0)
  }

  /** The call delays exactly when the unbounded wake time lies ahead, and then until that time. */
  lemma {:induction false} UntilExact(previous: nat, increment: Tick, now: nat)
    requires previous <= now < previous + TICKS && increment > 0
    ensures var d := Until(Wrap(previous), increment, Wrap(now));
            && d.previousWake == Wrap(previous + increment)
            && (d.delays <==> previous + increment > now)
            && (d.delays ==> d.ticks == previous + increment - now)
  {
    var wake := previous + increment;
    WrapSum(previous, increment);
    WrapOnce(Wrap(previous), increment);
    AtSplits(previous);
    AtSplits(now);
    hide Wrap, Epoch;
    NearEpochs(previous, now);
    if wake > now {
      WrapDistance(now, wake);
    }
  }

  /** Periodic wake times do not drift: the wake time of each call is a multiple of the period on. */
  ghost predicate NoDrift(start: nat, increment: Tick, calls: seq<nat>, i: nat, previous: Tick)
    requires i <= |calls| && increment > 0
    decreases |calls| - i
  {
    && previous == Wrap(start + i * increment)
    && (i < |calls| ==>
          var d := Until(previous, increment, Wrap(calls[i]));
          && (d.delays <==> start + (i + 1) * increment > calls[i])
          && (d.delays ==> calls[i] + d.ticks == start + (i + 1) * increment)
          && NoDrift(start, increment, calls, i + 1, d.previousWake))
  }

  /** Calls that come after the previous wake time and less than a full wrap later never drift. */
  lemma {:induction false} PeriodicWithoutDrift(start: nat, increment: Tick, calls: seq<nat>, i: nat)
    requires increment > 0 && i <= |calls|
    requires forall j: nat :: i <= j < |calls| ==> start + j * increment <= calls[j] < start + j * increment + TICKS
    ensures NoDrift(start, increment, calls, i, Wrap(start + i * increment))
    decreases |calls| - i
  {
    hide Wrap, Until;
    if i < |calls| {
      UntilExact(start + i * increment, increment, calls[i]);
      assert start + i * increment + increment == start + (i + 1) * increment;
      PeriodicWithoutDrift(start, increment, calls, i + 1);
    }
  }

  /** In the scheduler the delayed caller wakes at exactly the unbounded wake time. */
  lemma {:induction false} DelayUntilWakes(k: Kernel.State, previous: nat, increment: Tick)
    requires Kernel.Shaped(k) && previous <= Kernel.Now(k) < previous + TICKS && increment > 0
    requires previous + increment > Kernel.Now(k)
    ensures var d := Until(Wrap(previous), increment, k.tick);
            KernelTime.WakesAt(Kernel.BlockCurrent(k, d.ticks, false), k.current, previous + increment)
  {
    hide KernelTime.WakesAt, Kernel.BlockCurrent, Until;
    AtUnique(k.overflows, k.tick);
    UntilExact(previous, increment, Kernel.Now(k));
    KernelTime.BlockWakesAt(k, Until(Wrap(previous), increment, k.tick).ticks, false);
  }
}
