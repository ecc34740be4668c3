/** event_groups.c: bits, waiters and the control bits kept in a waiter's event item value. */
module EventGroups {
  import opened Tasks

  /** A word of event bits, as the set of positions of its one bits. */
  type Bits = set<nat>

  const CLEAR_ON_EXIT: nat := 24
  const UNBLOCKED_BY_SET: nat := 25
  const WAIT_FOR_ALL: nat := 26
  const IN_USE: nat := 31

  /** The word without its eight control bits. */
  function Plain(v: Bits): Bits {
    set b | b in v && b < 24
  }

  ghost predicate NoControl(v: Bits) {
    forall b :: b in v ==> b < 24
  }

  datatype Waiter = Waiter(task: Task, value: Bits)

  datatype Group = Group(bits: Bits, waiters: seq<Waiter>)

  /** prvTestWaitCondition. */
  predicate Satisfied(bits: Bits, waitFor: Bits, all: bool) {
    if all then bits * waitFor == waitFor else bits * waitFor != {}
  }

  predicate Matches(w: Waiter, bits: Bits) {
    Satisfied(bits, Plain(w.value), WAIT_FOR_ALL in w.value)
  }

  // ----- xEventGroupSetBits -----

  function Matched(ws: seq<Waiter>, bits: Bits): seq<Waiter> {
    if ws == [] then [] else (if Matches(ws[0], bits) then [ws[0]] else []) + Matched(ws[1..], bits)
  }

  function Unmatched(ws: seq<Waiter>, bits: Bits): seq<Waiter> {
    if ws == [] then [] else (if Matches(ws[0], bits) then [] else [ws[0]]) + Unmatched(ws[1..], bits)
  }

  /** The bits that the waiters woken by `bits` ask to have cleared. */
  function ToClear(ws: seq<Waiter>, bits: Bits): Bits {
    if ws == [] then {}
    else
      var first := if Matches(ws[0], bits) && CLEAR_ON_EXIT in ws[0].value then Plain(ws[0].value) else {};
      first + ToClear(ws[1..], bits)
  }

  function SetBits(g: Group, raised: Bits): Group {
    var bits := g.bits + raised;
    Group(bits - ToClear(g.waiters, bits), Unmatched(g.waiters, bits))
  }

  /** What a woken task finds in its event item. */
  function Delivered(bits: Bits): Bits {
    bits + {UNBLOCKED_BY_SET, IN_USE}
  }

  lemma {:induction false} FilterExact(ws: seq<Waiter>, bits: Bits)
    ensures forall w :: w in Matched(ws, bits) <==> w in ws && Matches(w, bits)
    ensures forall w :: w in Unmatched(ws, bits) <==> w in ws && !Matches(w, bits)
    ensures |Matched(ws, bits)| + |Unmatched(ws, bits)| == |ws|
    ensures forall b :: b in ToClear(ws, bits) <==>
              exists w :: w in ws && Matches(w, bits) && CLEAR_ON_EXIT in w.value && b in Plain(w.value)
  {
    if ws != [] {
      FilterExact(ws[1..], bits);
      assert forall w :: w in ws <==> w == ws[0] || w in ws[1..];
    }
  }

  /**
   * Setting bits wakes exactly the waiters satisfied by old or new bits, all judged against the
   * same value, and then clears exactly the union of the masks of those that ask for it.
   */
  lemma {:induction false} SetBitsExact(g: Group, raised: Bits)
    ensures forall w :: w in SetBits(g, raised).waiters <==> w in g.waiters && !Matches(w, g.bits + raised)
    ensures forall w :: w in Matched(g.waiters, g.bits + raised) <==> w in g.waiters && Matches(w, g.bits + raised)
    ensures forall b :: b in SetBits(g, raised).bits <==>
              b in g.bits + raised
              && !exists w :: w in g.waiters && Matches(w, g.bits + raised) && CLEAR_ON_EXIT in w.value
                              && b in Plain(w.value)
  {
    FilterExact(g.waiters, g.bits + raised);
  }

  // ----- the other calls -----

  /** vTaskPlaceOnUnorderedEventList: at the end of the list. */
  function Placed(g: Group, t: Task, value: Bits): Group {
    g.(waiters := g.waiters + [Waiter(t, value + {IN_USE})])
  }

  /** The result of a call up to its blocking: the value returned, or that the task blocks. */
  datatype Outcome = Returned(value: Bits) | Blocked

  /** xEventGroupWaitBits; `wait` says whether a block time was given. */
  function WaitBits(g: Group, t: Task, waitFor: Bits, clear: bool, all: bool, wait: bool): (Group, Outcome) {
    if Satisfied(g.bits, waitFor, all) then
      (if clear then g.(bits := g.bits - waitFor) else g, Returned(g.bits))
    else if !wait then (g, Returned(g.bits))
    else
      var control := (if clear then {CLEAR_ON_EXIT} else {}) + (if all then {WAIT_FOR_ALL} else {});
      (Placed(g, t, waitFor + control), Blocked)
  }

  /** xEventGroupSync. */
  function Sync(g: Group, t: Task, raised: Bits, waitFor: Bits, wait: bool): (Group, Outcome) {
    var g1 := SetBits(g, raised);
    if (g.bits + raised) * waitFor == waitFor then
      (g1.(bits := g1.bits - waitFor), Returned(g.bits + raised))
    else if !wait then (g1, Returned(g1.bits))
    else (Placed(g1, t, waitFor + {CLEAR_ON_EXIT, WAIT_FOR_ALL}), Blocked)
  }

  /** xEventGroupClearBits, with the value it returns. */
  function ClearBits(g: Group, clear: Bits): (Group, Bits) {
    (g.(bits := g.bits - clear), g.bits)
  }

  function WithoutWaiter(ws: seq<Waiter>, t: Task): (r: seq<Waiter>)
    ensures forall w :: w in r ==> w in ws
  {
    if ws == [] then [] else (if ws[0].task == t then [] else [ws[0]]) + WithoutWaiter(ws[1..], t)
  }

  /** A waiter's block time ends. */
  function TimeOut(g: Group, t: Task): Group {
    g.(waiters := WithoutWaiter(g.waiters, t))
  }

  /** The timed-out task runs: it returns the bits, clearing them if they match after all. */
  function AfterTimeOut(g: Group, waitFor: Bits, clear: bool, all: bool): (Group, Bits) {
    (if Satisfied(g.bits, waitFor, all) && clear then g.(bits := g.bits - waitFor) else g, Plain(g.bits))
  }

  // ----- quiescence -----

  ghost predicate Quiescent(g: Group) {
    forall w :: w in g.waiters ==> !Matches(w, g.bits)
  }

  /** Fewer bits satisfy no more waiters. */
  lemma {:induction false} MatchesMonotone(w: Waiter, small: Bits, large: Bits)
    requires small <= large && Matches(w, small)
    ensures Matches(w, large)
  {
    var p := Plain(w.value);
    if WAIT_FOR_ALL in w.value {
      assert p <= small;
    } else {
      var b :| b in small * p;
      assert b in large * p;
    }
  }

  lemma {:induction false} FewerBits(g: Group, g': Group)
    requires Quiescent(g) && g'.bits <= g.bits && (forall w :: w in g'.waiters ==> w in g.waiters)
    ensures Quiescent(g')
  {
    forall w | w in g'.waiters ensures !Matches(w, g'.bits) {
      if Matches(w, g'.bits) {
        MatchesMonotone(w, g'.bits, g.bits);
      }
    }
  }

  lemma {:induction false} SetBitsQuiescent(g: Group, raised: Bits)
    ensures Quiescent(SetBits(g, raised))
  {
    hide Matches;
    FilterExact(g.waiters, g.bits + raised);
    var g1 := Group(g.bits + raised, Unmatched(g.waiters, g.bits + raised));
    FewerBits(g1, SetBits(g, raised));
  }

  lemma {:induction false} PlacedQuiescent(g: Group, t: Task, value: Bits)
    requires Quiescent(g) && !Matches(Waiter(t, value + {IN_USE}), g.bits)
    ensures Quiescent(Placed(g, t, value))
  {
    hide Matches;
  }

  lemma {:induction false} WaitBitsQuiescent(g: Group, t: Task, waitFor: Bits, clear: bool, all: bool, wait: bool)
    requires Quiescent(g) && NoControl(waitFor)
    ensures Quiescent(WaitBits(g, t, waitFor, clear, all, wait).0)
  {
    if Satisfied(g.bits, waitFor, all) {
      FewerBits(g, g.(bits := g.bits - waitFor));
    } else {
      var control := (if clear then {CLEAR_ON_EXIT} else {}) + (if all then {WAIT_FOR_ALL} else {});
      assert Plain(waitFor + control + {IN_USE}) == waitFor;
      PlacedQuiescent(g, t, waitFor + control);
    }
  }

  lemma {:induction false} SyncQuiescent(g: Group, t: Task, raised: Bits, waitFor: Bits, wait: bool)
    requires NoControl(waitFor)
    ensures Quiescent(Sync(g, t, raised, waitFor, wait).0)
  {
    hide Matched, Unmatched, ToClear;
    SetBitsQuiescent(g, raised);
    var g1 := SetBits(g, raised);
    if (g.bits + raised) * waitFor == waitFor {
      FewerBits(g1, g1.(bits := g1.bits - waitFor));
    } else {
      var value := waitFor + {CLEAR_ON_EXIT, WAIT_FOR_ALL};
      assert Plain(value + {IN_USE}) == waitFor;
      var b :| b in waitFor && b !in g.bits + raised;
      assert b !in g1.bits * waitFor;
      PlacedQuiescent(g1, t, value);
    }
  }

  // ----- runs -----

  datatype Op =
    | DoSetBits(raised: Bits)
    | DoWaitBits(t: Task, waitFor: Bits, clear: bool, all: bool, wait: bool)
    | DoSync(t: Task, raised: Bits, waitFor: Bits, wait: bool)
    | DoClearBits(cleared: Bits)
    | DoTimeOut(t: Task)
    | DoAfterTimeOut(waitFor: Bits, clear: bool, all: bool)

  /** What the calls assert of the bits they are given. */
  ghost predicate Allowed(op: Op) {
    match op
    case DoSetBits(raised) => NoControl(raised)
    case DoWaitBits(_, waitFor, _, _, _) => NoControl(waitFor) && waitFor != {}
    case DoSync(_, raised, waitFor, _) => NoControl(raised) && NoControl(waitFor) && waitFor != {}
    case DoClearBits(clear) => NoControl(clear)
    case _ => true
  }

  ghost function Step(g: Group, op: Op): Group {
    if !Allowed(op) then g else
    match op
    case DoSetBits(raised) => SetBits(g, raised)
    case DoWaitBits(t, waitFor, clear, all, wait) => WaitBits(g, t, waitFor, clear, all, wait).0
    case DoSync(t, raised, waitFor, wait) => Sync(g, t, raised, waitFor, wait).0
    case DoClearBits(clear) => ClearBits(g, clear).0
    case DoTimeOut(t) => TimeOut(g, t)
    case DoAfterTimeOut(waitFor, clear, all) => AfterTimeOut(g, waitFor, clear, all).0
  }

  ghost function Run(g: Group, ops: seq<Op>): Group
    decreases |ops|
  {
    if ops == [] then g else Run(Step(g, ops[0]), ops[1..])
  }

  lemma {:induction false} StepQuiescent(g: Group, op: Op)
    requires Quiescent(g)
    ensures Quiescent(Step(g, op))
  {
    hide Quiescent, SetBits, WaitBits, Sync;
    if Allowed(op) {
      match op
      case DoSetBits(raised) => SetBitsQuiescent(g, raised);
      case DoWaitBits(t, waitFor, clear, all, wait) => WaitBitsQuiescent(g, t, waitFor, clear, all, wait);
      case DoSync(t, raised, waitFor, wait) => SyncQuiescent(g, t, raised, waitFor, wait);
      case DoClearBits(_) => FewerBits(g, Step(g, op));
      case DoTimeOut(_) => FewerBits(g, Step(g, op));
      case DoAfterTimeOut(_, _, _) => FewerBits(g, Step(g, op));
    }
  }

  /** In every reachable state nobody waits whose condition is already met. */
  lemma {:induction false} QuiescentOverRuns(g: Group, ops: seq<Op>)
    requires Quiescent(g)
    ensures Quiescent(Run(g, ops))
    decreases |ops|
  {
    hide Quiescent, Step;
    if ops != [] {
      StepQuiescent(g, ops[0]);
      QuiescentOverRuns(Step(g, ops[0]), ops[1..]);
    }
  }

  // ----- the object -----

  lemma {:induction false} FilterStep(ws: seq<Waiter>, bits: Bits)
    requires ws != []
    ensures var w, rest := ws[0], ws[1..];
            && Unmatched(ws, bits) == (if Matches(w, bits) then Unmatched(rest, bits) else [w] + Unmatched(rest, bits))
            && Matched(ws, bits) == (if Matches(w, bits) then [w] + Matched(rest, bits) else Matched(rest, bits))
            && ToClear(ws, bits) == (if Matches(w, bits) && CLEAR_ON_EXIT in w.value then Plain(w.value) else {})
                                    + ToClear(rest, bits)
  {
    hide Matches, Plain;
  }

  lemma {:induction false} FilterNone(ws: seq<Waiter>, bits: Bits)
    requires ws == []
    ensures Unmatched(ws, bits) == [] && Matched(ws, bits) == [] && ToClear(ws, bits) == {}
  {
  }

  lemma {:induction false} Unlink(kept: seq<Waiter>, rest: seq<Waiter>, ws: seq<Waiter>)
    requires rest != [] && ws == kept + rest
    ensures ws[..|kept|] + ws[|kept| + 1..] == kept + rest[1..] && ws == (kept + [rest[0]]) + rest[1..]
  {
  }

  lemma {:induction false} Shift(done: seq<Waiter>, w: Waiter, rest: seq<Waiter>)
    ensures done + ([w] + rest) == (done + [w]) + rest
  {
  }

  class EventGroup {
    var bits: Bits
    var waiters: seq<Waiter>

    function View(): Group
      reads this
    {
      Group(bits, waiters)
    }

    constructor ()
      ensures View() == Group({}, [])
    {
      bits, waiters := {}, [];
    }

    /** The loop of xEventGroupSetBits; `woken` leave the list with `Delivered` in their items. */
    method Set(raised: Bits) returns (woken: seq<Waiter>, value: Bits)
      modifies this
      ensures View() == SetBits(old(View()), raised)
      ensures woken == Matched(old(waiters), old(bits) + raised) && value == Delivered(old(bits) + raised)
    {
      hide Matches, Plain, Matched, Unmatched, ToClear;
      bits := bits + raised;
      value := Delivered(bits);
      ghost var kept, rest := [], waiters;
      var i, clear := 0, {};
      woken := [];
      while i < |waiters|
        invariant i == |kept| && waiters == kept + rest && bits == old(bits) + raised
        invariant kept + Unmatched(rest, bits) == Unmatched(old(waiters), bits)
        invariant woken + Matched(rest, bits) == Matched(old(waiters), bits)
        invariant clear + ToClear(rest, bits) == ToClear(old(waiters), bits)
        decreases |rest|
      {
        var w := waiters[i];
        assert w == rest[0];
        FilterStep(rest, bits);
        Shift(kept, w, Unmatched(rest[1..], bits));
        Shift(woken, w, Matched(rest[1..], bits));
        Unlink(kept, rest, waiters);
        if Matches(w, bits) {
          if CLEAR_ON_EXIT in w.value {
            clear := clear + Plain(w.value);
          }
          woken := woken + [w];
          waiters := waiters[..i] + waiters[i + 1..];
        } else {
          kept := kept + [w];
          i := i + 1;
        }
        rest := rest[1..];
      }
      FilterNone(rest, bits);
      bits := bits - clear;
    }

    /** xEventGroupWaitBits up to its blocking. */
    method Await(t: Task, waitFor: Bits, clear: bool, all: bool, wait: bool) returns (outcome: Outcome)
      modifies this
      ensures (View(), outcome) == WaitBits(old(View()), t, waitFor, clear, all, wait)
    {
      if Satisfied(bits, waitFor, all) {
        outcome := Returned(bits);
        if clear {
          bits := bits - waitFor;
        }
      } else if !wait {
        outcome := Returned(bits);
      } else {
        var control := {};
        if clear {
          control := control + {CLEAR_ON_EXIT};
        }
        if all {
          control := control + {WAIT_FOR_ALL};
        }
        assert control == (if clear then {CLEAR_ON_EXIT} else {}) + (if all then {WAIT_FOR_ALL} else {});
        waiters := waiters + [Waiter(t, waitFor + control + {IN_USE})];
        outcome := Blocked;
      }
    }

    /** What a task whose wait timed out does when it runs again. */
    method Resumed(waitFor: Bits, clear: bool, all: bool) returns (value: Bits)
      modifies `bits
      ensures (View(), value) == AfterTimeOut(old(View()), waitFor, clear, all)
    {
      value := bits;
      if Satisfied(value, waitFor, all) && clear {
        bits := bits - waitFor;
      }
      value := Plain(value);
    }

    /** xEventGroupClearBits. */
    method Clear(clear: Bits) returns (value: Bits)
      modifies `bits
      ensures (View(), value) == ClearBits(old(View()), clear)
    {
      value := bits;
      bits := bits - clear;
    }

    /** xEventGroupSync up to its blocking. */
    method Synchronise(t: Task, raised: Bits, waitFor: Bits, wait: bool)
      returns (outcome: Outcome, woken: seq<Waiter>, value: Bits)
      modifies this
      ensures (View(), outcome) == Sync(old(View()), t, raised, waitFor, wait)
      ensures woken == Matched(old(waiters), old(bits) + raised) && value == Delivered(old(bits) + raised)
    {
      hide Matched, Unmatched, ToClear;
      var original := bits;
      woken, value := Set(raised);
      if (original + raised) * waitFor == waitFor {
        outcome := Returned(original + raised);
        bits := bits - waitFor;
      } else if wait {
        waiters := waiters + [Waiter(t, waitFor + {CLEAR_ON_EXIT, WAIT_FOR_ALL} + {IN_USE})];
        outcome := Blocked;
      } else {
        outcome := Returned(bits);
      }
    }
  }
}
