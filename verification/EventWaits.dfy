/**
 * Waiting on an event group as the waiting task sees it: what it is answered, when it is woken,
 * and which bits it clears, over every run of the group.
 */
module EventWaits {
  import opened Tasks
  import opened EventGroups

  /** The condition of a wait, bit by bit. */
  ghost predicate Met(bits: Bits, waitFor: Bits, all: bool) {
    if all then forall b :: b in waitFor ==> b in bits else exists b :: b in waitFor && b in bits
  }

  lemma {:induction false} SatisfiedIsMet(bits: Bits, waitFor: Bits, all: bool)
    ensures Satisfied(bits, waitFor, all) <==> Met(bits, waitFor, all)
  {
    if all {
      assert forall b :: b in bits * waitFor <==> b in bits && b in waitFor;
      if Satisfied(bits, waitFor, all) {
        forall b | b in waitFor ensures b in bits {
          assert b in bits * waitFor;
        }
      }
    } else if b :| b in waitFor && b in bits {
      assert b in bits * waitFor;
    }
  }

  /** `w` stands for a wait of task `t` for `waitFor` with these two options. */
  ghost predicate Stands(w: Waiter, t: Task, waitFor: Bits, clear: bool, all: bool) {
    && w.task == t && Plain(w.value) == waitFor && (CLEAR_ON_EXIT in w.value <==> clear)
    && forall bits :: Matches(w, bits) <==> Met(bits, waitFor, all)
  }

  /**
   * xEventGroupWaitBits up to its blocking. A condition met already is answered with all the bits,
   * of which the awaited ones are cleared exactly when that is asked. One not met is answered with
   * the bits when there is no block time, and otherwise adds one waiter behind the others, which
   * stands for this wait and nothing else.
   */
  lemma {:induction false} WaitBitsExact(g: Group, t: Task, waitFor: Bits, clear: bool, all: bool, wait: bool)
    requires NoControl(waitFor)
    ensures var (g', outcome) := WaitBits(g, t, waitFor, clear, all, wait);
            if Met(g.bits, waitFor, all) then
              && outcome == Returned(g.bits) && g'.waiters == g.waiters
              && forall b :: b in g'.bits <==> b in g.bits && !(clear && b in waitFor)
            else if !wait then outcome == Returned(g.bits) && g' == g
            else
              && outcome == Blocked && g'.bits == g.bits
              && |g'.waiters| == |g.waiters| + 1 && g'.waiters[..|g.waiters|] == g.waiters
              && Stands(g'.waiters[|g.waiters|], t, waitFor, clear, all)
  {
    SatisfiedIsMet(g.bits, waitFor, all);
    if !Satisfied(g.bits, waitFor, all) && wait {
      PlacedStands(t, waitFor, clear, all);
    }
  }

  lemma {:induction false} PlacedStands(t: Task, waitFor: Bits, clear: bool, all: bool)
    requires NoControl(waitFor)
    ensures var control := (if clear then {CLEAR_ON_EXIT} else {}) + (if all then {WAIT_FOR_ALL} else {});
            Stands(Waiter(t, waitFor + control + {IN_USE}), t, waitFor, clear, all)
  {
    var control := (if clear then {CLEAR_ON_EXIT} else {}) + (if all then {WAIT_FOR_ALL} else {});
    var value := waitFor + control + {IN_USE};
    assert Plain(value) == waitFor;
    forall bits ensures Matches(Waiter(t, value), bits) <==> Met(bits, waitFor, all) {
      SatisfiedIsMet(bits, waitFor, all);
    }
  }

  /** xEventGroupSync up to its blocking. */
  lemma {:induction false} SyncExact(g: Group, t: Task, raised: Bits, waitFor: Bits, wait: bool)
    requires NoControl(waitFor)
    ensures var (g', outcome) := Sync(g, t, raised, waitFor, wait);
            var g1 := SetBits(g, raised);
            if Met(g.bits + raised, waitFor, true) then
              && outcome == Returned(g.bits + raised) && g'.waiters == g1.waiters
              && forall b :: b in g'.bits <==> b in g1.bits && b !in waitFor
            else if !wait then outcome == Returned(g1.bits) && g' == g1
            else
              && outcome == Blocked && g'.bits == g1.bits
              && |g'.waiters| == |g1.waiters| + 1 && g'.waiters[..|g1.waiters|] == g1.waiters
              && Stands(g'.waiters[|g1.waiters|], t, waitFor, true, true)
  {
    hide SetBits;
    SatisfiedIsMet(g.bits + raised, waitFor, true);
    PlacedStands(t, waitFor, true, true);
    assert {CLEAR_ON_EXIT} + {WAIT_FOR_ALL} == {CLEAR_ON_EXIT, WAIT_FOR_ALL};
  }

  /** xEventGroupClearBits clears what it is told to, wakes nobody and answers with the bits before. */
  lemma {:induction false} ClearBitsExact(g: Group, clear: Bits)
    ensures var (g', value) := ClearBits(g, clear);
            && value == g.bits && g'.waiters == g.waiters
            && forall b :: b in g'.bits <==> b in g.bits && b !in clear
  {
  }

  /**
   * A task whose wait timed out answers with the bits it then finds, and clears the awaited ones
   * exactly when that was asked and the condition is met after all.
   */
  lemma {:induction false} AfterTimeOutExact(g: Group, waitFor: Bits, clear: bool, all: bool)
    requires NoControl(g.bits)
    ensures var (g', value) := AfterTimeOut(g, waitFor, clear, all);
            && value == g.bits && g'.waiters == g.waiters
            && forall b :: b in g'.bits <==> b in g.bits && !(clear && Met(g.bits, waitFor, all) && b in waitFor)
  {
    SatisfiedIsMet(g.bits, waitFor, all);
  }

  // ----- one wait over a run -----

  ghost predicate WaitsIn(ws: seq<Waiter>, t: Task) {
    exists w :: w in ws && w.task == t
  }

  /** The one waiter of `t` stands for this wait. */
  ghost predicate Waits(g: Group, t: Task, waitFor: Bits, clear: bool, all: bool) {
    && WaitsIn(g.waiters, t)
    && forall w :: w in g.waiters && w.task == t ==> Stands(w, t, waitFor, clear, all)
  }

  /** The waiting task does nothing itself and its wait is not ended by a timeout. */
  predicate LeavesWaiting(op: Op, t: Task) {
    match op
    case DoWaitBits(u, _, _, _, _) => u != t
    case DoSync(u, _, _, _) => u != t
    case DoTimeOut(u) => u != t
    case _ => true
  }

  /** The call sets bits and the value the waiters are judged by meets the condition. */
  ghost predicate Meets(g: Group, op: Op, waitFor: Bits, all: bool) {
    Allowed(op) && (op.DoSetBits? || op.DoSync?) && Met(g.bits + op.raised, waitFor, all)
  }

  lemma {:induction false} WaitStarts(g: Group, t: Task, waitFor: Bits, clear: bool, all: bool)
    requires NoControl(waitFor) && !WaitsIn(g.waiters, t) && !Met(g.bits, waitFor, all)
    ensures Waits(WaitBits(g, t, waitFor, clear, all, true).0, t, waitFor, clear, all)
  {
    hide Stands, Met, Satisfied, WaitBits;
    WaitBitsExact(g, t, waitFor, clear, all, true);
    var ws := WaitBits(g, t, waitFor, clear, all, true).0.waiters;
    assert ws == g.waiters + [ws[|g.waiters|]];
    assert ws[|g.waiters|] in ws;
    StandsTask(ws[|g.waiters|], t, waitFor, clear, all);
  }

  lemma {:induction false} StandsTask(w: Waiter, t: Task, waitFor: Bits, clear: bool, all: bool)
    requires Stands(w, t, waitFor, clear, all)
    ensures w.task == t
  {
  }

  lemma {:induction false} UnmatchedWaits(ws: seq<Waiter>, bits: Bits, t: Task, waitFor: Bits, clear: bool, all: bool)
    requires WaitsIn(ws, t) && forall w :: w in ws && w.task == t ==> Stands(w, t, waitFor, clear, all)
    ensures WaitsIn(Unmatched(ws, bits), t) <==> !Met(bits, waitFor, all)
    ensures forall w :: w in Unmatched(ws, bits) ==> w in ws
  {
    hide Unmatched, Met, Matches;
    FilterExact(ws, bits);
    var w :| w in ws && w.task == t;
    assert Matches(w, bits) <==> Met(bits, waitFor, all);
    if u :| u in Unmatched(ws, bits) && u.task == t {
      assert u in ws;
      assert Matches(u, bits) <==> Met(bits, waitFor, all);
    }
  }

  /** A step leaves the wait standing, unless it is the one that meets the condition. */
  lemma {:induction false} StepWaits(g: Group, op: Op, t: Task, waitFor: Bits, clear: bool, all: bool)
    requires Waits(g, t, waitFor, clear, all) && LeavesWaiting(op, t)
    ensures if Meets(g, op, waitFor, all) then !WaitsIn(Step(g, op).waiters, t)
            else Waits(Step(g, op), t, waitFor, clear, all)
  {
    hide Stands, Met, Matches, Unmatched, ToClear, Satisfied;
    if op.DoSetBits? || op.DoSync? {
      UnmatchedWaits(g.waiters, g.bits + op.raised, t, waitFor, clear, all);
    } else if op.DoTimeOut? {
      OthersWait(g.waiters, op.t, t);
    }
  }

  lemma {:induction false} OthersWait(ws: seq<Waiter>, t: Task, u: Task)
    requires t != u
    ensures WaitsIn(WithoutWaiter(ws, t), u) <==> WaitsIn(ws, u)
    ensures !WaitsIn(WithoutWaiter(ws, t), t)
  {
    if ws != [] {
      OthersWait(ws[1..], t, u);
      assert ws == [ws[0]] + ws[1..];
    }
  }

  /** What the woken task finds in its event item: the value that met its condition, marked as set. */
  lemma {:induction false} DeliveredExact(bits: Bits)
    requires NoControl(bits)
    ensures Plain(Delivered(bits)) == bits && UNBLOCKED_BY_SET in Delivered(bits)
  {
  }

  /** The step that meets the condition hands the waiter over, with the others it wakes. */
  lemma {:induction false} MeetsWakes(g: Group, op: Op, t: Task, waitFor: Bits, clear: bool, all: bool)
    requires Waits(g, t, waitFor, clear, all) && Meets(g, op, waitFor, all)
    ensures WaitsIn(Matched(g.waiters, g.bits + op.raised), t)
  {
    hide Met, Matches, Matched;
    FilterExact(g.waiters, g.bits + op.raised);
    var w :| w in g.waiters && w.task == t;
    assert Matches(w, g.bits + op.raised);
  }

  lemma {:induction false} SetSubset(g: Group, op: Op)
    requires Allowed(op) && (op.DoSetBits? || op.DoSync?)
    ensures Step(g, op).bits <= SetBits(g, op.raised).bits
  {
    hide SetBits;
  }

  lemma {:induction false} ClearsAwaited(g: Group, op: Op, t: Task, waitFor: Bits, all: bool)
    requires Waits(g, t, waitFor, true, all) && Meets(g, op, waitFor, all)
    ensures forall b :: b in waitFor ==> b !in Step(g, op).bits
  {
    hide Met, Matches, SetBits, Step, Plain;
    SetSubset(g, op);
    SetBitsExact(g, op.raised);
    var w :| w in g.waiters && w.task == t;
    assert Matches(w, g.bits + op.raised) && Plain(w.value) == waitFor;
  }

  lemma {:induction false} ClearsNothing(ws: seq<Waiter>, bits: Bits, t: Task)
    requires forall w :: w in ws && w.task == t ==> CLEAR_ON_EXIT !in w.value
    ensures ToClear(WithoutWaiter(ws, t), bits) == ToClear(ws, bits)
  {
    hide Matches, Plain;
    if ws != [] {
      ClearsNothing(ws[1..], bits, t);
      ToClearCons(ws[0], WithoutWaiter(ws[1..], t), bits);
      ToClearCons(ws[0], ws[1..], bits);
      assert ws == [ws[0]] + ws[1..];
      assert ws[0].task == t ==> WithoutWaiter(ws, t) == WithoutWaiter(ws[1..], t);
    }
  }

  lemma {:induction false} ToClearCons(w: Waiter, rest: seq<Waiter>, bits: Bits)
    ensures ToClear([w] + rest, bits)
            == (if Matches(w, bits) && CLEAR_ON_EXIT in w.value then Plain(w.value) else {}) + ToClear(rest, bits)
  {
    hide Matches, Plain;
    assert ([w] + rest)[1..] == rest;
  }

  lemma {:induction false} KeepsAwaited(g: Group, op: Op, t: Task, waitFor: Bits, all: bool)
    requires Waits(g, t, waitFor, false, all) && LeavesWaiting(op, t) && (op.DoSetBits? || op.DoSync?)
    ensures Step(g, op).bits == Step(TimeOut(g, t), op).bits
  {
    hide Met, Matches, Plain, ToClear, Unmatched;
    ClearsNothing(g.waiters, g.bits + op.raised, t);
  }

  lemma {:induction false} RunSnoc(g: Group, ops: seq<Op>, n: nat)
    requires n < |ops|
    ensures Run(g, ops[..n + 1]) == Step(Run(g, ops[..n]), ops[n])
    decreases n
  {
    hide Step;
    if n == 0 {
      assert ops[..1] == [ops[0]] && ops[..1][1..] == [] && ops[..0] == [];
    } else {
      RunSnoc(Step(g, ops[0]), ops[1..], n - 1);
      assert ops[1..][..n] == ops[..n + 1][1..] && ops[1..][..n - 1] == ops[..n][1..];
    }
  }

  lemma {:induction false} WaitsOn(g: Group, t: Task, waitFor: Bits, clear: bool, all: bool, ops: seq<Op>, n: nat)
    requires n <= |ops| && Waits(g, t, waitFor, clear, all)
    requires forall i :: 0 <= i < n ==> LeavesWaiting(ops[i], t) && !Meets(Run(g, ops[..i]), ops[i], waitFor, all)
    ensures Waits(Run(g, ops[..n]), t, waitFor, clear, all)
    decreases n
  {
    hide Waits, Meets, LeavesWaiting, Step;
    if n == 0 {
      assert ops[..0] == [];
    } else {
      WaitsOn(g, t, waitFor, clear, all, ops, n - 1);
      StepWaits(Run(g, ops[..n - 1]), ops[n - 1], t, waitFor, clear, all);
      RunSnoc(g, ops, n - 1);
    }
  }

  /**
   * In every run a task that blocks in xEventGroupWaitBits, and is not timed out, waits until the
   * first setting of bits that meets its condition and is woken by that one. If it asked for them
   * to be cleared the awaited bits are clear then; if not, the bits are what they would be without it.
   */
  lemma {:induction false} WokenByFirst(g: Group, t: Task, waitFor: Bits, clear: bool, all: bool, ops: seq<Op>, n: nat)
    requires NoControl(waitFor) && !WaitsIn(g.waiters, t) && !Met(g.bits, waitFor, all)
    requires n < |ops| && forall i :: 0 <= i <= n ==> LeavesWaiting(ops[i], t)
    requires var g0 := WaitBits(g, t, waitFor, clear, all, true).0;
             forall i :: 0 <= i < n ==> !Meets(Run(g0, ops[..i]), ops[i], waitFor, all)
    ensures var g0 := WaitBits(g, t, waitFor, clear, all, true).0;
            var g1, g2 := Run(g0, ops[..n]), Run(g0, ops[..n + 1]);
            && WaitsIn(g1.waiters, t)
            && (WaitsIn(g2.waiters, t) <==> !Meets(g1, ops[n], waitFor, all))
            && (Meets(g1, ops[n], waitFor, all) ==>
                  if clear then forall b :: b in waitFor ==> b !in g2.bits
                  else g2.bits == Step(TimeOut(g1, t), ops[n]).bits)
  {
    hide Met, Meets, LeavesWaiting, Step, Run, WaitsIn, TimeOut, WaitBits;
    var g0 := WaitBits(g, t, waitFor, clear, all, true).0;
    WaitStarts(g, t, waitFor, clear, all);
    WaitsOn(g0, t, waitFor, clear, all, ops, n);
    RunSnoc(g0, ops, n);
    StepWaits(Run(g0, ops[..n]), ops[n], t, waitFor, clear, all);
    if Meets(Run(g0, ops[..n]), ops[n], waitFor, all) {
      SettingStep(Run(g0, ops[..n]), ops[n], waitFor, all);
      if clear {
        ClearsAwaited(Run(g0, ops[..n]), ops[n], t, waitFor, all);
      } else {
        KeepsAwaited(Run(g0, ops[..n]), ops[n], t, waitFor, all);
      }
    }
  }

  lemma {:induction false} SettingStep(g: Group, op: Op, waitFor: Bits, all: bool)
    requires Meets(g, op, waitFor, all)
    ensures op.DoSetBits? || op.DoSync?
  {
  }
}
