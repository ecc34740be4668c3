/** A run of scheduler and mutexes together in which a timed-out waiter lowers a ready holder. */
module MutexExamples {
  import opened Ticks
  import opened Rings
  import opened Tasks
  import opened Queues
  import K = Kernel
  import KI = KernelInvariant
  import KR = KernelRuns
  import E = KernelExamples
  import KernelReady
  import M = Mutexes
  import T = MutexTimeouts
  import R = MutexRuns
  import Q = QueueProtocol

  // ----- the scheduler's side, continuing the states of the kernel's example -----

  ghost function D9(): K.State {
    E.B8().(tick := 1, delayed := [], nextUnblock := MAX_DELAY, eventWaiters := E.B8().eventWaiters - {2},
            ready := E.B8().ready[3 := Ring([2, 1], 2)], bitmap := E.B8().bitmap + {3}, switchRequested := true)
  }

  ghost function D10(): K.State {
    D9().(ready := D9().ready[3 := Ring([2, 1], 1)], current := 2, switchRequested := false)
  }

  lemma {:induction false} D9Follows()
    ensures E.Leads(E.B8(), K.Tick, D9())
  {
    hide KI.InvFrom, K.Known, K.Shaped, K.CanSelect, K.IndexOf, RemoveAt, InsertEnd, K.TickIsr;
    if KI.Inv(E.B8()) {
      KR.StepInv(E.B8(), K.Tick);
      assert E.B8().ready[3] == Ring([1], 1);
      assert InsertEnd<Task>(Ring([1], 1), 2) == Ring([2, 1], 2) by {
        E.InsertedRings();
      }
      E.Ticked(E.B8(), 2, Ring([2, 1], 2));
    }
  }

  lemma {:induction false} D10Follows()
    ensures E.Leads(D9(), K.Switch, D10())
  {
    hide KI.InvFrom, K.Known, K.Shaped, K.CanSelect;
    if KI.Inv(D9()) {
      KR.StepInv(D9(), K.Switch);
      assert D9().ready[3] == Ring([2, 1], 2);
    }
  }

  // ----- the mutexes' side -----

  ghost function Sys(tcbs: map<Task, K.Tcb>, mu: M.MutexState, ready: set<Task>): M.System {
    M.System(tcbs, map[0 := mu], ready)
  }

  ghost function Free(): M.MutexState {
    M.MutexState(None, [], {}, {})
  }

  ghost function S1(): M.System {
    Sys(map[0 := E.T(0, 0, 0), 1 := E.T(1, 1, 0)], Free(), {0, 1})
  }

  ghost function S3(): M.System {
    Sys(map[0 := E.T(0, 0, 0), 1 := E.T(1, 1, 1)], Free().(holder := Some(1)), {0, 1})
  }

  ghost function S4(): M.System {
    Sys(S3().tcbs[2 := E.T(3, 3, 0)], Free().(holder := Some(1)), {0, 1, 2})
  }

  ghost function S6(): M.System {
    Sys(S4().tcbs[1 := E.T(3, 1, 1)], M.MutexState(Some(1), [Item(2, PRIORITIES - 3)], {}, {}), {0, 1})
  }

  ghost function S8(): M.System {
    Sys(S6().tcbs, M.MutexState(Some(1), [], {}, {2}), {0, 1, 2})
  }

  // ----- generic steps -----

  /** The joint state `j` leads to `j'`. */
  ghost predicate Leads(j: R.Joint, op: R.Op, j': R.Joint) {
    R.Inv(j) ==> R.Step(j, op) == j'
  }

  lemma {:induction false} SwitchLeads(k: K.State, s: M.System, k': K.State)
    requires E.Leads(k, K.Switch, k')
    ensures Leads(R.Joint(k, s), R.Other(K.Switch), R.Joint(k', s))
  {
    hide KI.InvFrom, R.Sound, R.Listed, R.ReadySet, K.Step, K.Known, K.CanSelect, K.Shaped, T.Matches, R.WakeAll;
    if R.Inv(R.Joint(k, s)) {
      R.RunOne(k, K.Switch);
      SwitchKeepsReady(k);
      NothingSeen(s);
      assert R.ReadySet(k) - R.ReadySet(k') == {} && R.ReadySet(k') - R.ReadySet(k) == {};
    }
  }

  lemma {:induction false} NothingSeen(s: M.System)
    ensures R.WakeAll(s, {}) == s && s.(ready := s.ready - {}) == s
  {
    assert s.ready - {} == s.ready;
  }

  lemma {:induction false} SwitchKeepsReady(k: K.State)
    requires KI.Inv(k) && K.Known(k) && K.CanSelect(k) && K.Shaped(K.Step(k, K.Switch))
    ensures R.ReadySet(K.Step(k, K.Switch)) == R.ReadySet(k)
  {
    hide KI.InvFrom, K.Highest;
  }

  lemma {:induction false} CreateLeads(k: K.State, s: M.System, t: Task, p: nat, k': K.State)
    requires E.Leads(k, K.CreateTask(t, p), k') && t !in k.tcbs && p < PRIORITIES
    ensures Leads(R.Joint(k, s), R.Create(t, p),
                  R.Joint(k', s.(tcbs := s.tcbs[t := E.T(p, p, 0)], ready := s.ready + {t})))
  {
    hide KI.InvFrom, R.Sound, R.Listed, K.Step, K.Known, K.CanSelect, T.Matches;
    if R.Inv(R.Joint(k, s)) {
      R.RunOne(k, K.CreateTask(t, p));
    }
  }

  // ----- the mutex calls -----

  lemma {:induction false} TakesFree()
    ensures T.Orderly(S1(), M.Take(1, 0)) && M.Apply(S1(), M.Take(1, 0)) == S3()
  {
    var s := M.Apply(S1(), M.Take(1, 0));
    assert s.mutexes[0] == S3().mutexes[0] && s.mutexes == S3().mutexes;
    assert s.tcbs == S3().tcbs;
  }

  lemma {:induction false} WaitsForIt()
    ensures T.Orderly(S4(), M.Wait(2, 0)) && M.Apply(S4(), M.Wait(2, 0)) == S6()
  {
    var s := M.Apply(S4(), M.Wait(2, 0));
    assert Placed([], 2, 3) == [Item(2, PRIORITIES - 3)];
    assert s.mutexes == S6().mutexes && s.tcbs == S6().tcbs && s.ready == {0, 1};
  }

  lemma {:induction false} TimesOut()
    ensures R.WakeAll(S6(), {2}) == S8()
  {
    hide M.Step;
    var x := Item(2, PRIORITIES - 3);
    assert S6().mutexes[0].waiters[0] == x && x in S6().mutexes[0].waiters;
    assert 2 in R.WaitersOf(S6(), 0);
    assert R.WakeOp(S6(), 2) == M.Expire(2, 0);
    Expires();
    assert {2} - {2} == {} && R.Pick({2}) == 2;
    assert R.WakeAll(S8(), {}) == S8();
  }

  lemma {:induction false} Expires()
    ensures M.Step(S6(), M.Expire(2, 0)) == S8()
  {
    var s := M.Step(S6(), M.Expire(2, 0));
    assert s.mutexes[0].late == {2} && s.mutexes[0].waiters == [];
    assert s.mutexes == S8().mutexes && s.ready == {0, 1, 2};
  }

  lemma {:induction false} TakeLeads()
    ensures Leads(R.Joint(E.A2(), S1()), R.Take(0), R.Joint(E.A3(), S3()))
  {
    hide KI.InvFrom, R.Sound, R.Listed, K.Step, K.Known, K.CanSelect, T.Matches, T.Orderly, M.Apply, S1, S3;
    E.A3Follows();
    TakesFree();
    if R.Inv(R.Joint(E.A2(), S1())) {
      R.RunOne(E.A2(), K.TakeMutex);
    }
  }

  lemma {:induction false} WaitLeads()
    ensures Leads(R.Joint(E.B5(), S4()), R.Wait(0, 1), R.Joint(E.B7(), S6()))
  {
    hide KI.InvFrom, R.Sound, R.Listed, K.Step, K.Known, K.CanSelect, T.Matches, T.Orderly, M.Apply;
    E.B6Follows();
    E.B7Follows();
    WaitsForIt();
    if R.Inv(R.Joint(E.B5(), S4())) {
      R.RunOne(E.B5(), K.InheritFor(1));
      KR.StepInv(E.B5(), K.InheritFor(1));
      R.RunOne(E.B6(), K.BlockEvent(1));
      R.RunTwo(E.B5(), K.InheritFor(1), K.BlockEvent(1));
    }
  }

  lemma {:induction false} TickLeads()
    ensures Leads(R.Joint(E.B8(), S6()), R.Other(K.Tick), R.Joint(D9(), S8()))
  {
    hide KI.InvFrom, R.Sound, R.Listed, K.Step, K.Known, K.CanSelect, R.WakeAll, R.ReadySet, S6, S8, E.B8, D9;
    hide T.Matches, K.Shaped, R.Harmless;
    D9Follows();
    TimesOut();
    if R.Inv(R.Joint(E.B8(), S6())) {
      R.RunOne(E.B8(), K.Tick);
      ReadyAtTick();
      TickHarmless(E.B8(), S6());
      assert {0, 1, 2} - {0, 1} == {2} && {0, 1} - {0, 1, 2} == {};
      NobodyBlocks();
    }
  }

  lemma {:induction false} TickHarmless(k: K.State, s: M.System)
    requires KI.Inv(k) && K.Shaped(k) && K.Shaped(KR.Run(k, [K.Tick]))
    requires R.ReadySet(k) <= R.ReadySet(KR.Run(k, [K.Tick]))
    ensures R.Harmless(R.Joint(k, s), K.Tick)
  {
    hide KI.InvFrom, R.ReadySet, Q.Waiting, KR.Run;
  }

  lemma {:induction false} NobodyBlocks()
    ensures S8().(ready := S8().ready - {}) == S8()
  {
  }

  lemma {:induction false} ReadyAtTick()
    requires K.Shaped(E.B8()) && K.Shaped(D9())
    ensures R.ReadySet(E.B8()) == {0, 1} && R.ReadySet(D9()) == {0, 1, 2}
  {
    hide K.Shaped;
    assert E.B8().tcbs.Keys == {0, 1, 2} && D9().tcbs.Keys == {0, 1, 2};
    assert E.B8().ready[0] == Ring([0], 0) && E.B8().ready[3] == Ring([1], 1);
    assert D9().ready[3].items[0] == 2 && D9().ready[3].items[1] == 1;
  }

  // ----- the run -----

  /** Task 1 takes the mutex, task 2 waits for it for one tick and is selected after its timeout. */
  ghost function TimesOutWaiting(): seq<R.Op> {
    [R.Create(1, 1), R.Other(K.Switch), R.Take(0), R.Create(2, 3), R.Other(K.Switch), R.Wait(0, 1), R.Other(K.Switch),
     R.Other(K.Tick), R.Other(K.Switch)]
  }

  lemma {:induction false} RunLeads(j: R.Joint, ops: seq<R.Op>, i: nat, j': R.Joint)
    requires R.Inv(j) && i < |ops| && Leads(j, ops[i], j')
    ensures R.Inv(j') && R.Run(j, ops[i..]) == R.Run(j', ops[i + 1..])
  {
    hide KI.InvFrom, R.Sound, K.Shaped, T.Matches, R.Listed, R.Step;
    R.StepInv(j, ops[i]);
    assert ops[i..][0] == ops[i] && ops[i..][1..] == ops[i + 1..];
  }

  lemma {:induction false} Beginning()
    ensures Leads(R.Start({0}), R.Create(1, 1), R.Joint(E.A1(), S1()))
  {
    hide KI.InvFrom, K.Step, K.Known, K.CanSelect, R.Step, E.A1;
    E.A1Follows();
    var s := R.Start({0}).s;
    CreateLeads(KR.Start(), s, 1, 1, E.A1());
    assert s.mutexes == map[0 := Free()];
    assert s.tcbs[1 := E.T(1, 1, 0)] == S1().tcbs && s.ready + {1} == S1().ready;
    assert s.(tcbs := S1().tcbs, ready := S1().ready) == S1();
  }

  lemma {:induction false} SecondTask()
    ensures Leads(R.Joint(E.A3(), S3()), R.Create(2, 3), R.Joint(E.B4(), S4()))
  {
    hide KI.InvFrom, K.Step, K.Known, K.CanSelect, R.Step;
    E.B4Follows();
    CreateLeads(E.A3(), S3(), 2, 3, E.B4());
    assert S3().ready + {2} == S4().ready;
  }

  lemma {:induction false} RunD()
    ensures R.Inv(R.Start({0}))
    ensures R.Inv(R.Joint(D10(), S8())) && R.Run(R.Start({0}), TimesOutWaiting()) == R.Joint(D10(), S8())
  {
    hide KI.Inv, R.Inv, R.Start, R.Run, Leads, E.Leads, E.A1, E.A2, E.A3, E.B4, E.B5, E.B7, E.B8, D9, D10;
    hide S1, S3, S4, S6, S8;
    var ops := TimesOutWaiting();
    R.StartInv({0});
    Beginning();
    RunLeads(R.Start({0}), ops, 0, R.Joint(E.A1(), S1()));
    E.A2Follows();
    SwitchLeads(E.A1(), S1(), E.A2());
    RunLeads(R.Joint(E.A1(), S1()), ops, 1, R.Joint(E.A2(), S1()));
    TakeLeads();
    RunLeads(R.Joint(E.A2(), S1()), ops, 2, R.Joint(E.A3(), S3()));
    SecondTask();
    RunLeads(R.Joint(E.A3(), S3()), ops, 3, R.Joint(E.B4(), S4()));
    E.B5Follows();
    SwitchLeads(E.B4(), S4(), E.B5());
    RunLeads(R.Joint(E.B4(), S4()), ops, 4, R.Joint(E.B5(), S4()));
    WaitLeads();
    RunLeads(R.Joint(E.B5(), S4()), ops, 5, R.Joint(E.B7(), S6()));
    E.B8Follows();
    SwitchLeads(E.B7(), S6(), E.B8());
    RunLeads(R.Joint(E.B7(), S6()), ops, 6, R.Joint(E.B8(), S6()));
    TickLeads();
    RunLeads(R.Joint(E.B8(), S6()), ops, 7, R.Joint(D9(), S8()));
    D10Follows();
    SwitchLeads(D9(), S8(), D10());
    RunLeads(R.Joint(D9(), S8()), ops, 8, R.Joint(D10(), S8()));
    assert ops[0..] == ops && ops[9..] == [];
    NoMore(R.Joint(D10(), S8()));
  }

  lemma {:induction false} NoMore(j: R.Joint)
    requires R.Inv(j)
    ensures R.Run(j, []) == j
  {
  }

  /** The running task may disinherit task 1, which is ready at the inherited priority 3 and goes down to 1. */
  ghost predicate LowersReadyHolder(j: R.Joint) {
    && KI.Inv(j.k) && K.Shaped(j.k) && R.Entitled(j, R.Disinherit(0)) && j.s.mutexes[0].holder == Some(1)
    && 1 in j.k.tcbs && K.IsReady(j.k, 1) && K.Prio(j.k, 1) == 3
    && K.DisinheritAfterTimeout(j.k, 1, 0).tcbs == j.k.tcbs[1 := E.T(1, 1, 1)]
  }

  /** The run ends with the timed-out task 2 about to lower the ready holder. */
  lemma {:induction false} TimeoutLowersHolder()
    ensures LowersReadyHolder(R.Run(R.Start({0}), TimesOutWaiting()))
  {
    hide KI.InvFrom, R.Run, R.Start, R.Inv, LowersReadyHolder;
    RunD();
    AboutToLower();
  }

  lemma {:induction false} AboutToLower()
    requires R.Inv(R.Joint(D10(), S8()))
    ensures LowersReadyHolder(R.Joint(D10(), S8()))
  {
    hide KI.InvFrom, K.DisinheritAfterTimeout, R.Inv, K.Shaped;
    JointInv(R.Joint(D10(), S8()));
    assert D10().ready[3].items[1] == 1;
    assert D10().tcbs[1] == E.T(3, 1, 1);
    M.TimeoutSameAsKernel(D10(), 1, 0);
    assert T.Orderly(S8(), M.DisinheritFor(2, 0));
  }

  lemma {:induction false} JointInv(j: R.Joint)
    requires R.Inv(j)
    ensures KI.Inv(j.k) && K.Shaped(j.k)
  {
  }
}
