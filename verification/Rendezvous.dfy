/**
 * xEventGroupSync as a barrier: tasks owning distinct bits that repeatedly synchronise on the
 * union of their bits, in every interleaving and for any number of rounds.
 */
module Rendezvous {
  import opened Tasks
  import opened EventGroups

  /** A task is between syncs having completed `k`, in sync number `k`, or woken from it. */
  datatype Phase =
    | Outside(k: nat)
    | Inside(k: nat)
    | Woken(k: nat, value: Bits)

  /** `log` lists what each sync returned, by task. */
  datatype System = System(group: Group, phases: map<Task, Phase>, log: seq<(Task, Bits)>)

  datatype Op =
    | Enter(t: Task)
    | Leave(t: Task)
    | SetOthers(others: Bits)

  /** Who takes part and which bit each one owns. */
  datatype Party = Party(own: map<Task, nat>) {
    ghost predicate Valid() {
      && own != map[]
      && (forall t :: t in own ==> own[t] < 24)
      && (forall t, u :: t in own && u in own && own[t] == own[u] ==> t == u)
    }

    /** The rendezvous bits. */
    ghost function All(): Bits {
      set t | t in own :: own[t]
    }
  }

  function Wake(phases: map<Task, Phase>, woken: seq<Waiter>, value: Bits): map<Task, Phase> {
    map t | t in phases ::
      if phases[t].Inside? && exists i :: 0 <= i < |woken| && woken[i].task == t then Woken(phases[t].k, value)
      else phases[t]
  }

  ghost function Step(p: Party, s: System, op: Op): System {
    match op
    case Enter(t) =>
      if t !in p.own || t !in s.phases || !s.phases[t].Outside? then s
      else
        var k := s.phases[t].k;
        var (group, outcome) := Sync(s.group, t, {p.own[t]}, p.All(), true);
        var bits := s.group.bits + {p.own[t]};
        var phases := Wake(s.phases, Matched(s.group.waiters, bits), Delivered(bits));
        (match outcome
         case Returned(value) => System(group, phases[t := Outside(k + 1)], s.log + [(t, value)])
         case Blocked => System(group, phases[t := Inside(k)], s.log))
    case Leave(t) =>
      if t !in s.phases || !s.phases[t].Woken? then s
      else
        s.(phases := s.phases[t := Outside(s.phases[t].k + 1)],
           log := s.log + [(t, Plain(s.phases[t].value))])
    case SetOthers(others) =>
      if !(NoControl(others) && others !! p.All()) then s
      else
        var bits := s.group.bits + others;
        System(SetBits(s.group, others),
               Wake(s.phases, Matched(s.group.waiters, bits), Delivered(bits)), s.log)
  }

  ghost function Run(p: Party, s: System, ops: seq<Op>): System
    decreases |ops|
  {
    if ops == [] then s else Run(p, Step(p, s, ops[0]), ops[1..])
  }

  // ----- the invariant -----

  ghost function WaitWord(p: Party): Bits {
    p.All() + {CLEAR_ON_EXIT, WAIT_FOR_ALL} + {IN_USE}
  }

  /** Everyone is in round `r`, arrived or not, or still on the way out of round `r - 1`. */
  ghost predicate InRound(phase: Phase, r: nat, all: Bits) {
    match phase
    case Outside(k) => k == r
    case Inside(k) => k == r
    case Woken(k, value) => k + 1 == r && all <= Plain(value)
  }

  ghost predicate Round(p: Party, s: System, r: nat) {
    && s.phases.Keys == p.own.Keys
    && (forall t :: t in p.own ==> InRound(s.phases[t], r, p.All()))
    && (forall t :: t in p.own ==> (p.own[t] in s.group.bits <==> s.phases[t].Inside?))
    && (forall w :: w in s.group.waiters ==> w.task in p.own && s.phases[w.task].Inside? && w.value == WaitWord(p))
    && (forall t :: t in p.own && s.phases[t].Inside? ==> Waiter(t, WaitWord(p)) in s.group.waiters)
    && (exists t :: t in p.own && !s.phases[t].Inside?)
    && (forall i :: 0 <= i < |s.log| ==> p.All() <= s.log[i].1)
  }

  lemma {:induction false} WordPlain(p: Party)
    requires p.Valid()
    ensures Plain(WaitWord(p)) == p.All() && WAIT_FOR_ALL in WaitWord(p) && CLEAR_ON_EXIT in WaitWord(p)
  {
  }

  /** A waiter of the party is satisfied exactly by words that hold all rendezvous bits. */
  lemma {:induction false} WaitsForAll(p: Party, t: Task, bits: Bits)
    requires p.Valid()
    ensures Matches(Waiter(t, WaitWord(p)), bits) <==> p.All() <= bits
  {
    WordPlain(p);
  }

  lemma {:induction false} NobodyMatches(ws: seq<Waiter>, bits: Bits)
    requires forall w :: w in ws ==> !Matches(w, bits)
    ensures Matched(ws, bits) == [] && Unmatched(ws, bits) == ws && ToClear(ws, bits) == {}
  {
    hide Matches;
    if ws != [] {
      NobodyMatches(ws[1..], bits);
    }
  }

  lemma {:induction false} EverybodyMatches(p: Party, ws: seq<Waiter>, bits: Bits)
    requires p.Valid() && p.All() <= bits && forall w :: w in ws ==> w.value == WaitWord(p)
    ensures Matched(ws, bits) == ws && Unmatched(ws, bits) == []
    ensures ToClear(ws, bits) == if ws == [] then {} else p.All()
  {
    hide Matches, WaitWord;
    if ws != [] {
      WordPlain(p);
      assert ws[0] == Waiter(ws[0].task, WaitWord(p));
      WaitsForAll(p, ws[0].task, bits);
      EverybodyMatches(p, ws[1..], bits);
    }
  }

  lemma {:induction false} WakeNobody(phases: map<Task, Phase>, value: Bits)
    ensures Wake(phases, [], value) == phases
  {
  }

  /** While someone has not arrived, the bits of the party are not complete. */
  lemma {:induction false} Incomplete(p: Party, s: System, r: nat, bits: Bits)
    requires p.Valid() && Round(p, s, r)
    requires exists t :: t in p.own && p.own[t] !in bits
    ensures !(p.All() <= bits) && forall w :: w in s.group.waiters ==> !Matches(w, bits)
  {
    hide Matches, WaitWord;
    var t :| t in p.own && p.own[t] !in bits;
    assert p.own[t] in p.All();
    forall w | w in s.group.waiters ensures !Matches(w, bits) {
      assert w == Waiter(w.task, WaitWord(p));
      WaitsForAll(p, w.task, bits);
    }
  }

  // ----- steps -----

  lemma {:induction false} ArriveStep(p: Party, s: System, t: Task)
    requires t in p.own && t in s.phases && s.phases[t].Outside?
    requires !(p.All() <= s.group.bits + {p.own[t]})
    requires forall w :: w in s.group.waiters ==> !Matches(w, s.group.bits + {p.own[t]})
    ensures Step(p, s, Enter(t))
         == System(Group(s.group.bits + {p.own[t]}, s.group.waiters + [Waiter(t, WaitWord(p))]),
                   s.phases[t := Inside(s.phases[t].k)], s.log)
  {
    hide Matches;
    var bits := s.group.bits + {p.own[t]};
    NobodyMatches(s.group.waiters, bits);
    WakeNobody(s.phases, Delivered(bits));
    assert bits - {} == bits;
  }

  /** Arriving while others are still to come: the task joins the waiters. */
  lemma {:induction false} ArriveInv(p: Party, s: System, r: nat, t: Task)
    requires p.Valid() && Round(p, s, r) && t in p.own && s.phases[t].Outside?
    requires exists u :: u in p.own && u != t && !s.phases[u].Inside?
    ensures Round(p, Step(p, s, Enter(t)), r)
  {
    hide Matches, WaitWord, Step;
    var u :| u in p.own && u != t && !s.phases[u].Inside?;
    assert p.own[u] !in s.group.bits + {p.own[t]};
    Incomplete(p, s, r, s.group.bits + {p.own[t]});
    ArriveStep(p, s, t);
    JoinInv(p, s, r, t);
  }

  /** The state in which `t` has entered as well and waits. */
  ghost function Joined(p: Party, s: System, t: Task): System
    requires t in p.own && t in s.phases && s.phases[t].Outside?
  {
    System(Group(s.group.bits + {p.own[t]}, s.group.waiters + [Waiter(t, WaitWord(p))]),
           s.phases[t := Inside(s.phases[t].k)], s.log)
  }

  lemma {:induction false} JoinedWaiters(p: Party, s: System, r: nat, t: Task)
    requires Round(p, s, r) && t in p.own && s.phases[t].Outside?
    ensures var s' := Joined(p, s, t);
            && (forall w :: w in s'.group.waiters ==>
                  w.task in p.own && s'.phases[w.task].Inside? && w.value == WaitWord(p))
            && (forall u :: u in p.own && s'.phases[u].Inside? ==> Waiter(u, WaitWord(p)) in s'.group.waiters)
  {
    hide WaitWord, Party.All, InRound;
    var s' := Joined(p, s, t);
    assert forall w :: w in s'.group.waiters <==> w == Waiter(t, WaitWord(p)) || w in s.group.waiters;
  }

  lemma {:induction false} JoinedBit(p: Party, s: System, r: nat, t: Task, u: Task)
    requires p.Valid() && Round(p, s, r) && t in p.own && s.phases[t].Outside? && u in p.own
    ensures var s' := Joined(p, s, t);
            (p.own[u] in s'.group.bits <==> s'.phases[u].Inside?) && InRound(s'.phases[u], r, p.All())
  {
    hide WaitWord, Party.All;
    assert u != t ==> p.own[u] != p.own[t];
    assert InRound(s.phases[t], r, p.All()) && InRound(s.phases[u], r, p.All());
  }

  lemma {:induction false} JoinInv(p: Party, s: System, r: nat, t: Task)
    requires p.Valid() && Round(p, s, r) && t in p.own && s.phases[t].Outside?
    requires exists u :: u in p.own && u != t && !s.phases[u].Inside?
    ensures Round(p, Joined(p, s, t), r)
  {
    hide WaitWord, Party.All, InRound, Party.Valid;
    var s' := Joined(p, s, t);
    JoinedWaiters(p, s, r, t);
    forall u | u in p.own
      ensures (p.own[u] in s'.group.bits <==> s'.phases[u].Inside?) && InRound(s'.phases[u], r, p.All())
    {
      JoinedBit(p, s, r, t, u);
    }
    var u :| u in p.own && u != t && !s.phases[u].Inside?;
    assert u in p.own && !s'.phases[u].Inside?;
  }

  lemma {:induction false} CompleteStep(p: Party, s: System, t: Task)
    requires p.Valid() && t in p.own && t in s.phases && s.phases[t].Outside?
    requires p.All() <= s.group.bits + {p.own[t]}
    requires forall w :: w in s.group.waiters ==> w.value == WaitWord(p)
    ensures var bits := s.group.bits + {p.own[t]};
            var phases := Wake(s.phases, s.group.waiters, Delivered(bits));
            Step(p, s, Enter(t)) ==
            System(Group(bits - p.All(), []), phases[t := Outside(s.phases[t].k + 1)], s.log + [(t, bits)])
  {
    hide Matches, WaitWord, Wake;
    var bits := s.group.bits + {p.own[t]};
    EverybodyMatches(p, s.group.waiters, bits);
    assert bits * p.All() == p.All();
    assert bits - ToClear(s.group.waiters, bits) - p.All() == bits - p.All();
  }

  /** The last one to arrive wakes everybody, clears the bits and returns: the next round. */
  lemma {:induction false} CompleteInv(p: Party, s: System, r: nat, t: Task)
    requires p.Valid() && Round(p, s, r) && t in p.own && s.phases[t].Outside?
    requires forall u :: u in p.own && u != t ==> s.phases[u].Inside?
    ensures Round(p, Step(p, s, Enter(t)), r + 1)
  {
    hide WaitWord, Step, Wake;
    AllArrived(p, s, r, t);
    CompleteStep(p, s, t);
    WokenAll(p, s, r, t);
    var bits := s.group.bits + {p.own[t]};
    OpenRound(p, s, r, t, Wake(s.phases, s.group.waiters, Delivered(bits)));
  }

  lemma {:induction false} AllArrived(p: Party, s: System, r: nat, t: Task)
    requires p.Valid() && Round(p, s, r) && t in p.own
    requires forall u :: u in p.own && u != t ==> s.phases[u].Inside?
    ensures p.All() <= s.group.bits + {p.own[t]}
  {
    hide WaitWord;
  }

  lemma {:induction false} WokenAll(p: Party, s: System, r: nat, t: Task)
    requires Round(p, s, r) && t in p.own && s.phases[t].Outside?
    requires forall u :: u in p.own && u != t ==> s.phases[u].Inside?
    ensures var value := Delivered(s.group.bits + {p.own[t]});
            var phases := Wake(s.phases, s.group.waiters, value);
            phases.Keys == p.own.Keys && forall u :: u in p.own && u != t ==> phases[u] == Woken(r, value)
  {
    hide WaitWord;
    var value := Delivered(s.group.bits + {p.own[t]});
    forall u | u in p.own && u != t ensures Wake(s.phases, s.group.waiters, value)[u] == Woken(r, value) {
      assert Waiter(u, WaitWord(p)) in s.group.waiters;
      var i :| 0 <= i < |s.group.waiters| && s.group.waiters[i] == Waiter(u, WaitWord(p));
      assert s.group.waiters[i].task == u;
      assert InRound(s.phases[u], r, p.All());
    }
  }

  lemma {:induction false} DeliveredHolds(p: Party, bits: Bits)
    requires p.Valid() && p.All() <= bits
    ensures p.All() <= Plain(Delivered(bits))
  {
  }

  lemma {:induction false} OwnBits(p: Party)
    ensures forall t :: t in p.own ==> p.own[t] in p.All()
  {
  }

  lemma {:induction false} OpenRound(p: Party, s: System, r: nat, t: Task, phases: map<Task, Phase>)
    requires p.Valid() && Round(p, s, r) && t in p.own && s.phases[t].Outside? && phases.Keys == p.own.Keys
    requires p.All() <= s.group.bits + {p.own[t]}
    requires forall u :: u in p.own && u != t ==> phases[u] == Woken(r, Delivered(s.group.bits + {p.own[t]}))
    ensures var bits := s.group.bits + {p.own[t]};
            var group, phases' := Group(bits - p.All(), []), phases[t := Outside(s.phases[t].k + 1)];
            Round(p, System(group, phases', s.log + [(t, bits)]), r + 1)
  {
    hide WaitWord, Plain, Delivered, Party.All, Party.Valid;
    var bits := s.group.bits + {p.own[t]};
    DeliveredHolds(p, bits);
    OwnBits(p);
    assert InRound(s.phases[t], r, p.All());
    assert t in p.own && !phases[t := Outside(s.phases[t].k + 1)][t].Inside?;
  }

  lemma {:induction false} LeaveInv(p: Party, s: System, r: nat, t: Task)
    requires p.Valid() && Round(p, s, r) && t in p.own && s.phases[t].Woken?
    ensures Round(p, Step(p, s, Leave(t)), r)
  {
    hide WaitWord, Plain;
    var s' := Step(p, s, Leave(t));
    assert InRound(s.phases[t], r, p.All());
    assert t in p.own && !s'.phases[t].Inside?;
  }

  lemma {:induction false} SetOthersInv(p: Party, s: System, r: nat, others: Bits)
    requires p.Valid() && Round(p, s, r) && NoControl(others) && others !! p.All()
    ensures Round(p, Step(p, s, SetOthers(others)), r)
  {
    hide Matches, WaitWord;
    var bits := s.group.bits + others;
    forall t | t in p.own ensures p.own[t] in bits <==> p.own[t] in s.group.bits {
      assert p.own[t] in p.All();
    }
    var u :| u in p.own && !s.phases[u].Inside?;
    assert p.own[u] !in bits;
    Incomplete(p, s, r, bits);
    NobodyMatches(s.group.waiters, bits);
    WakeNobody(s.phases, Delivered(bits));
    assert Step(p, s, SetOthers(others)) == s.(group := s.group.(bits := bits));
  }

  /** Each step stays in the round or opens the next one. */
  lemma {:induction false} StepInv(p: Party, s: System, r: nat, op: Op)
    requires p.Valid() && Round(p, s, r)
    ensures Round(p, Step(p, s, op), r) || Round(p, Step(p, s, op), r + 1)
  {
    hide Round;
    match op
    case Enter(t) =>
      if t in p.own && t in s.phases && s.phases[t].Outside? {
        RoundKeys(p, s, r);
        if u :| u in p.own && u != t && !s.phases[u].Inside? {
          ArriveInv(p, s, r, t);
        } else {
          CompleteInv(p, s, r, t);
        }
      }
    case Leave(t) =>
      RoundKeys(p, s, r);
      if t in s.phases && s.phases[t].Woken? {
        LeaveInv(p, s, r, t);
      }
    case SetOthers(others) =>
      if NoControl(others) && others !! p.All() {
        SetOthersInv(p, s, r, others);
      }
  }

  lemma {:induction false} RoundKeys(p: Party, s: System, r: nat)
    requires Round(p, s, r)
    ensures s.phases.Keys == p.own.Keys
  {
  }

  lemma {:induction false} RunInv(p: Party, s: System, r: nat, ops: seq<Op>) returns (r': nat)
    requires p.Valid() && Round(p, s, r)
    ensures Round(p, Run(p, s, ops), r')
    decreases |ops|
  {
    hide Round, Step;
    if ops == [] {
      r' := r;
    } else {
      StepInv(p, s, r, ops[0]);
      var next := if Round(p, Step(p, s, ops[0]), r) then r else r + 1;
      r' := RunInv(p, Step(p, s, ops[0]), next, ops[1..]);
    }
  }

  // ----- the theorem -----

  ghost function Start(p: Party): System {
    System(Group({}, []), map t | t in p.own :: Outside(0), [])
  }

  /** How many syncs a task has entered, and how many it has returned from. */
  function Entered(phase: Phase): nat {
    if phase.Outside? then phase.k else phase.k + 1
  }

  function Completed(phase: Phase): nat {
    phase.k
  }

  lemma {:induction false} StartRound(p: Party)
    requires p.Valid()
    ensures Round(p, Start(p), 0)
  {
    var t :| t in p.own;
    assert t in p.own && !Start(p).phases[t].Inside?;
  }

  /**
   * The rendezvous is a barrier in every run: nobody has returned from more syncs than anybody
   * else has entered, and every sync returned a word holding all the rendezvous bits.
   */
  lemma {:induction false} Barrier(p: Party, ops: seq<Op>)
    requires p.Valid()
    ensures var s := Run(p, Start(p), ops);
            && s.phases.Keys == p.own.Keys
            && (forall t, u :: t in p.own && u in p.own ==> Completed(s.phases[t]) <= Entered(s.phases[u]))
            && (forall i :: 0 <= i < |s.log| ==> p.All() <= s.log[i].1)
  {
    hide Run, WaitWord, Plain;
    StartRound(p);
    var r := RunInv(p, Start(p), 0, ops);
    var s := Run(p, Start(p), ops);
    forall t, u | t in p.own && u in p.own ensures Completed(s.phases[t]) <= Entered(s.phases[u]) {
      assert InRound(s.phases[t], r, p.All()) && InRound(s.phases[u], r, p.All());
    }
  }
}
