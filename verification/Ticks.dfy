/** The 32-bit tick type and its relation to unbounded time. */
module Ticks {

  const TICKS: nat := 0x1_0000_0000
  const MAX_DELAY: nat := 0xFFFF_FFFF

  type Tick = t: nat | t < 0x1_0000_0000

  /** The value a 32-bit counter shows at (or an unsigned subtraction yields for) `t`. */
  function Wrap(t: int): Tick {
    t % 0x1_0000_0000
  }

  /** How often a counter that started at 0 has wrapped by time `t`. */
  function Epoch(t: nat): nat {
    t / 0x1_0000_0000
  }

  /** The unbounded time denoted by a tick value in a given epoch. */
  function At(epoch: nat, tick: Tick): nat {
    epoch * 0x1_0000_0000 + tick
  }

  lemma AtSplits(t: nat)
    ensures At(Epoch(t), Wrap(t)) == t
  {
  }

  lemma AtUnique(e: nat, v: Tick)
    ensures Epoch(At(e, v)) == e && Wrap(At(e, v)) == v
  {
  }

  /** Wrapped subtraction recovers every distance below 2^32. */
  lemma WrapDistance(a: nat, b: nat)
    requires a <= b < a + TICKS
    ensures Wrap(Wrap(b) - Wrap(a)) == b - a
  {
    AtSplits(a);
    AtSplits(b);
  }

  /** Wrapped addition lands on the tick of the true sum. */
  lemma WrapSum(a: nat, d: nat)
    ensures Wrap(Wrap(a) + d) == Wrap(a + d)
  {
    AtSplits(a);
  }

  lemma WrapOnce(v: Tick, d: Tick)
    ensures Wrap(v + d) == if v + d < TICKS then v + d else v + d - TICKS
  {
  }

  /** Within less than a full wrap the counter shows whether it wrapped. */
  lemma {:induction false} NearEpochs(a: nat, b: nat)
    requires a <= b < a + TICKS
    ensures Epoch(b) == if Wrap(b) < Wrap(a) then Epoch(a) + 1 else Epoch(a)
  {
    AtSplits(a);
    AtSplits(b);
  }

  /** Multiples of a size lie at least one size apart. */
  lemma {:induction false} MultiplesApart(i: nat, j: nat, size: nat)
    requires i < j
    ensures i * size + size <= j * size
    decreases j
  {
    if j == i + 1 {
      assert j * size == i * size + size;
    } else {
      MultiplesApart(i, j - 1, size);
      assert j * size == (j - 1) * size + size;
    }
  }
}
