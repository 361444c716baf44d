/** A nanosecond clock read at numbered instants: the schedule of readings is fixed but
    arbitrary, so a statement about every monotone schedule covers every execution. */
module Clocks {

  class Clock {
    const at: nat -> nat
    var ticks: nat

    constructor (at: nat -> nat)
      ensures this.at == at && ticks == 0
    {
      this.at := at;
      ticks := 0;
    }

    /** `Instant::now`. */
    method Now() returns (t: nat)
      modifies this
      ensures t == at(old(ticks)) && ticks == old(ticks) + 1
    {
      t := at(ticks);
      ticks := ticks + 1;
    }

    /** `Instant::elapsed`, which saturates instead of going negative. */
    method Elapsed(since: nat) returns (d: nat)
      modifies this
      ensures d == Between(since, at(old(ticks))) && ticks == old(ticks) + 1
    {
      d := Between(since, at(ticks));
      ticks := ticks + 1;
    }
  }

  function Between(start: nat, end: nat): nat {
    if end >= start then end - start else 0
  }

  ghost predicate Monotone(at: nat -> nat) {
    forall i: nat, j: nat :: i <= j ==> at(i) <= at(j)
  }

  /** Length of the interval between two numbered readings. */
  function Span(at: nat -> nat, i: nat, j: nat): nat {
    Between(at(i), at(j))
  }
}
