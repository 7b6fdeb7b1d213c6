/** Handles and request ids: 32-bit counters that skip the invalid value 0. */
module Ids {
  const COUNT: nat := 0xFFFF_FFFF

  type Id = x: nat | x <= COUNT

  /** The counter after one more id; it wraps around, and 0 is skipped. */
  function Next(x: Id): Id { if x == COUNT then 1 else x + 1 }

  class IdGenerator {
    var next: Id

    constructor (seed: Id)
      ensures next == seed
    {
      next := seed;
    }

    method Gen() returns (id: Id)
      modifies this
      ensures id == next == Next(old(next))
    {
      next := if next == COUNT then 0 else next + 1;
      if next == 0 {
        next := next + 1;
      }
      return next;
    }
  }

  /** The `k`-th id after a seed. */
  function Nth(seed: Id, k: nat): Id { if k == 0 then seed else Next(Nth(seed, k - 1)) }

  lemma {:induction false} NthIs(seed: Id, k: nat)
    requires k >= 1
    ensures Nth(seed, k) == (seed + COUNT - 1 + k) % COUNT + 1
  {
    if k > 1 {
      NthIs(seed, k - 1);
    }
  }

  /** No id is 0, and one comes again exactly after a multiple of 2^32 - 1 calls. */
  lemma IdsRepeatLate(seed: Id, i: nat, j: nat)
    requires 1 <= i <= j
    ensures Nth(seed, i) != 0
    ensures Nth(seed, i) == Nth(seed, j) <==> (j - i) % COUNT == 0
  {
    NthIs(seed, i);
    NthIs(seed, j);
    SameRest(seed + COUNT - 1 + i, j - i);
  }

  lemma SameRest(a: nat, d: nat)
    ensures a % COUNT == (a + d) % COUNT <==> d % COUNT == 0
  {
  }
}
