/** The word-packed bitset and the chunk tracker built on it. */
module ChunkTracking {
  import opened Trackers

  // --- Bitset -------------------------------------------------------------------

  /** Bits in a unit. Index `i` lives in unit `i / UNIT` at bit `i % UNIT`. */
  const UNIT: nat := 64

  function NumUnits(size: nat): nat { (size + UNIT - 1) / UNIT }

  /** The indices of the bits set in the first `k` units. */
  function Members(units: seq<seq<bool>>, k: nat): set<nat>
    requires k <= |units| && forall u <- units :: |u| == UNIT
  {
    set i | 0 <= i < UNIT * k && units[i / UNIT][i % UNIT]
  }

  /** std::bitset::count. */
  function Ones(u: seq<bool>): nat {
    if u == [] then 0 else Ones(u[..|u| - 1]) + if u[|u| - 1] then 1 else 0
  }

  function Positions(u: seq<bool>, base: nat): set<nat> { set i | 0 <= i < |u| && u[i] :: base + i }

  lemma {:induction false} OnesCounts(u: seq<bool>, base: nat)
    ensures |Positions(u, base)| == Ones(u)
  {
    if u != [] {
      var n := |u| - 1;
      OnesCounts(u[..n], base);
      assert Positions(u, base) == Positions(u[..n], base) + if u[n] then {base + n} else {};
    }
  }

  lemma UnitIndex(k: nat, b: nat)
    requires b < UNIT
    ensures (UNIT * k + b) / UNIT == k && (UNIT * k + b) % UNIT == b
  {
  }

  lemma MembersStep(units: seq<seq<bool>>, k: nat)
    requires k < |units| && forall u <- units :: |u| == UNIT
    ensures Members(units, k + 1) == Members(units, k) + Positions(units[k], UNIT * k)
    ensures Members(units, k) !! Positions(units[k], UNIT * k)
    ensures |Members(units, k + 1)| == |Members(units, k)| + Ones(units[k])
  {
    OnesCounts(units[k], UNIT * k);
    forall i | i in Positions(units[k], UNIT * k) ensures i in Members(units, k + 1) && i !in Members(units, k) {
      UnitIndex(k, i - UNIT * k);
    }
    forall i | i in Members(units, k + 1) ensures i in Members(units, k) + Positions(units[k], UNIT * k) {
      if i >= UNIT * k {
        assert i == UNIT * k + i % UNIT;
      }
    }
    assert Members(units, k + 1) == Members(units, k) + Positions(units[k], UNIT * k);
  }

  lemma MembersCount(units: seq<seq<bool>>, k: nat)
    requires k < |units| && forall u <- units :: |u| == UNIT
    ensures |Members(units, k + 1)| == |Members(units, k)| + Ones(units[k])
  {
    MembersStep(units, k);
  }

  /** The first `n` indices. */
  function Below(n: nat): (s: set<nat>)
    ensures forall i: nat :: i in s <==> i < n
    ensures |s| == n
  {
    if n == 0 then {} else Below(n - 1) + {n - 1}
  }

  lemma {:induction false} FullSize(s: set<nat>, n: nat)
    requires s <= Below(n)
    ensures |s| <= n && (|s| == n <==> s == Below(n))
  {
    if n > 0 {
      FullSize(s - {n - 1}, n - 1);
      assert s == (s - {n - 1}) + if n - 1 in s then {n - 1} else {};
    }
  }

  class Bitset {
    const size: nat
    const units: array<seq<bool>>

    /** Unused trailing bits are 0. */
    ghost predicate Valid()
      reads units
    {
      && units.Length == NumUnits(size)
      && (forall k :: 0 <= k < units.Length ==> |units[k]| == UNIT)
      && forall i :: 0 <= i < UNIT * units.Length && units[i / UNIT][i % UNIT] ==> i < size
    }

    /** The set of indices the bitset stands for. */
    ghost function Contents(): set<nat>
      requires Valid()
      reads units
    {
      Members(units[..], units.Length)
    }

    constructor (size: nat)
      requires size > 0
      ensures Valid() && this.size == size && fresh(units) && Contents() == {}
    {
      this.size := size;
      this.units := new seq<bool>[NumUnits(size)](_ => seq(UNIT, _ => false));
    }

    method Get(i: nat) returns (bit: bool)
      requires Valid() && i < size
      ensures bit <==> i in Contents()
    {
      bit := units[i / UNIT][i % UNIT];
    }

    method Set(i: nat)
      requires Valid() && i < size
      modifies units
      ensures Valid() && Contents() == old(Contents()) + {i}
    {
      units[i / UNIT] := units[i / UNIT][i % UNIT := true];
      assert forall j :: 0 <= j < UNIT * units.Length && j / UNIT == i / UNIT && j % UNIT == i % UNIT ==> j == i;
    }

    method Reset(i: nat)
      requires Valid() && i < size
      modifies units
      ensures Valid() && Contents() == old(Contents()) - {i}
    {
      units[i / UNIT] := units[i / UNIT][i % UNIT := false];
      assert forall j :: 0 <= j < UNIT * units.Length && j / UNIT == i / UNIT && j % UNIT == i % UNIT ==> j == i;
    }

    /** A fold over the units; the sum never exceeds the size, so 32 bits hold it. */
    method Count() returns (c: nat)
      requires Valid()
      ensures c == |Contents()| <= size
    {
      c := 0;
      var k := 0;
      while k < units.Length
        invariant 0 <= k <= units.Length && c == |Members(units[..], k)|
      {
        MembersCount(units[..], k);
        c := c + Ones(units[k]);
        k := k + 1;
      }
      InRange();
    }

    lemma InRange()
      requires Valid()
      ensures Contents() <= Below(size) && |Contents()| <= size
      ensures |Contents()| == size <==> Contents() == Below(size)
    {
      FullSize(Contents(), size);
    }

    method IsEmpty() returns (r: bool)
      requires Valid()
      ensures r <==> Contents() == {}
    {
      var k := 0;
      while k < units.Length
        invariant 0 <= k <= units.Length && Members(units[..], k) == {}
      {
        MembersStep(units[..], k);
        OnesCounts(units[k], UNIT * k);
        if Ones(units[k]) != 0 {
          SomeMember(k);
          return false;
        }
        k := k + 1;
      }
      return true;
    }

    lemma SomeMember(k: nat)
      requires Valid() && k < units.Length && Positions(units[k], UNIT * k) != {}
      ensures Contents() != {}
    {
      var i :| i in Positions(units[k], UNIT * k);
      UnitIndex(k, i - UNIT * k);
      assert i in Contents();
    }

    /** The count equals the size exactly when every index is in. */
    method IsFull() returns (r: bool)
      requires Valid()
      ensures r <==> forall i :: 0 <= i < size ==> i in Contents()
    {
      var c := Count();
      InRange();
      assert Contents() == Below(size) <==> forall i :: 0 <= i < size ==> i in Contents();
      return c == size;
    }
  }

  // --- ChunkTracker ---------------------------------------------------------------

  class ChunkTracker {
    const total: nat
    const chunks: Bitset
    var busy: set<nat>
    var duplicates: nat

    ghost predicate Valid()
      reads this, chunks.units
    {
      chunks.Valid() && chunks.size == total && ValidChunks(Chunks(total, chunks.Contents(), busy))
    }

    ghost function State(): Chunks
      requires chunks.Valid()
      reads this, chunks.units
    {
      Chunks(total, chunks.Contents(), busy)
    }

    constructor (total: nat)
      requires total >= 1
      ensures Valid() && State() == NewChunks(total) && fresh(chunks) && fresh(chunks.units)
    {
      this.total := total;
      this.chunks := new Bitset(total);
      this.busy := {};
      this.duplicates := 0;
    }

    method IsDone() returns (r: bool)
      requires Valid()
      ensures r <==> Full(State())
    {
      r := chunks.IsFull();
    }

    /** Sets a chunk nobody is writing. */
    method Set(i: nat)
      requires Valid() && i < total && i !in busy
      modifies chunks.units
      ensures Valid() && State() == SetDone(old(State()), i)
    {
      chunks.Set(i);
    }

    method Acquire(i: nat) returns (status: ChunkStatus)
      requires Valid() && i < total
      modifies this
      ensures Valid() && State() == Trackers.Acquire(old(State()), i)
      ensures status == StatusOf(old(State()), i)
      ensures duplicates == old(duplicates) + if status.Busy? then 1 else 0
    {
      var done := chunks.Get(i);
      if done {
        return Done;
      }
      if i in busy {
        duplicates := duplicates + 1;
        return Busy;
      }
      busy := busy + {i};
      return Empty;
    }

    /** Only for the writer whose Acquire returned Empty. */
    method Release(i: nat, success: bool) returns (last: bool)
      requires Valid() && i < total && i in busy
      modifies this`busy, chunks.units
      ensures Valid() && State() == Trackers.Release(old(State()), i, success)
      ensures last <==> success && Full(State())
    {
      busy := busy - {i};
      if success {
        chunks.Set(i);
        last := chunks.IsFull();
      } else {
        last := false;
      }
    }
  }

  // --- Any number of writers ----------------------------------------------------------

  datatype Hold = Hold(writer: nat, chunk: nat)

  datatype Event = AcquireBy(hold: Hold) | ReleaseBy(hold: Hold, success: bool)

  /** A tracker, the chunks its writers hold, and the number of times Release has returned true. */
  datatype Writers = Writers(chunks: Chunks, holds: set<Hold>, finished: nat)

  /** A writer releases only what it holds. */
  predicate Behaves(s: Writers, e: Event) {
    e.hold.chunk < s.chunks.total && (e.ReleaseBy? ==> e.hold in s.holds)
  }

  function Next(s: Writers, e: Event): Writers {
    match e
    case AcquireBy(hold) =>
      Writers(Acquire(s.chunks, hold.chunk),
              if StatusOf(s.chunks, hold.chunk).Empty? then s.holds + {hold} else s.holds, s.finished)
    case ReleaseBy(hold, success) =>
      var c := Release(s.chunks, hold.chunk, success);
      Writers(c, s.holds - {hold}, if success && Full(c) then s.finished + 1 else s.finished)
  }

  predicate Behaved(s: Writers, events: seq<Event>)
    decreases |events|
  {
    events == [] || (Behaves(s, events[0]) && Behaved(Next(s, events[0]), events[1..]))
  }

  function After(s: Writers, events: seq<Event>): Writers
    decreases |events|
  {
    if events == [] then s else After(Next(s, events[0]), events[1..])
  }

  /**
    * A chunk is busy iff some writer holds it, and then only one does; the states are
    * disjoint; Release has returned true once if all chunks are done and never otherwise.
    */
  ghost predicate WritersOk(s: Writers) {
    && ValidChunks(s.chunks)
    && (forall i: nat :: i in s.chunks.busy <==> exists hold <- s.holds :: hold.chunk == i)
    && (forall a <- s.holds, b <- s.holds :: a.chunk == b.chunk ==> a == b)
    && s.finished == (if Full(s.chunks) then 1 else 0)
  }

  lemma NextOk(s: Writers, e: Event)
    requires WritersOk(s) && Behaves(s, e) && s.chunks.total >= 1
    ensures WritersOk(Next(s, e)) && Next(s, e).chunks.total == s.chunks.total
    ensures s.chunks.done <= Next(s, e).chunks.done
  {
    var s' := Next(s, e);
    var i := e.hold.chunk;
    forall j: nat ensures j in s'.chunks.busy <==> exists hold <- s'.holds :: hold.chunk == j {
      if j in s'.chunks.busy {
        if j in s.chunks.busy {
          var hold :| hold in s.holds && hold.chunk == j;
          assert hold in s'.holds;
        } else {
          assert e.hold in s'.holds;
        }
      }
    }
    assert Full(s.chunks) ==> e.AcquireBy? && s' == s;
  }

  /** In every run of well-behaved writers over a new tracker; DONE is final. */
  lemma {:induction false} RunOk(s: Writers, events: seq<Event>)
    requires WritersOk(s) && Behaved(s, events) && s.chunks.total >= 1
    ensures WritersOk(After(s, events)) && s.chunks.done <= After(s, events).chunks.done
    ensures After(s, events).chunks.total == s.chunks.total
    decreases |events|
  {
    if events != [] {
      NextOk(s, events[0]);
      RunOk(Next(s, events[0]), events[1..]);
    }
  }

  /** From a new tracker: Release returns true exactly once, on the call that finishes the last chunk. */
  lemma LastReleaseOnce(total: nat, events: seq<Event>)
    requires total >= 1 && Behaved(Writers(NewChunks(total), {}, 0), events)
    ensures var s := After(Writers(NewChunks(total), {}, 0), events);
      && WritersOk(s) && s.chunks.total == total
      && s.finished == if s.chunks.done == Below(total) then 1 else 0
  {
    var s0 := Writers(NewChunks(total), {}, 0);
    assert 0 !in s0.chunks.done;
    assert WritersOk(s0);
    RunOk(s0, events);
    var s := After(s0, events);
    assert Full(s.chunks) <==> s.chunks.done == Below(total);
  }
}
