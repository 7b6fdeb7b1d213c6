/** The blocking rate limiter, over exact time in seconds. */
module RateLimiting {
  import opened Options

  /** A call to reserve: the clock reading it makes, and the time its bytes cost. */
  datatype Slot = Slot(now: real, cost: real)

  /** The end of the reserved slot; no deadline stands for minus infinity. */
  function NextDeadline(deadline: Option<real>, slot: Slot): real {
    (if deadline.None? || deadline.value < slot.now then slot.now else deadline.value) + slot.cost
  }

  function Cost(bytes: nat, rate: nat): real
    requires rate >= 1
  {
    bytes as real / rate as real
  }

  class BlockingRateLimiter {
    const rate: nat
    var deadline: Option<real>

    ghost predicate Valid() { rate >= 1 }

    constructor (bytesPerSec: nat)
      ensures Valid() && rate == (if bytesPerSec < 1 then 1 else bytesPerSec) && deadline == None
    {
      rate := if bytesPerSec < 1 then 1 else bytesPerSec;
      deadline := None;
    }

    /** Returns how long the caller must wait before its slot ends. */
    method Reserve(bytes: nat, now: real) returns (wait: real)
      requires Valid()
      modifies this
      ensures Valid() && deadline == Some(NextDeadline(old(deadline), Slot(now, Cost(bytes, rate))))
      ensures wait == deadline.value - now >= Cost(bytes, rate)
      ensures wait == Cost(bytes, rate) <==> old(deadline).None? || old(deadline).value <= now
    {
      var start := if deadline.None? || deadline.value < now then now else deadline.value;
      deadline := Some(start + Cost(bytes, rate));
      wait := deadline.value - now;
    }
  }

  // --- Any sequence of calls -----------------------------------------------------------------

  predicate ValidSlots(slots: seq<Slot>) { forall s <- slots :: s.cost >= 0.0 }

  /** The deadline after the first `k` calls. */
  function DeadlineAt(slots: seq<Slot>, k: nat): Option<real>
    requires k <= |slots|
  {
    if k == 0 then None else Some(NextDeadline(DeadlineAt(slots, k - 1), slots[k - 1]))
  }

  /** Whatever the clock reads, slots are handed out in order and never overlap. */
  lemma {:induction false} SlotsDisjoint(slots: seq<Slot>, i: nat, j: nat)
    requires i < j < |slots| && ValidSlots(slots)
    ensures DeadlineAt(slots, i + 1).value <= DeadlineAt(slots, j + 1).value - slots[j].cost
    decreases j
  {
    if i < j - 1 {
      SlotsDisjoint(slots, i, j - 1);
      assert slots[j - 1].cost >= 0.0;
    }
  }

  /** What calls `i` to `k - 1` cost together. */
  function Total(slots: seq<Slot>, i: nat, k: nat): real
    requires i <= k <= |slots|
  {
    if i == k then 0.0 else Total(slots, i, k - 1) + slots[k - 1].cost
  }

  lemma {:induction false} DeadlineCovers(slots: seq<Slot>, i: nat, k: nat)
    requires i < k <= |slots|
    ensures slots[i].now + Total(slots, i, k) <= DeadlineAt(slots, k).value
  {
    if i < k - 1 {
      DeadlineCovers(slots, i, k - 1);
    }
  }

  lemma {:induction false} DeadlineReached(slots: seq<Slot>, k: nat) returns (i: nat)
    requires 1 <= k <= |slots|
    ensures i < k && slots[i].now + Total(slots, i, k) == DeadlineAt(slots, k).value
  {
    i := k - 1;
    if k > 1 && DeadlineAt(slots, k - 1).value >= slots[k - 1].now {
      i := DeadlineReached(slots, k - 1);
    }
  }

  /**
    * The deadline is exactly the end of the busy period: some call began it at its own clock reading
    * and all costs since then follow without a gap, and no call's bytes are let through earlier.
    */
  lemma DeadlineIsBusyPeriod(slots: seq<Slot>, k: nat)
    requires 1 <= k <= |slots|
    ensures forall i: nat :: i < k ==> slots[i].now + Total(slots, i, k) <= DeadlineAt(slots, k).value
    ensures exists i: nat :: i < k && slots[i].now + Total(slots, i, k) == DeadlineAt(slots, k).value
  {
    forall i: nat | i < k ensures slots[i].now + Total(slots, i, k) <= DeadlineAt(slots, k).value {
      DeadlineCovers(slots, i, k);
    }
    var i := DeadlineReached(slots, k);
    assert slots[i].now + Total(slots, i, k) == DeadlineAt(slots, k).value;
  }

  /** The time paid for by the first `k` calls whose slot has ended by `t`. */
  function Paid(slots: seq<Slot>, k: nat, t: real): real
    requires k <= |slots|
  {
    if k == 0 then 0.0
    else Paid(slots, k - 1, t) + if DeadlineAt(slots, k).value <= t then slots[k - 1].cost else 0.0
  }

  function Earlier(a: real, b: real): real { if a <= b then a else b }

  lemma {:induction false} PaidFits(slots: seq<Slot>, k: nat, t: real)
    requires 1 <= k <= |slots| && ValidSlots(slots) && t >= slots[0].now
    ensures Paid(slots, k, t) <= Earlier(DeadlineAt(slots, k).value, t) - slots[0].now
  {
    assert slots[k - 1].cost >= 0.0;
    if k > 1 {
      PaidFits(slots, k - 1, t);
    }
  }

  // --- In bytes --------------------------------------------------------------------------------

  /** A call for `bytes` at clock reading `now`. */
  datatype Call = Call(now: real, bytes: nat)

  /** The slots of these calls: each costs its bytes at the given rate. */
  predicate Priced(calls: seq<Call>, slots: seq<Slot>, rate: real) {
    && |slots| == |calls| && rate > 0.0
    && forall i :: 0 <= i < |calls| ==> slots[i].now == calls[i].now && IsPrice(calls[i].bytes, slots[i].cost, rate)
  }

  predicate IsPrice(bytes: nat, cost: real, rate: real) { cost >= 0.0 && rate * cost == bytes as real }

  /** What Reserve charges is a price in this sense. */
  lemma CostIsPrice(bytes: nat, rate: nat)
    requires rate >= 1
    ensures IsPrice(bytes, Cost(bytes, rate), rate as real)
  {
  }

  /** The bytes of the first `k` calls whose Consume may return by `t`. */
  function Released(calls: seq<Call>, slots: seq<Slot>, k: nat, t: real): nat
    requires k <= |calls| == |slots|
  {
    if k == 0 then 0
    else Released(calls, slots, k - 1, t) + if DeadlineAt(slots, k).value <= t then calls[k - 1].bytes else 0
  }

  lemma Distribute(r: real, a: real, b: real)
    ensures r * (a + b) == r * a + r * b
  {
  }

  lemma RateOf(released: real, paid: real, span: real, rate: real)
    requires released == rate * paid && paid <= span && rate > 0.0
    ensures released <= rate * span
  {
  }

  lemma {:induction false} ReleasedIsPaid(calls: seq<Call>, slots: seq<Slot>, k: nat, t: real, rate: real)
    requires Priced(calls, slots, rate) && k <= |calls|
    ensures Released(calls, slots, k, t) as real == rate * Paid(slots, k, t)
  {
    if k > 0 {
      ReleasedIsPaid(calls, slots, k - 1, t, rate);
      Distribute(rate, Paid(slots, k - 1, t), slots[k - 1].cost);
    }
  }

  /** By any time, no more bytes are released than the rate allows for the span since the first call. */
  lemma RateHolds(calls: seq<Call>, slots: seq<Slot>, t: real, rate: real, span: real)
    requires Priced(calls, slots, rate) && calls != [] && span == t - calls[0].now >= 0.0
    ensures Released(calls, slots, |calls|, t) as real <= rate * span
  {
    PaidFits(slots, |slots|, t);
    ReleasedIsPaid(calls, slots, |calls|, t, rate);
    RateOf(Released(calls, slots, |calls|, t) as real, Paid(slots, |calls|, t), span, rate);
  }
}
