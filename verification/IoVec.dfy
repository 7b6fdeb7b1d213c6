/** Scatter-gather transfers: the iovec cursor and the two families of socket loops over it. */
module ScatterGather {
  /** A buffer: `len` bytes from address `base`. */
  datatype IoVec = IoVec(base: nat, len: nat)

  /** The addresses of a buffer, and of a list of buffers, in transfer order. */
  function Addrs(v: IoVec): seq<nat> { seq(v.len, i requires 0 <= i < v.len => v.base + i) }

  function Flat(vecs: seq<IoVec>): seq<nat> { if vecs == [] then [] else Addrs(vecs[0]) + Flat(vecs[1..]) }

  predicate NonEmpty(vecs: seq<IoVec>) { forall v <- vecs :: v.len > 0 }

  /** The buffer without its first `n` bytes. */
  function Shrunk(v: IoVec, n: nat): IoVec
    requires n <= v.len
  {
    IoVec(v.base + n, v.len - n)
  }

  lemma FlatSkip(vecs: seq<IoVec>, i: nat, n: nat)
    requires i < |vecs| && vecs[i].len <= n <= |Flat(vecs[i..])|
    ensures n - vecs[i].len <= |Flat(vecs[i + 1..])|
    ensures Flat(vecs[i..])[n..] == Flat(vecs[i + 1..])[n - vecs[i].len..]
  {
    assert vecs[i..][1..] == vecs[i + 1..];
  }

  lemma FlatShrink(vecs: seq<IoVec>, i: nat, n: nat)
    requires i < |vecs| && n <= vecs[i].len
    ensures n <= |Flat(vecs[i..])| && Flat(vecs[i := Shrunk(vecs[i], n)][i..]) == Flat(vecs[i..])[n..]
  {
    assert vecs[i..][1..] == vecs[i + 1..];
    assert vecs[i := Shrunk(vecs[i], n)][i..][1..] == vecs[i + 1..];
    assert Addrs(Shrunk(vecs[i], n)) == Addrs(vecs[i])[n..];
  }

  lemma ShrinkNonEmpty(vecs: seq<IoVec>, i: nat, n: nat)
    requires i < |vecs| && n < vecs[i].len && NonEmpty(vecs)
    ensures NonEmpty(vecs[i := Shrunk(vecs[i], n)])
  {
    forall v | v in vecs[i := Shrunk(vecs[i], n)] ensures v.len > 0 {
    }
  }

  lemma FlatRest(vecs: seq<IoVec>, i: nat)
    requires i <= |vecs|
    ensures Flat(vecs[i..]) != [] ==> i < |vecs|
  {
  }

  method TotalLength(vecs: array<IoVec>) returns (n: nat)
    ensures n == |Flat(vecs[..])|
  {
    n := 0;
    var i := vecs.Length;
    assert vecs[i..] == [];
    while i > 0
      invariant 0 <= i <= vecs.Length && n == |Flat(vecs[i..])|
    {
      i := i - 1;
      assert vecs[i..][1..] == vecs[i + 1..];
      n := n + vecs[i].len;
    }
    assert vecs[0..] == vecs[..];
  }

  class IoVecCursor {
    const iovs: array<IoVec>
    var cur: nat
    var bytesLeft: nat

    ghost predicate Valid()
      reads this, iovs
    {
      cur <= iovs.Length && NonEmpty(iovs[..]) && bytesLeft == |Flat(iovs[cur..])|
    }

    /** What is still to be transferred. */
    function Remaining(): seq<nat>
      requires cur <= iovs.Length
      reads this, iovs
    {
      Flat(iovs[cur..])
    }

    constructor (vecs: seq<IoVec>)
      requires NonEmpty(vecs)
      ensures Valid() && fresh(iovs) && Remaining() == Flat(vecs)
    {
      iovs := new IoVec[|vecs|](i requires 0 <= i < |vecs| => vecs[i]);
      cur := 0;
      new;
      assert iovs[..] == vecs && iovs[0..] == vecs;
      bytesLeft := TotalLength(iovs);
    }

    /** Advances by at least one byte and at most all that are left; true iff none is left. */
    method Advance(bytes: nat) returns (exhausted: bool)
      requires Valid() && 1 <= bytes <= bytesLeft
      modifies this, iovs
      ensures Valid() && Remaining() == old(Remaining())[bytes..]
      ensures exhausted <==> Remaining() == []
    {
      ghost var vecs := iovs[..];
      assert vecs[cur..] == iovs[cur..];
      bytesLeft := bytesLeft - bytes;
      if bytesLeft == 0 {
        cur := iovs.Length;
        assert iovs[cur..] == [];
        return true;
      }
      var c := cur;
      var b := bytes;
      while c < iovs.Length && iovs[c].len <= b
        invariant 0 <= c <= iovs.Length && iovs[..] == vecs && bytesLeft == old(bytesLeft) - bytes
        invariant 0 <= b < |Flat(vecs[c..])| && old(Remaining())[bytes..] == Flat(vecs[c..])[b..]
      {
        FlatSkip(vecs, c, b);
        b := b - iovs[c].len;
        c := c + 1;
      }
      FlatRest(vecs, c);
      FlatShrink(vecs, c, b);
      ShrinkNonEmpty(vecs, c, b);
      iovs[c] := IoVec(iovs[c].base + b, iovs[c].len - b);
      cur := c;
      ghost var shrunk := vecs[c := Shrunk(vecs[c], b)];
      assert iovs[..] == shrunk;
      assert iovs[cur..] == shrunk[c..];
      return iovs.Length <= c;
    }
  }

  // --- Socket loops -----------------------------------------------------------------------

  /** What one system call does: moves up to `n` bytes, or fails in one of these ways. */
  datatype Io = Moved(n: nat) | Interrupted | WouldBlock(ready: bool) | Zero | Failed

  /** How a transfer ends; Waiting is a schedule that ends first. */
  datatype End = Complete | Stopped(io: Io) | Waiting

  datatype Play = Play(moved: nat, end: End)

  /** The number of bytes a call moves: at least one, and no more than there are. */
  function Clip(n: nat, left: nat): nat { if n == 0 && left > 0 then 1 else if n < left then n else left }

  /**
    * The meaning of a schedule for `left` bytes: interrupts are retried, and if the loop is
    * patient so is a socket that becomes ready; anything else stops the transfer.
    */
  function Run(schedule: seq<Io>, left: nat, patient: bool): Play
    decreases |schedule|
  {
    if left == 0 then Play(0, Complete)
    else if schedule == [] then Play(0, Waiting)
    else
      match schedule[0]
      case Moved(n) =>
        var rest := Run(schedule[1..], left - Clip(n, left), patient);
        Play(Clip(n, left) + rest.moved, rest.end)
      case Interrupted => Run(schedule[1..], left, patient)
      case WouldBlock(ready) =>
        if patient && ready then Run(schedule[1..], left, patient) else Play(0, Stopped(schedule[0]))
      case _ => Play(0, Stopped(schedule[0]))
  }

  lemma {:induction false} RunBounded(schedule: seq<Io>, left: nat, patient: bool)
    ensures Run(schedule, left, patient).moved <= left
    ensures Run(schedule, left, patient).end.Complete? <==> Run(schedule, left, patient).moved == left
    decreases |schedule|
  {
    if left > 0 && schedule != [] {
      match schedule[0]
      case Moved(n) => RunBounded(schedule[1..], left - Clip(n, left), patient);
      case Interrupted => RunBounded(schedule[1..], left, patient);
      case WouldBlock(ready) => RunBounded(schedule[1..], left, patient);
      case _ =>
    }
  }

  /** On a socket that never blocks the two families of loops do the same. */
  lemma {:induction false} RunsAgree(schedule: seq<Io>, left: nat)
    requires forall io <- schedule :: !io.WouldBlock?
    ensures Run(schedule, left, true) == Run(schedule, left, false)
    decreases |schedule|
  {
    if left > 0 && schedule != [] {
      match schedule[0]
      case Moved(n) => RunsAgree(schedule[1..], left - Clip(n, left));
      case Interrupted => RunsAgree(schedule[1..], left);
      case _ =>
    }
  }

  function After(moved: nat, play: Play): Play { Play(moved + play.moved, play.end) }

  lemma RunStep(schedule: seq<Io>, t: nat, left: nat, patient: bool)
    requires t < |schedule| && left > 0
    ensures schedule[t].Moved? ==>
      var n := Clip(schedule[t].n, left);
      Run(schedule[t..], left, patient) == After(n, Run(schedule[t + 1..], left - n, patient))
    ensures schedule[t].Interrupted? || (patient && schedule[t].WouldBlock? && schedule[t].ready) ==>
      Run(schedule[t..], left, patient) == Run(schedule[t + 1..], left, patient)
    ensures !schedule[t].Moved? && !schedule[t].Interrupted? &&
            !(patient && schedule[t].WouldBlock? && schedule[t].ready) ==>
      Run(schedule[t..], left, patient) == Play(0, Stopped(schedule[t]))
  {
    assert schedule[t..][1..] == schedule[t + 1..];
  }

  lemma MoveMore(all: seq<nat>, moved: seq<nat>, rest: seq<nat>, n: nat)
    requires all == moved + rest && n <= |rest|
    ensures all == moved + rest[..n] + rest[n..]
  {
  }

  /** What TcpSocket::Send and Recv return; only Recv takes zero bytes for the end of the stream. */
  function Result(play: Play, recv: bool): int {
    match play.end
    case Complete => play.moved
    case Waiting => play.moved
    case Stopped(io) => if io.WouldBlock? || (io.Zero? && recv) then play.moved else -1
  }

  /** Such a call is followed by another. */
  predicate GoesOn(io: Io, patient: bool) {
    io.Moved? || io.Interrupted? || (patient && io.WouldBlock? && io.ready)
  }

  /** Call `i` is `io`, and the first that is not followed by another. */
  predicate FirstStop(schedule: seq<Io>, i: nat, patient: bool, io: Io)
    requires i < |schedule|
  {
    schedule[i] == io && !GoesOn(io, patient) && forall j :: 0 <= j < i ==> GoesOn(schedule[j], patient)
  }

  /** A transfer that stops does so at its first call that is not followed by another. */
  lemma {:induction false} StopsAtFirst(schedule: seq<Io>, left: nat, patient: bool)
    requires Run(schedule, left, patient).end.Stopped?
    ensures exists i | 0 <= i < |schedule| :: FirstStop(schedule, i, patient, Run(schedule, left, patient).end.io)
    decreases |schedule|
  {
    if GoesOn(schedule[0], patient) {
      var left' := if schedule[0].Moved? then left - Clip(schedule[0].n, left) else left;
      StopsAtFirst(schedule[1..], left', patient);
      var io := Run(schedule, left, patient).end.io;
      var i :| 0 <= i < |schedule[1..]| && FirstStop(schedule[1..], i, patient, io);
      forall j | 0 <= j < i + 1 ensures GoesOn(schedule[j], patient) {
        assert j > 0 ==> schedule[j] == schedule[1..][j - 1];
      }
      assert FirstStop(schedule, i + 1, patient, io);
    } else {
      assert FirstStop(schedule, 0, patient, schedule[0]);
    }
  }

  /** The transfer stopped at an error: one that is no wait, and for Recv no end of the stream. */
  predicate Broke(end: End, recv: bool) { end == Stopped(Failed) || (end == Stopped(Zero) && !recv) }

  /** The result is -1 exactly after an error; otherwise, also after a wait, it counts what was moved until then. */
  lemma ResultCounts(schedule: seq<Io>, left: nat, recv: bool)
    ensures var play := Run(schedule, left, false);
      && (Result(play, recv) == -1 <==> Broke(play.end, recv))
      && (Result(play, recv) != -1 ==> Result(play, recv) == play.moved <= left)
  {
    RunBounded(schedule, left, false);
    if Run(schedule, left, false).end.Stopped? {
      StopsAtFirst(schedule, left, false);
    }
  }

  /**
    * TcpSocket::Send, and Recv if `recv`. `moved` are the addresses transferred, in order;
    * the result is meaningful unless the schedule ended first.
    */
  method SocketTransfer(iovs: IoVecCursor, schedule: seq<Io>, recv: bool) returns (r: int, moved: seq<nat>)
    requires iovs.Valid() && iovs.Remaining() != []
    modifies iovs, iovs.iovs
    ensures iovs.Valid() && old(iovs.Remaining()) == moved + iovs.Remaining()
    ensures var play := Run(schedule, |old(iovs.Remaining())|, false);
      |moved| == play.moved && r == Result(play, recv)
  {
    moved := [];
    var sent := 0;
    var i := 0;
    ghost var all := iovs.Remaining();
    assert schedule[0..] == schedule;
    while i < |schedule|
      invariant 0 <= i <= |schedule| && iovs.Valid() && iovs.Remaining() != []
      invariant all == moved + iovs.Remaining() && sent == |moved|
      invariant Run(schedule, |all|, false) == After(sent, Run(schedule[i..], iovs.bytesLeft, false))
      decreases |schedule| - i
    {
      RunStep(schedule, i, iovs.bytesLeft, false);
      match schedule[i] {
        case Moved(n) =>
          var bytes := Clip(n, iovs.bytesLeft);
          MoveMore(all, moved, iovs.Remaining(), bytes);
          moved := moved + iovs.Remaining()[..bytes];
          sent := sent + bytes;
          var exhausted := iovs.Advance(bytes);
          if exhausted {
            return sent, moved;
          }
        case Interrupted =>
        case WouldBlock(_) => return sent, moved;
        case Zero => return if recv then sent else -1, moved;
        case Failed => return -1, moved;
      }
      i := i + 1;
    }
    return sent, moved;
  }

  /** TcpSocketUtil::Send and Recv: the same walk with the cursor's code inlined over a copy of the buffers. */
  method UtilTransfer(iovs: seq<IoVec>, schedule: seq<Io>) returns (ok: bool, moved: seq<nat>)
    requires NonEmpty(iovs) && iovs != []
    ensures var play := Run(schedule, |Flat(iovs)|, true);
      |moved| == play.moved && (ok <==> play.end.Complete?)
    ensures |moved| <= |Flat(iovs)| && moved == Flat(iovs)[..|moved|]
  {
    moved := [];
    var vecs := iovs;
    var len := |Flat(iovs)|;
    var sent := 0;
    var i := 0;
    var t := 0;
    ghost var all := Flat(iovs);
    assert schedule[0..] == schedule && vecs[0..] == vecs;
    while i < |vecs| && t < |schedule|
      invariant 0 <= i < |vecs| && 0 <= t <= |schedule| && NonEmpty(vecs)
      invariant all == moved + Flat(vecs[i..]) && sent == |moved| < len == |all|
      invariant Run(schedule, len, true) == After(sent, Run(schedule[t..], len - sent, true))
      decreases |schedule| - t
    {
      RunStep(schedule, t, len - sent, true);
      match schedule[t] {
        case Moved(n) =>
          var bytes := Clip(n, len - sent);
          MoveMore(all, moved, Flat(vecs[i..]), bytes);
          moved := moved + Flat(vecs[i..])[..bytes];
          sent := sent + bytes;
          if sent >= len {
            return true, moved;
          }
          vecs, i := Inlined(vecs, i, bytes);
        case Interrupted =>
        case WouldBlock(ready) =>
          if !ready {
            return false, moved;
          }
        case _ => return false, moved;
      }
      t := t + 1;
    }
    return false, moved;
  }

  /** The inner loop of TcpSocketUtil: skips whole buffers and shortens the next. */
  method Inlined(vecs: seq<IoVec>, from: nat, bytes: nat) returns (vecs': seq<IoVec>, i: nat)
    requires NonEmpty(vecs) && from < |vecs| && bytes < |Flat(vecs[from..])|
    ensures i < |vecs'| && NonEmpty(vecs') && Flat(vecs'[i..]) == Flat(vecs[from..])[bytes..]
  {
    i := from;
    var b := bytes;
    while i < |vecs| && vecs[i].len <= b
      invariant from <= i <= |vecs|
      invariant 0 <= b < |Flat(vecs[i..])| && Flat(vecs[from..])[bytes..] == Flat(vecs[i..])[b..]
    {
      FlatSkip(vecs, i, b);
      b := b - vecs[i].len;
      i := i + 1;
    }
    FlatRest(vecs, i);
    FlatShrink(vecs, i, b);
    ShrinkNonEmpty(vecs, i, b);
    vecs' := vecs[i := IoVec(vecs[i].base + b, vecs[i].len - b)];
  }
}
