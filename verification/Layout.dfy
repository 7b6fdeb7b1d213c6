/** How the engine cuts one request into chunks (Engine::processWrite). */
module Layout {
  const MAX_U32: nat := 0xFFFF_FFFF

  function Min(a: nat, b: nat): nat { if a < b then a else b }

  /** Size of chunk `i`: the first `len % n` chunks carry one extra byte. */
  function Size(len: nat, n: nat, i: nat): nat
    requires n > 0
  {
    if i < len % n then len / n + 1 else len / n
  }

  /** Closed form for the start of chunk `i`. */
  function Offset(len: nat, n: nat, i: nat): nat
    requires n > 0
  {
    i * (len / n) + Min(i, len % n)
  }

  /** The n + 1 boundaries of the n chunks of a `len`-byte request. */
  function Cuts(len: nat, n: nat): (cuts: seq<nat>)
    requires n > 0
  {
    seq(n + 1, i requires 0 <= i <= n => Offset(len, n, i))
  }

  /** `cuts` splits [0, len) into consecutive non-empty intervals. */
  ghost predicate Partitions(cuts: seq<nat>, len: nat) {
    && |cuts| >= 2
    && cuts[0] == 0
    && cuts[|cuts| - 1] == len
    && forall i, j :: 0 <= i < j < |cuts| ==> cuts[i] < cuts[j]
  }

  lemma OffsetStep(len: nat, n: nat, i: nat)
    requires n > 0
    ensures Offset(len, n, i + 1) == Offset(len, n, i) + Size(len, n, i)
  {
    assert (i + 1) * (len / n) == i * (len / n) + len / n;
  }

  lemma OffsetEnd(len: nat, n: nat)
    requires n > 0
    ensures Offset(len, n, n) == len
  {
    assert n * (len / n) + len % n == len;
  }

  lemma QuotientPositive(len: nat, n: nat)
    requires 1 <= n <= len
    ensures len / n >= 1
  {
    assert len == n * (len / n) + len % n;
  }

  lemma {:induction false} OffsetIncreases(len: nat, n: nat, i: nat, j: nat)
    requires 1 <= n <= len && i < j
    ensures Offset(len, n, i) < Offset(len, n, j)
    decreases j
  {
    QuotientPositive(len, n);
    OffsetStep(len, n, j - 1);
    if i < j - 1 {
      OffsetIncreases(len, n, i, j - 1);
    }
  }

  /** Whenever there is at least one byte per chunk, the boundaries partition the buffer. */
  lemma CutsPartition(len: nat, n: nat)
    requires 1 <= n <= len
    ensures Partitions(Cuts(len, n), len)
    ensures |Cuts(len, n)| == n + 1
    ensures forall i, j :: 0 <= i < n && 0 <= j < n ==> Size(len, n, i) <= Size(len, n, j) + 1
  {
    OffsetEnd(len, n);
    var cuts := Cuts(len, n);
    assert cuts[0] == Offset(len, n, 0) == 0;
    forall i, j | 0 <= i < j < |cuts| ensures cuts[i] < cuts[j] {
      OffsetIncreases(len, n, i, j);
    }
  }

  /** Every byte of the buffer lies in some chunk. */
  lemma {:induction false} CutsCover(cuts: seq<nat>, len: nat, b: nat, k: nat) returns (i: nat)
    requires Partitions(cuts, len)
    requires k < |cuts| && b < cuts[k]
    ensures i + 1 < |cuts| && cuts[i] <= b < cuts[i + 1]
    decreases k
  {
    if cuts[k - 1] <= b {
      i := k - 1;
    } else {
      i := CutsCover(cuts, len, b, k - 1);
    }
  }

  /** No byte lies in two chunks. */
  lemma CutsDisjoint(cuts: seq<nat>, len: nat, b: nat, i: nat, j: nat)
    requires Partitions(cuts, len)
    requires i + 1 < |cuts| && j + 1 < |cuts|
    requires cuts[i] <= b < cuts[i + 1] && cuts[j] <= b < cuts[j + 1]
    ensures i == j
  {
  }

  /** One entry handed to a worker: EnqueueChunk(laddr + offset, header). */
  datatype ChunkJob = ChunkJob(worker: nat, src: nat, index: nat, offset: nat, size: nat, raddr: nat)

  /** Job `i` is chunk `i`: read from and written to the same offset of both buffers. */
  ghost predicate Covers(job: ChunkJob, i: nat, laddr: nat, raddr: nat, lo: nat, hi: nat) {
    && job.index == i
    && job.offset == lo
    && job.offset + job.size == hi
    && 1 <= job.size <= MAX_U32
    && job.src == laddr + lo
    && job.raddr == (if raddr == 0 then 0 else raddr + lo)
  }

  ghost predicate Tiles(jobs: seq<ChunkJob>, laddr: nat, raddr: nat, cuts: seq<nat>)
    requires |jobs| < |cuts|
  {
    forall i :: 0 <= i < |jobs| ==> Covers(jobs[i], i, laddr, raddr, cuts[i], cuts[i + 1])
  }

  /** Chunks go to the workers round-robin. */
  ghost predicate RoundRobin(jobs: seq<ChunkJob>, nworkers: nat)
    requires nworkers > 0
  {
    forall i :: 0 <= i < |jobs| ==> jobs[i].worker == i % nworkers
  }

  lemma Boundaries(len: nat, n: nat) returns (cuts: seq<nat>)
    requires 1 <= n <= len
    ensures cuts == Cuts(len, n) && Partitions(cuts, len) && |cuts| == n + 1
    ensures forall i :: 0 <= i < n ==> cuts[i + 1] == cuts[i] + Size(len, n, i)
  {
    CutsPartition(len, n);
    cuts := Cuts(len, n);
    forall i | 0 <= i < n ensures cuts[i + 1] == cuts[i] + Size(len, n, i) {
      OffsetStep(len, n, i);
    }
  }

  /**
    * Engine::processWrite. `crashed` is the CHECK that a chunk length fits in 32 bits.
    */
  method ProcessWrite(nworkers: nat, laddr: nat, raddr: nat, len: nat, nchunks: nat)
    returns (crashed: bool, jobs: seq<ChunkJob>, total: nat)
    requires nworkers >= 1 && 1 <= nchunks <= len
    ensures crashed <==> Size(len, nchunks, 0) > MAX_U32
    ensures !crashed ==> |jobs| == nchunks == |Cuts(len, nchunks)| - 1 && total == len
    ensures !crashed ==> Tiles(jobs, laddr, raddr, Cuts(len, nchunks))
    ensures !crashed ==> RoundRobin(jobs, nworkers)
  {
    ghost var cuts := Boundaries(len, nchunks);
    var q := len / nchunks;
    var r := len % nchunks;
    crashed, jobs, total := false, [], 0;
    var i := 0;
    while i < nchunks
      invariant 0 <= i <= nchunks && |jobs| == i
      invariant total == cuts[i]
      invariant Tiles(jobs, laddr, raddr, cuts)
      invariant RoundRobin(jobs, nworkers)
      invariant i > 0 ==> Size(len, nchunks, 0) <= MAX_U32
    {
      var n := if i < r then q + 1 else q;
      if n > MAX_U32 {
        return true, jobs, total;
      }
      assert n == Size(len, nchunks, i) && cuts[i + 1] == cuts[i] + n;
      var chunkAddr := if raddr == 0 then 0 else raddr + total;
      var job := ChunkJob(i % nworkers, laddr + total, i, total, n, chunkAddr);
      assert Covers(job, i, laddr, raddr, cuts[i], cuts[i + 1]);
      jobs := jobs + [job];
      total := total + n;
      i := i + 1;
    }
  }
}
