/** The request tracker: one entry per (peer, handle), updated under one lock. */
module RequestTracking {
  import opened Options
  import opened Trackers

  // --- Descriptor lists ---------------------------------------------------------------

  ghost predicate Distinct(infos: seq<RequestInfo>) {
    forall i, j :: 0 <= i < j < |infos| ==> infos[i].reqid != infos[j].reqid
  }

  /** The descriptors by request id; a repeated id keeps the last one. */
  function ById(infos: seq<RequestInfo>): map<ReqId, RequestInfo> {
    if infos == [] then map[] else ById(infos[..|infos| - 1])[infos[|infos| - 1].reqid := infos[|infos| - 1]]
  }

  predicate EachResolves(infos: seq<RequestInfo>, resolve: map<ReqId, Addr>) {
    forall info <- infos :: Resolve(info, resolve) != 0
  }

  lemma {:induction false} ByIdHas(infos: seq<RequestInfo>)
    ensures forall info <- infos :: info.reqid in ById(infos)
    ensures forall r <- ById(infos) :: ById(infos)[r] in infos && ById(infos)[r].reqid == r
  {
    if infos != [] {
      ByIdHas(infos[..|infos| - 1]);
      assert infos == infos[..|infos| - 1] + [infos[|infos| - 1]];
    }
  }

  lemma {:induction false} ByIdKeeps(infos: seq<RequestInfo>)
    requires Distinct(infos)
    ensures forall i :: 0 <= i < |infos| ==> infos[i].reqid in ById(infos) && ById(infos)[infos[i].reqid] == infos[i]
    ensures |ById(infos)| == |infos|
  {
    if infos != [] {
      var init := infos[..|infos| - 1];
      ByIdKeeps(init);
      ByIdHas(init);
      assert infos[|infos| - 1].reqid !in ById(init);
    }
  }

  lemma NotRejected(infos: seq<RequestInfo>, resolve: map<ReqId, Addr>)
    ensures EachResolves(infos, resolve) ==> AllResolve(ById(infos), resolve)
  {
    ByIdHas(infos);
  }

  /** With distinct ids, as the engine generates them, the list and the map agree. */
  lemma ResolvesById(infos: seq<RequestInfo>, resolve: map<ReqId, Addr>)
    requires Distinct(infos)
    ensures AllResolve(ById(infos), resolve) <==> EachResolves(infos, resolve)
    ensures |ById(infos)| == |infos|
  {
    ByIdHas(infos);
    ByIdKeeps(infos);
  }

  lemma DescribeStep(infos: seq<RequestInfo>, i: nat, resolve: map<ReqId, Addr>)
    requires i < |infos|
    ensures var m, info := ById(infos[..i]), infos[i];
      var m' := ById(infos[..i + 1]);
      && NewReqs(m', resolve) == NewReqs(m, resolve)[info.reqid := NewReq(info, resolve)]
      && Resolved(m', resolve) == Resolved(m, resolve)[info.reqid := info.(raddr := Resolve(info, resolve))]
  {
    assert infos[..i + 1][..i] == infos[..i];
  }

  /** The descriptor says where the request lands, or else the callback does. */
  predicate LandsAt(a: Addr, info: RequestInfo, resolve: map<ReqId, Addr>) {
    && (info.raddr != 0 ==> a == info.raddr)
    && (info.raddr == 0 && info.reqid in resolve ==> a == resolve[info.reqid])
    && (info.raddr == 0 && info.reqid !in resolve ==> a == 0)
  }

  /** One tracker per descriptor: no chunk done yet, the address it lands at, its own metadata. */
  predicate Tracks(reqs: map<ReqId, ReqTracker>, infos: seq<RequestInfo>, resolve: map<ReqId, Addr>) {
    && |reqs| == |infos|
    && forall info <- infos ::
         && info.reqid in reqs && reqs[info.reqid].chunks == Chunks(info.nchunks, {}, {})
         && LandsAt(reqs[info.reqid].raddr, info, resolve) && reqs[info.reqid].meta == info.meta
  }

  /** The descriptors as received, but for addresses the callback has answered. */
  predicate Forwards(resolved: map<ReqId, RequestInfo>, infos: seq<RequestInfo>, resolve: map<ReqId, Addr>) {
    && |resolved| == |infos|
    && forall info <- infos ::
         && info.reqid in resolved && LandsAt(resolved[info.reqid].raddr, info, resolve)
         && resolved[info.reqid] == info.(raddr := resolved[info.reqid].raddr)
  }

  lemma TracksAll(infos: seq<RequestInfo>, resolve: map<ReqId, Addr>)
    requires Distinct(infos)
    ensures Tracks(NewReqs(ById(infos), resolve), infos, resolve)
    ensures Forwards(Resolved(ById(infos), resolve), infos, resolve)
  {
    var m := ById(infos);
    ByIdKeeps(infos);
    assert NewReqs(m, resolve).Keys == m.Keys && Resolved(m, resolve).Keys == m.Keys;
    assert |NewReqs(m, resolve)| == |NewReqs(m, resolve).Keys| == |m.Keys| == |m|;
    assert |Resolved(m, resolve)| == |Resolved(m, resolve).Keys| == |m.Keys|;
  }

  /** The loop of Add: stops at the first address that does not resolve, unless the post is our own. */
  method Describe(infos: seq<RequestInfo>, own: bool, resolve: map<ReqId, Addr>)
    returns (ok: bool, reqs: map<ReqId, ReqTracker>, resolved: map<ReqId, RequestInfo>)
    ensures ok <==> own || EachResolves(infos, resolve)
    ensures ok <==> own || forall info <- infos :: !LandsAt(0, info, resolve)
    ensures ok ==> reqs == NewReqs(ById(infos), resolve)
    ensures ok ==> resolved == Resolved(ById(infos), resolve)
    ensures ok && Distinct(infos) ==> Tracks(reqs, infos, resolve) && Forwards(resolved, infos, resolve)
  {
    ok, reqs, resolved := DescribeEach(infos, own, resolve);
    NoneLandsNowhere(infos, resolve);
    if Distinct(infos) {
      TracksAll(infos, resolve);
    }
  }

  lemma NoneLandsNowhere(infos: seq<RequestInfo>, resolve: map<ReqId, Addr>)
    ensures EachResolves(infos, resolve) <==> forall info <- infos :: !LandsAt(0, info, resolve)
  {
  }

  method DescribeEach(infos: seq<RequestInfo>, own: bool, resolve: map<ReqId, Addr>)
    returns (ok: bool, reqs: map<ReqId, ReqTracker>, resolved: map<ReqId, RequestInfo>)
    ensures ok <==> own || EachResolves(infos, resolve)
    ensures ok ==> reqs == NewReqs(ById(infos), resolve)
    ensures ok ==> resolved == Resolved(ById(infos), resolve)
  {
    reqs, resolved := map[], map[];
    var i := 0;
    while i < |infos|
      invariant 0 <= i <= |infos|
      invariant reqs == NewReqs(ById(infos[..i]), resolve)
      invariant resolved == Resolved(ById(infos[..i]), resolve)
      invariant own || EachResolves(infos[..i], resolve)
    {
      var addr := Resolve(infos[i], resolve);
      if !own && addr == 0 {
        assert infos[i] in infos;
        return false, reqs, resolved;
      }
      DescribeStep(infos, i, resolve);
      reqs := reqs[infos[i].reqid := ReqTracker(NewChunks(infos[i].nchunks), addr, infos[i].meta)];
      resolved := resolved[infos[i].reqid := infos[i].(raddr := addr)];
      i := i + 1;
    }
    assert infos[..|infos|] == infos;
    return true, reqs, resolved;
  }

  /** An existing entry keeps only the post's metadata. */
  function Cleared<K>(t: map<K, PostTracker>, k: K, meta: Metadata): map<K, PostTracker> {
    if k in t then t[k := t[k].(meta := meta, pending := 0)] else t
  }

  // --- The class ------------------------------------------------------------------------

  method PostComplete(pt: PostTracker) returns (r: bool)
    ensures r <==> IsComplete(pt)
  {
    if pt.reqs == map[] {
      return false;
    }
    var left := pt.reqs.Keys;
    while left != {}
      invariant left <= pt.reqs.Keys
      invariant forall q <- pt.reqs :: q in left || Full(pt.reqs[q].chunks)
      decreases |left|
    {
      var q :| q in left;
      if !Full(pt.reqs[q].chunks) {
        return false;
      }
      left := left - {q};
    }
    return true;
  }

  /** The null address callback answers `resolve`; the calls an operation makes after dropping the lock are returned. */
  class RequestTracker<K(==)> {
    var trackers: map<K, PostTracker>

    constructor ()
      ensures trackers == map[]
    {
      trackers := map[];
    }

    method Check(k: K) returns (s: Status)
      ensures s == Trackers.Check(trackers, k)
    {
      if k !in trackers {
        return NotFound;
      }
      var done := PostComplete(trackers[k]);
      return if done then Success else InProgress;
    }

    /** Registers a locally initiated post; false if the handle is taken. */
    method AddPost(k: K, onDone: OnDone) returns (inserted: bool)
      modifies this
      ensures inserted == (k !in old(trackers))
      ensures trackers == AddHandle(old(trackers), k, onDone)
    {
      if k in trackers {
        return false;
      }
      trackers := trackers[k := PostTracker(map[], 0, [], onDone, true)];
      return true;
    }

    /** A batch with an address that does not resolve leaves no request behind. */
    method Add(k: K, infos: seq<RequestInfo>, meta: Metadata, resolve: map<ReqId, Addr>) returns (ok: bool, call: Call)
      requires |infos| >= 1
      modifies this
      ensures ok <==> Populated(old(trackers), k) || (k in old(trackers) && old(trackers)[k].initiator)
                      || EachResolves(infos, resolve)
      ensures ok ==> trackers == AddReqs(old(trackers), k, ById(infos), |infos|, infos[0].op, meta, resolve)
      ensures ok ==> call == AddCall(old(trackers), k, ById(infos), infos[0].op, resolve)
      ensures !ok ==> call == NoCall && trackers == Cleared(old(trackers), k, meta)
      ensures ok && Distinct(infos) && !Populated(old(trackers), k) ==>
        && k in trackers && trackers[k].meta == meta && Tracks(trackers[k].reqs, infos, resolve)
        && (call.RecvRead? ==> Forwards(call.resolved, infos, resolve))
    {
      var inserted := k !in trackers;
      var pt := if inserted then RECEIVED else trackers[k];
      if pt.reqs != map[] {
        return true, NoCall;
      }
      var serve := infos[0].op.Read? && !pt.initiator;
      var reqs, resolved;
      ok, reqs, resolved := Describe(infos, pt.initiator, resolve);
      if !ok {
        if !inserted {
          trackers := trackers[k := pt.(meta := meta, pending := 0)];
        }
        return false, NoCall;
      }
      NotRejected(infos, resolve);
      trackers := trackers[k := pt.(meta := meta, reqs := reqs, pending := if serve then 1 else |infos|)];
      return true, if serve then RecvRead(resolved) else NoCall;
    }

    method Remove(k: K)
      modifies this
      ensures trackers == Trackers.Remove(old(trackers), k)
    {
      trackers := trackers - {k};
    }

    method OnReqComplete(k: K) returns (call: Call)
      modifies this
      ensures trackers == ReqComplete(old(trackers), k)
      ensures call == ReqCompleteCall(old(trackers), k)
    {
      if k !in trackers {
        return NoCall;
      }
      var pt := trackers[k].(pending := trackers[k].pending - 1);
      trackers := trackers[k := pt];
      if pt.pending != 0 {
        return NoCall;
      }
      if pt.initiator {
        if pt.onDone.Silent? {
          return NoCall;
        }
        trackers := trackers - {k};
        return OnComplete(pt.onDone);
      }
      return RecvPost(pt.meta, map r | r in pt.reqs :: pt.reqs[r].meta);
    }

    /** `aborted`: the entry has no request `r`, and at() throws. */
    method Update(k: K, r: ReqId, i: nat) returns (aborted: bool, call: Call)
      modifies this
      ensures aborted <==> k in old(trackers) && r !in old(trackers)[k].reqs
      ensures aborted ==> trackers == old(trackers)
      ensures !aborted ==> trackers == Acked(old(trackers), k, r, i) && call == AckedCall(old(trackers), k, r, i)
    {
      if k !in trackers {
        return false, NoCall;
      }
      if r !in trackers[k].reqs {
        return true, NoCall;
      }
      trackers := WithChunks(trackers, k, r, SetDone(trackers[k].reqs[r].chunks, i));
      if !Full(trackers[k].reqs[r].chunks) {
        return false, NoCall;
      }
      var done := PostComplete(trackers[k]);
      var onDone := trackers[k].onDone;
      if !done || onDone.Silent? {
        return false, NoCall;
      }
      trackers := trackers - {k};
      return false, OnComplete(onDone);
    }

    method GetChunkAddr(k: K, r: ReqId, offset: nat) returns (addr: Addr)
      ensures addr == ChunkAddr(trackers, k, r, offset)
    {
      if k !in trackers {
        return 0;
      }
      if r !in trackers[k].reqs {
        return 0;
      }
      var base := trackers[k].reqs[r].raddr;
      return if base == 0 then 0 else base + offset;
    }
  }

  // --- Any order of acknowledgements --------------------------------------------------------

  datatype Ack<K> = Ack(k: K, r: ReqId, i: nat)

  /** Every acknowledgement finds its request, or no entry at all. */
  predicate Found<K>(t: map<K, PostTracker>, acks: seq<Ack<K>>) {
    forall a <- acks :: a.k in t ==> a.r in t[a.k].reqs
  }

  function Updated<K>(t: map<K, PostTracker>, acks: seq<Ack<K>>): (t': map<K, PostTracker>)
    requires Found(t, acks)
    ensures forall k <- t' :: k in t && t'[k].reqs.Keys == t[k].reqs.Keys && t'[k].onDone == t[k].onDone
    decreases |acks|
  {
    if acks == [] then t
    else
      var a := acks[0];
      assert a in acks;
      var u := Acked(t, a.k, a.r, a.i);
      assert forall k <- u :: k in t && u[k].reqs.Keys == t[k].reqs.Keys && u[k].onDone == t[k].onDone;
      assert forall b <- acks[1..] :: b in acks;
      Updated(u, acks[1..])
  }

  /** How often on_complete of `k` runs. */
  function Completions<K(==)>(t: map<K, PostTracker>, acks: seq<Ack<K>>, k: K): nat
    requires Found(t, acks)
    decreases |acks|
  {
    if acks == [] then 0
    else
      var a := acks[0];
      assert a in acks;
      var u := Acked(t, a.k, a.r, a.i);
      assert forall b <- acks[1..] :: b in acks;
      (if a.k == k && AckedCall(t, a.k, a.r, a.i).OnComplete? then 1 else 0) + Completions(u, acks[1..], k)
  }

  /** Every chunk of the post was done or is acknowledged, in whatever order. */
  ghost predicate Covered<K(!new)>(pt: PostTracker, k: K, acks: seq<Ack<K>>) {
    && pt.reqs != map[]
    && forall r, i :: r in pt.reqs && 0 <= i < pt.reqs[r].chunks.total ==>
         i in pt.reqs[r].chunks.done || Ack(k, r, i) in acks
  }

  lemma CoveredNone<K(!new)>(pt: PostTracker, k: K)
    ensures Covered(pt, k, []) <==> IsComplete(pt)
  {
    if Covered(pt, k, []) {
      forall r | r in pt.reqs ensures Full(pt.reqs[r].chunks) {
        assert forall i :: 0 <= i < pt.reqs[r].chunks.total ==> Ack(k, r, i) !in [];
      }
    }
  }

  lemma CoveredStep<K(!new)>(pt: PostTracker, k: K, r: ReqId, i: nat, acks: seq<Ack<K>>)
    requires r in pt.reqs && acks != [] && acks[0] == Ack(k, r, i)
    ensures Covered(pt.(reqs := pt.reqs[r := pt.reqs[r].(chunks := SetDone(pt.reqs[r].chunks, i))]), k, acks[1..])
            <==> Covered(pt, k, acks)
  {
    var pt' := pt.(reqs := pt.reqs[r := pt.reqs[r].(chunks := SetDone(pt.reqs[r].chunks, i))]);
    assert acks == [acks[0]] + acks[1..];
    assert r in pt'.reqs;
    forall q, j | q in pt.reqs && 0 <= j < pt.reqs[q].chunks.total
      ensures (j in pt.reqs[q].chunks.done || Ack(k, q, j) in acks)
              <==> (j in pt'.reqs[q].chunks.done || Ack(k, q, j) in acks[1..])
    {
    }
  }

  lemma CoveredOther<K(!new)>(pt: PostTracker, k: K, acks: seq<Ack<K>>)
    requires acks != [] && acks[0].k != k
    ensures Covered(pt, k, acks[1..]) <==> Covered(pt, k, acks)
  {
    assert acks == [acks[0]] + acks[1..];
  }

  lemma CoveredMore<K(!new)>(pt: PostTracker, k: K, acks: seq<Ack<K>>)
    requires IsComplete(pt)
    ensures Covered(pt, k, acks)
  {
  }

  lemma {:induction false} GoneStaysGone<K(!new)>(t: map<K, PostTracker>, acks: seq<Ack<K>>, k: K)
    requires Found(t, acks) && k !in t
    ensures k !in Updated(t, acks) && Completions(t, acks, k) == 0
    decreases |acks|
  {
    if acks != [] {
      var a := acks[0];
      assert a in acks;
      assert forall b <- acks[1..] :: b in acks;
      GoneStaysGone(Acked(t, a.k, a.r, a.i), acks[1..], k);
    }
  }

  /**
    * With a callback: it runs once if the acknowledgements cover the post and never
    * otherwise, duplicates included, and when it has run the entry is gone.
    */
  lemma {:induction false} CallbackExactly<K(!new)>(t: map<K, PostTracker>, acks: seq<Ack<K>>, k: K)
    requires Found(t, acks) && k in t && !t[k].onDone.Silent? && !IsComplete(t[k])
    ensures Completions(t, acks, k) == if Covered(t[k], k, acks) then 1 else 0
    ensures k in Updated(t, acks) <==> !Covered(t[k], k, acks)
    decreases |acks|
  {
    if acks == [] {
      CoveredNone(t[k], k);
    } else {
      var a := acks[0];
      assert a in acks;
      assert forall b <- acks[1..] :: b in acks;
      var u := Acked(t, a.k, a.r, a.i);
      if a.k != k {
        CoveredOther(t[k], k, acks);
        CallbackExactly(u, acks[1..], k);
      } else {
        CoveredStep(t[k], k, a.r, a.i, acks);
        var pt := WithChunks(t, k, a.r, SetDone(t[k].reqs[a.r].chunks, a.i))[k];
        if IsComplete(pt) {
          CoveredMore(pt, k, acks[1..]);
          GoneStaysGone(u, acks[1..], k);
        } else {
          CallbackExactly(u, acks[1..], k);
        }
      }
    }
  }

  /** Without a callback: the status is success iff the acknowledgements cover the post, so it never goes back. */
  lemma {:induction false} StatusExactly<K(!new)>(t: map<K, PostTracker>, acks: seq<Ack<K>>, k: K)
    requires Found(t, acks) && k in t && t[k].onDone.Silent?
    ensures Check(Updated(t, acks), k) == if Covered(t[k], k, acks) then Success else InProgress
    ensures Completions(t, acks, k) == 0
    decreases |acks|
  {
    if acks == [] {
      CoveredNone(t[k], k);
    } else {
      var a := acks[0];
      assert a in acks;
      assert forall b <- acks[1..] :: b in acks;
      if a.k != k {
        CoveredOther(t[k], k, acks);
      } else {
        CoveredStep(t[k], k, a.r, a.i, acks);
      }
      StatusExactly(Acked(t, a.k, a.r, a.i), acks[1..], k);
    }
  }

  /** Success is kept by further acknowledgements, and the order of acknowledgements is irrelevant. */
  lemma SuccessStays<K(!new)>(t: map<K, PostTracker>, acks: seq<Ack<K>>, more: seq<Ack<K>>, k: K)
    requires Found(t, acks) && Found(t, more) && k in t && t[k].onDone.Silent?
    requires forall a <- acks :: a in more
    ensures Check(Updated(t, acks), k).Success? ==> Check(Updated(t, more), k).Success?
    ensures (forall a <- more :: a in acks) ==> Check(Updated(t, acks), k) == Check(Updated(t, more), k)
  {
    StatusExactly(t, acks, k);
    StatusExactly(t, more, k);
    if forall a <- more :: a in acks {
      assert forall a :: a in acks <==> a in more;
    }
  }

  // --- What the post callback is given ---------------------------------------------------------

  /** Any operation on the table: of this class, or of a chunk tracker in it. */
  datatype Operation<K> =
    | Complete(k: K)
    | Acknowledge(k: K, r: ReqId, i: nat)
    | SetChunks(k: K, r: ReqId, c: Chunks)
    | AddOwn(k: K, onDone: OnDone)
    | AddInfos(k: K, infos: seq<RequestInfo>, meta: Metadata, resolve: map<ReqId, Addr>)
    | Erase(k: K)

  function Operate<K>(t: map<K, PostTracker>, op: Operation<K>): map<K, PostTracker> {
    match op
    case Complete(k) => ReqComplete(t, k)
    case Acknowledge(k, r, i) => if k in t && r !in t[k].reqs then t else Acked(t, k, r, i)
    case SetChunks(k, r, c) => if k in t && r in t[k].reqs then WithChunks(t, k, r, c) else t
    case AddOwn(k, onDone) => AddHandle(t, k, onDone)
    case AddInfos(k, infos, meta, resolve) =>
      if infos == [] then t else AddReqs(t, k, ById(infos), |infos|, infos[0].op, meta, resolve)
    case Erase(k) => Remove(t, k)
  }

  function OperateAll<K>(t: map<K, PostTracker>, ops: seq<Operation<K>>): map<K, PostTracker> {
    if ops == [] then t else Operate(OperateAll(t, ops[..|ops| - 1]), ops[|ops| - 1])
  }

  /** The entry was made from these descriptors, by a remote post with this metadata. */
  ghost predicate MadeFrom(pt: PostTracker, infos: seq<RequestInfo>, meta: Metadata) {
    && !pt.initiator && pt.onDone.Silent? && pt.meta == meta && pt.reqs != map[]
    && (forall info <- infos :: info.reqid in pt.reqs && pt.reqs[info.reqid].meta == info.meta)
    && (forall r <- pt.reqs :: exists info <- infos :: info.reqid == r)
  }

  lemma OperateKeeps<K(!new)>(t: map<K, PostTracker>, op: Operation<K>, k: K, infos: seq<RequestInfo>, meta: Metadata)
    requires k in t && MadeFrom(t[k], infos, meta) && op != Erase(k)
    ensures k in Operate(t, op) && MadeFrom(Operate(t, op)[k], infos, meta)
  {
  }

  lemma {:induction false} OperationsKeep<K(!new)>(t: map<K, PostTracker>, ops: seq<Operation<K>>, k: K,
                                                   infos: seq<RequestInfo>, meta: Metadata)
    requires k in t && MadeFrom(t[k], infos, meta) && Erase(k) !in ops
    ensures k in OperateAll(t, ops) && MadeFrom(OperateAll(t, ops)[k], infos, meta)
  {
    if ops != [] {
      OperationsKeep(t, ops[..|ops| - 1], k, infos, meta);
      OperateKeeps(OperateAll(t, ops[..|ops| - 1]), ops[|ops| - 1], k, infos, meta);
    }
  }

  lemma AddedFrom<K(!new)>(t: map<K, PostTracker>, k: K, infos: seq<RequestInfo>, meta: Metadata,
                           resolve: map<ReqId, Addr>)
    requires k !in t && infos != [] && Distinct(infos) && EachResolves(infos, resolve)
    ensures var t' := Operate(t, AddInfos(k, infos, meta, resolve)); k in t' && MadeFrom(t'[k], infos, meta)
  {
    var m := ById(infos);
    ByIdKeeps(infos);
    ByIdHas(infos);
    assert infos[0].reqid in NewReqs(m, resolve);
    forall r | r in m ensures exists info <- infos :: info.reqid == r {
      assert m[r] in infos;
    }
  }

  /**
    * Whatever happens to the tables between the Add of a remote post and the OnReqComplete
    * that takes its count to zero, the post callback gets the metadata of the post and, for
    * each request, that of its descriptor.
    */
  lemma CallbackGetsMetadata<K(!new)>(t: map<K, PostTracker>, k: K, infos: seq<RequestInfo>, meta: Metadata,
                                      resolve: map<ReqId, Addr>, ops: seq<Operation<K>>)
    requires k !in t && infos != [] && Distinct(infos) && EachResolves(infos, resolve) && Erase(k) !in ops
    ensures var u := OperateAll(Operate(t, AddInfos(k, infos, meta, resolve)), ops);
      var call := ReqCompleteCall(u, k);
      && k in u && (u[k].pending == 1 <==> call.RecvPost?)
      && (call.RecvPost? ==>
            && call.meta == meta && (forall info <- infos :: info.reqid in call.reqMetas)
            && (forall info <- infos :: call.reqMetas[info.reqid] == info.meta)
            && (forall r <- call.reqMetas :: exists info <- infos :: info.reqid == r))
  {
    AddedFrom(t, k, infos, meta, resolve);
    OperationsKeep(Operate(t, AddInfos(k, infos, meta, resolve)), ops, k, infos, meta);
  }
}
