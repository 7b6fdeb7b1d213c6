/**
  * Abstract values of ChunkTracker and RequestTracker and the effect of each of
  * their operations. The classes in ChunkTracker.dfy and RequestTracker.dfy are
  * proved against these functions, and the protocol in Protocol.dfy takes its
  * steps with them.
  */
module Trackers {
  type Handle = nat
  type ReqId = nat
  type Addr = nat
  type Metadata = seq<nat>

  datatype Op = Read | Write

  // --- ChunkTracker -----------------------------------------------------------

  datatype ChunkStatus = Empty | Busy | Done

  /** `done` is the bitset, `busy` the hash set of chunks being written. */
  datatype Chunks = Chunks(total: nat, done: set<nat>, busy: set<nat>)

  ghost predicate ValidChunks(c: Chunks) {
    && c.done !! c.busy
    && (forall i <- c.done :: i < c.total)
    && (forall i <- c.busy :: i < c.total)
  }

  predicate Full(c: Chunks) { forall i :: 0 <= i < c.total ==> i in c.done }

  function NewChunks(total: nat): Chunks { Chunks(total, {}, {}) }

  function SetDone(c: Chunks, i: nat): Chunks { c.(done := c.done + {i}) }

  function StatusOf(c: Chunks, i: nat): ChunkStatus {
    if i in c.done then Done else if i in c.busy then Busy else Empty
  }

  function Acquire(c: Chunks, i: nat): Chunks {
    if StatusOf(c, i).Empty? then c.(busy := c.busy + {i}) else c
  }

  function Release(c: Chunks, i: nat, success: bool): Chunks {
    if success then Chunks(c.total, c.done + {i}, c.busy - {i}) else c.(busy := c.busy - {i})
  }

  // --- RequestTracker ---------------------------------------------------------

  datatype RequestInfo = RequestInfo(reqid: ReqId, nchunks: nat, raddr: Addr, totalLen: nat, op: Op, meta: Metadata)

  datatype ReqTracker = ReqTracker(chunks: Chunks, raddr: Addr, meta: Metadata)

  /** on_complete: unset, the application's, or the one that relays a served read to `peer`'s entry. */
  datatype OnDone = Silent | Notify | Relay(peer: nat)

  datatype PostTracker = PostTracker(reqs: map<ReqId, ReqTracker>, pending: int, meta: Metadata,
                                     onDone: OnDone, initiator: bool)

  datatype Status = NotFound | InProgress | Success

  /** What an operation runs once it has dropped the lock. */
  datatype Call =
    | NoCall
    | OnComplete(to: OnDone)
    | RecvPost(meta: Metadata, reqMetas: map<ReqId, Metadata>)
    | RecvRead(resolved: map<ReqId, RequestInfo>)

  predicate IsComplete(pt: PostTracker) {
    pt.reqs != map[] && forall r <- pt.reqs :: Full(pt.reqs[r].chunks)
  }

  function Check<K>(t: map<K, PostTracker>, k: K): Status {
    if k !in t then NotFound else if IsComplete(t[k]) then Success else InProgress
  }

  const RECEIVED := PostTracker(map[], 0, [], Silent, false)

  /** Add(handle, start, on_complete, ctx): registers a locally initiated post. */
  function AddHandle<K>(t: map<K, PostTracker>, k: K, onDone: OnDone): map<K, PostTracker> {
    if k in t then t else t[k := PostTracker(map[], 0, [], onDone, true)]
  }

  /** The address a request lands at: its own, or what the resolve callback answers for a null one. */
  function Resolve(info: RequestInfo, resolve: map<ReqId, Addr>): Addr {
    if info.raddr == 0 && info.reqid in resolve then resolve[info.reqid] else info.raddr
  }

  function NewReq(info: RequestInfo, resolve: map<ReqId, Addr>): ReqTracker {
    ReqTracker(NewChunks(info.nchunks), Resolve(info, resolve), info.meta)
  }

  function NewReqs(infos: map<ReqId, RequestInfo>, resolve: map<ReqId, Addr>): map<ReqId, ReqTracker> {
    map r | r in infos :: NewReq(infos[r], resolve)
  }

  /** The descriptors with the addresses they land at. */
  function Resolved(infos: map<ReqId, RequestInfo>, resolve: map<ReqId, Addr>): map<ReqId, RequestInfo> {
    map r | r in infos :: infos[r].(raddr := Resolve(infos[r], resolve))
  }

  predicate AllResolve(infos: map<ReqId, RequestInfo>, resolve: map<ReqId, Addr>) {
    forall r <- infos :: Resolve(infos[r], resolve) != 0
  }

  /** Whether an Add of `infos` at `k` finds the descriptors already there. */
  predicate Populated<K>(t: map<K, PostTracker>, k: K) { k in t && t[k].reqs != map[] }

  /** Whether an Add of `infos` at `k` fails on an unresolved address. */
  predicate Rejects<K>(t: map<K, PostTracker>, k: K, infos: map<ReqId, RequestInfo>, resolve: map<ReqId, Addr>) {
    !Populated(t, k) && !(k in t && t[k].initiator) && !AllResolve(infos, resolve)
  }

  /** Add(handle, reqs, ...) for `n` descriptors of operation `op`. */
  function AddReqs<K>(t: map<K, PostTracker>, k: K, infos: map<ReqId, RequestInfo>, n: nat, op: Op,
                      meta: Metadata, resolve: map<ReqId, Addr>): map<K, PostTracker>
  {
    if Populated(t, k) then t
    else
      var pt := if k in t then t[k] else RECEIVED;
      if Rejects(t, k, infos, resolve) then
        if k in t then t[k := pt.(meta := meta, pending := 0)] else t
      else
        t[k := pt.(reqs := NewReqs(infos, resolve), meta := meta,
                   pending := if op.Read? && !pt.initiator then 1 else n)]
  }

  /** The responder is asked to serve a read only by the Add that registers it. */
  function AddCall<K>(t: map<K, PostTracker>, k: K, infos: map<ReqId, RequestInfo>, op: Op,
                      resolve: map<ReqId, Addr>): Call
  {
    if Populated(t, k) || Rejects(t, k, infos, resolve) || op.Write? || (k in t && t[k].initiator) then NoCall
    else RecvRead(Resolved(infos, resolve))
  }

  function Remove<K>(t: map<K, PostTracker>, k: K): map<K, PostTracker> { t - {k} }

  /** OnReqComplete: one more request of the batch has all its chunks. */
  function ReqComplete<K>(t: map<K, PostTracker>, k: K): map<K, PostTracker> {
    if k !in t then t
    else
      var pt := t[k].(pending := t[k].pending - 1);
      if pt.pending == 0 && pt.initiator && !pt.onDone.Silent? then t - {k} else t[k := pt]
  }

  function ReqCompleteCall<K>(t: map<K, PostTracker>, k: K): Call {
    if k !in t || t[k].pending != 1 then NoCall
    else if t[k].initiator then if t[k].onDone.Silent? then NoCall else OnComplete(t[k].onDone)
    else RecvPost(t[k].meta, map r | r in t[k].reqs :: t[k].reqs[r].meta)
  }

  function WithChunks<K>(t: map<K, PostTracker>, k: K, r: ReqId, c: Chunks): map<K, PostTracker>
    requires k in t && r in t[k].reqs
  {
    t[k := t[k].(reqs := t[k].reqs[r := t[k].reqs[r].(chunks := c)])]
  }

  /** Update: the acknowledgement of chunk `i` of request `r` arrived. */
  function Acked<K>(t: map<K, PostTracker>, k: K, r: ReqId, i: nat): map<K, PostTracker>
    requires k in t ==> r in t[k].reqs
  {
    if k !in t then t
    else
      var t' := WithChunks(t, k, r, SetDone(t[k].reqs[r].chunks, i));
      if IsComplete(t'[k]) && !t[k].onDone.Silent? then t - {k} else t'
  }

  function AckedCall<K>(t: map<K, PostTracker>, k: K, r: ReqId, i: nat): Call
    requires k in t ==> r in t[k].reqs
  {
    if k in t && !t[k].onDone.Silent? && IsComplete(WithChunks(t, k, r, SetDone(t[k].reqs[r].chunks, i))[k])
    then OnComplete(t[k].onDone) else NoCall
  }

  /** GetChunkAddr, with the null pointer as 0. */
  function ChunkAddr<K>(t: map<K, PostTracker>, k: K, r: ReqId, offset: nat): Addr {
    if k !in t || r !in t[k].reqs || t[k].reqs[r].raddr == 0 then 0 else t[k].reqs[r].raddr + offset
  }
}
