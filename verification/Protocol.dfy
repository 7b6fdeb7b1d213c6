/**
  * The chunked transfer protocol as a transition system over any number of hosts,
  * worker threads, channels and posts.
  *
  * The network is the set of all frames ever written: a receive step takes any of
  * them, any number of times, so failed stream channels and lossy, duplicating,
  * reordering message channels are all covered. Each step is one critical section
  * of the code or one byte stored by a channel read, so any two threads interleave
  * between any two of these.
  */
module Protocol {
  import opened Options
  import opened Trackers
  import opened Layout

  type Byte = bv8

  /** A host is named by its control endpoint; 0 is the empty endpoint. */
  type Host = nat
  const NOBODY: Host := 0

  datatype Loc = Loc(host: Host, addr: Addr)
  datatype Key = Key(peer: Host, handle: Handle)
  /** A tracker entry: the table of `host`, at `key`. */
  datatype Place = Place(host: Host, key: Key)
  type Table = map<Place, PostTracker>
  /** A post: the host that initiated it and the handle it gave it. Two hosts may use one handle. */
  datatype PostId = PostId(owner: Host, handle: Handle)
  /** A request, and a chunk of it. */
  datatype Id = Id(h: PostId, r: ReqId)
  datatype ChunkId = ChunkId(id: Id, i: nat)

  /** On the wire a data or acknowledgement frame names its handle and its request only. */
  datatype Frame =
    | InfoFrame(src: Host, dst: Host, h: PostId, op: Op, infos: map<ReqId, RequestInfo>, meta: Metadata)
    | DataFrame(src: Host, dst: Host, id: Id, i: nat, offset: nat, payload: seq<Byte>)
    | AckFrame(dst: Host, id: Id, i: nat)

  datatype Post = Post(op: Op, initiator: Host, target: Host)

  /** Anything but a read from oneself. */
  predicate Proper(p: Post) { p.op.Write? || p.initiator != p.target }

  /** Where the bytes of a request come from and go to, as far as the two ends know, and its chunk boundaries. */
  datatype Route = Route(src: Option<Loc>, dst: Option<Loc>, cuts: seq<nat>)

  /**
    * Why a worker owes an OnReqComplete: it finished a request where its post receives, it
    * finished one in the responder's entry, or the peer has acknowledged a served read.
    */
  datatype Reason = Finished(id: Id) | Echoed(id: Id) | Served(h: PostId)

  /** One request of a post, as the application states it, and the number of chunks the engine chose. */
  datatype Request = Request(laddr: Addr, raddr: Addr, len: nat, nchunks: nat, meta: Metadata)

  predicate ValidRequest(q: Request) { q.laddr != 0 && 1 <= q.nchunks <= q.len }

  /** A buffer to be cut and sent, and all those of a post, from one host to another. */
  datatype Job = Job(addr: Addr, len: nat, nchunks: nat)
  datatype Load = Load(from: Host, to: Host, jobs: map<ReqId, Job>)

  predicate ValidJob(job: Job) { 1 <= job.nchunks <= job.len }

  /** A read to be served by `host`, with the descriptors it received and resolved. */
  datatype Batch = Batch(host: Host, infos: map<ReqId, RequestInfo>)

  datatype Worker = Worker(host: Host, n: nat)

  /** What a receive thread is in the middle of. */
  datatype Rx =
    | Idle
    | Located(place: Place, f: Frame, base: Addr)
    | Found(place: Place, f: Frame, base: Addr)
    | Writing(place: Place, f: Frame, base: Addr, k: nat)
    | Completing(place: Place, why: Reason, ack: Option<Frame>)
    | Acking(frame: Frame)
    | Responding(place: Place, infos: map<ReqId, RequestInfo>)

  datatype State = State(
    mem: map<Loc, Byte>,
    posts: map<PostId, Post>,
    routes: map<Id, Route>,
    out: Table,                   // outgoing_ of every host
    inc: Table,                   // incoming_ of every host
    rx: map<Worker, Rx>,
    net: set<Frame>,
    sending: map<PostId, Load>,   // posts whose chunks the engine has handed to its send workers
    queued: map<PostId, Batch>,   // reads turned into a write post, waiting for the responder's main loop
    // History.
    asked: map<Id, Request>,      // the requests as the application stated them
    registered: set<PostId>,      // posts whose PostInfo the target has accepted
    delivered: set<ChunkId>,      // chunks a Release marked DONE where their post receives
    written: set<ChunkId>,        // chunks a Release marked DONE in any entry
    counted: set<Id>,             // requests whose OnReqComplete has run
    reported: set<PostId>,        // posts whose success the application has been told
    freed: set<PostId>,           // posts whose buffers the application may use again
    served: multiset<PostId>,     // RecvRead calls
    postCalls: multiset<PostId>,  // RecvPost calls
    doneCalls: multiset<PostId>)  // OnComplete calls of application posts

  // --- Reading the state ------------------------------------------------------

  function Get(mem: map<Loc, Byte>, l: Loc): Byte { if l in mem then mem[l] else 0 }

  function At(l: Loc, j: nat): Loc { Loc(l.host, l.addr + j) }

  function Bytes(mem: map<Loc, Byte>, l: Loc, lo: nat, hi: nat): (s: seq<Byte>)
    requires lo <= hi
    ensures |s| == hi - lo
  {
    seq(hi - lo, k requires 0 <= k < hi - lo => Get(mem, At(l, lo + k)))
  }

  function Len(route: Route): nat { if route.cuts == [] then 0 else route.cuts[|route.cuts| - 1] }

  function DataSender(p: Post): Host { if p.op.Write? then p.initiator else p.target }
  function DataReceiver(p: Post): Host { if p.op.Write? then p.target else p.initiator }

  /** The outgoing entry acknowledgements are counted in. */
  function SendPlace(p: Post, h: PostId): Place { Place(DataSender(p), Key(NOBODY, h.handle)) }

  /** The entry at the target, filled by the PostInfo. */
  function TargetPlace(p: Post, h: PostId): Place { Place(p.target, Key(p.initiator, h.handle)) }

  /** The entry at the initiator, in outgoing for writes and in incoming for reads. */
  function HomePlace(p: Post, h: PostId): Place { Place(p.initiator, Key(NOBODY, h.handle)) }

  /** The incoming entry arriving data belongs in. */
  function RecvPlace(p: Post, h: PostId): Place {
    if p.op.Write? then TargetPlace(p, h) else HomePlace(p, h)
  }

  /** The post an incoming entry is of. */
  function IncPost(k: Place): PostId {
    PostId(if k.key.peer == NOBODY then k.host else k.key.peer, k.key.handle)
  }

  /** The post an outgoing entry is of: a served read is known by its callback. */
  function OutPost(k: Place, pt: PostTracker): PostId {
    PostId(if pt.onDone.Relay? then pt.onDone.peer else k.host, k.key.handle)
  }

  /** `l` is one of the `n` bytes from `base`. */
  predicate Within(l: Loc, base: Option<Loc>, n: nat) {
    base.Some? && l.host == base.value.host && base.value.addr <= l.addr < base.value.addr + n
  }

  /** The `n` bytes from `a` and the `m` bytes from `b` have no byte in common. */
  predicate Apart(a: Option<Loc>, n: nat, b: Option<Loc>, m: nat) {
    a.Some? && b.Some? && a.value.host == b.value.host ==>
      a.value.addr + n <= b.value.addr || b.value.addr + m <= a.value.addr
  }

  /** Nothing is written over the destination or the source of another request. */
  predicate NoClash(a: Route, b: Route) {
    && Apart(a.dst, Len(a), b.dst, Len(b))
    && Apart(a.dst, Len(a), b.src, Len(b))
    && Apart(b.dst, Len(b), a.src, Len(a))
  }

  /**
    * What the application owes: the requests of posts whose buffers are not free again do
    * not clash, and none overwrites its own source.
    */
  predicate Separate(routes: map<Id, Route>, freed: set<PostId>) {
    && (forall x, y :: x in routes && y in routes && x.h !in freed && y.h !in freed && x != y ==>
          NoClash(routes[x], routes[y]))
    && (forall x <- routes :: x.h !in freed ==> Apart(routes[x].dst, Len(routes[x]), routes[x].src, Len(routes[x])))
  }

  /** No post whose buffers are not free again reads from or writes to `l`. */
  predicate Untouched(routes: map<Id, Route>, freed: set<PostId>, l: Loc) {
    forall x <- routes :: x.h !in freed ==>
      !Within(l, routes[x].src, Len(routes[x])) && !Within(l, routes[x].dst, Len(routes[x]))
  }

  /**
    * Telling the application of success frees the buffers, but for a read from oneself:
    * a late copy of its data may still be stored over its source.
    */
  function Report(s: State, h: PostId): State {
    s.(reported := s.reported + {h},
       freed := if h in s.posts && Proper(s.posts[h]) then s.freed + {h} else s.freed)
  }

  // --- Steps ------------------------------------------------------------------

  datatype Step =
    | Enqueue(h: PostId, post: Post, callback: bool)
    | Process(h: PostId, reqs: map<ReqId, Request>, meta: Metadata)
    | RecvInfo(w: Worker, f: Frame, resolve: map<ReqId, Addr>)
    | Respond(w: Worker)
    | ProcessRead(h: PostId)
    | SendChunk(id: Id, i: nat)
    | RecvData(w: Worker, f: Frame, peer: Host)
    | FindChunk(w: Worker)
    | AcquireChunk(w: Worker)
    | StoreByte(w: Worker)
    | ReleaseChunk(w: Worker, success: bool)
    | CompleteReq(w: Worker)
    | SendAck(w: Worker, ok: bool)
    | RecvAck(w: Worker, f: Frame)
    | Poll(h: PostId)
    | AppStore(l: Loc, v: Byte)

  /** The descriptors the initiator registers: a read lands at its own laddr. */
  function LocalInfos(op: Op, reqs: map<ReqId, Request>): map<ReqId, RequestInfo> {
    map r | r in reqs :: RequestInfo(r, reqs[r].nchunks, if op.Write? then reqs[r].raddr else reqs[r].laddr,
                                     reqs[r].len, op, reqs[r].meta)
  }

  /** The descriptors it sends. */
  function WireInfos(op: Op, reqs: map<ReqId, Request>): map<ReqId, RequestInfo> {
    map r | r in reqs :: RequestInfo(r, reqs[r].nchunks, reqs[r].raddr, reqs[r].len, op, reqs[r].meta)
  }

  function LocalRoute(p: Post, q: Request): Route
    requires ValidRequest(q)
  {
    var here := Some(Loc(p.initiator, q.laddr));
    Route(if p.op.Write? then here else None, if p.op.Write? then None else here, Cuts(q.len, q.nchunks))
  }

  function NewRoutes(p: Post, h: PostId, reqs: map<ReqId, Request>): map<Id, Route>
    requires forall r <- reqs :: ValidRequest(reqs[r])
  {
    map x | x in (set r | r in reqs :: Id(h, r)) && x.r in reqs :: LocalRoute(p, reqs[x.r])
  }

  function Asked(h: PostId, reqs: map<ReqId, Request>): map<Id, Request> {
    map x | x in (set r | r in reqs :: Id(h, r)) && x.r in reqs :: reqs[x.r]
  }

  /** The target side of a route becomes known when the PostInfo is accepted. */
  function BindRoute(p: Post, route: Route, a: Addr): Route {
    if p.op.Write? then route.(dst := Some(Loc(p.target, a))) else route.(src := Some(Loc(p.target, a)))
  }

  function BindRoutes(s: State, f: Frame, resolve: map<ReqId, Addr>): map<Id, Route>
    requires f.InfoFrame? && f.h in s.posts
  {
    map x | x in s.routes ::
      if x.h == f.h && x.r in f.infos
      then BindRoute(s.posts[f.h], s.routes[x], Resolve(f.infos[x.r], resolve))
      else s.routes[x]
  }

  function InfoPlace(f: Frame): Place
    requires f.InfoFrame?
  {
    Place(f.dst, Key(f.src, f.h.handle))
  }

  /** Whether this PostInfo registers its post. */
  predicate Registers(s: State, f: Frame, resolve: map<ReqId, Addr>)
    requires f.InfoFrame?
  {
    !Populated(s.inc, InfoPlace(f)) && !Rejects(s.inc, InfoPlace(f), f.infos, resolve)
  }

  predicate Ready(s: State, w: Worker) { w !in s.rx || s.rx[w].Idle? }

  // When a step can be taken. The clauses about routes are the application's obligations.

  /** The initiator has not used the handle before. */
  predicate CanEnqueue(s: State, h: PostId, post: Post) {
    h !in s.posts && h.owner == post.initiator && post.initiator != NOBODY && post.target != NOBODY
  }

  /** The request ids have not been used before, by anybody. */
  predicate CanProcess(s: State, h: PostId, reqs: map<ReqId, Request>) {
    && h in s.posts && (forall x <- s.routes :: x.h != h && x.r !in reqs)
    && reqs != map[] && (forall r <- reqs :: ValidRequest(reqs[r]))
    && Separate(s.routes + NewRoutes(s.posts[h], h, reqs), s.freed)
  }

  predicate CanRecvInfo(s: State, w: Worker, f: Frame, resolve: map<ReqId, Addr>) {
    && f in s.net && f.InfoFrame? && w.host == f.dst && Ready(s, w) && f.h in s.posts
    && (Registers(s, f, resolve) ==> Separate(BindRoutes(s, f, resolve), s.freed))
  }

  predicate CanRespond(s: State, w: Worker) { w in s.rx && s.rx[w].Responding? }

  predicate CanProcessRead(s: State, h: PostId) { h in s.queued }

  predicate CanSendChunk(s: State, id: Id, i: nat) {
    && id.h in s.sending && id.r in s.sending[id.h].jobs
    && ValidJob(s.sending[id.h].jobs[id.r]) && i < s.sending[id.h].jobs[id.r].nchunks
  }

  predicate CanRecvData(s: State, w: Worker, f: Frame) {
    f in s.net && f.DataFrame? && w.host == f.dst && Ready(s, w)
  }

  /** The entry and the request a looked-up chunk needs are still there. */
  predicate Present(inc: Table, t: Rx) {
    && (t.Located? || t.Found?) && t.f.DataFrame?
    && t.place in inc && t.f.id.r in inc[t.place].reqs
  }

  /** Find looks the tracker up with at(), which aborts if the entry has gone since the address was looked up. */
  predicate CanFind(s: State, w: Worker) { w in s.rx && s.rx[w].Located? && Present(s.inc, s.rx[w]) }

  /** The reference Find returned dangles if the entry has gone since. */
  predicate CanAcquire(s: State, w: Worker) { w in s.rx && s.rx[w].Found? && Present(s.inc, s.rx[w]) }

  predicate CanStore(s: State, w: Worker) {
    w in s.rx && s.rx[w].Writing? && s.rx[w].f.DataFrame? && s.rx[w].k < |s.rx[w].f.payload|
  }

  predicate CanRelease(s: State, w: Worker, success: bool) {
    && w in s.rx && s.rx[w].Writing? && s.rx[w].f.DataFrame?
    && s.rx[w].place in s.inc && s.rx[w].f.id.r in s.inc[s.rx[w].place].reqs
    && (success ==> s.rx[w].k == |s.rx[w].f.payload|)
  }

  predicate CanComplete(s: State, w: Worker) { w in s.rx && s.rx[w].Completing? }

  predicate CanSendAck(s: State, w: Worker) { w in s.rx && s.rx[w].Acking? }

  /** The entry Update looks up. */
  function AckPlace(w: Worker, f: Frame): Place
    requires f.AckFrame?
  {
    Place(w.host, Key(NOBODY, f.id.h.handle))
  }

  /** Update looks the request up with at(), which aborts if the entry does not have it. */
  predicate CanRecvAck(s: State, w: Worker, f: Frame) {
    && f in s.net && f.AckFrame? && w.host == f.dst && Ready(s, w)
    && (AckPlace(w, f) in s.out ==> f.id.r in s.out[AckPlace(w, f)].reqs)
  }

  predicate Enabled(s: State, step: Step) {
    match step
    case Enqueue(h, post, _) => CanEnqueue(s, h, post)
    case Process(h, reqs, _) => CanProcess(s, h, reqs)
    case RecvInfo(w, f, resolve) => CanRecvInfo(s, w, f, resolve)
    case Respond(w) => CanRespond(s, w)
    case ProcessRead(h) => CanProcessRead(s, h)
    case SendChunk(id, i) => CanSendChunk(s, id, i)
    case RecvData(w, f, _) => CanRecvData(s, w, f)
    case FindChunk(w) => CanFind(s, w)
    case AcquireChunk(w) => CanAcquire(s, w)
    case StoreByte(w) => CanStore(s, w)
    case ReleaseChunk(w, success) => CanRelease(s, w, success)
    case CompleteReq(w) => CanComplete(s, w)
    case SendAck(w, _) => CanSendAck(s, w)
    case RecvAck(w, f) => CanRecvAck(s, w, f)
    case Poll(h) => h in s.posts
    case AppStore(l, _) => Untouched(s.routes, s.freed, l)
  }

  /** The post is refused if its handle is taken in the tracker it goes to. */
  function DoEnqueue(s: State, h: PostId, post: Post, callback: bool): State {
    var k := HomePlace(post, h);
    var onDone := if callback then Notify else Silent;
    if k in (if post.op.Write? then s.out else s.inc) then s
    else
      s.(posts := s.posts[h := post],
         out := if post.op.Write? then AddHandle(s.out, k, onDone) else s.out,
         inc := if post.op.Write? then s.inc else AddHandle(s.inc, k, onDone))
  }

  function LocalLoad(p: Post, reqs: map<ReqId, Request>): Load {
    Load(p.initiator, p.target, map r | r in reqs :: Job(reqs[r].laddr, reqs[r].len, reqs[r].nchunks))
  }

  function DoProcess(s: State, h: PostId, reqs: map<ReqId, Request>, meta: Metadata): State
    requires h in s.posts && forall r <- reqs :: ValidRequest(reqs[r])
  {
    var p := s.posts[h];
    var local := LocalInfos(p.op, reqs);
    var info := InfoFrame(p.initiator, p.target, h, p.op, WireInfos(p.op, reqs), meta);
    s.(routes := s.routes + NewRoutes(p, h, reqs), asked := s.asked + Asked(h, reqs), net := s.net + {info},
       out := if p.op.Write? then AddReqs(s.out, HomePlace(p, h), local, |reqs|, p.op, [], map[]) else s.out,
       inc := if p.op.Write? then s.inc else AddReqs(s.inc, HomePlace(p, h), local, |reqs|, p.op, [], map[]),
       sending := if p.op.Write? then s.sending[h := LocalLoad(p, reqs)] else s.sending)
  }

  function DoRecvInfo(s: State, w: Worker, f: Frame, resolve: map<ReqId, Addr>): State
    requires f.InfoFrame? && f.h in s.posts
  {
    var k := InfoPlace(f);
    var call := AddCall(s.inc, k, f.infos, f.op, resolve);
    var registers := Registers(s, f, resolve);
    s.(inc := AddReqs(s.inc, k, f.infos, |f.infos|, f.op, f.meta, resolve),
       routes := if registers then BindRoutes(s, f, resolve) else s.routes,
       registered := if registers then s.registered + {f.h} else s.registered,
       rx := if call.RecvRead? then s.rx[w := Responding(k, call.resolved)] else s.rx,
       served := if call.RecvRead? then s.served + multiset{IncPost(k)} else s.served)
  }

  /** processRecvRead: claims the handle in outgoing and queues a write post; if it is taken the read is dropped. */
  function DoRespond(s: State, w: Worker): State
    requires w in s.rx && s.rx[w].Responding?
  {
    var t := s.rx[w];
    var k := Place(t.place.host, Key(NOBODY, t.place.key.handle));
    if k in s.out then s.(rx := s.rx[w := Idle])
    else s.(rx := s.rx[w := Idle], out := AddHandle(s.out, k, Relay(t.place.key.peer)),
            queued := s.queued[IncPost(t.place) := Batch(t.place.host, t.infos)])
  }

  /** The descriptors of a served read: the received ones, as writes with a null address. */
  function ServedInfos(infos: map<ReqId, RequestInfo>): map<ReqId, RequestInfo> {
    map r | r in infos :: infos[r].(raddr := 0, op := Write)
  }

  /** What is sent for it: from the resolved addresses, cut as the descriptors say. */
  function ServedLoad(h: PostId, batch: Batch): Load {
    Load(batch.host, h.owner,
         map r | r in batch.infos :: Job(batch.infos[r].raddr, batch.infos[r].totalLen, batch.infos[r].nchunks))
  }

  function DoProcessRead(s: State, h: PostId): State
    requires h in s.queued
  {
    var batch := s.queued[h];
    var infos := ServedInfos(batch.infos);
    s.(out := AddReqs(s.out, Place(batch.host, Key(NOBODY, h.handle)), infos, |infos|, Write, [], map[]),
       queued := s.queued - {h}, sending := s.sending[h := ServedLoad(h, batch)])
  }

  /** Chunk `i` of a job, as processWrite cuts it. */
  function ChunkFrame(mem: map<Loc, Byte>, load: Load, id: Id, i: nat): Frame
    requires id.r in load.jobs && ValidJob(load.jobs[id.r]) && i < load.jobs[id.r].nchunks
  {
    var job := load.jobs[id.r];
    OffsetStep(job.len, job.nchunks, i);
    var lo, hi := Offset(job.len, job.nchunks, i), Offset(job.len, job.nchunks, i + 1);
    DataFrame(load.from, load.to, id, i, lo, Bytes(mem, Loc(load.from, job.addr), lo, hi))
  }

  function AckOf(f: Frame): Frame
    requires f.DataFrame?
  {
    AckFrame(f.src, f.id, f.i)
  }

  /** Check and GetChunkAddr: a chunk of an unknown handle or request, or without an address, is dropped. */
  function DoRecvData(s: State, w: Worker, f: Frame, peer: Host): State
    requires f.DataFrame?
  {
    var k := Place(w.host, Key(peer, f.id.h.handle));
    var addr := ChunkAddr(s.inc, k, f.id.r, f.offset);
    if addr == 0 then s else s.(rx := s.rx[w := Located(k, f, addr)])
  }

  function DoFind(s: State, w: Worker): State
    requires CanFind(s, w)
  {
    s.(rx := s.rx[w := Found(s.rx[w].place, s.rx[w].f, s.rx[w].base)])
  }

  function DoAcquire(s: State, w: Worker): State
    requires CanAcquire(s, w)
  {
    var t := s.rx[w];
    var c := s.inc[t.place].reqs[t.f.id.r].chunks;
    var status := StatusOf(c, t.f.i);
    s.(inc := if status.Empty? then WithChunks(s.inc, t.place, t.f.id.r, Acquire(c, t.f.i)) else s.inc,
       rx := s.rx[w := match status
                       case Empty => Writing(t.place, t.f, t.base, 0)
                       case Done => Acking(AckOf(t.f))
                       case Busy => Idle])
  }

  function DoStoreByte(s: State, w: Worker): State
    requires CanStore(s, w)
  {
    var t := s.rx[w];
    s.(mem := s.mem[Loc(t.place.host, t.base + t.k) := t.f.payload[t.k]], rx := s.rx[w := t.(k := t.k + 1)])
  }

  /** The entry is the one the post of the request receives into. */
  predicate ReceivesAt(posts: map<PostId, Post>, k: Place, h: PostId) { h in posts && k == RecvPlace(posts[h], h) }

  function DoRelease(s: State, w: Worker, success: bool): State
    requires CanRelease(s, w, success)
  {
    var t := s.rx[w];
    var c := Release(s.inc[t.place].reqs[t.f.id.r].chunks, t.f.i, success);
    var s' := s.(inc := WithChunks(s.inc, t.place, t.f.id.r, c));
    if !success then s'.(rx := s.rx[w := Idle])
    else
      var here := ReceivesAt(s.posts, t.place, t.f.id.h);
      var why := if here then Finished(t.f.id) else Echoed(t.f.id);
      s'.(delivered := if here then s.delivered + {ChunkId(t.f.id, t.f.i)} else s.delivered,
          written := s.written + {ChunkId(t.f.id, t.f.i)},
          rx := s.rx[w := if Full(c) then Completing(t.place, why, Some(AckOf(t.f))) else Acking(AckOf(t.f))])
  }

  function DoComplete(s: State, w: Worker): State
    requires w in s.rx && s.rx[w].Completing?
  {
    var t := s.rx[w];
    var h := IncPost(t.place);
    var s' := s.(inc := ReqComplete(s.inc, t.place),
                 rx := s.rx[w := if t.ack.Some? then Acking(t.ack.value) else Idle],
                 counted := if t.why.Finished? then s.counted + {t.why.id} else s.counted);
    match ReqCompleteCall(s.inc, t.place)
    case RecvPost(_, _) => s'.(postCalls := s.postCalls + multiset{h})
    case OnComplete(_) => Report(s'.(doneCalls := s.doneCalls + multiset{h}), h)
    case _ => s'
  }

  function DoSendAck(s: State, w: Worker, ok: bool): State
    requires w in s.rx && s.rx[w].Acking?
  {
    s.(rx := s.rx[w := Idle], net := if ok then s.net + {s.rx[w].frame} else s.net)
  }

  /** Update, and the on_complete it runs: the application's, or OnReqComplete for the entry of a served read. */
  function DoRecvAck(s: State, w: Worker, f: Frame): State
    requires f.AckFrame? && (AckPlace(w, f) in s.out ==> f.id.r in s.out[AckPlace(w, f)].reqs)
  {
    var k := AckPlace(w, f);
    var s' := s.(out := Acked(s.out, k, f.id.r, f.i));
    match AckedCall(s.out, k, f.id.r, f.i)
    case OnComplete(Relay(peer)) =>
      var h := PostId(peer, k.key.handle);
      s'.(rx := s.rx[w := Completing(Place(w.host, Key(peer, k.key.handle)), Served(h), None)])
    case OnComplete(_) =>
      var h := PostId(w.host, k.key.handle);
      Report(s'.(doneCalls := s.doneCalls + multiset{h}), h)
    case _ => s'
  }

  /** QueryUpdate at the initiator: looks in outgoing, then in incoming. */
  function DoPoll(s: State, h: PostId): State
    requires h in s.posts
  {
    var k := HomePlace(s.posts[h], h);
    match Check(s.out, k)
    case Success => Report(s.(out := Remove(s.out, k)), h)
    case InProgress => s
    case NotFound => if Check(s.inc, k).Success? then Report(s.(inc := Remove(s.inc, k)), h) else s
  }

  function Apply(s: State, step: Step): State
    requires Enabled(s, step)
  {
    match step
    case Enqueue(h, post, callback) => DoEnqueue(s, h, post, callback)
    case Process(h, reqs, meta) => DoProcess(s, h, reqs, meta)
    case RecvInfo(w, f, resolve) => DoRecvInfo(s, w, f, resolve)
    case Respond(w) => DoRespond(s, w)
    case ProcessRead(h) => DoProcessRead(s, h)
    case SendChunk(id, i) => s.(net := s.net + {ChunkFrame(s.mem, s.sending[id.h], id, i)})
    case RecvData(w, f, peer) => DoRecvData(s, w, f, peer)
    case FindChunk(w) => DoFind(s, w)
    case AcquireChunk(w) => DoAcquire(s, w)
    case StoreByte(w) => DoStoreByte(s, w)
    case ReleaseChunk(w, success) => DoRelease(s, w, success)
    case CompleteReq(w) => DoComplete(s, w)
    case SendAck(w, ok) => DoSendAck(s, w, ok)
    case RecvAck(w, f) => DoRecvAck(s, w, f)
    case Poll(h) => DoPoll(s, h)
    case AppStore(l, v) => s.(mem := s.mem[l := v])
  }

  predicate Init(s: State) {
    && s.posts == map[] && s.routes == map[] && s.out == map[] && s.inc == map[] && s.rx == map[]
    && s.net == {} && s.sending == map[] && s.queued == map[] && s.registered == {} && s.delivered == {}
    && s.written == {} && s.counted == {} && s.reported == {} && s.freed == {} && s.asked == map[]
    && s.served == multiset{} && s.postCalls == multiset{} && s.doneCalls == multiset{}
  }

  /** A run: each state is the result of an enabled step in the one before. */
  predicate IsRun(run: seq<State>, steps: seq<Step>) {
    && |run| == |steps| + 1
    && Init(run[0])
    && forall n {:trigger steps[n]} :: 0 <= n < |steps| ==>
         Enabled(run[n], steps[n]) && run[n + 1] == Apply(run[n], steps[n])
  }

  ghost predicate EndsAt(run: seq<State>, steps: seq<Step>, s: State) { IsRun(run, steps) && run[|steps|] == s }

  ghost predicate Reachable(s: State) { exists run: seq<State>, steps: seq<Step> :: EndsAt(run, steps, s) }
}
