/**
  * The data half of the invariant of the protocol: what is where, and who may write it.
  *
  * Each clause is a predicate over exactly the components of the state it talks
  * about, so a step that leaves those alone leaves the clause alone.
  */
module Invariant {
  import opened Options
  import opened Trackers
  import opened Layout
  import opened Protocol

  // --- The clauses --------------------------------------------------------------

  ghost predicate PostsOk(posts: map<PostId, Post>) {
    forall h <- posts :: posts[h].initiator == h.owner && h.owner != NOBODY && posts[h].target != NOBODY
  }

  ghost predicate RouteOk(route: Route, p: Post, bound: bool) {
    && |route.cuts| >= 2
    && Partitions(route.cuts, Len(route))
    && (route.src.Some? ==> route.src.value.host == DataSender(p))
    && (route.dst.Some? ==> route.dst.value.host == DataReceiver(p))
    && (route.src.Some? <==> p.op.Write? || bound)
    && (route.dst.Some? <==> p.op.Read? || bound)
    && (route.dst.Some? ==> route.dst.value.addr != 0)
  }

  ghost predicate RoutesOk(routes: map<Id, Route>, posts: map<PostId, Post>, registered: set<PostId>) {
    forall x <- routes :: x.h in posts && RouteOk(routes[x], posts[x.h], x.h in registered)
  }

  /** A request id names one request, of one post. */
  ghost predicate UniqueIds(routes: map<Id, Route>) {
    forall x, y :: x in routes && y in routes && x.r == y.r ==> x == y
  }

  /** The chunk `c` names exists. */
  predicate IsChunk(c: ChunkId, routes: map<Id, Route>) {
    c.id in routes && c.i + 1 < |routes[c.id].cuts|
  }

  ghost predicate DeliveredOk(delivered: set<ChunkId>, routes: map<Id, Route>) {
    forall c <- delivered :: IsChunk(c, routes) && routes[c.id].src.Some? && routes[c.id].dst.Some?
  }

  /** Only a read from oneself has chunks written but not delivered. */
  ghost predicate WrittenOk(written: set<ChunkId>, delivered: set<ChunkId>, posts: map<PostId, Post>) {
    && delivered <= written
    && forall c <- written :: c in delivered || (c.id.h in posts && !Proper(posts[c.id.h]))
  }

  ghost predicate AllDelivered(x: Id, routes: map<Id, Route>, delivered: set<ChunkId>)
    requires x in routes
  {
    forall i: nat :: i + 1 < |routes[x].cuts| ==> ChunkId(x, i) in delivered
  }

  /** Byte `j` of the request lies in chunk `i`. */
  predicate InChunk(route: Route, i: nat, j: nat) {
    i + 1 < |route.cuts| && route.cuts[i] <= j < route.cuts[i + 1]
  }

  /** Every byte of a delivered chunk is at its destination, while the buffers are in use. */
  ghost predicate Good(mem: map<Loc, Byte>, routes: map<Id, Route>, delivered: set<ChunkId>, freed: set<PostId>)
    requires DeliveredOk(delivered, routes)
  {
    forall c, j: nat :: c in delivered && c.id.h !in freed && InChunk(routes[c.id], c.i, j) ==>
      Get(mem, At(routes[c.id].dst.value, j)) == Get(mem, At(routes[c.id].src.value, j))
  }

  predicate SameIds(keys: set<ReqId>, h: PostId, routes: map<Id, Route>) {
    && (forall r <- keys :: Id(h, r) in routes)
    && (forall x <- routes :: x.h == h ==> x.r in keys)
  }

  /** Cutting `len` bytes into `n` chunks gives the boundaries of the route. */
  ghost predicate CutsAs(len: nat, n: nat, route: Route) { 1 <= n <= len && route.cuts == Cuts(len, n) }

  ghost predicate InfoOk(f: Frame, posts: map<PostId, Post>, routes: map<Id, Route>)
    requires f.InfoFrame?
  {
    && f.h in posts
    && f.src == posts[f.h].initiator && f.dst == posts[f.h].target && f.op == posts[f.h].op
    && f.infos != map[]
    && SameIds(f.infos.Keys, f.h, routes)
    && (forall r <- f.infos ::
          f.infos[r].reqid == r && CutsAs(f.infos[r].totalLen, f.infos[r].nchunks, routes[Id(f.h, r)]))
  }

  ghost predicate DataOk(f: Frame, posts: map<PostId, Post>, routes: map<Id, Route>)
    requires f.DataFrame?
  {
    && IsChunk(ChunkId(f.id, f.i), routes)
    && f.id.h in posts
    && f.src == DataSender(posts[f.id.h]) && f.dst == DataReceiver(posts[f.id.h])
    && routes[f.id].src.Some?
    && f.offset == routes[f.id].cuts[f.i]
    && f.offset + |f.payload| == routes[f.id].cuts[f.i + 1]
  }

  /** While the buffers are in use, the payload is what its source still holds. */
  ghost predicate Fresh(f: Frame, mem: map<Loc, Byte>, routes: map<Id, Route>, freed: set<PostId>)
    requires f.DataFrame?
  {
    f.id in routes && routes[f.id].src.Some? && f.id.h !in freed ==>
      forall k :: 0 <= k < |f.payload| ==> f.payload[k] == Get(mem, At(routes[f.id].src.value, f.offset + k))
  }

  ghost predicate AckOk(f: Frame, posts: map<PostId, Post>, written: set<ChunkId>) {
    && f.AckFrame?
    && ChunkId(f.id, f.i) in written
    && f.id.h in posts && f.dst == DataSender(posts[f.id.h])
  }

  ghost predicate NetOk(net: set<Frame>, posts: map<PostId, Post>, routes: map<Id, Route>, written: set<ChunkId>) {
    forall f <- net ::
      match f
      case InfoFrame(_, _, _, _, _, _) => InfoOk(f, posts, routes)
      case DataFrame(_, _, _, _, _, _) => DataOk(f, posts, routes)
      case AckFrame(_, _, _) => AckOk(f, posts, written)
  }

  ghost predicate NetFresh(net: set<Frame>, mem: map<Loc, Byte>, routes: map<Id, Route>, freed: set<PostId>) {
    forall f <- net :: f.DataFrame? ==> Fresh(f, mem, routes, freed)
  }

  /** The tracker has exactly the requests of `h`, each with its number of chunks. */
  ghost predicate Matches(reqs: map<ReqId, ReqTracker>, h: PostId, routes: map<Id, Route>) {
    && SameIds(reqs.Keys, h, routes)
    && forall r <- reqs :: reqs[r].chunks.total + 1 == |routes[Id(h, r)].cuts|
  }

  /** A receiving request tracker: its bits are the delivered chunks, its address the destination. */
  ghost predicate Receives(rt: ReqTracker, x: Id, routes: map<Id, Route>, delivered: set<ChunkId>) {
    && x in routes
    && ValidChunks(rt.chunks)
    && rt.chunks.total + 1 == |routes[x].cuts|
    && (forall i: nat :: i in rt.chunks.done <==> ChunkId(x, i) in delivered)
    && routes[x].dst.Some? && rt.raddr == routes[x].dst.value.addr
  }

  /** The responder's tracker of a read: its address is the source. */
  ghost predicate Echoes(rt: ReqTracker, x: Id, routes: map<Id, Route>, written: set<ChunkId>) {
    && x in routes
    && ValidChunks(rt.chunks)
    && rt.chunks.total + 1 == |routes[x].cuts|
    && (forall i <- rt.chunks.done :: ChunkId(x, i) in written)
    && routes[x].src.Some? && rt.raddr == routes[x].src.value.addr
  }

  ghost predicate IncEntryOk(k: Place, pt: PostTracker, posts: map<PostId, Post>, routes: map<Id, Route>,
                             registered: set<PostId>, delivered: set<ChunkId>)
  {
    var h := IncPost(k);
    && h in posts
    && (k == TargetPlace(posts[h], h) || (posts[h].op.Read? && k == HomePlace(posts[h], h)))
    && (k == TargetPlace(posts[h], h) ==> h in registered && pt.reqs != map[] && !pt.initiator)
    && (k == HomePlace(posts[h], h) ==> pt.initiator)
    && (pt.reqs != map[] ==> Matches(pt.reqs, h, routes))
    && (k == RecvPlace(posts[h], h) ==> forall r <- pt.reqs :: Receives(pt.reqs[r], Id(h, r), routes, delivered))
  }

  ghost predicate IncOk(inc: Table, posts: map<PostId, Post>, routes: map<Id, Route>,
                        registered: set<PostId>, delivered: set<ChunkId>)
  {
    && (forall k <- inc :: IncEntryOk(k, inc[k], posts, routes, registered, delivered))
    && (forall h <- registered :: h in posts && TargetPlace(posts[h], h) in inc)
  }

  predicate ServesRead(posts: map<PostId, Post>, k: Place) {
    IncPost(k) in posts && posts[IncPost(k)].op.Read? && k == TargetPlace(posts[IncPost(k)], IncPost(k))
  }

  /** The responder's entries of reads. */
  ghost predicate EchoesOk(inc: Table, posts: map<PostId, Post>, routes: map<Id, Route>, written: set<ChunkId>) {
    forall k, r :: k in inc && ServesRead(posts, k) && r in inc[k].reqs ==>
      Echoes(inc[k].reqs[r], Id(IncPost(k), r), routes, written)
  }

  /** A receiving entry knows its requests as soon as the post has any. */
  ghost predicate PopulatedOk(inc: Table, posts: map<PostId, Post>, routes: map<Id, Route>) {
    forall x <- routes :: x.h in posts && RecvPlace(posts[x.h], x.h) in inc ==>
      inc[RecvPlace(posts[x.h], x.h)].reqs != map[]
  }

  /** An entry with a callback goes with its last chunk, so it is never complete. */
  ghost predicate OutEntryOk(k: Place, pt: PostTracker, posts: map<PostId, Post>, routes: map<Id, Route>,
                             written: set<ChunkId>)
  {
    var h := OutPost(k, pt);
    && h in posts && k == SendPlace(posts[h], h) && pt.initiator
    && (pt.onDone.Relay? <==> posts[h].op.Read?)
    && (pt.reqs != map[] ==> Matches(pt.reqs, h, routes))
    && (forall r <- pt.reqs, i <- pt.reqs[r].chunks.done :: ChunkId(Id(h, r), i) in written)
    && (!pt.onDone.Silent? ==> !IsComplete(pt))
  }

  ghost predicate OutOk(out: Table, posts: map<PostId, Post>, routes: map<Id, Route>, written: set<ChunkId>) {
    forall k <- out :: OutEntryOk(k, out[k], posts, routes, written)
  }

  /** A descriptor a responder works from says what the route of its request is. */
  ghost predicate Describes(info: RequestInfo, x: Id, host: Host, routes: map<Id, Route>) {
    && x in routes && routes[x].src == Some(Loc(host, info.raddr))
    && CutsAs(info.totalLen, info.nchunks, routes[x])
  }

  ghost predicate BatchOk(infos: map<ReqId, RequestInfo>, h: PostId, host: Host, routes: map<Id, Route>) {
    infos != map[] && SameIds(infos.Keys, h, routes) && forall r <- infos :: Describes(infos[r], Id(h, r), host, routes)
  }

  ghost predicate QueuedOk(queued: map<PostId, Batch>, posts: map<PostId, Post>, routes: map<Id, Route>) {
    forall h <- queued :: h in posts && posts[h].op.Read? && queued[h].host == posts[h].target
      && BatchOk(queued[h].infos, h, posts[h].target, routes)
  }

  /** Both ends cut a request alike: what is sent is cut as the route is. */
  ghost predicate JobOk(job: Job, x: Id, from: Host, routes: map<Id, Route>) {
    x in routes && routes[x].src == Some(Loc(from, job.addr)) && CutsAs(job.len, job.nchunks, routes[x])
  }

  ghost predicate SendingOk(sending: map<PostId, Load>, posts: map<PostId, Post>, routes: map<Id, Route>) {
    forall h <- sending :: h in posts
      && sending[h].from == DataSender(posts[h]) && sending[h].to == DataReceiver(posts[h])
      && forall r <- sending[h].jobs :: JobOk(sending[h].jobs[r], Id(h, r), DataSender(posts[h]), routes)
  }

  /** Where a chunk looked up at `place` lands: at its destination, or for a read from oneself at its source. */
  ghost predicate Lands(place: Place, f: Frame, base: Addr, posts: map<PostId, Post>, routes: map<Id, Route>)
    requires f.DataFrame? && f.id.h in posts && f.id in routes
  {
    if place == RecvPlace(posts[f.id.h], f.id.h)
    then routes[f.id].dst.Some? && base == routes[f.id].dst.value.addr + f.offset
    else
      && !Proper(posts[f.id.h]) && place == TargetPlace(posts[f.id.h], f.id.h)
      && routes[f.id].src.Some? && base == routes[f.id].src.value.addr + f.offset
  }

  /** The chunk is being written at the entry its post receives into. */
  predicate AtDestination(t: Rx, posts: map<PostId, Post>) {
    t.Writing? && t.f.DataFrame? && ReceivesAt(posts, t.place, t.f.id.h)
  }

  ghost predicate WriterOk(w: Worker, t: Rx, posts: map<PostId, Post>, routes: map<Id, Route>, inc: Table)
    requires t.Writing?
  {
    && t.f.DataFrame? && DataOk(t.f, posts, routes)
    && t.place.host == w.host
    && Lands(t.place, t.f, t.base, posts, routes)
    && t.place in inc && t.f.id.r in inc[t.place].reqs
    && t.f.i in inc[t.place].reqs[t.f.id.r].chunks.busy
    && t.k <= |t.f.payload|
  }

  ghost predicate WritingOk(w: Worker, t: Rx, posts: map<PostId, Post>, routes: map<Id, Route>, inc: Table)
    requires t.Writing?
  {
    WriterOk(w, t, posts, routes, inc) && AtDestination(t, posts)
  }

  /** What a writer has stored so far is a prefix of the payload, and the payload is fresh. */
  ghost predicate Stored(t: Rx, mem: map<Loc, Byte>, routes: map<Id, Route>, freed: set<PostId>)
    requires t.Writing? && t.f.DataFrame? && t.k <= |t.f.payload|
  {
    && Fresh(t.f, mem, routes, freed)
    && forall j :: 0 <= j < t.k ==> Get(mem, Loc(t.place.host, t.base + j)) == t.f.payload[j]
  }

  /** A looked-up chunk belongs where its address points, whether or not the entry is still there. */
  ghost predicate PlacedOk(w: Worker, t: Rx, posts: map<PostId, Post>, routes: map<Id, Route>)
    requires t.Located? || t.Found?
  {
    && t.f.DataFrame? && t.f.id.h in posts && t.f.id in routes
    && t.place.host == w.host && Lands(t.place, t.f, t.base, posts, routes)
  }

  ghost predicate RxEntryOk(w: Worker, t: Rx, posts: map<PostId, Post>, routes: map<Id, Route>, inc: Table,
                            registered: set<PostId>, written: set<ChunkId>)
  {
    match t
    case Idle => true
    case Located(_, _, _) => PlacedOk(w, t, posts, routes)
    case Found(_, _, _) => PlacedOk(w, t, posts, routes)
    case Writing(_, _, _, _) => WriterOk(w, t, posts, routes, inc)
    case Completing(_, _, ack) => ack.Some? ==> AckOk(ack.value, posts, written)
    case Acking(f) => AckOk(f, posts, written)
    case Responding(k, infos) =>
      var h := IncPost(k);
      && h in registered && h in posts && posts[h].op.Read? && k == TargetPlace(posts[h], h)
      && BatchOk(infos, h, posts[h].target, routes)
  }

  ghost predicate RxOk(rx: map<Worker, Rx>, posts: map<PostId, Post>, routes: map<Id, Route>, inc: Table,
                       registered: set<PostId>, written: set<ChunkId>)
  {
    forall w <- rx :: RxEntryOk(w, rx[w], posts, routes, inc, registered, written)
  }

  ghost predicate WritesChunk(t: Rx, k: Place, c: ChunkId) {
    t.Writing? && t.f.DataFrame? && t.place == k && c == ChunkId(t.f.id, t.f.i)
  }

  /** At most one writer per chunk of an entry. */
  ghost predicate OneWriter(rx: map<Worker, Rx>) {
    forall v, w, k, c :: v in rx && w in rx && WritesChunk(rx[v], k, c) && WritesChunk(rx[w], k, c) ==> v == w
  }

  ghost predicate RxStored(rx: map<Worker, Rx>, mem: map<Loc, Byte>, routes: map<Id, Route>, freed: set<PostId>) {
    forall w <- rx :: rx[w].Writing? ==>
      rx[w].f.DataFrame? && rx[w].k <= |rx[w].f.payload| && Stored(rx[w], mem, routes, freed)
  }

  ghost predicate HasRequests(h: PostId, routes: map<Id, Route>) { exists x :: x in routes && x.h == h }

  ghost predicate ReportedOk(reported: set<PostId>, posts: map<PostId, Post>, routes: map<Id, Route>,
                             delivered: set<ChunkId>)
  {
    && (forall h <- reported :: h in posts && HasRequests(h, routes))
    && (forall x <- routes :: x.h in reported ==> AllDelivered(x, routes, delivered))
  }

  ghost predicate FreedOk(freed: set<PostId>, reported: set<PostId>, posts: map<PostId, Post>) {
    forall h <- freed :: h in reported && h in posts && Proper(posts[h])
  }

  function CountedOf(counted: set<Id>, h: PostId): set<Id> { set x | x in counted && x.h == h }

  ghost predicate CountedOk(counted: set<Id>, routes: map<Id, Route>, delivered: set<ChunkId>) {
    forall x <- counted :: x in routes && AllDelivered(x, routes, delivered)
  }

  /** pending_reqs is the number of requests whose OnReqComplete is still to come. */
  ghost predicate PendingOk(inc: Table, posts: map<PostId, Post>, counted: set<Id>) {
    forall k <- inc :: ReceivesAt(posts, k, IncPost(k)) ==>
      inc[k].pending == |inc[k].reqs| - |CountedOf(counted, IncPost(k))|
  }

  ghost predicate Owes(t: Rx, x: Id) { t.Completing? && t.why == Finished(x) }

  /** A worker that owes an OnReqComplete for the responder's entry of a read. */
  ghost predicate OwesTarget(t: Rx, h: PostId) {
    t.Completing? && (t.why == Served(h) || (t.why.Echoed? && t.why.id.h == h))
  }

  /** A finished request is counted once: no worker owes it twice, nor after it was counted. */
  ghost predicate TokensOk(rx: map<Worker, Rx>, posts: map<PostId, Post>, routes: map<Id, Route>,
                           counted: set<Id>, delivered: set<ChunkId>)
  {
    && (forall w, x :: w in rx && Owes(rx[w], x) ==>
          && x in routes && x.h in posts && x !in counted && AllDelivered(x, routes, delivered)
          && rx[w].place == RecvPlace(posts[x.h], x.h))
    && (forall v, w, x :: v in rx && w in rx && Owes(rx[v], x) && Owes(rx[w], x) ==> v == w)
    && (forall w, h :: w in rx && OwesTarget(rx[w], h) ==>
          h in posts && posts[h].op.Read? && rx[w].place == TargetPlace(posts[h], h)
          && (rx[w].why.Echoed? ==> !Proper(posts[h])))
  }

  ghost predicate Inv(s: State) {
    && PostsOk(s.posts)
    && RoutesOk(s.routes, s.posts, s.registered)
    && UniqueIds(s.routes)
    && Separate(s.routes, s.freed)
    && DeliveredOk(s.written, s.routes)
    && WrittenOk(s.written, s.delivered, s.posts)
    && DeliveredOk(s.delivered, s.routes)
    && Good(s.mem, s.routes, s.delivered, s.freed)
    && NetOk(s.net, s.posts, s.routes, s.written)
    && NetFresh(s.net, s.mem, s.routes, s.freed)
    && IncOk(s.inc, s.posts, s.routes, s.registered, s.delivered)
    && EchoesOk(s.inc, s.posts, s.routes, s.written)
    && PopulatedOk(s.inc, s.posts, s.routes)
    && OutOk(s.out, s.posts, s.routes, s.written)
    && QueuedOk(s.queued, s.posts, s.routes)
    && SendingOk(s.sending, s.posts, s.routes)
    && RxOk(s.rx, s.posts, s.routes, s.inc, s.registered, s.written)
    && OneWriter(s.rx)
    && RxStored(s.rx, s.mem, s.routes, s.freed)
    && ReportedOk(s.reported, s.posts, s.routes, s.delivered)
    && FreedOk(s.freed, s.reported, s.posts)
    && CountedOk(s.counted, s.routes, s.delivered)
    && PendingOk(s.inc, s.posts, s.counted)
    && TokensOk(s.rx, s.posts, s.routes, s.counted, s.delivered)
  }
}
