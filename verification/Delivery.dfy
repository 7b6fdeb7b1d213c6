/** The remaining steps keep the invariant: acknowledgements, polls, posts and PostInfo frames. */
module Delivery {
  import opened Options
  import opened Trackers
  import opened Layout
  import opened Protocol
  import opened Invariant
  import opened Safety
  import opened Counting

  // --- Acknowledgements -------------------------------------------------------------

  /** An acknowledgement whose request is in the entry it finds belongs to the post of the entry. */
  lemma AckEntry(s: State, w: Worker, f: Frame)
    requires f in s.net && f.AckFrame? && w.host == f.dst && NetOk(s.net, s.posts, s.routes, s.written)
    requires OutOk(s.out, s.posts, s.routes, s.written) && DeliveredOk(s.written, s.routes) && UniqueIds(s.routes)
    ensures ChunkId(f.id, f.i) in s.written && f.id in s.routes && f.id.h in s.posts
    ensures AckPlace(w, f) == SendPlace(s.posts[f.id.h], f.id.h)
    ensures AckPlace(w, f) in s.out && f.id.r in s.out[AckPlace(w, f)].reqs ==>
      OutPost(AckPlace(w, f), s.out[AckPlace(w, f)]) == f.id.h
  {
    assert AckOk(f, s.posts, s.written);
    var k := AckPlace(w, f);
    if k in s.out && f.id.r in s.out[k].reqs {
      assert OutEntryOk(k, s.out[k], s.posts, s.routes, s.written);
      assert Id(OutPost(k, s.out[k]), f.id.r) in s.routes;
    }
  }

  /** The entry with one more bit, before it is known whether it is complete. */
  function WithBit(out: Table, k: Place, r: ReqId, i: nat): PostTracker
    requires k in out && r in out[k].reqs
  {
    WithChunks(out, k, r, SetDone(out[k].reqs[r].chunks, i))[k]
  }

  /** Everything OutEntryOk asks of an entry but that it is not complete. */
  ghost predicate Counts(k: Place, pt: PostTracker, posts: map<PostId, Post>, routes: map<Id, Route>,
                         written: set<ChunkId>)
  {
    var h := OutPost(k, pt);
    && h in posts && k == SendPlace(posts[h], h) && pt.initiator && (pt.onDone.Relay? <==> posts[h].op.Read?)
    && pt.reqs != map[] && Matches(pt.reqs, h, routes)
    && (forall r <- pt.reqs, i <- pt.reqs[r].chunks.done :: ChunkId(Id(h, r), i) in written)
  }

  lemma AckKeepsEntry(s: State, k: Place, x: Id, i: nat)
    requires OutOk(s.out, s.posts, s.routes, s.written) && k in s.out && x.r in s.out[k].reqs
    requires OutPost(k, s.out[k]) == x.h && ChunkId(x, i) in s.written
    ensures Counts(k, WithBit(s.out, k, x.r, i), s.posts, s.routes, s.written)
    ensures WithBit(s.out, k, x.r, i).onDone == s.out[k].onDone && OutPost(k, WithBit(s.out, k, x.r, i)) == x.h
  {
    assert OutEntryOk(k, s.out[k], s.posts, s.routes, s.written);
    var reqs, reqs' := s.out[k].reqs, WithBit(s.out, k, x.r, i).reqs;
    assert reqs'.Keys == reqs.Keys;
  }

  lemma AckKeepsOut(s: State, k: Place, x: Id, i: nat)
    requires OutOk(s.out, s.posts, s.routes, s.written)
    requires k in s.out ==> x.r in s.out[k].reqs && OutPost(k, s.out[k]) == x.h
    requires ChunkId(x, i) in s.written
    ensures OutOk(Acked(s.out, k, x.r, i), s.posts, s.routes, s.written)
  {
    if k in s.out {
      AckKeepsEntry(s, k, x, i);
    }
  }

  ghost predicate AllWritten(h: PostId, routes: map<Id, Route>, written: set<ChunkId>) {
    forall x <- routes :: x.h == h ==> AllDelivered(x, routes, written)
  }

  /** A complete outgoing entry: every chunk of the post is written. */
  lemma OutComplete(k: Place, pt: PostTracker, posts: map<PostId, Post>, routes: map<Id, Route>, written: set<ChunkId>)
    requires Counts(k, pt, posts, routes, written) && IsComplete(pt)
    ensures HasRequests(OutPost(k, pt), routes) && AllWritten(OutPost(k, pt), routes, written)
  {
    var h := OutPost(k, pt);
    var r :| r in pt.reqs;
    assert Id(h, r) in routes;
    forall x | x in routes && x.h == h ensures AllDelivered(x, routes, written) {
      assert x.r in pt.reqs && x == Id(h, x.r) && Full(pt.reqs[x.r].chunks);
    }
  }

  /** Written is delivered, but for reads from oneself. */
  lemma WrittenIsDelivered(h: PostId, posts: map<PostId, Post>, routes: map<Id, Route>, written: set<ChunkId>,
                           delivered: set<ChunkId>)
    requires WrittenOk(written, delivered, posts) && AllWritten(h, routes, written)
    requires h in posts && Proper(posts[h])
    ensures forall x <- routes :: x.h == h ==> AllDelivered(x, routes, delivered)
  {
    forall x | x in routes && x.h == h ensures AllDelivered(x, routes, delivered) {
      forall i: nat | i + 1 < |routes[x].cuts| ensures ChunkId(x, i) in delivered {
        assert ChunkId(x, i) in written;
      }
    }
  }

  lemma AckCompletes(s: State, k: Place, x: Id, i: nat)
    requires OutOk(s.out, s.posts, s.routes, s.written) && WrittenOk(s.written, s.delivered, s.posts)
    requires k in s.out ==> x.r in s.out[k].reqs && OutPost(k, s.out[k]) == x.h
    requires ChunkId(x, i) in s.written && AckedCall(s.out, k, x.r, i).OnComplete?
    ensures x.h in s.posts && k == SendPlace(s.posts[x.h], x.h) && HasRequests(x.h, s.routes)
    ensures AckedCall(s.out, k, x.r, i).to.Relay? <==> s.posts[x.h].op.Read?
    ensures AckedCall(s.out, k, x.r, i).to.Relay? ==> AckedCall(s.out, k, x.r, i).to.peer == x.h.owner
    ensures Proper(s.posts[x.h]) ==> forall y <- s.routes :: y.h == x.h ==> AllDelivered(y, s.routes, s.delivered)
  {
    AckKeepsEntry(s, k, x, i);
    OutComplete(k, WithBit(s.out, k, x.r, i), s.posts, s.routes, s.written);
    if Proper(s.posts[x.h]) {
      WrittenIsDelivered(x.h, s.posts, s.routes, s.written, s.delivered);
    }
  }

  lemma OweServed(s: State, w: Worker, h: PostId)
    requires Inv(s) && h in s.posts && s.posts[h].op.Read?
    ensures Inv(s.(rx := s.rx[w := Completing(TargetPlace(s.posts[h], h), Served(h), None)]))
  {
    OweTarget(s, w, Completing(TargetPlace(s.posts[h], h), Served(h), None), h);
  }

  /** DoRecvAck by the call Update makes. */
  lemma RecvAckIs(s: State, w: Worker, f: Frame)
    requires CanRecvAck(s, w, f)
    ensures var k := AckPlace(w, f);
      var u := s.(out := Acked(s.out, k, f.id.r, f.i));
      var call := AckedCall(s.out, k, f.id.r, f.i);
      && (call.NoCall? ==> DoRecvAck(s, w, f) == u)
      && (call.OnComplete? && call.to.Relay? ==>
            DoRecvAck(s, w, f) == u.(rx := s.rx[w := Completing(Place(w.host, Key(call.to.peer, f.id.h.handle)),
                                                                Served(PostId(call.to.peer, f.id.h.handle)), None)]))
      && (call.OnComplete? && !call.to.Relay? ==>
            var h := PostId(w.host, f.id.h.handle);
            DoRecvAck(s, w, f) == Report(u.(doneCalls := s.doneCalls + multiset{h}), h))
      && (call.NoCall? || call.OnComplete?)
  {
  }

  lemma RecvAckKeeps(s: State, w: Worker, f: Frame)
    requires Inv(s) && CanRecvAck(s, w, f)
    ensures Inv(DoRecvAck(s, w, f))
  {
    var h, k := f.id.h, AckPlace(w, f);
    AckEntry(s, w, f);
    AckKeepsOut(s, k, f.id, f.i);
    RecvAckIs(s, w, f);
    var u := s.(out := Acked(s.out, k, f.id.r, f.i));
    if AckedCall(s.out, k, f.id.r, f.i).OnComplete? {
      AckCompletes(s, k, f.id, f.i);
      OwnerIs(s, h);
      if s.posts[h].op.Write? {
        ReportKeeps(u, h);
      } else {
        OweServed(u, w, h);
      }
    }
  }

  lemma OwnerIs(s: State, h: PostId)
    requires PostsOk(s.posts) && h in s.posts
    ensures s.posts[h].initiator == h.owner && h == PostId(h.owner, h.handle)
  {
  }

  // --- Polling ------------------------------------------------------------------------

  lemma DropOutKeeps(s: State, k: Place)
    requires Inv(s)
    ensures Inv(s.(out := s.out - {k}))
  {
  }

  /** A complete entry found under a handle of our own is of our own post. */
  lemma PolledOut(s: State, h: PostId)
    requires OutOk(s.out, s.posts, s.routes, s.written) && h in s.posts && PostsOk(s.posts)
    requires WrittenOk(s.written, s.delivered, s.posts) && Check(s.out, HomePlace(s.posts[h], h)).Success?
    ensures s.posts[h].op.Write? && OutPost(HomePlace(s.posts[h], h), s.out[HomePlace(s.posts[h], h)]) == h
    ensures HasRequests(h, s.routes) && forall x <- s.routes :: x.h == h ==> AllDelivered(x, s.routes, s.delivered)
  {
    var k := HomePlace(s.posts[h], h);
    assert OutEntryOk(k, s.out[k], s.posts, s.routes, s.written);
    OutComplete(k, s.out[k], s.posts, s.routes, s.written);
    WrittenIsDelivered(h, s.posts, s.routes, s.written, s.delivered);
  }

  /** A complete receiving entry of a read: every chunk of the post is delivered. */
  lemma IncComplete(s: State, h: PostId)
    requires IncOk(s.inc, s.posts, s.routes, s.registered, s.delivered) && h in s.posts && PostsOk(s.posts)
    requires Check(s.inc, HomePlace(s.posts[h], h)).Success?
    ensures s.posts[h].op.Read? && HasRequests(h, s.routes)
    ensures forall x <- s.routes :: x.h == h ==> AllDelivered(x, s.routes, s.delivered)
  {
    var k := HomePlace(s.posts[h], h);
    var pt := s.inc[k];
    RecvPlaceIs(s.posts, h);
    assert IncEntryOk(k, pt, s.posts, s.routes, s.registered, s.delivered);
    var r :| r in pt.reqs;
    assert Id(h, r) in s.routes;
    forall x | x in s.routes && x.h == h ensures AllDelivered(x, s.routes, s.delivered) {
      assert x.r in pt.reqs && x == Id(h, x.r) && Full(pt.reqs[x.r].chunks);
      assert Receives(pt.reqs[x.r], x, s.routes, s.delivered);
    }
  }

  lemma PollOutKeeps(s: State, h: PostId)
    requires Inv(s) && h in s.posts && Check(s.out, HomePlace(s.posts[h], h)).Success?
    ensures Inv(DoPoll(s, h))
  {
    PolledOut(s, h);
    DropOutKeeps(s, HomePlace(s.posts[h], h));
    ReportKeeps(s.(out := s.out - {HomePlace(s.posts[h], h)}), h);
  }

  lemma PollKeeps(s: State, h: PostId)
    requires Inv(s) && h in s.posts
    ensures Inv(DoPoll(s, h))
  {
    var k := HomePlace(s.posts[h], h);
    if Check(s.out, k).Success? {
      PollOutKeeps(s, h);
    } else if Check(s.out, k).NotFound? && Check(s.inc, k).Success? {
      IncComplete(s, h);
      DropAndReport(s, h);
    }
  }

  // --- Serving reads --------------------------------------------------------------------

  lemma RespondingFacts(s: State, w: Worker)
    requires CanRespond(s, w) && RxOk(s.rx, s.posts, s.routes, s.inc, s.registered, s.written) && PostsOk(s.posts)
    ensures var t := s.rx[w];
      var h := IncPost(t.place);
      && h in s.posts && h in s.registered && s.posts[h].op.Read? && t.place == TargetPlace(s.posts[h], h)
      && t.place.key.peer == h.owner && t.place.host == s.posts[h].target && t.place.key.handle == h.handle
      && Place(t.place.host, Key(NOBODY, t.place.key.handle)) == SendPlace(s.posts[h], h)
      && BatchOk(t.infos, h, s.posts[h].target, s.routes)
  {
    assert RxEntryOk(w, s.rx[w], s.posts, s.routes, s.inc, s.registered, s.written);
  }

  lemma RespondKeeps(s: State, w: Worker)
    requires Inv(s) && CanRespond(s, w)
    ensures Inv(DoRespond(s, w))
  {
    var t := s.rx[w];
    var k := Place(t.place.host, Key(NOBODY, t.place.key.handle));
    RespondingFacts(s, w);
    MoveWorker(s, w, Idle);
    if k !in s.out {
      var u := s.(rx := s.rx[w := Idle]);
      NewOutEntry(u, k, Relay(t.place.key.peer));
      QueueKeeps(u.(out := AddHandle(s.out, k, Relay(t.place.key.peer))), IncPost(t.place), t.infos);
    }
  }

  lemma QueueKeeps(s: State, h: PostId, infos: map<ReqId, RequestInfo>)
    requires Inv(s) && h in s.posts && s.posts[h].op.Read? && BatchOk(infos, h, s.posts[h].target, s.routes)
    ensures Inv(s.(queued := s.queued[h := Batch(s.posts[h].target, infos)]))
  {
  }

  /** AddReqs at an outgoing entry, with descriptors that match the post. */
  lemma FillOut(s: State, k: Place, h: PostId, infos: map<ReqId, RequestInfo>, op: Op)
    requires OutOk(s.out, s.posts, s.routes, s.written) && k in s.out && OutPost(k, s.out[k]) == h
    requires infos != map[] && SameIds(infos.Keys, h, s.routes)
    requires forall r <- infos :: infos[r].nchunks >= 1 && infos[r].nchunks + 1 == |s.routes[Id(h, r)].cuts|
    ensures OutOk(AddReqs(s.out, k, infos, |infos|, op, [], map[]), s.posts, s.routes, s.written)
  {
    var out' := AddReqs(s.out, k, infos, |infos|, op, [], map[]);
    assert OutEntryOk(k, s.out[k], s.posts, s.routes, s.written);
    if !Populated(s.out, k) {
      var reqs := NewReqs(infos, map[]);
      assert reqs.Keys == infos.Keys;
      var r :| r in infos;
      assert r in reqs && !Full(reqs[r].chunks) by {
        assert 0 !in reqs[r].chunks.done;
      }
      assert OutEntryOk(k, out'[k], s.posts, s.routes, s.written);
    }
  }

  lemma ServedInfosMatch(infos: map<ReqId, RequestInfo>, h: PostId, host: Host, routes: map<Id, Route>)
    requires BatchOk(infos, h, host, routes)
    ensures var served := ServedInfos(infos);
      && served != map[] && SameIds(served.Keys, h, routes)
      && forall r <- served :: served[r].nchunks >= 1 && served[r].nchunks + 1 == |routes[Id(h, r)].cuts|
  {
    assert ServedInfos(infos).Keys == infos.Keys;
    forall r | r in infos ensures infos[r].nchunks >= 1 && infos[r].nchunks + 1 == |routes[Id(h, r)].cuts| {
      assert Describes(infos[r], Id(h, r), host, routes);
    }
  }

  /** What the responder sends is cut as the initiator expects it. */
  lemma ServedLoadOk(s: State, h: PostId)
    requires h in s.queued && QueuedOk(s.queued, s.posts, s.routes) && SendingOk(s.sending, s.posts, s.routes)
    requires PostsOk(s.posts)
    ensures SendingOk(s.sending[h := ServedLoad(h, s.queued[h])], s.posts, s.routes)
  {
    var load := ServedLoad(h, s.queued[h]);
    forall r | r in load.jobs ensures JobOk(load.jobs[r], Id(h, r), DataSender(s.posts[h]), s.routes) {
      assert Describes(s.queued[h].infos[r], Id(h, r), s.posts[h].target, s.routes);
    }
  }

  lemma ProcessReadKeeps(s: State, h: PostId)
    requires Inv(s) && CanProcessRead(s, h) && h in s.posts
    requires var k := SendPlace(s.posts[h], h); k in s.out && OutPost(k, s.out[k]) == h
    ensures Inv(DoProcessRead(s, h))
  {
    var infos := s.queued[h].infos;
    ServedInfosMatch(infos, h, s.posts[h].target, s.routes);
    FillOut(s, SendPlace(s.posts[h], h), h, ServedInfos(infos), Write);
    ServedLoadOk(s, h);
  }

  // --- Processing a post ------------------------------------------------------------------

  /** The requests of a post get their routes. */
  ghost predicate Routed(b: map<Id, Route>, p: Post, h: PostId, reqs: map<ReqId, Request>) {
    && SameIds(reqs.Keys, h, b)
    && forall r <- reqs :: ValidRequest(reqs[r]) && b[Id(h, r)] == LocalRoute(p, reqs[r])
         && |b[Id(h, r)].cuts| == reqs[r].nchunks + 1
  }

  lemma NewRoutesExtend(s: State, h: PostId, reqs: map<ReqId, Request>)
    requires CanProcess(s, h, reqs)
    ensures var b := s.routes + NewRoutes(s.posts[h], h, reqs);
      Extends(s.routes, b, h) && Routed(b, s.posts[h], h, reqs)
  {
    var b := s.routes + NewRoutes(s.posts[h], h, reqs);
    forall r | r in reqs ensures Id(h, r) in b && b[Id(h, r)] == LocalRoute(s.posts[h], reqs[r]) {
      assert Id(h, r) in (set q | q in reqs :: Id(h, q));
    }
  }

  lemma LocalRouteOk(p: Post, q: Request)
    requires ValidRequest(q)
    ensures RouteOk(LocalRoute(p, q), p, false)
  {
    CutsPartition(q.len, q.nchunks);
  }

  lemma NewRoutesUnique(s: State, h: PostId, reqs: map<ReqId, Request>)
    requires h in s.posts && (forall x <- s.routes :: x.r !in reqs)
    requires (forall r <- reqs :: ValidRequest(reqs[r])) && UniqueIds(s.routes)
    ensures UniqueIds(s.routes + NewRoutes(s.posts[h], h, reqs))
  {
  }

  lemma NewRoutesOk(s: State, h: PostId, reqs: map<ReqId, Request>)
    requires h in s.posts && (forall r <- reqs :: ValidRequest(reqs[r]))
    requires RoutesOk(s.routes, s.posts, s.registered) && h !in s.registered
    ensures RoutesOk(s.routes + NewRoutes(s.posts[h], h, reqs), s.posts, s.registered)
  {
    var b := s.routes + NewRoutes(s.posts[h], h, reqs);
    forall x | x in b ensures x.h in s.posts && RouteOk(b[x], s.posts[x.h], x.h in s.registered) {
      if x in NewRoutes(s.posts[h], h, reqs) {
        LocalRouteOk(s.posts[h], reqs[x.r]);
      }
    }
  }

  lemma NewInfoOk(s: State, h: PostId, reqs: map<ReqId, Request>, meta: Metadata, b: map<Id, Route>)
    requires h in s.posts && reqs != map[] && Routed(b, s.posts[h], h, reqs)
    ensures var p := s.posts[h];
      InfoOk(InfoFrame(p.initiator, p.target, h, p.op, WireInfos(p.op, reqs), meta), s.posts, b)
  {
    var p := s.posts[h];
    assert WireInfos(p.op, reqs).Keys == reqs.Keys;
    var r :| r in reqs;
    assert r in WireInfos(p.op, reqs);
  }

  lemma LocalInfosMatch(p: Post, h: PostId, reqs: map<ReqId, Request>, b: map<Id, Route>)
    requires reqs != map[] && Routed(b, p, h, reqs)
    ensures var infos := LocalInfos(p.op, reqs);
      && infos != map[] && SameIds(infos.Keys, h, b) && |infos| == |reqs|
      && forall r <- infos :: infos[r].nchunks >= 1 && infos[r].nchunks + 1 == |b[Id(h, r)].cuts|
  {
    var infos := LocalInfos(p.op, reqs);
    assert infos.Keys == reqs.Keys;
    SameSize(infos, reqs);
  }

  lemma LocalLoadOk(s: State, h: PostId, reqs: map<ReqId, Request>, b: map<Id, Route>)
    requires h in s.posts && s.posts[h].op.Write? && Routed(b, s.posts[h], h, reqs)
    requires SendingOk(s.sending, s.posts, b)
    ensures SendingOk(s.sending[h := LocalLoad(s.posts[h], reqs)], s.posts, b)
  {
  }

  lemma RegisteredHasRequests(s: State, h: PostId)
    requires IncOk(s.inc, s.posts, s.routes, s.registered, s.delivered) && PostsOk(s.posts)
    ensures h in s.registered ==> HasRequests(h, s.routes)
  {
    if h in s.registered {
      var k := TargetPlace(s.posts[h], h);
      RecvPlaceIs(s.posts, h);
      assert IncEntryOk(k, s.inc[k], s.posts, s.routes, s.registered, s.delivered);
      var r :| r in s.inc[k].reqs;
      assert Id(h, r) in s.routes;
    }
  }

  lemma AddFrameKeeps(s: State, f: Frame, b: map<Id, Route>)
    requires NetOk(s.net, s.posts, b, s.written) && NetFresh(s.net, s.mem, b, s.freed)
    requires f.InfoFrame? && InfoOk(f, s.posts, b)
    ensures NetOk(s.net + {f}, s.posts, b, s.written) && NetFresh(s.net + {f}, s.mem, b, s.freed)
  {
  }

  /** What more known routes leave alone. */
  lemma RoutesGrow(s: State, h: PostId, b: map<Id, Route>)
    requires Inv(s) && Extends(s.routes, b, h) && (h !in s.reported || forall x <- b :: x in s.routes)
    ensures DeliveredOk(s.written, b) && DeliveredOk(s.delivered, b) && Good(s.mem, b, s.delivered, s.freed)
    ensures NetOk(s.net, s.posts, b, s.written) && NetFresh(s.net, s.mem, b, s.freed)
    ensures IncOk(s.inc, s.posts, b, s.registered, s.delivered) && OutOk(s.out, s.posts, b, s.written)
    ensures EchoesOk(s.inc, s.posts, b, s.written)
    ensures QueuedOk(s.queued, s.posts, b) && SendingOk(s.sending, s.posts, b)
    ensures RxOk(s.rx, s.posts, b, s.inc, s.registered, s.written) && RxStored(s.rx, s.mem, b, s.freed)
    ensures ReportedOk(s.reported, s.posts, b, s.delivered) && CountedOk(s.counted, b, s.delivered)
    ensures TokensOk(s.rx, s.posts, b, s.counted, s.delivered)
  {
    ExtendKeepsDelivered(s, b, h);
    ExtendKeepsNet(s, b, h);
    ExtendKeepsOut(s, b, h);
    ExtendKeepsInc(s, b, h);
    ExtendKeepsEchoes(s, b, h);
    ExtendKeepsLoads(s, b, h);
    ExtendKeepsRx(s, b, h);
    ExtendKeepsCounts(s, b, h);
  }

  /** A write's receiving entry comes with its requests. */
  lemma ExtendPopulated(s: State, h: PostId, b: map<Id, Route>)
    requires Extends(s.routes, b, h) && PopulatedOk(s.inc, s.posts, s.routes) && PostsOk(s.posts)
    requires IncOk(s.inc, s.posts, s.routes, s.registered, s.delivered) && h in s.posts && s.posts[h].op.Write?
    ensures PopulatedOk(s.inc, s.posts, b)
  {
    var k := RecvPlace(s.posts[h], h);
    RecvPlaceIs(s.posts, h);
    assert k in s.inc ==> IncEntryOk(k, s.inc[k], s.posts, s.routes, s.registered, s.delivered);
  }

  /** What processing has in common for writes and reads: the routes and the PostInfo. */
  lemma ProcessGrows(s: State, h: PostId, reqs: map<ReqId, Request>, meta: Metadata)
    requires Inv(s) && CanProcess(s, h, reqs)
    ensures var p := s.posts[h];
      var b := s.routes + NewRoutes(p, h, reqs);
      var f := InfoFrame(p.initiator, p.target, h, p.op, WireInfos(p.op, reqs), meta);
      && Extends(s.routes, b, h) && Routed(b, p, h, reqs) && h !in s.reported && h !in s.registered
      && RoutesOk(b, s.posts, s.registered) && UniqueIds(b)
      && NetOk(s.net + {f}, s.posts, b, s.written) && NetFresh(s.net + {f}, s.mem, b, s.freed)
  {
    var p := s.posts[h];
    var b := s.routes + NewRoutes(p, h, reqs);
    RegisteredHasRequests(s, h);
    NewRoutesExtend(s, h, reqs);
    NewRoutesOk(s, h, reqs);
    NewRoutesUnique(s, h, reqs);
    ExtendKeepsNet(s, b, h);
    NewInfoOk(s, h, reqs, meta, b);
    AddFrameKeeps(s, InfoFrame(p.initiator, p.target, h, p.op, WireInfos(p.op, reqs), meta), b);
  }

  lemma ProcessWriteKeeps(s: State, h: PostId, reqs: map<ReqId, Request>, meta: Metadata)
    requires Inv(s) && CanProcess(s, h, reqs) && s.posts[h].op.Write? && HomePlace(s.posts[h], h) in s.out
    requires OutPost(HomePlace(s.posts[h], h), s.out[HomePlace(s.posts[h], h)]) == h
    ensures Inv(DoProcess(s, h, reqs, meta))
  {
    var p := s.posts[h];
    var b := s.routes + NewRoutes(p, h, reqs);
    ProcessGrows(s, h, reqs, meta);
    RoutesGrow(s, h, b);
    LocalInfosMatch(p, h, reqs, b);
    FillOut(s.(routes := b), HomePlace(p, h), h, LocalInfos(p.op, reqs), p.op);
    LocalLoadOk(s, h, reqs, b);
    ExtendPopulated(s, h, b);
  }

  /** The initiator's entry of a read after Add. */
  function FilledHome(pt: PostTracker, reqs: map<ReqId, Request>): PostTracker {
    pt.(reqs := NewReqs(LocalInfos(Read, reqs), map[]), meta := [], pending := |reqs|)
  }

  lemma FillHomeIs(inc: Table, k: Place, reqs: map<ReqId, Request>)
    requires k in inc && inc[k].reqs == map[] && inc[k].initiator
    ensures AddReqs(inc, k, LocalInfos(Read, reqs), |reqs|, Read, [], map[]) == inc[k := FilledHome(inc[k], reqs)]
    ensures FilledHome(inc[k], reqs).reqs.Keys == reqs.Keys
    ensures forall r <- reqs ::
      FilledHome(inc[k], reqs).reqs[r] == ReqTracker(NewChunks(reqs[r].nchunks), reqs[r].laddr, reqs[r].meta)
  {
  }

  lemma FillHomeReceives(s: State, p: Post, q: Request, x: Id, b: map<Id, Route>)
    requires DeliveredOk(s.delivered, s.routes) && x !in s.routes && x in b
    requires p.op.Read? && ValidRequest(q) && b[x] == LocalRoute(p, q) && |b[x].cuts| == q.nchunks + 1
    ensures Receives(ReqTracker(NewChunks(q.nchunks), q.laddr, q.meta), x, b, s.delivered)
  {
  }

  lemma FillHomeOk(s: State, h: PostId, reqs: map<ReqId, Request>, b: map<Id, Route>, pt: PostTracker)
    requires h in s.posts && s.posts[h].op.Read? && PostsOk(s.posts) && (forall x <- s.routes :: x.h != h)
    requires DeliveredOk(s.delivered, s.routes) && Routed(b, s.posts[h], h, reqs)
    requires pt.initiator && pt.reqs.Keys == reqs.Keys
    requires forall r <- reqs :: pt.reqs[r] == ReqTracker(NewChunks(reqs[r].nchunks), reqs[r].laddr, reqs[r].meta)
    ensures IncEntryOk(HomePlace(s.posts[h], h), pt, s.posts, b, s.registered, s.delivered)
  {
    RecvPlaceIs(s.posts, h);
    forall r | r in reqs ensures Receives(pt.reqs[r], Id(h, r), b, s.delivered) {
      FillHomeReceives(s, s.posts[h], reqs[r], Id(h, r), b);
    }
  }

  lemma HomeInitiates(s: State, h: PostId)
    requires IncOk(s.inc, s.posts, s.routes, s.registered, s.delivered) && h in s.posts && PostsOk(s.posts)
    requires HomePlace(s.posts[h], h) in s.inc
    ensures s.inc[HomePlace(s.posts[h], h)].initiator
  {
    var k := HomePlace(s.posts[h], h);
    RecvPlaceIs(s.posts, h);
    assert IncEntryOk(k, s.inc[k], s.posts, s.routes, s.registered, s.delivered);
  }

  lemma FillHomePending(s: State, h: PostId, pt: PostTracker, b: map<Id, Route>)
    requires PendingOk(s.inc, s.posts, s.counted) && CountedOk(s.counted, s.routes, s.delivered) && PostsOk(s.posts)
    requires PopulatedOk(s.inc, s.posts, s.routes) && Extends(s.routes, b, h) && EchoesOk(s.inc, s.posts, b, s.written)
    requires h in s.posts && (forall x <- s.routes :: x.h != h)
    requires pt.reqs != map[] && pt.pending == |pt.reqs|
    ensures var inc' := s.inc[HomePlace(s.posts[h], h) := pt];
      && PendingOk(inc', s.posts, s.counted) && EchoesOk(inc', s.posts, b, s.written)
      && (s.posts[h].op.Read? ==> PopulatedOk(inc', s.posts, b))
  {
    var k := HomePlace(s.posts[h], h);
    RecvPlaceIs(s.posts, h);
    NoCountsOf(s, h);
    assert !ServesRead(s.posts, k);
    forall x | x in b && x.h in s.posts && RecvPlace(s.posts[x.h], x.h) == k ensures x.h == h {
      RecvPlaceIs(s.posts, x.h);
    }
  }

  lemma NoCountsOf(s: State, h: PostId)
    requires CountedOk(s.counted, s.routes, s.delivered) && forall x <- s.routes :: x.h != h
    ensures CountedOf(s.counted, h) == {}
  {
  }

  lemma ProcessReadPostKeeps(s: State, h: PostId, reqs: map<ReqId, Request>, meta: Metadata)
    requires Inv(s) && CanProcess(s, h, reqs) && s.posts[h].op.Read?
    requires HomePlace(s.posts[h], h) in s.inc && s.inc[HomePlace(s.posts[h], h)].reqs == map[]
    ensures Inv(DoProcess(s, h, reqs, meta))
  {
    var p := s.posts[h];
    var k := HomePlace(p, h);
    var b := s.routes + NewRoutes(p, h, reqs);
    var pt := FilledHome(s.inc[k], reqs);
    ProcessGrows(s, h, reqs, meta);
    RoutesGrow(s, h, b);
    HomeInitiates(s, h);
    FillHomeIs(s.inc, k, reqs);
    FillHomeOk(s, h, reqs, b, pt);
    SetIncEntry(s.inc, k, pt, s.posts, b, s.registered, s.delivered);
    SameSize(pt.reqs, reqs);
    FillHomePending(s, h, pt, b);
    FillKeepsBusy(s.inc, k, pt);
    SameWriters(s.(routes := b), s.inc[k := pt]);
  }

  lemma SameSize<A, B>(a: map<ReqId, A>, b: map<ReqId, B>)
    requires a.Keys == b.Keys && b != map[]
    ensures |a| == |b| && a != map[]
  {
    assert |a| == |a.Keys| && |b| == |b.Keys|;
    var r :| r in b;
    assert r in a;
  }

  lemma ProcessKeeps(s: State, h: PostId, reqs: map<ReqId, Request>, meta: Metadata)
    requires Inv(s) && CanProcess(s, h, reqs)
    requires var k := HomePlace(s.posts[h], h);
      if s.posts[h].op.Write? then k in s.out && OutPost(k, s.out[k]) == h else k in s.inc && s.inc[k].reqs == map[]
    ensures Inv(DoProcess(s, h, reqs, meta))
  {
    if s.posts[h].op.Write? {
      ProcessWriteKeeps(s, h, reqs, meta);
    } else {
      ProcessReadPostKeeps(s, h, reqs, meta);
    }
  }

  // --- A PostInfo arrives -------------------------------------------------------------------

  /** The entry a registering PostInfo makes. */
  function Registered(f: Frame, resolve: map<ReqId, Addr>): PostTracker
    requires f.InfoFrame?
  {
    PostTracker(NewReqs(f.infos, resolve), if f.op.Read? then 1 else |f.infos|, f.meta, Silent, false)
  }

  /** A PostInfo registers its post only if nothing is there yet. */
  lemma RegistersWhen(s: State, f: Frame, resolve: map<ReqId, Addr>)
    requires f.InfoFrame? && InfoOk(f, s.posts, s.routes) && PostsOk(s.posts)
    requires IncOk(s.inc, s.posts, s.routes, s.registered, s.delivered)
    ensures InfoPlace(f) == TargetPlace(s.posts[f.h], f.h) && IncPost(InfoPlace(f)) == f.h
    ensures InfoPlace(f) in s.inc ==> Populated(s.inc, InfoPlace(f)) && !s.inc[InfoPlace(f)].initiator
    ensures InfoPlace(f) !in s.inc ==> f.h !in s.registered
    ensures Registers(s, f, resolve) <==> InfoPlace(f) !in s.inc && AllResolve(f.infos, resolve)
  {
    var k := InfoPlace(f);
    RecvPlaceIs(s.posts, f.h);
    assert k in s.inc ==> IncEntryOk(k, s.inc[k], s.posts, s.routes, s.registered, s.delivered);
  }

  lemma AddReqsIs(inc: Table, k: Place, f: Frame, resolve: map<ReqId, Addr>)
    requires f.InfoFrame?
    ensures Populated(inc, k) || (k !in inc && !AllResolve(f.infos, resolve)) ==>
      && AddReqs(inc, k, f.infos, |f.infos|, f.op, f.meta, resolve) == inc
      && AddCall(inc, k, f.infos, f.op, resolve) == NoCall
    ensures k !in inc && AllResolve(f.infos, resolve) ==>
      && AddReqs(inc, k, f.infos, |f.infos|, f.op, f.meta, resolve) == inc[k := Registered(f, resolve)]
      && AddCall(inc, k, f.infos, f.op, resolve)
           == (if f.op.Read? then RecvRead(Resolved(f.infos, resolve)) else NoCall)
  {
  }

  /** A PostInfo that does not register its post changes nothing. */
  lemma RecvInfoOutcome(s: State, w: Worker, f: Frame, resolve: map<ReqId, Addr>)
    requires CanRecvInfo(s, w, f, resolve) && InfoOk(f, s.posts, s.routes) && PostsOk(s.posts)
    requires IncOk(s.inc, s.posts, s.routes, s.registered, s.delivered)
    ensures !Registers(s, f, resolve) ==> DoRecvInfo(s, w, f, resolve) == s
    ensures Registers(s, f, resolve) ==>
      && InfoPlace(f) == TargetPlace(s.posts[f.h], f.h) && InfoPlace(f) !in s.inc && f.h !in s.registered
      && AllResolve(f.infos, resolve)
      && DoRecvInfo(s, w, f, resolve) == s.(
           inc := s.inc[InfoPlace(f) := Registered(f, resolve)],
           routes := BindRoutes(s, f, resolve), registered := s.registered + {f.h},
           rx := if f.op.Read? then s.rx[w := Responding(InfoPlace(f), Resolved(f.infos, resolve))] else s.rx,
           served := if f.op.Read? then s.served + multiset{f.h} else s.served)
  {
    RegistersWhen(s, f, resolve);
    AddReqsIs(s.inc, InfoPlace(f), f, resolve);
  }

  lemma BindRouteOk(p: Post, route: Route, a: Addr)
    requires RouteOk(route, p, false) && a != 0
    ensures RouteOk(BindRoute(p, route, a), p, true) && BindRoute(p, route, a).cuts == route.cuts
    ensures route.src.Some? ==> BindRoute(p, route, a).src == route.src
    ensures route.dst.Some? ==> BindRoute(p, route, a).dst == route.dst
  {
    assert Len(BindRoute(p, route, a)) == Len(route);
  }

  lemma BoundRoute(s: State, f: Frame, resolve: map<ReqId, Addr>, x: Id)
    requires f.InfoFrame? && InfoOk(f, s.posts, s.routes) && f.h !in s.registered && AllResolve(f.infos, resolve)
    requires x in s.routes && x.h in s.posts && RouteOk(s.routes[x], s.posts[x.h], x.h in s.registered)
    ensures var b := BindRoutes(s, f, resolve);
      && x in b && RouteOk(b[x], s.posts[x.h], x.h in s.registered + {f.h}) && b[x].cuts == s.routes[x].cuts
      && (s.routes[x].src.Some? ==> b[x].src == s.routes[x].src)
      && (s.routes[x].dst.Some? ==> b[x].dst == s.routes[x].dst)
  {
    if x.h == f.h {
      BindRouteOk(s.posts[x.h], s.routes[x], Resolve(f.infos[x.r], resolve));
    }
  }

  lemma BindExtends(s: State, f: Frame, resolve: map<ReqId, Addr>)
    requires f.InfoFrame? && InfoOk(f, s.posts, s.routes) && f.h !in s.registered && AllResolve(f.infos, resolve)
    requires RoutesOk(s.routes, s.posts, s.registered) && UniqueIds(s.routes)
    ensures Extends(s.routes, BindRoutes(s, f, resolve), f.h) && UniqueIds(BindRoutes(s, f, resolve))
    ensures RoutesOk(BindRoutes(s, f, resolve), s.posts, s.registered + {f.h})
  {
    var b := BindRoutes(s, f, resolve);
    assert b.Keys == s.routes.Keys;
    forall x | x in s.routes
      ensures x.h in s.posts && RouteOk(b[x], s.posts[x.h], x.h in s.registered + {f.h})
      ensures b[x].cuts == s.routes[x].cuts
      ensures s.routes[x].src.Some? ==> b[x].src == s.routes[x].src
      ensures s.routes[x].dst.Some? ==> b[x].dst == s.routes[x].dst
    {
      BoundRoute(s, f, resolve, x);
    }
  }

  /** No chunk of an unregistered post is written or counted. */
  lemma NothingYet(s: State, h: PostId)
    requires h !in s.registered && RoutesOk(s.routes, s.posts, s.registered)
    requires DeliveredOk(s.delivered, s.routes) && CountedOk(s.counted, s.routes, s.delivered)
    ensures forall c <- s.delivered :: c.id.h != h
    ensures CountedOf(s.counted, h) == {}
  {
    forall c | c in s.delivered ensures c.id.h != h {
      assert RouteOk(s.routes[c.id], s.posts[c.id.h], c.id.h in s.registered);
    }
    forall x | x in s.counted ensures x.h != h {
      assert RouteOk(s.routes[x], s.posts[x.h], x.h in s.registered);
      assert ChunkId(x, 0) in s.delivered;
    }
  }

  lemma RegisteredTracks(s: State, f: Frame, resolve: map<ReqId, Addr>, r: ReqId)
    requires f.InfoFrame? && InfoOk(f, s.posts, s.routes) && r in f.infos
    requires forall c <- s.delivered :: c.id.h != f.h
    ensures var rt, b := NewReq(f.infos[r], resolve), BindRoutes(s, f, resolve);
      if f.op.Write? then Receives(rt, Id(f.h, r), b, s.delivered) else Echoes(rt, Id(f.h, r), b, s.written)
  {
  }

  lemma RegisteredEntryOk(s: State, f: Frame, resolve: map<ReqId, Addr>)
    requires f.InfoFrame? && InfoOk(f, s.posts, s.routes) && PostsOk(s.posts)
    requires forall c <- s.delivered :: c.id.h != f.h
    ensures IncEntryOk(TargetPlace(s.posts[f.h], f.h), Registered(f, resolve), s.posts, BindRoutes(s, f, resolve),
                       s.registered + {f.h}, s.delivered)
  {
    var k := TargetPlace(s.posts[f.h], f.h);
    var b := BindRoutes(s, f, resolve);
    var reqs := Registered(f, resolve).reqs;
    RecvPlaceIs(s.posts, f.h);
    assert reqs.Keys == f.infos.Keys;
    var r0 :| r0 in f.infos;
    assert r0 in reqs;
    assert SameIds(reqs.Keys, f.h, b);
    forall r | r in reqs && k == RecvPlace(s.posts[f.h], f.h) ensures Receives(reqs[r], Id(f.h, r), b, s.delivered) {
      RegisteredTracks(s, f, resolve, r);
    }
  }

  lemma RegisterEchoes(s: State, f: Frame, resolve: map<ReqId, Addr>)
    requires f.InfoFrame? && InfoOk(f, s.posts, s.routes) && PostsOk(s.posts)
    requires forall c <- s.delivered :: c.id.h != f.h
    requires EchoesOk(s.inc, s.posts, BindRoutes(s, f, resolve), s.written)
    ensures EchoesOk(s.inc[TargetPlace(s.posts[f.h], f.h) := Registered(f, resolve)], s.posts,
                     BindRoutes(s, f, resolve), s.written)
  {
    var k := TargetPlace(s.posts[f.h], f.h);
    var reqs := Registered(f, resolve).reqs;
    RecvPlaceIs(s.posts, f.h);
    forall r | r in reqs && ServesRead(s.posts, k)
      ensures Echoes(reqs[r], Id(f.h, r), BindRoutes(s, f, resolve), s.written)
    {
      RegisteredTracks(s, f, resolve, r);
    }
  }

  lemma RegisterEntry(s: State, pt: PostTracker, h: PostId)
    requires IncOk(s.inc, s.posts, s.routes, s.registered, s.delivered) && h in s.posts
    requires IncEntryOk(TargetPlace(s.posts[h], h), pt, s.posts, s.routes, s.registered + {h}, s.delivered)
    ensures IncOk(s.inc[TargetPlace(s.posts[h], h) := pt], s.posts, s.routes, s.registered + {h}, s.delivered)
  {
    forall k | k in s.inc ensures IncEntryOk(k, s.inc[k], s.posts, s.routes, s.registered + {h}, s.delivered) {
      assert IncEntryOk(k, s.inc[k], s.posts, s.routes, s.registered, s.delivered);
    }
  }

  lemma RegisterKeepsRx(s: State, h: PostId)
    requires RxOk(s.rx, s.posts, s.routes, s.inc, s.registered, s.written)
    ensures RxOk(s.rx, s.posts, s.routes, s.inc, s.registered + {h}, s.written)
  {
    forall w | w in s.rx ensures RxEntryOk(w, s.rx[w], s.posts, s.routes, s.inc, s.registered + {h}, s.written) {
      assert RxEntryOk(w, s.rx[w], s.posts, s.routes, s.inc, s.registered, s.written);
    }
  }

  lemma RegisterPending(s: State, h: PostId, pt: PostTracker, b: map<Id, Route>)
    requires PendingOk(s.inc, s.posts, s.counted) && PopulatedOk(s.inc, s.posts, s.routes) && PostsOk(s.posts)
    requires h in s.posts && CountedOf(s.counted, h) == {} && b.Keys == s.routes.Keys
    requires pt.reqs != map[] && (s.posts[h].op.Write? ==> pt.pending == |pt.reqs|)
    ensures PendingOk(s.inc[TargetPlace(s.posts[h], h) := pt], s.posts, s.counted)
    ensures PopulatedOk(s.inc[TargetPlace(s.posts[h], h) := pt], s.posts, b)
  {
    RecvPlaceIs(s.posts, h);
    assert s.posts[h].op.Read? ==> TargetPlace(s.posts[h], h) != RecvPlace(s.posts[h], h);
  }

  lemma RegisteredFacts(s: State, f: Frame, resolve: map<ReqId, Addr>)
    requires f.InfoFrame? && f.infos != map[] && f.h in s.posts
    ensures Registered(f, resolve).reqs != map[]
    ensures f.op.Write? ==> Registered(f, resolve).pending == |Registered(f, resolve).reqs|
    ensures BindRoutes(s, f, resolve).Keys == s.routes.Keys
  {
    assert Registered(f, resolve).reqs.Keys == f.infos.Keys;
    SameSize(Registered(f, resolve).reqs, f.infos);
  }

  /** What is known when a PostInfo registers its post. */
  ghost predicate Accepts(s: State, f: Frame, resolve: map<ReqId, Addr>) {
    && f.InfoFrame? && InfoOk(f, s.posts, s.routes) && f.h !in s.registered
    && TargetPlace(s.posts[f.h], f.h) !in s.inc && AllResolve(f.infos, resolve)
  }

  lemma RegisterTables(s: State, f: Frame, resolve: map<ReqId, Addr>, b: map<Id, Route>)
    requires PostsOk(s.posts) && RoutesOk(s.routes, s.posts, s.registered)
    requires DeliveredOk(s.delivered, s.routes) && CountedOk(s.counted, s.routes, s.delivered)
    requires PopulatedOk(s.inc, s.posts, s.routes) && PendingOk(s.inc, s.posts, s.counted)
    requires Accepts(s, f, resolve) && b == BindRoutes(s, f, resolve)
    requires IncOk(s.inc, s.posts, b, s.registered, s.delivered) && EchoesOk(s.inc, s.posts, b, s.written)
    ensures var inc' := s.inc[TargetPlace(s.posts[f.h], f.h) := Registered(f, resolve)];
      && IncOk(inc', s.posts, b, s.registered + {f.h}, s.delivered) && EchoesOk(inc', s.posts, b, s.written)
      && PopulatedOk(inc', s.posts, b) && PendingOk(inc', s.posts, s.counted)
  {
    var pt := Registered(f, resolve);
    NothingYet(s, f.h);
    RegisteredEntryOk(s, f, resolve);
    RegisterEntry(s.(routes := b), pt, f.h);
    RegisterEchoes(s, f, resolve);
    RegisteredFacts(s, f, resolve);
    RegisterPending(s, f.h, pt, b);
  }

  function AfterRegister(s: State, f: Frame, resolve: map<ReqId, Addr>): State
    requires f.InfoFrame? && f.h in s.posts
  {
    s.(inc := s.inc[InfoPlace(f) := Registered(f, resolve)],
       routes := BindRoutes(s, f, resolve), registered := s.registered + {f.h})
  }

  lemma RegisterKeeps(s: State, f: Frame, resolve: map<ReqId, Addr>)
    requires Inv(s) && Accepts(s, f, resolve) && Separate(BindRoutes(s, f, resolve), s.freed)
    ensures Inv(AfterRegister(s, f, resolve))
  {
    var b := BindRoutes(s, f, resolve);
    var k := InfoPlace(f);
    BindExtends(s, f, resolve);
    RoutesGrow(s, f.h, b);
    RegisterTables(s, f, resolve, b);
    FillKeepsBusy(s.inc, k, Registered(f, resolve));
    SameWriters(s.(routes := b), s.inc[k := Registered(f, resolve)]);
    RegisterKeepsRx(s.(routes := b, inc := s.inc[k := Registered(f, resolve)]), f.h);
  }

  /** The resolved descriptors say what the routes are. */
  lemma ResolvedDescribe(s: State, f: Frame, resolve: map<ReqId, Addr>)
    requires f.InfoFrame? && InfoOk(f, s.posts, s.routes) && f.op.Read?
    ensures BatchOk(Resolved(f.infos, resolve), f.h, s.posts[f.h].target, BindRoutes(s, f, resolve))
  {
    var infos, b := Resolved(f.infos, resolve), BindRoutes(s, f, resolve);
    assert infos.Keys == f.infos.Keys;
    var r0 :| r0 in f.infos;
    assert r0 in infos;
    forall r | r in infos ensures Describes(infos[r], Id(f.h, r), s.posts[f.h].target, b) {
      assert b[Id(f.h, r)].cuts == s.routes[Id(f.h, r)].cuts;
    }
  }

  lemma StartResponding(s: State, w: Worker, h: PostId, infos: map<ReqId, RequestInfo>)
    requires Inv(s) && Ready(s, w) && h in s.registered && h in s.posts && s.posts[h].op.Read?
    requires BatchOk(infos, h, s.posts[h].target, s.routes)
    ensures Inv(s.(rx := s.rx[w := Responding(TargetPlace(s.posts[h], h), infos)]))
  {
    var t := Responding(TargetPlace(s.posts[h], h), infos);
    RecvPlaceIs(s.posts, h);
    SetWorker(s, w, t);
    SetTokenless(s, w, t);
  }

  lemma InfoInNet(s: State, f: Frame)
    requires NetOk(s.net, s.posts, s.routes, s.written) && f in s.net && f.InfoFrame?
    ensures InfoOk(f, s.posts, s.routes)
  {
  }

  lemma RecvInfoKeeps(s: State, w: Worker, f: Frame, resolve: map<ReqId, Addr>)
    requires Inv(s) && CanRecvInfo(s, w, f, resolve)
    ensures Inv(DoRecvInfo(s, w, f, resolve))
  {
    InfoInNet(s, f);
    RecvInfoOutcome(s, w, f, resolve);
    if Registers(s, f, resolve) {
      RegisterKeeps(s, f, resolve);
      if f.op.Read? {
        ResolvedDescribe(s, f, resolve);
        StartResponding(AfterRegister(s, f, resolve), w, f.h, Resolved(f.infos, resolve));
      }
    }
  }
}
