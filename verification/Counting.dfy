/** Release and OnReqComplete keep the invariant: every request is counted once, when it is all there. */
module Counting {
  import opened Options
  import opened Trackers
  import opened Layout
  import opened Protocol
  import opened Invariant
  import opened Safety

  // --- Releasing a chunk -----------------------------------------------------------------

  lemma MoreWritten(s: State, c: ChunkId)
    requires NetOk(s.net, s.posts, s.routes, s.written) && OutOk(s.out, s.posts, s.routes, s.written)
    requires RxOk(s.rx, s.posts, s.routes, s.inc, s.registered, s.written)
    ensures NetOk(s.net, s.posts, s.routes, s.written + {c}) && OutOk(s.out, s.posts, s.routes, s.written + {c})
    ensures RxOk(s.rx, s.posts, s.routes, s.inc, s.registered, s.written + {c})
  {
    forall k | k in s.out ensures OutEntryOk(k, s.out[k], s.posts, s.routes, s.written + {c}) {
      assert OutEntryOk(k, s.out[k], s.posts, s.routes, s.written);
    }
    forall w | w in s.rx ensures RxEntryOk(w, s.rx[w], s.posts, s.routes, s.inc, s.registered, s.written + {c}) {
      assert RxEntryOk(w, s.rx[w], s.posts, s.routes, s.inc, s.registered, s.written);
    }
  }

  lemma MoreDeliveredCounts(s: State, c: ChunkId)
    requires ReportedOk(s.reported, s.posts, s.routes, s.delivered) && CountedOk(s.counted, s.routes, s.delivered)
    requires TokensOk(s.rx, s.posts, s.routes, s.counted, s.delivered)
    ensures ReportedOk(s.reported, s.posts, s.routes, s.delivered + {c})
    ensures CountedOk(s.counted, s.routes, s.delivered + {c})
    ensures TokensOk(s.rx, s.posts, s.routes, s.counted, s.delivered + {c})
  {
    forall x | x in s.routes && AllDelivered(x, s.routes, s.delivered)
      ensures AllDelivered(x, s.routes, s.delivered + {c})
    {
    }
  }

  /** A completely stored chunk is good. */
  lemma StoredIsGood(s: State, w: Worker)
    requires w in s.rx && s.rx[w].Writing? && WritingOk(w, s.rx[w], s.posts, s.routes, s.inc)
    requires RoutesOk(s.routes, s.posts, s.registered)
    requires s.rx[w].k == |s.rx[w].f.payload| && Stored(s.rx[w], s.mem, s.routes, s.freed)
    requires s.rx[w].f.id.h !in s.freed
    requires DeliveredOk(s.delivered, s.routes) && Good(s.mem, s.routes, s.delivered, s.freed)
    ensures var d := s.delivered + {ChunkId(s.rx[w].f.id, s.rx[w].f.i)};
      DeliveredOk(d, s.routes) && Good(s.mem, s.routes, d, s.freed)
  {
    var t := s.rx[w];
    var route := s.routes[t.f.id];
    assert RouteOk(route, s.posts[t.f.id.h], t.f.id.h in s.registered);
    forall j: nat | InChunk(route, t.f.i, j)
      ensures Get(s.mem, At(route.dst.value, j)) == Get(s.mem, At(route.src.value, j))
    {
      var n := j - t.f.offset;
      assert Get(s.mem, Loc(t.place.host, t.base + n)) == t.f.payload[n];
      assert t.f.payload[n] == Get(s.mem, At(route.src.value, t.f.offset + n));
    }
  }

  /** Writers other than `w` keep their chunk busy when `w` releases its own. */
  lemma ReleaseKeepsWriters(s: State, w: Worker, success: bool)
    requires CanRelease(s, w, success) && WritersLive(s) && OneWriter(s.rx) && PostsOk(s.posts)
    requires RxOk(s.rx, s.posts, s.routes, s.inc, s.registered, s.written)
    ensures RxOk(s.rx[w := Idle], s.posts, s.routes, DoRelease(s, w, success).inc, s.registered, s.written)
  {
    var inc' := DoRelease(s, w, success).inc;
    var rx' := s.rx[w := Idle];
    var t := s.rx[w];
    assert WritesChunk(t, t.place, ChunkId(t.f.id, t.f.i));
    forall v | v in rx' ensures RxEntryOk(v, rx'[v], s.posts, s.routes, inc', s.registered, s.written) {
      if v != w {
        assert RxEntryOk(v, s.rx[v], s.posts, s.routes, s.inc, s.registered, s.written);
        if s.rx[v].Writing? {
          assert WritesChunk(s.rx[v], s.rx[v].place, ChunkId(s.rx[v].f.id, s.rx[v].f.i));
          assert !WritesChunk(s.rx[v], t.place, ChunkId(t.f.id, t.f.i));
          WriterPost(v, s.rx[v], s.posts, s.routes, s.inc);
          WriterPost(w, t, s.posts, s.routes, s.inc);
          WriterStillBusy(s.inc, s.rx[v], t, success);
        }
      }
    }
  }

  lemma WriterPost(w: Worker, t: Rx, posts: map<PostId, Post>, routes: map<Id, Route>, inc: Table)
    requires PostsOk(posts) && t.Writing? && WriterOk(w, t, posts, routes, inc)
    ensures IncPost(t.place) == t.f.id.h
    ensures !AtDestination(t, posts) ==> !Proper(posts[t.f.id.h]) && t.place == TargetPlace(posts[t.f.id.h], t.f.id.h)
  {
    RecvPlaceIs(posts, t.f.id.h);
  }

  lemma WriterStillBusy(inc: Table, u: Rx, t: Rx, success: bool)
    requires u.Writing? && u.f.DataFrame? && u.place in inc && u.f.id.r in inc[u.place].reqs
    requires t.Writing? && t.f.DataFrame? && t.place in inc && t.f.id.r in inc[t.place].reqs
    requires u.f.i in inc[u.place].reqs[u.f.id.r].chunks.busy
    requires u.place != t.place || u.f.id.r != t.f.id.r || u.f.i != t.f.i
    ensures var inc' := WithChunks(inc, t.place, t.f.id.r, Release(inc[t.place].reqs[t.f.id.r].chunks, t.f.i, success));
      u.place in inc' && u.f.id.r in inc'[u.place].reqs && u.f.i in inc'[u.place].reqs[u.f.id.r].chunks.busy
  {
  }

  /** What a writer's tracker is. */
  lemma WriterTracks(s: State, w: Worker)
    requires w in s.rx && s.rx[w].Writing? && WriterOk(w, s.rx[w], s.posts, s.routes, s.inc) && PostsOk(s.posts)
    requires IncOk(s.inc, s.posts, s.routes, s.registered, s.delivered)
    requires EchoesOk(s.inc, s.posts, s.routes, s.written)
    ensures TracksAt(s, s.rx[w].place, s.rx[w].f.id)
  {
    var t := s.rx[w];
    RecvPlaceIs(s.posts, t.f.id.h);
    assert IncEntryOk(t.place, s.inc[t.place], s.posts, s.routes, s.registered, s.delivered);
    if !ReceivesAt(s.posts, t.place, t.f.id.h) {
      assert ServesRead(s.posts, t.place);
      assert Echoes(s.inc[t.place].reqs[t.f.id.r], Id(IncPost(t.place), t.f.id.r), s.routes, s.written);
    }
  }

  lemma ReleaseInStep(s: State, w: Worker, success: bool)
    requires CanRelease(s, w, success) && WriterOk(w, s.rx[w], s.posts, s.routes, s.inc)
    requires TracksAt(s, s.rx[w].place, s.rx[w].f.id)
    ensures var t, s' := s.rx[w], DoRelease(s, w, success);
      var c := Release(s.inc[t.place].reqs[t.f.id.r].chunks, t.f.i, success);
      InStep(s, s'.delivered, s'.written, t.place, t.f.id.r, c)
  {
    var t := s.rx[w];
    assert Id(IncPost(t.place), t.f.id.r) == t.f.id;
    if ReceivesAt(s.posts, t.place, t.f.id.h) {
      assert Receives(s.inc[t.place].reqs[t.f.id.r], t.f.id, s.routes, s.delivered);
    }
  }

  /** The table and the workers after a Release, before the worker goes on. */
  lemma ReleaseKeepsTables(s: State, w: Worker, success: bool)
    requires Inv(s) && CanRelease(s, w, success)
    ensures var s' := DoRelease(s, w, success);
      && IncOk(s'.inc, s.posts, s.routes, s.registered, s'.delivered)
      && EchoesOk(s'.inc, s.posts, s.routes, s'.written)
      && PendingOk(s'.inc, s.posts, s.counted) && PopulatedOk(s'.inc, s.posts, s.routes)
      && RxOk(s.rx[w := Idle], s.posts, s.routes, s'.inc, s.registered, s.written)
      && OneWriter(s.rx[w := Idle]) && RxStored(s.rx[w := Idle], s.mem, s.routes, s.freed)
      && TokensOk(s.rx[w := Idle], s.posts, s.routes, s.counted, s.delivered)
  {
    var t := s.rx[w];
    var s' := DoRelease(s, w, success);
    var c := Release(s.inc[t.place].reqs[t.f.id.r].chunks, t.f.i, success);
    AllWritersLive(s);
    WriterTracks(s, w);
    ReleaseInStep(s, w, success);
    SetChunks(s, s'.delivered, s'.written, t.place, t.f.id.r, c);
    SetChunksEchoes(s, s'.delivered, s'.written, t.place, t.f.id.r, c);
    SetChunksPending(s, t.place, t.f.id.r, c);
    ReleaseKeepsWriters(s, w, success);
    SetWorker(s, w, Idle);
    SetTokenless(s, w, Idle);
  }

  lemma ReleaseFailureKeeps(s: State, w: Worker)
    requires Inv(s) && CanRelease(s, w, false)
    ensures Inv(DoRelease(s, w, false))
  {
    ReleaseKeepsTables(s, w, false);
  }

  /** Nobody has counted, or owes, a request one of whose chunks is just being delivered. */
  lemma NotYetCounted(s: State, x: Id, i: nat)
    requires x in s.routes && i + 1 < |s.routes[x].cuts| && ChunkId(x, i) !in s.delivered
    requires CountedOk(s.counted, s.routes, s.delivered)
    requires TokensOk(s.rx, s.posts, s.routes, s.counted, s.delivered)
    ensures x !in s.counted && forall v :: v in s.rx ==> !Owes(s.rx[v], x)
  {
  }

  lemma FullIsDelivered(s: State, w: Worker)
    requires CanRelease(s, w, true) && WritingOk(w, s.rx[w], s.posts, s.routes, s.inc)
    requires TracksAt(s, s.rx[w].place, s.rx[w].f.id)
    requires Full(Release(s.inc[s.rx[w].place].reqs[s.rx[w].f.id.r].chunks, s.rx[w].f.i, true))
    ensures AllDelivered(s.rx[w].f.id, s.routes, s.delivered + {ChunkId(s.rx[w].f.id, s.rx[w].f.i)})
  {
    var t := s.rx[w];
    assert Receives(s.inc[t.place].reqs[t.f.id.r], t.f.id, s.routes, s.delivered);
  }

  lemma AddToken(s: State, w: Worker, t: Rx, x: Id)
    requires TokensOk(s.rx, s.posts, s.routes, s.counted, s.delivered)
    requires t.Completing? && t.why == Finished(x) && x in s.routes && x.h in s.posts && x !in s.counted
    requires AllDelivered(x, s.routes, s.delivered) && t.place == RecvPlace(s.posts[x.h], x.h)
    requires forall v :: v in s.rx ==> !Owes(s.rx[v], x)
    ensures TokensOk(s.rx[w := t], s.posts, s.routes, s.counted, s.delivered)
  {
    var rx' := s.rx[w := t];
    forall v, y | v in rx' && Owes(rx'[v], y) && v != w ensures v in s.rx && Owes(s.rx[v], y) {
    }
    forall v, h | v in rx' && OwesTarget(rx'[v], h) ensures v in s.rx && OwesTarget(s.rx[v], h) {
    }
  }

  /** A worker takes on the completion of a request. */
  lemma OweRequest(s: State, w: Worker, t: Rx, x: Id)
    requires Inv(s) && RxEntryOk(w, t, s.posts, s.routes, s.inc, s.registered, s.written)
    requires t.Completing? && t.why == Finished(x) && x in s.routes && x.h in s.posts && x !in s.counted
    requires AllDelivered(x, s.routes, s.delivered) && t.place == RecvPlace(s.posts[x.h], x.h)
    requires forall v :: v in s.rx ==> !Owes(s.rx[v], x)
    ensures Inv(s.(rx := s.rx[w := t]))
  {
    SetWorker(s, w, t);
    AddToken(s, w, t, x);
  }

  /** A worker takes on an OnReqComplete for the responder's entry of a read. */
  lemma OweTarget(s: State, w: Worker, t: Rx, h: PostId)
    requires Inv(s) && RxEntryOk(w, t, s.posts, s.routes, s.inc, s.registered, s.written)
    requires OwesTarget(t, h) && h in s.posts && s.posts[h].op.Read? && t.place == TargetPlace(s.posts[h], h)
    requires t.why.Echoed? ==> !Proper(s.posts[h])
    ensures Inv(s.(rx := s.rx[w := t]))
  {
    SetWorker(s, w, t);
    AddTargetToken(s, w, t, h);
  }

  lemma AddTargetToken(s: State, w: Worker, t: Rx, h: PostId)
    requires TokensOk(s.rx, s.posts, s.routes, s.counted, s.delivered)
    requires OwesTarget(t, h) && h in s.posts && s.posts[h].op.Read? && t.place == TargetPlace(s.posts[h], h)
    requires t.why.Echoed? ==> !Proper(s.posts[h])
    ensures TokensOk(s.rx[w := t], s.posts, s.routes, s.counted, s.delivered)
  {
    var rx' := s.rx[w := t];
    forall v, x | v in rx' && Owes(rx'[v], x) ensures v in s.rx && Owes(s.rx[v], x) {
    }
    forall v, g | v in rx' && OwesTarget(rx'[v], g) && v != w ensures v in s.rx && OwesTarget(s.rx[v], g) {
    }
  }

  /** What a worker does after a successful Release where its post receives. */
  lemma AfterRelease(s: State, w: Worker) returns (t: Rx)
    requires CanRelease(s, w, true) && WritingOk(w, s.rx[w], s.posts, s.routes, s.inc)
    requires TracksAt(s, s.rx[w].place, s.rx[w].f.id)
    ensures DoRelease(s, w, true).rx == s.rx[w := Idle][w := t]
    ensures var s' := DoRelease(s, w, true);
      && RxEntryOk(w, t, s.posts, s.routes, s'.inc, s.registered, s'.written)
      && (OnlyAcks(t, s.posts, s'.written) || (t.Completing? && t.why == Finished(s.rx[w].f.id)
            && t.place == s.rx[w].place && AllDelivered(s.rx[w].f.id, s.routes, s'.delivered)))
  {
    t := DoRelease(s, w, true).rx[w];
    SetTwice(s.rx, w, t);
    if t.Completing? {
      FullIsDelivered(s, w);
    }
  }

  lemma ReleaseHereKeeps(s: State, w: Worker)
    requires Inv(s) && CanRelease(s, w, true) && AtDestination(s.rx[w], s.posts)
    ensures Inv(DoRelease(s, w, true))
  {
    var x, c := s.rx[w].f.id, ChunkId(s.rx[w].f.id, s.rx[w].f.i);
    WriterIsLive(s, w);
    WriterTracks(s, w);
    StoredIsGood(s, w);
    ReleaseKeepsTables(s, w, true);
    var u := s.(inc := DoRelease(s, w, true).inc, rx := s.rx[w := Idle]);
    MoreWritten(u, c);
    MoreDeliveredCounts(u, c);
    NotYetCounted(u, x, c.i);
    var t := AfterRelease(s, w);
    var v := u.(delivered := s.delivered + {c}, written := s.written + {c});
    WriterRoute(s, w);
    assert Inv(v);
    if t.Completing? {
      OweRequest(v, w, t, x);
    } else {
      MoveWorker(v, w, t);
    }
  }

  lemma WriterRoute(s: State, w: Worker)
    requires w in s.rx && s.rx[w].Writing? && WriterOk(w, s.rx[w], s.posts, s.routes, s.inc)
    requires RoutesOk(s.routes, s.posts, s.registered) && DeliveredOk(s.written, s.routes)
    ensures DeliveredOk(s.written + {ChunkId(s.rx[w].f.id, s.rx[w].f.i)}, s.routes)
  {
    assert RouteOk(s.routes[s.rx[w].f.id], s.posts[s.rx[w].f.id.h], s.rx[w].f.id.h in s.registered);
  }

  /** What a worker does after a successful Release in the responder's entry. */
  lemma AfterEcho(s: State, w: Worker) returns (t: Rx)
    requires CanRelease(s, w, true) && WriterOk(w, s.rx[w], s.posts, s.routes, s.inc)
    requires !AtDestination(s.rx[w], s.posts)
    ensures DoRelease(s, w, true).rx == s.rx[w := Idle][w := t]
    ensures var s' := DoRelease(s, w, true);
      && RxEntryOk(w, t, s.posts, s.routes, s'.inc, s.registered, s'.written)
      && (OnlyAcks(t, s.posts, s'.written) || (OwesTarget(t, s.rx[w].f.id.h) && t.place == s.rx[w].place))
  {
    t := DoRelease(s, w, true).rx[w];
    SetTwice(s.rx, w, t);
  }

  lemma EchoMarks(s: State, w: Worker)
    requires CanRelease(s, w, true) && WriterOk(w, s.rx[w], s.posts, s.routes, s.inc) && PostsOk(s.posts)
    requires !AtDestination(s.rx[w], s.posts) && WrittenOk(s.written, s.delivered, s.posts)
    ensures var c := ChunkId(s.rx[w].f.id, s.rx[w].f.i);
      && WrittenOk(s.written + {c}, s.delivered, s.posts)
      && DoRelease(s, w, true)
           == s.(inc := DoRelease(s, w, true).inc, rx := DoRelease(s, w, true).rx, written := s.written + {c})
  {
    WriterPost(w, s.rx[w], s.posts, s.routes, s.inc);
  }

  /** The state after an echoed chunk is marked, before the worker goes on. */
  lemma EchoMarkedKeeps(s: State, w: Worker)
    requires Inv(s) && CanRelease(s, w, true) && !AtDestination(s.rx[w], s.posts)
    ensures Inv(s.(inc := DoRelease(s, w, true).inc, rx := s.rx[w := Idle],
                   written := s.written + {ChunkId(s.rx[w].f.id, s.rx[w].f.i)}))
  {
    WriterIsLive(s, w);
    EchoMarks(s, w);
    ReleaseKeepsTables(s, w, true);
    MoreWritten(s.(inc := DoRelease(s, w, true).inc, rx := s.rx[w := Idle]), ChunkId(s.rx[w].f.id, s.rx[w].f.i));
    WriterRoute(s, w);
  }

  lemma ReleaseEchoKeeps(s: State, w: Worker)
    requires Inv(s) && CanRelease(s, w, true) && !AtDestination(s.rx[w], s.posts)
    ensures Inv(DoRelease(s, w, true))
  {
    var v := s.(inc := DoRelease(s, w, true).inc, rx := s.rx[w := Idle],
                written := s.written + {ChunkId(s.rx[w].f.id, s.rx[w].f.i)});
    WriterIsLive(s, w);
    EchoMarkedKeeps(s, w);
    EchoMarks(s, w);
    WriterPost(w, s.rx[w], s.posts, s.routes, s.inc);
    var t := AfterEcho(s, w);
    if t.Completing? {
      OweTarget(v, w, t, s.rx[w].f.id.h);
    } else {
      MoveWorker(v, w, t);
    }
  }

  lemma ReleaseSuccessKeeps(s: State, w: Worker)
    requires Inv(s) && CanRelease(s, w, true)
    ensures Inv(DoRelease(s, w, true))
  {
    if AtDestination(s.rx[w], s.posts) {
      ReleaseHereKeeps(s, w);
    } else {
      ReleaseEchoKeeps(s, w);
    }
  }

  lemma SetTwice(rx: map<Worker, Rx>, w: Worker, t: Rx)
    ensures rx[w := Idle][w := t] == rx[w := t]
  {
  }

  // --- Completing requests and posts -----------------------------------------------------

  function IdsOf(h: PostId, keys: set<ReqId>): set<Id> { set r | r in keys :: Id(h, r) }

  lemma {:induction false} IdsOfSize(h: PostId, keys: set<ReqId>)
    ensures |IdsOf(h, keys)| == |keys|
    decreases |keys|
  {
    if keys != {} {
      var r :| r in keys;
      IdsOfSize(h, keys - {r});
      assert IdsOf(h, keys) == IdsOf(h, keys - {r}) + {Id(h, r)};
    }
  }

  /** With one request of `h` not yet counted, fewer are counted than there are. */
  lemma CountOneMore(counted: set<Id>, routes: map<Id, Route>, keys: set<ReqId>, x: Id)
    requires forall y <- counted :: y in routes
    requires SameIds(keys, x.h, routes) && x in routes && x !in counted
    ensures |CountedOf(counted + {x}, x.h)| == |CountedOf(counted, x.h)| + 1 <= |keys|
    ensures |CountedOf(counted + {x}, x.h)| == |keys| ==> forall y :: y in routes && y.h == x.h ==> y in counted + {x}
  {
    var a, b := CountedOf(counted, x.h), CountedOf(counted + {x}, x.h);
    assert b == a + {x};
    var ids := IdsOf(x.h, keys);
    IdsOfSize(x.h, keys);
    assert b <= ids;
    SubsetSize(b, ids);
    forall y | |b| == |keys| && y in routes && y.h == x.h ensures y in b {
      assert y == Id(x.h, y.r) && y in ids;
    }
  }

  lemma {:induction false} SubsetSize(a: set<Id>, b: set<Id>)
    requires a <= b
    ensures |a| <= |b| && (|a| == |b| ==> a == b)
    decreases a
  {
    if a != {} {
      var x :| x in a;
      SubsetSize(a - {x}, b - {x});
      assert a == (a - {x}) + {x} && b == (b - {x}) + {x};
    }
  }

  /** The table after one pending_reqs has been decremented. */
  function Decremented(inc: Table, k: Place): Table
    requires k in inc
  {
    inc[k := inc[k].(pending := inc[k].pending - 1)]
  }

  lemma DecrementKeepsBusy(inc: Table, k: Place)
    requires k in inc
    ensures KeepsBusy(inc, Decremented(inc, k))
  {
  }

  lemma DecrementKeepsInc(s: State, k: Place)
    requires IncOk(s.inc, s.posts, s.routes, s.registered, s.delivered) && k in s.inc
    requires PopulatedOk(s.inc, s.posts, s.routes) && EchoesOk(s.inc, s.posts, s.routes, s.written)
    ensures IncOk(Decremented(s.inc, k), s.posts, s.routes, s.registered, s.delivered)
    ensures PopulatedOk(Decremented(s.inc, k), s.posts, s.routes)
    ensures EchoesOk(Decremented(s.inc, k), s.posts, s.routes, s.written)
  {
    var inc' := Decremented(s.inc, k);
    forall q | q in inc' ensures IncEntryOk(q, inc'[q], s.posts, s.routes, s.registered, s.delivered) {
      assert IncEntryOk(q, s.inc[q], s.posts, s.routes, s.registered, s.delivered);
    }
  }

  /** An entry all of whose chunks are delivered has no writer and can go. */
  lemma DropEntryKeeps(s: State, h: PostId)
    requires Inv(s) && h in s.posts && s.posts[h].op.Read?
    requires forall x <- s.routes :: x.h == h ==> AllDelivered(x, s.routes, s.delivered)
    ensures Inv(s.(inc := s.inc - {HomePlace(s.posts[h], h)}))
  {
    DropEntryKeepsWriters(s, h);
    DropEntryKeepsInc(s, HomePlace(s.posts[h], h));
  }

  lemma DropEntryKeepsInc(s: State, k: Place)
    requires PostsOk(s.posts) && IncOk(s.inc, s.posts, s.routes, s.registered, s.delivered) && k.key.peer == NOBODY
    ensures IncOk(s.inc - {k}, s.posts, s.routes, s.registered, s.delivered)
  {
    assert forall g <- s.registered :: TargetPlace(s.posts[g], g) != k;
  }

  lemma DropEntryKeepsWriters(s: State, h: PostId)
    requires Inv(s) && h in s.posts && s.posts[h].op.Read?
    requires forall x <- s.routes :: x.h == h ==> AllDelivered(x, s.routes, s.delivered)
    ensures RxOk(s.rx, s.posts, s.routes, s.inc - {HomePlace(s.posts[h], h)}, s.registered, s.written)
  {
    var inc' := s.inc - {HomePlace(s.posts[h], h)};
    forall w | w in s.rx ensures RxEntryOk(w, s.rx[w], s.posts, s.routes, inc', s.registered, s.written) {
      if s.rx[w].Writing? {
        WriterIsLive(s, w);
        WriterElsewhere(w, s.rx[w], s.posts, s.routes, s.inc, s.delivered, h);
      } else {
        assert RxEntryOk(w, s.rx[w], s.posts, s.routes, s.inc, s.registered, s.written);
      }
    }
  }

  lemma WriterElsewhere(w: Worker, t: Rx, posts: map<PostId, Post>, routes: map<Id, Route>, inc: Table,
                        delivered: set<ChunkId>, h: PostId)
    requires t.Writing? && WriterOk(w, t, posts, routes, inc) && h in posts && PostsOk(posts)
    requires AtDestination(t, posts) ==> ChunkId(t.f.id, t.f.i) !in delivered
    requires forall x <- routes :: x.h == h ==> AllDelivered(x, routes, delivered)
    ensures WriterOk(w, t, posts, routes, inc - {HomePlace(posts[h], h)})
  {
    WriterPost(w, t, posts, routes, inc);
    RecvPlaceIs(posts, h);
    RecvPlaceIs(posts, t.f.id.h);
    assert AtDestination(t, posts) ==> t.f.id.h != h;
    assert t.place != HomePlace(posts[h], h);
  }

  /** Telling the application of success. */
  lemma ReportKeeps(s: State, h: PostId)
    requires Inv(s) && h in s.posts && HasRequests(h, s.routes)
    requires forall x <- s.routes :: x.h == h ==> AllDelivered(x, s.routes, s.delivered)
    ensures Inv(Report(s, h))
  {
    var u := s.(reported := s.reported + {h});
    ReportedMore(s, h);
    if Proper(s.posts[h]) {
      FreeKeeps(u, h);
    } else {
      assert Report(s, h) == u;
    }
  }

  lemma ReportedMore(s: State, h: PostId)
    requires Inv(s) && h in s.posts && HasRequests(h, s.routes)
    requires forall x <- s.routes :: x.h == h ==> AllDelivered(x, s.routes, s.delivered)
    ensures Inv(s.(reported := s.reported + {h}))
  {
  }

  lemma FreeKeeps(s: State, h: PostId)
    requires Inv(s) && h in s.posts && h in s.reported && Proper(s.posts[h])
    ensures Inv(s.(freed := s.freed + {h}))
  {
    ReportKeepsStored(s, h);
    FreeKeepsGood(s, h);
  }

  lemma FreeKeepsGood(s: State, h: PostId)
    requires DeliveredOk(s.delivered, s.routes) && Good(s.mem, s.routes, s.delivered, s.freed)
    requires Separate(s.routes, s.freed)
    ensures Good(s.mem, s.routes, s.delivered, s.freed + {h}) && Separate(s.routes, s.freed + {h})
  {
  }

  lemma ReportKeepsStored(s: State, h: PostId)
    requires RxStored(s.rx, s.mem, s.routes, s.freed) && NetFresh(s.net, s.mem, s.routes, s.freed)
    ensures RxStored(s.rx, s.mem, s.routes, s.freed + {h}) && NetFresh(s.net, s.mem, s.routes, s.freed + {h})
  {
  }

  /** The entry a finished request belongs to. */
  lemma TokenEntry(s: State, w: Worker, x: Id)
    requires CanComplete(s, w) && s.rx[w].why == Finished(x) && s.rx[w].place in s.inc
    requires TokensOk(s.rx, s.posts, s.routes, s.counted, s.delivered)
    requires IncOk(s.inc, s.posts, s.routes, s.registered, s.delivered)
    requires PopulatedOk(s.inc, s.posts, s.routes) && PendingOk(s.inc, s.posts, s.counted) && PostsOk(s.posts)
    ensures x.h in s.posts && s.rx[w].place == RecvPlace(s.posts[x.h], x.h) && x in s.routes && x !in s.counted
    ensures SameIds(s.inc[s.rx[w].place].reqs.Keys, x.h, s.routes)
    ensures s.inc[s.rx[w].place].pending == |s.inc[s.rx[w].place].reqs| - |CountedOf(s.counted, x.h)|
  {
    TokenFacts(s, w, x);
    ReceivingEntry(s, s.rx[w].place, x);
  }

  lemma ReceivingEntry(s: State, k: Place, x: Id)
    requires x in s.routes && x.h in s.posts && k == RecvPlace(s.posts[x.h], x.h) && k in s.inc
    requires IncOk(s.inc, s.posts, s.routes, s.registered, s.delivered)
    requires PopulatedOk(s.inc, s.posts, s.routes) && PendingOk(s.inc, s.posts, s.counted) && PostsOk(s.posts)
    ensures SameIds(s.inc[k].reqs.Keys, x.h, s.routes)
    ensures s.inc[k].pending == |s.inc[k].reqs| - |CountedOf(s.counted, x.h)|
  {
    RecvPlaceIs(s.posts, x.h);
    assert IncEntryOk(k, s.inc[k], s.posts, s.routes, s.registered, s.delivered);
  }

  lemma PendingOfToken(s: State, k: Place, x: Id)
    requires k in s.inc && x in s.routes && x !in s.counted && CountedOk(s.counted, s.routes, s.delivered)
    requires SameIds(s.inc[k].reqs.Keys, x.h, s.routes)
    requires s.inc[k].pending == |s.inc[k].reqs| - |CountedOf(s.counted, x.h)|
    ensures s.inc[k].pending >= 1
    ensures s.inc[k].pending - 1 == |s.inc[k].reqs| - |CountedOf(s.counted + {x}, x.h)|
    ensures s.inc[k].pending == 1 ==> forall y :: y in s.routes && y.h == x.h ==> y in s.counted + {x}
  {
    assert |s.inc[k].reqs| == |s.inc[k].reqs.Keys|;
    CountOneMore(s.counted, s.routes, s.inc[k].reqs.Keys, x);
  }

  /** Counting a finished request: its worker no longer owes it. */
  lemma CountKeeps(s: State, w: Worker, x: Id)
    requires CanComplete(s, w) && s.rx[w].why == Finished(x)
    requires TokensOk(s.rx, s.posts, s.routes, s.counted, s.delivered) && CountedOk(s.counted, s.routes, s.delivered)
    ensures TokensOk(s.rx[w := Idle], s.posts, s.routes, s.counted + {x}, s.delivered)
    ensures CountedOk(s.counted + {x}, s.routes, s.delivered)
  {
    assert Owes(s.rx[w], x);
    var rx' := s.rx[w := Idle];
    forall v, y | v in rx' && Owes(rx'[v], y) ensures v in s.rx && v != w && Owes(s.rx[v], y) && y != x {
    }
    forall v, h | v in rx' && OwesTarget(rx'[v], h) ensures v in s.rx && OwesTarget(s.rx[v], h) {
    }
  }

  lemma CountKeepsPending(s: State, k: Place, x: Id)
    requires PendingOk(s.inc, s.posts, s.counted) && x.h in s.posts && PostsOk(s.posts)
    requires k == RecvPlace(s.posts[x.h], x.h) && k in s.inc
    requires s.inc[k].pending - 1 == |s.inc[k].reqs| - |CountedOf(s.counted + {x}, x.h)|
    ensures PendingOk(Decremented(s.inc, k), s.posts, s.counted + {x})
  {
    CountedOfOthers(s.counted, x);
    RecvPlaceIs(s.posts, x.h);
  }

  lemma CountKeepsAbsent(s: State, x: Id)
    requires PendingOk(s.inc, s.posts, s.counted) && x.h in s.posts && PostsOk(s.posts)
    requires RecvPlace(s.posts[x.h], x.h) !in s.inc
    ensures PendingOk(s.inc, s.posts, s.counted + {x})
  {
    CountedOfOthers(s.counted, x);
    RecvPlaceIs(s.posts, x.h);
  }

  lemma CountedOfOthers(counted: set<Id>, x: Id)
    ensures forall h: PostId :: h != x.h ==> CountedOf(counted + {x}, h) == CountedOf(counted, h)
  {
  }

  lemma CompletingAck(s: State, w: Worker) returns (t: Rx)
    requires CanComplete(s, w) && RxOk(s.rx, s.posts, s.routes, s.inc, s.registered, s.written)
    ensures t == if s.rx[w].ack.Some? then Acking(s.rx[w].ack.value) else Idle
    ensures OnlyAcks(t, s.posts, s.written)
  {
    assert RxEntryOk(w, s.rx[w], s.posts, s.routes, s.inc, s.registered, s.written);
    t := if s.rx[w].ack.Some? then Acking(s.rx[w].ack.value) else Idle;
  }

  /** The state after OnReqComplete has counted the request, with its entry still there. */
  function Counted(s: State, w: Worker, x: Id): State
    requires CanComplete(s, w) && s.rx[w].place in s.inc
  {
    s.(inc := Decremented(s.inc, s.rx[w].place), counted := s.counted + {x}, rx := s.rx[w := Idle])
  }

  lemma CountedKeepsRx(s: State, w: Worker, k: Place)
    requires k in s.inc && RxOk(s.rx, s.posts, s.routes, s.inc, s.registered, s.written)
    requires OneWriter(s.rx) && RxStored(s.rx, s.mem, s.routes, s.freed)
    ensures RxOk(s.rx[w := Idle], s.posts, s.routes, Decremented(s.inc, k), s.registered, s.written)
    ensures OneWriter(s.rx[w := Idle]) && RxStored(s.rx[w := Idle], s.mem, s.routes, s.freed)
  {
    SetWorker(s, w, Idle);
    DecrementKeepsBusy(s.inc, k);
    SameWriters(s.(rx := s.rx[w := Idle]), Decremented(s.inc, k));
  }

  lemma TokenFacts(s: State, w: Worker, x: Id)
    requires CanComplete(s, w) && s.rx[w].why == Finished(x)
    requires TokensOk(s.rx, s.posts, s.routes, s.counted, s.delivered)
    ensures x.h in s.posts && s.rx[w].place == RecvPlace(s.posts[x.h], x.h) && x in s.routes && x !in s.counted
  {
    assert Owes(s.rx[w], x);
  }

  lemma CountHere(s: State, k: Place, x: Id)
    requires x.h in s.posts && k == RecvPlace(s.posts[x.h], x.h) && k in s.inc && x in s.routes && x !in s.counted
    requires CountedOk(s.counted, s.routes, s.delivered)
    requires IncOk(s.inc, s.posts, s.routes, s.registered, s.delivered)
    requires PopulatedOk(s.inc, s.posts, s.routes) && PendingOk(s.inc, s.posts, s.counted)
    requires EchoesOk(s.inc, s.posts, s.routes, s.written) && PostsOk(s.posts)
    requires SameIds(s.inc[k].reqs.Keys, x.h, s.routes)
    requires s.inc[k].pending == |s.inc[k].reqs| - |CountedOf(s.counted, x.h)|
    ensures IncOk(Decremented(s.inc, k), s.posts, s.routes, s.registered, s.delivered)
    ensures PopulatedOk(Decremented(s.inc, k), s.posts, s.routes)
    ensures EchoesOk(Decremented(s.inc, k), s.posts, s.routes, s.written)
    ensures PendingOk(Decremented(s.inc, k), s.posts, s.counted + {x})
  {
    PendingOfToken(s, k, x);
    DecrementKeepsInc(s, k);
    CountKeepsPending(s, k, x);
  }

  lemma CountedKeeps(s: State, w: Worker, x: Id)
    requires Inv(s) && CanComplete(s, w) && s.rx[w].why == Finished(x) && s.rx[w].place in s.inc
    ensures Inv(Counted(s, w, x))
  {
    TokenEntry(s, w, x);
    CountedKeepsRx(s, w, s.rx[w].place);
    CountKeeps(s, w, x);
    CountHere(s, s.rx[w].place, x);
  }

  /** The entry is gone, reaped by a Poll. */
  lemma CountedLateKeeps(s: State, w: Worker, x: Id)
    requires Inv(s) && CanComplete(s, w) && s.rx[w].why == Finished(x) && s.rx[w].place !in s.inc
    ensures Inv(s.(counted := s.counted + {x}, rx := s.rx[w := Idle]))
  {
    TokenFacts(s, w, x);
    SetWorker(s, w, Idle);
    CountKeeps(s, w, x);
    CountKeepsAbsent(s, x);
  }

  lemma CompleteLateKeeps(s: State, w: Worker, x: Id)
    requires Inv(s) && CanComplete(s, w) && s.rx[w].why == Finished(x) && s.rx[w].place !in s.inc
    ensures Inv(DoComplete(s, w))
  {
    var t := CompletingAck(s, w);
    SetTwice(s.rx, w, t);
    CountedLateKeeps(s, w, x);
    MoveWorker(s.(counted := s.counted + {x}, rx := s.rx[w := Idle]), w, t);
  }

  /** The state after the last request is counted, its entry dropped and success reported. */
  lemma CompleteLastKeeps(s: State, w: Worker, x: Id)
    requires Inv(s) && CanComplete(s, w) && s.rx[w].why == Finished(x) && s.rx[w].place in s.inc
    requires ReqCompleteCall(s.inc, s.rx[w].place).OnComplete?
    ensures var u := Counted(s, w, x);
      Inv(Report(u.(inc := u.inc - {s.rx[w].place}), x.h)) && IncPost(s.rx[w].place) == x.h
  {
    CountedKeeps(s, w, x);
    LastToken(s, w, x);
    DropAndReport(Counted(s, w, x), x.h);
    RecvPlaceIs(s.posts, x.h);
  }

  lemma CompleteFinishedKeeps(s: State, w: Worker, x: Id)
    requires Inv(s) && CanComplete(s, w) && s.rx[w].why == Finished(x)
    ensures Inv(DoComplete(s, w))
  {
    if s.rx[w].place !in s.inc {
      CompleteLateKeeps(s, w, x);
    } else if ReqCompleteCall(s.inc, s.rx[w].place).OnComplete? {
      CompleteLastOne(s, w, x);
    } else {
      CompleteOneKeeps(s, w, x);
    }
  }

  lemma CompleteLastOne(s: State, w: Worker, x: Id)
    requires Inv(s) && CanComplete(s, w) && s.rx[w].why == Finished(x) && s.rx[w].place in s.inc
    requires ReqCompleteCall(s.inc, s.rx[w].place).OnComplete?
    ensures Inv(DoComplete(s, w))
  {
    var k := s.rx[w].place;
    var t := CompletingAck(s, w);
    var u := Counted(s, w, x);
    var v := Report(u.(inc := u.inc - {k}), x.h);
    SetTwice(s.rx, w, t);
    CompleteLastKeeps(s, w, x);
    MoveWorker(v, w, t);
    DoCompleteFinished(s, w, x);
  }

  lemma CompleteOneKeeps(s: State, w: Worker, x: Id)
    requires Inv(s) && CanComplete(s, w) && s.rx[w].why == Finished(x) && s.rx[w].place in s.inc
    requires !ReqCompleteCall(s.inc, s.rx[w].place).OnComplete?
    ensures Inv(DoComplete(s, w))
  {
    var t := CompletingAck(s, w);
    SetTwice(s.rx, w, t);
    CountedKeeps(s, w, x);
    MoveWorker(Counted(s, w, x), w, t);
    DoCompleteFinished(s, w, x);
  }

  lemma DropAndReport(s: State, h: PostId)
    requires Inv(s) && h in s.posts && s.posts[h].op.Read? && HasRequests(h, s.routes)
    requires forall x <- s.routes :: x.h == h ==> AllDelivered(x, s.routes, s.delivered)
    ensures Inv(Report(s.(inc := s.inc - {HomePlace(s.posts[h], h)}), h))
  {
    DropEntryKeeps(s, h);
    ReportKeeps(s.(inc := s.inc - {HomePlace(s.posts[h], h)}), h);
  }

  /** The request that brings the count to zero is the last one. */
  lemma LastToken(s: State, w: Worker, x: Id)
    requires Inv(s) && CanComplete(s, w) && s.rx[w].why == Finished(x)
    requires ReqCompleteCall(s.inc, s.rx[w].place).OnComplete?
    ensures x.h in s.posts && s.posts[x.h].op.Read? && s.rx[w].place == HomePlace(s.posts[x.h], x.h)
    ensures HasRequests(x.h, s.routes)
    ensures forall y <- s.routes :: y.h == x.h ==> AllDelivered(y, s.routes, s.delivered)
  {
    TokenEntry(s, w, x);
    PendingOfToken(s, s.rx[w].place, x);
    HomeOfToken(s, s.rx[w].place, x);
    CountKeeps(s, w, x);
    LastCounted(s.(counted := s.counted + {x}), x);
  }

  /** DoComplete in terms of Counted. */
  lemma DoCompleteFinished(s: State, w: Worker, x: Id)
    requires CanComplete(s, w) && s.rx[w].why == Finished(x) && s.rx[w].place in s.inc
    ensures var k := s.rx[w].place;
      var u := Counted(s, w, x);
      var t := if s.rx[w].ack.Some? then Acking(s.rx[w].ack.value) else Idle;
      var s' := DoComplete(s, w);
      s' == if ReqCompleteCall(s.inc, k).OnComplete?
            then Report(u.(inc := u.inc - {k}), IncPost(k)).(rx := s.rx[w := t],
                                                             doneCalls := s.doneCalls + multiset{IncPost(k)})
            else u.(rx := s.rx[w := t], postCalls := s'.postCalls)
  {
    var k := s.rx[w].place;
    assert Decremented(s.inc, k) - {k} == s.inc - {k};
  }

  lemma HomeOfToken(s: State, k: Place, x: Id)
    requires IncOk(s.inc, s.posts, s.routes, s.registered, s.delivered) && k in s.inc && s.inc[k].initiator
    requires x.h in s.posts && k == RecvPlace(s.posts[x.h], x.h) && PostsOk(s.posts)
    ensures s.posts[x.h].op.Read? && k == HomePlace(s.posts[x.h], x.h)
  {
    RecvPlaceIs(s.posts, x.h);
    assert IncEntryOk(k, s.inc[k], s.posts, s.routes, s.registered, s.delivered);
  }

  lemma LastCounted(s: State, x: Id)
    requires CountedOk(s.counted, s.routes, s.delivered) && x in s.routes
    requires forall y :: y in s.routes && y.h == x.h ==> y in s.counted
    ensures HasRequests(x.h, s.routes)
    ensures forall y <- s.routes :: y.h == x.h ==> AllDelivered(y, s.routes, s.delivered)
  {
  }

  /** OnReqComplete for the responder's entry of a read. */
  lemma CompleteTargetKeeps(s: State, w: Worker, h: PostId)
    requires Inv(s) && CanComplete(s, w) && OwesTarget(s.rx[w], h)
    ensures Inv(DoComplete(s, w))
  {
    var k := s.rx[w].place;
    var t := CompletingAck(s, w);
    TargetEntry(s, w, h);
    DoCompleteTarget(s, w, h);
    if k in s.inc {
      PendingStepKeeps(s, k, h);
      MoveOn(s.(inc := Decremented(s.inc, k)), w, t, DoComplete(s, w).postCalls);
    } else {
      MoveOn(s, w, t, DoComplete(s, w).postCalls);
    }
  }

  lemma MoveOn(s: State, w: Worker, t: Rx, postCalls: multiset<PostId>)
    requires Inv(s) && OnlyAcks(t, s.posts, s.written)
    ensures Inv(s.(rx := s.rx[w := t], postCalls := postCalls))
  {
    MoveWorker(s, w, t);
  }

  lemma PendingStepKeeps(s: State, k: Place, h: PostId)
    requires Inv(s) && h in s.posts && s.posts[h].op.Read? && k == TargetPlace(s.posts[h], h) && k in s.inc
    ensures Inv(s.(inc := Decremented(s.inc, k)))
  {
    DecrementKeepsInc(s, k);
    TargetKeepsPending(s, k, h);
    DecrementKeepsBusy(s.inc, k);
    SameWriters(s, Decremented(s.inc, k));
  }

  lemma DoCompleteTarget(s: State, w: Worker, h: PostId)
    requires CanComplete(s, w) && OwesTarget(s.rx[w], h)
    requires s.rx[w].place in s.inc ==> !s.inc[s.rx[w].place].initiator
    ensures var k := s.rx[w].place;
      var t := if s.rx[w].ack.Some? then Acking(s.rx[w].ack.value) else Idle;
      var inc' := if k in s.inc then Decremented(s.inc, k) else s.inc;
      DoComplete(s, w) == s.(inc := inc', rx := s.rx[w := t], postCalls := DoComplete(s, w).postCalls)
  {
    var k := s.rx[w].place;
    if ReqCompleteCall(s.inc, k).RecvPost? {
      assert ReqComplete(s.inc, k) == Decremented(s.inc, k);
    } else {
      assert ReqCompleteCall(s.inc, k) == NoCall;
    }
  }

  lemma TargetEntry(s: State, w: Worker, h: PostId)
    requires CanComplete(s, w) && OwesTarget(s.rx[w], h)
    requires TokensOk(s.rx, s.posts, s.routes, s.counted, s.delivered) && PostsOk(s.posts)
    requires IncOk(s.inc, s.posts, s.routes, s.registered, s.delivered)
    ensures h in s.posts && s.posts[h].op.Read? && s.rx[w].place == TargetPlace(s.posts[h], h)
    ensures IncPost(s.rx[w].place) == h && (s.rx[w].why.Echoed? ==> !Proper(s.posts[h]))
    ensures s.rx[w].place in s.inc ==> !s.inc[s.rx[w].place].initiator
    ensures !ReqCompleteCall(s.inc, s.rx[w].place).OnComplete?
  {
    var k := s.rx[w].place;
    RecvPlaceIs(s.posts, h);
    assert k in s.inc ==> IncEntryOk(k, s.inc[k], s.posts, s.routes, s.registered, s.delivered);
  }

  lemma TargetKeepsPending(s: State, k: Place, h: PostId)
    requires PendingOk(s.inc, s.posts, s.counted) && PostsOk(s.posts)
    requires h in s.posts && s.posts[h].op.Read? && k == TargetPlace(s.posts[h], h) && k in s.inc
    ensures PendingOk(Decremented(s.inc, k), s.posts, s.counted)
  {
    RecvPlaceIs(s.posts, h);
  }
}
