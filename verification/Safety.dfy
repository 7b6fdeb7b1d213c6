/** The steps of receive threads up to Release keep the invariant. */
module Safety {
  import opened Options
  import opened Trackers
  import opened Layout
  import opened Protocol
  import opened Invariant

  // --- Storing bytes -----------------------------------------------------

  /** The buffers a writer stores to are in use: at a destination its chunk is busy, hence not delivered. */
  lemma WriterIsLive(s: State, w: Worker)
    requires Inv(s) && w in s.rx && s.rx[w].Writing?
    ensures WriterOk(w, s.rx[w], s.posts, s.routes, s.inc)
    ensures s.rx[w].f.id.h !in s.freed
    ensures AtDestination(s.rx[w], s.posts) ==>
      ChunkId(s.rx[w].f.id, s.rx[w].f.i) !in s.delivered && s.rx[w].f.id.h !in s.reported
  {
    assert RxEntryOk(w, s.rx[w], s.posts, s.routes, s.inc, s.registered, s.written);
    var t := s.rx[w];
    if AtDestination(t, s.posts) {
      BusyIsNotDelivered(s, w);
    }
  }

  lemma BusyIsNotDelivered(s: State, w: Worker)
    requires w in s.rx && s.rx[w].Writing? && WritingOk(w, s.rx[w], s.posts, s.routes, s.inc) && PostsOk(s.posts)
    requires IncOk(s.inc, s.posts, s.routes, s.registered, s.delivered)
    requires ReportedOk(s.reported, s.posts, s.routes, s.delivered)
    ensures ChunkId(s.rx[w].f.id, s.rx[w].f.i) !in s.delivered && s.rx[w].f.id.h !in s.reported
  {
    var t := s.rx[w];
    RecvPlaceIs(s.posts, t.f.id.h);
    assert IncEntryOk(t.place, s.inc[t.place], s.posts, s.routes, s.registered, s.delivered);
    assert Receives(s.inc[t.place].reqs[t.f.id.r], t.f.id, s.routes, s.delivered);
  }

  /** The places of a post are places of that post. */
  lemma RecvPlaceIs(posts: map<PostId, Post>, h: PostId)
    requires PostsOk(posts) && h in posts
    ensures IncPost(RecvPlace(posts[h], h)) == h && IncPost(TargetPlace(posts[h], h)) == h
    ensures IncPost(HomePlace(posts[h], h)) == h && TargetPlace(posts[h], h) != HomePlace(posts[h], h)
  {
  }

  lemma ChunkInside(route: Route, i: nat, j: nat)
    requires |route.cuts| >= 2 && Partitions(route.cuts, Len(route)) && InChunk(route, i, j)
    ensures j < Len(route)
  {
    assert i + 1 == |route.cuts| - 1 || route.cuts[i + 1] < route.cuts[|route.cuts| - 1];
  }

  /** A byte being stored for chunk `i` of `x` is neither source nor destination of a delivered chunk. */
  lemma StoreMisses(routes: map<Id, Route>, posts: map<PostId, Post>, registered: set<PostId>, freed: set<PostId>,
                    x: Id, i: nat, j: nat, c: ChunkId, b: nat)
    requires RoutesOk(routes, posts, registered) && Separate(routes, freed)
    requires x in routes && x.h !in freed && routes[x].dst.Some? && InChunk(routes[x], i, j)
    requires c.id in routes && c.id.h !in freed && InChunk(routes[c.id], c.i, b)
    ensures routes[c.id].src.Some? ==> At(routes[c.id].src.value, b) != At(routes[x].dst.value, j)
    ensures routes[c.id].dst.Some? && c != ChunkId(x, i) ==> At(routes[c.id].dst.value, b) != At(routes[x].dst.value, j)
  {
    var r, rc := routes[x], routes[c.id];
    ChunkInside(r, i, j);
    ChunkInside(rc, c.i, b);
    if c.id == x {
      if b == j {
        CutsDisjoint(r.cuts, Len(r), j, i, c.i);
      }
    } else {
      assert NoClash(r, rc);
    }
  }

  lemma StoreKeepsGood(s: State, x: Id, i: nat, j: nat, v: Byte)
    requires RoutesOk(s.routes, s.posts, s.registered) && Separate(s.routes, s.freed)
    requires DeliveredOk(s.delivered, s.routes) && Good(s.mem, s.routes, s.delivered, s.freed)
    requires x in s.routes && x.h !in s.freed && s.routes[x].dst.Some? && InChunk(s.routes[x], i, j)
    requires ChunkId(x, i) !in s.delivered
    ensures Good(s.mem[At(s.routes[x].dst.value, j) := v], s.routes, s.delivered, s.freed)
  {
    forall c, b: nat | c in s.delivered && c.id.h !in s.freed && InChunk(s.routes[c.id], c.i, b)
      ensures Get(s.mem, At(s.routes[c.id].dst.value, b)) == Get(s.mem, At(s.routes[c.id].src.value, b))
      ensures At(s.routes[c.id].dst.value, b) != At(s.routes[x].dst.value, j)
      ensures At(s.routes[c.id].src.value, b) != At(s.routes[x].dst.value, j)
    {
      StoreMisses(s.routes, s.posts, s.registered, s.freed, x, i, j, c, b);
    }
  }

  lemma StoreMissesSource(s: State, f: Frame, x: Id, i: nat, j: nat, k: nat)
    requires RoutesOk(s.routes, s.posts, s.registered) && Separate(s.routes, s.freed)
    requires x in s.routes && x.h !in s.freed && s.routes[x].dst.Some? && InChunk(s.routes[x], i, j)
    requires f.DataFrame? && DataOk(f, s.posts, s.routes) && f.id.h !in s.freed && k < |f.payload|
    ensures At(s.routes[f.id].src.value, f.offset + k) != At(s.routes[x].dst.value, j)
  {
    StoreMisses(s.routes, s.posts, s.registered, s.freed, x, i, j, ChunkId(f.id, f.i), f.offset + k);
  }

  lemma StoreKeepsFresh(s: State, f: Frame, x: Id, i: nat, j: nat, v: Byte)
    requires RoutesOk(s.routes, s.posts, s.registered) && Separate(s.routes, s.freed)
    requires x in s.routes && x.h !in s.freed && s.routes[x].dst.Some? && InChunk(s.routes[x], i, j)
    requires f.DataFrame? && DataOk(f, s.posts, s.routes) && Fresh(f, s.mem, s.routes, s.freed)
    ensures Fresh(f, s.mem[At(s.routes[x].dst.value, j) := v], s.routes, s.freed)
  {
    if f.id.h !in s.freed {
      var src, l := s.routes[f.id].src.value, At(s.routes[x].dst.value, j);
      forall k | 0 <= k < |f.payload| ensures f.payload[k] == Get(s.mem[l := v], At(src, f.offset + k)) {
        StoreMissesSource(s, f, x, i, j, k);
        assert f.payload[k] == Get(s.mem, At(src, f.offset + k));
      }
    }
  }

  lemma StoreKeepsNetFresh(s: State, x: Id, i: nat, j: nat, v: Byte)
    requires RoutesOk(s.routes, s.posts, s.registered) && Separate(s.routes, s.freed)
    requires x in s.routes && x.h !in s.freed && s.routes[x].dst.Some? && InChunk(s.routes[x], i, j)
    requires NetOk(s.net, s.posts, s.routes, s.written) && NetFresh(s.net, s.mem, s.routes, s.freed)
    ensures NetFresh(s.net, s.mem[At(s.routes[x].dst.value, j) := v], s.routes, s.freed)
  {
    forall f | f in s.net && f.DataFrame?
      ensures Fresh(f, s.mem[At(s.routes[x].dst.value, j) := v], s.routes, s.freed)
    {
      StoreKeepsFresh(s, f, x, i, j, v);
    }
  }

  /** The byte a StoreByte step writes, as a byte of its request's destination. */
  lemma StoredByte(s: State, w: Worker) returns (x: Id, i: nat, j: nat)
    requires CanStore(s, w) && WritingOk(w, s.rx[w], s.posts, s.routes, s.inc)
    requires RoutesOk(s.routes, s.posts, s.registered)
    ensures x == s.rx[w].f.id && i == s.rx[w].f.i && j == s.rx[w].f.offset + s.rx[w].k
    ensures x in s.routes && s.routes[x].dst.Some? && InChunk(s.routes[x], i, j)
    ensures DoStoreByte(s, w).mem == s.mem[At(s.routes[x].dst.value, j) := s.rx[w].f.payload[s.rx[w].k]]
  {
    x, i, j := s.rx[w].f.id, s.rx[w].f.i, s.rx[w].f.offset + s.rx[w].k;
    assert RouteOk(s.routes[x], s.posts[x.h], x.h in s.registered);
  }

  /** What another writer has stored is elsewhere. */
  lemma StoreMissesStored(s: State, v: Worker, x: Id, i: nat, j: nat, n: nat)
    requires RoutesOk(s.routes, s.posts, s.registered) && Separate(s.routes, s.freed)
    requires x in s.routes && x.h !in s.freed && s.routes[x].dst.Some? && InChunk(s.routes[x], i, j)
    requires v in s.rx && s.rx[v].Writing? && WritingOk(v, s.rx[v], s.posts, s.routes, s.inc)
    requires s.rx[v].f.id.h !in s.freed && n < s.rx[v].k && ChunkId(s.rx[v].f.id, s.rx[v].f.i) != ChunkId(x, i)
    ensures Loc(s.rx[v].place.host, s.rx[v].base + n) != At(s.routes[x].dst.value, j)
  {
    var t := s.rx[v];
    assert RouteOk(s.routes[t.f.id], s.posts[t.f.id.h], t.f.id.h in s.registered);
    StoreMisses(s.routes, s.posts, s.registered, s.freed, x, i, j, ChunkId(t.f.id, t.f.i), t.f.offset + n);
  }

  /** The store of one writer does not disturb another. */
  lemma StoreKeepsStored(s: State, v: Worker, x: Id, i: nat, j: nat, b: Byte)
    requires RoutesOk(s.routes, s.posts, s.registered) && Separate(s.routes, s.freed)
    requires x in s.routes && x.h !in s.freed && s.routes[x].dst.Some? && InChunk(s.routes[x], i, j)
    requires v in s.rx && s.rx[v].Writing? && WritingOk(v, s.rx[v], s.posts, s.routes, s.inc)
    requires Stored(s.rx[v], s.mem, s.routes, s.freed) && s.rx[v].f.id.h !in s.freed
    requires ChunkId(s.rx[v].f.id, s.rx[v].f.i) != ChunkId(x, i)
    ensures Stored(s.rx[v], s.mem[At(s.routes[x].dst.value, j) := b], s.routes, s.freed)
  {
    var t, l := s.rx[v], At(s.routes[x].dst.value, j);
    StoreKeepsFresh(s, t.f, x, i, j, b);
    forall n | 0 <= n < t.k ensures Get(s.mem[l := b], Loc(t.place.host, t.base + n)) == t.f.payload[n] {
      StoreMissesStored(s, v, x, i, j, n);
    }
  }

  /** What is written over a source is what the source holds. */
  lemma EchoStored(w: Worker, t: Rx, mem: map<Loc, Byte>, posts: map<PostId, Post>, routes: map<Id, Route>, inc: Table,
                   registered: set<PostId>, freed: set<PostId>)
    requires t.Writing? && WriterOk(w, t, posts, routes, inc) && !AtDestination(t, posts)
    requires RoutesOk(routes, posts, registered) && Fresh(t.f, mem, routes, freed) && t.f.id.h !in freed
    ensures Stored(t, mem, routes, freed)
    ensures t.k < |t.f.payload| ==> t.f.payload[t.k] == Get(mem, Loc(t.place.host, t.base + t.k))
  {
    assert RouteOk(routes[t.f.id], posts[t.f.id.h], t.f.id.h in registered);
    forall n: nat {:trigger t.base + n} | n < |t.f.payload|
      ensures Get(mem, Loc(t.place.host, t.base + n)) == t.f.payload[n]
    {
      assert At(routes[t.f.id].src.value, t.f.offset + n) == Loc(t.place.host, t.base + n);
    }
  }

  lemma StoreKeepsOwn(s: State, w: Worker)
    requires RoutesOk(s.routes, s.posts, s.registered) && Separate(s.routes, s.freed)
    requires CanStore(s, w) && WritingOk(w, s.rx[w], s.posts, s.routes, s.inc)
    requires Stored(s.rx[w], s.mem, s.routes, s.freed) && s.rx[w].f.id.h !in s.freed
    ensures var s' := DoStoreByte(s, w);
      s'.rx[w].k <= |s'.rx[w].f.payload| && Stored(s'.rx[w], s'.mem, s.routes, s.freed)
  {
    var x, i, j := StoredByte(s, w);
    var t := s.rx[w];
    StoreKeepsFresh(s, t.f, x, i, j, t.f.payload[t.k]);
    OneMoreStored(t, s.mem, s.routes, s.freed);
  }

  lemma OneMoreStored(t: Rx, mem: map<Loc, Byte>, routes: map<Id, Route>, freed: set<PostId>)
    requires t.Writing? && t.f.DataFrame? && t.k < |t.f.payload| && Stored(t, mem, routes, freed)
    requires Fresh(t.f, mem[Loc(t.place.host, t.base + t.k) := t.f.payload[t.k]], routes, freed)
    ensures Stored(t.(k := t.k + 1), mem[Loc(t.place.host, t.base + t.k) := t.f.payload[t.k]], routes, freed)
  {
  }

  lemma StoreKeepsRx(s: State, w: Worker)
    requires CanStore(s, w)
    requires RxOk(s.rx, s.posts, s.routes, s.inc, s.registered, s.written) && OneWriter(s.rx)
    ensures var s' := DoStoreByte(s, w);
      RxOk(s'.rx, s.posts, s.routes, s.inc, s.registered, s.written) && OneWriter(s'.rx)
  {
    var s' := DoStoreByte(s, w);
    forall v | v in s'.rx ensures RxEntryOk(v, s'.rx[v], s.posts, s.routes, s.inc, s.registered, s.written) {
      assert v in s.rx && RxEntryOk(v, s.rx[v], s.posts, s.routes, s.inc, s.registered, s.written);
    }
    forall v, k, c | v in s'.rx && WritesChunk(s'.rx[v], k, c) ensures v in s.rx && WritesChunk(s.rx[v], k, c) {
    }
  }

  /** Every writer is in order and its buffers are in use. */
  ghost predicate WritersLive(s: State) {
    forall w <- s.rx :: s.rx[w].Writing? ==>
      WriterOk(w, s.rx[w], s.posts, s.routes, s.inc) && s.rx[w].f.id.h !in s.freed
  }

  lemma AllWritersLive(s: State)
    requires Inv(s)
    ensures WritersLive(s)
  {
    forall w | w in s.rx && s.rx[w].Writing?
      ensures WriterOk(w, s.rx[w], s.posts, s.routes, s.inc) && s.rx[w].f.id.h !in s.freed
    {
      WriterIsLive(s, w);
    }
  }

  lemma StoreKeepsRxStored(s: State, w: Worker)
    requires RoutesOk(s.routes, s.posts, s.registered) && Separate(s.routes, s.freed)
    requires RxStored(s.rx, s.mem, s.routes, s.freed) && OneWriter(s.rx) && WritersLive(s)
    requires CanStore(s, w) && AtDestination(s.rx[w], s.posts)
    ensures var s' := DoStoreByte(s, w); RxStored(s'.rx, s'.mem, s.routes, s.freed)
  {
    var x, i, j := StoredByte(s, w);
    var s' := DoStoreByte(s, w);
    var b := s.rx[w].f.payload[s.rx[w].k];
    assert WritesChunk(s.rx[w], s.rx[w].place, ChunkId(x, i));
    forall u | u in s'.rx && s'.rx[u].Writing?
      ensures s'.rx[u].f.DataFrame? && s'.rx[u].k <= |s'.rx[u].f.payload| && Stored(s'.rx[u], s'.mem, s.routes, s.freed)
    {
      if u == w {
        StoreKeepsOwn(s, w);
      } else if AtDestination(s.rx[u], s.posts) {
        assert WritesChunk(s.rx[u], s.rx[u].place, ChunkId(s.rx[u].f.id, s.rx[u].f.i));
        StoreKeepsStored(s, u, x, i, j, b);
      } else {
        StoreKeepsFresh(s, s.rx[u].f, x, i, j, b);
        EchoStored(u, s.rx[u], s'.mem, s.posts, s.routes, s.inc, s.registered, s.freed);
      }
    }
  }

  lemma StoreByteKeeps(s: State, w: Worker)
    requires Inv(s) && CanStore(s, w)
    ensures Inv(DoStoreByte(s, w))
  {
    WriterIsLive(s, w);
    StoreKeepsRx(s, w);
    AllWritersLive(s);
    SetTokenless(s, w, s.rx[w].(k := s.rx[w].k + 1));
    if AtDestination(s.rx[w], s.posts) {
      var x, i, j := StoredByte(s, w);
      var v := s.rx[w].f.payload[s.rx[w].k];
      StoreKeepsGood(s, x, i, j, v);
      StoreKeepsNetFresh(s, x, i, j, v);
      StoreKeepsRxStored(s, w);
    } else {
      EchoKeepsMemory(s, w);
    }
  }

  /** A byte stored over a source changes nothing. */
  lemma EchoKeepsMemory(s: State, w: Worker)
    requires CanStore(s, w) && WritersLive(s) && !AtDestination(s.rx[w], s.posts)
    requires RoutesOk(s.routes, s.posts, s.registered) && RxStored(s.rx, s.mem, s.routes, s.freed)
    requires DeliveredOk(s.delivered, s.routes) && Good(s.mem, s.routes, s.delivered, s.freed)
    requires NetFresh(s.net, s.mem, s.routes, s.freed)
    ensures var s' := DoStoreByte(s, w);
      && Good(s'.mem, s.routes, s.delivered, s.freed) && NetFresh(s.net, s'.mem, s.routes, s.freed)
      && RxStored(s'.rx, s'.mem, s.routes, s.freed)
  {
    var s' := DoStoreByte(s, w);
    EchoStored(w, s.rx[w], s.mem, s.posts, s.routes, s.inc, s.registered, s.freed);
    SameBytes(s.mem, s'.mem, s.routes, s.net, s.delivered, s.freed);
    forall u | u in s'.rx && s'.rx[u].Writing?
      ensures s'.rx[u].f.DataFrame? && s'.rx[u].k <= |s'.rx[u].f.payload| && Stored(s'.rx[u], s'.mem, s.routes, s.freed)
    {
      SameBytesFresh(s.mem, s'.mem, s.routes, s.rx[u].f, s.freed);
      if u == w {
        EchoStored(w, s'.rx[w], s'.mem, s.posts, s.routes, s.inc, s.registered, s.freed);
      }
    }
  }

  lemma SameBytesFresh(mem: map<Loc, Byte>, mem': map<Loc, Byte>, routes: map<Id, Route>, f: Frame, freed: set<PostId>)
    requires (forall l :: Get(mem, l) == Get(mem', l)) && f.DataFrame? && Fresh(f, mem, routes, freed)
    ensures Fresh(f, mem', routes, freed)
  {
  }

  lemma SameBytes(mem: map<Loc, Byte>, mem': map<Loc, Byte>, routes: map<Id, Route>, net: set<Frame>,
                  delivered: set<ChunkId>, freed: set<PostId>)
    requires (forall l :: Get(mem, l) == Get(mem', l)) && DeliveredOk(delivered, routes)
    requires Good(mem, routes, delivered, freed) && NetFresh(net, mem, routes, freed)
    ensures Good(mem', routes, delivered, freed) && NetFresh(net, mem', routes, freed)
  {
    forall f | f in net && f.DataFrame? ensures Fresh(f, mem', routes, freed) {
      SameBytesFresh(mem, mem', routes, f, freed);
    }
  }

  // --- Frames: what survives when one component grows ----------------------------------

  /** Other routes are kept, and what is known of a route stays. */
  ghost predicate Extends(a: map<Id, Route>, b: map<Id, Route>, h: PostId) {
    && (forall x <- a :: x in b && b[x].cuts == a[x].cuts
          && (a[x].src.Some? ==> b[x].src == a[x].src) && (a[x].dst.Some? ==> b[x].dst == a[x].dst))
    && (forall x <- b :: x !in a ==> x.h == h)
    && ((forall x <- a :: x.h != h) || (forall x <- b :: x in a))
  }

  lemma ExtendsIds(a: map<Id, Route>, b: map<Id, Route>, h: PostId, keys: set<ReqId>, g: PostId)
    requires Extends(a, b, h) && SameIds(keys, g, a) && keys != {}
    ensures SameIds(keys, g, b)
  {
    var r :| r in keys;
    assert Id(g, r) in a;
  }

  lemma ExtendKeepsDelivered(s: State, b: map<Id, Route>, h: PostId)
    requires Extends(s.routes, b, h) && DeliveredOk(s.written, s.routes)
    requires DeliveredOk(s.delivered, s.routes) && Good(s.mem, s.routes, s.delivered, s.freed)
    ensures DeliveredOk(s.delivered, b) && Good(s.mem, b, s.delivered, s.freed) && DeliveredOk(s.written, b)
  {
    forall c, j: nat | c in s.delivered && c.id.h !in s.freed && InChunk(b[c.id], c.i, j)
      ensures Get(s.mem, At(b[c.id].dst.value, j)) == Get(s.mem, At(b[c.id].src.value, j))
    {
      assert InChunk(s.routes[c.id], c.i, j);
    }
  }

  lemma ExtendKeepsNet(s: State, b: map<Id, Route>, h: PostId)
    requires Extends(s.routes, b, h)
    requires NetOk(s.net, s.posts, s.routes, s.written) && NetFresh(s.net, s.mem, s.routes, s.freed)
    ensures NetOk(s.net, s.posts, b, s.written) && NetFresh(s.net, s.mem, b, s.freed)
  {
    forall f | f in s.net && f.InfoFrame? ensures InfoOk(f, s.posts, b) {
      ExtendsIds(s.routes, b, h, f.infos.Keys, f.h);
    }
  }

  lemma ExtendKeepsMatches(a: map<Id, Route>, b: map<Id, Route>, h: PostId, reqs: map<ReqId, ReqTracker>, g: PostId)
    requires Extends(a, b, h) && Matches(reqs, g, a) && reqs != map[]
    ensures Matches(reqs, g, b)
  {
    ExtendsIds(a, b, h, reqs.Keys, g);
  }

  lemma ExtendKeepsOut(s: State, b: map<Id, Route>, h: PostId)
    requires Extends(s.routes, b, h) && OutOk(s.out, s.posts, s.routes, s.written)
    ensures OutOk(s.out, s.posts, b, s.written)
  {
    forall k | k in s.out ensures OutEntryOk(k, s.out[k], s.posts, b, s.written) {
      assert OutEntryOk(k, s.out[k], s.posts, s.routes, s.written);
      if s.out[k].reqs != map[] {
        ExtendKeepsMatches(s.routes, b, h, s.out[k].reqs, OutPost(k, s.out[k]));
      }
    }
  }

  lemma ExtendKeepsInc(s: State, b: map<Id, Route>, h: PostId)
    requires Extends(s.routes, b, h) && IncOk(s.inc, s.posts, s.routes, s.registered, s.delivered)
    ensures IncOk(s.inc, s.posts, b, s.registered, s.delivered)
  {
    forall k | k in s.inc ensures IncEntryOk(k, s.inc[k], s.posts, b, s.registered, s.delivered) {
      var g := IncPost(k);
      assert IncEntryOk(k, s.inc[k], s.posts, s.routes, s.registered, s.delivered);
      if s.inc[k].reqs != map[] {
        ExtendKeepsMatches(s.routes, b, h, s.inc[k].reqs, g);
      }
      forall r | r in s.inc[k].reqs && k == RecvPlace(s.posts[g], g)
        ensures Receives(s.inc[k].reqs[r], Id(g, r), b, s.delivered)
      {
        assert Receives(s.inc[k].reqs[r], Id(g, r), s.routes, s.delivered);
      }
    }
  }

  lemma ExtendKeepsEchoes(s: State, b: map<Id, Route>, h: PostId)
    requires Extends(s.routes, b, h) && EchoesOk(s.inc, s.posts, s.routes, s.written)
    ensures EchoesOk(s.inc, s.posts, b, s.written)
  {
    forall k, r | k in s.inc && ServesRead(s.posts, k) && r in s.inc[k].reqs
      ensures Echoes(s.inc[k].reqs[r], Id(IncPost(k), r), b, s.written)
    {
      assert Echoes(s.inc[k].reqs[r], Id(IncPost(k), r), s.routes, s.written);
    }
  }

  lemma ExtendKeepsBatch(a: map<Id, Route>, b: map<Id, Route>, h: PostId, infos: map<ReqId, RequestInfo>, g: PostId,
                         host: Host)
    requires Extends(a, b, h) && BatchOk(infos, g, host, a)
    ensures BatchOk(infos, g, host, b)
  {
    ExtendsIds(a, b, h, infos.Keys, g);
    forall r | r in infos ensures Describes(infos[r], Id(g, r), host, b) {
      assert Describes(infos[r], Id(g, r), host, a);
    }
  }

  lemma ExtendKeepsLoads(s: State, b: map<Id, Route>, h: PostId)
    requires Extends(s.routes, b, h)
    requires QueuedOk(s.queued, s.posts, s.routes) && SendingOk(s.sending, s.posts, s.routes)
    ensures QueuedOk(s.queued, s.posts, b) && SendingOk(s.sending, s.posts, b)
  {
    forall g | g in s.queued ensures BatchOk(s.queued[g].infos, g, s.posts[g].target, b) {
      ExtendKeepsBatch(s.routes, b, h, s.queued[g].infos, g, s.posts[g].target);
    }
    forall g, r | g in s.sending && r in s.sending[g].jobs
      ensures JobOk(s.sending[g].jobs[r], Id(g, r), DataSender(s.posts[g]), b)
    {
      assert JobOk(s.sending[g].jobs[r], Id(g, r), DataSender(s.posts[g]), s.routes);
    }
  }

  lemma ExtendKeepsRx(s: State, b: map<Id, Route>, h: PostId)
    requires Extends(s.routes, b, h)
    requires RxOk(s.rx, s.posts, s.routes, s.inc, s.registered, s.written)
    requires RxStored(s.rx, s.mem, s.routes, s.freed)
    ensures RxOk(s.rx, s.posts, b, s.inc, s.registered, s.written)
    ensures RxStored(s.rx, s.mem, b, s.freed)
  {
    forall w | w in s.rx
      ensures RxEntryOk(w, s.rx[w], s.posts, b, s.inc, s.registered, s.written)
      ensures s.rx[w].Writing? ==> Fresh(s.rx[w].f, s.mem, b, s.freed)
    {
      assert RxEntryOk(w, s.rx[w], s.posts, s.routes, s.inc, s.registered, s.written);
      if s.rx[w].Responding? {
        var g := IncPost(s.rx[w].place);
        ExtendKeepsBatch(s.routes, b, h, s.rx[w].infos, g, s.posts[g].target);
      }
    }
  }

  /** New requests are of a post nobody has reported or counted. */
  lemma ExtendKeepsCounts(s: State, b: map<Id, Route>, h: PostId)
    requires Extends(s.routes, b, h)
    requires h !in s.reported || (forall x <- b :: x in s.routes)
    requires ReportedOk(s.reported, s.posts, s.routes, s.delivered)
    requires CountedOk(s.counted, s.routes, s.delivered)
    requires TokensOk(s.rx, s.posts, s.routes, s.counted, s.delivered)
    ensures ReportedOk(s.reported, s.posts, b, s.delivered)
    ensures CountedOk(s.counted, b, s.delivered)
    ensures TokensOk(s.rx, s.posts, b, s.counted, s.delivered)
  {
    forall x | x in s.routes && AllDelivered(x, s.routes, s.delivered) ensures AllDelivered(x, b, s.delivered) {
    }
  }

  /** A fresh handle changes nothing for the others. */
  lemma FreshPostKeeps(s: State, h: PostId, p: Post)
    requires Inv(s) && CanEnqueue(s, h, p)
    ensures Inv(s.(posts := s.posts[h := p]))
  {
    FreshPostKeepsRoutes(s, h, p);
    FreshPostKeepsNet(s, h, p);
    FreshPostKeepsInc(s, h, p);
    FreshPostKeepsOut(s, h, p);
    FreshPostKeepsLoads(s, h, p);
    FreshPostKeepsRx(s, h, p);
    FreshPostKeepsMarks(s, h, p);
  }

  lemma FreshPostKeepsRoutes(s: State, h: PostId, p: Post)
    requires CanEnqueue(s, h, p)
    requires PostsOk(s.posts) && RoutesOk(s.routes, s.posts, s.registered) && PopulatedOk(s.inc, s.posts, s.routes)
    requires ReportedOk(s.reported, s.posts, s.routes, s.delivered)
    ensures PostsOk(s.posts[h := p]) && RoutesOk(s.routes, s.posts[h := p], s.registered)
    ensures PopulatedOk(s.inc, s.posts[h := p], s.routes)
    ensures ReportedOk(s.reported, s.posts[h := p], s.routes, s.delivered)
  {
  }

  lemma FreshPostKeepsMarks(s: State, h: PostId, p: Post)
    requires CanEnqueue(s, h, p)
    requires WrittenOk(s.written, s.delivered, s.posts) && FreedOk(s.freed, s.reported, s.posts)
    ensures WrittenOk(s.written, s.delivered, s.posts[h := p]) && FreedOk(s.freed, s.reported, s.posts[h := p])
  {
  }

  lemma FreshPostKeepsNet(s: State, h: PostId, p: Post)
    requires CanEnqueue(s, h, p) && NetOk(s.net, s.posts, s.routes, s.written)
    ensures NetOk(s.net, s.posts[h := p], s.routes, s.written)
  {
    assert forall f :: f in s.net && f.AckFrame? ==> AckOk(f, s.posts[h := p], s.written);
  }

  lemma FreshPostKeepsInc(s: State, h: PostId, p: Post)
    requires CanEnqueue(s, h, p) && IncOk(s.inc, s.posts, s.routes, s.registered, s.delivered)
    requires PendingOk(s.inc, s.posts, s.counted) && EchoesOk(s.inc, s.posts, s.routes, s.written)
    ensures IncOk(s.inc, s.posts[h := p], s.routes, s.registered, s.delivered)
    ensures PendingOk(s.inc, s.posts[h := p], s.counted) && EchoesOk(s.inc, s.posts[h := p], s.routes, s.written)
  {
    forall k | k in s.inc ensures IncPost(k) in s.posts {
      assert IncEntryOk(k, s.inc[k], s.posts, s.routes, s.registered, s.delivered);
    }
    forall k | k in s.inc ensures IncEntryOk(k, s.inc[k], s.posts[h := p], s.routes, s.registered, s.delivered) {
      assert IncEntryOk(k, s.inc[k], s.posts, s.routes, s.registered, s.delivered);
    }
    FreshPostKeepsPending(s, h, p);
  }

  lemma FreshPostKeepsPending(s: State, h: PostId, p: Post)
    requires h !in s.posts && forall k <- s.inc :: IncPost(k) in s.posts
    requires PendingOk(s.inc, s.posts, s.counted) && EchoesOk(s.inc, s.posts, s.routes, s.written)
    ensures PendingOk(s.inc, s.posts[h := p], s.counted) && EchoesOk(s.inc, s.posts[h := p], s.routes, s.written)
  {
    assert forall k <- s.inc :: ReceivesAt(s.posts[h := p], k, IncPost(k)) ==> ReceivesAt(s.posts, k, IncPost(k));
    assert forall k <- s.inc :: ServesRead(s.posts[h := p], k) ==> ServesRead(s.posts, k);
  }

  lemma FreshPostKeepsOut(s: State, h: PostId, p: Post)
    requires CanEnqueue(s, h, p) && OutOk(s.out, s.posts, s.routes, s.written)
    ensures OutOk(s.out, s.posts[h := p], s.routes, s.written)
  {
    forall k | k in s.out ensures OutEntryOk(k, s.out[k], s.posts[h := p], s.routes, s.written) {
      assert OutEntryOk(k, s.out[k], s.posts, s.routes, s.written);
    }
  }

  lemma FreshPostKeepsLoads(s: State, h: PostId, p: Post)
    requires CanEnqueue(s, h, p)
    requires QueuedOk(s.queued, s.posts, s.routes) && SendingOk(s.sending, s.posts, s.routes)
    ensures QueuedOk(s.queued, s.posts[h := p], s.routes) && SendingOk(s.sending, s.posts[h := p], s.routes)
  {
  }

  lemma FreshPostKeepsRx(s: State, h: PostId, p: Post)
    requires CanEnqueue(s, h, p)
    requires RxOk(s.rx, s.posts, s.routes, s.inc, s.registered, s.written)
    requires TokensOk(s.rx, s.posts, s.routes, s.counted, s.delivered)
    ensures RxOk(s.rx, s.posts[h := p], s.routes, s.inc, s.registered, s.written)
    ensures TokensOk(s.rx, s.posts[h := p], s.routes, s.counted, s.delivered)
  {
    forall w | w in s.rx
      ensures RxEntryOk(w, s.rx[w], s.posts[h := p], s.routes, s.inc, s.registered, s.written)
    {
      assert RxEntryOk(w, s.rx[w], s.posts, s.routes, s.inc, s.registered, s.written);
    }
  }

  /** Replacing the state of one worker. */
  lemma SetWorker(s: State, w: Worker, t: Rx)
    requires RxOk(s.rx, s.posts, s.routes, s.inc, s.registered, s.written)
    requires RxEntryOk(w, t, s.posts, s.routes, s.inc, s.registered, s.written)
    requires OneWriter(s.rx) && !t.Writing? && RxStored(s.rx, s.mem, s.routes, s.freed)
    ensures RxOk(s.rx[w := t], s.posts, s.routes, s.inc, s.registered, s.written)
    ensures OneWriter(s.rx[w := t])
    ensures RxStored(s.rx[w := t], s.mem, s.routes, s.freed)
  {
    var rx' := s.rx[w := t];
    assert forall v, k, c :: v in rx' && WritesChunk(rx'[v], k, c) ==> v in s.rx && WritesChunk(s.rx[v], k, c);
  }

  lemma SetTokenless(s: State, w: Worker, t: Rx)
    requires TokensOk(s.rx, s.posts, s.routes, s.counted, s.delivered) && !t.Completing?
    ensures TokensOk(s.rx[w := t], s.posts, s.routes, s.counted, s.delivered)
  {
    var rx' := s.rx[w := t];
    assert forall v, x :: v in rx' && Owes(rx'[v], x) ==> v in s.rx && Owes(s.rx[v], x);
  }

  // --- Posting, sending, application stores ------------------------------------------------

  /** No entry, request or count of a post that does not exist. */
  lemma NoCounts(s: State, h: PostId)
    requires CountedOk(s.counted, s.routes, s.delivered) && forall x <- s.routes :: x.h != h
    ensures CountedOf(s.counted, h) == {}
  {
  }

  lemma EnqueueReadKeeps(s: State, h: PostId, p: Post, onDone: OnDone)
    requires Inv(s) && CanEnqueue(s, h, p) && p.op.Read? && HomePlace(p, h) !in s.inc
    ensures Inv(s.(posts := s.posts[h := p], inc := AddHandle(s.inc, HomePlace(p, h), onDone)))
  {
    NoRequests(s, h);
    FreshPostKeeps(s, h, p);
    NewIncEntry(s.(posts := s.posts[h := p]), HomePlace(p, h), h, onDone);
  }

  lemma EnqueueWriteKeeps(s: State, h: PostId, p: Post, onDone: OnDone)
    requires Inv(s) && CanEnqueue(s, h, p) && p.op.Write? && HomePlace(p, h) !in s.out && !onDone.Relay?
    ensures Inv(s.(posts := s.posts[h := p], out := AddHandle(s.out, HomePlace(p, h), onDone)))
  {
    FreshPostKeeps(s, h, p);
    NewOutEntry(s.(posts := s.posts[h := p]), HomePlace(p, h), onDone);
  }

  lemma NoRequests(s: State, h: PostId)
    requires RoutesOk(s.routes, s.posts, s.registered) && h !in s.posts
    ensures forall x <- s.routes :: x.h != h
  {
  }

  lemma EnqueueKeeps(s: State, h: PostId, p: Post, callback: bool)
    requires Inv(s) && CanEnqueue(s, h, p)
    ensures Inv(DoEnqueue(s, h, p, callback))
  {
    var onDone := if callback then Notify else Silent;
    if HomePlace(p, h) in (if p.op.Write? then s.out else s.inc) {
      assert DoEnqueue(s, h, p, callback) == s;
    } else if p.op.Read? {
      EnqueueReadKeeps(s, h, p, onDone);
    } else {
      EnqueueWriteKeeps(s, h, p, onDone);
    }
  }

  /** A new entry for a read without requests. */
  lemma NewIncEntry(s: State, k: Place, h: PostId, onDone: OnDone)
    requires Inv(s) && k !in s.inc && h in s.posts && s.posts[h].op.Read? && k == HomePlace(s.posts[h], h)
    requires forall x <- s.routes :: x.h != h
    ensures Inv(s.(inc := AddHandle(s.inc, k, onDone)))
  {
    var pt := PostTracker(map[], 0, [], onDone, true);
    RecvPlaceIs(s.posts, h);
    FillKeepsBusy(s.inc, k, pt);
    SameWriters(s, s.inc[k := pt]);
    NewHomeOk(s, k, h, pt);
    SetIncEntry(s.inc, k, pt, s.posts, s.routes, s.registered, s.delivered);
    NoCounts(s, h);
    SetPending(s, k, h, pt);
  }

  lemma NewHomeOk(s: State, k: Place, h: PostId, pt: PostTracker)
    requires h in s.posts && s.posts[h].op.Read? && k == HomePlace(s.posts[h], h) && PostsOk(s.posts)
    requires pt.reqs == map[] && pt.initiator
    ensures IncEntryOk(k, pt, s.posts, s.routes, s.registered, s.delivered)
  {
    RecvPlaceIs(s.posts, h);
  }

  lemma SetIncEntry(inc: Table, k: Place, pt: PostTracker, posts: map<PostId, Post>, routes: map<Id, Route>,
                    registered: set<PostId>, delivered: set<ChunkId>)
    requires IncOk(inc, posts, routes, registered, delivered)
    requires IncEntryOk(k, pt, posts, routes, registered, delivered)
    ensures IncOk(inc[k := pt], posts, routes, registered, delivered)
  {
  }

  /** What else a new entry of `h` must keep. */
  lemma SetPending(s: State, k: Place, h: PostId, pt: PostTracker)
    requires IncPost(k) == h && h in s.posts && k == HomePlace(s.posts[h], h) && PostsOk(s.posts)
    requires PendingOk(s.inc, s.posts, s.counted) && PopulatedOk(s.inc, s.posts, s.routes)
    requires EchoesOk(s.inc, s.posts, s.routes, s.written)
    requires pt.pending == |pt.reqs| - |CountedOf(s.counted, h)|
    requires pt.reqs != map[] || forall x <- s.routes :: x.h != h
    ensures PendingOk(s.inc[k := pt], s.posts, s.counted) && PopulatedOk(s.inc[k := pt], s.posts, s.routes)
    ensures EchoesOk(s.inc[k := pt], s.posts, s.routes, s.written)
  {
    RecvPlaceIs(s.posts, h);
    assert !ServesRead(s.posts, k);
    forall x | x in s.routes && x.h in s.posts && RecvPlace(s.posts[x.h], x.h) == k ensures x.h == h {
      RecvPlaceIs(s.posts, x.h);
    }
  }

  lemma NewOutEntry(s: State, k: Place, onDone: OnDone)
    requires Inv(s) && k !in s.out
    requires var h := OutPost(k, PostTracker(map[], 0, [], onDone, true));
      h in s.posts && k == SendPlace(s.posts[h], h) && (onDone.Relay? <==> s.posts[h].op.Read?)
    ensures Inv(s.(out := AddHandle(s.out, k, onDone)))
  {
    NewOutEntryOk(s, k, onDone);
  }

  lemma NewOutEntryOk(s: State, k: Place, onDone: OnDone)
    requires OutOk(s.out, s.posts, s.routes, s.written) && k !in s.out
    requires var h := OutPost(k, PostTracker(map[], 0, [], onDone, true));
      h in s.posts && k == SendPlace(s.posts[h], h) && (onDone.Relay? <==> s.posts[h].op.Read?)
    ensures OutOk(AddHandle(s.out, k, onDone), s.posts, s.routes, s.written)
  {
    assert OutEntryOk(k, PostTracker(map[], 0, [], onDone, true), s.posts, s.routes, s.written);
  }

  ghost predicate KeepsBusy(a: Table, b: Table) {
    forall k, r, i :: k in a && r in a[k].reqs && i in a[k].reqs[r].chunks.busy ==>
      k in b && r in b[k].reqs && i in b[k].reqs[r].chunks.busy
  }

  /** Writers do not notice a change of incoming that keeps their chunks busy. */
  lemma SameWriters(s: State, inc': Table)
    requires RxOk(s.rx, s.posts, s.routes, s.inc, s.registered, s.written) && KeepsBusy(s.inc, inc')
    ensures RxOk(s.rx, s.posts, s.routes, inc', s.registered, s.written)
  {
    forall w | w in s.rx ensures RxEntryOk(w, s.rx[w], s.posts, s.routes, inc', s.registered, s.written) {
      assert RxEntryOk(w, s.rx[w], s.posts, s.routes, s.inc, s.registered, s.written);
    }
  }

  lemma FillKeepsBusy(inc: Table, k: Place, pt: PostTracker)
    requires k in inc ==> inc[k].reqs == map[]
    ensures KeepsBusy(inc, inc[k := pt])
  {
  }

  /** A worker has nothing left to do but perhaps to acknowledge a chunk. */
  ghost predicate OnlyAcks(t: Rx, posts: map<PostId, Post>, written: set<ChunkId>) {
    t.Idle? || (t.Acking? && AckOk(t.frame, posts, written))
  }

  lemma MoveWorker(s: State, w: Worker, t: Rx)
    requires Inv(s) && OnlyAcks(t, s.posts, s.written)
    ensures Inv(s.(rx := s.rx[w := t]))
  {
    SetWorker(s, w, t);
    SetTokenless(s, w, t);
  }

  lemma SendAckKeeps(s: State, w: Worker, ok: bool)
    requires Inv(s) && CanSendAck(s, w)
    ensures Inv(DoSendAck(s, w, ok))
  {
    MoveWorker(s, w, Idle);
    AddAck(s, w);
  }

  lemma AddAck(s: State, w: Worker)
    requires CanSendAck(s, w) && RxOk(s.rx, s.posts, s.routes, s.inc, s.registered, s.written)
    requires NetOk(s.net, s.posts, s.routes, s.written) && NetFresh(s.net, s.mem, s.routes, s.freed)
    ensures NetOk(s.net + {s.rx[w].frame}, s.posts, s.routes, s.written)
    ensures NetFresh(s.net + {s.rx[w].frame}, s.mem, s.routes, s.freed)
  {
    assert RxEntryOk(w, s.rx[w], s.posts, s.routes, s.inc, s.registered, s.written);
  }

  lemma SendChunkKeeps(s: State, id: Id, i: nat)
    requires Inv(s) && CanSendChunk(s, id, i)
    ensures Inv(s.(net := s.net + {ChunkFrame(s.mem, s.sending[id.h], id, i)}))
  {
    SentIsOk(s, id, i);
    AddData(s, ChunkFrame(s.mem, s.sending[id.h], id, i));
  }

  /** What the sender cuts from its own descriptors is a chunk of the route, with the bytes its source holds. */
  lemma SentIsOk(s: State, id: Id, i: nat)
    requires CanSendChunk(s, id, i) && SendingOk(s.sending, s.posts, s.routes)
    ensures var f := ChunkFrame(s.mem, s.sending[id.h], id, i);
      DataOk(f, s.posts, s.routes) && Fresh(f, s.mem, s.routes, s.freed)
  {
    var load := s.sending[id.h];
    var job := load.jobs[id.r];
    assert id == Id(id.h, id.r) && JobOk(job, id, DataSender(s.posts[id.h]), s.routes);
    OffsetStep(job.len, job.nchunks, i);
    var f := ChunkFrame(s.mem, load, id, i);
    assert s.routes[id].cuts[i] == Offset(job.len, job.nchunks, i);
    assert s.routes[id].cuts[i + 1] == Offset(job.len, job.nchunks, i + 1);
  }

  lemma AddData(s: State, f: Frame)
    requires f.DataFrame? && DataOk(f, s.posts, s.routes) && Fresh(f, s.mem, s.routes, s.freed)
    requires NetOk(s.net, s.posts, s.routes, s.written) && NetFresh(s.net, s.mem, s.routes, s.freed)
    ensures NetOk(s.net + {f}, s.posts, s.routes, s.written) && NetFresh(s.net + {f}, s.mem, s.routes, s.freed)
  {
  }

  lemma AppStoreKeeps(s: State, l: Loc, v: Byte)
    requires Inv(s) && Untouched(s.routes, s.freed, l)
    ensures Inv(s.(mem := s.mem[l := v]))
  {
    AllWritersLive(s);
    UntouchedKeepsGood(s, l, v);
    UntouchedKeepsFrames(s, l, v);
  }

  lemma UntouchedKeepsGood(s: State, l: Loc, v: Byte)
    requires RoutesOk(s.routes, s.posts, s.registered) && Untouched(s.routes, s.freed, l)
    requires DeliveredOk(s.delivered, s.routes) && Good(s.mem, s.routes, s.delivered, s.freed)
    ensures Good(s.mem[l := v], s.routes, s.delivered, s.freed)
  {
    var mem' := s.mem[l := v];
    forall c, j: nat | c in s.delivered && c.id.h !in s.freed && InChunk(s.routes[c.id], c.i, j)
      ensures Get(mem', At(s.routes[c.id].dst.value, j)) == Get(mem', At(s.routes[c.id].src.value, j))
    {
      ChunkInside(s.routes[c.id], c.i, j);
    }
  }

  lemma UntouchedKeepsFrames(s: State, l: Loc, v: Byte)
    requires RoutesOk(s.routes, s.posts, s.registered) && Untouched(s.routes, s.freed, l) && WritersLive(s)
    requires NetOk(s.net, s.posts, s.routes, s.written) && NetFresh(s.net, s.mem, s.routes, s.freed)
    requires RxStored(s.rx, s.mem, s.routes, s.freed)
    ensures NetFresh(s.net, s.mem[l := v], s.routes, s.freed) && RxStored(s.rx, s.mem[l := v], s.routes, s.freed)
  {
    forall f | f in s.net && f.DataFrame? ensures Fresh(f, s.mem[l := v], s.routes, s.freed) {
      UntouchedKeepsFresh(s, f, l, v);
    }
    forall w | w in s.rx && s.rx[w].Writing? ensures Stored(s.rx[w], s.mem[l := v], s.routes, s.freed) {
      UntouchedKeepsStored(s, w, l, v);
    }
  }

  lemma UntouchedKeepsFresh(s: State, f: Frame, l: Loc, v: Byte)
    requires RoutesOk(s.routes, s.posts, s.registered) && Untouched(s.routes, s.freed, l)
    requires f.DataFrame? && DataOk(f, s.posts, s.routes) && Fresh(f, s.mem, s.routes, s.freed)
    ensures Fresh(f, s.mem[l := v], s.routes, s.freed)
  {
    forall k: nat {:trigger f.offset + k} | k < |f.payload| && f.id.h !in s.freed
      ensures At(s.routes[f.id].src.value, f.offset + k) != l
    {
      ChunkInside(s.routes[f.id], f.i, f.offset + k);
    }
  }

  lemma UntouchedKeepsStored(s: State, w: Worker, l: Loc, v: Byte)
    requires RoutesOk(s.routes, s.posts, s.registered) && Untouched(s.routes, s.freed, l)
    requires w in s.rx && s.rx[w].Writing? && WriterOk(w, s.rx[w], s.posts, s.routes, s.inc)
    requires s.rx[w].f.id.h !in s.freed && Stored(s.rx[w], s.mem, s.routes, s.freed)
    ensures Stored(s.rx[w], s.mem[l := v], s.routes, s.freed)
  {
    var t := s.rx[w];
    UntouchedKeepsFresh(s, t.f, l, v);
    assert RouteOk(s.routes[t.f.id], s.posts[t.f.id.h], t.f.id.h in s.registered);
    forall n: nat {:trigger t.base + n} | n < t.k ensures Loc(t.place.host, t.base + n) != l {
      ChunkInside(s.routes[t.f.id], t.f.i, t.f.offset + n);
    }
  }

  // --- Receiving data ------------------------------------------------------------------

  /** What is known of the request tracker a chunk was looked up in. */
  ghost predicate TracksAt(s: State, k: Place, x: Id) {
    && k in s.inc && x.r in s.inc[k].reqs && IncPost(k) == x.h && x.h in s.posts
    && (ReceivesAt(s.posts, k, x.h) ==> Receives(s.inc[k].reqs[x.r], x, s.routes, s.delivered))
    && (!ReceivesAt(s.posts, k, x.h) ==>
          ServesRead(s.posts, k) && !Proper(s.posts[x.h]) && Echoes(s.inc[k].reqs[x.r], x, s.routes, s.written))
  }

  /**
    * The entry a data frame is looked up in, under whatever peer, is one of its own post if
    * it has the request at all: the one the post receives into, but for a read from oneself.
    */
  lemma DataLookup(s: State, w: Worker, f: Frame, k: Place)
    requires PostsOk(s.posts) && UniqueIds(s.routes) && EchoesOk(s.inc, s.posts, s.routes, s.written)
    requires IncOk(s.inc, s.posts, s.routes, s.registered, s.delivered)
    requires f.DataFrame? && DataOk(f, s.posts, s.routes) && w.host == f.dst
    requires k.host == w.host && k in s.inc && f.id.r in s.inc[k].reqs
    ensures TracksAt(s, k, f.id) && Lands(k, f, s.inc[k].reqs[f.id.r].raddr + f.offset, s.posts, s.routes)
  {
    var h := IncPost(k);
    assert IncEntryOk(k, s.inc[k], s.posts, s.routes, s.registered, s.delivered);
    assert Id(h, f.id.r) in s.routes && Id(h, f.id.r) == f.id;
    if !ReceivesAt(s.posts, k, h) {
      assert ServesRead(s.posts, k);
      assert Echoes(s.inc[k].reqs[f.id.r], f.id, s.routes, s.written);
    }
  }

  lemma FrameOk(s: State, f: Frame)
    requires NetOk(s.net, s.posts, s.routes, s.written) && NetFresh(s.net, s.mem, s.routes, s.freed)
    requires f in s.net && f.DataFrame?
    ensures DataOk(f, s.posts, s.routes) && Fresh(f, s.mem, s.routes, s.freed)
  {
  }

  /** A data frame is dropped or located. */
  lemma RecvDataOutcome(s: State, w: Worker, f: Frame, peer: Host)
    requires CanRecvData(s, w, f)
    requires NetOk(s.net, s.posts, s.routes, s.written) && NetFresh(s.net, s.mem, s.routes, s.freed)
    requires PostsOk(s.posts) && UniqueIds(s.routes) && EchoesOk(s.inc, s.posts, s.routes, s.written)
    requires IncOk(s.inc, s.posts, s.routes, s.registered, s.delivered)
    ensures var k := Place(w.host, Key(peer, f.id.h.handle));
      var t := Located(k, f, ChunkAddr(s.inc, k, f.id.r, f.offset));
      || DoRecvData(s, w, f, peer) == s
      || (PlacedOk(w, t, s.posts, s.routes) && DoRecvData(s, w, f, peer) == s.(rx := s.rx[w := t]))
  {
    var k := Place(w.host, Key(peer, f.id.h.handle));
    if ChunkAddr(s.inc, k, f.id.r, f.offset) != 0 {
      FrameOk(s, f);
      DataLookup(s, w, f, k);
    }
  }

  lemma MovePlaced(s: State, w: Worker, t: Rx)
    requires Inv(s) && (t.Located? || t.Found?) && PlacedOk(w, t, s.posts, s.routes)
    ensures Inv(s.(rx := s.rx[w := t]))
  {
    SetWorker(s, w, t);
    SetTokenless(s, w, t);
  }

  lemma RecvDataKeeps(s: State, w: Worker, f: Frame, peer: Host)
    requires Inv(s) && CanRecvData(s, w, f)
    ensures Inv(DoRecvData(s, w, f, peer))
  {
    var k := Place(w.host, Key(peer, f.id.h.handle));
    var t := Located(k, f, ChunkAddr(s.inc, k, f.id.r, f.offset));
    RecvDataOutcome(s, w, f, peer);
    if PlacedOk(w, t, s.posts, s.routes) {
      MovePlaced(s, w, t);
    }
  }

  lemma Placed(s: State, w: Worker)
    requires w in s.rx && (s.rx[w].Located? || s.rx[w].Found?)
    requires RxOk(s.rx, s.posts, s.routes, s.inc, s.registered, s.written)
    ensures PlacedOk(w, s.rx[w], s.posts, s.routes)
  {
    assert RxEntryOk(w, s.rx[w], s.posts, s.routes, s.inc, s.registered, s.written);
  }

  lemma FindKeeps(s: State, w: Worker)
    requires Inv(s) && CanFind(s, w)
    ensures Inv(DoFind(s, w))
  {
    Placed(s, w);
    MovePlaced(s, w, Found(s.rx[w].place, s.rx[w].f, s.rx[w].base));
  }

  function WriteStarted(s: State, w: Worker, f: Frame, k: Place): State
    requires f.DataFrame? && k in s.inc && f.id.r in s.inc[k].reqs
  {
    var c := Acquire(s.inc[k].reqs[f.id.r].chunks, f.i);
    s.(inc := WithChunks(s.inc, k, f.id.r, c),
       rx := s.rx[w := Writing(k, f, s.inc[k].reqs[f.id.r].raddr + f.offset, 0)])
  }

  ghost predicate MayWrite(s: State, w: Worker, f: Frame, k: Place) {
    && f.DataFrame? && DataOk(f, s.posts, s.routes) && Fresh(f, s.mem, s.routes, s.freed)
    && k.host == w.host && TracksAt(s, k, f.id)
    && Lands(k, f, s.inc[k].reqs[f.id.r].raddr + f.offset, s.posts, s.routes)
    && StatusOf(s.inc[k].reqs[f.id.r].chunks, f.i).Empty?
  }

  lemma FoundFacts(s: State, w: Worker)
    requires CanAcquire(s, w) && s.rx[w].f in s.net
    requires NetOk(s.net, s.posts, s.routes, s.written) && NetFresh(s.net, s.mem, s.routes, s.freed)
    requires PostsOk(s.posts) && UniqueIds(s.routes) && EchoesOk(s.inc, s.posts, s.routes, s.written)
    requires IncOk(s.inc, s.posts, s.routes, s.registered, s.delivered)
    requires RxOk(s.rx, s.posts, s.routes, s.inc, s.registered, s.written)
    ensures var f, k := s.rx[w].f, s.rx[w].place;
      && DataOk(f, s.posts, s.routes) && Fresh(f, s.mem, s.routes, s.freed)
      && k.host == w.host && TracksAt(s, k, f.id)
      && Lands(k, f, s.inc[k].reqs[f.id.r].raddr + f.offset, s.posts, s.routes)
      && s.rx[w].base == s.inc[k].reqs[f.id.r].raddr + f.offset
  {
    var f, k := s.rx[w].f, s.rx[w].place;
    Placed(s, w);
    FrameOk(s, f);
    PlacedHost(s, w);
    DataLookup(s, w, f, k);
  }

  lemma PlacedHost(s: State, w: Worker)
    requires w in s.rx && (s.rx[w].Located? || s.rx[w].Found?) && PlacedOk(w, s.rx[w], s.posts, s.routes)
    requires DataOk(s.rx[w].f, s.posts, s.routes)
    ensures w.host == s.rx[w].f.dst
  {
  }

  lemma AcquireKeeps(s: State, w: Worker)
    requires Inv(s) && CanAcquire(s, w) && s.rx[w].f in s.net
    ensures Inv(DoAcquire(s, w))
  {
    var f, k := s.rx[w].f, s.rx[w].place;
    AcquireOutcome(s, w);
    match StatusOf(s.inc[k].reqs[f.id.r].chunks, f.i) {
      case Empty => StartWriting(s, w, f, k);
      case Done => AckDone(s, w, f);
      case Busy => MoveWorker(s, w, Idle);
    }
  }

  /** A found chunk is written, acknowledged again or dropped. */
  lemma AcquireOutcome(s: State, w: Worker)
    requires CanAcquire(s, w) && s.rx[w].f in s.net
    requires NetOk(s.net, s.posts, s.routes, s.written) && NetFresh(s.net, s.mem, s.routes, s.freed)
    requires PostsOk(s.posts) && UniqueIds(s.routes) && EchoesOk(s.inc, s.posts, s.routes, s.written)
    requires IncOk(s.inc, s.posts, s.routes, s.registered, s.delivered)
    requires RxOk(s.rx, s.posts, s.routes, s.inc, s.registered, s.written) && s.delivered <= s.written
    ensures var f, k := s.rx[w].f, s.rx[w].place;
      match StatusOf(s.inc[k].reqs[f.id.r].chunks, f.i)
      case Empty => MayWrite(s, w, f, k) && DoAcquire(s, w) == WriteStarted(s, w, f, k)
      case Done => DataOk(f, s.posts, s.routes) && ChunkId(f.id, f.i) in s.written
        && DoAcquire(s, w) == s.(rx := s.rx[w := Acking(AckOf(f))])
      case Busy => DoAcquire(s, w) == s.(rx := s.rx[w := Idle])
  {
    FoundFacts(s, w);
    AcquireIs(s, w);
    DoneIsWritten(s, s.rx[w].place, s.rx[w].f.id, s.rx[w].f.i);
  }

  lemma DoneIsWritten(s: State, k: Place, x: Id, i: nat)
    requires TracksAt(s, k, x) && s.delivered <= s.written
    ensures i in s.inc[k].reqs[x.r].chunks.done ==> ChunkId(x, i) in s.written
  {
  }

  lemma AcquireIs(s: State, w: Worker)
    requires CanAcquire(s, w)
    requires s.rx[w].base == s.inc[s.rx[w].place].reqs[s.rx[w].f.id.r].raddr + s.rx[w].f.offset
    ensures var f, k := s.rx[w].f, s.rx[w].place;
      match StatusOf(s.inc[k].reqs[f.id.r].chunks, f.i)
      case Empty => DoAcquire(s, w) == WriteStarted(s, w, f, k)
      case Done => DoAcquire(s, w) == s.(rx := s.rx[w := Acking(AckOf(f))])
      case Busy => DoAcquire(s, w) == s.(rx := s.rx[w := Idle])
  {
  }

  lemma AckDone(s: State, w: Worker, f: Frame)
    requires Inv(s) && f.DataFrame? && DataOk(f, s.posts, s.routes) && ChunkId(f.id, f.i) in s.written
    ensures Inv(s.(rx := s.rx[w := Acking(AckOf(f))]))
  {
    MoveWorker(s, w, Acking(AckOf(f)));
  }

  // --- Changing the chunks of one request -------------------------------------------------

  /** `c` is a new value for the chunks of request `r` at `k`, in step with the new sets of chunks. */
  ghost predicate InStep(s: State, delivered: set<ChunkId>, written: set<ChunkId>, k: Place, r: ReqId, c: Chunks) {
    && k in s.inc && r in s.inc[k].reqs && TracksAt(s, k, Id(IncPost(k), r))
    && ValidChunks(c) && c.total == s.inc[k].reqs[r].chunks.total && s.written <= written
    && (ReceivesAt(s.posts, k, IncPost(k)) ==>
          && (forall i: nat :: i in c.done <==> ChunkId(Id(IncPost(k), r), i) in delivered)
          && (forall d: ChunkId :: d.id != Id(IncPost(k), r) ==> (d in delivered <==> d in s.delivered)))
    && (!ReceivesAt(s.posts, k, IncPost(k)) ==>
          delivered == s.delivered && forall i <- c.done :: ChunkId(Id(IncPost(k), r), i) in written)
  }

  lemma SetChunks(s: State, delivered: set<ChunkId>, written: set<ChunkId>, k: Place, r: ReqId, c: Chunks)
    requires IncOk(s.inc, s.posts, s.routes, s.registered, s.delivered) && InStep(s, delivered, written, k, r, c)
    ensures IncOk(WithChunks(s.inc, k, r, c), s.posts, s.routes, s.registered, delivered)
  {
    var inc' := WithChunks(s.inc, k, r, c);
    forall q | q in inc' ensures IncEntryOk(q, inc'[q], s.posts, s.routes, s.registered, delivered) {
      if q == k {
        SetChunksHere(s, delivered, written, k, r, c);
      } else {
        SetChunksElsewhere(s, delivered, written, k, r, c, q);
      }
    }
  }

  lemma SetChunksHere(s: State, delivered: set<ChunkId>, written: set<ChunkId>, k: Place, r: ReqId, c: Chunks)
    requires IncOk(s.inc, s.posts, s.routes, s.registered, s.delivered) && InStep(s, delivered, written, k, r, c)
    ensures IncEntryOk(k, WithChunks(s.inc, k, r, c)[k], s.posts, s.routes, s.registered, delivered)
  {
    var h := IncPost(k);
    var reqs, reqs' := s.inc[k].reqs, WithChunks(s.inc, k, r, c)[k].reqs;
    assert IncEntryOk(k, s.inc[k], s.posts, s.routes, s.registered, s.delivered);
    assert reqs'.Keys == reqs.Keys && reqs' != map[];
    forall p | p in reqs' && ReceivesAt(s.posts, k, h) ensures Receives(reqs'[p], Id(h, p), s.routes, delivered) {
      SetChunksReceives(s, delivered, written, k, r, c, p);
    }
  }

  lemma SetChunksReceives(s: State, delivered: set<ChunkId>, written: set<ChunkId>, k: Place, r: ReqId, c: Chunks,
                          p: ReqId)
    requires InStep(s, delivered, written, k, r, c) && p in s.inc[k].reqs && ReceivesAt(s.posts, k, IncPost(k))
    requires Receives(s.inc[k].reqs[p], Id(IncPost(k), p), s.routes, s.delivered)
    ensures Receives(WithChunks(s.inc, k, r, c)[k].reqs[p], Id(IncPost(k), p), s.routes, delivered)
  {
  }

  lemma SetChunksElsewhere(s: State, delivered: set<ChunkId>, written: set<ChunkId>, k: Place, r: ReqId, c: Chunks,
                           q: Place)
    requires IncOk(s.inc, s.posts, s.routes, s.registered, s.delivered) && InStep(s, delivered, written, k, r, c)
    requires q in s.inc && q != k
    ensures IncEntryOk(q, s.inc[q], s.posts, s.routes, s.registered, delivered)
  {
    var h := IncPost(q);
    assert IncEntryOk(q, s.inc[q], s.posts, s.routes, s.registered, s.delivered);
    forall p | q == RecvPlace(s.posts[h], h) && p in s.inc[q].reqs
      ensures Receives(s.inc[q].reqs[p], Id(h, p), s.routes, delivered)
    {
      assert Receives(s.inc[q].reqs[p], Id(h, p), s.routes, s.delivered);
    }
  }

  lemma SetChunksEchoes(s: State, delivered: set<ChunkId>, written: set<ChunkId>, k: Place, r: ReqId, c: Chunks)
    requires EchoesOk(s.inc, s.posts, s.routes, s.written) && InStep(s, delivered, written, k, r, c) && PostsOk(s.posts)
    ensures EchoesOk(WithChunks(s.inc, k, r, c), s.posts, s.routes, written)
  {
    var inc' := WithChunks(s.inc, k, r, c);
    forall q, p | q in inc' && ServesRead(s.posts, q) && p in inc'[q].reqs
      ensures Echoes(inc'[q].reqs[p], Id(IncPost(q), p), s.routes, written)
    {
      assert Echoes(s.inc[q].reqs[p], Id(IncPost(q), p), s.routes, s.written);
      if q == k {
        RecvPlaceIs(s.posts, IncPost(k));
      }
    }
  }

  lemma SetChunksPending(s: State, k: Place, r: ReqId, c: Chunks)
    requires PendingOk(s.inc, s.posts, s.counted) && PopulatedOk(s.inc, s.posts, s.routes)
    requires k in s.inc && r in s.inc[k].reqs
    ensures PendingOk(WithChunks(s.inc, k, r, c), s.posts, s.counted)
    ensures PopulatedOk(WithChunks(s.inc, k, r, c), s.posts, s.routes)
  {
    var reqs, reqs' := s.inc[k].reqs, WithChunks(s.inc, k, r, c)[k].reqs;
    assert reqs'.Keys == reqs.Keys;
    assert |reqs'| == |reqs'.Keys| == |reqs.Keys| == |reqs|;
  }

  lemma AcquireInStep(s: State, w: Worker, f: Frame, k: Place)
    requires MayWrite(s, w, f, k)
    ensures InStep(s, s.delivered, s.written, k, f.id.r, Acquire(s.inc[k].reqs[f.id.r].chunks, f.i))
  {
    assert Id(IncPost(k), f.id.r) == f.id;
    if ReceivesAt(s.posts, k, f.id.h) {
      assert Receives(s.inc[k].reqs[f.id.r], f.id, s.routes, s.delivered);
    }
  }

  lemma AcquireKeepsWriters(s: State, w: Worker, f: Frame, k: Place)
    requires MayWrite(s, w, f, k) && RxOk(s.rx, s.posts, s.routes, s.inc, s.registered, s.written)
    requires RxStored(s.rx, s.mem, s.routes, s.freed) && OneWriter(s.rx)
    ensures var s' := WriteStarted(s, w, f, k);
      && RxOk(s'.rx, s.posts, s.routes, s'.inc, s.registered, s.written)
      && RxStored(s'.rx, s.mem, s.routes, s.freed)
      && OneWriter(s'.rx)
  {
    var s' := WriteStarted(s, w, f, k);
    SameWriters(s, s'.inc);
    NewWriter(s.(inc := s'.inc), w, s'.rx[w]);
    NewWriterIsOnly(s, w, s'.rx[w]);
  }

  lemma StartWriting(s: State, w: Worker, f: Frame, k: Place)
    requires Inv(s) && MayWrite(s, w, f, k)
    ensures Inv(WriteStarted(s, w, f, k))
  {
    var c := Acquire(s.inc[k].reqs[f.id.r].chunks, f.i);
    AcquireInStep(s, w, f, k);
    SetChunks(s, s.delivered, s.written, k, f.id.r, c);
    SetChunksEchoes(s, s.delivered, s.written, k, f.id.r, c);
    SetChunksPending(s, k, f.id.r, c);
    AcquireKeepsWriters(s, w, f, k);
    SetTokenless(s, w, WriteStarted(s, w, f, k).rx[w]);
  }

  lemma NewWriter(s: State, w: Worker, t: Rx)
    requires RxOk(s.rx, s.posts, s.routes, s.inc, s.registered, s.written) && RxStored(s.rx, s.mem, s.routes, s.freed)
    requires t.Writing? && WriterOk(w, t, s.posts, s.routes, s.inc) && Stored(t, s.mem, s.routes, s.freed)
    ensures RxOk(s.rx[w := t], s.posts, s.routes, s.inc, s.registered, s.written)
    ensures RxStored(s.rx[w := t], s.mem, s.routes, s.freed)
  {
  }

  /** Nobody else is writing a chunk that was EMPTY. */
  lemma NewWriterIsOnly(s: State, w: Worker, t: Rx)
    requires RxOk(s.rx, s.posts, s.routes, s.inc, s.registered, s.written) && OneWriter(s.rx)
    requires t.Writing? && t.f.DataFrame? && t.place in s.inc && t.f.id.r in s.inc[t.place].reqs
    requires t.f.i !in s.inc[t.place].reqs[t.f.id.r].chunks.busy
    ensures OneWriter(s.rx[w := t])
  {
    var rx' := s.rx[w := t];
    forall v | v in s.rx && v != w ensures !WritesChunk(s.rx[v], t.place, ChunkId(t.f.id, t.f.i)) {
      assert RxEntryOk(v, s.rx[v], s.posts, s.routes, s.inc, s.registered, s.written);
    }
    forall u, v, k, c | u in rx' && v in rx' && WritesChunk(rx'[u], k, c) && WritesChunk(rx'[v], k, c) ensures u == v {
      if u != w && v != w {
        assert WritesChunk(s.rx[u], k, c) && WritesChunk(s.rx[v], k, c);
      }
    }
  }
}
