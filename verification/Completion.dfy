/**
  * Who is told what, and how often: the second half of the invariant, post by
  * post, and its preservation by every step.
  */
module Completion {
  import opened Options
  import opened Trackers
  import opened Layout
  import opened Protocol
  import opened Invariant
  import opened Safety
  import opened Counting
  import opened Delivery

  // --- The clauses --------------------------------------------------------------------

  ghost predicate AllHere(h: PostId, routes: map<Id, Route>, delivered: set<ChunkId>) {
    forall x <- routes :: x.h == h ==> AllDelivered(x, routes, delivered)
  }

  /** The outgoing entry acknowledgements of `h` are counted in is there, and is not another post's. */
  predicate Mine(s: State, h: PostId)
    requires h in s.posts
  {
    var k := SendPlace(s.posts[h], h);
    k in s.out && OutPost(k, s.out[k]) == h
  }

  /** The initiator has an entry for its post. */
  predicate AtHome(s: State, h: PostId)
    requires h in s.posts
  {
    if s.posts[h].op.Write? then Mine(s, h) else HomePlace(s.posts[h], h) in s.inc
  }

  /** The initiator's entry goes when success is reported; until its requests are processed it is empty. */
  ghost predicate HomeOk(s: State, h: PostId)
    requires h in s.posts
  {
    && (AtHome(s, h) <==> h !in s.reported)
    && (s.posts[h].op.Read? && AtHome(s, h) && !HasRequests(h, s.routes) ==>
          s.inc[HomePlace(s.posts[h], h)].reqs == map[])
  }

  /**
    * The stages of a served read: claimed by a worker, queued with an empty outgoing
    * entry, sent with its requests in the entry, acknowledged with the entry gone.
    */
  predicate StagesOk(s: State, h: PostId)
    requires h in s.posts
  {
    var p := s.posts[h];
    var k := SendPlace(p, h);
    && (h in s.queued ==> p.op.Read? && h in s.registered && Mine(s, h) && s.out[k].reqs == map[])
    && (h in s.sending ==> (p.op.Read? ==> h in s.registered) && (Mine(s, h) ==> s.out[k].reqs != map[]))
    && (p.op.Read? && Mine(s, h) ==>
          h in s.registered && (h in s.queued || h in s.sending) && (Proper(p) ==> s.postCalls[h] == 0))
  }

  /**
    * The responder is asked to serve a read by exactly one of the copies of its
    * PostInfo; the receiver's post callback has run iff its count has reached zero,
    * and only a read from oneself takes the count further; on_complete has run at
    * most once.
    */
  ghost predicate CallsOk(s: State, h: PostId)
    requires h in s.posts
  {
    var p := s.posts[h];
    && s.served[h] == (if h in s.registered && p.op.Read? then 1 else 0)
    && (h !in s.registered ==> s.postCalls[h] == 0)
    && (h in s.registered && TargetPlace(p, h) in s.inc ==>
          var n := s.inc[TargetPlace(p, h)].pending;
          (Proper(p) ==> n >= 0) && (p.op.Read? ==> n <= 1) && s.postCalls[h] == if n <= 0 then 1 else 0)
    && (s.doneCalls[h] > 0 ==> s.doneCalls[h] == 1 && h in s.reported)
  }

  /** Who has been told, and who is being sent to, has requests that are all there. */
  ghost predicate HereOk(s: State, h: PostId)
    requires h in s.posts
  {
    && (s.postCalls[h] > 0 && Proper(s.posts[h]) ==> AllHere(h, s.routes, s.delivered))
    && (h in s.sending ==> HasRequests(h, s.routes))
  }

  predicate IsResponding(t: Rx, h: PostId) { t.Responding? && IncPost(t.place) == h }

  predicate OwesServed(t: Rx, h: PostId) { t.Completing? && t.why == Served(h) }

  ghost predicate RespondersOk(s: State, h: PostId)
    requires h in s.posts
  {
    && (forall w <- s.rx :: IsResponding(s.rx[w], h) ==>
          && s.posts[h].op.Read? && h in s.registered && h !in s.queued && h !in s.sending && !Mine(s, h)
          && (Proper(s.posts[h]) ==> s.postCalls[h] == 0))
    && (forall v, w :: v in s.rx && w in s.rx && IsResponding(s.rx[v], h) && IsResponding(s.rx[w], h) ==> v == w)
  }

  ghost predicate ServersOk(s: State, h: PostId)
    requires h in s.posts
  {
    && (forall w <- s.rx :: OwesServed(s.rx[w], h) ==>
          && h in s.registered && h in s.sending && !Mine(s, h)
          && (Proper(s.posts[h]) ==> s.postCalls[h] == 0 && AllHere(h, s.routes, s.delivered)))
    && (forall v, w :: v in s.rx && w in s.rx && OwesServed(s.rx[v], h) && OwesServed(s.rx[w], h) ==> v == w)
  }

  /** Nothing is known of a post nobody has made. */
  ghost predicate Unknown(s: State, h: PostId) {
    && h !in s.registered && h !in s.queued && h !in s.sending && h !in s.reported
    && s.served[h] == 0 && s.postCalls[h] == 0 && s.doneCalls[h] == 0
    && forall w <- s.rx :: !IsResponding(s.rx[w], h) && !OwesServed(s.rx[w], h)
  }

  ghost predicate PostTold(s: State, h: PostId) {
    if h in s.posts then
      HomeOk(s, h) && StagesOk(s, h) && CallsOk(s, h) && HereOk(s, h) && RespondersOk(s, h) && ServersOk(s, h)
    else Unknown(s, h)
  }

  /** Data exists only for posts handed to the send workers. */
  ghost predicate DataSent(net: set<Frame>, rx: map<Worker, Rx>, written: set<ChunkId>, sending: set<PostId>) {
    && (forall f <- net :: f.DataFrame? ==> f.id.h in sending)
    && (forall w <- rx :: rx[w].Writing? && rx[w].f.DataFrame? ==> rx[w].f.id.h in sending)
    && (forall w <- rx :: rx[w].Located? || rx[w].Found? ==> rx[w].f in net)
    && (forall c <- written :: c.id.h in sending)
  }

  /** The route moves the bytes the application asked for. */
  predicate Serves(route: Route, q: Request, p: Post) {
    var near := if p.op.Write? then route.src else route.dst;
    var far := if p.op.Write? then route.dst else route.src;
    && Len(route) == q.len
    && near == Some(Loc(p.initiator, q.laddr))
    && (far.Some? ==> far.value.host == p.target && (q.raddr != 0 ==> far.value.addr == q.raddr))
  }

  ghost predicate AskedOk(asked: map<Id, Request>, posts: map<PostId, Post>, routes: map<Id, Route>) {
    && asked.Keys == routes.Keys
    && forall x <- asked :: x.h in posts && Serves(routes[x], asked[x], posts[x.h])
  }

  ghost predicate InfosAsk(net: set<Frame>, asked: map<Id, Request>) {
    forall f <- net :: f.InfoFrame? ==>
      forall r <- f.infos :: Id(f.h, r) in asked && f.infos[r].raddr == asked[Id(f.h, r)].raddr
  }

  ghost predicate EveryPostTold(s: State) { forall h: PostId :: PostTold(s, h) }

  ghost predicate Told(s: State) {
    && EveryPostTold(s)
    && DataSent(s.net, s.rx, s.written, s.sending.Keys)
    && AskedOk(s.asked, s.posts, s.routes)
    && InfosAsk(s.net, s.asked)
  }

  // --- A step concerns one post -----------------------------------------------------------

  ghost predicate SameRequests(a: map<Id, Route>, b: map<Id, Route>, h: PostId) {
    forall x: Id :: x.h == h ==> (x in a <==> x in b) && (x in a ==> a[x].cuts == b[x].cuts)
  }

  /** Equal up to the state of individual chunks. */
  predicate SameEntry(a: PostTracker, b: PostTracker) {
    a.pending == b.pending && (a.reqs == map[] <==> b.reqs == map[])
  }

  ghost predicate SameInc(a: Table, b: Table, h: PostId) {
    forall k: Place :: IncPost(k) == h ==> (k in a <==> k in b) && (k in a ==> SameEntry(a[k], b[k]))
  }

  /** The outgoing entry at `k` is there and is `h`'s. */
  predicate Owns(t: Table, k: Place, h: PostId) { k in t && OutPost(k, t[k]) == h }

  ghost predicate SameOut(a: Table, b: Table, h: PostId) {
    forall k: Place :: (Owns(a, k, h) <==> Owns(b, k, h)) && (Owns(a, k, h) ==> SameEntry(a[k], b[k]))
  }

  ghost predicate SameWork(a: map<Worker, Rx>, b: map<Worker, Rx>, h: PostId) {
    forall w: Worker ::
      && ((w in a && IsResponding(a[w], h)) <==> (w in b && IsResponding(b[w], h)))
      && ((w in a && OwesServed(a[w], h)) <==> (w in b && OwesServed(b[w], h)))
  }

  /** Nothing PostTold says of `h` has changed, except that more may be delivered. */
  ghost predicate Agree(s: State, s': State, h: PostId) {
    && (h in s.posts <==> h in s'.posts) && (h in s.posts ==> s.posts[h] == s'.posts[h])
    && SameRequests(s.routes, s'.routes, h) && s.delivered <= s'.delivered
    && SameOut(s.out, s'.out, h) && SameInc(s.inc, s'.inc, h) && SameWork(s.rx, s'.rx, h)
    && (h in s.registered <==> h in s'.registered) && (h in s.queued <==> h in s'.queued)
    && (h in s.sending <==> h in s'.sending) && (h in s.reported <==> h in s'.reported)
    && s.served[h] == s'.served[h] && s.postCalls[h] == s'.postCalls[h] && s.doneCalls[h] == s'.doneCalls[h]
  }

  lemma AgreeHere(s: State, s': State, h: PostId)
    requires SameRequests(s.routes, s'.routes, h) && s.delivered <= s'.delivered
    ensures AllHere(h, s.routes, s.delivered) ==> AllHere(h, s'.routes, s'.delivered)
    ensures HasRequests(h, s.routes) <==> HasRequests(h, s'.routes)
  {
    if HasRequests(h, s.routes) {
      var x :| x in s.routes && x.h == h;
      assert x in s'.routes;
    }
    if HasRequests(h, s'.routes) {
      var x :| x in s'.routes && x.h == h;
      assert x in s.routes;
    }
    if AllHere(h, s.routes, s.delivered) {
      forall x | x in s'.routes && x.h == h ensures AllDelivered(x, s'.routes, s'.delivered) {
        assert x in s.routes && AllDelivered(x, s.routes, s.delivered);
      }
    }
  }

  lemma AgreeEntries(s: State, s': State, h: PostId)
    requires Agree(s, s', h) && PostsOk(s.posts) && h in s.posts
    ensures Mine(s, h) <==> Mine(s', h)
    ensures var k := SendPlace(s.posts[h], h); Mine(s, h) ==> SameEntry(s.out[k], s'.out[k])
    ensures var k := HomePlace(s.posts[h], h);
      (k in s.inc <==> k in s'.inc) && (k in s.inc ==> SameEntry(s.inc[k], s'.inc[k]))
    ensures var k := TargetPlace(s.posts[h], h);
      (k in s.inc <==> k in s'.inc) && (k in s.inc ==> SameEntry(s.inc[k], s'.inc[k]))
  {
    var k := SendPlace(s.posts[h], h);
    assert Owns(s.out, k, h) <==> Owns(s'.out, k, h);
    RecvPlaceIs(s.posts, h);
  }

  lemma AgreeStages(s: State, s': State, h: PostId)
    requires h in s.posts && HomeOk(s, h) && StagesOk(s, h) && CallsOk(s, h) && Agree(s, s', h) && PostsOk(s.posts)
    ensures HomeOk(s', h) && StagesOk(s', h) && CallsOk(s', h)
  {
    AgreeHere(s, s', h);
    AgreeEntries(s, s', h);
  }

  lemma AgreeTold(s: State, s': State, h: PostId)
    requires PostTold(s, h) && Agree(s, s', h) && PostsOk(s.posts)
    ensures PostTold(s', h)
  {
    if h in s.posts {
      AgreeStages(s, s', h);
      AgreeHere(s, s', h);
      AgreeEntries(s, s', h);
    }
  }

  /** The rule for a step that concerns only `h`. */
  lemma OnePost(s: State, s': State, h: PostId)
    requires EveryPostTold(s) && PostsOk(s.posts)
    requires forall g: PostId :: g != h ==> Agree(s, s', g)
    requires PostTold(s', h)
    ensures EveryPostTold(s')
  {
    forall g: PostId ensures PostTold(s', g) {
      if g != h {
        AgreeTold(s, s', g);
      }
    }
  }

  /** The rule for a step that concerns no post in particular. */
  lemma NoPost(s: State, s': State)
    requires EveryPostTold(s) && PostsOk(s.posts)
    requires forall g: PostId :: Agree(s, s', g)
    ensures EveryPostTold(s')
  {
    forall g: PostId ensures PostTold(s', g) {
      AgreeTold(s, s', g);
    }
  }

  lemma SetChunksSame(t: Table, k: Place, r: ReqId, c: Chunks)
    requires k in t && r in t[k].reqs
    ensures forall h: PostId :: SameInc(t, WithChunks(t, k, r, c), h) && SameOut(t, WithChunks(t, k, r, c), h)
  {
    var t' := WithChunks(t, k, r, c);
    assert r in t'[k].reqs;
    assert forall q: Place ::
      (q in t <==> q in t') && (q in t ==> SameEntry(t[q], t'[q]) && t'[q].onDone == t[q].onDone);
  }

  /** The worker is in no stage of serving a read. */
  predicate Neutral(t: Rx) { !t.Responding? && (t.Completing? ==> !t.why.Served?) }

  lemma MoveSame(rx: map<Worker, Rx>, rx': map<Worker, Rx>, w: Worker, t: Rx)
    requires rx' == rx[w := t] && Neutral(t)
    requires w in rx ==> Neutral(rx[w])
    ensures forall h: PostId :: SameWork(rx, rx', h)
  {
  }

  /** Setting or removing the incoming entry `k` leaves those of other posts alone. */
  lemma OtherInc(t: Table, t': Table, k: Place, g: PostId)
    requires g != IncPost(k)
    requires forall q: Place :: q != k ==> (q in t <==> q in t') && (q in t ==> t[q] == t'[q])
    ensures SameInc(t, t', g)
  {
  }

  /** The same for an outgoing entry. */
  lemma OtherOut(t: Table, t': Table, k: Place, g: PostId)
    requires !Owns(t, k, g) && !Owns(t', k, g)
    requires forall q: Place :: q != k ==> (q in t <==> q in t') && (q in t ==> t[q] == t'[q])
    ensures SameOut(t, t', g)
  {
  }

  // --- Steps that concern no post ---------------------------------------------------------

  lemma WriteStartedTold(s: State, w: Worker, f: Frame, k: Place)
    requires Told(s) && w in s.rx && Neutral(s.rx[w]) && PostsOk(s.posts)
    requires f in s.net && f.DataFrame? && k in s.inc && f.id.r in s.inc[k].reqs
    ensures Told(WriteStarted(s, w, f, k))
  {
    var s' := WriteStarted(s, w, f, k);
    SetChunksSame(s.inc, k, f.id.r, Acquire(s.inc[k].reqs[f.id.r].chunks, f.i));
    MoveSame(s.rx, s'.rx, w, s'.rx[w]);
    NoPost(s, s');
  }

  /** A worker moves between states that concern no post. */
  lemma MoveTold(s: State, w: Worker, t: Rx)
    requires Told(s) && (w in s.rx ==> Neutral(s.rx[w])) && Neutral(t) && !t.Writing? && PostsOk(s.posts)
    requires t.Located? || t.Found? ==> t.f in s.net
    ensures Told(s.(rx := s.rx[w := t]))
  {
    var s' := s.(rx := s.rx[w := t]);
    MoveSame(s.rx, s'.rx, w, t);
    NoPost(s, s');
  }

  lemma RecvDataTold(s: State, w: Worker, f: Frame, peer: Host)
    requires Told(s) && CanRecvData(s, w, f) && PostsOk(s.posts)
    ensures Told(DoRecvData(s, w, f, peer))
  {
    var k := Place(w.host, Key(peer, f.id.h.handle));
    MoveTold(s, w, Located(k, f, ChunkAddr(s.inc, k, f.id.r, f.offset)));
  }

  lemma FindTold(s: State, w: Worker)
    requires Told(s) && CanFind(s, w) && PostsOk(s.posts)
    ensures Told(DoFind(s, w))
  {
    MoveTold(s, w, Found(s.rx[w].place, s.rx[w].f, s.rx[w].base));
  }

  lemma AcquireTold(s: State, w: Worker)
    requires Inv(s) && Told(s) && CanAcquire(s, w)
    ensures Told(DoAcquire(s, w))
  {
    var f, k := s.rx[w].f, s.rx[w].place;
    AcquireOutcome(s, w);
    match StatusOf(s.inc[k].reqs[f.id.r].chunks, f.i) {
      case Empty => WriteStartedTold(s, w, f, k);
      case Done => MoveTold(s, w, Acking(AckOf(f)));
      case Busy => MoveTold(s, w, Idle);
    }
  }

  lemma StoreByteTold(s: State, w: Worker)
    requires Told(s) && CanStore(s, w) && PostsOk(s.posts)
    ensures Told(DoStoreByte(s, w))
  {
    var s' := DoStoreByte(s, w);
    MoveSame(s.rx, s'.rx, w, s'.rx[w]);
    NoPost(s, s');
  }

  lemma ReleaseTold(s: State, w: Worker, success: bool)
    requires Told(s) && CanRelease(s, w, success) && PostsOk(s.posts)
    ensures Told(DoRelease(s, w, success))
  {
    var t := s.rx[w];
    var s' := DoRelease(s, w, success);
    SetChunksSame(s.inc, t.place, t.f.id.r, Release(s.inc[t.place].reqs[t.f.id.r].chunks, t.f.i, success));
    MoveSame(s.rx, s'.rx, w, s'.rx[w]);
    NoPost(s, s');
  }

  lemma AckIsAck(s: State, w: Worker)
    requires CanSendAck(s, w) && RxOk(s.rx, s.posts, s.routes, s.inc, s.registered, s.written)
    ensures s.rx[w].frame.AckFrame?
  {
    assert RxEntryOk(w, s.rx[w], s.posts, s.routes, s.inc, s.registered, s.written);
  }

  lemma SendAckTold(s: State, w: Worker, ok: bool)
    requires Told(s) && CanSendAck(s, w) && s.rx[w].frame.AckFrame? && PostsOk(s.posts)
    ensures Told(DoSendAck(s, w, ok))
  {
    var s' := DoSendAck(s, w, ok);
    MoveSame(s.rx, s'.rx, w, Idle);
    NoPost(s, s');
  }

  lemma SendChunkTold(s: State, id: Id, i: nat)
    requires Told(s) && CanSendChunk(s, id, i) && PostsOk(s.posts)
    ensures Told(s.(net := s.net + {ChunkFrame(s.mem, s.sending[id.h], id, i)}))
  {
    NoPost(s, s.(net := s.net + {ChunkFrame(s.mem, s.sending[id.h], id, i)}));
  }

  lemma AppStoreTold(s: State, l: Loc, v: Byte)
    requires Told(s) && PostsOk(s.posts)
    ensures Told(s.(mem := s.mem[l := v]))
  {
    NoPost(s, s.(mem := s.mem[l := v]));
  }

  // --- Posting --------------------------------------------------------------------------------

  /** No entry and no request of a post nobody has made. */
  ghost predicate NoTrace(s: State, h: PostId) {
    && (forall k :: !Owns(s.out, k, h)) && (forall k <- s.inc :: IncPost(k) != h)
    && !HasRequests(h, s.routes)
  }

  lemma NoTraceOf(s: State, h: PostId)
    requires h !in s.posts && OutOk(s.out, s.posts, s.routes, s.written)
    requires IncOk(s.inc, s.posts, s.routes, s.registered, s.delivered) && RoutesOk(s.routes, s.posts, s.registered)
    ensures NoTrace(s, h)
  {
    forall k | k in s.out ensures !Owns(s.out, k, h) {
      assert OutEntryOk(k, s.out[k], s.posts, s.routes, s.written);
    }
    forall k | k in s.inc ensures IncPost(k) != h {
      assert IncEntryOk(k, s.inc[k], s.posts, s.routes, s.registered, s.delivered);
    }
  }

  /** The entry Enqueue adds. */
  function NewEntry(onDone: OnDone): PostTracker { PostTracker(map[], 0, [], onDone, true) }

  function Enqueued(s: State, h: PostId, p: Post, onDone: OnDone): State {
    s.(posts := s.posts[h := p],
       out := if p.op.Write? then s.out[HomePlace(p, h) := NewEntry(onDone)] else s.out,
       inc := if p.op.Write? then s.inc else s.inc[HomePlace(p, h) := NewEntry(onDone)])
  }

  lemma EnqueueIs(s: State, h: PostId, p: Post, callback: bool)
    ensures DoEnqueue(s, h, p, callback) ==
      if HomePlace(p, h) in (if p.op.Write? then s.out else s.inc) then s
      else Enqueued(s, h, p, if callback then Notify else Silent)
  {
  }

  /** A post that has just been made: only its entry is known. */
  ghost predicate JustMade(s: State, h: PostId) {
    && h in s.posts && Unknown(s, h) && AtHome(s, h)
    && (s.posts[h].op.Read? ==> !Mine(s, h) && s.inc[HomePlace(s.posts[h], h)].reqs == map[])
  }

  lemma FreshTold(s: State, h: PostId)
    requires JustMade(s, h)
    ensures PostTold(s, h)
  {
  }

  lemma UnknownStays(s: State, h: PostId, p: Post, onDone: OnDone)
    requires Unknown(s, h)
    ensures Unknown(Enqueued(s, h, p, onDone), h)
  {
  }

  lemma EnqueueOwn(s: State, h: PostId, p: Post, onDone: OnDone)
    requires CanEnqueue(s, h, p) && Unknown(s, h) && !Owns(s.out, SendPlace(p, h), h) && !onDone.Relay?
    ensures JustMade(Enqueued(s, h, p, onDone), h)
  {
    UnknownStays(s, h, p, onDone);
    var s' := Enqueued(s, h, p, onDone);
    assert AtHome(s', h);
  }

  lemma EnqueueOthers(s: State, h: PostId, p: Post, onDone: OnDone, g: PostId)
    requires g != h && CanEnqueue(s, h, p) && !onDone.Relay?
    requires HomePlace(p, h) !in (if p.op.Write? then s.out else s.inc)
    ensures Agree(s, Enqueued(s, h, p, onDone), g)
  {
    var k := HomePlace(p, h);
    if p.op.Write? {
      OtherOut(s.out, s.out[k := NewEntry(onDone)], k, g);
    } else {
      OtherInc(s.inc, s.inc[k := NewEntry(onDone)], k, g);
    }
  }

  lemma EnqueuePosts(s: State, h: PostId, p: Post, onDone: OnDone)
    requires EveryPostTold(s) && CanEnqueue(s, h, p) && NoTrace(s, h) && PostsOk(s.posts) && !onDone.Relay?
    requires HomePlace(p, h) !in (if p.op.Write? then s.out else s.inc)
    ensures EveryPostTold(Enqueued(s, h, p, onDone))
  {
    assert PostTold(s, h) && !Owns(s.out, SendPlace(p, h), h);
    EnqueueOwn(s, h, p, onDone);
    FreshTold(Enqueued(s, h, p, onDone), h);
    forall g: PostId | g != h ensures Agree(s, Enqueued(s, h, p, onDone), g) {
      EnqueueOthers(s, h, p, onDone, g);
    }
    OnePost(s, Enqueued(s, h, p, onDone), h);
  }

  lemma EnqueueTold(s: State, h: PostId, p: Post, callback: bool)
    requires Inv(s) && Told(s) && CanEnqueue(s, h, p)
    ensures Told(DoEnqueue(s, h, p, callback))
  {
    EnqueueIs(s, h, p, callback);
    NoTraceOf(s, h);
    if HomePlace(p, h) !in (if p.op.Write? then s.out else s.inc) {
      EnqueuePosts(s, h, p, if callback then Notify else Silent);
      EnqueueAsked(s, h, p);
    }
  }

  lemma EnqueueAsked(s: State, h: PostId, p: Post)
    requires AskedOk(s.asked, s.posts, s.routes) && h !in s.posts
    ensures AskedOk(s.asked, s.posts[h := p], s.routes)
  {
  }

  // --- Processing a post ------------------------------------------------------------------------

  /** A post without requests is in no later stage. */
  lemma NotStarted(s: State, h: PostId)
    requires h in s.posts && PostTold(s, h) && !HasRequests(h, s.routes) && h !in s.registered
    ensures h !in s.queued && h !in s.sending && s.served[h] == 0 && s.postCalls[h] == 0
    ensures s.posts[h].op.Read? ==> !Mine(s, h)
    ensures forall w <- s.rx :: !IsResponding(s.rx[w], h) && !OwesServed(s.rx[w], h)
  {
  }

  /** The initiator's entry is there, waiting for its requests. */
  predicate Waiting(s: State, h: PostId)
    requires h in s.posts
  {
    var k := HomePlace(s.posts[h], h);
    && AtHome(s, h) && h !in s.registered && h !in s.reported
    && if s.posts[h].op.Write? then s.out[k].initiator else s.inc[k].initiator && s.inc[k].reqs == map[]
  }

  lemma AddFills(t: Table, k: Place, op: Op, reqs: map<ReqId, Request>)
    requires k in t && t[k].initiator && reqs != map[]
    ensures Filled(t, AddReqs(t, k, LocalInfos(op, reqs), |reqs|, op, [], map[]), k)
  {
    var r :| r in reqs;
    assert r in NewReqs(LocalInfos(op, reqs), map[]);
  }

  /** The initiator's entry of `h` has its requests, and no other entry has changed. */
  ghost predicate Filled(t: Table, t': Table, k: Place) {
    && k in t && k in t' && t'[k].reqs != map[] && t'[k].onDone == t[k].onDone
    && forall q: Place :: q != k ==> (q in t <==> q in t') && (q in t ==> t[q] == t'[q])
  }

  ghost predicate FillsHome(s: State, s': State, h: PostId)
    requires h in s.posts
  {
    var k := HomePlace(s.posts[h], h);
    if s.posts[h].op.Write?
    then Filled(s.out, s'.out, k) && s'.inc == s.inc && s'.sending.Keys == s.sending.Keys + {h}
    else Filled(s.inc, s'.inc, k) && s'.out == s.out && s'.sending == s.sending
  }

  ghost predicate Processed(s: State, s': State, h: PostId) {
    && h in s.posts && Waiting(s, h) && PostsOk(s.posts) && FillsHome(s, s', h)
    && HasRequests(h, s'.routes) && (forall g: PostId :: g != h ==> SameRequests(s.routes, s'.routes, g))
    && s' == s.(out := s'.out, inc := s'.inc, sending := s'.sending, routes := s'.routes, asked := s'.asked,
                net := s'.net)
  }

  lemma NewRoutesOthers(s: State, h: PostId, reqs: map<ReqId, Request>)
    requires CanProcess(s, h, reqs)
    ensures var b := s.routes + NewRoutes(s.posts[h], h, reqs);
      HasRequests(h, b) && forall g: PostId :: g != h ==> SameRequests(s.routes, b, g)
  {
    var r :| r in reqs;
    assert Id(h, r) in NewRoutes(s.posts[h], h, reqs) by {
      assert Id(h, r) in (set q | q in reqs :: Id(h, q));
    }
  }

  lemma ProcessIs(s: State, h: PostId, reqs: map<ReqId, Request>, meta: Metadata)
    requires h in s.posts && forall r <- reqs :: ValidRequest(reqs[r])
    ensures var p, s' := s.posts[h], DoProcess(s, h, reqs, meta);
      var t := if p.op.Write? then s.out else s.inc;
      var t' := AddReqs(t, HomePlace(p, h), LocalInfos(p.op, reqs), |reqs|, p.op, [], map[]);
      if p.op.Write? then s'.out == t' && s'.inc == s.inc && s'.sending == s.sending[h := LocalLoad(p, reqs)]
      else s'.inc == t' && s'.out == s.out && s'.sending == s.sending
  {
  }

  lemma ProcessFills(s: State, h: PostId, reqs: map<ReqId, Request>, meta: Metadata)
    requires h in s.posts && reqs != map[] && (forall r <- reqs :: ValidRequest(reqs[r])) && Waiting(s, h)
    ensures FillsHome(s, DoProcess(s, h, reqs, meta), h)
  {
    var p := s.posts[h];
    ProcessIs(s, h, reqs, meta);
    AddFills(if p.op.Write? then s.out else s.inc, HomePlace(p, h), p.op, reqs);
  }

  lemma ProcessOwn(s: State, s': State, h: PostId)
    requires Processed(s, s', h) && PostTold(s, h) && !HasRequests(h, s.routes)
    ensures PostTold(s', h)
  {
    NotStarted(s, h);
    RecvPlaceIs(s.posts, h);
    assert HomeOk(s', h) && StagesOk(s', h);
    assert CallsOk(s', h) && HereOk(s', h);
  }

  lemma ProcessOthers(s: State, s': State, h: PostId, g: PostId)
    requires Processed(s, s', h) && g != h
    ensures Agree(s, s', g)
  {
    var k := HomePlace(s.posts[h], h);
    RecvPlaceIs(s.posts, h);
    if s.posts[h].op.Write? {
      OtherOut(s.out, s'.out, k, g);
    } else {
      OtherInc(s.inc, s'.inc, k, g);
    }
  }

  lemma ProcessAsked(s: State, h: PostId, reqs: map<ReqId, Request>)
    requires CanProcess(s, h, reqs) && AskedOk(s.asked, s.posts, s.routes)
    ensures AskedOk(s.asked + Asked(h, reqs), s.posts, s.routes + NewRoutes(s.posts[h], h, reqs))
  {
    var p := s.posts[h];
    assert Asked(h, reqs).Keys == NewRoutes(p, h, reqs).Keys;
    forall x | x in Asked(h, reqs) ensures Serves(LocalRoute(p, reqs[x.r]), reqs[x.r], p) {
      OffsetEnd(reqs[x.r].len, reqs[x.r].nchunks);
    }
  }

  lemma ProcessInfos(s: State, h: PostId, reqs: map<ReqId, Request>, f: Frame)
    requires InfosAsk(s.net, s.asked) && h in s.posts
    requires f.InfoFrame? && f.h == h && f.infos == WireInfos(s.posts[h].op, reqs)
    requires forall x <- s.asked :: x.h != h
    ensures InfosAsk(s.net + {f}, s.asked + Asked(h, reqs))
  {
    forall r | r in f.infos ensures Id(h, r) in Asked(h, reqs) && Asked(h, reqs)[Id(h, r)] == reqs[r] {
      assert Id(h, r) in (set q | q in reqs :: Id(h, q));
    }
  }

  lemma ProcessPosts(s: State, s': State, h: PostId)
    requires Processed(s, s', h) && EveryPostTold(s) && !HasRequests(h, s.routes)
    ensures EveryPostTold(s')
  {
    ProcessOwn(s, s', h);
    forall g: PostId | g != h ensures Agree(s, s', g) {
      ProcessOthers(s, s', h, g);
    }
    OnePost(s, s', h);
  }

  lemma HomeReady(s: State, h: PostId)
    requires h in s.posts && PostTold(s, h) && !HasRequests(h, s.routes) && PostsOk(s.posts)
    requires OutOk(s.out, s.posts, s.routes, s.written) && ReportedOk(s.reported, s.posts, s.routes, s.delivered)
    requires IncOk(s.inc, s.posts, s.routes, s.registered, s.delivered)
    ensures Waiting(s, h)
  {
    var k := HomePlace(s.posts[h], h);
    RegisteredHasRequests(s, h);
    RecvPlaceIs(s.posts, h);
    if s.posts[h].op.Write? {
      assert OutEntryOk(k, s.out[k], s.posts, s.routes, s.written);
    } else {
      assert IncEntryOk(k, s.inc[k], s.posts, s.routes, s.registered, s.delivered);
    }
  }

  lemma ProcessSent(s: State, f: Frame, h: PostId, load: Load)
    requires DataSent(s.net, s.rx, s.written, s.sending.Keys) && f.InfoFrame?
    ensures DataSent(s.net + {f}, s.rx, s.written, s.sending[h := load].Keys)
    ensures DataSent(s.net + {f}, s.rx, s.written, s.sending.Keys)
  {
  }

  lemma ProcessTold(s: State, h: PostId, reqs: map<ReqId, Request>, meta: Metadata)
    requires Told(s) && CanProcess(s, h, reqs) && Waiting(s, h) && PostsOk(s.posts)
    ensures Told(DoProcess(s, h, reqs, meta))
  {
    var p := s.posts[h];
    NewRoutesOthers(s, h, reqs);
    ProcessFills(s, h, reqs, meta);
    ProcessPosts(s, DoProcess(s, h, reqs, meta), h);
    ProcessAsked(s, h, reqs);
    var f := InfoFrame(p.initiator, p.target, h, p.op, WireInfos(p.op, reqs), meta);
    ProcessInfos(s, h, reqs, f);
    ProcessSent(s, f, h, LocalLoad(p, reqs));
  }

  // --- A PostInfo arrives -------------------------------------------------------------------------

  /** The state after a PostInfo has registered its post. */
  function Accepted(s: State, w: Worker, f: Frame, resolve: map<ReqId, Addr>): State
    requires f.InfoFrame? && f.h in s.posts
  {
    s.(inc := s.inc[InfoPlace(f) := Registered(f, resolve)],
       routes := BindRoutes(s, f, resolve), registered := s.registered + {f.h},
       rx := if f.op.Read? then s.rx[w := Responding(InfoPlace(f), Resolved(f.infos, resolve))] else s.rx,
       served := if f.op.Read? then s.served + multiset{f.h} else s.served)
  }

  /** What is known when that happens. */
  ghost predicate Accepting(s: State, w: Worker, f: Frame) {
    && f.InfoFrame? && f.h in s.posts && f.h !in s.registered && Ready(s, w) && f.op == s.posts[f.h].op
    && InfoPlace(f) == TargetPlace(s.posts[f.h], f.h) && HasRequests(f.h, s.routes) && |f.infos| >= 1
    && PostsOk(s.posts)
  }

  /** A post that is not registered is in no later stage. */
  lemma NotAccepted(s: State, h: PostId)
    requires h in s.posts && PostTold(s, h) && h !in s.registered
    ensures h !in s.queued && (s.posts[h].op.Read? ==> h !in s.sending && !Mine(s, h))
    ensures s.served[h] == 0 && s.postCalls[h] == 0
    ensures forall w <- s.rx :: !IsResponding(s.rx[w], h) && !OwesServed(s.rx[w], h)
  {
  }

  lemma BindSame(s: State, f: Frame, resolve: map<ReqId, Addr>)
    requires f.InfoFrame? && f.h in s.posts
    ensures forall g: PostId :: SameRequests(s.routes, BindRoutes(s, f, resolve), g)
  {
  }

  lemma InfoHasRequests(f: Frame, posts: map<PostId, Post>, routes: map<Id, Route>)
    requires f.InfoFrame? && InfoOk(f, posts, routes)
    ensures HasRequests(f.h, routes) && |f.infos| >= 1
  {
    var r :| r in f.infos;
    assert Id(f.h, r) in routes;
  }

  lemma AcceptOwn(s: State, w: Worker, f: Frame, resolve: map<ReqId, Addr>)
    requires Accepting(s, w, f) && PostTold(s, f.h)
    ensures PostTold(Accepted(s, w, f, resolve), f.h)
  {
    var s' := Accepted(s, w, f, resolve);
    NotAccepted(s, f.h);
    BindSame(s, f, resolve);
    AgreeHere(s, s', f.h);
    RecvPlaceIs(s.posts, f.h);
    assert HomeOk(s', f.h) && StagesOk(s', f.h);
    assert CallsOk(s', f.h);
    assert RespondersOk(s', f.h);
  }

  lemma RespondingSame(rx: map<Worker, Rx>, w: Worker, k: Place, infos: map<ReqId, RequestInfo>, g: PostId)
    requires g != IncPost(k) && (w in rx ==> Neutral(rx[w]))
    ensures SameWork(rx, rx[w := Responding(k, infos)], g)
  {
  }

  lemma AcceptOthers(s: State, w: Worker, f: Frame, resolve: map<ReqId, Addr>, g: PostId)
    requires Accepting(s, w, f) && g != f.h
    ensures Agree(s, Accepted(s, w, f, resolve), g)
  {
    BindSame(s, f, resolve);
    RecvPlaceIs(s.posts, f.h);
    OtherInc(s.inc, s.inc[InfoPlace(f) := Registered(f, resolve)], InfoPlace(f), g);
    RespondingSame(s.rx, w, InfoPlace(f), Resolved(f.infos, resolve), g);
  }

  lemma AcceptPosts(s: State, w: Worker, f: Frame, resolve: map<ReqId, Addr>)
    requires Accepting(s, w, f) && EveryPostTold(s)
    ensures EveryPostTold(Accepted(s, w, f, resolve))
  {
    AcceptOwn(s, w, f, resolve);
    forall g: PostId | g != f.h ensures Agree(s, Accepted(s, w, f, resolve), g) {
      AcceptOthers(s, w, f, resolve, g);
    }
    OnePost(s, Accepted(s, w, f, resolve), f.h);
  }

  lemma AcceptAsked(s: State, f: Frame, resolve: map<ReqId, Addr>)
    requires f.InfoFrame? && f.h in s.posts && f in s.net
    requires AskedOk(s.asked, s.posts, s.routes) && InfosAsk(s.net, s.asked)
    ensures AskedOk(s.asked, s.posts, BindRoutes(s, f, resolve))
  {
    var b := BindRoutes(s, f, resolve);
    forall x | x in b && x.h == f.h && x.r in f.infos ensures Serves(b[x], s.asked[x], s.posts[f.h]) {
      assert x == Id(f.h, x.r) && f.infos[x.r].raddr == s.asked[x].raddr;
    }
  }

  lemma RespondingSent(s: State, w: Worker, k: Place, infos: map<ReqId, RequestInfo>)
    requires DataSent(s.net, s.rx, s.written, s.sending.Keys)
    ensures DataSent(s.net, s.rx[w := Responding(k, infos)], s.written, s.sending.Keys)
  {
  }

  lemma AcceptTold(s: State, w: Worker, f: Frame, resolve: map<ReqId, Addr>)
    requires Accepting(s, w, f) && Told(s) && f in s.net
    ensures Told(Accepted(s, w, f, resolve))
  {
    AcceptPosts(s, w, f, resolve);
    AcceptAsked(s, f, resolve);
    RespondingSent(s, w, InfoPlace(f), Resolved(f.infos, resolve));
  }

  lemma RecvInfoTold(s: State, w: Worker, f: Frame, resolve: map<ReqId, Addr>)
    requires Inv(s) && Told(s) && CanRecvInfo(s, w, f, resolve)
    ensures Told(DoRecvInfo(s, w, f, resolve))
  {
    InfoInNet(s, f);
    RecvInfoOutcome(s, w, f, resolve);
    if Registers(s, f, resolve) {
      InfoHasRequests(f, s.posts, s.routes);
      AcceptTold(s, w, f, resolve);
    }
  }

  // --- Serving reads --------------------------------------------------------------------------------

  /** The state after a worker has claimed a read and queued it. */
  function Claimed(s: State, w: Worker, h: PostId, batch: Batch): State
    requires h in s.posts
  {
    s.(rx := s.rx[w := Idle], out := s.out[SendPlace(s.posts[h], h) := NewEntry(Relay(h.owner))],
       queued := s.queued[h := batch])
  }

  lemma IdleSame(rx: map<Worker, Rx>, w: Worker, t: Rx, h: PostId, g: PostId)
    requires g != h && w in rx && (IsResponding(rx[w], h) || OwesServed(rx[w], h)) && Neutral(t)
    ensures SameWork(rx, rx[w := t], g)
  {
  }

  lemma ClaimOwn(s: State, w: Worker, h: PostId, batch: Batch)
    requires h in s.posts && PostTold(s, h) && w in s.rx && IsResponding(s.rx[w], h) && PostsOk(s.posts)
    ensures PostTold(Claimed(s, w, h, batch), h)
  {
    var s' := Claimed(s, w, h, batch);
    assert RespondersOk(s, h) && StagesOk(s, h);
    assert Mine(s', h);
    assert StagesOk(s', h) && CallsOk(s', h);
    assert RespondersOk(s', h) && ServersOk(s', h);
  }

  lemma ClaimOthers(s: State, w: Worker, h: PostId, batch: Batch, g: PostId)
    requires h in s.posts && g != h && w in s.rx && IsResponding(s.rx[w], h)
    requires SendPlace(s.posts[h], h) !in s.out
    ensures Agree(s, Claimed(s, w, h, batch), g)
  {
    var k := SendPlace(s.posts[h], h);
    OtherOut(s.out, s.out[k := NewEntry(Relay(h.owner))], k, g);
    IdleSame(s.rx, w, Idle, h, g);
  }

  lemma ClaimTold(s: State, w: Worker, h: PostId, batch: Batch)
    requires h in s.posts && Told(s) && w in s.rx && IsResponding(s.rx[w], h) && PostsOk(s.posts)
    requires SendPlace(s.posts[h], h) !in s.out
    ensures Told(Claimed(s, w, h, batch))
  {
    ClaimOwn(s, w, h, batch);
    forall g: PostId | g != h ensures Agree(s, Claimed(s, w, h, batch), g) {
      ClaimOthers(s, w, h, batch, g);
    }
    OnePost(s, Claimed(s, w, h, batch), h);
  }

  /** The read is dropped: the handle is taken in outgoing. */
  lemma DropReadTold(s: State, w: Worker, h: PostId)
    requires h in s.posts && Told(s) && w in s.rx && IsResponding(s.rx[w], h) && PostsOk(s.posts)
    ensures Told(s.(rx := s.rx[w := Idle]))
  {
    var s' := s.(rx := s.rx[w := Idle]);
    assert PostTold(s, h) && PostTold(s', h);
    forall g: PostId | g != h ensures Agree(s, s', g) {
      IdleSame(s.rx, w, Idle, h, g);
    }
    OnePost(s, s', h);
  }

  lemma RespondTold(s: State, w: Worker)
    requires Told(s) && CanRespond(s, w) && RxOk(s.rx, s.posts, s.routes, s.inc, s.registered, s.written)
    requires PostsOk(s.posts)
    ensures Told(DoRespond(s, w))
  {
    var h := IncPost(s.rx[w].place);
    RespondingFacts(s, w);
    if SendPlace(s.posts[h], h) in s.out {
      DropReadTold(s, w, h);
    } else {
      ClaimTold(s, w, h, Batch(s.rx[w].place.host, s.rx[w].infos));
    }
  }

  /** What a queued read has. */
  lemma QueuedFacts(s: State, h: PostId)
    requires h in s.queued && PostTold(s, h) && PostsOk(s.posts) && QueuedOk(s.queued, s.posts, s.routes)
    requires OutOk(s.out, s.posts, s.routes, s.written)
    requires IncOk(s.inc, s.posts, s.routes, s.registered, s.delivered)
    ensures h in s.posts && s.posts[h].op.Read? && h in s.registered && HasRequests(h, s.routes)
    ensures s.queued[h].host == s.posts[h].target && s.queued[h].infos != map[]
    ensures Mine(s, h) && s.out[SendPlace(s.posts[h], h)].initiator
  {
    var p := s.posts[h];
    assert StagesOk(s, h);
    assert OutEntryOk(SendPlace(p, h), s.out[SendPlace(p, h)], s.posts, s.routes, s.written);
    RegisteredHasRequests(s, h);
  }

  lemma AddServedInfos(t: Table, k: Place, infos: map<ReqId, RequestInfo>)
    requires k in t && t[k].initiator && infos != map[]
    ensures Filled(t, AddReqs(t, k, ServedInfos(infos), |ServedInfos(infos)|, Write, [], map[]), k)
  {
    var r :| r in infos;
    assert r in NewReqs(ServedInfos(infos), map[]);
  }

  /** The state after the responder's main loop has taken up a queued read. */
  lemma ProcessReadOwn(s: State, s': State, h: PostId, load: Load)
    requires h in s.posts && h in s.queued && PostTold(s, h)
    requires Mine(s, h) && Filled(s.out, s'.out, SendPlace(s.posts[h], h))
    requires s.posts[h].op.Read? && h in s.registered && HasRequests(h, s.routes)
    requires s' == s.(out := s'.out, queued := s.queued - {h}, sending := s.sending[h := load])
    ensures PostTold(s', h)
  {
    assert StagesOk(s, h) && CallsOk(s, h) && RespondersOk(s, h) && ServersOk(s, h) && HereOk(s, h);
    assert StagesOk(s', h) && CallsOk(s', h);
    assert RespondersOk(s', h) && ServersOk(s', h);
  }

  lemma ProcessReadPosts(s: State, s': State, h: PostId, load: Load)
    requires h in s.posts && h in s.queued && Told(s) && PostsOk(s.posts)
    requires Mine(s, h) && Filled(s.out, s'.out, SendPlace(s.posts[h], h))
    requires s.posts[h].op.Read? && h in s.registered && HasRequests(h, s.routes)
    requires s' == s.(out := s'.out, queued := s.queued - {h}, sending := s.sending[h := load])
    ensures Told(s')
  {
    ProcessReadOwn(s, s', h, load);
    forall g: PostId | g != h ensures Agree(s, s', g) {
      OtherOut(s.out, s'.out, SendPlace(s.posts[h], h), g);
    }
    OnePost(s, s', h);
  }

  lemma ProcessReadTold(s: State, h: PostId)
    requires Told(s) && CanProcessRead(s, h) && PostsOk(s.posts) && QueuedOk(s.queued, s.posts, s.routes)
    requires OutOk(s.out, s.posts, s.routes, s.written)
    requires IncOk(s.inc, s.posts, s.routes, s.registered, s.delivered)
    ensures Told(DoProcessRead(s, h))
  {
    assert PostTold(s, h);
    QueuedFacts(s, h);
    AddServedInfos(s.out, SendPlace(s.posts[h], h), s.queued[h].infos);
    ProcessReadPosts(s, DoProcessRead(s, h), h, ServedLoad(h, s.queued[h]));
  }

  // --- Acknowledgements and polling -------------------------------------------------------------------

  /** The initiator's entry goes and its application is told, by callback or by poll. */
  ghost predicate DropsHome(s: State, s': State, h: PostId) {
    && h in s.posts && HasRequests(h, s.routes) && AtHome(s, h) && PostsOk(s.posts)
    && (if s.posts[h].op.Write? then s'.out == s.out - {HomePlace(s.posts[h], h)} && s'.inc == s.inc
        else s'.inc == s.inc - {HomePlace(s.posts[h], h)} && s'.out == s.out)
    && s'.reported == s.reported + {h}
    && (s'.doneCalls == s.doneCalls || s'.doneCalls == s.doneCalls + multiset{h})
    && s' == s.(out := s'.out, inc := s'.inc, reported := s'.reported, freed := s'.freed, doneCalls := s'.doneCalls)
  }

  lemma DropHome(s: State, s': State, h: PostId)
    requires DropsHome(s, s', h) && PostTold(s, h)
    ensures PostTold(s', h)
  {
    RecvPlaceIs(s.posts, h);
    assert HomeOk(s, h) && StagesOk(s, h) && CallsOk(s, h);
    assert StagesOk(s', h) && CallsOk(s', h) && HomeOk(s', h);
    assert RespondersOk(s', h) && ServersOk(s', h) && HereOk(s', h);
  }

  lemma DropHomeTold(s: State, s': State, h: PostId)
    requires DropsHome(s, s', h) && Told(s)
    ensures Told(s')
  {
    DropHome(s, s', h);
    RecvPlaceIs(s.posts, h);
    forall g: PostId | g != h ensures Agree(s, s', g) {
      if s.posts[h].op.Write? {
        OtherOut(s.out, s'.out, HomePlace(s.posts[h], h), g);
      } else {
        OtherInc(s.inc, s'.inc, HomePlace(s.posts[h], h), g);
      }
    }
    OnePost(s, s', h);
  }

  /** The responder's entry is gone and one worker owes the post callback. */
  function Relayed(s: State, w: Worker, h: PostId): State
    requires h in s.posts
  {
    s.(out := s.out - {SendPlace(s.posts[h], h)},
       rx := s.rx[w := Completing(TargetPlace(s.posts[h], h), Served(h), None)])
  }

  ghost predicate Relays(s: State, w: Worker, h: PostId) {
    && h in s.posts && s.posts[h].op.Read? && Ready(s, w) && Mine(s, h) && h in s.sending
    && (Proper(s.posts[h]) ==> AllHere(h, s.routes, s.delivered))
  }

  lemma RelayOwn(s: State, w: Worker, h: PostId)
    requires Relays(s, w, h) && PostTold(s, h)
    ensures PostTold(Relayed(s, w, h), h)
  {
    var s' := Relayed(s, w, h);
    assert HomeOk(s, h) && StagesOk(s, h) && CallsOk(s, h) && HereOk(s, h) && RespondersOk(s, h) && ServersOk(s, h);
    assert StagesOk(s', h) && CallsOk(s', h) && HomeOk(s', h) && HereOk(s', h);
    assert RespondersOk(s', h) && ServersOk(s', h);
  }

  lemma RelayTold(s: State, w: Worker, h: PostId)
    requires Relays(s, w, h) && Told(s) && PostsOk(s.posts)
    ensures Told(Relayed(s, w, h))
  {
    var s' := Relayed(s, w, h);
    RelayOwn(s, w, h);
    forall g: PostId | g != h ensures Agree(s, s', g) {
      OtherOut(s.out, s'.out, SendPlace(s.posts[h], h), g);
      OwesSame(s.rx, w, TargetPlace(s.posts[h], h), h, g);
    }
    OnePost(s, s', h);
  }

  lemma OwesSame(rx: map<Worker, Rx>, w: Worker, k: Place, h: PostId, g: PostId)
    requires g != h && (w in rx ==> Neutral(rx[w]))
    ensures SameWork(rx, rx[w := Completing(k, Served(h), None)], g)
  {
  }

  lemma AckNoCallTold(s: State, k: Place, r: ReqId, i: nat)
    requires Told(s) && (k in s.out ==> r in s.out[k].reqs) && AckedCall(s.out, k, r, i).NoCall? && PostsOk(s.posts)
    ensures Told(s.(out := Acked(s.out, k, r, i)))
  {
    if k in s.out {
      SetChunksSame(s.out, k, r, SetDone(s.out[k].reqs[r].chunks, i));
    }
    NoPost(s, s.(out := Acked(s.out, k, r, i)));
  }

  lemma AckedCallDrops(t: Table, k: Place, r: ReqId, i: nat)
    requires k in t ==> r in t[k].reqs
    ensures !AckedCall(t, k, r, i).NoCall? ==>
      k in t && AckedCall(t, k, r, i).OnComplete? && Acked(t, k, r, i) == t - {k}
  {
  }

  /** An acknowledgement that completes its post: at the initiator of a write, or relayed by a responder. */
  lemma AckDrops(s: State, w: Worker, f: Frame)
    requires CanRecvAck(s, w, f) && PostsOk(s.posts) && ChunkId(f.id, f.i) in s.written && f.id.h in s.posts
    requires OutOk(s.out, s.posts, s.routes, s.written) && WrittenOk(s.written, s.delivered, s.posts)
    requires var k := AckPlace(w, f);
      && k == SendPlace(s.posts[f.id.h], f.id.h) && (k in s.out ==> OutPost(k, s.out[k]) == f.id.h)
      && AckedCall(s.out, k, f.id.r, f.i).OnComplete?
    requires f.id.h in s.sending
    ensures if s.posts[f.id.h].op.Write? then DropsHome(s, DoRecvAck(s, w, f), f.id.h)
      else Relays(s, w, f.id.h) && DoRecvAck(s, w, f) == Relayed(s, w, f.id.h)
  {
    var k := AckPlace(w, f);
    RecvAckIs(s, w, f);
    AckedCallDrops(s.out, k, f.id.r, f.i);
    AckCompletes(s, k, f.id, f.i);
    OwnerIs(s, f.id.h);
  }

  lemma RecvAckTold(s: State, w: Worker, f: Frame)
    requires Told(s) && CanRecvAck(s, w, f) && PostsOk(s.posts) && NetOk(s.net, s.posts, s.routes, s.written)
    requires OutOk(s.out, s.posts, s.routes, s.written) && WrittenOk(s.written, s.delivered, s.posts)
    requires DeliveredOk(s.written, s.routes) && UniqueIds(s.routes)
    ensures Told(DoRecvAck(s, w, f))
  {
    var h, k := f.id.h, AckPlace(w, f);
    AckEntry(s, w, f);
    if AckedCall(s.out, k, f.id.r, f.i).NoCall? {
      AckNoCallTold(s, k, f.id.r, f.i);
    } else {
      assert ChunkId(f.id, f.i).id.h in s.sending;
      AckDrops(s, w, f);
      if s.posts[h].op.Write? {
        DropHomeTold(s, DoRecvAck(s, w, f), h);
      } else {
        RelayTold(s, w, h);
      }
    }
  }

  lemma PollOutDrops(s: State, h: PostId)
    requires h in s.posts && PostsOk(s.posts) && OutOk(s.out, s.posts, s.routes, s.written)
    requires WrittenOk(s.written, s.delivered, s.posts) && Check(s.out, HomePlace(s.posts[h], h)).Success?
    ensures DropsHome(s, DoPoll(s, h), h)
  {
    PolledOut(s, h);
  }

  lemma PollIncDrops(s: State, h: PostId)
    requires h in s.posts && PostsOk(s.posts) && IncOk(s.inc, s.posts, s.routes, s.registered, s.delivered)
    requires Check(s.out, HomePlace(s.posts[h], h)).NotFound? && Check(s.inc, HomePlace(s.posts[h], h)).Success?
    ensures DropsHome(s, DoPoll(s, h), h)
  {
    IncComplete(s, h);
  }

  lemma PollTold(s: State, h: PostId)
    requires Told(s) && h in s.posts && PostsOk(s.posts) && OutOk(s.out, s.posts, s.routes, s.written)
    requires IncOk(s.inc, s.posts, s.routes, s.registered, s.delivered) && WrittenOk(s.written, s.delivered, s.posts)
    ensures Told(DoPoll(s, h))
  {
    var k := HomePlace(s.posts[h], h);
    if Check(s.out, k).Success? {
      PollOutDrops(s, h);
      DropHomeTold(s, DoPoll(s, h), h);
    } else if Check(s.out, k).NotFound? && Check(s.inc, k).Success? {
      PollIncDrops(s, h);
      DropHomeTold(s, DoPoll(s, h), h);
    }
  }

  // --- Completed requests -----------------------------------------------------------------------------

  /** One request less is pending in the entry `k`, and the post callback runs when none is. */
  ghost predicate Counts1(s: State, s': State, k: Place) {
    && k in s.inc && s'.inc == Decremented(s.inc, k)
    && s'.postCalls == (if s.inc[k].pending == 1 && !s.inc[k].initiator
                        then s.postCalls + multiset{IncPost(k)} else s.postCalls)
    && s' == s.(inc := s'.inc, rx := s'.rx, postCalls := s'.postCalls)
  }

  /** A request of a write is counted at the target; the last one runs the post callback. */
  lemma CountWriteOwn(s: State, s': State, h: PostId)
    requires h in s.posts && PostTold(s, h) && s.posts[h].op.Write? && h in s.registered && PostsOk(s.posts)
    requires var k := TargetPlace(s.posts[h], h);
      && Counts1(s, s', k) && s'.rx == s.rx && s.inc[k].pending >= 1 && !s.inc[k].initiator
      && (s.inc[k].pending == 1 ==> AllHere(h, s.routes, s.delivered))
    requires forall w <- s.rx :: !OwesServed(s.rx[w], h)
    ensures PostTold(s', h)
  {
    RecvPlaceIs(s.posts, h);
    assert HomeOk(s, h) && StagesOk(s, h) && CallsOk(s, h) && HereOk(s, h) && RespondersOk(s, h) && ServersOk(s, h);
    assert StagesOk(s', h) && CallsOk(s', h) && HomeOk(s', h) && HereOk(s', h);
    assert RespondersOk(s', h) && ServersOk(s', h);
  }

  /** A request of a read is counted at the initiator, without a callback. */
  lemma CountReadOwn(s: State, s': State, h: PostId)
    requires h in s.posts && PostTold(s, h) && s.posts[h].op.Read? && PostsOk(s.posts)
    requires var k := HomePlace(s.posts[h], h); Counts1(s, s', k) && s'.rx == s.rx && s.inc[k].initiator
    ensures PostTold(s', h)
  {
    RecvPlaceIs(s.posts, h);
    assert HomeOk(s, h) && StagesOk(s, h) && CallsOk(s, h) && HereOk(s, h) && RespondersOk(s, h) && ServersOk(s, h);
    assert StagesOk(s', h) && CallsOk(s', h) && HomeOk(s', h) && HereOk(s', h);
    assert RespondersOk(s', h) && ServersOk(s', h);
  }

  lemma CountOthers(s: State, s': State, k: Place, g: PostId)
    requires g != IncPost(k) && SameWork(s.rx, s'.rx, g) && Counts1(s, s', k)
    ensures Agree(s, s', g)
  {
    OtherInc(s.inc, s'.inc, k, g);
  }

  /** The same for every post, once the worker has moved on. */
  lemma CountTold(s: State, s': State, k: Place, h: PostId)
    requires Told(s) && PostsOk(s.posts) && IncPost(k) == h && PostTold(s', h)
    requires Counts1(s, s', k) && s'.rx == s.rx
    ensures Told(s')
  {
    forall g: PostId | g != h ensures Agree(s, s', g) {
      CountOthers(s, s', k, g);
    }
    OnePost(s, s', h);
  }

  /** The acknowledgement of a served read, or a chunk of a read from oneself, is counted at the responder. */
  lemma CountTargetOwn(s: State, s': State, w: Worker, t: Rx, h: PostId)
    requires h in s.posts && PostTold(s, h) && s.posts[h].op.Read? && PostsOk(s.posts) && h in s.registered
    requires w in s.rx && OwesTarget(s.rx[w], h) && Neutral(t) && s'.rx == s.rx[w := t]
    requires s.rx[w].why.Served? || !Proper(s.posts[h])
    requires Counts1(s, s', TargetPlace(s.posts[h], h)) && !s.inc[TargetPlace(s.posts[h], h)].initiator
    ensures PostTold(s', h)
  {
    RecvPlaceIs(s.posts, h);
    assert HomeOk(s, h) && StagesOk(s, h) && CallsOk(s, h) && HereOk(s, h) && RespondersOk(s, h) && ServersOk(s, h);
    assert s.rx[w].why.Served? ==> OwesServed(s.rx[w], h);
    assert StagesOk(s', h) && CallsOk(s', h) && HomeOk(s', h) && HereOk(s', h);
    assert RespondersOk(s', h) && ServersOk(s', h);
  }

  lemma TargetSame(rx: map<Worker, Rx>, w: Worker, t: Rx, h: PostId, g: PostId)
    requires g != h && w in rx && OwesTarget(rx[w], h) && Neutral(t)
    ensures SameWork(rx, rx[w := t], g)
  {
  }

  lemma CountTargetTold(s: State, s': State, w: Worker, t: Rx, h: PostId)
    requires h in s.posts && Told(s) && s.posts[h].op.Read? && PostsOk(s.posts) && h in s.registered
    requires w in s.rx && OwesTarget(s.rx[w], h) && (t.Idle? || t.Acking?) && s'.rx == s.rx[w := t]
    requires s.rx[w].why.Served? || !Proper(s.posts[h])
    requires Counts1(s, s', TargetPlace(s.posts[h], h)) && !s.inc[TargetPlace(s.posts[h], h)].initiator
    ensures Told(s')
  {
    CountTargetOwn(s, s', w, t, h);
    RecvPlaceIs(s.posts, h);
    forall g: PostId | g != h ensures Agree(s, s', g) {
      TargetSame(s.rx, w, t, h, g);
      CountOthers(s, s', TargetPlace(s.posts[h], h), g);
    }
    OnePost(s, s', h);
  }

  /** The worker moves on and the request is counted. */
  function MovedOn(s: State, w: Worker, x: Id): State
    requires CanComplete(s, w)
  {
    s.(rx := s.rx[w := if s.rx[w].ack.Some? then Acking(s.rx[w].ack.value) else Idle], counted := s.counted + {x})
  }

  lemma MovedOnTold(s: State, w: Worker, x: Id)
    requires Told(s) && CanComplete(s, w) && !s.rx[w].why.Served? && PostsOk(s.posts)
    ensures Told(MovedOn(s, w, x))
  {
    var s' := MovedOn(s, w, x);
    MoveSame(s.rx, s'.rx, w, s'.rx[w]);
    NoPost(s, s');
  }

  /** OnReqComplete for a finished request. */
  lemma CompleteFinishedIs(s: State, w: Worker, x: Id)
    requires CanComplete(s, w) && s.rx[w].why == Finished(x)
    ensures var k := s.rx[w].place;
      var u := MovedOn(s, w, x);
      var s' := DoComplete(s, w);
      if k !in s.inc then s' == u
      else if ReqCompleteCall(s.inc, k).OnComplete?
      then s.inc[k].initiator &&
        s' == Report(u.(inc := s.inc - {k}, doneCalls := s.doneCalls + multiset{IncPost(k)}), IncPost(k))
      else Counts1(u, s', k) && s'.rx == u.rx
  {
    var k := s.rx[w].place;
    if k in s.inc {
      CallIs(s.inc, k);
    }
  }

  lemma CallIs(t: Table, k: Place)
    requires k in t
    ensures ReqCompleteCall(t, k).OnComplete? ==> t[k].initiator && ReqComplete(t, k) == t - {k}
    ensures !ReqCompleteCall(t, k).OnComplete? ==> ReqComplete(t, k) == Decremented(t, k)
    ensures ReqCompleteCall(t, k).RecvPost? <==> t[k].pending == 1 && !t[k].initiator
    ensures !ReqCompleteCall(t, k).RecvRead?
  {
  }

  /** What OnReqComplete finds: the count is positive, and at one the rest of the batch is there. */
  lemma FinishedFacts(s: State, w: Worker, x: Id)
    requires CanComplete(s, w) && s.rx[w].why == Finished(x) && s.rx[w].place in s.inc && PostsOk(s.posts)
    requires TokensOk(s.rx, s.posts, s.routes, s.counted, s.delivered) && CountedOk(s.counted, s.routes, s.delivered)
    requires IncOk(s.inc, s.posts, s.routes, s.registered, s.delivered)
    requires PopulatedOk(s.inc, s.posts, s.routes) && PendingOk(s.inc, s.posts, s.counted)
    ensures x.h in s.posts && HasRequests(x.h, s.routes) && s.rx[w].place == RecvPlace(s.posts[x.h], x.h)
    ensures IncPost(s.rx[w].place) == x.h && s.inc[s.rx[w].place].pending >= 1
    ensures s.inc[s.rx[w].place].pending == 1 ==> AllHere(x.h, s.routes, s.delivered)
    ensures s.inc[s.rx[w].place].initiator <==> s.posts[x.h].op.Read?
    ensures s.posts[x.h].op.Write? ==> x.h in s.registered
  {
    var k := s.rx[w].place;
    TokenEntry(s, w, x);
    PendingOfToken(s, k, x);
    CountKeeps(s, w, x);
    RecvPlaceIs(s.posts, x.h);
    if s.inc[k].pending == 1 {
      LastCounted(s.(counted := s.counted + {x}), x);
    }
    assert IncEntryOk(k, s.inc[k], s.posts, s.routes, s.registered, s.delivered);
  }

  /** Only reads are served. */
  lemma NoneServed(s: State, h: PostId)
    requires TokensOk(s.rx, s.posts, s.routes, s.counted, s.delivered) && h in s.posts && s.posts[h].op.Write?
    ensures forall w <- s.rx :: !OwesServed(s.rx[w], h)
  {
    forall w | w in s.rx ensures !OwesServed(s.rx[w], h) {
      assert OwesServed(s.rx[w], h) ==> OwesTarget(s.rx[w], h);
    }
  }

  lemma CompleteWriteTold(s: State, w: Worker, x: Id)
    requires Told(s) && CanComplete(s, w) && s.rx[w].why == Finished(x) && PostsOk(s.posts)
    requires x.h in s.posts && s.posts[x.h].op.Write? && x.h in s.registered
    requires s.rx[w].place == TargetPlace(s.posts[x.h], x.h) && s.rx[w].place in s.inc
    requires !s.inc[s.rx[w].place].initiator && s.inc[s.rx[w].place].pending >= 1
    requires s.inc[s.rx[w].place].pending == 1 ==> AllHere(x.h, s.routes, s.delivered)
    requires forall v <- s.rx :: !OwesServed(s.rx[v], x.h)
    ensures Told(DoComplete(s, w))
  {
    CompleteFinishedIs(s, w, x);
    CallIs(s.inc, s.rx[w].place);
    MovedOnTold(s, w, x);
    RecvPlaceIs(s.posts, x.h);
    var u := MovedOn(s, w, x);
    assert PostTold(u, x.h);
    CountWriteOwn(u, DoComplete(s, w), x.h);
    CountTold(u, DoComplete(s, w), s.rx[w].place, x.h);
  }

  lemma CompleteReadTold(s: State, w: Worker, x: Id)
    requires Told(s) && CanComplete(s, w) && s.rx[w].why == Finished(x) && PostsOk(s.posts)
    requires x.h in s.posts && s.posts[x.h].op.Read? && HasRequests(x.h, s.routes)
    requires s.rx[w].place == HomePlace(s.posts[x.h], x.h) && s.rx[w].place in s.inc
    requires s.inc[s.rx[w].place].initiator
    ensures Told(DoComplete(s, w))
  {
    CompleteFinishedIs(s, w, x);
    MovedOnTold(s, w, x);
    RecvPlaceIs(s.posts, x.h);
    var u := MovedOn(s, w, x);
    if ReqCompleteCall(s.inc, s.rx[w].place).OnComplete? {
      DropHomeTold(u, DoComplete(s, w), x.h);
    } else {
      assert PostTold(u, x.h);
      CountReadOwn(u, DoComplete(s, w), x.h);
      CountTold(u, DoComplete(s, w), s.rx[w].place, x.h);
    }
  }

  lemma CompleteFinishedTold(s: State, w: Worker, x: Id)
    requires Told(s) && CanComplete(s, w) && s.rx[w].why == Finished(x) && PostsOk(s.posts)
    requires TokensOk(s.rx, s.posts, s.routes, s.counted, s.delivered) && CountedOk(s.counted, s.routes, s.delivered)
    requires IncOk(s.inc, s.posts, s.routes, s.registered, s.delivered)
    requires PopulatedOk(s.inc, s.posts, s.routes) && PendingOk(s.inc, s.posts, s.counted)
    ensures Told(DoComplete(s, w))
  {
    if s.rx[w].place in s.inc {
      FinishedFacts(s, w, x);
      if s.posts[x.h].op.Write? {
        NoneServed(s, x.h);
        CompleteWriteTold(s, w, x);
      } else {
        CompleteReadTold(s, w, x);
      }
    } else {
      CompleteFinishedIs(s, w, x);
      MovedOnTold(s, w, x);
    }
  }

  lemma CompleteTargetIs(s: State, w: Worker, h: PostId)
    requires CanComplete(s, w) && OwesTarget(s.rx[w], h) && s.rx[w].place in s.inc && !s.inc[s.rx[w].place].initiator
    ensures var s' := DoComplete(s, w);
      && Counts1(s, s', s.rx[w].place)
      && s'.rx == s.rx[w := if s.rx[w].ack.Some? then Acking(s.rx[w].ack.value) else Idle]
  {
    CallIs(s.inc, s.rx[w].place);
  }

  lemma CompleteGoneIs(s: State, w: Worker)
    requires CanComplete(s, w) && !s.rx[w].why.Finished? && s.rx[w].place !in s.inc
    ensures DoComplete(s, w) == s.(rx := s.rx[w := if s.rx[w].ack.Some? then Acking(s.rx[w].ack.value) else Idle])
  {
  }

  /** The responder's entry is there. */
  lemma TargetThere(s: State, w: Worker, h: PostId)
    requires PostTold(s, h) && CanComplete(s, w) && OwesTarget(s.rx[w], h) && PostsOk(s.posts)
    requires TokensOk(s.rx, s.posts, s.routes, s.counted, s.delivered)
    requires IncOk(s.inc, s.posts, s.routes, s.registered, s.delivered)
    ensures h in s.posts && s.posts[h].op.Read? && s.rx[w].place == TargetPlace(s.posts[h], h)
    ensures s.rx[w].place in s.inc ==> h in s.registered && !s.inc[s.rx[w].place].initiator
    ensures s.rx[w].why.Served? ==> s.rx[w].place in s.inc
    ensures s.rx[w].why.Served? || !Proper(s.posts[h])
  {
    TargetEntry(s, w, h);
    var k := s.rx[w].place;
    assert k in s.inc ==> IncEntryOk(k, s.inc[k], s.posts, s.routes, s.registered, s.delivered);
    assert s.rx[w].why.Served? ==> OwesServed(s.rx[w], h);
  }

  lemma CompleteTargetTold(s: State, w: Worker, h: PostId)
    requires Told(s) && CanComplete(s, w) && OwesTarget(s.rx[w], h) && PostsOk(s.posts)
    requires TokensOk(s.rx, s.posts, s.routes, s.counted, s.delivered)
    requires IncOk(s.inc, s.posts, s.routes, s.registered, s.delivered)
    ensures Told(DoComplete(s, w))
  {
    var t := if s.rx[w].ack.Some? then Acking(s.rx[w].ack.value) else Idle;
    assert PostTold(s, h);
    TargetThere(s, w, h);
    if s.rx[w].place in s.inc {
      CompleteTargetIs(s, w, h);
      CountTargetTold(s, DoComplete(s, w), w, t, h);
    } else {
      CompleteGoneIs(s, w);
      MoveTold(s, w, t);
    }
  }
}
