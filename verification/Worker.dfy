/**
  * The two queues of a send worker, filled by the engine's thread and emptied by the
  * worker's own: on a stream channel the PostInfo of a locally initiated post is
  * written before any of its data chunks.
  */
module Sending {
  import opened Trackers
  import Layout
  import Protocol

  type PostId = Protocol.PostId

  /** A frame to be sent: the PostInfo of a post, or chunk `i` of one of its requests. */
  datatype Item = Info(h: PostId) | Chunk(h: PostId, r: ReqId, i: nat)

  datatype ChannelKind = Stream | Message

  /** `wire` is what the channel has written; a stream channel is broken after a failed write. */
  datatype Queue = Queue(kind: ChannelKind, infos: seq<Item>, chunks: seq<Item>, wire: seq<Item>, broken: bool)

  function NewQueue(kind: ChannelKind): Queue { Queue(kind, [], [], [], false) }

  function Push(q: Queue, item: Item): Queue {
    if item.Info? then q.(infos := q.infos + [item]) else q.(chunks := q.chunks + [item])
  }

  predicate HasWork(q: Queue) { !q.broken && (q.infos != [] || q.chunks != []) }

  /** One round of SendLoop: infos go first; `ok` is the result of the channel's write. */
  function Send(q: Queue, ok: bool): Queue {
    if !HasWork(q) then q
    else
      var item := if q.infos != [] then q.infos[0] else q.chunks[0];
      var rest := if q.infos != [] then q.(infos := q.infos[1..]) else q.(chunks := q.chunks[1..]);
      if ok then rest.(wire := q.wire + [item]) else rest.(broken := q.kind.Stream?)
  }

  class Worker {
    const kind: ChannelKind
    var infos: seq<Item>
    var chunks: seq<Item>
    var stop: bool
    var broken: bool
    var wire: seq<Item>

    ghost function State(): Queue
      reads this
    {
      Queue(kind, infos, chunks, wire, broken)
    }

    constructor (kind: ChannelKind)
      ensures State() == NewQueue(kind) && !stop
    {
      this.kind := kind;
      infos, chunks, stop, broken, wire := [], [], false, false, [];
    }

    method EnqueueInfo(item: Item)
      requires item.Info?
      modifies this
      ensures State() == Push(old(State()), item) && stop == old(stop)
    {
      infos := infos + [item];
    }

    method EnqueueChunk(item: Item)
      requires item.Chunk?
      modifies this
      ensures State() == Push(old(State()), item) && stop == old(stop)
    {
      chunks := chunks + [item];
    }

    /** The body of SendLoop, once hasSendWork holds; `more` is whether the loop goes on. */
    method SendOnce(ok: bool) returns (more: bool)
      requires !broken && (infos != [] || chunks != [] || stop)
      modifies this
      ensures State() == Send(old(State()), ok) && stop == old(stop)
      ensures more <==> HasWork(old(State())) && (ok || (kind.Message? && !stop))
    {
      var item;
      if infos != [] {
        item := infos[0];
        infos := infos[1..];
      } else if chunks != [] {
        item := chunks[0];
        chunks := chunks[1..];
      } else {
        return false;
      }
      if ok {
        wire := wire + [item];
        return true;
      }
      if kind.Message? {
        return !stop;
      }
      broken := true;
      return false;
    }
  }

  // --- The engine's thread ----------------------------------------------------------------

  datatype Event = Enqueue(w: nat, item: Item) | SendBy(w: nat, ok: bool)

  /**
    * A post to the peer: served reads come without a PostInfo. `counts` has the request
    * ids and their chunk counts, `workers` the number of send workers there are by then.
    */
  datatype Post = Post(h: PostId, local: bool, counts: seq<(ReqId, nat)>, workers: nat)

  function Infos(h: PostId, n: nat): seq<Event> { seq(n, w requires 0 <= w < n => Enqueue(w, Info(h))) }

  /** Chunks go to the workers round-robin. */
  function Chunks(h: PostId, r: ReqId, count: nat, n: nat): seq<Event>
    requires n > 0
  {
    seq(count, i requires 0 <= i < count => Enqueue(i % n, Chunk(h, r, i)))
  }

  function AllChunks(h: PostId, counts: seq<(ReqId, nat)>, n: nat): seq<Event>
    requires n > 0
  {
    if counts == [] then []
    else AllChunks(h, counts[..|counts| - 1], n) + Chunks(h, counts[|counts| - 1].0, counts[|counts| - 1].1, n)
  }

  /** Nothing is done for a post to a peer without workers. */
  function Script(post: Post): seq<Event> {
    if post.workers == 0 then []
    else (if post.local then Infos(post.h, post.workers) else []) + AllChunks(post.h, post.counts, post.workers)
  }

  /** What the engine does for a list of posts, one after the other. */
  function Program(posts: seq<Post>): seq<Event> {
    if posts == [] then [] else Program(posts[..|posts| - 1]) + Script(posts[|posts| - 1])
  }

  /** Engine::process: the calls it makes on the workers, in order. */
  method Process(post: Post) returns (calls: seq<Event>)
    ensures calls == Script(post)
    ensures post.workers == 0 ==> calls == []
    ensures DistinctIds(post.counts) ==> Exactly(post, calls)
  {
    calls := HandOut(post);
    if DistinctIds(post.counts) {
      ScriptExactly(post);
    }
  }

  method HandOut(post: Post) returns (calls: seq<Event>)
    ensures calls == Script(post)
  {
    calls := [];
    var n := post.workers;
    if n == 0 {
      return;
    }
    if post.local {
      var w := 0;
      while w < n
        invariant 0 <= w <= n && calls == Infos(post.h, n)[..w]
      {
        calls := calls + [Enqueue(w, Info(post.h))];
        w := w + 1;
      }
    }
    ghost var infos := calls;
    var j := 0;
    while j < |post.counts|
      invariant 0 <= j <= |post.counts| && calls == infos + AllChunks(post.h, post.counts[..j], n)
    {
      var (r, count) := post.counts[j];
      ghost var before := calls;
      var i := 0;
      while i < count
        invariant 0 <= i <= count && calls == before + Chunks(post.h, r, count, n)[..i]
      {
        calls := calls + [Enqueue(i % n, Chunk(post.h, r, i))];
        i := i + 1;
      }
      assert post.counts[..j + 1][..j] == post.counts[..j];
      j := j + 1;
    }
    assert post.counts[..|post.counts|] == post.counts;
  }

  // --- Exactly the frames of a post -----------------------------------------------------------

  ghost predicate DistinctIds(counts: seq<(ReqId, nat)>) {
    forall i, j :: 0 <= i < j < |counts| ==> counts[i].0 != counts[j].0
  }

  /** Some request with id `r` has a chunk `i`. */
  ghost predicate HasChunk(counts: seq<(ReqId, nat)>, r: ReqId, i: nat) {
    exists j :: 0 <= j < |counts| && counts[j].0 == r && i < counts[j].1
  }

  /** What the workers are due for a post: its PostInfo each, if it is local, and chunk `i` worker `i % workers`. */
  ghost predicate Due(post: Post, e: Event) {
    && e.Enqueue? && e.item.h == post.h && e.w < post.workers
    && match e.item
       case Info(_) => post.local
       case Chunk(_, r, i) => e.w == i % post.workers && HasChunk(post.counts, r, i)
  }

  /** Each frame of the post is handed out once, to the worker it is due, and no other frame is. */
  ghost predicate Exactly(post: Post, calls: seq<Event>) {
    forall e: Event :: multiset(calls)[e] == if Due(post, e) then 1 else 0
  }

  lemma {:induction false} InfosExactly(h: PostId, n: nat, e: Event)
    ensures multiset(Infos(h, n))[e] == if e.Enqueue? && e.item == Info(h) && e.w < n then 1 else 0
  {
    if n > 0 {
      InfosExactly(h, n - 1, e);
      assert Infos(h, n) == Infos(h, n - 1) + [Enqueue(n - 1, Info(h))];
    }
  }

  lemma {:induction false} ChunksExactly(h: PostId, r: ReqId, count: nat, n: nat, e: Event)
    requires n > 0
    ensures multiset(Chunks(h, r, count, n))[e] ==
      if e.Enqueue? && e.item.Chunk? && e.item.h == h && e.item.r == r && e.item.i < count && e.w == e.item.i % n
      then 1 else 0
  {
    if count > 0 {
      ChunksExactly(h, r, count - 1, n, e);
      assert Chunks(h, r, count, n) == Chunks(h, r, count - 1, n) + [Enqueue((count - 1) % n, Chunk(h, r, count - 1))];
    }
  }

  lemma HasChunkMore(counts: seq<(ReqId, nat)>, r: ReqId, i: nat)
    requires counts != []
    ensures var (q, c) := counts[|counts| - 1];
      HasChunk(counts, r, i) <==> HasChunk(counts[..|counts| - 1], r, i) || (q == r && i < c)
  {
    var init := counts[..|counts| - 1];
    if HasChunk(init, r, i) {
      var j :| 0 <= j < |init| && init[j].0 == r && i < init[j].1;
      assert counts[j] == init[j];
    }
    if HasChunk(counts, r, i) {
      var j :| 0 <= j < |counts| && counts[j].0 == r && i < counts[j].1;
      assert j < |init| ==> init[j] == counts[j];
    }
  }

  lemma {:induction false} AllChunksExactly(h: PostId, counts: seq<(ReqId, nat)>, n: nat, e: Event)
    requires n > 0 && DistinctIds(counts)
    ensures multiset(AllChunks(h, counts, n))[e] ==
      if e.Enqueue? && e.item.Chunk? && e.item.h == h && e.w == e.item.i % n && HasChunk(counts, e.item.r, e.item.i)
      then 1 else 0
  {
    if counts != [] {
      var init := counts[..|counts| - 1];
      var (r, c) := counts[|counts| - 1];
      assert DistinctIds(init) by {
        assert forall j :: 0 <= j < |init| ==> init[j] == counts[j];
      }
      AllChunksExactly(h, init, n, e);
      ChunksExactly(h, r, c, n, e);
      if e.Enqueue? && e.item.Chunk? {
        HasChunkMore(counts, e.item.r, e.item.i);
        assert e.item.r == r ==> !HasChunk(init, r, e.item.i) by {
          assert forall j :: 0 <= j < |init| ==> init[j] == counts[j] && init[j].0 != r;
        }
      }
    }
  }

  /** The engine hands out each frame of a post once, to the worker it is due, and no other frame. */
  lemma ScriptExactly(post: Post)
    requires DistinctIds(post.counts)
    ensures Exactly(post, Script(post))
  {
    forall e: Event ensures multiset(Script(post))[e] == if Due(post, e) then 1 else 0 {
      if post.workers > 0 {
        InfosExactly(post.h, post.workers, e);
        AllChunksExactly(post.h, post.counts, post.workers, e);
      }
    }
  }

  /** Posts with different names, each with different request ids. */
  ghost predicate WellNamed(posts: seq<Post>) {
    && (forall i, j :: 0 <= i < j < |posts| ==> posts[i].h != posts[j].h)
    && (forall p <- posts :: DistinctIds(p.counts))
  }

  ghost predicate SomeDue(posts: seq<Post>, e: Event) { exists p :: p in posts && Due(p, e) }

  lemma SomeDueMore(posts: seq<Post>, e: Event)
    requires posts != []
    ensures SomeDue(posts, e) <==> SomeDue(posts[..|posts| - 1], e) || Due(posts[|posts| - 1], e)
  {
    assert posts == posts[..|posts| - 1] + [posts[|posts| - 1]];
  }

  lemma {:induction false} ProgramExactly(posts: seq<Post>, e: Event)
    requires WellNamed(posts)
    ensures multiset(Program(posts))[e] == if SomeDue(posts, e) then 1 else 0
  {
    if posts != [] {
      var init, p := posts[..|posts| - 1], posts[|posts| - 1];
      assert WellNamed(init) by {
        assert forall j :: 0 <= j < |init| ==> init[j] == posts[j];
      }
      ProgramExactly(init, e);
      ScriptExactly(p);
      SomeDueMore(posts, e);
      assert Due(p, e) ==> !SomeDue(init, e) by {
        assert forall j :: 0 <= j < |init| ==> init[j] == posts[j] && init[j].h != p.h;
      }
    }
  }

  /** The chunks handed out for a request are those Layout cuts it into, each to the worker of its job. */
  lemma ChunksAreJobs(h: PostId, r: ReqId, jobs: seq<Layout.ChunkJob>, laddr: nat, raddr: nat, cuts: seq<nat>, n: nat)
    requires n > 0 && |jobs| < |cuts| && Layout.Tiles(jobs, laddr, raddr, cuts) && Layout.RoundRobin(jobs, n)
    ensures var chunks := Chunks(h, r, |jobs|, n);
      && |chunks| == |jobs|
      && forall i :: 0 <= i < |jobs| ==> chunks[i] == Enqueue(jobs[i].worker, Chunk(h, r, jobs[i].index))
  {
    forall i | 0 <= i < |jobs| ensures jobs[i].index == i {
      assert Layout.Covers(jobs[i], i, laddr, raddr, cuts[i], cuts[i + 1]);
    }
  }

  // --- Interleavings ------------------------------------------------------------------------

  /** The engine's share of a run. */
  function Enqueued(events: seq<Event>): seq<Event> {
    if events == [] then []
    else Enqueued(events[..|events| - 1]) + if events[|events| - 1].Enqueue? then [events[|events| - 1]] else []
  }

  function Step(q: Queue, w: nat, e: Event): Queue {
    if e.w != w then q else if e.Enqueue? then Push(q, e.item) else Send(q, e.ok)
  }

  /** Worker `w` after a run of the engine's thread and all send threads. */
  function After(events: seq<Event>, w: nat, kind: ChannelKind): Queue {
    if events == [] then NewQueue(kind) else Step(After(events[..|events| - 1], w, kind), w, events[|events| - 1])
  }

  /** The engine announces a local post to a worker before it hands it any of the chunks. */
  ghost predicate InfoFirst(calls: seq<Event>, local: set<PostId>) {
    forall j :: 0 <= j < |calls| && calls[j].Enqueue? && calls[j].item.Chunk? && calls[j].item.h in local ==>
      Enqueue(calls[j].w, Info(calls[j].item.h)) in calls[..j]
  }

  /** Every chunk of a local post comes after its PostInfo. */
  ghost predicate Ordered(frames: seq<Item>, local: set<PostId>) {
    forall j :: 0 <= j < |frames| && frames[j].Chunk? && frames[j].h in local ==> Info(frames[j].h) in frames[..j]
  }

  lemma {:induction false} AllChunksAre(h: PostId, counts: seq<(ReqId, nat)>, n: nat)
    requires n > 0
    ensures forall e <- AllChunks(h, counts, n) :: e.Enqueue? && e.w < n && e.item.Chunk? && e.item.h == h
  {
    if counts != [] {
      AllChunksAre(h, counts[..|counts| - 1], n);
    }
  }

  lemma InfosAre(h: PostId, n: nat, w: nat)
    requires w < n
    ensures Enqueue(w, Info(h)) in Infos(h, n)
  {
    assert Infos(h, n)[w] == Enqueue(w, Info(h));
  }

  lemma ScriptInfoFirst(post: Post, before: seq<Event>, local: set<PostId>)
    requires InfoFirst(before, local) && (post.h in local ==> post.local)
    ensures InfoFirst(before + Script(post), local)
  {
    var n, script := post.workers, Script(post);
    var calls := before + script;
    if n > 0 {
      AllChunksAre(post.h, post.counts, n);
    }
    forall j | 0 <= j < |calls| && calls[j].Enqueue? && calls[j].item.Chunk? && calls[j].item.h in local
      ensures Enqueue(calls[j].w, Info(calls[j].item.h)) in calls[..j]
    {
      if j < |before| {
        assert calls[..j] == before[..j];
      } else {
        assert calls[j] == script[j - |before|];
        var infos := Infos(post.h, n);
        assert calls[j] in AllChunks(post.h, post.counts, n);
        InfosAre(post.h, n, calls[j].w);
        assert calls[..j] == before + infos + calls[|before| + |infos|..j];
      }
    }
  }

  lemma {:induction false} ProgramInfoFirst(posts: seq<Post>, local: set<PostId>)
    requires forall p <- posts :: p.h in local ==> p.local
    ensures InfoFirst(Program(posts), local)
  {
    if posts != [] {
      ProgramInfoFirst(posts[..|posts| - 1], local);
      ScriptInfoFirst(posts[|posts| - 1], Program(posts[..|posts| - 1]), local);
    }
  }

  /** What a worker's queue says about what was handed to it. */
  ghost predicate QueueOk(q: Queue, w: nat, calls: seq<Event>, local: set<PostId>) {
    && Ordered(q.wire, local)
    && (forall h: PostId :: Enqueue(w, Info(h)) in calls ==> q.broken || Info(h) in q.infos || Info(h) in q.wire)
    && (forall item <- q.infos :: item.Info?)
    && (forall c <- q.chunks :: c.Chunk? && (c.h in local ==> Enqueue(w, Info(c.h)) in calls))
  }

  lemma OrderedAppend(frames: seq<Item>, item: Item, local: set<PostId>)
    requires Ordered(frames, local) && (item.Chunk? && item.h in local ==> Info(item.h) in frames)
    ensures Ordered(frames + [item], local)
  {
    var more := frames + [item];
    forall j | 0 <= j < |more| && more[j].Chunk? && more[j].h in local ensures Info(more[j].h) in more[..j] {
      assert more[..j] == frames[..j];
      assert frames[..|frames|] == frames;
    }
  }

  lemma SendOk(q: Queue, ok: bool, w: nat, calls: seq<Event>, local: set<PostId>)
    requires QueueOk(q, w, calls, local) && q.kind.Stream?
    ensures QueueOk(Send(q, ok), w, calls, local)
  {
    if HasWork(q) {
      if q.infos != [] {
        assert q.infos == [q.infos[0]] + q.infos[1..];
        assert q.infos[0] in q.infos;
        OrderedAppend(q.wire, q.infos[0], local);
      } else {
        assert q.chunks == [q.chunks[0]] + q.chunks[1..];
        assert q.chunks[0] in q.chunks;
        OrderedAppend(q.wire, q.chunks[0], local);
      }
    }
  }

  lemma PushOk(q: Queue, e: Event, w: nat, calls: seq<Event>, local: set<PostId>)
    requires QueueOk(q, w, calls, local) && e.Enqueue? && InfoFirst(calls + [e], local)
    ensures QueueOk(Step(q, w, e), w, calls + [e], local)
  {
    assert (calls + [e])[..|calls|] == calls && (calls + [e])[|calls|] == e;
  }

  lemma StepKind(q: Queue, w: nat, e: Event)
    ensures Step(q, w, e).kind == q.kind
  {
  }

  lemma {:induction false} AfterOk(events: seq<Event>, w: nat, local: set<PostId>)
    requires InfoFirst(Enqueued(events), local)
    ensures QueueOk(After(events, w, Stream), w, Enqueued(events), local) && After(events, w, Stream).kind == Stream
  {
    if events != [] {
      var init, e := events[..|events| - 1], events[|events| - 1];
      var q := After(init, w, Stream);
      if e.Enqueue? {
        PrefixInfoFirst(Enqueued(events), Enqueued(init), local);
        AfterOk(init, w, local);
        PushOk(q, e, w, Enqueued(init), local);
      } else {
        assert Enqueued(events) == Enqueued(init);
        AfterOk(init, w, local);
        SendOk(q, e.ok, w, Enqueued(init), local);
      }
      StepKind(q, w, e);
    }
  }

  lemma PrefixInfoFirst(calls: seq<Event>, prefix: seq<Event>, local: set<PostId>)
    requires InfoFirst(calls, local) && prefix <= calls
    ensures InfoFirst(prefix, local)
  {
    forall j | 0 <= j < |prefix| && prefix[j].Enqueue? && prefix[j].item.Chunk? && prefix[j].item.h in local
      ensures Enqueue(prefix[j].w, Info(prefix[j].item.h)) in prefix[..j]
    {
      assert calls[j] == prefix[j] && calls[..j] == prefix[..j];
    }
  }

  /**
    * However the send threads interleave with the engine's thread and whenever a write
    * fails, a stream channel carries the PostInfo of a local post before its chunks; so
    * does every prefix of it that the peer has read.
    */
  lemma StreamOrder(posts: seq<Post>, local: set<PostId>, events: seq<Event>, w: nat, read: seq<Item>)
    requires forall p <- posts :: p.h in local ==> p.local
    requires Enqueued(events) <= Program(posts)
    requires read <= After(events, w, Stream).wire
    ensures Ordered(read, local)
  {
    ProgramInfoFirst(posts, local);
    PrefixInfoFirst(Program(posts), Enqueued(events), local);
    AfterOk(events, w, local);
    var wire := After(events, w, Stream).wire;
    forall j | 0 <= j < |read| && read[j].Chunk? && read[j].h in local ensures Info(read[j].h) in read[..j] {
      assert wire[j] == read[j] && wire[..j] == read[..j];
    }
  }

  // --- Nothing is lost or repeated ---------------------------------------------------------------

  function OfKind(items: seq<Item>, info: bool): seq<Item> {
    if items == [] then []
    else OfKind(items[..|items| - 1], info) + if items[|items| - 1].Info? == info then [items[|items| - 1]] else []
  }

  /** What the engine handed to `w`. */
  function Handed(events: seq<Event>, w: nat): seq<Item> {
    if events == [] then []
    else
      var e := events[|events| - 1];
      Handed(events[..|events| - 1], w) + if e.Enqueue? && e.w == w then [e.item] else []
  }

  lemma OfKindAppend(items: seq<Item>, item: Item, info: bool)
    ensures OfKind(items + [item], info) == OfKind(items, info) + if item.Info? == info then [item] else []
  {
    assert (items + [item])[..|items|] == items;
  }

  predicate IsPrefix(a: seq<Item>, b: seq<Item>) { |a| <= |b| && b[..|a|] == a }

  /** One of the two queues: what came in is what went out and what is left, unless a write failed. */
  predicate Conserves(handed: seq<Item>, wire: seq<Item>, left: seq<Item>, info: bool, broken: bool) {
    && (forall item <- left :: item.Info? == info)
    && IsPrefix(OfKind(wire, info), OfKind(handed, info))
    && (!broken ==> OfKind(handed, info) == OfKind(wire, info) + left)
  }

  lemma PushConserves(handed: seq<Item>, q: Queue, item: Item, info: bool)
    requires Conserves(handed, q.wire, if info then q.infos else q.chunks, info, q.broken)
    ensures var q' := Push(q, item);
      Conserves(handed + [item], q.wire, if info then q'.infos else q'.chunks, info, q.broken)
  {
    OfKindAppend(handed, item, info);
    PrefixAppend(OfKind(q.wire, info), if info then q.infos else q.chunks, OfKind(handed, info),
                 if item.Info? == info then [item] else []);
  }

  lemma PrefixAppend(a: seq<Item>, left: seq<Item>, b: seq<Item>, more: seq<Item>)
    requires IsPrefix(a, b)
    ensures IsPrefix(a, b + more)
    ensures b == a + left ==> b + more == a + (left + more)
  {
  }

  /** The frame sent comes from this queue. */
  lemma OwnConserves(handed: seq<Item>, wire: seq<Item>, left: seq<Item>, info: bool)
    requires left != [] && Conserves(handed, wire, left, info, false)
    ensures Conserves(handed, wire + [left[0]], left[1..], info, false)
    ensures Conserves(handed, wire, left[1..], info, true)
  {
    assert left[0] in left;
    OfKindAppend(wire, left[0], info);
    assert left == [left[0]] + left[1..];
    assert OfKind(handed, info) == OfKind(wire + [left[0]], info) + left[1..];
  }

  /** It comes from the other. */
  lemma OtherConserves(handed: seq<Item>, wire: seq<Item>, left: seq<Item>, item: Item, info: bool)
    requires item.Info? != info && Conserves(handed, wire, left, info, false)
    ensures Conserves(handed, wire + [item], left, info, false) && Conserves(handed, wire, left, info, true)
  {
    OfKindAppend(wire, item, info);
  }

  ghost predicate Fifo(q: Queue, handed: seq<Item>) {
    && Conserves(handed, q.wire, q.infos, true, q.broken)
    && Conserves(handed, q.wire, q.chunks, false, q.broken)
  }

  lemma SendFifo(handed: seq<Item>, q: Queue, ok: bool)
    requires Fifo(q, handed) && HasWork(q) && q.kind.Stream?
    ensures Fifo(Send(q, ok), handed)
  {
    if q.infos != [] {
      assert q.infos[0] in q.infos;
      OwnConserves(handed, q.wire, q.infos, true);
      OtherConserves(handed, q.wire, q.chunks, q.infos[0], false);
    } else {
      assert q.chunks[0] in q.chunks;
      OwnConserves(handed, q.wire, q.chunks, false);
      OtherConserves(handed, q.wire, q.infos, q.chunks[0], true);
    }
  }

  /** On a stream, chunks leave in the order they came and infos likewise, none repeated, none lost before a failure. */
  lemma {:induction false} FirstInFirstOut(events: seq<Event>, w: nat)
    ensures After(events, w, Stream).kind == Stream && Fifo(After(events, w, Stream), Handed(events, w))
  {
    if events != [] {
      FirstInFirstOut(events[..|events| - 1], w);
      var handed := Handed(events[..|events| - 1], w);
      var q := After(events[..|events| - 1], w, Stream);
      var e := events[|events| - 1];
      StepKind(q, w, e);
      if e.Enqueue? && e.w == w {
        PushConserves(handed, q, e.item, true);
        PushConserves(handed, q, e.item, false);
      } else {
        assert Handed(events, w) == handed;
        if e.w == w && HasWork(q) {
          SendFifo(handed, q, e.ok);
        }
      }
    }
  }

  // --- Every frame, once ---------------------------------------------------------------------------

  lemma {:induction false} HandedCounts(events: seq<Event>, w: nat, item: Item)
    ensures multiset(Handed(events, w))[item] == multiset(Enqueued(events))[Enqueue(w, item)]
  {
    if events != [] {
      HandedCounts(events[..|events| - 1], w, item);
    }
  }

  /** Once the engine has processed these posts, a worker has been handed each frame due to it once, and no other. */
  lemma HandedExactly(posts: seq<Post>, events: seq<Event>, w: nat, item: Item)
    requires WellNamed(posts) && Enqueued(events) == Program(posts)
    ensures multiset(Handed(events, w))[item] == if SomeDue(posts, Enqueue(w, item)) then 1 else 0
  {
    HandedCounts(events, w, item);
    ProgramExactly(posts, Enqueue(w, item));
  }

  lemma {:induction false} KindsPartition(items: seq<Item>, item: Item)
    ensures multiset(items)[item] == multiset(OfKind(items, item.Info?))[item]
  {
    if items != [] {
      KindsPartition(items[..|items| - 1], item);
      assert items == items[..|items| - 1] + [items[|items| - 1]];
    }
  }

  /**
    * When a stream has not failed and its queues are empty, it has carried each frame due to
    * its worker exactly once, and no other frame: chunk `i` of a request on stream
    * `i % workers`, and the PostInfo of a local post on every stream.
    */
  lemma CarriedExactly(posts: seq<Post>, events: seq<Event>, w: nat, item: Item)
    requires WellNamed(posts) && Enqueued(events) == Program(posts)
    requires var q := After(events, w, Stream); !q.broken && q.infos == [] && q.chunks == []
    ensures multiset(After(events, w, Stream).wire)[item] == if SomeDue(posts, Enqueue(w, item)) then 1 else 0
  {
    var q, handed := After(events, w, Stream), Handed(events, w);
    FirstInFirstOut(events, w);
    HandedExactly(posts, events, w, item);
    KindsPartition(q.wire, item);
    KindsPartition(handed, item);
    assert OfKind(handed, item.Info?) == OfKind(q.wire, item.Info?);
  }
}
