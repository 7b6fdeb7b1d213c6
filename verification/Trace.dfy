/**
  * Rendering traced posts as slices on tracks: on every track any two slices are
  * disjoint or nested, whatever the recorded timestamps are.
  */
module TraceRendering {
  // --- Timelines: stage timestamps, 0 if a stage was not captured -------------------------

  datatype Chunk = Chunk(index: nat, sendWorker: int, recvWorker: int, enqueued: nat, dequeued: nat, txDone: nat,
                         ack: nat, rxAcquire: nat, rxPayload: nat)

  datatype Request = Request(dequeued: nat, chunks: seq<Chunk>)

  datatype Mode = Unknown | Callback | Poll

  datatype Post = Post(entry: nat, enqueued: nat, connStart: nat, hostInfoDone: nat, connDone: nat,
                       allDone: nat, allDoneWorker: int, completed: nat, mode: Mode, requests: seq<Request>)

  function Max(a: nat, b: nat): nat { if a < b then b else a }

  function Elapsed(start: nat, end: nat): nat { if start > 0 && end > start then end - start else 0 }

  function Clamp(dur: nat): (d: nat)
    ensures d >= 1 && d >= dur
  {
    Max(1, dur)
  }

  function ClampedElapsed(start: nat, end: nat): nat { Clamp(Elapsed(start, end)) }

  function EngineStart(p: Post): nat {
    if p.connStart > 0 then p.connStart else if p.requests == [] then 0 else p.requests[0].dequeued
  }

  function SendWorkerIdx(c: Chunk): int { if c.sendWorker > 0 then c.sendWorker else c.index + 1 }

  function RecvWorkerIdx(c: Chunk): int { if c.recvWorker < 0 then -c.recvWorker else SendWorkerIdx(c) }

  function AckWorkerIdx(worker: int): (i: int)
    ensures i >= 1
  {
    var a := if worker < 0 then -worker else worker;
    if a < 1 then 1 else a
  }

  // --- Tracks and slices ---------------------------------------------------------------------

  datatype Track = Caller | Engine | SendTrack(i: int) | RecvTrack(i: int) | AckTrack(i: int)

  function Pid(t: Track): int { if t.RecvTrack? then 2 else 1 }

  function Tid(t: Track): int {
    match t
    case Caller => 1
    case Engine => 2
    case SendTrack(i) => 100 + i
    case RecvTrack(i) => 200 + i
    case AckTrack(i) => 300 + i
  }

  const MAX_SEND_WORKER := 200

  predicate ValidTrack(t: Track) {
    (t.SendTrack? ==> 1 <= t.i <= MAX_SEND_WORKER) && (t.AckTrack? ==> t.i >= 1)
  }

  /** Within these bounds no two tracks share a pid and tid. */
  lemma TracksDistinct(a: Track, b: Track)
    requires ValidTrack(a) && ValidTrack(b) && Pid(a) == Pid(b) && Tid(a) == Tid(b)
    ensures a == b
  {
  }

  /** What a slice shows. */
  datatype Stage =
    | PostCall | QueueWait | ConnSetup | HostLookup | ConnectCalls | Fanout
    | WorkerQueue | Transmit | Receive | AcquireWait | PayloadRead | AckReceipt
    | OnComplete | PollDelay | PollCall

  datatype Slice = Slice(track: Track, stage: Stage, start: nat, dur: nat)

  predicate Disjoint(a: Slice, b: Slice) { a.start + a.dur <= b.start || b.start + b.dur <= a.start }

  predicate Contains(a: Slice, b: Slice) { a.start <= b.start && b.start + b.dur <= a.start + a.dur }

  predicate Compatible(a: Slice, b: Slice) { Disjoint(a, b) || Contains(a, b) || Contains(b, a) }

  /** Per track, where its last slice ends. */
  type Ends = map<Track, nat>

  function EndOf(ends: Ends, t: Track): nat { if t in ends then ends[t] else 0 }

  /** A well-formed slice that ends by `end`. */
  predicate EndsBy(s: Slice, end: nat) { ValidTrack(s.track) && s.dur >= 1 && s.start + s.dur <= end }

  ghost predicate Tidy(slices: seq<Slice>, ends: Ends) {
    && (forall s <- slices :: EndsBy(s, EndOf(ends, s.track)))
    && (forall i, j :: 0 <= i < j < |slices| && slices[i].track == slices[j].track ==>
          Compatible(slices[i], slices[j]))
  }

  /** No end marker goes back. */
  ghost predicate Grows(ends: Ends, ends': Ends) { forall t: Track :: EndOf(ends, t) <= EndOf(ends', t) }

  /** Slices of one track that start where the track has ended so far and agree among themselves. */
  ghost predicate GroupOk(group: seq<Slice>, t: Track, start: nat, end: nat) {
    && start <= end
    && (forall s <- group :: s.track == t && s.start >= start && EndsBy(s, end))
    && (forall i, j :: 0 <= i < j < |group| ==> Compatible(group[i], group[j]))
  }

  lemma AddGroup(slices: seq<Slice>, ends: Ends, group: seq<Slice>, t: Track, end: nat)
    requires Tidy(slices, ends) && GroupOk(group, t, EndOf(ends, t), end)
    ensures Tidy(slices + group, ends[t := end]) && Grows(ends, ends[t := end])
  {
    var all := slices + group;
    forall s | s in all ensures EndsBy(s, EndOf(ends[t := end], s.track)) {
    }
    forall i, j | 0 <= i < j < |all| && all[i].track == all[j].track ensures Compatible(all[i], all[j]) {
      if i < |slices| <= j {
        assert all[i] in slices && all[j] in group;
      } else if |slices| <= i {
        assert all[i] == group[i - |slices|] && all[j] == group[j - |slices|];
      }
    }
  }

  lemma TwoSlices(a: Slice, b: Slice, start: nat, end: nat)
    requires a.track == b.track && start <= a.start && start <= b.start && Compatible(a, b)
    requires EndsBy(a, end) && EndsBy(b, end)
    ensures GroupOk([a, b], a.track, start, end)
  {
  }

  lemma ThreeSlices(a: Slice, b: Slice, c: Slice, start: nat, end: nat)
    requires a.track == b.track == c.track && start <= a.start && start <= b.start && start <= c.start
    requires EndsBy(a, end) && EndsBy(b, end) && EndsBy(c, end)
    requires Compatible(a, b) && Compatible(a, c) && Compatible(b, c)
    ensures GroupOk([a, b, c], a.track, start, end)
  {
  }

  // --- What each stage draws -----------------------------------------------------------------------

  /** The slices a stage adds to a track, and where the track ends then. */
  datatype Group = Group(track: Track, slices: seq<Slice>, end: nat)

  ghost predicate Fits(g: Group, end: nat) { GroupOk(g.slices, g.track, end, g.end) }

  function PostGroup(p: Post, end: nat): Group {
    var entry := Max(p.entry, end);
    var dur := ClampedElapsed(entry, p.enqueued);
    Group(Caller, [Slice(Caller, PostCall, entry, dur)], entry + dur)
  }

  /** The wait in the engine's queue, drawn if there was any. */
  function QueueGroup(p: Post, callerEnd: nat, end: nat): Group {
    var start := Max(callerEnd, end);
    var cur := Max(start, EngineStart(p));
    if cur > start || Elapsed(p.enqueued, EngineStart(p)) > 0
    then Group(Engine, [Slice(Engine, QueueWait, start, Clamp(cur - start))], start + Clamp(cur - start))
    else Group(Engine, [], cur)
  }

  /** Connection setup, with the host lookup and the connects inside it where they fit. */
  function ConnGroup(p: Post, end: nat): Group {
    var dur := ClampedElapsed(end, p.connDone);
    var info := Elapsed(p.connStart, p.hostInfoDone);
    var connect := Elapsed(Max(p.connStart, p.hostInfoDone), p.connDone);
    Group(Engine,
          [Slice(Engine, ConnSetup, end, dur)] +
          (if 0 < info <= dur then [Slice(Engine, HostLookup, end, info)] else []) +
          (if connect > 0 && info + connect <= dur then [Slice(Engine, ConnectCalls, end + info, connect)] else []),
          end + dur)
  }

  function LastEnqueued(chunks: seq<Chunk>): nat {
    if chunks == [] then 0 else Max(LastEnqueued(chunks[..|chunks| - 1]), chunks[|chunks| - 1].enqueued)
  }

  function FanoutStart(r: Request, end: nat): nat { Max(end, r.dequeued) }

  function FanoutGroup(r: Request, end: nat): Group {
    var start := FanoutStart(r, end);
    var dur := ClampedElapsed(start, LastEnqueued(r.chunks));
    Group(Engine, [Slice(Engine, Fanout, start, dur)], start + dur)
  }

  function QueueStart(c: Chunk, fanout: nat, end: nat): nat {
    Max(if c.enqueued > 0 then Max(c.enqueued, fanout) else fanout, end)
  }

  function QueueDur(c: Chunk, fanout: nat, end: nat): nat {
    Elapsed(QueueStart(c, fanout, end), Max(QueueStart(c, fanout, end), c.dequeued))
  }

  predicate Queued(c: Chunk, fanout: nat, end: nat) {
    QueueDur(c, fanout, end) > 0 || Elapsed(c.enqueued, c.dequeued) > 0
  }

  /** When the drawn wait of a chunk is over. */
  function Dequeued(c: Chunk, fanout: nat, end: nat): nat {
    if Queued(c, fanout, end) then QueueStart(c, fanout, end) + Clamp(QueueDur(c, fanout, end))
    else Max(QueueStart(c, fanout, end), c.dequeued)
  }

  function SendGroup(c: Chunk, fanout: nat, end: nat): Group {
    var track := SendTrack(SendWorkerIdx(c));
    var dequeued := Dequeued(c, fanout, end);
    var dur := Clamp(Elapsed(c.dequeued, c.txDone));
    Group(track,
          (if Queued(c, fanout, end)
           then [Slice(track, WorkerQueue, QueueStart(c, fanout, end), Clamp(QueueDur(c, fanout, end)))] else []) +
          [Slice(track, Transmit, dequeued, dur)],
          dequeued + dur)
  }

  function AckTime(c: Chunk, dequeued: nat, txDone: nat): nat {
    if c.ack >= txDone then c.ack else Max(txDone, dequeued + Elapsed(c.dequeued, c.ack))
  }

  /** What remains of the round trip beside the receiver's times, whose sum is a 32-bit one. */
  function Transit(c: Chunk, dequeued: nat, ack: nat): nat {
    var total := (c.rxAcquire + c.rxPayload) % 0x1_0000_0000;
    var rtt := if ack > dequeued then ack - dequeued else Clamp(total);
    if rtt > total then rtt - total else 0
  }

  /** The receiver's side, inferred from the times on the acknowledgement. */
  function RecvGroup(c: Chunk, dequeued: nat, ack: nat, end: nat): Group {
    var track := RecvTrack(RecvWorkerIdx(c));
    var start := Max(dequeued + Transit(c, dequeued, ack) / 2, end);
    var acquire, read := Clamp(c.rxAcquire), Clamp(c.rxPayload);
    Group(track,
          [Slice(track, Receive, start, acquire + read), Slice(track, AcquireWait, start, acquire),
           Slice(track, PayloadRead, start + acquire, read)],
          start + acquire + read)
  }

  function AckGroup(c: Chunk, ack: nat, end: nat): Group {
    var track := AckTrack(SendWorkerIdx(c));
    var start := Max(end, if ack > 1 then ack - 1 else ack);
    var dur := if ack >= start then ack - start + 1 else 1;
    Group(track, [Slice(track, AckReceipt, start, dur)], start + dur)
  }

  function CallbackGroup(p: Post, end: nat): Group {
    var track := AckTrack(AckWorkerIdx(p.allDoneWorker));
    var start := Max(p.allDone, end);
    var dur := ClampedElapsed(start, p.completed);
    Group(track, [Slice(track, OnComplete, start, dur)], start + dur)
  }

  function PollGroup(p: Post, ackEnd: nat, end: nat): Group {
    var start := Max(Max(p.allDone, ackEnd), end);
    var completed := Max(start, p.completed);
    var wait := Elapsed(start, completed);
    Group(Caller,
          (if wait > 0 then [Slice(Caller, PollDelay, start, wait)] else []) + [Slice(Caller, PollCall, completed, 1)],
          completed + 1)
  }

  // --- Every group fits its track -------------------------------------------------------------------

  predicate ValidChunk(c: Chunk) { 1 <= SendWorkerIdx(c) <= MAX_SEND_WORKER }

  predicate ValidRequest(r: Request) { forall c <- r.chunks :: ValidChunk(c) }

  predicate ValidPost(p: Post) { forall r <- p.requests :: ValidRequest(r) }

  lemma PostGroupsFit(p: Post, r: Request, callerEnd: nat, end: nat)
    ensures Fits(PostGroup(p, callerEnd), callerEnd) && Fits(QueueGroup(p, callerEnd, end), end)
    ensures Fits(FanoutGroup(r, end), end) && Fits(CallbackGroup(p, end), end)
  {
  }

  lemma ConnGroupFits(p: Post, end: nat)
    ensures Fits(ConnGroup(p, end), end)
  {
    var g := ConnGroup(p, end);
    var dur := ClampedElapsed(end, p.connDone);
    var info := Elapsed(p.connStart, p.hostInfoDone);
    var connect := Elapsed(Max(p.connStart, p.hostInfoDone), p.connDone);
    var a, b := Slice(Engine, ConnSetup, end, dur), Slice(Engine, HostLookup, end, info);
    var c := Slice(Engine, ConnectCalls, end + info, connect);
    if 0 < info <= dur {
      if connect > 0 && info + connect <= dur {
        assert g.slices == [a, b, c];
        ThreeSlices(a, b, c, end, end + dur);
      } else {
        assert g.slices == [a, b];
        TwoSlices(a, b, end, end + dur);
      }
    } else if connect > 0 && info + connect <= dur {
      assert g.slices == [a, c];
      TwoSlices(a, c, end, end + dur);
    } else {
      assert g.slices == [a];
    }
  }

  lemma SendGroupFits(c: Chunk, fanout: nat, end: nat)
    requires ValidChunk(c)
    ensures Fits(SendGroup(c, fanout, end), end)
  {
    var g := SendGroup(c, fanout, end);
    if Queued(c, fanout, end) {
      TwoSlices(g.slices[0], g.slices[1], end, g.end);
      assert g.slices == [g.slices[0], g.slices[1]];
    }
  }

  lemma RecvGroupFits(c: Chunk, dequeued: nat, ack: nat, end: nat)
    requires ValidChunk(c)
    ensures Fits(RecvGroup(c, dequeued, ack, end), end) && Fits(AckGroup(c, ack, end), end)
  {
    var g := RecvGroup(c, dequeued, ack, end);
    ThreeSlices(g.slices[0], g.slices[1], g.slices[2], end, g.end);
  }

  lemma PollGroupFits(p: Post, ackEnd: nat, end: nat)
    ensures Fits(PollGroup(p, ackEnd, end), end)
  {
    var g := PollGroup(p, ackEnd, end);
    if |g.slices| == 2 {
      TwoSlices(g.slices[0], g.slices[1], end, g.end);
      assert g.slices == [g.slices[0], g.slices[1]];
    }
  }

  // --- Whole posts ------------------------------------------------------------------------------------

  datatype Picture = Picture(slices: seq<Slice>, ends: Ends)

  function Draw(o: Picture, g: Group): Picture { Picture(o.slices + g.slices, o.ends[g.track := g.end]) }

  function DrawAck(o: Picture, c: Chunk, dequeued: nat, txDone: nat): Picture {
    if c.ack == 0 then o
    else
      var ack := AckTime(c, dequeued, txDone);
      var o := Draw(o, RecvGroup(c, dequeued, ack, EndOf(o.ends, RecvTrack(RecvWorkerIdx(c)))));
      Draw(o, AckGroup(c, ack, EndOf(o.ends, AckTrack(SendWorkerIdx(c)))))
  }

  function DrawChunk(o: Picture, c: Chunk, fanout: nat): Picture {
    var end := EndOf(o.ends, SendTrack(SendWorkerIdx(c)));
    var g := SendGroup(c, fanout, end);
    DrawAck(Draw(o, g), c, Dequeued(c, fanout, end), g.end)
  }

  function DrawChunks(o: Picture, chunks: seq<Chunk>, fanout: nat): Picture {
    if chunks == [] then o
    else DrawChunk(DrawChunks(o, chunks[..|chunks| - 1], fanout), chunks[|chunks| - 1], fanout)
  }

  function DrawRequest(o: Picture, r: Request): Picture {
    var end := EndOf(o.ends, Engine);
    DrawChunks(Draw(o, FanoutGroup(r, end)), r.chunks, FanoutStart(r, end))
  }

  function DrawRequests(o: Picture, rs: seq<Request>): Picture {
    if rs == [] then o else DrawRequest(DrawRequests(o, rs[..|rs| - 1]), rs[|rs| - 1])
  }

  function DrawCompletion(o: Picture, p: Post): Picture {
    var ackEnd := EndOf(o.ends, AckTrack(AckWorkerIdx(p.allDoneWorker)));
    if p.allDone == 0 || p.mode.Unknown? then o
    else if p.mode.Callback? then Draw(o, CallbackGroup(p, ackEnd))
    else Draw(o, PollGroup(p, ackEnd, EndOf(o.ends, Caller)))
  }

  function DrawHead(o: Picture, p: Post): Picture {
    var o := Draw(o, PostGroup(p, EndOf(o.ends, Caller)));
    var o := Draw(o, QueueGroup(p, EndOf(o.ends, Caller), EndOf(o.ends, Engine)));
    if p.connStart == 0 && p.connDone == 0 then o else Draw(o, ConnGroup(p, EndOf(o.ends, Engine)))
  }

  function DrawPost(o: Picture, p: Post): Picture { DrawCompletion(DrawRequests(DrawHead(o, p), p.requests), p) }

  const EMPTY := Picture([], map[])

  function Drawn(posts: seq<Post>): Picture {
    if posts == [] then EMPTY else DrawPost(Drawn(posts[..|posts| - 1]), posts[|posts| - 1])
  }

  // --- Pictures stay tidy and end markers never go back --------------------------------------------------

  ghost predicate Extends(o: Picture, o': Picture) {
    Tidy(o'.slices, o'.ends) && Grows(o.ends, o'.ends) && o.slices <= o'.slices
  }

  lemma DrawExtends(o: Picture, g: Group)
    requires Tidy(o.slices, o.ends) && Fits(g, EndOf(o.ends, g.track))
    ensures Extends(o, Draw(o, g))
  {
    AddGroup(o.slices, o.ends, g.slices, g.track, g.end);
  }

  lemma ExtendsOn(a: Picture, b: Picture, c: Picture)
    requires Extends(a, b) && Extends(b, c)
    ensures Extends(a, c)
  {
  }

  lemma ChunkExtends(o: Picture, c: Chunk, fanout: nat)
    requires Tidy(o.slices, o.ends) && ValidChunk(c)
    ensures Extends(o, DrawChunk(o, c, fanout))
  {
    var end := EndOf(o.ends, SendTrack(SendWorkerIdx(c)));
    var g := SendGroup(c, fanout, end);
    SendGroupFits(c, fanout, end);
    DrawExtends(o, g);
    AckExtends(Draw(o, g), c, Dequeued(c, fanout, end), g.end);
    ExtendsOn(o, Draw(o, g), DrawChunk(o, c, fanout));
  }

  lemma AckExtends(o: Picture, c: Chunk, dequeued: nat, txDone: nat)
    requires Tidy(o.slices, o.ends) && ValidChunk(c)
    ensures Extends(o, DrawAck(o, c, dequeued, txDone))
  {
    if c.ack != 0 {
      var ack := AckTime(c, dequeued, txDone);
      var end := EndOf(o.ends, RecvTrack(RecvWorkerIdx(c)));
      RecvGroupFits(c, dequeued, ack, end);
      var o1 := Draw(o, RecvGroup(c, dequeued, ack, end));
      DrawExtends(o, RecvGroup(c, dequeued, ack, end));
      var ackEnd := EndOf(o1.ends, AckTrack(SendWorkerIdx(c)));
      RecvGroupFits(c, dequeued, ack, ackEnd);
      DrawExtends(o1, AckGroup(c, ack, ackEnd));
      ExtendsOn(o, o1, Draw(o1, AckGroup(c, ack, ackEnd)));
    }
  }

  lemma {:induction false} ChunksExtend(o: Picture, chunks: seq<Chunk>, fanout: nat)
    requires Tidy(o.slices, o.ends) && forall c <- chunks :: ValidChunk(c)
    ensures Extends(o, DrawChunks(o, chunks, fanout))
  {
    if chunks != [] {
      var o1 := DrawChunks(o, chunks[..|chunks| - 1], fanout);
      ChunksExtend(o, chunks[..|chunks| - 1], fanout);
      ChunkExtends(o1, chunks[|chunks| - 1], fanout);
      ExtendsOn(o, o1, DrawChunks(o, chunks, fanout));
    }
  }

  lemma RequestExtends(o: Picture, r: Request)
    requires Tidy(o.slices, o.ends) && ValidRequest(r)
    ensures Extends(o, DrawRequest(o, r))
  {
    var end := EndOf(o.ends, Engine);
    var o1 := Draw(o, FanoutGroup(r, end));
    PostGroupsFit(Post(0, 0, 0, 0, 0, 0, 0, 0, Unknown, []), r, 0, end);
    DrawExtends(o, FanoutGroup(r, end));
    ChunksExtend(o1, r.chunks, FanoutStart(r, end));
    ExtendsOn(o, o1, DrawRequest(o, r));
  }

  lemma {:induction false} RequestsExtend(o: Picture, rs: seq<Request>)
    requires Tidy(o.slices, o.ends) && forall r <- rs :: ValidRequest(r)
    ensures Extends(o, DrawRequests(o, rs))
  {
    if rs != [] {
      var o1 := DrawRequests(o, rs[..|rs| - 1]);
      RequestsExtend(o, rs[..|rs| - 1]);
      RequestExtends(o1, rs[|rs| - 1]);
      ExtendsOn(o, o1, DrawRequests(o, rs));
    }
  }

  lemma HeadExtends(o: Picture, p: Post)
    requires Tidy(o.slices, o.ends)
    ensures Extends(o, DrawHead(o, p))
  {
    var r := Request(0, []);
    PostGroupsFit(p, r, EndOf(o.ends, Caller), 0);
    var o1 := Draw(o, PostGroup(p, EndOf(o.ends, Caller)));
    DrawExtends(o, PostGroup(p, EndOf(o.ends, Caller)));
    PostGroupsFit(p, r, EndOf(o1.ends, Caller), EndOf(o1.ends, Engine));
    var queue := QueueGroup(p, EndOf(o1.ends, Caller), EndOf(o1.ends, Engine));
    var o2 := Draw(o1, queue);
    DrawExtends(o1, queue);
    ExtendsOn(o, o1, o2);
    if !(p.connStart == 0 && p.connDone == 0) {
      ConnGroupFits(p, EndOf(o2.ends, Engine));
      DrawExtends(o2, ConnGroup(p, EndOf(o2.ends, Engine)));
      ExtendsOn(o, o2, DrawHead(o, p));
    }
  }

  lemma CompletionExtends(o: Picture, p: Post)
    requires Tidy(o.slices, o.ends)
    ensures Extends(o, DrawCompletion(o, p))
  {
    var ackEnd := EndOf(o.ends, AckTrack(AckWorkerIdx(p.allDoneWorker)));
    if p.allDone != 0 && p.mode.Callback? {
      PostGroupsFit(p, Request(0, []), 0, ackEnd);
      DrawExtends(o, CallbackGroup(p, ackEnd));
    } else if p.allDone != 0 && p.mode.Poll? {
      PollGroupFits(p, ackEnd, EndOf(o.ends, Caller));
      DrawExtends(o, PollGroup(p, ackEnd, EndOf(o.ends, Caller)));
    }
  }

  /** Drawing a post keeps the picture tidy and moves no end marker back. */
  lemma PostExtends(o: Picture, p: Post)
    requires Tidy(o.slices, o.ends) && ValidPost(p)
    ensures Extends(o, DrawPost(o, p))
  {
    var o1 := DrawHead(o, p);
    var o2 := DrawRequests(o1, p.requests);
    HeadExtends(o, p);
    RequestsExtend(o1, p.requests);
    ExtendsOn(o, o1, o2);
    CompletionExtends(o2, p);
    ExtendsOn(o, o2, DrawPost(o, p));
  }

  /** The viewer's condition: on every pid and tid, slices last at least 1 us and are disjoint or nested. */
  ghost predicate Renderable(slices: seq<Slice>) {
    && (forall s <- slices :: s.dur >= 1)
    && (forall i, j :: 0 <= i < j < |slices| && SameTrack(slices[i], slices[j]) ==> Compatible(slices[i], slices[j]))
  }

  predicate SameTrack(a: Slice, b: Slice) { Pid(a.track) == Pid(b.track) && Tid(a.track) == Tid(b.track) }

  lemma {:induction false} DrawnRenderable(posts: seq<Post>)
    requires forall p <- posts :: ValidPost(p)
    ensures Tidy(Drawn(posts).slices, Drawn(posts).ends) && Renderable(Drawn(posts).slices)
  {
    if posts != [] {
      DrawnRenderable(posts[..|posts| - 1]);
      PostExtends(Drawn(posts[..|posts| - 1]), posts[|posts| - 1]);
    }
    var slices := Drawn(posts).slices;
    forall i, j | 0 <= i < j < |slices| && SameTrack(slices[i], slices[j]) ensures Compatible(slices[i], slices[j]) {
      assert slices[i] in slices && slices[j] in slices;
      TracksDistinct(slices[i].track, slices[j].track);
    }
  }

  // --- Which times the slices show -----------------------------------------------------------------------

  /** The slice that shows a stage from one recorded time to another. */
  function Span(track: Track, stage: Stage, from: nat, to: nat): Slice
    requires from <= to
  {
    Slice(track, stage, from, to - from)
  }

  /** The engine takes up the post at `t`: to connect, or with its first request. */
  predicate TakenUpAt(p: Post, t: nat) {
    if p.connStart > 0 then t == p.connStart else p.requests != [] && t == p.requests[0].dequeued
  }

  predicate ConnTimed(p: Post) { 0 < p.connStart < p.connDone && p.hostInfoDone <= p.connDone }

  /** The setup, the host lookup if one was recorded, and the connects after it. */
  function ConnSpans(p: Post): seq<Slice>
    requires ConnTimed(p)
  {
    var looked := if p.hostInfoDone > p.connStart then p.hostInfoDone else p.connStart;
    [Span(Engine, ConnSetup, p.connStart, p.connDone)] +
    (if p.connStart < looked then [Span(Engine, HostLookup, p.connStart, looked)] else []) +
    (if looked < p.connDone then [Span(Engine, ConnectCalls, looked, p.connDone)] else [])
  }

  /** `t` is when the last chunk was enqueued. */
  ghost predicate LastAt(chunks: seq<Chunk>, t: nat) {
    (exists c <- chunks :: c.enqueued == t) && (forall c <- chunks :: c.enqueued <= t)
  }

  predicate ChunkTimed(c: Chunk) { 0 < c.enqueued < c.dequeued < c.txDone <= c.ack }

  /** The wait in the worker's queue, from `start`, and the write to the channel. */
  predicate SendShown(added: seq<Slice>, c: Chunk, start: nat)
    requires ChunkTimed(c)
  {
    var track := SendTrack(SendWorkerIdx(c));
    && start <= c.dequeued && (c.sendWorker > 0 ==> track == SendTrack(c.sendWorker))
    && added == [Span(track, WorkerQueue, start, c.dequeued), Span(track, Transmit, c.dequeued, c.txDone)]
  }

  /** What the receiver reported: first the wait for the chunk, then the read, both inside the whole. */
  predicate RecvShown(added: seq<Slice>, c: Chunk) {
    && |added| == 3
    && (forall s <- added :: s.track == RecvTrack(RecvWorkerIdx(c)))
    && (forall s <- added :: c.recvWorker < 0 ==> s.track == RecvTrack(-c.recvWorker))
    && added[0].stage == Receive && added[1].stage == AcquireWait && added[2].stage == PayloadRead
    && added[0].start == added[1].start && added[2].start == added[1].start + added[1].dur
    && added[1].dur == (if c.rxAcquire == 0 then 1 else c.rxAcquire)
    && added[2].dur == (if c.rxPayload == 0 then 1 else c.rxPayload)
    && added[0].dur == added[1].dur + added[2].dur
  }

  predicate Reported(c: Chunk) { 1 <= c.rxAcquire && 1 <= c.rxPayload && c.rxAcquire + c.rxPayload < 0x1_0000_0000 }

  /** The receiver's part is in the middle between sending and acknowledgement. */
  predicate Centred(s: Slice, dequeued: nat, ack: nat) {
    s.start - dequeued <= ack - (s.start + s.dur) <= s.start - dequeued + 1
  }

  /** Between sending and acknowledgement, from `end` on; in the middle where there is room. */
  predicate RecvPlaced(added: seq<Slice>, c: Chunk, dequeued: nat, ack: nat, end: nat) {
    && RecvShown(added, c) && dequeued <= added[0].start && end <= added[0].start
    && (Reported(c) && dequeued + c.rxAcquire + c.rxPayload <= ack && end <= dequeued ==>
          Centred(added[0], dequeued, ack))
  }

  predicate AckShown(s: Slice, c: Chunk) {
    && c.ack > 0 && s == Span(AckTrack(SendWorkerIdx(c)), AckReceipt, c.ack - 1, c.ack + 1)
    && (c.sendWorker > 0 ==> s.track == AckTrack(c.sendWorker))
  }

  /** All that is drawn for a chunk. */
  ghost predicate ChunkShown(added: seq<Slice>, c: Chunk) {
    && ChunkTimed(c) && |added| == 6
    && (exists start :: c.enqueued <= start && SendShown(added[..2], c, start))
    && c.dequeued <= added[2].start && RecvShown(added[2..5], c)
    && AckShown(added[5], c)
  }

  ghost predicate ChunksShown(added: seq<Slice>, chunks: seq<Chunk>) {
    |added| == 6 * |chunks| && forall k :: 0 <= k < |chunks| ==> ChunkShown(added[6 * k..6 * k + 6], chunks[k])
  }

  /** The fanout lasts until the last chunk is enqueued. */
  ghost predicate FanoutShown(s: Slice, r: Request) {
    exists t :: LastAt(r.chunks, t) && r.dequeued <= t && s == Span(Engine, Fanout, r.dequeued, t)
  }

  ghost predicate RequestShown(added: seq<Slice>, r: Request) {
    |added| > 0 && FanoutShown(added[0], r) && ChunksShown(added[1..], r.chunks)
  }

  ghost predicate RequestsShown(added: seq<Slice>, rs: seq<Request>)
    decreases |rs|
  {
    if rs == [] then added == []
    else
      var before, r := rs[..|rs| - 1], rs[|rs| - 1];
      exists k: nat | k <= |added| :: RequestsShown(added[..k], before) && RequestShown(added[k..], r)
  }

  predicate HeadTimed(p: Post, takenUp: nat) {
    && 0 < p.entry < p.enqueued < takenUp && TakenUpAt(p, takenUp)
    && (if p.connStart > 0 then ConnTimed(p) else p.connDone == 0)
  }

  /** The call of Post, the wait for the engine, and the connection setup if there was one. */
  function HeadSpans(p: Post, takenUp: nat): seq<Slice>
    requires HeadTimed(p, takenUp)
  {
    [Span(Caller, PostCall, p.entry, p.enqueued), Span(Engine, QueueWait, p.enqueued, takenUp)] +
    if p.connStart > 0 then ConnSpans(p) else []
  }

  predicate Completes(p: Post) { p.allDone > 0 && !p.mode.Unknown? }

  predicate CompletionShown(added: seq<Slice>, p: Post) {
    if !Completes(p) then added == []
    else
      && p.allDone <= p.completed
      && (p.allDoneWorker < 0 ==> AckTrack(AckWorkerIdx(p.allDoneWorker)) == AckTrack(-p.allDoneWorker))
      && if p.mode.Callback?
         then added == [Span(AckTrack(AckWorkerIdx(p.allDoneWorker)), OnComplete, p.allDone, p.completed)]
         else added == [Span(Caller, PollDelay, p.allDone, p.completed),
                        Span(Caller, PollCall, p.completed, p.completed + 1)]
  }

  /** Every slice drawn for the post begins and ends at the recorded times of its stage. */
  ghost predicate PostShown(added: seq<Slice>, p: Post) {
    exists takenUp: nat, i: nat, j: nat | i <= j <= |added| :: PartsOf(added[..i], added[i..j], added[j..], p, takenUp)
  }

  ghost predicate PartsOf(head: seq<Slice>, body: seq<Slice>, tail: seq<Slice>, p: Post, takenUp: nat) {
    && HeadTimed(p, takenUp) && head == HeadSpans(p, takenUp)
    && RequestsShown(body, p.requests) && CompletionShown(tail, p)
  }

  // --- Timelines whose stages follow one another ------------------------------------------------------

  /** A worker has written the earlier chunk before it takes the later one, and handles one ACK at a time. */
  predicate Apart(c: Chunk, later: Chunk) {
    SendWorkerIdx(c) == SendWorkerIdx(later) ==> c.txDone < later.dequeued && c.ack + 1 < later.ack
  }

  predicate AllApart(chunks: seq<Chunk>) {
    forall i, j :: 0 <= i < j < |chunks| ==> Apart(chunks[i], chunks[j])
  }

  function AllChunks(rs: seq<Request>): seq<Chunk> {
    if rs == [] then [] else AllChunks(rs[..|rs| - 1]) + rs[|rs| - 1].chunks
  }

  predicate RequestTimed(r: Request) {
    0 < r.dequeued && r.chunks != [] && forall c <- r.chunks :: r.dequeued < c.enqueued && ChunkTimed(c)
  }

  /** The engine enqueues every chunk of a request before it takes the next. */
  predicate RequestsTimed(rs: seq<Request>) {
    && (forall r <- rs :: RequestTimed(r)) && AllApart(AllChunks(rs))
    && (forall i, c :: 0 <= i < |rs| - 1 && c in rs[i].chunks ==> c.enqueued <= rs[i + 1].dequeued)
  }

  ghost predicate PostTimed(p: Post) {
    && (exists takenUp :: HeadTimed(p, takenUp)) && p.requests != [] && RequestsTimed(p.requests)
    && p.connDone <= p.requests[0].dequeued
    && (Completes(p) ==> p.allDone < p.completed && forall c <- AllChunks(p.requests) :: c.ack < p.allDone)
  }

  /** The worker is free when it takes the chunk, and when the acknowledgement arrives. */
  predicate Free(ends: Ends, c: Chunk) {
    && EndOf(ends, SendTrack(SendWorkerIdx(c))) < c.dequeued
    && EndOf(ends, AckTrack(SendWorkerIdx(c))) < c.ack
  }

  /** The tracks are free when the stages of the post begin. */
  predicate Idle(ends: Ends, p: Post) {
    && EndOf(ends, Caller) <= p.entry && EndOf(ends, Engine) <= p.enqueued
    && (forall c <- AllChunks(p.requests) :: Free(ends, c))
    && EndOf(ends, AckTrack(AckWorkerIdx(p.allDoneWorker))) <= p.allDone
  }

  // --- Such timelines are shown as recorded -------------------------------------------------------------

  /** Until when a chunk keeps a sender's track, or 0. */
  function Keeps(c: Chunk, t: Track): nat {
    if t == SendTrack(SendWorkerIdx(c)) then c.txDone
    else if t == AckTrack(SendWorkerIdx(c)) then c.ack + 1 else 0
  }

  /** What the picture `o'` has more than `o`. */
  function Added(o: Picture, o': Picture): seq<Slice>
    requires o.slices <= o'.slices
  {
    o'.slices[|o.slices|..]
  }

  lemma SendDrawn(c: Chunk, fanout: nat, end: nat)
    requires ChunkTimed(c) && fanout <= c.enqueued && end < c.dequeued
    ensures SendShown(SendGroup(c, fanout, end).slices, c, Max(c.enqueued, end))
    ensures Dequeued(c, fanout, end) == c.dequeued && SendGroup(c, fanout, end).end == c.txDone
  {
  }

  lemma RecvDrawn(c: Chunk, dequeued: nat, ack: nat, end: nat)
    ensures RecvPlaced(RecvGroup(c, dequeued, ack, end).slices, c, dequeued, ack, end)
  {
  }

  /** What is added shows the receiver's times. */
  ghost predicate RecvTold(o: Picture, o': Picture, c: Chunk, dequeued: nat, ack: nat) {
    && o.slices <= o'.slices
    && RecvPlaced(Added(o, o'), c, dequeued, ack, EndOf(o.ends, RecvTrack(RecvWorkerIdx(c))))
  }

  lemma RecvIsTold(o: Picture, c: Chunk, dequeued: nat, ack: nat)
    ensures var g := RecvGroup(c, dequeued, ack, EndOf(o.ends, RecvTrack(RecvWorkerIdx(c))));
      RecvTold(o, Draw(o, g), c, dequeued, ack)
  {
    var g := RecvGroup(c, dequeued, ack, EndOf(o.ends, RecvTrack(RecvWorkerIdx(c))));
    RecvDrawn(c, dequeued, ack, EndOf(o.ends, RecvTrack(RecvWorkerIdx(c))));
    assert Added(o, Draw(o, g)) == g.slices;
  }

  lemma AckDrawn(c: Chunk, end: nat)
    requires 1 < c.ack && end < c.ack
    ensures var g := AckGroup(c, c.ack, end); |g.slices| == 1 && g.end == c.ack + 1 && AckShown(g.slices[0], c)
  {
  }

  /** A chunk keeps its worker's two tracks, and no other track of the sender. */
  ghost predicate KeepsTracks(ends: Ends, ends': Ends, c: Chunk) {
    forall t: Track :: !t.RecvTrack? ==> EndOf(ends', t) == if Keeps(c, t) > 0 then Keeps(c, t) else EndOf(ends, t)
  }

  /** A timed chunk's three groups, one after the other. */
  lemma ChunkIsThreeGroups(o: Picture, c: Chunk, fanout: nat)
    requires ChunkTimed(c) && fanout <= c.enqueued && Free(o.ends, c)
    ensures var send := SendGroup(c, fanout, EndOf(o.ends, SendTrack(SendWorkerIdx(c))));
      var recv := RecvGroup(c, c.dequeued, c.ack, EndOf(o.ends, RecvTrack(RecvWorkerIdx(c))));
      var ack := AckGroup(c, c.ack, EndOf(o.ends, AckTrack(SendWorkerIdx(c))));
      DrawChunk(o, c, fanout) == Draw(Draw(Draw(o, send), recv), ack)
  {
    SendDrawn(c, fanout, EndOf(o.ends, SendTrack(SendWorkerIdx(c))));
  }

  lemma GroupsShown(send: seq<Slice>, recv: seq<Slice>, ack: Slice, c: Chunk, start: nat)
    requires ChunkTimed(c) && c.enqueued <= start && SendShown(send, c, start)
    requires RecvShown(recv, c) && c.dequeued <= recv[0].start && AckShown(ack, c)
    ensures ChunkShown(send + recv + [ack], c)
  {
    var added := send + recv + [ack];
    assert added[..2] == send && added[2..5] == recv;
  }

  lemma GroupsDrawn(o: Picture, send: Group, recv: Group, ack: Group, c: Chunk)
    requires send.track == SendTrack(SendWorkerIdx(c)) && send.end == c.txDone > 0
    requires recv.track.RecvTrack? && ack.track == AckTrack(SendWorkerIdx(c)) && ack.end == c.ack + 1
    ensures var o' := Draw(Draw(Draw(o, send), recv), ack);
      o'.slices == o.slices + (send.slices + recv.slices + ack.slices) && KeepsTracks(o.ends, o'.ends, c)
  {
  }

  lemma ChunkDrawn(o: Picture, c: Chunk, fanout: nat)
    requires ChunkTimed(c) && fanout <= c.enqueued && Free(o.ends, c)
    ensures var o' := DrawChunk(o, c, fanout);
      o.slices <= o'.slices && ChunkShown(Added(o, o'), c) && KeepsTracks(o.ends, o'.ends, c)
  {
    var end := EndOf(o.ends, SendTrack(SendWorkerIdx(c)));
    var recvEnd := EndOf(o.ends, RecvTrack(RecvWorkerIdx(c)));
    var ackEnd := EndOf(o.ends, AckTrack(SendWorkerIdx(c)));
    var send, recv := SendGroup(c, fanout, end), RecvGroup(c, c.dequeued, c.ack, recvEnd);
    var ack := AckGroup(c, c.ack, ackEnd);
    ChunkIsThreeGroups(o, c, fanout);
    SendDrawn(c, fanout, end);
    RecvDrawn(c, c.dequeued, c.ack, recvEnd);
    AckDrawn(c, ackEnd);
    GroupsDrawn(o, send, recv, ack, c);
    GroupsShown(send.slices, recv.slices, ack.slices[0], c, Max(c.enqueued, end));
    assert ack.slices == [ack.slices[0]];
  }

  /** The sender's tracks end by `time` if they did before and every chunk leaves them by then. */
  ghost predicate KeepsUntil(ends: Ends, ends': Ends, chunks: seq<Chunk>) {
    forall t: Track, time :: OfSender(t) && EndOf(ends, t) <= time && LeavesBy(chunks, t, time) ==>
      EndOf(ends', t) <= time
  }

  predicate OfSender(t: Track) { !t.RecvTrack? && !t.Engine? }

  predicate LeavesBy(chunks: seq<Chunk>, t: Track, time: nat) { forall c <- chunks :: Keeps(c, t) <= time }

  lemma StaysFree(ends: Ends, ends': Ends, chunks: seq<Chunk>, later: Chunk)
    requires KeepsUntil(ends, ends', chunks) && Free(ends, later) && forall c <- chunks :: Apart(c, later)
    ensures Free(ends', later)
  {
    var i := SendWorkerIdx(later);
    assert LeavesBy(chunks, SendTrack(i), later.dequeued - 1) && LeavesBy(chunks, AckTrack(i), later.ack - 1);
  }

  lemma {:induction false} ChunksDrawn(o: Picture, chunks: seq<Chunk>, fanout: nat)
    requires forall c <- chunks :: ChunkTimed(c) && fanout <= c.enqueued && Free(o.ends, c)
    requires AllApart(chunks)
    ensures var o' := DrawChunks(o, chunks, fanout);
      && o.slices <= o'.slices && ChunksShown(Added(o, o'), chunks)
      && KeepsUntil(o.ends, o'.ends, chunks) && EndOf(o'.ends, Engine) == EndOf(o.ends, Engine)
  {
    if chunks != [] {
      var before, c := chunks[..|chunks| - 1], chunks[|chunks| - 1];
      var o1 := DrawChunks(o, before, fanout);
      ChunksDrawn(o, before, fanout);
      StaysFree(o.ends, o1.ends, before, c);
      ChunkDrawn(o1, c, fanout);
      AnotherShown(o, o1, DrawChunk(o1, c, fanout), chunks);
    }
  }

  lemma KeptLonger(ends: Ends, ends1: Ends, ends2: Ends, chunks: seq<Chunk>)
    requires chunks != [] && KeepsUntil(ends, ends1, chunks[..|chunks| - 1])
    requires KeepsTracks(ends1, ends2, chunks[|chunks| - 1])
    ensures KeepsUntil(ends, ends2, chunks)
  {
    var c := chunks[|chunks| - 1];
    forall t: Track, time | OfSender(t) && EndOf(ends, t) <= time && LeavesBy(chunks, t, time)
      ensures EndOf(ends2, t) <= time
    {
      assert LeavesBy(chunks[..|chunks| - 1], t, time) && Keeps(c, t) <= time;
    }
  }

  lemma AnotherShown(o: Picture, o1: Picture, o2: Picture, chunks: seq<Chunk>)
    requires chunks != [] && o.slices <= o1.slices <= o2.slices
    requires ChunksShown(Added(o, o1), chunks[..|chunks| - 1]) && KeepsUntil(o.ends, o1.ends, chunks[..|chunks| - 1])
    requires ChunkShown(Added(o1, o2), chunks[|chunks| - 1]) && KeepsTracks(o1.ends, o2.ends, chunks[|chunks| - 1])
    ensures ChunksShown(Added(o, o2), chunks) && KeepsUntil(o.ends, o2.ends, chunks)
  {
    KeptLonger(o.ends, o1.ends, o2.ends, chunks);
    OneMoreShown(Added(o, o1), Added(o1, o2), chunks);
    assert Added(o, o2) == Added(o, o1) + Added(o1, o2);
  }

  lemma OneMoreShown(added: seq<Slice>, more: seq<Slice>, chunks: seq<Chunk>)
    requires chunks != [] && ChunksShown(added, chunks[..|chunks| - 1]) && ChunkShown(more, chunks[|chunks| - 1])
    ensures ChunksShown(added + more, chunks)
  {
    forall k | 0 <= k < |chunks| ensures ChunkShown((added + more)[6 * k..6 * k + 6], chunks[k]) {
      if k < |chunks| - 1 {
        assert (added + more)[6 * k..6 * k + 6] == added[6 * k..6 * k + 6];
        assert chunks[k] == chunks[..|chunks| - 1][k];
      } else {
        assert (added + more)[6 * k..6 * k + 6] == more;
      }
    }
  }

  lemma {:induction false} LastIsLast(chunks: seq<Chunk>)
    requires chunks != []
    ensures LastAt(chunks, LastEnqueued(chunks))
  {
    var before, c := chunks[..|chunks| - 1], chunks[|chunks| - 1];
    assert chunks == before + [c] && c in chunks;
    if before != [] {
      LastIsLast(before);
      var b :| b in before && b.enqueued == LastEnqueued(before);
      assert b in chunks;
    }
  }

  lemma FanoutDrawn(r: Request, end: nat)
    requires 0 < r.dequeued && end <= r.dequeued && r.chunks != [] && forall c <- r.chunks :: r.dequeued < c.enqueued
    ensures var g := FanoutGroup(r, end);
      && FanoutStart(r, end) == r.dequeued && |g.slices| == 1 && FanoutShown(g.slices[0], r)
      && LastAt(r.chunks, g.end)
  {
    LastIsLast(r.chunks);
  }

  lemma AddedBoth(o: Picture, o1: Picture, o2: Picture)
    requires o.slices <= o1.slices <= o2.slices
    ensures Added(o, o2) == Added(o, o1) + Added(o1, o2)
  {
  }

  lemma FanoutThenChunks(o: Picture, o1: Picture, o2: Picture, r: Request)
    requires o.slices <= o1.slices <= o2.slices && |Added(o, o1)| == 1 && FanoutShown(Added(o, o1)[0], r)
    requires ChunksShown(Added(o1, o2), r.chunks)
    ensures RequestShown(Added(o, o2), r)
  {
    AddedBoth(o, o1, o2);
    assert Added(o, o2)[1..] == Added(o1, o2);
  }

  predicate RequestIdle(ends: Ends, r: Request) {
    EndOf(ends, Engine) <= r.dequeued && AllApart(r.chunks) && forall c <- r.chunks :: Free(ends, c)
  }

  lemma RequestDrawn(o: Picture, r: Request)
    requires RequestTimed(r) && RequestIdle(o.ends, r)
    ensures var o' := DrawRequest(o, r);
      && o.slices <= o'.slices && RequestShown(Added(o, o'), r)
      && KeepsUntil(o.ends, o'.ends, r.chunks) && LastAt(r.chunks, EndOf(o'.ends, Engine))
  {
    var end := EndOf(o.ends, Engine);
    var g := FanoutGroup(r, end);
    FanoutDrawn(r, end);
    var o1 := Draw(o, g);
    ChunksDrawn(o1, r.chunks, r.dequeued);
    var o2 := DrawChunks(o1, r.chunks, r.dequeued);
    assert Added(o, o1) == g.slices;
    FanoutThenChunks(o, o1, o2, r);
    FanoutKeeps(o.ends, g.end, o2.ends, r.chunks);
  }

  lemma FanoutKeeps(ends: Ends, end: nat, ends': Ends, chunks: seq<Chunk>)
    requires KeepsUntil(ends[Engine := end], ends', chunks)
    ensures KeepsUntil(ends, ends', chunks)
  {
    forall t: Track, time | OfSender(t) && EndOf(ends, t) <= time && LeavesBy(chunks, t, time)
      ensures EndOf(ends', t) <= time
    {
      assert EndOf(ends[Engine := end], t) <= time;
    }
  }

  lemma KeptByBoth(ends: Ends, ends1: Ends, ends2: Ends, a: seq<Chunk>, b: seq<Chunk>)
    requires KeepsUntil(ends, ends1, a) && KeepsUntil(ends1, ends2, b)
    ensures KeepsUntil(ends, ends2, a + b)
  {
    forall t: Track, time | OfSender(t) && EndOf(ends, t) <= time && LeavesBy(a + b, t, time)
      ensures EndOf(ends2, t) <= time
    {
      forall c | c in a || c in b ensures Keeps(c, t) <= time {
        assert c in a + b;
      }
      assert LeavesBy(a, t, time) && LeavesBy(b, t, time);
    }
  }

  lemma ApartParts(a: seq<Chunk>, b: seq<Chunk>)
    requires AllApart(a + b)
    ensures AllApart(a) && AllApart(b) && forall c, d :: c in a && d in b ==> Apart(c, d)
  {
    var all := a + b;
    forall i, j | 0 <= i < j < |a| ensures Apart(a[i], a[j]) {
      assert Apart(all[i], all[j]);
    }
    forall i, j | 0 <= i < j < |b| ensures Apart(b[i], b[j]) {
      assert Apart(all[|a| + i], all[|a| + j]);
    }
    forall c, d | c in a && d in b ensures Apart(c, d) {
      var i :| 0 <= i < |a| && a[i] == c;
      var j :| 0 <= j < |b| && b[j] == d;
      assert Apart(all[i], all[|a| + j]);
    }
  }

  ghost predicate RequestsDone(o: Picture, o': Picture, rs: seq<Request>) {
    && o.slices <= o'.slices && RequestsShown(Added(o, o'), rs) && KeepsUntil(o.ends, o'.ends, AllChunks(rs))
    && (rs != [] ==> LastAt(rs[|rs| - 1].chunks, EndOf(o'.ends, Engine)))
    && (rs == [] ==> o' == o)
  }

  /** The tracks are free when the stages of the requests begin. */
  predicate RequestsIdle(ends: Ends, rs: seq<Request>) {
    && (rs != [] ==> EndOf(ends, Engine) <= rs[0].dequeued)
    && (forall c <- AllChunks(rs) :: Free(ends, c))
  }

  lemma {:induction false} RequestsDrawn(o: Picture, rs: seq<Request>)
    requires RequestsTimed(rs) && RequestsIdle(o.ends, rs)
    ensures RequestsDone(o, DrawRequests(o, rs), rs)
  {
    if rs != [] {
      var before, r := rs[..|rs| - 1], rs[|rs| - 1];
      FirstTimed(o.ends, rs);
      RequestsDrawn(o, before);
      var o1 := DrawRequests(o, before);
      NextIdle(o, o1, rs);
      RequestDrawn(o1, r);
      AnotherRequest(o, o1, DrawRequest(o1, r), rs);
    }
  }

  lemma FirstTimed(ends: Ends, rs: seq<Request>)
    requires rs != [] && RequestsTimed(rs) && RequestsIdle(ends, rs)
    ensures RequestsTimed(rs[..|rs| - 1]) && RequestsIdle(ends, rs[..|rs| - 1])
  {
    ApartParts(AllChunks(rs[..|rs| - 1]), rs[|rs| - 1].chunks);
    FreeParts(ends, AllChunks(rs[..|rs| - 1]), rs[|rs| - 1].chunks);
  }

  lemma NextIdle(o: Picture, o1: Picture, rs: seq<Request>)
    requires rs != [] && RequestsTimed(rs) && RequestsIdle(o.ends, rs) && RequestsDone(o, o1, rs[..|rs| - 1])
    ensures RequestIdle(o1.ends, rs[|rs| - 1])
  {
    var before, r := rs[..|rs| - 1], rs[|rs| - 1];
    ApartParts(AllChunks(before), r.chunks);
    FreeParts(o.ends, AllChunks(before), r.chunks);
    AllStayFree(o.ends, o1.ends, AllChunks(before), r.chunks);
    if before != [] {
      EngineIsFree(rs, EndOf(o1.ends, Engine));
    }
  }

  lemma AnotherRequest(o: Picture, o1: Picture, o2: Picture, rs: seq<Request>)
    requires rs != [] && o.slices <= o1.slices <= o2.slices
    requires RequestsShown(Added(o, o1), rs[..|rs| - 1]) && KeepsUntil(o.ends, o1.ends, AllChunks(rs[..|rs| - 1]))
    requires RequestShown(Added(o1, o2), rs[|rs| - 1]) && KeepsUntil(o1.ends, o2.ends, rs[|rs| - 1].chunks)
    ensures RequestsShown(Added(o, o2), rs) && KeepsUntil(o.ends, o2.ends, AllChunks(rs))
  {
    KeptByBoth(o.ends, o1.ends, o2.ends, AllChunks(rs[..|rs| - 1]), rs[|rs| - 1].chunks);
    AddedBoth(o, o1, o2);
    OneMoreRequest(Added(o, o1), Added(o1, o2), rs);
  }

  lemma AllStayFree(ends: Ends, ends': Ends, chunks: seq<Chunk>, later: seq<Chunk>)
    requires KeepsUntil(ends, ends', chunks) && forall c, d :: c in chunks && d in later ==> Apart(c, d)
    requires forall d <- later :: Free(ends, d)
    ensures forall d <- later :: Free(ends', d)
  {
    forall d | d in later ensures Free(ends', d) {
      StaysFree(ends, ends', chunks, d);
    }
  }

  lemma FreeParts(ends: Ends, a: seq<Chunk>, b: seq<Chunk>)
    requires forall c <- a + b :: Free(ends, c)
    ensures (forall c <- a :: Free(ends, c)) && forall c <- b :: Free(ends, c)
  {
    forall c | c in a || c in b ensures Free(ends, c) {
      assert c in a + b;
    }
  }

  lemma EngineIsFree(rs: seq<Request>, end: nat)
    requires |rs| > 1 && RequestsTimed(rs) && LastAt(rs[|rs| - 2].chunks, end)
    ensures end <= rs[|rs| - 1].dequeued
  {
    var c :| c in rs[|rs| - 2].chunks && c.enqueued == end;
    var i := |rs| - 2;
    assert 0 <= i < |rs| - 1 && c in rs[i].chunks;
  }

  lemma OneMoreRequest(added: seq<Slice>, more: seq<Slice>, rs: seq<Request>)
    requires rs != [] && RequestsShown(added, rs[..|rs| - 1]) && RequestShown(more, rs[|rs| - 1])
    ensures RequestsShown(added + more, rs)
  {
    assert (added + more)[..|added|] == added && (added + more)[|added|..] == more;
  }

  lemma ConnDrawn(p: Post)
    requires ConnTimed(p)
    ensures ConnGroup(p, p.connStart).slices == ConnSpans(p) && ConnGroup(p, p.connStart).end == p.connDone
  {
  }

  /** Drawing the head changes the ends of two tracks only. */
  lemma HeadDrawn(o: Picture, p: Post, takenUp: nat)
    requires HeadTimed(p, takenUp) && EndOf(o.ends, Caller) <= p.entry && EndOf(o.ends, Engine) <= p.enqueued
    ensures var o' := DrawHead(o, p);
      && o'.slices == o.slices + HeadSpans(p, takenUp)
      && EndOf(o'.ends, Caller) == p.enqueued
      && EndOf(o'.ends, Engine) == (if p.connStart > 0 then p.connDone else takenUp)
      && forall t: Track :: t != Caller && t != Engine ==> EndOf(o'.ends, t) == EndOf(o.ends, t)
  {
    var o1 := Draw(o, PostGroup(p, EndOf(o.ends, Caller)));
    assert o1.slices == o.slices + [Span(Caller, PostCall, p.entry, p.enqueued)];
    var o2 := Draw(o1, QueueGroup(p, p.enqueued, EndOf(o1.ends, Engine)));
    assert o2.slices == o1.slices + [Span(Engine, QueueWait, p.enqueued, takenUp)];
    if p.connStart > 0 {
      ConnDrawn(p);
      assert o2.slices + ConnSpans(p) == o.slices + HeadSpans(p, takenUp);
    }
  }

  predicate CompletionTimed(ends: Ends, p: Post) {
    && p.allDone < p.completed && EndOf(ends, Caller) <= p.allDone
    && EndOf(ends, AckTrack(AckWorkerIdx(p.allDoneWorker))) <= p.allDone
  }

  lemma CompletionDrawn(o: Picture, p: Post)
    requires Completes(p) ==> CompletionTimed(o.ends, p)
    ensures var o' := DrawCompletion(o, p); o.slices <= o'.slices && CompletionShown(Added(o, o'), p)
  {
  }

  /** The head and the requests of a timed post, and free tracks for its completion. */
  ghost predicate MiddleDrawn(o: Picture, o1: Picture, o2: Picture, p: Post, takenUp: nat) {
    && HeadTimed(p, takenUp)
    && o.slices <= o1.slices && Added(o, o1) == HeadSpans(p, takenUp)
    && o1.slices <= o2.slices && RequestsShown(Added(o1, o2), p.requests)
    && (Completes(p) ==> CompletionTimed(o2.ends, p))
  }

  lemma MiddleIsDrawn(o: Picture, p: Post, takenUp: nat)
    requires PostTimed(p) && Idle(o.ends, p) && HeadTimed(p, takenUp)
    ensures var o1 := DrawHead(o, p); MiddleDrawn(o, o1, DrawRequests(o1, p.requests), p, takenUp)
  {
    var o1 := DrawHead(o, p);
    HeadDrawn(o, p, takenUp);
    RequestsDrawn(o1, p.requests);
    if Completes(p) {
      FreeAtTheEnd(o1.ends, DrawRequests(o1, p.requests).ends, p);
    }
    assert Added(o, o1) == HeadSpans(p, takenUp);
  }

  lemma WholeIsShown(o: Picture, o1: Picture, o2: Picture, p: Post, takenUp: nat)
    requires MiddleDrawn(o, o1, o2, p, takenUp)
    ensures var o3 := DrawCompletion(o2, p); o.slices <= o3.slices && PostShown(Added(o, o3), p)
  {
    var o3 := DrawCompletion(o2, p);
    CompletionDrawn(o2, p);
    PartsAdded(o, o1, o2, o3);
    PartsShown(Added(o, o1), Added(o1, o2), Added(o2, o3), p, takenUp);
  }

  /** Drawing a timed post on idle tracks: each slice begins and ends at the recorded times of its stage. */
  lemma PostDrawn(o: Picture, p: Post)
    requires PostTimed(p) && Idle(o.ends, p)
    ensures o.slices <= DrawPost(o, p).slices && PostShown(Added(o, DrawPost(o, p)), p)
  {
    var takenUp :| HeadTimed(p, takenUp);
    MiddleIsDrawn(o, p, takenUp);
    WholeIsShown(o, DrawHead(o, p), DrawRequests(DrawHead(o, p), p.requests), p, takenUp);
  }

  lemma PartsAdded(o: Picture, o1: Picture, o2: Picture, o3: Picture)
    requires o.slices <= o1.slices <= o2.slices <= o3.slices
    ensures Added(o, o3) == Added(o, o1) + Added(o1, o2) + Added(o2, o3)
  {
    AddedBoth(o, o1, o3);
    AddedBoth(o1, o2, o3);
  }

  lemma PartsShown(a: seq<Slice>, b: seq<Slice>, c: seq<Slice>, p: Post, takenUp: nat)
    requires PartsOf(a, b, c, p, takenUp)
    ensures PostShown(a + b + c, p)
  {
    var added, i, j := a + b + c, |a|, |a| + |b|;
    assert added[..i] == a && added[i..j] == b && added[j..] == c;
  }

  lemma FreeAtTheEnd(ends: Ends, ends': Ends, p: Post)
    requires PostTimed(p) && Completes(p) && KeepsUntil(ends, ends', AllChunks(p.requests))
    requires EndOf(ends, Caller) <= p.enqueued
    requires EndOf(ends, AckTrack(AckWorkerIdx(p.allDoneWorker))) <= p.allDone
    ensures EndOf(ends', Caller) <= p.allDone
    ensures EndOf(ends', AckTrack(AckWorkerIdx(p.allDoneWorker))) <= p.allDone
  {
    var chunks := AllChunks(p.requests);
    EndIsLater(p);
    assert LeavesBy(chunks, Caller, p.allDone);
    assert LeavesBy(chunks, AckTrack(AckWorkerIdx(p.allDoneWorker)), p.allDone);
  }

  lemma EndIsLater(p: Post)
    requires PostTimed(p) && Completes(p)
    ensures p.enqueued <= p.allDone
  {
    var r := p.requests[0];
    assert RequestTimed(r) && r.chunks[0] in r.chunks;
    FirstIsThere(p.requests);
  }

  lemma {:induction false} FirstIsThere(rs: seq<Request>)
    requires rs != [] && rs[0].chunks != []
    ensures rs[0].chunks[0] in AllChunks(rs)
  {
    if |rs| > 1 {
      FirstIsThere(rs[..|rs| - 1]);
    } else {
      assert rs[|rs| - 1].chunks[0] in AllChunks(rs[..|rs| - 1]) + rs[|rs| - 1].chunks;
    }
  }

  /** Two chunks on one worker, the second waiting for the first. */
  function Sample(): Post {
    Post(1, 2, 3, 5, 9, 60, -1, 70, Poll, [SampleRequest()])
  }

  function SampleRequest(): Request {
    Request(10, [Chunk(0, 1, -1, 11, 13, 20, 40, 2, 3), Chunk(1, 1, -1, 12, 21, 30, 50, 2, 3)])
  }

  lemma SampleChunks(r: Request)
    requires r == SampleRequest()
    ensures RequestTimed(r) && AllApart(r.chunks) && forall c <- r.chunks :: Free(EMPTY.ends, c) && c.ack < 60
  {
    assert Apart(r.chunks[0], r.chunks[1]);
  }

  lemma OneRequest(r: Request)
    ensures AllChunks([r]) == r.chunks && (RequestTimed(r) && AllApart(r.chunks) ==> RequestsTimed([r]))
  {
    assert AllChunks([]) == [] && [r][..0] == [];
    assert AllChunks([r]) == AllChunks([r][..0]) + r.chunks;
  }

  /** Such posts exist. */
  lemma SampleIsTimed()
    ensures PostTimed(Sample()) && Idle(EMPTY.ends, Sample())
  {
    SampleChunks(SampleRequest());
    OneRequest(SampleRequest());
    assert HeadTimed(Sample(), 3);
  }

  // --- The bound of 200 send workers cannot be raised ------------------------------------------------------

  /** Worker `i` sends from 10 to 20 while the acknowledgement thread of worker `i - 200` is busy from 19 to 21. */
  function CrowdedChunks(i: int): seq<Chunk> {
    [Chunk(0, i, -1, 10, 10, 20, 0, 0, 0), Chunk(1, i - MAX_SEND_WORKER, -1, 10, 10, 11, 20, 1, 1)]
  }

  function Crowded(i: int): Post {
    Post(1, 2, 0, 0, 0, 0, 0, 0, Unknown, [Request(3, CrowdedChunks(i))])
  }

  lemma TwoChunks(o: Picture, a: Chunk, b: Chunk, fanout: nat)
    ensures DrawChunks(o, [a, b], fanout) == DrawChunk(DrawChunk(o, a, fanout), b, fanout)
  {
    assert [a, b][..1] == [a] && [a][..0] == [];
    assert DrawChunks(o, [a], fanout) == DrawChunk(o, a, fanout);
  }

  lemma FirstCrowded(o: Picture, i: int)
    requires i > MAX_SEND_WORKER && EndOf(o.ends, SendTrack(i)) == 0
    ensures DrawChunk(o, CrowdedChunks(i)[0], 3) ==
      Draw(o, Group(SendTrack(i), [Slice(SendTrack(i), Transmit, 10, 10)], 20))
  {
  }

  lemma SecondCrowded(o: Picture, i: int)
    requires i > MAX_SEND_WORKER && EndOf(o.ends, SendTrack(i - MAX_SEND_WORKER)) == 0
    requires EndOf(o.ends, AckTrack(i - MAX_SEND_WORKER)) == 0
    ensures var drawn := DrawChunk(o, CrowdedChunks(i)[1], 3).slices;
      && o.slices <= drawn && |drawn| == |o.slices| + 5
      && drawn[|o.slices| + 4] == Slice(AckTrack(i - MAX_SEND_WORKER), AckReceipt, 19, 2)
  {
    var j := i - MAX_SEND_WORKER;
    var c := CrowdedChunks(i)[1];
    assert SendGroup(c, 3, 0) == Group(SendTrack(j), [Slice(SendTrack(j), Transmit, 10, 1)], 11);
    assert AckTime(c, 10, 11) == 20;
    assert AckGroup(c, 20, 0) == Group(AckTrack(j), [Slice(AckTrack(j), AckReceipt, 19, 2)], 21);
  }

  lemma CrowdedChunksDrawn(o: Picture, i: int)
    requires i > MAX_SEND_WORKER && EndOf(o.ends, SendTrack(i)) == 0
    requires EndOf(o.ends, SendTrack(i - MAX_SEND_WORKER)) == 0
    requires EndOf(o.ends, AckTrack(i - MAX_SEND_WORKER)) == 0
    ensures var drawn := DrawChunks(o, CrowdedChunks(i), 3).slices;
      && |drawn| == |o.slices| + 6
      && drawn[|o.slices|] == Slice(SendTrack(i), Transmit, 10, 10)
      && drawn[|o.slices| + 5] == Slice(AckTrack(i - MAX_SEND_WORKER), AckReceipt, 19, 2)
  {
    var cs := CrowdedChunks(i);
    TwoChunks(o, cs[0], cs[1], 3);
    FirstCrowded(o, i);
    SecondCrowded(DrawChunk(o, cs[0], 3), i);
  }

  lemma OnePost(p: Post, r: Request)
    requires p.requests == [r] && p.mode.Unknown?
    ensures Drawn([p]) == DrawRequest(DrawHead(EMPTY, p), r)
  {
    assert [p][..0] == [] && [r][..0] == [];
    assert DrawRequests(DrawHead(EMPTY, p), [r]) == DrawRequest(DrawHead(EMPTY, p), r);
  }

  lemma CrowdedHead(i: int)
    ensures DrawHead(EMPTY, Crowded(i)) ==
      Picture([Slice(Caller, PostCall, 1, 1), Slice(Engine, QueueWait, 2, 1)], map[Caller := 2, Engine := 3])
  {
    var p := Crowded(i);
    var o1 := Draw(EMPTY, PostGroup(p, 0));
    assert o1 == Picture([Slice(Caller, PostCall, 1, 1)], map[Caller := 2]);
    assert QueueGroup(p, 2, 0) == Group(Engine, [Slice(Engine, QueueWait, 2, 1)], 3);
  }

  lemma CrowdedFanout(i: int)
    ensures FanoutGroup(Request(3, CrowdedChunks(i)), 3) == Group(Engine, [Slice(Engine, Fanout, 3, 7)], 10)
  {
    var cs := CrowdedChunks(i);
    assert cs[..1] == [cs[0]] && [cs[0]][..0] == [];
    assert LastEnqueued([cs[0]]) == 10;
    assert LastEnqueued(cs) == 10;
  }

  /** For every index beyond 200 there is a post that is not drawn properly. */
  lemma TooManyWorkers(i: int)
    requires i > MAX_SEND_WORKER
    ensures !Renderable(Drawn([Crowded(i)]).slices)
  {
    var p := Crowded(i);
    var r := p.requests[0];
    var o := Draw(DrawHead(EMPTY, p), FanoutGroup(r, 3));
    CrowdedHead(i);
    CrowdedFanout(i);
    CrowdedChunksDrawn(o, i);
    OnePost(p, r);
    var slices := Drawn([p]).slices;
    assert SameTrack(slices[|o.slices|], slices[|o.slices| + 5]);
    assert !Compatible(slices[|o.slices|], slices[|o.slices| + 5]);
  }

  // --- The renderer -------------------------------------------------------------------------------------------

  class TimelineRenderer {
    var slices: seq<Slice>
    var ends: Ends

    ghost function State(): Picture
      reads this
    {
      Picture(slices, ends)
    }

    /** Slices of one track are disjoint or nested, and none ends after its track's end marker. */
    ghost predicate Valid()
      reads this
    {
      Tidy(slices, ends)
    }

    constructor ()
      ensures Valid() && State() == EMPTY
    {
      slices, ends := [], map[];
    }

    method AddSlice(track: Track, stage: Stage, start: nat, dur: nat)
      modifies this`slices
      ensures slices == old(slices) + [Slice(track, stage, start, dur)]
    {
      slices := slices + [Slice(track, stage, start, dur)];
    }

    method EmitPostEnqueue(p: Post)
      modifies this
      ensures State() == Draw(old(State()), PostGroup(p, EndOf(old(ends), Caller)))
      ensures 0 < p.entry < p.enqueued && EndOf(old(ends), Caller) <= p.entry ==>
        slices == old(slices) + [Span(Caller, PostCall, p.entry, p.enqueued)]
      ensures old(Valid()) ==> Valid() && Extends(old(State()), State())
    {
      if Valid() {
        PostGroupsFit(p, Request(0, []), EndOf(ends, Caller), 0);
        DrawExtends(State(), PostGroup(p, EndOf(ends, Caller)));
      }
      var entry := Max(p.entry, EndOf(ends, Caller));
      var dur := ClampedElapsed(entry, p.enqueued);
      ends := ends[Caller := entry + dur];
      AddSlice(Caller, PostCall, entry, dur);
    }

    method EmitEngineQueueWait(p: Post)
      modifies this
      ensures State() == Draw(old(State()), QueueGroup(p, EndOf(old(ends), Caller), EndOf(old(ends), Engine)))
      ensures forall takenUp ::
        TakenUpAt(p, takenUp) && EndOf(old(ends), Engine) <= EndOf(old(ends), Caller) == p.enqueued < takenUp ==>
          slices == old(slices) + [Span(Engine, QueueWait, p.enqueued, takenUp)]
      ensures old(Valid()) ==> Valid() && Extends(old(State()), State())
    {
      if Valid() {
        PostGroupsFit(p, Request(0, []), EndOf(ends, Caller), EndOf(ends, Engine));
        DrawExtends(State(), QueueGroup(p, EndOf(ends, Caller), EndOf(ends, Engine)));
      }
      AddQueueSlice(p);
    }

    method AddQueueSlice(p: Post)
      modifies this
      ensures State() == Draw(old(State()), QueueGroup(p, EndOf(old(ends), Caller), EndOf(old(ends), Engine)))
    {
      var engineStart := EngineStart(p);
      var wait := Elapsed(p.enqueued, engineStart);
      var start := Max(EndOf(ends, Caller), EndOf(ends, Engine));
      var cur := Max(start, engineStart);
      if cur > start || wait > 0 {
        var dur := Clamp(cur - start);
        cur := start + dur;
        AddSlice(Engine, QueueWait, start, dur);
      }
      ends := ends[Engine := cur];
    }

    method EmitConnSetup(p: Post)
      modifies this
      ensures State() ==
        if p.connStart == 0 && p.connDone == 0 then old(State())
        else Draw(old(State()), ConnGroup(p, EndOf(old(ends), Engine)))
      ensures ConnTimed(p) && EndOf(old(ends), Engine) == p.connStart ==> slices == old(slices) + ConnSpans(p)
      ensures old(Valid()) ==> Valid() && Extends(old(State()), State())
    {
      if Valid() {
        ConnGroupFits(p, EndOf(ends, Engine));
        DrawExtends(State(), ConnGroup(p, EndOf(ends, Engine)));
      }
      if ConnTimed(p) && EndOf(ends, Engine) == p.connStart {
        ConnDrawn(p);
      }
      AddConnSlices(p);
    }

    method AddConnSlices(p: Post)
      modifies this
      ensures State() ==
        if p.connStart == 0 && p.connDone == 0 then old(State())
        else Draw(old(State()), ConnGroup(p, EndOf(old(ends), Engine)))
    {
      if p.connStart == 0 && p.connDone == 0 {
        return;
      }
      var start := EndOf(ends, Engine);
      var dur := ClampedElapsed(start, p.connDone);
      AddSlice(Engine, ConnSetup, start, dur);
      var info := Elapsed(p.connStart, p.hostInfoDone);
      if 0 < info <= dur {
        AddSlice(Engine, HostLookup, start, info);
      }
      var connect := Elapsed(Max(p.connStart, p.hostInfoDone), p.connDone);
      if connect > 0 && info + connect <= dur {
        AddSlice(Engine, ConnectCalls, start + info, connect);
      }
      ends := ends[Engine := start + dur];
    }

    method EmitRequestFanout(r: Request) returns (fanout: nat)
      modifies this
      ensures fanout == FanoutStart(r, EndOf(old(ends), Engine))
      ensures State() == Draw(old(State()), FanoutGroup(r, EndOf(old(ends), Engine)))
      ensures RequestTimed(r) && EndOf(old(ends), Engine) <= r.dequeued ==>
        fanout == r.dequeued && |slices| == |old(slices)| + 1 && FanoutShown(slices[|old(slices)|], r)
      ensures old(Valid()) ==> Valid() && Extends(old(State()), State())
    {
      if Valid() {
        PostGroupsFit(Post(0, 0, 0, 0, 0, 0, 0, 0, Unknown, []), r, 0, EndOf(ends, Engine));
        DrawExtends(State(), FanoutGroup(r, EndOf(ends, Engine)));
      }
      if RequestTimed(r) && EndOf(ends, Engine) <= r.dequeued {
        FanoutDrawn(r, EndOf(ends, Engine));
      }
      fanout := Max(EndOf(ends, Engine), r.dequeued);
      var last := FindLastEnqueued(r.chunks);
      var dur := ClampedElapsed(fanout, last);
      AddSlice(Engine, Fanout, fanout, dur);
      ends := ends[Engine := fanout + dur];
    }

    method FindLastEnqueued(chunks: seq<Chunk>) returns (last: nat)
      ensures last == LastEnqueued(chunks) && (chunks != [] ==> LastAt(chunks, last))
    {
      last := 0;
      for i := 0 to |chunks|
        invariant last == LastEnqueued(chunks[..i])
      {
        last := Max(last, chunks[i].enqueued);
        assert chunks[..i + 1][..i] == chunks[..i];
      }
      assert chunks[..|chunks|] == chunks;
      if chunks != [] {
        LastIsLast(chunks);
      }
    }

    method EmitChunk(c: Chunk, fanout: nat)
      modifies this
      ensures State() == DrawChunk(old(State()), c, fanout)
      ensures ChunkTimed(c) && fanout <= c.enqueued && Free(old(ends), c) ==>
        old(slices) <= slices && ChunkShown(slices[|old(slices)|..], c)
      ensures old(Valid()) && ValidChunk(c) ==> Valid() && Extends(old(State()), State())
    {
      if Valid() && ValidChunk(c) {
        ChunkExtends(State(), c, fanout);
      }
      if ChunkTimed(c) && fanout <= c.enqueued && Free(ends, c) {
        ChunkDrawn(State(), c, fanout);
      }
      var dequeued, txDone := EmitSend(c, fanout);
      EmitChunkAck(c, dequeued, txDone);
    }

    method EmitSend(c: Chunk, fanout: nat) returns (dequeued: nat, txDone: nat)
      modifies this
      ensures var g := SendGroup(c, fanout, EndOf(old(ends), SendTrack(SendWorkerIdx(c))));
        State() == Draw(old(State()), g) && txDone == g.end
      ensures dequeued == Dequeued(c, fanout, EndOf(old(ends), SendTrack(SendWorkerIdx(c))))
      ensures var end := EndOf(old(ends), SendTrack(SendWorkerIdx(c)));
        ChunkTimed(c) && fanout <= c.enqueued && end < c.dequeued ==>
          && dequeued == c.dequeued && txDone == c.txDone
          && SendShown(slices[|old(slices)|..], c, if c.enqueued < end then end else c.enqueued)
      ensures old(Valid()) && ValidChunk(c) ==> Valid() && Extends(old(State()), State())
    {
      if Valid() && ValidChunk(c) {
        SendGroupFits(c, fanout, EndOf(ends, SendTrack(SendWorkerIdx(c))));
        DrawExtends(State(), SendGroup(c, fanout, EndOf(ends, SendTrack(SendWorkerIdx(c)))));
      }
      if ChunkTimed(c) && fanout <= c.enqueued && EndOf(ends, SendTrack(SendWorkerIdx(c))) < c.dequeued {
        SendDrawn(c, fanout, EndOf(ends, SendTrack(SendWorkerIdx(c))));
      }
      dequeued, txDone := AddSendSlices(c, fanout);
    }

    method AddSendSlices(c: Chunk, fanout: nat) returns (dequeued: nat, txDone: nat)
      modifies this
      ensures var g := SendGroup(c, fanout, EndOf(old(ends), SendTrack(SendWorkerIdx(c))));
        State() == Draw(old(State()), g) && txDone == g.end
      ensures dequeued == Dequeued(c, fanout, EndOf(old(ends), SendTrack(SendWorkerIdx(c))))
    {
      var track := SendTrack(SendWorkerIdx(c));
      var end := EndOf(ends, track);
      var wait := Elapsed(c.enqueued, c.dequeued);
      var enqueued := if c.enqueued > 0 then Max(c.enqueued, fanout) else fanout;
      var queueStart := Max(enqueued, end);
      dequeued := Max(queueStart, c.dequeued);
      var queueDur := Elapsed(queueStart, dequeued);
      if queueDur > 0 || wait > 0 {
        dequeued := queueStart + Clamp(queueDur);
        AddSlice(track, WorkerQueue, queueStart, Clamp(queueDur));
      }
      var txDur := Clamp(Elapsed(c.dequeued, c.txDone));
      ends := ends[track := dequeued + txDur];
      AddSlice(track, Transmit, dequeued, txDur);
      assert dequeued == Dequeued(c, fanout, end);
      assert slices == old(slices) + SendGroup(c, fanout, end).slices;
      txDone := dequeued + txDur;
    }

    method EmitChunkAck(c: Chunk, dequeued: nat, txDone: nat)
      modifies this
      ensures State() == DrawAck(old(State()), c, dequeued, txDone)
      ensures old(Valid()) && ValidChunk(c) ==> Valid() && Extends(old(State()), State())
    {
      if Valid() && ValidChunk(c) {
        AckExtends(State(), c, dequeued, txDone);
      }
      if c.ack == 0 {
        return;
      }
      var rtt := Elapsed(c.dequeued, c.ack);
      var ack := if c.ack >= txDone then c.ack else Max(txDone, dequeued + rtt);
      EmitRemoteRecv(c, dequeued, ack);
      EmitAckSlice(c, ack);
    }

    method EmitAckSlice(c: Chunk, ack: nat)
      modifies this
      ensures State() == Draw(old(State()), AckGroup(c, ack, EndOf(old(ends), AckTrack(SendWorkerIdx(c)))))
    {
      var track := AckTrack(SendWorkerIdx(c));
      var start := Max(EndOf(ends, track), if ack > 1 then ack - 1 else ack);
      var dur := if ack >= start then ack - start + 1 else 1;
      ends := ends[track := start + dur];
      AddSlice(track, AckReceipt, start, dur);
    }

    method EmitRemoteRecv(c: Chunk, dequeued: nat, ack: nat)
      modifies this
      ensures State() ==
        Draw(old(State()), RecvGroup(c, dequeued, ack, EndOf(old(ends), RecvTrack(RecvWorkerIdx(c)))))
      ensures old(Valid()) && ValidChunk(c) ==> Valid() && Extends(old(State()), State())
    {
      if Valid() && ValidChunk(c) {
        RecvGroupFits(c, dequeued, ack, EndOf(ends, RecvTrack(RecvWorkerIdx(c))));
        DrawExtends(State(), RecvGroup(c, dequeued, ack, EndOf(ends, RecvTrack(RecvWorkerIdx(c)))));
      }
      var track := RecvTrack(RecvWorkerIdx(c));
      var start := Max(dequeued + Transit(c, dequeued, ack) / 2, EndOf(ends, track));
      var acqDur, payDur := Clamp(c.rxAcquire), Clamp(c.rxPayload);
      AddRecvSlices(track, start, acqDur, payDur);
    }

    /** The chunk's slice, and inside it the wait and then the read. */
    method AddRecvSlices(track: Track, start: nat, acqDur: nat, payDur: nat)
      modifies this
      ensures slices == old(slices) +
        [Slice(track, Receive, start, acqDur + payDur), Slice(track, AcquireWait, start, acqDur),
         Slice(track, PayloadRead, start + acqDur, payDur)]
      ensures ends == old(ends)[track := start + acqDur + payDur]
    {
      var dur := acqDur + payDur;
      ends := ends[track := start + dur];
      AddSlice(track, Receive, start, dur);
      AddSlice(track, AcquireWait, start, acqDur);
      AddSlice(track, PayloadRead, start + acqDur, payDur);
    }

    method EmitCompletion(p: Post)
      modifies this
      ensures State() == DrawCompletion(old(State()), p)
      ensures CompletionTimed(old(ends), p) ==> CompletionShown(slices[|old(slices)|..], p)
      ensures old(Valid()) ==> Valid() && Extends(old(State()), State())
    {
      if Valid() {
        CompletionExtends(State(), p);
      }
      if CompletionTimed(ends, p) {
        CompletionDrawn(State(), p);
      }
      AddCompletionSlices(p);
    }

    method AddCompletionSlices(p: Post)
      modifies this
      ensures State() == DrawCompletion(old(State()), p)
    {
      if p.allDone == 0 {
        return;
      }
      var track := AckTrack(AckWorkerIdx(p.allDoneWorker));
      var allDone := Max(p.allDone, EndOf(ends, track));
      if p.mode.Callback? {
        var dur := ClampedElapsed(allDone, p.completed);
        AddSlice(track, OnComplete, allDone, dur);
        ends := ends[track := allDone + dur];
      } else if p.mode.Poll? {
        var start := Max(allDone, EndOf(ends, Caller));
        var completed := Max(start, p.completed);
        var wait := Elapsed(start, completed);
        if wait > 0 {
          AddSlice(Caller, PollDelay, start, wait);
        }
        AddSlice(Caller, PollCall, completed, 1);
        ends := ends[Caller := completed + 1];
      }
    }

    method EmitHead(p: Post)
      modifies this
      ensures State() == DrawHead(old(State()), p)
      ensures old(Valid()) ==> Valid() && Extends(old(State()), State())
    {
      if Valid() {
        HeadExtends(State(), p);
      }
      EmitPostEnqueue(p);
      EmitEngineQueueWait(p);
      EmitConnSetup(p);
    }

    method EmitPost(p: Post)
      modifies this
      ensures State() == DrawPost(old(State()), p)
      ensures PostTimed(p) && Idle(old(ends), p) ==> old(slices) <= slices && PostShown(slices[|old(slices)|..], p)
      ensures old(Valid()) && ValidPost(p) ==> Valid() && Extends(old(State()), State())
    {
      if Valid() && ValidPost(p) {
        PostExtends(State(), p);
      }
      if PostTimed(p) && Idle(ends, p) {
        PostDrawn(State(), p);
      }
      EmitHead(p);
      EmitRequests(p.requests);
      EmitCompletion(p);
    }

    method EmitRequests(rs: seq<Request>)
      modifies this
      ensures State() == DrawRequests(old(State()), rs)
      ensures old(Valid()) && (forall r <- rs :: ValidRequest(r)) ==> Valid() && Extends(old(State()), State())
    {
      if Valid() && forall r <- rs :: ValidRequest(r) {
        RequestsExtend(State(), rs);
      }
      for i := 0 to |rs|
        invariant State() == DrawRequests(old(State()), rs[..i])
      {
        EmitRequest(rs[i]);
        assert rs[..i + 1][..i] == rs[..i];
      }
      assert rs[..|rs|] == rs;
    }

    method EmitRequest(r: Request)
      modifies this
      ensures State() == DrawRequest(old(State()), r)
      ensures RequestTimed(r) && RequestIdle(old(ends), r) ==>
        old(slices) <= slices && RequestShown(slices[|old(slices)|..], r)
      ensures old(Valid()) && ValidRequest(r) ==> Valid() && Extends(old(State()), State())
    {
      if Valid() && ValidRequest(r) {
        RequestExtends(State(), r);
      }
      if RequestTimed(r) && RequestIdle(ends, r) {
        RequestDrawn(State(), r);
      }
      var fanout := EmitRequestFanout(r);
      EmitChunks(r.chunks, fanout);
    }

    method EmitChunks(chunks: seq<Chunk>, fanout: nat)
      modifies this
      ensures State() == DrawChunks(old(State()), chunks, fanout)
    {
      for i := 0 to |chunks|
        invariant State() == DrawChunks(old(State()), chunks[..i], fanout)
      {
        EmitChunk(chunks[i], fanout);
        assert chunks[..i + 1][..i] == chunks[..i];
      }
      assert chunks[..|chunks|] == chunks;
    }
  }

  method Render(posts: seq<Post>) returns (slices: seq<Slice>)
    ensures slices == Drawn(posts).slices
    ensures (forall p <- posts :: ValidPost(p)) ==> Renderable(slices)
  {
    var renderer := new TimelineRenderer();
    for i := 0 to |posts|
      invariant renderer.State() == Drawn(posts[..i])
    {
      renderer.EmitPost(posts[i]);
      assert posts[..i + 1][..i] == posts[..i];
    }
    assert posts[..|posts|] == posts;
    if forall p <- posts :: ValidPost(p) {
      DrawnRenderable(posts);
    }
    return renderer.slices;
  }
}
