/**
  * What holds in every run of the protocol, under any interleaving of the worker
  * threads, failure of channels, loss, duplication and reordering of frames.
  */
module Theorems {
  import opened Options
  import opened Trackers
  import opened Layout
  import opened Protocol
  import opened Invariant
  import opened Safety
  import opened Counting
  import opened Delivery
  import opened Completion

  // --- The invariant holds throughout -----------------------------------------------

  lemma InitKeeps(s: State)
    requires Init(s)
    ensures Inv(s) && Told(s)
  {
    forall h: PostId ensures PostTold(s, h) {
      assert Unknown(s, h);
    }
  }

  lemma CompleteKeeps(s: State, w: Worker)
    requires Inv(s) && Told(s) && CanComplete(s, w)
    ensures Inv(DoComplete(s, w)) && Told(DoComplete(s, w))
  {
    match s.rx[w].why {
      case Finished(x) =>
        CompleteFinishedKeeps(s, w, x);
        CompleteFinishedTold(s, w, x);
      case Echoed(x) =>
        CompleteTargetKeeps(s, w, x.h);
        CompleteTargetTold(s, w, x.h);
      case Served(h) =>
        CompleteTargetKeeps(s, w, h);
        CompleteTargetTold(s, w, h);
    }
  }

  lemma ProcessPostKeeps(s: State, h: PostId, reqs: map<ReqId, Request>, meta: Metadata)
    requires Inv(s) && Told(s) && CanProcess(s, h, reqs)
    ensures Inv(DoProcess(s, h, reqs, meta)) && Told(DoProcess(s, h, reqs, meta))
  {
    assert PostTold(s, h);
    HomeReady(s, h);
    ProcessKeeps(s, h, reqs, meta);
    ProcessTold(s, h, reqs, meta);
  }

  lemma ServeReadKeeps(s: State, h: PostId)
    requires Inv(s) && Told(s) && CanProcessRead(s, h)
    ensures Inv(DoProcessRead(s, h)) && Told(DoProcessRead(s, h))
  {
    assert PostTold(s, h);
    QueuedFacts(s, h);
    ProcessReadKeeps(s, h);
    ProcessReadTold(s, h);
  }

  lemma ReleaseKeeps(s: State, w: Worker, success: bool)
    requires Inv(s) && Told(s) && CanRelease(s, w, success)
    ensures Inv(DoRelease(s, w, success)) && Told(DoRelease(s, w, success))
  {
    if success {
      ReleaseSuccessKeeps(s, w);
    } else {
      ReleaseFailureKeeps(s, w);
    }
    ReleaseTold(s, w, success);
  }

  predicate IsPostingStep(step: Step) { step.Enqueue? || step.Process? || step.ProcessRead? }

  predicate IsEngineStep(step: Step) { step.SendChunk? || step.Poll? || step.AppStore? }

  /** Steps of receive threads up to the claim of a chunk, and once they have claimed it. */
  predicate IsDataStep(step: Step) { step.RecvData? || step.FindChunk? || step.AcquireChunk? }

  predicate IsWritingStep(step: Step) { step.StoreByte? || step.ReleaseChunk? }

  lemma PostingStepKeeps(s: State, step: Step)
    requires Inv(s) && Told(s) && Enabled(s, step) && IsPostingStep(step)
    ensures Inv(Apply(s, step)) && Told(Apply(s, step))
  {
    match step {
      case Enqueue(h, post, callback) =>
        EnqueueKeeps(s, h, post, callback);
        EnqueueTold(s, h, post, callback);
      case Process(h, reqs, meta) => ProcessPostKeeps(s, h, reqs, meta);
      case ProcessRead(h) => ServeReadKeeps(s, h);
    }
  }

  lemma EngineStepKeeps(s: State, step: Step)
    requires Inv(s) && Told(s) && Enabled(s, step) && IsEngineStep(step)
    ensures Inv(Apply(s, step)) && Told(Apply(s, step))
  {
    match step {
      case SendChunk(id, i) =>
        SendChunkKeeps(s, id, i);
        SendChunkTold(s, id, i);
      case Poll(h) =>
        PollKeeps(s, h);
        PollTold(s, h);
      case AppStore(l, v) =>
        AppStoreKeeps(s, l, v);
        AppStoreTold(s, l, v);
    }
  }

  lemma LookupStepKeeps(s: State, step: Step)
    requires Inv(s) && Told(s) && Enabled(s, step) && (step.RecvData? || step.FindChunk?)
    ensures Inv(Apply(s, step)) && Told(Apply(s, step))
  {
    match step {
      case RecvData(w, f, peer) =>
        RecvDataKeeps(s, w, f, peer);
        RecvDataTold(s, w, f, peer);
      case FindChunk(w) =>
        FindKeeps(s, w);
        FindTold(s, w);
    }
  }

  lemma AcquireStepKeeps(s: State, w: Worker)
    requires Inv(s) && Told(s) && CanAcquire(s, w)
    ensures Inv(DoAcquire(s, w)) && Told(DoAcquire(s, w))
  {
    AcquireKeeps(s, w);
    AcquireTold(s, w);
  }

  lemma DataStepKeeps(s: State, step: Step)
    requires Inv(s) && Told(s) && Enabled(s, step) && IsDataStep(step)
    ensures Inv(Apply(s, step)) && Told(Apply(s, step))
  {
    if step.AcquireChunk? {
      AcquireStepKeeps(s, step.w);
    } else {
      LookupStepKeeps(s, step);
    }
  }

  lemma WritingStepKeeps(s: State, step: Step)
    requires Inv(s) && Told(s) && Enabled(s, step) && IsWritingStep(step)
    ensures Inv(Apply(s, step)) && Told(Apply(s, step))
  {
    match step {
      case StoreByte(w) =>
        StoreByteKeeps(s, w);
        StoreByteTold(s, w);
      case ReleaseChunk(w, success) => ReleaseKeeps(s, w, success);
    }
  }

  /** The other steps of receive threads. */
  lemma ControlStepKeeps(s: State, step: Step)
    requires Inv(s) && Told(s) && Enabled(s, step)
    requires !IsPostingStep(step) && !IsEngineStep(step) && !IsDataStep(step) && !IsWritingStep(step)
    ensures Inv(Apply(s, step)) && Told(Apply(s, step))
  {
    match step {
      case RecvInfo(w, f, resolve) =>
        RecvInfoKeeps(s, w, f, resolve);
        RecvInfoTold(s, w, f, resolve);
      case Respond(w) =>
        RespondKeeps(s, w);
        RespondTold(s, w);
      case CompleteReq(w) => CompleteKeeps(s, w);
      case SendAck(w, ok) =>
        SendAckKeeps(s, w, ok);
        AckIsAck(s, w);
        SendAckTold(s, w, ok);
      case RecvAck(w, f) =>
        RecvAckKeeps(s, w, f);
        RecvAckTold(s, w, f);
    }
  }

  lemma StepKeeps(s: State, step: Step)
    requires Inv(s) && Told(s) && Enabled(s, step)
    ensures Inv(Apply(s, step)) && Told(Apply(s, step))
  {
    if IsPostingStep(step) {
      PostingStepKeeps(s, step);
    } else if IsEngineStep(step) {
      EngineStepKeeps(s, step);
    } else if IsDataStep(step) {
      DataStepKeeps(s, step);
    } else if IsWritingStep(step) {
      WritingStepKeeps(s, step);
    } else {
      ControlStepKeeps(s, step);
    }
  }

  /** Both halves of the invariant. */
  ghost predicate Sound(s: State) { Inv(s) && Told(s) }

  lemma NextIsSound(s: State, step: Step, s': State)
    requires Sound(s) && Enabled(s, step) && s' == Apply(s, step)
    ensures Sound(s')
  {
    StepKeeps(s, step);
  }

  lemma {:induction false} RunIsSound(run: seq<State>, steps: seq<Step>, n: nat)
    requires IsRun(run, steps) && n < |run|
    ensures Sound(run[n])
  {
    if n == 0 {
      InitKeeps(run[0]);
    } else {
      RunIsSound(run, steps, n - 1);
      assert Enabled(run[n - 1], steps[n - 1]) && run[n - 1 + 1] == Apply(run[n - 1], steps[n - 1]);
      NextIsSound(run[n - 1], steps[n - 1], run[n]);
    }
  }

  lemma RunKeeps(run: seq<State>, steps: seq<Step>, n: nat)
    requires IsRun(run, steps) && n < |run|
    ensures Inv(run[n]) && Told(run[n])
  {
    RunIsSound(run, steps, n);
  }

  // --- Success means that the bytes have arrived -------------------------------------------

  /** Every byte the application asked `x` to move is at its destination. */
  ghost predicate Arrived(s: State, x: Id) {
    && x in s.asked && x in s.routes && x.h in s.posts
    && Serves(s.routes[x], s.asked[x], s.posts[x.h])
    && s.routes[x].src.Some? && s.routes[x].dst.Some?
    && forall b: nat :: b < s.asked[x].len ==>
         Get(s.mem, At(s.routes[x].dst.value, b)) == Get(s.mem, At(s.routes[x].src.value, b))
  }

  ghost predicate AllArrived(s: State, h: PostId) {
    HasRequests(h, s.routes) && forall x <- s.asked :: x.h == h ==> Arrived(s, x)
  }

  lemma DeliveredArrived(s: State, x: Id)
    requires RoutesOk(s.routes, s.posts, s.registered) && DeliveredOk(s.delivered, s.routes)
    requires Good(s.mem, s.routes, s.delivered, s.freed) && AskedOk(s.asked, s.posts, s.routes)
    requires x in s.asked && x.h !in s.freed && AllDelivered(x, s.routes, s.delivered)
    ensures Arrived(s, x)
  {
    var route := s.routes[x];
    assert ChunkId(x, 0) in s.delivered;
    forall b: nat | b < s.asked[x].len
      ensures Get(s.mem, At(route.dst.value, b)) == Get(s.mem, At(route.src.value, b))
    {
      var i := CutsCover(route.cuts, Len(route), b, |route.cuts| - 1);
      assert ChunkId(x, i) in s.delivered && InChunk(s.routes[ChunkId(x, i).id], i, b);
    }
  }

  lemma HereArrived(s: State, h: PostId)
    requires Inv(s) && Told(s) && h !in s.freed && HasRequests(h, s.routes) && AllHere(h, s.routes, s.delivered)
    ensures AllArrived(s, h)
  {
    forall x | x in s.asked && x.h == h ensures Arrived(s, x) {
      DeliveredArrived(s, x);
    }
  }

  ghost predicate Quiet(s: State, s': State) {
    && s'.mem == s.mem && s'.routes == s.routes && s'.delivered == s.delivered
    && s'.asked == s.asked && s'.posts == s.posts && s'.registered == s.registered && s'.net == s.net
  }

  /** The thread has moved to `t` and only tables and history have changed. */
  ghost predicate Moves(s: State, w: Worker, t: Rx, s': State) {
    s'.mem == s.mem && s'.net == s.net && s'.written == s.written && s'.rx == s.rx[w := t]
  }

  function NextOf(t: Rx): Rx
    requires t.Completing?
  {
    if t.ack.Some? then Acking(t.ack.value) else Idle
  }

  /** OnReqComplete up to its calls. */
  function CountedDown(s: State, w: Worker): State
    requires CanComplete(s, w)
  {
    var t := s.rx[w];
    s.(inc := ReqComplete(s.inc, t.place), rx := s.rx[w := NextOf(t)],
       counted := if t.why.Finished? then s.counted + {t.why.id} else s.counted)
  }

  lemma CompletePosts(s: State, w: Worker)
    requires CanComplete(s, w) && ReqCompleteCall(s.inc, s.rx[w].place).RecvPost?
    ensures DoComplete(s, w) == CountedDown(s, w).(postCalls := s.postCalls + multiset{IncPost(s.rx[w].place)})
    ensures Moves(s, w, NextOf(s.rx[w]), DoComplete(s, w)) && Quiet(s, DoComplete(s, w))
    ensures DoComplete(s, w).inc == ReqComplete(s.inc, s.rx[w].place)
  {
  }

  lemma CompleteReports(s: State, w: Worker)
    requires CanComplete(s, w) && ReqCompleteCall(s.inc, s.rx[w].place).OnComplete?
    ensures var h := IncPost(s.rx[w].place);
      DoComplete(s, w) == Report(CountedDown(s, w).(doneCalls := s.doneCalls + multiset{h}), h)
    ensures Moves(s, w, NextOf(s.rx[w]), DoComplete(s, w)) && Quiet(s, DoComplete(s, w))
    ensures DoComplete(s, w).inc == ReqComplete(s.inc, s.rx[w].place)
  {
  }

  lemma CompleteCounts(s: State, w: Worker)
    requires CanComplete(s, w) && ReqCompleteCall(s.inc, s.rx[w].place).NoCall?
    ensures DoComplete(s, w) == CountedDown(s, w)
    ensures Moves(s, w, NextOf(s.rx[w]), DoComplete(s, w)) && Quiet(s, DoComplete(s, w))
    ensures DoComplete(s, w).inc == ReqComplete(s.inc, s.rx[w].place)
  {
  }

  lemma CompleteIsQuiet(s: State, w: Worker)
    requires CanComplete(s, w)
    ensures Quiet(s, DoComplete(s, w))
  {
    match ReqCompleteCall(s.inc, s.rx[w].place) {
      case RecvPost(_, _) => CompletePosts(s, w);
      case OnComplete(_) => CompleteReports(s, w);
      case _ => CompleteCounts(s, w);
    }
  }

  lemma RelayIsQuiet(s: State, u: State, rx: map<Worker, Rx>)
    requires u == s.(out := u.out)
    ensures Quiet(s, u.(rx := rx))
  {
  }

  lemma ReportIsQuiet(s: State, u: State, h: PostId, doneCalls: multiset<PostId>)
    requires u == s.(out := u.out)
    ensures Quiet(s, Report(u.(doneCalls := doneCalls), h))
  {
  }

  lemma AckIsQuiet(s: State, w: Worker, f: Frame)
    requires CanRecvAck(s, w, f)
    ensures Quiet(s, DoRecvAck(s, w, f))
  {
    var u := s.(out := Acked(s.out, AckPlace(w, f), f.id.r, f.i));
    var call, h := AckedCall(s.out, AckPlace(w, f), f.id.r, f.i), PostId(w.host, f.id.h.handle);
    RecvAckIs(s, w, f);
    if call.OnComplete? && call.to.Relay? {
      RelayIsQuiet(s, u, DoRecvAck(s, w, f).rx);
    } else if call.OnComplete? {
      ReportIsQuiet(s, u, h, s.doneCalls + multiset{h});
    }
  }

  lemma DropIsQuiet(s: State, u: State, h: PostId)
    requires u == s.(out := u.out, inc := u.inc)
    ensures Quiet(s, Report(u, h))
  {
  }

  lemma PollIsQuiet(s: State, h: PostId)
    requires h in s.posts
    ensures Quiet(s, DoPoll(s, h))
  {
    var k := HomePlace(s.posts[h], h);
    if Check(s.out, k).Success? {
      DropIsQuiet(s, s.(out := Remove(s.out, k)), h);
    } else if Check(s.out, k).NotFound? && Check(s.inc, k).Success? {
      DropIsQuiet(s, s.(inc := Remove(s.inc, k)), h);
    } else {
      assert DoPoll(s, h) == s;
    }
  }

  lemma InfoReportsNobody(s: State, w: Worker, f: Frame, resolve: map<ReqId, Addr>)
    requires CanRecvInfo(s, w, f, resolve)
    ensures DoRecvInfo(s, w, f, resolve).reported == s.reported
  {
  }

  lemma ReleaseReportsNobody(s: State, w: Worker, success: bool)
    requires CanRelease(s, w, success)
    ensures DoRelease(s, w, success).reported == s.reported
  {
  }

  lemma DataReportsNobody(s: State, w: Worker, f: Frame, peer: Host)
    requires f.DataFrame?
    ensures DoRecvData(s, w, f, peer).reported == s.reported
  {
  }

  lemma AcquireReportsNobody(s: State, w: Worker)
    requires CanAcquire(s, w)
    ensures DoAcquire(s, w).reported == s.reported
  {
  }

  lemma EnqueueReportsNobody(s: State, h: PostId, post: Post, callback: bool)
    ensures DoEnqueue(s, h, post, callback).reported == s.reported
  {
  }

  lemma ProcessReportsNobody(s: State, h: PostId, reqs: map<ReqId, Request>, meta: Metadata)
    requires CanProcess(s, h, reqs)
    ensures DoProcess(s, h, reqs, meta).reported == s.reported
  {
  }

  lemma RespondReportsNobody(s: State, w: Worker)
    requires CanRespond(s, w)
    ensures DoRespond(s, w).reported == s.reported
  {
  }

  /** Telling the application changes no memory. */
  lemma ReportingIsQuiet(s: State, step: Step)
    requires Enabled(s, step)
    ensures Apply(s, step).reported == s.reported || Quiet(s, Apply(s, step))
  {
    match step {
      case CompleteReq(w) => CompleteIsQuiet(s, w);
      case RecvAck(w, f) => AckIsQuiet(s, w, f);
      case Poll(h) => PollIsQuiet(s, h);
      case RecvInfo(w, f, resolve) => InfoReportsNobody(s, w, f, resolve);
      case RecvData(w, f, peer) => DataReportsNobody(s, w, f, peer);
      case AcquireChunk(w) => AcquireReportsNobody(s, w);
      case ReleaseChunk(w, success) => ReleaseReportsNobody(s, w, success);
      case Enqueue(h, post, callback) => EnqueueReportsNobody(s, h, post, callback);
      case Process(h, reqs, meta) => ProcessReportsNobody(s, h, reqs, meta);
      case Respond(w) => RespondReportsNobody(s, w);
      case _ =>
    }
  }

  lemma ReportedHere(s: State, s': State, h: PostId)
    requires ReportedOk(s'.reported, s'.posts, s'.routes, s'.delivered) && h in s'.reported
    requires s'.routes == s.routes && s'.delivered == s.delivered
    ensures HasRequests(h, s.routes) && AllHere(h, s.routes, s.delivered)
  {
  }

  lemma ReportArrives(s: State, s': State, h: PostId)
    requires Inv(s) && Told(s) && ReportedOk(s'.reported, s'.posts, s'.routes, s'.delivered)
    requires h !in s.reported && h in s'.reported
    requires Quiet(s, s')
    ensures AllArrived(s', h)
  {
    ReportedHere(s, s', h);
    HereArrived(s, h);
    assert forall x <- s.asked :: x.h == h ==> Arrived(s', x) by {
      forall x | x in s.asked && x.h == h ensures Arrived(s', x) {
        assert Arrived(s, x);
      }
    }
  }

  /**
    * End-to-end safety of writes and reads: at the moment the application is told that a
    * post has succeeded, by callback or by poll, every byte of every request of the post
    * is equal at both ends.
    */
  lemma ReportedMeansArrived(run: seq<State>, steps: seq<Step>, n: nat, h: PostId)
    requires IsRun(run, steps) && n < |steps|
    requires h !in run[n].reported && h in run[n + 1].reported
    ensures AllArrived(run[n + 1], h)
  {
    RunKeeps(run, steps, n);
    RunKeeps(run, steps, n + 1);
    assert Enabled(run[n], steps[n]) && run[n + 1] == Apply(run[n], steps[n]);
    ReportingIsQuiet(run[n], steps[n]);
    ReportArrives(run[n], run[n + 1], h);
  }

  /** What RequestTracker::Check reports at the initiator, in the table its engine keeps the post in. */
  function StatusAtHome(s: State, h: PostId): Status
    requires h in s.posts
  {
    Check(if s.posts[h].op.Write? then s.out else s.inc, HomePlace(s.posts[h], h))
  }

  lemma SuccessHere(s: State, h: PostId)
    requires h in s.posts && StatusAtHome(s, h).Success? && PostsOk(s.posts)
    requires OutOk(s.out, s.posts, s.routes, s.written) && WrittenOk(s.written, s.delivered, s.posts)
    requires IncOk(s.inc, s.posts, s.routes, s.registered, s.delivered)
    ensures HasRequests(h, s.routes) && AllHere(h, s.routes, s.delivered)
  {
    if s.posts[h].op.Write? {
      PolledOut(s, h);
    } else {
      IncComplete(s, h);
    }
  }

  /** The status alone already means it, before anybody asks. */
  lemma SuccessMeansArrived(run: seq<State>, steps: seq<Step>, n: nat, h: PostId)
    requires IsRun(run, steps) && n < |run|
    requires h in run[n].posts && h !in run[n].reported && StatusAtHome(run[n], h).Success?
    ensures AllArrived(run[n], h)
  {
    RunKeeps(run, steps, n);
    SuccessHere(run[n], h);
    HereArrived(run[n], h);
  }

  /** Whether another post's outgoing entry, under the same handle, stands in the way of polling a read. */
  predicate Shadowed(s: State, h: PostId)
    requires h in s.posts
  {
    s.posts[h].op.Read? && HomePlace(s.posts[h], h) in s.out
  }

  /** What a poll finds, and does if that is success. */
  ghost predicate Polls(s: State, h: PostId, s': State) {
    && h in s.posts && s'.posts == s.posts
    && if AtHome(s, h) && StatusAtHome(s, h).Success? && !Shadowed(s, h)
       then s'.reported == s.reported + {h} && !AtHome(s', h)
       else s' == s
  }

  lemma PollsOut(s: State, h: PostId)
    requires h in s.posts && PostsOk(s.posts) && OutOk(s.out, s.posts, s.routes, s.written)
    requires WrittenOk(s.written, s.delivered, s.posts) && Check(s.out, HomePlace(s.posts[h], h)).Success?
    ensures Polls(s, h, DoPoll(s, h))
  {
    PolledOut(s, h);
  }

  lemma PollsInc(s: State, h: PostId)
    requires h in s.posts && PostsOk(s.posts) && IncOk(s.inc, s.posts, s.routes, s.registered, s.delivered)
    requires Check(s.out, HomePlace(s.posts[h], h)).NotFound? && Check(s.inc, HomePlace(s.posts[h], h)).Success?
    ensures Polls(s, h, DoPoll(s, h))
  {
    IncComplete(s, h);
  }

  lemma PollsNothing(s: State, h: PostId)
    requires h in s.posts && !Check(s.out, HomePlace(s.posts[h], h)).Success?
    requires Check(s.out, HomePlace(s.posts[h], h)).NotFound? ==> !Check(s.inc, HomePlace(s.posts[h], h)).Success?
    ensures Polls(s, h, DoPoll(s, h))
  {
    assert DoPoll(s, h) == s;
  }

  lemma PollOutcome(s: State, h: PostId)
    requires h in s.posts && PostsOk(s.posts) && OutOk(s.out, s.posts, s.routes, s.written)
    requires WrittenOk(s.written, s.delivered, s.posts)
    requires IncOk(s.inc, s.posts, s.routes, s.registered, s.delivered)
    ensures Polls(s, h, DoPoll(s, h))
  {
    var k := HomePlace(s.posts[h], h);
    if Check(s.out, k).Success? {
      PollsOut(s, h);
    } else if Check(s.out, k).NotFound? && Check(s.inc, k).Success? {
      PollsInc(s, h);
    } else {
      PollsNothing(s, h);
    }
  }

  /**
    * A poll reports success if and only if every chunk of the post is DONE at its initiator
    * and no other post's entry is found first; then it erases the entry, else it does nothing.
    */
  lemma PollReportsExactly(run: seq<State>, steps: seq<Step>, n: nat)
    requires IsRun(run, steps) && n < |steps| && steps[n].Poll?
    ensures Polls(run[n], steps[n].h, run[n + 1])
  {
    RunKeeps(run, steps, n);
    assert Enabled(run[n], steps[n]) && run[n + 1] == Apply(run[n], steps[n]);
    PollOutcome(run[n], steps[n].h);
  }

  // --- Callbacks ---------------------------------------------------------------------------

  /** Once the receiver's post callback has run, every chunk of every request is DONE. */
  ghost predicate CallbackIsTrue(s: State, h: PostId) {
    s.postCalls[h] >= 1 ==> HasRequests(h, s.routes) && AllHere(h, s.routes, s.delivered)
  }

  /**
    * The receiver's post callback runs at most once, and, unless the post is a read from
    * oneself, only when every chunk of every request is DONE; while the buffers are in
    * use their bytes are there too.
    */
  lemma PostCallbackOnce(run: seq<State>, steps: seq<Step>, n: nat, h: PostId)
    requires IsRun(run, steps) && n < |run|
    ensures run[n].postCalls[h] <= 1
    ensures run[n].postCalls[h] == 1 ==> h in run[n].posts
    ensures h in run[n].posts && Proper(run[n].posts[h]) ==> CallbackIsTrue(run[n], h)
    ensures run[n].postCalls[h] == 1 && Proper(run[n].posts[h]) && h !in run[n].freed ==> AllArrived(run[n], h)
  {
    var s := run[n];
    RunKeeps(run, steps, n);
    CallbackFacts(s, h);
    if s.postCalls[h] >= 1 && Proper(s.posts[h]) && h !in s.freed {
      HereArrived(s, h);
    }
  }

  lemma CallbackFacts(s: State, h: PostId)
    requires EveryPostTold(s) && PostsOk(s.posts) && IncOk(s.inc, s.posts, s.routes, s.registered, s.delivered)
    ensures s.postCalls[h] <= 1 && (s.postCalls[h] == 1 ==> h in s.posts)
    ensures h in s.posts && Proper(s.posts[h]) ==> CallbackIsTrue(s, h)
  {
    assert PostTold(s, h);
    RegisteredHasRequests(s, h);
  }

  /** No entry of `h` counts below zero or above its number of requests. */
  ghost predicate PendingInRange(s: State, h: PostId) {
    forall k <- s.inc :: IncPost(k) == h ==> 0 <= s.inc[k].pending <= |s.inc[k].reqs|
  }

  /** pending_reqs never underflows, at either end, in any entry of any post but a read from oneself. */
  lemma PendingNeverNegative(run: seq<State>, steps: seq<Step>, n: nat, h: PostId)
    requires IsRun(run, steps) && n < |run| && h in run[n].posts && Proper(run[n].posts[h])
    ensures PendingInRange(run[n], h)
  {
    RunKeeps(run, steps, n);
    PendingBounded(run[n], h);
  }

  lemma PendingBounded(s: State, h: PostId)
    requires Inv(s) && Told(s) && h in s.posts && Proper(s.posts[h])
    ensures PendingInRange(s, h)
  {
    forall k | k in s.inc && IncPost(k) == h ensures 0 <= s.inc[k].pending <= |s.inc[k].reqs| {
      assert IncEntryOk(k, s.inc[k], s.posts, s.routes, s.registered, s.delivered);
      if k == RecvPlace(s.posts[h], h) {
        CountedBounded(s, k);
      } else {
        assert PostTold(s, h);
        assert |s.inc[k].reqs| >= 1;
      }
    }
  }

  lemma CountedBounded(s: State, k: Place)
    requires k in s.inc && CountedOk(s.counted, s.routes, s.delivered) && PopulatedOk(s.inc, s.posts, s.routes)
    requires var h := IncPost(k);
      && h in s.posts && k == RecvPlace(s.posts[h], h)
      && (s.inc[k].reqs != map[] ==> SameIds(s.inc[k].reqs.Keys, h, s.routes))
    requires PendingOk(s.inc, s.posts, s.counted)
    ensures 0 <= s.inc[k].pending <= |s.inc[k].reqs|
  {
    var h, keys := IncPost(k), s.inc[k].reqs.Keys;
    if s.inc[k].reqs == map[] {
      NoCountsOf(s, h);
    } else {
      var ids := IdsOf(h, keys);
      IdsOfSize(h, keys);
      assert CountedOf(s.counted, h) <= ids;
      SubsetSize(CountedOf(s.counted, h), ids);
      assert |s.inc[k].reqs| == |keys|;
    }
  }

  /** Every OnReqComplete that finds its entry finds a positive count, unless the post is a read from oneself. */
  lemma CountsDownFromPositive(run: seq<State>, steps: seq<Step>, n: nat)
    requires IsRun(run, steps) && n < |steps| && steps[n].CompleteReq?
    ensures var s, w := run[n], steps[n].w;
      var k := s.rx[w].place;
      k in s.inc ==> IncPost(k) in s.posts && (Proper(s.posts[IncPost(k)]) ==> s.inc[k].pending >= 1)
  {
    var s, w := run[n], steps[n].w;
    RunKeeps(run, steps, n);
    assert Enabled(s, steps[n]);
    match s.rx[w].why {
      case Finished(x) =>
        if s.rx[w].place in s.inc {
          FinishedFacts(s, w, x);
        }
      case Echoed(x) => TargetCount(s, w, x.h);
      case Served(h) => TargetCount(s, w, h);
    }
  }

  lemma TargetCount(s: State, w: Worker, h: PostId)
    requires CanComplete(s, w) && OwesTarget(s.rx[w], h) && EveryPostTold(s) && PostsOk(s.posts)
    requires TokensOk(s.rx, s.posts, s.routes, s.counted, s.delivered)
    requires IncOk(s.inc, s.posts, s.routes, s.registered, s.delivered)
    ensures h in s.posts && IncPost(s.rx[w].place) == h
    ensures s.rx[w].place in s.inc && Proper(s.posts[h]) ==> s.inc[s.rx[w].place].pending >= 1
  {
    TargetEntry(s, w, h);
    assert PostTold(s, h);
    TargetThere(s, w, h);
    assert s.rx[w].why.Served? ==> OwesServed(s.rx[w], h);
  }

  /** A PostInfo whose addresses do not all resolve changes nothing at all. */
  lemma UnresolvedRegistersNothing(run: seq<State>, steps: seq<Step>, n: nat)
    requires IsRun(run, steps) && n < |steps| && steps[n].RecvInfo? && !AllResolve(steps[n].f.infos, steps[n].resolve)
    ensures run[n + 1] == run[n]
  {
    var s, step := run[n], steps[n];
    RunKeeps(run, steps, n);
    assert Enabled(s, step) && run[n + 1] == Apply(s, step);
    InfoInNet(s, step.f);
    RecvInfoOutcome(s, step.w, step.f, step.resolve);
  }

  /** However many copies of its PostInfo arrive, a read is handed to the responder once, by the first accepted. */
  lemma ReadServedOnce(run: seq<State>, steps: seq<Step>, n: nat, h: PostId)
    requires IsRun(run, steps) && n < |run|
    ensures run[n].served[h] <= 1
    ensures run[n].served[h] == 1 <==> h in run[n].registered && h in run[n].posts && run[n].posts[h].op.Read?
  {
    RunKeeps(run, steps, n);
    assert PostTold(run[n], h);
  }

  /** on_complete runs at most once, when everything has been delivered, with the entry already erased. */
  lemma DoneCallbackOnce(run: seq<State>, steps: seq<Step>, n: nat, h: PostId)
    requires IsRun(run, steps) && n < |run|
    ensures run[n].doneCalls[h] <= 1
    ensures run[n].doneCalls[h] == 1 ==>
      h in run[n].posts && !AtHome(run[n], h) && AllHere(h, run[n].routes, run[n].delivered)
  {
    RunKeeps(run, steps, n);
    assert PostTold(run[n], h);
  }

  // --- Lookups: when they miss ------------------------------------------------------------------

  /** The acknowledgement finds no entry, or the one of its own post. */
  predicate FindsOwn(s: State, w: Worker, f: Frame)
    requires f.AckFrame?
  {
    AckPlace(w, f) in s.out ==> OutPost(AckPlace(w, f), s.out[AckPlace(w, f)]) == f.id.h
  }

  lemma OwnHasRequest(s: State, w: Worker, f: Frame)
    requires f.AckFrame? && ChunkId(f.id, f.i) in s.written && f.id in s.routes && f.id.h in s.posts
    requires AckPlace(w, f) == SendPlace(s.posts[f.id.h], f.id.h) && AckPlace(w, f) in s.out && FindsOwn(s, w, f)
    requires OutOk(s.out, s.posts, s.routes, s.written) && EveryPostTold(s)
    requires DataSent(s.net, s.rx, s.written, s.sending.Keys)
    ensures f.id.r in s.out[AckPlace(w, f)].reqs
  {
    var k := AckPlace(w, f);
    assert PostTold(s, f.id.h) && Mine(s, f.id.h);
    assert ChunkId(f.id, f.i).id.h in s.sending;
    assert OutEntryOk(k, s.out[k], s.posts, s.routes, s.written);
  }

  /**
    * Update looks its request up with at(): an acknowledgement makes it abort exactly when
    * the entry under its handle is another post's.
    */
  lemma AckAbortsExactly(run: seq<State>, steps: seq<Step>, n: nat, w: Worker, f: Frame)
    requires IsRun(run, steps) && n < |run|
    requires f in run[n].net && f.AckFrame? && w.host == f.dst && Ready(run[n], w)
    ensures CanRecvAck(run[n], w, f) <==> FindsOwn(run[n], w, f)
  {
    var s := run[n];
    RunKeeps(run, steps, n);
    AckEntry(s, w, f);
    if AckPlace(w, f) in s.out && FindsOwn(s, w, f) {
      OwnHasRequest(s, w, f);
    }
  }

  /** So it never does where no two posts send from one host under one handle. */
  lemma AckNeverAborts(run: seq<State>, steps: seq<Step>, n: nat, w: Worker, f: Frame)
    requires IsRun(run, steps) && n < |run|
    requires f in run[n].net && f.AckFrame? && w.host == f.dst && Ready(run[n], w)
    requires forall g <- run[n].posts :: SendPlace(run[n].posts[g], g) == AckPlace(w, f) ==> g == f.id.h
    ensures CanRecvAck(run[n], w, f)
  {
    var s, k := run[n], AckPlace(w, f);
    RunKeeps(run, steps, n);
    if k in s.out {
      assert OutEntryOk(k, s.out[k], s.posts, s.routes, s.written);
    }
    AckAbortsExactly(run, steps, n, w, f);
  }

  /** A thread that acquired a chunk writes it alone in its entry, before it is DONE, and can always release it. */
  lemma WriterIsAlone(run: seq<State>, steps: seq<Step>, n: nat, w: Worker)
    requires IsRun(run, steps) && n < |run| && w in run[n].rx && run[n].rx[w].Writing?
    ensures CanRelease(run[n], w, false)
    ensures var t := run[n].rx[w];
      && t.f.i !in run[n].inc[t.place].reqs[t.f.id.r].chunks.done && t.f.id.h !in run[n].freed
      && forall v <- run[n].rx :: WritesChunk(run[n].rx[v], t.place, ChunkId(t.f.id, t.f.i)) ==> v == w
  {
    var s := run[n];
    RunKeeps(run, steps, n);
    WriterIsLive(s, w);
    WriterTracks(s, w);
    assert WritesChunk(s.rx[w], s.rx[w].place, ChunkId(s.rx[w].f.id, s.rx[w].f.i));
  }

  /** The entry of a looked-up chunk has its request, if it is there at all. */
  lemma PlacedEntry(s: State, w: Worker)
    requires w in s.rx && (s.rx[w].Located? || s.rx[w].Found?) && PlacedOk(w, s.rx[w], s.posts, s.routes)
    requires PostsOk(s.posts) && IncOk(s.inc, s.posts, s.routes, s.registered, s.delivered)
    requires PopulatedOk(s.inc, s.posts, s.routes) && RoutesOk(s.routes, s.posts, s.registered)
    ensures s.rx[w].place.key.handle == s.rx[w].f.id.h.handle
    ensures Present(s.inc, s.rx[w]) <==> s.rx[w].place in s.inc
    ensures s.rx[w].place.key.peer != NOBODY ==> s.rx[w].place in s.inc
    ensures s.rx[w].place.key.peer == NOBODY ==>
      s.posts[s.rx[w].f.id.h].op.Read? && s.rx[w].place == HomePlace(s.posts[s.rx[w].f.id.h], s.rx[w].f.id.h)
  {
    var t := s.rx[w];
    var h := t.f.id.h;
    RecvPlaceIs(s.posts, h);
    assert RouteOk(s.routes[t.f.id], s.posts[h], h in s.registered);
    if t.place in s.inc {
      assert IncEntryOk(t.place, s.inc[t.place], s.posts, s.routes, s.registered, s.delivered);
    }
  }

  /** The chunk was looked up in the initiator's own entry, and the initiator has been told of success since. */
  predicate IsLate(s: State, t: Rx)
    requires t.Located? || t.Found?
  {
    t.f.DataFrame? && t.place.key.peer == NOBODY && t.f.id.h in s.reported
  }

  /**
    * Find aborts on a looked-up chunk, and Acquire goes through a dangling reference,
    * exactly when the chunk is of a read whose success has been reported since it was
    * looked up. By then the chunk is a duplicate: all of the read is there.
    */
  lemma FindMissesExactly(run: seq<State>, steps: seq<Step>, n: nat, w: Worker)
    requires IsRun(run, steps) && n < |run| && w in run[n].rx && (run[n].rx[w].Located? || run[n].rx[w].Found?)
    ensures run[n].rx[w].Located? ==> (CanFind(run[n], w) <==> !IsLate(run[n], run[n].rx[w]))
    ensures run[n].rx[w].Found? ==> (CanAcquire(run[n], w) <==> !IsLate(run[n], run[n].rx[w]))
    ensures IsLate(run[n], run[n].rx[w]) ==> ReadIsOver(run[n], run[n].rx[w].f.id.h)
  {
    var s := run[n];
    RunKeeps(run, steps, n);
    Placed(s, w);
    PlacedEntry(s, w);
    EntryGone(s, s.rx[w].f.id.h);
  }

  /** A read whose success has been reported: every chunk is there. */
  ghost predicate ReadIsOver(s: State, h: PostId) {
    h in s.posts && s.posts[h].op.Read? && h in s.reported && AllHere(h, s.routes, s.delivered)
  }

  lemma EntryGone(s: State, h: PostId)
    requires h in s.posts && EveryPostTold(s) && ReportedOk(s.reported, s.posts, s.routes, s.delivered)
    ensures s.posts[h].op.Read? ==> (HomePlace(s.posts[h], h) !in s.inc <==> ReadIsOver(s, h))
    ensures s.posts[h].op.Read? ==> (h in s.reported <==> ReadIsOver(s, h))
  {
    assert PostTold(s, h);
  }

  /** Once accepted, a PostInfo's entry stays, with its requests: later data finds them. */
  lemma AcceptedStays(run: seq<State>, steps: seq<Step>, n: nat, f: Frame)
    requires IsRun(run, steps) && n < |run| && f in run[n].net && f.InfoFrame? && f.h in run[n].registered
    ensures InfoPlace(f) in run[n].inc && run[n].inc[InfoPlace(f)].reqs.Keys == f.infos.Keys
  {
    var s := run[n];
    RunKeeps(run, steps, n);
    InfoInNet(s, f);
    AcceptedKeys(s, f);
  }

  lemma AcceptedKeys(s: State, f: Frame)
    requires f.InfoFrame? && InfoOk(f, s.posts, s.routes) && f.h in s.registered && PostsOk(s.posts)
    requires IncOk(s.inc, s.posts, s.routes, s.registered, s.delivered)
    ensures InfoPlace(f) in s.inc && s.inc[InfoPlace(f)].reqs.Keys == f.infos.Keys
  {
    var k := InfoPlace(f);
    RecvPlaceIs(s.posts, f.h);
    assert k == TargetPlace(s.posts[f.h], f.h);
    assert IncEntryOk(k, s.inc[k], s.posts, s.routes, s.registered, s.delivered);
    forall r ensures r in s.inc[k].reqs.Keys <==> r in f.infos.Keys {
      assert r in s.inc[k].reqs.Keys ==> Id(f.h, r) in s.routes;
      assert r in f.infos.Keys ==> Id(f.h, r) in s.routes;
    }
  }

  /** Looked up under the initiator of its write, the frame gets past Check and GetChunkAddr. */
  ghost predicate IsLocated(s: State, w: Worker, f: Frame) {
    && f.DataFrame? && f.id.h in s.posts
    && var k := TargetPlace(s.posts[f.id.h], f.id.h);
       && k in s.inc && f.id.r in s.inc[k].reqs
       && DoRecvData(s, w, f, f.id.h.owner)
            == s.(rx := s.rx[w := Located(k, f, s.inc[k].reqs[f.id.r].raddr + f.offset)])
  }

  lemma LocatedIs(s: State, w: Worker, f: Frame, peer: Host)
    requires f.DataFrame?
    requires var k := Place(w.host, Key(peer, f.id.h.handle));
      k in s.inc && f.id.r in s.inc[k].reqs && s.inc[k].reqs[f.id.r].raddr != 0
    ensures var k := Place(w.host, Key(peer, f.id.h.handle));
      DoRecvData(s, w, f, peer) == s.(rx := s.rx[w := Located(k, f, s.inc[k].reqs[f.id.r].raddr + f.offset)])
  {
  }

  /** The entry a chunk of an accepted write is looked up in. */
  lemma PlaceOfWrite(s: State, w: Worker, f: Frame)
    requires f.DataFrame? && DataOk(f, s.posts, s.routes) && w.host == f.dst && f.id.h in s.registered
    requires s.posts[f.id.h].op.Write? && PostsOk(s.posts)
    requires IncOk(s.inc, s.posts, s.routes, s.registered, s.delivered) && RoutesOk(s.routes, s.posts, s.registered)
    ensures var k := TargetPlace(s.posts[f.id.h], f.id.h);
      && k == Place(w.host, Key(f.id.h.owner, f.id.h.handle))
      && k in s.inc && f.id.r in s.inc[k].reqs && s.inc[k].reqs[f.id.r].raddr != 0
  {
    ResolvedAt(s, f.id);
    OwnerIs(s, f.id.h);
  }

  lemma AcceptedLocated(s: State, w: Worker, f: Frame)
    requires Inv(s) && CanRecvData(s, w, f) && f.id.h in s.registered
    requires f.id.h in s.posts && s.posts[f.id.h].op.Write?
    ensures IsLocated(s, w, f)
  {
    FrameOk(s, f);
    PlaceOfWrite(s, w, f);
    LocatedThere(s, w, f);
  }

  lemma LocatedThere(s: State, w: Worker, f: Frame)
    requires f.DataFrame? && f.id.h in s.posts
    requires var k := TargetPlace(s.posts[f.id.h], f.id.h);
      && k == Place(w.host, Key(f.id.h.owner, f.id.h.handle))
      && k in s.inc && f.id.r in s.inc[k].reqs && s.inc[k].reqs[f.id.r].raddr != 0
    ensures IsLocated(s, w, f)
  {
    LocatedIs(s, w, f, f.id.h.owner);
  }

  /** A data frame of an accepted write is located, at its place in the buffer the target resolved. */
  lemma AcceptedIsLocated(run: seq<State>, steps: seq<Step>, n: nat, w: Worker, f: Frame)
    requires IsRun(run, steps) && n < |run| && CanRecvData(run[n], w, f) && f.id.h in run[n].registered
    requires f.id.h in run[n].posts && run[n].posts[f.id.h].op.Write?
    ensures IsLocated(run[n], w, f)
  {
    RunKeeps(run, steps, n);
    AcceptedLocated(run[n], w, f);
  }

  /** The bytes of a write are put where the target resolved them to. */
  lemma DestinationIsResolved(run: seq<State>, steps: seq<Step>, n: nat, x: Id)
    requires IsRun(run, steps) && n < |run| && x in run[n].routes && x.h in run[n].registered
    requires x.h in run[n].posts && run[n].posts[x.h].op.Write?
    ensures var s := run[n];
      var k := TargetPlace(s.posts[x.h], x.h);
      k in s.inc && x.r in s.inc[k].reqs && s.routes[x].dst == Some(Loc(k.host, s.inc[k].reqs[x.r].raddr))
  {
    RunKeeps(run, steps, n);
    ResolvedAt(run[n], x);
  }

  lemma ResolvedAt(s: State, x: Id)
    requires IncOk(s.inc, s.posts, s.routes, s.registered, s.delivered) && RoutesOk(s.routes, s.posts, s.registered)
    requires x in s.routes && x.h in s.registered && x.h in s.posts && s.posts[x.h].op.Write? && PostsOk(s.posts)
    ensures var k := TargetPlace(s.posts[x.h], x.h);
      && k in s.inc && x.r in s.inc[k].reqs && s.inc[k].reqs[x.r].raddr != 0
      && s.routes[x].dst == Some(Loc(k.host, s.inc[k].reqs[x.r].raddr))
  {
    var k := TargetPlace(s.posts[x.h], x.h);
    RecvPlaceIs(s.posts, x.h);
    assert IncEntryOk(k, s.inc[k], s.posts, s.routes, s.registered, s.delivered);
    assert x == Id(x.h, x.r) && Receives(s.inc[k].reqs[x.r], x, s.routes, s.delivered);
    assert RouteOk(s.routes[x], s.posts[x.h], x.h in s.registered);
  }
}
