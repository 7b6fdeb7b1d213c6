/**
  * The stream-order assumption of the receiver, from the send queues to the trackers: a
  * receive thread that has accepted every PostInfo of its stream so far finds the handle
  * of every chunk of a write the sender initiated.
  */
module Streams {
  import opened Trackers
  import opened Protocol
  import opened Invariant
  import opened Safety
  import opened Delivery
  import opened Theorems
  import Sending

  /** The peer of the channel once `read` has been received: every PostInfo names the sender's endpoint. */
  function PeerAfter(read: seq<Sending.Item>, sender: Host): Host {
    if exists item <- read :: item.Info? then sender else NOBODY
  }

  /** Add returned true for a PostInfo of `h` before state `n`. */
  ghost predicate Took(run: seq<State>, steps: seq<Step>, n: nat, h: PostId)
    requires IsRun(run, steps)
  {
    exists m: nat :: m < n && m < |steps| && TookAt(run[m], steps[m], h)
  }

  ghost predicate TookAt(s: State, step: Step, h: PostId) {
    && step.RecvInfo? && step.f.InfoFrame? && step.f.h == h
    && !Rejects(s.inc, InfoPlace(step.f), step.f.infos, step.resolve)
  }

  /** Whichever copy it is, the post is registered when its Add returns true. */
  lemma TookRegisters(s: State, step: Step, h: PostId)
    requires Inv(s) && Enabled(s, step) && TookAt(s, step, h)
    ensures h in Apply(s, step).registered
  {
    InfoInNet(s, step.f);
    RegistersWhen(s, step.f, step.resolve);
    RecvInfoOutcome(s, step.w, step.f, step.resolve);
    if !Registers(s, step.f, step.resolve) {
      PopulatedIsRegistered(s, step.f);
    }
  }

  lemma PopulatedIsRegistered(s: State, f: Frame)
    requires f.InfoFrame? && InfoOk(f, s.posts, s.routes) && PostsOk(s.posts) && InfoPlace(f) in s.inc
    requires IncOk(s.inc, s.posts, s.routes, s.registered, s.delivered)
    ensures f.h in s.registered
  {
    RecvPlaceIs(s.posts, f.h);
    assert IncEntryOk(InfoPlace(f), s.inc[InfoPlace(f)], s.posts, s.routes, s.registered, s.delivered);
  }

  lemma PostingRegistersNobody(s: State, step: Step)
    requires Enabled(s, step) && IsPostingStep(step)
    ensures Apply(s, step).registered == s.registered
  {
  }

  lemma DataRegistersNobody(s: State, step: Step)
    requires Enabled(s, step) && IsDataStep(step)
    ensures Apply(s, step).registered == s.registered
  {
  }

  lemma ReleaseRegistersNobody(s: State, w: Worker, success: bool)
    requires CanRelease(s, w, success)
    ensures DoRelease(s, w, success).registered == s.registered
  {
  }

  lemma InfoRegistersMore(s: State, w: Worker, f: Frame, resolve: map<ReqId, Addr>)
    requires f.InfoFrame? && f.h in s.posts
    ensures s.registered <= DoRecvInfo(s, w, f, resolve).registered
  {
  }

  lemma RegisteredStays(s: State, step: Step)
    requires Enabled(s, step)
    ensures s.registered <= Apply(s, step).registered
  {
    if IsPostingStep(step) {
      PostingRegistersNobody(s, step);
    } else if IsDataStep(step) {
      DataRegistersNobody(s, step);
    } else {
      match step {
        case ReleaseChunk(w, success) => ReleaseRegistersNobody(s, w, success);
        case RecvInfo(w, f, resolve) => InfoRegistersMore(s, w, f, resolve);
        case CompleteReq(w) => CompleteIsQuiet(s, w);
        case RecvAck(w, f) => AckIsQuiet(s, w, f);
        case Poll(h) => PollIsQuiet(s, h);
        case _ =>
      }
    }
  }

  lemma {:induction false} StaysRegistered(run: seq<State>, steps: seq<Step>, m: nat, n: nat)
    requires IsRun(run, steps) && m <= n < |run|
    ensures run[m].registered <= run[n].registered
  {
    if m < n {
      StaysRegistered(run, steps, m, n - 1);
      assert Enabled(run[n - 1], steps[n - 1]) && run[n - 1 + 1] == Apply(run[n - 1], steps[n - 1]);
      RegisteredStays(run[n - 1], steps[n - 1]);
    }
  }

  lemma TookIsRegistered(run: seq<State>, steps: seq<Step>, n: nat, h: PostId)
    requires IsRun(run, steps) && n < |run| && Took(run, steps, n, h)
    ensures h in run[n].registered
  {
    var m: nat :| m < n && m < |steps| && TookAt(run[m], steps[m], h);
    RunKeeps(run, steps, m);
    assert Enabled(run[m], steps[m]) && run[m + 1] == Apply(run[m], steps[m]);
    TookRegisters(run[m], steps[m], h);
    StaysRegistered(run, steps, m + 1, n);
  }

  /** The hypotheses about the sender: any interleaving of its engine and send threads, with any failure. */
  ghost predicate IsStream(posts: seq<Sending.Post>, events: seq<Sending.Event>, w: nat, sender: Host,
                           read: seq<Sending.Item>)
  {
    && (forall p <- posts :: p.local <==> p.h.owner == sender)
    && Sending.Enqueued(events) <= Sending.Program(posts)
    && read <= Sending.After(events, w, Sending.Stream).wire
  }

  lemma InfoBeforeChunk(posts: seq<Sending.Post>, events: seq<Sending.Event>, w: nat, sender: Host,
                        read: seq<Sending.Item>, j: nat)
    requires IsStream(posts, events, w, sender, read)
    requires j < |read| && read[j].Chunk? && read[j].h.owner == sender
    ensures Sending.Info(read[j].h) in read[..j] && PeerAfter(read[..j], sender) == sender
  {
    Sending.StreamOrder(posts, {read[j].h}, events, w, read);
  }

  /**
    * A receive thread that got as far as a chunk of a write of the sender, with every
    * PostInfo before it accepted, does not meet an unregistered handle: looked up under the
    * peer those PostInfos set, the chunk gets past Check and GetChunkAddr.
    */
  lemma StreamFindsHandle(posts: seq<Sending.Post>, events: seq<Sending.Event>, w: nat, sender: Host,
                          read: seq<Sending.Item>, j: nat, run: seq<State>, steps: seq<Step>, n: nat,
                          v: Worker, f: Frame)
    requires IsStream(posts, events, w, sender, read) && j < |read| && read[j].Chunk? && read[j].h.owner == sender
    requires IsRun(run, steps) && n < |run|
    requires forall k :: 0 <= k < j && read[k].Info? ==> Took(run, steps, n, read[k].h)
    requires CanRecvData(run[n], v, f) && ChunkId(f.id, f.i) == ChunkId(Id(read[j].h, read[j].r), read[j].i)
    requires f.id.h in run[n].posts && run[n].posts[f.id.h].op.Write?
    ensures PeerAfter(read[..j], sender) == f.id.h.owner && IsLocated(run[n], v, f)
  {
    InfoBeforeChunk(posts, events, w, sender, read, j);
    var k :| 0 <= k < j && read[k] == Sending.Info(f.id.h);
    TookIsRegistered(run, steps, n, f.id.h);
    AcceptedIsLocated(run, steps, n, v, f);
  }
}
