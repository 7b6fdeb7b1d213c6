/**
  * The byte-level receive path and the protocol joined: with the answers of the trackers
  * read from the tables, receiving one frame from a stream is a sequence of protocol steps
  * of that thread, with the same bytes stored and the same acknowledgement written; so is
  * receiving one message.
  */
module Receiving {
  import opened Options
  import opened Trackers
  import opened Protocol
  import opened Delivery
  import opened Theorems
  import Example
  import Codec
  import Transfer

  // --- Frames and their bytes ------------------------------------------------------------

  function AsBytes(s: Codec.Bytes): seq<Byte> { seq(|s|, i requires 0 <= i < |s| => s[i] as Byte) }

  /** The header the frame is sent with. */
  ghost predicate HeaderOf(f: Frame, h: Codec.Header) {
    match f
    case DataFrame(_, _, id, i, offset, payload) =>
      && h.Data? && Codec.IsData(h.data.base) && h.data.base.handle == id.h.handle && h.data.base.len == |payload|
      && h.data.reqid == id.r && h.data.index == i && h.data.byteOffset == offset
    case AckFrame(_, id, i) =>
      && h.Data? && Codec.IsAck(h.data.base) && h.data.base.handle == id.h.handle
      && h.data.reqid == id.r && h.data.index == i
    case InfoFrame(_, _, id, _, _, _) => h.Info? && h.info.base.handle == id.handle
  }

  /** From `start` on the input has the payload of a data frame, as far as it has arrived. */
  ghost predicate PayloadAt(input: Codec.Bytes, start: nat, f: Frame)
    requires start <= |input| && f.DataFrame?
  {
    var n := if |f.payload| <= |input| - start then |f.payload| else |input| - start;
    AsBytes(input[start..start + n]) == f.payload[..n]
  }

  /** From `pos` on, as far as it has arrived, the stream has the frame with this header. */
  ghost predicate Arrives(input: Codec.Bytes, pos: nat, f: Frame, h: Codec.Header) {
    && HeaderOf(f, h) && pos <= |input|
    && (pos + Codec.HEADER_SIZE <= |input| ==>
          && Codec.Deserialize(input[pos..pos + Codec.HEADER_SIZE]) == Some(h)
          && (f.DataFrame? ==> PayloadAt(input, pos + Codec.HEADER_SIZE, f)))
  }

  /** So any part of it that is read is a part of the payload. */
  lemma PartOfPayload(input: Codec.Bytes, start: nat, end: nat, f: Frame)
    requires start <= end <= |input| && f.DataFrame? && end - start <= |f.payload| && PayloadAt(input, start, f)
    ensures AsBytes(input[start..end]) == f.payload[..end - start]
  {
    var n := if |f.payload| <= |input| - start then |f.payload| else |input| - start;
    var part := input[start..start + n];
    forall i | 0 <= i < end - start ensures AsBytes(input[start..end])[i] == f.payload[..end - start][i] {
      assert input[start..end][i] == input[start + i] == part[i];
      assert AsBytes(part)[i] == f.payload[..n][i];
    }
  }

  // --- What the trackers answer ------------------------------------------------------------

  /** Check, GetChunkAddr and Acquire, in a state nobody else changes in between. */
  function LookupOf(s: State, w: Worker, f: Frame, peer: Host): Transfer.Lookup
    requires f.DataFrame?
  {
    var k := Place(w.host, Key(peer, f.id.h.handle));
    if Check(s.inc, k).NotFound? then Transfer.Unregistered
    else if ChunkAddr(s.inc, k, f.id.r, f.offset) == 0 then Transfer.Unresolved
    else Transfer.Found(StatusOf(s.inc[k].reqs[f.id.r].chunks, f.i))
  }

  /** The environment of the receive call is the one the tables give. */
  ghost predicate Answers(env: Transfer.Env, s: State, w: Worker, f: Frame, peer: Host, resolve: map<ReqId, Addr>) {
    && (f.DataFrame? ==> env.lookup == LookupOf(s, w, f, peer))
    && (f.InfoFrame? ==> env.addOk == !Rejects(s.inc, InfoPlace(f), f.infos, resolve))
  }

  // --- Sequences of steps ---------------------------------------------------------------------

  /** The thread a step is taken by. */
  predicate By(w: Worker, step: Step) {
    match step
    case RecvInfo(v, _, _) => v == w
    case Respond(v) => v == w
    case RecvData(v, _, _) => v == w
    case FindChunk(v) => v == w
    case AcquireChunk(v) => v == w
    case StoreByte(v) => v == w
    case ReleaseChunk(v, _) => v == w
    case CompleteReq(v) => v == w
    case SendAck(v, _) => v == w
    case RecvAck(v, _) => v == w
    case _ => false
  }

  ghost predicate Segment(run: seq<State>, steps: seq<Step>, s: State, s': State) {
    && |run| == |steps| + 1 && run[0] == s && run[|steps|] == s'
    && forall n {:trigger steps[n]} :: 0 <= n < |steps| ==>
         Enabled(run[n], steps[n]) && run[n + 1] == Apply(run[n], steps[n])
  }

  /** The thread gets from `s` to `s'` by these steps. */
  ghost predicate Does(w: Worker, s: State, steps: seq<Step>, s': State) {
    (forall step <- steps :: By(w, step)) && exists run: seq<State> :: Segment(run, steps, s, s')
  }

  lemma Nothing(w: Worker, s: State)
    ensures Does(w, s, [], s)
  {
    var steps: seq<Step> := [];
    assert Segment([s], steps, s, s);
  }

  lemma SegmentMore(run: seq<State>, steps: seq<Step>, s: State, s1: State, step: Step)
    requires Segment(run, steps, s, s1) && Enabled(s1, step)
    ensures Segment(run + [Apply(s1, step)], steps + [step], s, Apply(s1, step))
  {
    var run', steps' := run + [Apply(s1, step)], steps + [step];
    forall n {:trigger steps'[n]} | 0 <= n < |steps'|
      ensures Enabled(run'[n], steps'[n]) && run'[n + 1] == Apply(run'[n], steps'[n])
    {
      if n < |steps| {
        assert steps'[n] == steps[n] && run'[n] == run[n] && run'[n + 1] == run[n + 1];
      } else {
        assert steps'[n] == step && run'[n] == s1 && run'[n + 1] == Apply(s1, step);
      }
    }
  }

  lemma Then(w: Worker, s: State, p: seq<Step>, s1: State, step: Step, s2: State)
    requires Does(w, s, p, s1) && Enabled(s1, step) && Apply(s1, step) == s2 && By(w, step)
    ensures Does(w, s, p + [step], s2)
  {
    var run: seq<State> :| Segment(run, p, s, s1);
    SegmentMore(run, p, s, s1, step);
  }

  /** So what holds in every run holds after any such sequence. */
  lemma DoesReaches(w: Worker, s: State, steps: seq<Step>, s': State)
    requires Does(w, s, steps, s') && Reachable(s)
    ensures Reachable(s')
  {
    var run: seq<State> :| Segment(run, steps, s, s');
    SegmentReaches(run, steps, s, s', |steps|);
  }

  lemma {:induction false} SegmentReaches(run: seq<State>, steps: seq<Step>, s: State, s': State, n: nat)
    requires Segment(run, steps, s, s') && n <= |steps| && Reachable(s)
    ensures Reachable(run[n])
  {
    if n > 0 {
      SegmentReaches(run, steps, s, s', n - 1);
      assert Enabled(run[n - 1], steps[n - 1]) && run[n - 1 + 1] == Apply(run[n - 1], steps[n - 1]);
      Example.Reach(run[n - 1], steps[n - 1], run[n]);
    }
  }

  // One lemma per kind of step.

  lemma ThenRecvData(w: Worker, s: State, p: seq<Step>, s1: State, f: Frame, peer: Host)
    requires Does(w, s, p, s1) && CanRecvData(s1, w, f)
    ensures Does(w, s, p + [RecvData(w, f, peer)], DoRecvData(s1, w, f, peer))
  {
    Then(w, s, p, s1, RecvData(w, f, peer), DoRecvData(s1, w, f, peer));
  }

  lemma ThenFind(w: Worker, s: State, p: seq<Step>, s1: State)
    requires Does(w, s, p, s1) && CanFind(s1, w)
    ensures Does(w, s, p + [FindChunk(w)], DoFind(s1, w))
  {
    Then(w, s, p, s1, FindChunk(w), DoFind(s1, w));
  }

  lemma ThenAcquire(w: Worker, s: State, p: seq<Step>, s1: State)
    requires Does(w, s, p, s1) && CanAcquire(s1, w)
    ensures Does(w, s, p + [AcquireChunk(w)], DoAcquire(s1, w))
  {
    Then(w, s, p, s1, AcquireChunk(w), DoAcquire(s1, w));
  }

  lemma ThenStore(w: Worker, s: State, p: seq<Step>, s1: State)
    requires Does(w, s, p, s1) && CanStore(s1, w)
    ensures Does(w, s, p + [StoreByte(w)], DoStoreByte(s1, w))
  {
    Then(w, s, p, s1, StoreByte(w), DoStoreByte(s1, w));
  }

  lemma ThenRelease(w: Worker, s: State, p: seq<Step>, s1: State, success: bool)
    requires Does(w, s, p, s1) && CanRelease(s1, w, success)
    ensures Does(w, s, p + [ReleaseChunk(w, success)], DoRelease(s1, w, success))
  {
    Then(w, s, p, s1, ReleaseChunk(w, success), DoRelease(s1, w, success));
  }

  lemma ThenComplete(w: Worker, s: State, p: seq<Step>, s1: State)
    requires Does(w, s, p, s1) && CanComplete(s1, w)
    ensures Does(w, s, p + [CompleteReq(w)], DoComplete(s1, w))
  {
    Then(w, s, p, s1, CompleteReq(w), DoComplete(s1, w));
  }

  lemma ThenSendAck(w: Worker, s: State, p: seq<Step>, s1: State, ok: bool)
    requires Does(w, s, p, s1) && CanSendAck(s1, w)
    ensures Does(w, s, p + [SendAck(w, ok)], DoSendAck(s1, w, ok))
  {
    Then(w, s, p, s1, SendAck(w, ok), DoSendAck(s1, w, ok));
  }

  lemma ThenRespond(w: Worker, s: State, p: seq<Step>, s1: State)
    requires Does(w, s, p, s1) && CanRespond(s1, w)
    ensures Does(w, s, p + [Respond(w)], DoRespond(s1, w))
  {
    Then(w, s, p, s1, Respond(w), DoRespond(s1, w));
  }

  // --- Storing ------------------------------------------------------------------------------------

  /** Memory with the first `n` bytes stored from `l` on. */
  function StoreAll(mem: map<Loc, Byte>, l: Loc, payload: seq<Byte>, n: nat): map<Loc, Byte>
    requires n <= |payload|
  {
    if n == 0 then mem else StoreAll(mem, l, payload, n - 1)[At(l, n - 1) := payload[n - 1]]
  }

  /** The state with `n` bytes of a chunk stored. */
  function AfterStores(s: State, w: Worker, n: nat): State
    requires w in s.rx && s.rx[w].Writing? && s.rx[w].f.DataFrame? && n <= |s.rx[w].f.payload|
  {
    var t := s.rx[w];
    s.(mem := StoreAll(s.mem, Loc(t.place.host, t.base), t.f.payload, n), rx := s.rx[w := t.(k := n)])
  }

  lemma {:induction false} StoresDone(w: Worker, s: State, p: seq<Step>, s1: State, n: nat) returns (q: seq<Step>)
    requires Does(w, s, p, s1)
    requires w in s1.rx && s1.rx[w].Writing? && s1.rx[w].f.DataFrame? && s1.rx[w].k == 0
    requires n <= |s1.rx[w].f.payload|
    ensures Does(w, s, q, AfterStores(s1, w, n)) && |q| >= |p|
  {
    if n == 0 {
      q := p;
      assert s1.rx[w := s1.rx[w].(k := 0)] == s1.rx;
    } else {
      q := StoresDone(w, s, p, s1, n - 1);
      ThenStore(w, s, q, AfterStores(s1, w, n - 1));
      OneStore(s1, w, n);
      q := q + [StoreByte(w)];
    }
  }

  lemma OneStore(s: State, w: Worker, n: nat)
    requires w in s.rx && s.rx[w].Writing? && s.rx[w].f.DataFrame? && 1 <= n <= |s.rx[w].f.payload|
    ensures CanStore(AfterStores(s, w, n - 1), w)
    ensures DoStoreByte(AfterStores(s, w, n - 1), w) == AfterStores(s, w, n)
  {
    var s1, t := AfterStores(s, w, n - 1), s.rx[w];
    assert s1.rx[w := t.(k := n)] == s.rx[w := t.(k := n)];
  }

  // --- A data chunk ---------------------------------------------------------------------------------

  function EntryOf(w: Worker, f: Frame, peer: Host): Place
    requires f.DataFrame?
  {
    Place(w.host, Key(peer, f.id.h.handle))
  }

  function AddrOf(s: State, w: Worker, f: Frame, peer: Host): Addr
    requires f.DataFrame?
  {
    ChunkAddr(s.inc, EntryOf(w, f, peer), f.id.r, f.offset)
  }

  /** What receiving a data frame of which `n` bytes can be read does to the state. */
  ghost predicate Received(s: State, w: Worker, f: Frame, peer: Host, n: nat, ackOk: bool, s': State)
    requires f.DataFrame? && n <= |f.payload|
  {
    match LookupOf(s, w, f, peer)
    case Unregistered => s' == s
    case Unresolved => s' == s
    case Found(Busy) => s' == s.(rx := s.rx[w := Idle])
    case Found(Done) => s' == s.(rx := s.rx[w := Idle], net := s.net + if ackOk then {AckOf(f)} else {})
    case Found(Empty) =>
      && s'.mem == StoreAll(s.mem, Loc(w.host, AddrOf(s, w, f, peer)), f.payload, n) && s'.rx == s.rx[w := Idle]
      && (n < |f.payload| ==> s' == s.(mem := s'.mem, rx := s'.rx))
      && (n == |f.payload| ==>
            ChunkId(f.id, f.i) in s'.written && s'.net == s.net + if ackOk then {AckOf(f)} else {})
  }

  /** The state after Acquire, which nothing has come between since the lookup. */
  function AfterAcquire(s: State, w: Worker, f: Frame, peer: Host): State
    requires f.DataFrame? && LookupOf(s, w, f, peer).Found?
  {
    var k := EntryOf(w, f, peer);
    var c := s.inc[k].reqs[f.id.r].chunks;
    match LookupOf(s, w, f, peer).status
    case Empty => s.(inc := WithChunks(s.inc, k, f.id.r, Acquire(c, f.i)),
                     rx := s.rx[w := Writing(k, f, AddrOf(s, w, f, peer), 0)])
    case Done => s.(rx := s.rx[w := Acking(AckOf(f))])
    case Busy => s.(rx := s.rx[w := Idle])
  }

  lemma LookedUp(s: State, w: Worker, f: Frame, peer: Host) returns (p: seq<Step>)
    requires CanRecvData(s, w, f) && LookupOf(s, w, f, peer).Found?
    ensures Does(w, s, p, s.(rx := s.rx[w := Found(EntryOf(w, f, peer), f, AddrOf(s, w, f, peer))])) && p != []
  {
    var k, a := EntryOf(w, f, peer), AddrOf(s, w, f, peer);
    var s1 := s.(rx := s.rx[w := Located(k, f, a)]);
    Nothing(w, s);
    ThenRecvData(w, s, [], s, f, peer);
    ThenFind(w, s, [] + [RecvData(w, f, peer)], s1);
    assert s1.rx[w := Found(k, f, a)] == s.rx[w := Found(k, f, a)];
    p := [] + [RecvData(w, f, peer)] + [FindChunk(w)];
  }

  lemma AcquireFrom(s: State, s2: State, w: Worker, f: Frame, peer: Host)
    requires f.DataFrame? && LookupOf(s, w, f, peer).Found?
    requires s2 == s.(rx := s.rx[w := Found(EntryOf(w, f, peer), f, AddrOf(s, w, f, peer))])
    ensures CanAcquire(s2, w) && DoAcquire(s2, w) == AfterAcquire(s, w, f, peer)
  {
    var t := DoAcquire(s2, w).rx[w];
    assert s2.rx[w := t] == s.rx[w := t];
  }

  lemma Acquired(s: State, w: Worker, f: Frame, peer: Host) returns (p: seq<Step>)
    requires CanRecvData(s, w, f) && LookupOf(s, w, f, peer).Found?
    ensures Does(w, s, p, AfterAcquire(s, w, f, peer)) && p != []
  {
    var s2 := s.(rx := s.rx[w := Found(EntryOf(w, f, peer), f, AddrOf(s, w, f, peer))]);
    p := LookedUp(s, w, f, peer);
    AcquireFrom(s, s2, w, f, peer);
    ThenAcquire(w, s, p, s2);
    p := p + [AcquireChunk(w)];
  }

  /** The state when `n` bytes have been read, before Release. */
  function AfterRead(s: State, w: Worker, f: Frame, peer: Host, n: nat): State
    requires f.DataFrame? && LookupOf(s, w, f, peer) == Transfer.Found(Empty) && n <= |f.payload|
  {
    var k := EntryOf(w, f, peer);
    s.(inc := WithChunks(s.inc, k, f.id.r, Acquire(s.inc[k].reqs[f.id.r].chunks, f.i)),
       mem := StoreAll(s.mem, Loc(w.host, AddrOf(s, w, f, peer)), f.payload, n),
       rx := s.rx[w := Writing(k, f, AddrOf(s, w, f, peer), n)])
  }

  lemma ReadIn(s: State, w: Worker, f: Frame, peer: Host, n: nat) returns (p: seq<Step>)
    requires CanRecvData(s, w, f) && LookupOf(s, w, f, peer) == Transfer.Found(Empty) && n <= |f.payload|
    ensures Does(w, s, p, AfterRead(s, w, f, peer, n)) && p != []
  {
    var q := Acquired(s, w, f, peer);
    ReadIs(s, w, f, peer, n);
    p := StoresDone(w, s, q, AfterAcquire(s, w, f, peer), n);
  }

  lemma ReadIs(s: State, w: Worker, f: Frame, peer: Host, n: nat)
    requires f.DataFrame? && LookupOf(s, w, f, peer) == Transfer.Found(Empty) && n <= |f.payload|
    ensures var s3 := AfterAcquire(s, w, f, peer);
      && w in s3.rx && s3.rx[w].Writing? && s3.rx[w].f == f && s3.rx[w].k == 0
      && AfterStores(s3, w, n) == AfterRead(s, w, f, peer, n)
  {
    var s3 := AfterAcquire(s, w, f, peer);
    assert s3.rx[w := s3.rx[w].(k := n)] == AfterRead(s, w, f, peer, n).rx;
  }

  /** A failed read leaves the entry as it was. */
  lemma ReleasedEmpty(s: State, w: Worker, f: Frame, peer: Host, n: nat)
    requires f.DataFrame? && LookupOf(s, w, f, peer) == Transfer.Found(Empty) && n < |f.payload|
    ensures CanRelease(AfterRead(s, w, f, peer, n), w, false)
    ensures var s4 := AfterRead(s, w, f, peer, n);
      DoRelease(s4, w, false) == s.(mem := s4.mem, rx := s.rx[w := Idle])
  {
    var s4, k := AfterRead(s, w, f, peer, n), EntryOf(w, f, peer);
    var c := s.inc[k].reqs[f.id.r].chunks;
    assert Release(Acquire(c, f.i), f.i, false) == c;
    WithChunksTwice(s.inc, k, f.id.r, Acquire(c, f.i));
    assert s4.rx[w := Idle] == s.rx[w := Idle];
  }

  lemma WithChunksTwice(t: Table, k: Place, r: ReqId, c: Chunks)
    requires k in t && r in t[k].reqs
    ensures WithChunks(WithChunks(t, k, r, c), k, r, t[k].reqs[r].chunks) == t
  {
    var t' := WithChunks(t, k, r, c);
    assert t'[k].reqs[r := t[k].reqs[r]] == t[k].reqs;
  }

  /** What is left of the thread's work: to count the request, perhaps, and to acknowledge. */
  ghost predicate OwesAck(s: State, w: Worker, ack: Frame) {
    w in s.rx && (s.rx[w] == Acking(ack) || (s.rx[w].Completing? && s.rx[w].ack == Some(ack)))
  }

  lemma ReleasedDone(s: State, w: Worker, f: Frame, peer: Host)
    requires f.DataFrame? && LookupOf(s, w, f, peer) == Transfer.Found(Empty)
    ensures var s4 := AfterRead(s, w, f, peer, |f.payload|);
      CanRelease(s4, w, true) &&
      var s5 := DoRelease(s4, w, true);
      && s5.mem == s4.mem && s5.net == s.net && ChunkId(f.id, f.i) in s5.written
      && OwesAck(s5, w, AckOf(f)) && s5.rx == s.rx[w := s5.rx[w]]
  {
    var s4 := AfterRead(s, w, f, peer, |f.payload|);
    var s5 := DoRelease(s4, w, true);
    assert s4.rx[w := s5.rx[w]] == s.rx[w := s5.rx[w]];
  }

  lemma CompleteMoves(s: State, w: Worker)
    requires CanComplete(s, w)
    ensures Moves(s, w, NextOf(s.rx[w]), DoComplete(s, w))
  {
    match ReqCompleteCall(s.inc, s.rx[w].place) {
      case RecvPost(_, _) => CompletePosts(s, w);
      case OnComplete(_) => CompleteReports(s, w);
      case _ => CompleteCounts(s, w);
    }
  }

  /** OnReqComplete, if it is due, leaves the acknowledgement alone. */
  lemma Completed(w: Worker, s: State, p: seq<Step>, s5: State, ack: Frame) returns (q: seq<Step>, s6: State)
    requires Does(w, s, p, s5) && OwesAck(s5, w, ack)
    ensures Does(w, s, q, s6) && |q| >= |p|
    ensures s6.mem == s5.mem && s6.net == s5.net && s6.written == s5.written && s6.rx == s5.rx[w := Acking(ack)]
  {
    if s5.rx[w].Acking? {
      q, s6 := p, s5;
      assert s5.rx[w := Acking(ack)] == s5.rx;
    } else {
      ThenComplete(w, s, p, s5);
      CompleteMoves(s5, w);
      q, s6 := p + [CompleteReq(w)], DoComplete(s5, w);
    }
  }

  lemma Acknowledged(w: Worker, s: State, p: seq<Step>, s6: State, ok: bool) returns (q: seq<Step>, s': State)
    requires Does(w, s, p, s6) && w in s6.rx && s6.rx[w].Acking?
    ensures Does(w, s, q, s') && q != []
    ensures s' == s6.(rx := s6.rx[w := Idle], net := s6.net + if ok then {s6.rx[w].frame} else {})
  {
    ThenSendAck(w, s, p, s6, ok);
    q, s' := p + [SendAck(w, ok)], DoSendAck(s6, w, ok);
    assert s6.net + {} == s6.net;
  }

  /** The chunk was there already, is being stored by another thread, or cannot be placed. */
  lemma OtherReceived(s: State, w: Worker, f: Frame, peer: Host, n: nat, ackOk: bool)
    returns (steps: seq<Step>, s': State)
    requires CanRecvData(s, w, f) && n <= |f.payload| && LookupOf(s, w, f, peer) != Transfer.Found(Empty)
    ensures Does(w, s, steps, s') && Received(s, w, f, peer, n, ackOk, s') && steps != []
  {
    if LookupOf(s, w, f, peer).Found? {
      steps := Acquired(s, w, f, peer);
      s' := AfterAcquire(s, w, f, peer);
      if LookupOf(s, w, f, peer).status.Done? {
        var s3 := s';
        steps, s' := Acknowledged(w, s, steps, s3, ackOk);
        assert s3.rx[w := Idle] == s.rx[w := Idle];
      }
    } else {
      Nothing(w, s);
      ThenRecvData(w, s, [], s, f, peer);
      steps, s' := [] + [RecvData(w, f, peer)], s;
    }
  }

  /** The whole chunk is stored. */
  lemma AllStored(s: State, w: Worker, f: Frame, peer: Host) returns (p: seq<Step>, s5: State)
    requires CanRecvData(s, w, f) && LookupOf(s, w, f, peer) == Transfer.Found(Empty)
    ensures Does(w, s, p, s5) && OwesAck(s5, w, AckOf(f)) && s5.rx == s.rx[w := s5.rx[w]] && s5.net == s.net
    ensures s5.mem == StoreAll(s.mem, Loc(w.host, AddrOf(s, w, f, peer)), f.payload, |f.payload|)
    ensures ChunkId(f.id, f.i) in s5.written
  {
    var s4 := AfterRead(s, w, f, peer, |f.payload|);
    p := ReadIn(s, w, f, peer, |f.payload|);
    ReleasedDone(s, w, f, peer);
    ThenRelease(w, s, p, s4, true);
    p, s5 := p + [ReleaseChunk(w, true)], DoRelease(s4, w, true);
  }

  lemma AllReceived(s: State, w: Worker, f: Frame, peer: Host, ackOk: bool) returns (steps: seq<Step>, s': State)
    requires CanRecvData(s, w, f) && LookupOf(s, w, f, peer) == Transfer.Found(Empty)
    ensures Does(w, s, steps, s') && Received(s, w, f, peer, |f.payload|, ackOk, s') && steps != []
  {
    var p, s5 := AllStored(s, w, f, peer);
    var q, s6 := Completed(w, s, p, s5, AckOf(f));
    steps, s' := Acknowledged(w, s, q, s6, ackOk);
    assert s6.rx[w := Idle] == s.rx[w := Idle];
  }

  /** The read fails after `n` bytes. */
  lemma PartReceived(s: State, w: Worker, f: Frame, peer: Host, n: nat, ackOk: bool)
    returns (steps: seq<Step>, s': State)
    requires CanRecvData(s, w, f) && n < |f.payload| && LookupOf(s, w, f, peer) == Transfer.Found(Empty)
    ensures Does(w, s, steps, s') && Received(s, w, f, peer, n, ackOk, s') && steps != []
  {
    var s4 := AfterRead(s, w, f, peer, n);
    var p := ReadIn(s, w, f, peer, n);
    ReleasedEmpty(s, w, f, peer, n);
    ThenRelease(w, s, p, s4, false);
    steps, s' := p + [ReleaseChunk(w, false)], DoRelease(s4, w, false);
  }

  lemma DataReceived(s: State, w: Worker, f: Frame, peer: Host, n: nat, ackOk: bool)
    returns (steps: seq<Step>, s': State)
    requires CanRecvData(s, w, f) && n <= |f.payload|
    ensures Does(w, s, steps, s') && Received(s, w, f, peer, n, ackOk, s') && steps != []
  {
    if LookupOf(s, w, f, peer) != Transfer.Found(Empty) {
      steps, s' := OtherReceived(s, w, f, peer, n, ackOk);
    } else if n < |f.payload| {
      steps, s' := PartReceived(s, w, f, peer, n, ackOk);
    } else {
      steps, s' := AllReceived(s, w, f, peer, ackOk);
    }
  }

  // --- Acknowledgements and PostInfo frames ------------------------------------------------------------

  /** Nothing is stored or sent. */
  ghost predicate Silently(s: State, w: Worker, s': State) { s'.mem == s.mem && s'.net == s.net && Ready(s', w) }

  /** Update leaves the thread ready or with a completion to relay. */
  ghost predicate AckLeft(s: State, w: Worker, s': State) {
    && s'.mem == s.mem && s'.net == s.net
    && (s'.rx == s.rx || (w in s'.rx && s'.rx[w].Completing? && s'.rx[w].ack.None?))
  }

  lemma ReportLeft(s: State, w: Worker, u: State, h: PostId, doneCalls: multiset<PostId>)
    requires u == s.(out := u.out)
    ensures AckLeft(s, w, Report(u.(doneCalls := doneCalls), h))
  {
  }

  lemma RelayLeft(s: State, w: Worker, u: State, k: Place, why: Reason)
    requires u == s.(out := u.out)
    ensures AckLeft(s, w, u.(rx := s.rx[w := Completing(k, why, None)]))
  {
  }

  lemma RecvAckLeaves(s: State, w: Worker, f: Frame)
    requires CanRecvAck(s, w, f)
    ensures AckLeft(s, w, DoRecvAck(s, w, f))
  {
    var u := s.(out := Acked(s.out, AckPlace(w, f), f.id.r, f.i));
    var call, handle := AckedCall(s.out, AckPlace(w, f), f.id.r, f.i), f.id.h.handle;
    RecvAckIs(s, w, f);
    if call.OnComplete? && call.to.Relay? {
      RelayLeft(s, w, u, Place(w.host, Key(call.to.peer, handle)), Served(PostId(call.to.peer, handle)));
    } else if call.OnComplete? {
      ReportLeft(s, w, u, PostId(w.host, handle), s.doneCalls + multiset{PostId(w.host, handle)});
    }
  }

  /** Update, and the completion it relays. */
  lemma AckReceived(s: State, w: Worker, f: Frame) returns (steps: seq<Step>, s': State)
    requires CanRecvAck(s, w, f)
    ensures Does(w, s, steps, s') && Silently(s, w, s') && steps != []
  {
    var s1 := DoRecvAck(s, w, f);
    Nothing(w, s);
    Then(w, s, [], s, RecvAck(w, f), s1);
    RecvAckLeaves(s, w, f);
    steps, s' := [] + [RecvAck(w, f)], s1;
    if !Ready(s1, w) {
      ThenComplete(w, s, steps, s1);
      CompleteMoves(s1, w);
      steps, s' := steps + [CompleteReq(w)], DoComplete(s1, w);
    }
  }

  lemma RecvInfoLeaves(s: State, w: Worker, f: Frame, resolve: map<ReqId, Addr>)
    requires CanRecvInfo(s, w, f, resolve)
    ensures var s' := DoRecvInfo(s, w, f, resolve);
      && s'.mem == s.mem && s'.net == s.net && (s'.rx == s.rx || (w in s'.rx && s'.rx[w].Responding?))
      && (Registers(s, f, resolve) ==> f.h in s'.registered)
  {
  }

  lemma RespondLeaves(s: State, w: Worker)
    requires CanRespond(s, w)
    ensures Silently(s, w, DoRespond(s, w)) && DoRespond(s, w).registered == s.registered
  {
  }

  /** Add, and the serving of a read it registers. */
  lemma InfoReceived(s: State, w: Worker, f: Frame, resolve: map<ReqId, Addr>) returns (steps: seq<Step>, s': State)
    requires CanRecvInfo(s, w, f, resolve)
    ensures Does(w, s, steps, s') && Silently(s, w, s') && steps != []
    ensures Registers(s, f, resolve) ==> f.h in s'.registered
  {
    var s1 := DoRecvInfo(s, w, f, resolve);
    Nothing(w, s);
    Then(w, s, [], s, RecvInfo(w, f, resolve), s1);
    RecvInfoLeaves(s, w, f, resolve);
    steps, s' := [] + [RecvInfo(w, f, resolve)], s1;
    if !Ready(s1, w) {
      ThenRespond(w, s, steps, s1);
      RespondLeaves(s1, w);
      steps, s' := steps + [Respond(w)], DoRespond(s1, w);
    }
  }

  // --- The call -------------------------------------------------------------------------------------------

  /** The steps write an acknowledgement. */
  predicate Acknowledges(s: State, w: Worker, f: Frame, peer: Host, n: nat, ackOk: bool)
    requires f.DataFrame?
  {
    ackOk && (LookupOf(s, w, f, peer) == Transfer.Found(Done) ||
              (LookupOf(s, w, f, peer) == Transfer.Found(Empty) && n == |f.payload|))
  }

  /**
    * What the call did, given that it read the header and consumed `n` bytes after it, is what
    * the steps did: the bytes consumed are stored, and an acknowledgement is written by both
    * or by neither.
    */
  ghost predicate Agrees(s: State, w: Worker, f: Frame, h: Codec.Header, peer: Host, n: nat, ackOk: bool,
                         acks: seq<Codec.DataHeader>, s': State)
  {
    if f.DataFrame? then
      && h.Data? && n <= |f.payload| && Received(s, w, f, peer, n, ackOk, s')
      && acks == if Acknowledges(s, w, f, peer, n, ackOk) then [Transfer.AckHeader(h.data)] else []
    else Silently(s, w, s') && acks == []
  }

  lemma DataCall(s: State, w: Worker, f: Frame, h: Codec.Header, peer: Host, n: nat, env: Transfer.Env, stored: bool)
    returns (steps: seq<Step>, s': State)
    requires CanRecvData(s, w, f) && HeaderOf(f, h) && env.lookup == LookupOf(s, w, f, peer) && n <= |f.payload|
    requires stored <==> env.lookup == Transfer.Found(Empty) && n == |f.payload|
    ensures Does(w, s, steps, s') && steps != []
    ensures Agrees(s, w, f, h, peer, n, env.ackOk, Transfer.AckFor(h.data, env, stored), s')
  {
    steps, s' := DataReceived(s, w, f, peer, n, env.ackOk);
  }

  lemma ControlCall(s: State, w: Worker, f: Frame, h: Codec.Header, peer: Host, n: nat, resolve: map<ReqId, Addr>,
                    ackOk: bool)
    returns (steps: seq<Step>, s': State)
    requires !f.DataFrame?
    requires if f.AckFrame? then CanRecvAck(s, w, f) else CanRecvInfo(s, w, f, resolve)
    ensures Does(w, s, steps, s') && steps != [] && Agrees(s, w, f, h, peer, n, ackOk, [], s')
  {
    if f.AckFrame? {
      steps, s' := AckReceived(s, w, f);
    } else {
      steps, s' := InfoReceived(s, w, f, resolve);
    }
  }

  /** The frame can be received now, without an abort. */
  ghost predicate CanReceive(s: State, w: Worker, f: Frame, resolve: map<ReqId, Addr>) {
    match f
    case DataFrame(_, _, _, _, _, _) => CanRecvData(s, w, f)
    case AckFrame(_, _, _) => CanRecvAck(s, w, f)
    case InfoFrame(_, _, _, _, _, _) => CanRecvInfo(s, w, f, resolve)
  }

  /** The steps agree with the call that read the input from `start` up to `end`. */
  ghost predicate Joined(input: Codec.Bytes, start: nat, end: nat, env: Transfer.Env, acks: seq<Codec.DataHeader>,
                         s: State, w: Worker, f: Frame, h: Codec.Header, peer: Host, steps: seq<Step>, s': State)
  {
    var body := start + Codec.HEADER_SIZE;
    if steps == [] then s' == s && acks == []
    else
      && body <= end <= |input| && Agrees(s, w, f, h, peer, end - body, env.ackOk, acks, s')
      && (f.DataFrame? ==> AsBytes(input[body..end]) == f.payload[..end - body])
  }

  lemma JoinsData(input: Codec.Bytes, start: nat, end: nat, env: Transfer.Env, stored: bool, s: State, w: Worker,
                  f: Frame, h: Codec.Header, peer: Host)
    returns (steps: seq<Step>, s': State)
    requires CanRecvData(s, w, f) && HeaderOf(f, h) && env.lookup == LookupOf(s, w, f, peer)
    requires var body := start + Codec.HEADER_SIZE;
      && body <= end <= |input| && end <= body + |f.payload| && AsBytes(input[body..end]) == f.payload[..end - body]
      && (stored <==> env.lookup == Transfer.Found(Empty) && end == body + |f.payload|)
    ensures Does(w, s, steps, s') && steps != []
    ensures Joined(input, start, end, env, Transfer.AckFor(h.data, env, stored), s, w, f, h, peer, steps, s')
  {
    steps, s' := DataCall(s, w, f, h, peer, end - (start + Codec.HEADER_SIZE), env, stored);
  }

  lemma JoinsControl(input: Codec.Bytes, start: nat, end: nat, env: Transfer.Env, s: State, w: Worker, f: Frame,
                     h: Codec.Header, peer: Host, resolve: map<ReqId, Addr>)
    returns (steps: seq<Step>, s': State)
    requires !f.DataFrame? && CanReceive(s, w, f, resolve) && start + Codec.HEADER_SIZE <= end <= |input|
    ensures Does(w, s, steps, s') && steps != []
    ensures Joined(input, start, end, env, [], s, w, f, h, peer, steps, s')
  {
    steps, s' := ControlCall(s, w, f, h, peer, end - (start + Codec.HEADER_SIZE), resolve, env.ackOk);
  }

  /** The header that was decoded is the frame's, and says what was stored and acknowledged. */
  lemma HeaderRead(input: Codec.Bytes, start: nat, end: nat, env: Transfer.Env, ok: bool, header: Option<Codec.Header>,
                   payload: Option<Codec.Bytes>, f: Frame, h: Codec.Header)
    requires Transfer.FrameRead(input, start, end, env, ok, header, payload, Codec.Deserialize)
    requires Arrives(input, start, f, h)
    ensures header.None? ==> !ok && Transfer.AcksFor(env, header, payload.Some?) == []
    ensures header.Some? ==>
      var body := start + Codec.HEADER_SIZE;
      && header == Some(h) && body <= end <= |input|
      && (!f.DataFrame? ==> Transfer.AcksFor(env, header, payload.Some?) == [])
      && (f.DataFrame? ==>
            && end <= body + |f.payload| && AsBytes(input[body..end]) == f.payload[..end - body]
            && (payload.Some? <==> env.lookup == Transfer.Found(Empty) && end == body + |f.payload|)
            && Transfer.AcksFor(env, header, payload.Some?) == Transfer.AckFor(h.data, env, payload.Some?))
  {
    if header.Some? && f.DataFrame? {
      PartOfPayload(input, start + Codec.HEADER_SIZE, end, f);
    }
  }

  lemma Joins(input: Codec.Bytes, start: nat, end: nat, env: Transfer.Env, ok: bool, header: Option<Codec.Header>,
              payload: Option<Codec.Bytes>, s: State, w: Worker, f: Frame, h: Codec.Header, peer: Host,
              resolve: map<ReqId, Addr>)
    returns (steps: seq<Step>, s': State)
    requires Transfer.FrameRead(input, start, end, env, ok, header, payload, Codec.Deserialize)
    requires Arrives(input, start, f, h) && Answers(env, s, w, f, peer, resolve) && CanReceive(s, w, f, resolve)
    ensures Does(w, s, steps, s') && (steps == [] ==> !ok)
    ensures Joined(input, start, end, env, Transfer.AcksFor(env, header, payload.Some?), s, w, f, h, peer, steps, s')
  {
    HeaderRead(input, start, end, env, ok, header, payload, f, h);
    if header.None? {
      Nothing(w, s);
      steps, s' := [], s;
    } else if f.DataFrame? {
      steps, s' := JoinsData(input, start, end, env, payload.Some?, s, w, f, h, peer);
    } else {
      steps, s' := JoinsControl(input, start, end, env, s, w, f, h, peer, resolve);
    }
  }

  /**
    * Receiving one frame from a stream: if its header can be read, the thread takes steps of
    * the protocol that store the bytes consumed and write an acknowledgement if and only if
    * the call does; else it takes none.
    */
  method Receive(ch: Transfer.StreamChannel, env: Transfer.Env, ghost s: State, ghost w: Worker, ghost f: Frame,
                 ghost h: Codec.Header, ghost peer: Host, ghost resolve: map<ReqId, Addr>)
    returns (ok: bool, ghost acks: seq<Codec.DataHeader>, ghost steps: seq<Step>, ghost s': State)
    requires Arrives(ch.input, ch.pos, f, h) && Answers(env, s, w, f, peer, resolve) && CanReceive(s, w, f, resolve)
    modifies ch
    ensures Does(w, s, steps, s') && (steps == [] ==> !ok)
    ensures ch.acks == old(ch.acks) + acks
    ensures Joined(ch.input, old(ch.pos), ch.pos, env, acks, s, w, f, h, peer, steps, s')
  {
    ghost var start := ch.pos;
    var header, payload;
    ok, header, payload := ch.RecvStream(env);
    acks := Transfer.AcksFor(env, header, payload.Some?);
    steps, s' := Joins(ch.input, start, ch.pos, env, ok, header, payload, s, w, f, h, peer, resolve);
  }

  // --- Messages -------------------------------------------------------------------------------------------

  /** The packet is the frame with this header, or is dropped. */
  ghost predicate Carries(packet: Codec.Bytes, f: Frame, h: Codec.Header) {
    match Transfer.Unpack(packet)
    case None => true
    case Some((g, body)) => g == h && HeaderOf(f, h) && (f.DataFrame? ==> AsBytes(body) == f.payload)
  }

  function BodySize(f: Frame): nat { if f.DataFrame? then |f.payload| else 0 }

  /** The same for one message, of which all bytes are there if any are. */
  method ReceiveMsg(ch: Transfer.MessageChannel, env: Transfer.Env, ghost s: State, ghost w: Worker, ghost f: Frame,
                    ghost h: Codec.Header, ghost peer: Host, ghost resolve: map<ReqId, Addr>)
    returns (ok: bool, ghost acks: seq<Codec.DataHeader>, ghost steps: seq<Step>, ghost s': State)
    requires ch.next <= |ch.packets| && (ch.next < |ch.packets| ==> Carries(ch.packets[ch.next], f, h))
    requires Answers(env, s, w, f, peer, resolve) && CanReceive(s, w, f, resolve)
    modifies ch
    ensures Does(w, s, steps, s') && (steps == [] ==> !ok)
    ensures ch.acks == old(ch.acks) + acks
    ensures if steps == [] then s' == s && acks == []
      else Agrees(s, w, f, h, peer, BodySize(f), env.ackOk, acks, s')
  {
    ghost var next := ch.next;
    var read, stored;
    ok, read, stored := ch.RecvMsg(env);
    acks, steps, s' := [], [], s;
    Nothing(w, s);
    if read && Transfer.Unpack(ch.packets[next]).Some? {
      if f.DataFrame? {
        acks := Transfer.AckFor(h.data, env, stored.Some?);
        steps, s' := DataCall(s, w, f, h, peer, |f.payload|, env, stored.Some?);
      } else {
        steps, s' := ControlCall(s, w, f, h, peer, 0, resolve, env.ackOk);
      }
    }
  }
}
