/**
  * Runs of the protocol, for any handle and hosts: one to the reported success of a
  * read, and those in which a lookup misses or a count underflows.
  *
  * Each run reads one byte of host `b`, at address 20, into address 10 of the host
  * that owns the post.
  */
module Example {
  import opened Options
  import opened Trackers
  import opened Layout
  import opened Protocol
  import opened Invariant
  import opened Counting
  import opened Delivery
  import opened Completion
  import opened Theorems

  const R: ReqId := 5
  const REQUEST := Request(10, 20, 1, 1, [])
  const REQUESTS: map<ReqId, Request> := map[R := REQUEST]
  /** The descriptors, as sent and as the initiator keeps them. */
  const WIRE: map<ReqId, RequestInfo> := map[R := RequestInfo(R, 1, 20, 1, Read, [])]
  const LOCAL: map<ReqId, RequestInfo> := map[R := RequestInfo(R, 1, 10, 1, Read, [])]

  const EMPTY := Chunks(1, {}, {})
  const BUSY := Chunks(1, {}, {0})
  const DONE := Chunks(1, {0}, {})

  function ReadOf(h: PostId, b: Host): Post { Post(Read, h.owner, b) }
  function Home(h: PostId): Place { Place(h.owner, Key(NOBODY, h.handle)) }
  function Target(h: PostId, b: Host): Place { Place(b, Key(h.owner, h.handle)) }
  function Sender(h: PostId, b: Host): Place { Place(b, Key(NOBODY, h.handle)) }
  function Info(h: PostId, b: Host): Frame { InfoFrame(h.owner, b, h, Read, WIRE, []) }
  function Data(h: PostId, b: Host): Frame { DataFrame(b, h.owner, Id(h, R), 0, 0, [0 as Byte]) }
  function Ack(h: PostId, b: Host): Frame { AckFrame(b, Id(h, R), 0) }

  /** The responder's thread, and threads of the initiator. */
  function Responder(b: Host): Worker { Worker(b, 9) }
  function Reader(h: PostId, n: nat): Worker { Worker(h.owner, n) }

  function Entry(c: Chunks, addr: Addr, pending: int, onDone: OnDone, initiator: bool): PostTracker {
    PostTracker(map[R := ReqTracker(c, addr, [])], pending, [], onDone, initiator)
  }

  // --- Chaining steps -----------------------------------------------------------------

  ghost predicate Leads(s: State, step: Step, s': State) { Enabled(s, step) && Apply(s, step) == s' }

  /** A run goes on with any enabled step. */
  lemma Append(run: seq<State>, steps: seq<Step>, s: State, step: Step, s': State)
    requires EndsAt(run, steps, s) && Leads(s, step, s')
    ensures EndsAt(run + [s'], steps + [step], s')
  {
    var run', steps' := run + [s'], steps + [step];
    assert run'[0] == run[0] && run'[|steps'|] == s';
    forall n {:trigger steps'[n]} | 0 <= n < |steps'|
      ensures Enabled(run'[n], steps'[n]) && run'[n + 1] == Apply(run'[n], steps'[n])
    {
      if n < |steps| {
        assert steps'[n] == steps[n] && run'[n] == run[n] && run'[n + 1] == run[n + 1];
      } else {
        assert steps'[n] == step && run'[n] == s && run'[n + 1] == s';
      }
    }
  }

  lemma Reach(s: State, step: Step, s': State)
    requires Reachable(s) && Leads(s, step, s')
    ensures Reachable(s')
  {
    var run: seq<State>, steps: seq<Step> :| EndsAt(run, steps, s);
    Append(run, steps, s, step, s');
  }

  // --- Up to the data on the wire ---------------------------------------------------------

  const S0 := State(map[], map[], map[], map[], map[], map[], {}, map[], map[], map[], {}, {}, {}, {}, {}, {},
                    multiset{}, multiset{}, multiset{})

  function Posted(h: PostId, b: Host): State {
    S0.(posts := map[h := ReadOf(h, b)], inc := map[Home(h) := PostTracker(map[], 0, [], Silent, true)])
  }

  /** A state with the requests processed and nothing received yet. */
  function Underway(h: PostId, b: Host, src: Option<Loc>, out: Table, inc: Table, rx: map<Worker, Rx>, net: set<Frame>,
                    sending: map<PostId, Load>, queued: map<PostId, Batch>, registered: set<PostId>): State
  {
    State(map[], map[h := ReadOf(h, b)], map[Id(h, R) := Route(src, Some(Loc(h.owner, 10)), [0, 1])], out, inc, rx, net,
          sending, queued, map[Id(h, R) := REQUEST], registered, {}, {}, {}, {}, {},
          if h in registered then multiset{h} else multiset{}, multiset{}, multiset{})
  }

  function Prepared(h: PostId, b: Host): State {
    Underway(h, b, None, map[], LocalTable(h), map[], {Info(h, b)}, map[], map[], {})
  }

  /** The entries of the two ends, while nothing is stored in the responder's. */
  function Tables(h: PostId, b: Host, c: Chunks, pending: int): Table {
    map[Home(h) := Entry(c, 10, pending, Silent, true), Target(h, b) := Entry(EMPTY, 20, 1, Silent, false)]
  }

  function Announced(h: PostId, b: Host): State {
    Underway(h, b, Some(Loc(b, 20)), map[], Tables(h, b, EMPTY, 1),
             map[Responder(b) := Responding(Target(h, b), WIRE)], {Info(h, b)}, map[], map[], {h})
  }

  function Queued(h: PostId, b: Host): State {
    Underway(h, b, Some(Loc(b, 20)), map[Sender(h, b) := PostTracker(map[], 0, [], Relay(h.owner), true)],
             Tables(h, b, EMPTY, 1), map[Responder(b) := Idle], {Info(h, b)}, map[], map[h := Batch(b, WIRE)], {h})
  }

  /** The entry the responder counts acknowledgements in, before there are any. */
  function SenderEntry(h: PostId): PostTracker { Entry(EMPTY, 0, 1, Relay(h.owner), true) }

  function LoadOf(h: PostId, b: Host): Load { Load(b, h.owner, map[R := Job(20, 1, 1)]) }

  function Serving(h: PostId, b: Host): State {
    Underway(h, b, Some(Loc(b, 20)), map[Sender(h, b) := SenderEntry(h)], Tables(h, b, EMPTY, 1),
             map[Responder(b) := Idle], {Info(h, b)}, map[h := LoadOf(h, b)], map[], {h})
  }

  function OnWire(h: PostId, b: Host): State {
    Underway(h, b, Some(Loc(b, 20)), map[Sender(h, b) := SenderEntry(h)], Tables(h, b, EMPTY, 1),
             map[Responder(b) := Idle], {Info(h, b), Data(h, b)}, map[h := LoadOf(h, b)], map[], {h})
  }

  lemma PostStep(h: PostId, b: Host)
    requires h.owner != NOBODY && b != NOBODY
    ensures Leads(S0, Enqueue(h, ReadOf(h, b), false), Posted(h, b))
  {
  }

  function LocalRoutes(h: PostId): map<Id, Route> { map[Id(h, R) := Route(None, Some(Loc(h.owner, 10)), [0, 1])] }

  function LocalTable(h: PostId): Table { map[Home(h) := Entry(EMPTY, 10, 1, Silent, true)] }

  lemma RoutesOfRequest(h: PostId, b: Host)
    ensures forall r <- REQUESTS :: ValidRequest(REQUESTS[r])
    ensures NewRoutes(ReadOf(h, b), h, REQUESTS) == LocalRoutes(h)
    ensures Asked(h, REQUESTS) == map[Id(h, R) := REQUEST]
  {
    assert Cuts(1, 1) == [0, 1];
    var ids := set r | r in REQUESTS :: Id(h, r);
    assert forall x :: x in ids <==> x == Id(h, R);
  }

  lemma InfosOfRequest()
    ensures WireInfos(Read, REQUESTS) == WIRE && LocalInfos(Read, REQUESTS) == LOCAL && |REQUESTS| == 1
    ensures NewReqs(LOCAL, map[]) == map[R := ReqTracker(EMPTY, 10, [])]
    ensures NewReqs(WIRE, map[]) == map[R := ReqTracker(EMPTY, 20, [])]
    ensures Resolved(WIRE, map[]) == WIRE && AllResolve(WIRE, map[]) && |WIRE| == 1
  {
  }

  lemma CanProcessIt(h: PostId, b: Host)
    ensures CanProcess(Posted(h, b), h, REQUESTS)
  {
    RoutesOfRequest(h, b);
    assert Posted(h, b).routes + NewRoutes(ReadOf(h, b), h, REQUESTS) == LocalRoutes(h);
    assert R in REQUESTS;
  }

  lemma ProcessedTable(h: PostId, b: Host)
    ensures AddReqs(Posted(h, b).inc, Home(h), LOCAL, 1, Read, [], map[]) == LocalTable(h)
  {
    InfosOfRequest();
  }

  lemma ProcessReadIs(s: State, h: PostId, p: Post, reqs: map<ReqId, Request>)
    requires h in s.posts && s.posts[h] == p && p.op.Read? && forall r <- reqs :: ValidRequest(reqs[r])
    ensures DoProcess(s, h, reqs, []) ==
      s.(routes := s.routes + NewRoutes(p, h, reqs), asked := s.asked + Asked(h, reqs),
         net := s.net + {InfoFrame(p.initiator, p.target, h, Read, WireInfos(Read, reqs), [])},
         inc := AddReqs(s.inc, HomePlace(p, h), LocalInfos(Read, reqs), |reqs|, Read, [], map[]))
  {
  }

  lemma ProcessResult(h: PostId, b: Host)
    requires forall r <- REQUESTS :: ValidRequest(REQUESTS[r])
    ensures DoProcess(Posted(h, b), h, REQUESTS, []) == Prepared(h, b)
  {
    RoutesOfRequest(h, b);
    InfosOfRequest();
    ProcessedTable(h, b);
    ProcessReadIs(Posted(h, b), h, ReadOf(h, b), REQUESTS);
    FirstOnes(LocalRoutes(h));
    FirstOnes(map[Id(h, R) := REQUEST]);
  }

  lemma FirstOnes<T>(m: map<Id, T>)
    ensures map[] + m == m
  {
  }

  lemma ProcessStep(h: PostId, b: Host)
    ensures Leads(Posted(h, b), Process(h, REQUESTS, []), Prepared(h, b))
  {
    CanProcessIt(h, b);
    ProcessResult(h, b);
  }

  lemma AcceptedTable(h: PostId, b: Host)
    requires h.owner != NOBODY
    ensures AddReqs(Prepared(h, b).inc, Target(h, b), WIRE, 1, Read, [], map[]) == Announced(h, b).inc
    ensures AddCall(Prepared(h, b).inc, Target(h, b), WIRE, Read, map[]) == RecvRead(WIRE)
    ensures BindRoutes(Prepared(h, b), Info(h, b), map[]) == Announced(h, b).routes
    ensures Registers(Prepared(h, b), Info(h, b), map[])
  {
    InfosOfRequest();
    assert Target(h, b) !in Prepared(h, b).inc;
  }

  lemma CanAcceptIt(h: PostId, b: Host)
    requires h.owner != NOBODY
    ensures CanRecvInfo(Prepared(h, b), Responder(b), Info(h, b), map[])
  {
    AcceptedTable(h, b);
  }

  lemma AcceptIs(s: State, w: Worker, f: Frame, infos: map<ReqId, RequestInfo>)
    requires f.InfoFrame? && f.h in s.posts && Registers(s, f, map[]) && IncPost(InfoPlace(f)) == f.h
    requires AddCall(s.inc, InfoPlace(f), f.infos, f.op, map[]) == RecvRead(infos)
    ensures DoRecvInfo(s, w, f, map[]) ==
      s.(inc := AddReqs(s.inc, InfoPlace(f), f.infos, |f.infos|, f.op, f.meta, map[]),
         routes := BindRoutes(s, f, map[]), registered := s.registered + {f.h},
         rx := s.rx[w := Responding(InfoPlace(f), infos)], served := s.served + multiset{f.h})
  {
  }

  lemma AcceptResult(h: PostId, b: Host)
    requires h.owner != NOBODY
    ensures DoRecvInfo(Prepared(h, b), Responder(b), Info(h, b), map[]) == Announced(h, b)
  {
    AcceptedTable(h, b);
    InfosOfRequest();
    AcceptIs(Prepared(h, b), Responder(b), Info(h, b), WIRE);
  }

  lemma AcceptStep(h: PostId, b: Host)
    requires h.owner != NOBODY
    ensures Leads(Prepared(h, b), RecvInfo(Responder(b), Info(h, b), map[]), Announced(h, b))
  {
    CanAcceptIt(h, b);
    AcceptResult(h, b);
  }

  lemma ClaimStep(h: PostId, b: Host)
    requires h.owner != NOBODY
    ensures Leads(Announced(h, b), Respond(Responder(b)), Queued(h, b))
  {
  }

  lemma ServedOfInfos(h: PostId, b: Host)
    ensures NewReqs(ServedInfos(WIRE), map[]) == map[R := ReqTracker(EMPTY, 0, [])] && |ServedInfos(WIRE)| == 1
    ensures ServedLoad(h, Batch(b, WIRE)) == LoadOf(h, b)
    ensures AddReqs(Queued(h, b).out, Sender(h, b), ServedInfos(WIRE), 1, Write, [], map[]) == Serving(h, b).out
  {
    assert ServedInfos(WIRE) == map[R := RequestInfo(R, 1, 0, 1, Write, [])];
  }

  lemma TakeStep(h: PostId, b: Host)
    ensures Leads(Queued(h, b), ProcessRead(h), Serving(h, b))
  {
    ServedOfInfos(h, b);
  }

  lemma SendStep(h: PostId, b: Host)
    ensures Leads(Serving(h, b), SendChunk(Id(h, R), 0), OnWire(h, b))
  {
    var s := Serving(h, b);
    assert Bytes(s.mem, Loc(b, 20), 0, 1) == [0 as Byte];
    assert ChunkFrame(s.mem, s.sending[h], Id(h, R), 0) == Data(h, b);
  }

  lemma StartReachable()
    ensures Reachable(S0)
  {
    var steps: seq<Step> := [];
    assert EndsAt([S0], steps, S0);
  }

  lemma OnWireReachable(h: PostId, b: Host)
    requires h.owner != NOBODY && b != NOBODY
    ensures Reachable(OnWire(h, b))
  {
    StartReachable();
    PostStep(h, b);
    Reach(S0, Enqueue(h, ReadOf(h, b), false), Posted(h, b));
    ProcessStep(h, b);
    Reach(Posted(h, b), Process(h, REQUESTS, []), Prepared(h, b));
    AcceptStep(h, b);
    Reach(Prepared(h, b), RecvInfo(Responder(b), Info(h, b), map[]), Announced(h, b));
    ClaimStep(h, b);
    Reach(Announced(h, b), Respond(Responder(b)), Queued(h, b));
    TakeStep(h, b);
    Reach(Queued(h, b), ProcessRead(h), Serving(h, b));
    SendStep(h, b);
    Reach(Serving(h, b), SendChunk(Id(h, R), 0), OnWire(h, b));
  }

  /** What the rest of the runs need to know. */
  ghost predicate IsSent(s: State, h: PostId, b: Host) {
    && s.posts == map[h := ReadOf(h, b)] && s.out == map[Sender(h, b) := SenderEntry(h)]
    && Data(h, b) in s.net && s.reported == {}
  }

  ghost predicate NothingThere(s: State, h: PostId) {
    && Id(h, R) in s.routes && |s.routes[Id(h, R)].cuts| == 2 && s.delivered == {}
  }

  lemma SentReachable(h: PostId, b: Host) returns (s: State)
    requires h.owner != NOBODY && b != NOBODY
    ensures Reachable(s) && IsSent(s, h, b) && NothingThere(s, h) && s.postCalls == multiset{}
    ensures s.inc == Tables(h, b, EMPTY, 1) && s.rx == map[Responder(b) := Idle]
  {
    s := OnWire(h, b);
    OnWireReachable(h, b);
  }

  // --- Receiving the chunk ------------------------------------------------------------------

  lemma LocateReach(s: State, w: Worker, f: Frame, peer: Host) returns (s': State)
    requires Reachable(s) && CanRecvData(s, w, f)
    requires var k := Place(w.host, Key(peer, f.id.h.handle));
      k in s.inc && f.id.r in s.inc[k].reqs && s.inc[k].reqs[f.id.r].raddr != 0
    ensures Reachable(s')
    ensures var k := Place(w.host, Key(peer, f.id.h.handle));
      s' == s.(rx := s.rx[w := Located(k, f, s.inc[k].reqs[f.id.r].raddr + f.offset)])
  {
    LocatedIs(s, w, f, peer);
    s' := DoRecvData(s, w, f, peer);
    assert Apply(s, RecvData(w, f, peer)) == s';
    Reach(s, RecvData(w, f, peer), s');
  }

  lemma FindReach(s: State, w: Worker) returns (s': State)
    requires Reachable(s) && CanFind(s, w)
    ensures Reachable(s') && s' == s.(rx := s.rx[w := Found(s.rx[w].place, s.rx[w].f, s.rx[w].base)])
  {
    s' := DoFind(s, w);
    assert Apply(s, FindChunk(w)) == s';
    Reach(s, FindChunk(w), s');
  }

  lemma ChunkSteps()
    ensures Acquire(EMPTY, 0) == BUSY && Release(BUSY, 0, true) == DONE && Full(DONE) && SetDone(EMPTY, 0) == DONE
  {
    assert BUSY.busy - {0} == {};
  }

  lemma Swap(t: Table, k: Place, c: Chunks, d: Chunks, addr: Addr, pending: int, onDone: OnDone, initiator: bool)
    requires k in t && t[k] == Entry(c, addr, pending, onDone, initiator)
    ensures WithChunks(t, k, R, d) == t[k := Entry(d, addr, pending, onDone, initiator)]
  {
    assert t[k].reqs[R := t[k].reqs[R].(chunks := d)] == Entry(d, addr, pending, onDone, initiator).reqs;
  }

  lemma AcquireReach(s: State, w: Worker, h: PostId, b: Host, k: Place, addr: Addr, initiator: bool) returns (s': State)
    requires Reachable(s) && w in s.rx && s.rx[w] == Found(k, Data(h, b), addr)
    requires k in s.inc && s.inc[k] == Entry(EMPTY, addr, 1, Silent, initiator)
    ensures Reachable(s')
    ensures s' == s.(inc := s.inc[k := Entry(BUSY, addr, 1, Silent, initiator)],
                     rx := s.rx[w := Writing(k, Data(h, b), addr, 0)])
  {
    ChunkSteps();
    Swap(s.inc, k, EMPTY, BUSY, addr, 1, Silent, initiator);
    s' := DoAcquire(s, w);
    assert Apply(s, AcquireChunk(w)) == s';
    Reach(s, AcquireChunk(w), s');
  }

  lemma StoreReach(s: State, w: Worker, h: PostId, b: Host, k: Place, addr: Addr) returns (s': State)
    requires Reachable(s) && w in s.rx && s.rx[w] == Writing(k, Data(h, b), addr, 0)
    ensures Reachable(s')
    ensures s' == s.(mem := s.mem[Loc(k.host, addr) := 0], rx := s.rx[w := Writing(k, Data(h, b), addr, 1)])
  {
    s' := DoStoreByte(s, w);
    assert Apply(s, StoreByte(w)) == s';
    Reach(s, StoreByte(w), s');
  }

  lemma ReleaseReach(s: State, w: Worker, h: PostId, b: Host, k: Place, addr: Addr, initiator: bool) returns (s': State)
    requires Reachable(s) && w in s.rx && s.rx[w] == Writing(k, Data(h, b), addr, 1) && h in s.posts
    requires k in s.inc && s.inc[k] == Entry(BUSY, addr, 1, Silent, initiator)
    ensures Reachable(s')
    ensures var here := k == RecvPlace(s.posts[h], h);
      s' == s.(inc := s.inc[k := Entry(DONE, addr, 1, Silent, initiator)],
               delivered := if here then s.delivered + {ChunkId(Id(h, R), 0)} else s.delivered,
               written := s.written + {ChunkId(Id(h, R), 0)},
               rx := s.rx[w := Completing(k, if here then Finished(Id(h, R)) else Echoed(Id(h, R)), Some(Ack(h, b)))])
  {
    ChunkSteps();
    Swap(s.inc, k, BUSY, DONE, addr, 1, Silent, initiator);
    s' := DoRelease(s, w, true);
    assert Apply(s, ReleaseChunk(w, true)) == s';
    Reach(s, ReleaseChunk(w, true), s');
  }

  /** The chunk is looked up under `peer` and written through. */
  lemma Receive(s: State, w: Worker, h: PostId, b: Host, peer: Host, addr: Addr, initiator: bool) returns (s': State)
    requires Reachable(s) && Data(h, b) in s.net && w.host == h.owner && Ready(s, w) && h in s.posts && addr != 0
    requires var k := Place(h.owner, Key(peer, h.handle));
      k in s.inc && s.inc[k] == Entry(EMPTY, addr, 1, Silent, initiator)
    ensures Reachable(s')
    ensures var k := Place(h.owner, Key(peer, h.handle));
      var here := k == RecvPlace(s.posts[h], h);
      s' == s.(inc := s.inc[k := Entry(DONE, addr, 1, Silent, initiator)], mem := s.mem[Loc(k.host, addr) := 0],
               delivered := if here then s.delivered + {ChunkId(Id(h, R), 0)} else s.delivered,
               written := s.written + {ChunkId(Id(h, R), 0)},
               rx := s.rx[w := Completing(k, if here then Finished(Id(h, R)) else Echoed(Id(h, R)), Some(Ack(h, b)))])
  {
    var s1 := LocateReach(s, w, Data(h, b), peer);
    s' := WriteThrough(s1, w, h, b, Place(h.owner, Key(peer, h.handle)), addr, initiator);
    assert s'.rx == s.rx[w := s'.rx[w]];
  }

  /** A located chunk is found, acquired, stored and released. */
  lemma WriteThrough(s: State, w: Worker, h: PostId, b: Host, k: Place, addr: Addr, initiator: bool) returns (s': State)
    requires Reachable(s) && w in s.rx && s.rx[w] == Located(k, Data(h, b), addr) && h in s.posts
    requires k in s.inc && s.inc[k] == Entry(EMPTY, addr, 1, Silent, initiator)
    ensures Reachable(s')
    ensures var here := k == RecvPlace(s.posts[h], h);
      s' == s.(inc := s.inc[k := Entry(DONE, addr, 1, Silent, initiator)], mem := s.mem[Loc(k.host, addr) := 0],
               delivered := if here then s.delivered + {ChunkId(Id(h, R), 0)} else s.delivered,
               written := s.written + {ChunkId(Id(h, R), 0)},
               rx := s.rx[w := Completing(k, if here then Finished(Id(h, R)) else Echoed(Id(h, R)), Some(Ack(h, b)))])
  {
    var s1 := FindReach(s, w);
    var s2 := AcquireReach(s1, w, h, b, k, addr, initiator);
    var s3 := StoreReach(s2, w, h, b, k, addr);
    s' := ReleaseReach(s3, w, h, b, k, addr, initiator);
    assert s'.inc == s.inc[k := Entry(DONE, addr, 1, Silent, initiator)];
    assert s'.rx == s.rx[w := s'.rx[w]];
  }

  /** The entry after OnReqComplete. */
  lemma CompleteReach(s: State, w: Worker, k: Place, c: Chunks, pending: int, addr: Addr, initiator: bool)
    returns (s': State)
    requires Reachable(s) && w in s.rx && s.rx[w].Completing? && s.rx[w].place == k
    requires k in s.inc && s.inc[k] == Entry(c, addr, pending, Silent, initiator)
    ensures Reachable(s')
    ensures s' == s.(inc := s.inc[k := Entry(c, addr, pending - 1, Silent, initiator)],
                     rx := s.rx[w := if s.rx[w].ack.Some? then Acking(s.rx[w].ack.value) else Idle],
                     counted := s'.counted, postCalls := s'.postCalls)
    ensures s'.postCalls == if pending == 1 && !initiator then s.postCalls + multiset{IncPost(k)} else s.postCalls
  {
    CompleteIs(s, w, k, c, pending, addr, initiator);
    s' := DoComplete(s, w);
    assert Apply(s, CompleteReq(w)) == s';
    Reach(s, CompleteReq(w), s');
  }

  lemma CompleteIs(s: State, w: Worker, k: Place, c: Chunks, pending: int, addr: Addr, initiator: bool)
    requires w in s.rx && s.rx[w].Completing? && s.rx[w].place == k
    requires k in s.inc && s.inc[k] == Entry(c, addr, pending, Silent, initiator)
    ensures var s' := DoComplete(s, w);
      && s' == s.(inc := s.inc[k := Entry(c, addr, pending - 1, Silent, initiator)],
                  rx := s.rx[w := if s.rx[w].ack.Some? then Acking(s.rx[w].ack.value) else Idle],
                  counted := s'.counted, postCalls := s'.postCalls)
      && s'.postCalls == if pending == 1 && !initiator then s.postCalls + multiset{IncPost(k)} else s.postCalls
  {
    CallIs(s.inc, k);
  }

  lemma SendAckReach(s: State, w: Worker) returns (s': State)
    requires Reachable(s) && w in s.rx && s.rx[w].Acking?
    ensures Reachable(s') && s' == s.(rx := s.rx[w := Idle], net := s.net + {s.rx[w].frame})
  {
    s' := DoSendAck(s, w, true);
    assert Apply(s, SendAck(w, true)) == s';
    Reach(s, SendAck(w, true), s');
  }

  /** The only acknowledgement of a served read completes it at the responder. */
  lemma AckedAll(out: Table, h: PostId, b: Host)
    requires Sender(h, b) in out && out[Sender(h, b)] == SenderEntry(h)
    ensures AckedCall(out, Sender(h, b), R, 0) == OnComplete(Relay(h.owner))
    ensures Acked(out, Sender(h, b), R, 0) == out - {Sender(h, b)}
  {
    ChunkSteps();
    Swap(out, Sender(h, b), EMPTY, DONE, 0, 1, Relay(h.owner), true);
    var pt := Entry(DONE, 0, 1, Relay(h.owner), true);
    assert R in pt.reqs && IsComplete(pt);
  }

  lemma RecvAckReach(s: State, h: PostId, b: Host) returns (s': State)
    requires Reachable(s) && Ack(h, b) in s.net && Ready(s, Responder(b))
    requires Sender(h, b) in s.out && s.out[Sender(h, b)] == SenderEntry(h)
    ensures Reachable(s')
    ensures s' == s.(out := s.out - {Sender(h, b)},
                     rx := s.rx[Responder(b) := Completing(Target(h, b), Served(h), None)])
  {
    var w := Responder(b);
    AckedAll(s.out, h, b);
    RecvAckIs(s, w, Ack(h, b));
    s' := DoRecvAck(s, w, Ack(h, b));
    assert Apply(s, RecvAck(w, Ack(h, b))) == s';
    Reach(s, RecvAck(w, Ack(h, b)), s');
  }

  // --- Delivering the byte ---------------------------------------------------------------------

  /** A thread of the initiator stores the byte where it belongs. */
  lemma StoreCopy(s: State, h: PostId, b: Host) returns (s': State)
    requires Reachable(s) && IsSent(s, h, b) && s.inc == Tables(h, b, EMPTY, 1) && Ready(s, Reader(h, 0))
    requires h.owner != NOBODY
    ensures Reachable(s') && IsSent(s', h, b) && s'.inc == Tables(h, b, DONE, 1)
    ensures s'.rx == s.rx[Reader(h, 0) := Completing(Home(h), Finished(Id(h, R)), Some(Ack(h, b)))]
  {
    s' := Receive(s, Reader(h, 0), h, b, NOBODY, 10, true);
  }

  lemma CountCopy(s: State, h: PostId, b: Host) returns (s': State)
    requires Reachable(s) && IsSent(s, h, b) && s.inc == Tables(h, b, DONE, 1) && h.owner != NOBODY
    requires Reader(h, 0) in s.rx && s.rx[Reader(h, 0)] == Completing(Home(h), Finished(Id(h, R)), Some(Ack(h, b)))
    ensures Reachable(s') && IsSent(s', h, b) && s'.inc == Tables(h, b, DONE, 0)
    ensures s'.rx == s.rx[Reader(h, 0) := Acking(Ack(h, b))]
  {
    s' := CompleteReach(s, Reader(h, 0), Home(h), DONE, 1, 10, true);
  }

  lemma SendCopyAck(s: State, h: PostId, b: Host) returns (s': State)
    requires Reachable(s) && IsSent(s, h, b) && Reader(h, 0) in s.rx && s.rx[Reader(h, 0)] == Acking(Ack(h, b))
    ensures Reachable(s') && IsSent(s', h, b) && s'.inc == s.inc && Ack(h, b) in s'.net
    ensures s'.rx == s.rx[Reader(h, 0) := Idle]
  {
    s' := SendAckReach(s, Reader(h, 0));
  }

  /** It counts the request and acknowledges the chunk. */
  lemma Deliver(s: State, h: PostId, b: Host) returns (s': State)
    requires Reachable(s) && IsSent(s, h, b) && s.inc == Tables(h, b, EMPTY, 1) && Ready(s, Reader(h, 0))
    requires h.owner != NOBODY
    ensures Reachable(s') && IsSent(s', h, b) && s'.inc == Tables(h, b, DONE, 0) && Ack(h, b) in s'.net
    ensures s'.rx == s.rx[Reader(h, 0) := Idle]
  {
    var s1 := StoreCopy(s, h, b);
    var s2 := CountCopy(s1, h, b);
    s' := SendCopyAck(s2, h, b);
  }

  lemma Delivered(h: PostId, b: Host) returns (s: State)
    requires h.owner != NOBODY && b != NOBODY
    ensures Reachable(s) && IsSent(s, h, b) && s.inc == Tables(h, b, DONE, 0) && Ack(h, b) in s.net
    ensures s.rx == map[Responder(b) := Idle, Reader(h, 0) := Idle]
  {
    var s0 := SentReachable(h, b);
    s := Deliver(s0, h, b);
  }

  lemma PollReach(s: State, h: PostId) returns (s': State)
    requires Reachable(s) && h in s.posts && HomePlace(s.posts[h], h) !in s.out
    requires Check(s.inc, HomePlace(s.posts[h], h)).Success?
    ensures Reachable(s') && s' == Report(s.(inc := s.inc - {HomePlace(s.posts[h], h)}), h)
  {
    s' := DoPoll(s, h);
    assert Apply(s, Poll(h)) == s';
    Reach(s, Poll(h), s');
  }

  /** The poll reports success and erases the entry. */
  lemma PollDelivered(s: State, h: PostId, b: Host) returns (s': State)
    requires Reachable(s) && s.posts == map[h := ReadOf(h, b)] && Home(h) !in s.out && s.inc == Tables(h, b, DONE, 0)
    requires h.owner != NOBODY
    ensures Reachable(s') && h in s'.reported && s'.posts == s.posts && s'.net == s.net && s'.rx == s.rx
    ensures s'.inc == map[Target(h, b) := Entry(EMPTY, 20, 1, Silent, false)]
  {
    var pt := s.inc[Home(h)];
    ChunkSteps();
    assert R in pt.reqs && IsComplete(pt);
    s' := PollReach(s, h);
  }

  // --- A read from oneself --------------------------------------------------------------------

  /** The data of a read from oneself, looked up under the host's own endpoint, lands in the responder's entry. */
  lemma SelfStored(h: PostId) returns (s: State)
    requires h.owner != NOBODY
    ensures Reachable(s) && IsSent(s, h, h.owner) && NothingThere(s, h) && s.postCalls == multiset{}
    ensures Target(h, h.owner) in s.inc && s.inc[Target(h, h.owner)] == Entry(DONE, 20, 1, Silent, false)
    ensures s.rx == map[Responder(h.owner) := Idle,
                        Reader(h, 0) := Completing(Target(h, h.owner), Echoed(Id(h, R)), Some(Ack(h, h.owner)))]
  {
    var s0 := SentReachable(h, h.owner);
    s := Receive(s0, Reader(h, 0), h, h.owner, h.owner, 20, false);
  }

  lemma SelfEcho(h: PostId) returns (s: State)
    requires h.owner != NOBODY
    ensures Reachable(s) && IsSent(s, h, h.owner) && NothingThere(s, h) && s.postCalls == multiset{h}
    ensures Target(h, h.owner) in s.inc && s.inc[Target(h, h.owner)] == Entry(DONE, 20, 0, Silent, false)
    ensures s.rx == map[Responder(h.owner) := Idle, Reader(h, 0) := Acking(Ack(h, h.owner))]
  {
    var s0 := SelfStored(h);
    s := CompleteReach(s0, Reader(h, 0), Target(h, h.owner), DONE, 1, 20, false);
    assert IncPost(Target(h, h.owner)) == h;
  }

  /** Its post callback runs although nothing has arrived. */
  lemma SelfReadLies(h: PostId) returns (s: State)
    requires h.owner != NOBODY
    ensures Reachable(s) && h in s.posts && s.posts[h] == ReadOf(h, h.owner) && !CallbackIsTrue(s, h)
  {
    s := SelfEcho(h);
    var x := Id(h, R);
    assert ChunkId(x, 0) !in s.delivered;
    assert !AllDelivered(x, s.routes, s.delivered);
  }

  /** The acknowledgement takes its count below zero. */
  lemma SelfReadUnderflows(h: PostId) returns (s: State)
    requires h.owner != NOBODY
    ensures Reachable(s) && h in s.posts && s.posts[h] == ReadOf(h, h.owner)
    ensures Target(h, h.owner) in s.inc && s.inc[Target(h, h.owner)].pending == -1 && !PendingInRange(s, h)
  {
    var a := h.owner;
    var s1 := SelfEcho(h);
    var s2 := SendAckReach(s1, Reader(h, 0));
    var s3 := RecvAckReach(s2, h, a);
    s := CompleteReach(s3, Responder(a), Target(h, a), DONE, 0, 20, false);
    assert IncPost(Target(h, a)) == h;
  }

  /** The data may also land where it belongs, and success be reported. */
  lemma SelfPolled(h: PostId) returns (s: State)
    requires h.owner != NOBODY
    ensures Reachable(s) && h in s.reported && Data(h, h.owner) in s.net && Ready(s, Reader(h, 1))
    ensures s.inc == map[Target(h, h.owner) := Entry(EMPTY, 20, 1, Silent, false)]
  {
    var s0 := Delivered(h, h.owner);
    var s1 := RecvAckReach(s0, h, h.owner);
    s := PollDelivered(s1, h, h.owner);
  }

  /** Then a duplicate is still written over the source, after success has been reported. */
  lemma LateEcho(h: PostId) returns (s: State, w: Worker)
    requires h.owner != NOBODY
    ensures Reachable(s) && h in s.reported
    ensures w in s.rx && s.rx[w] == Writing(Target(h, h.owner), Data(h, h.owner), 20, 0)
  {
    w := Reader(h, 1);
    var s0 := SelfPolled(h);
    var s1 := LocateReach(s0, w, Data(h, h.owner), h.owner);
    var s2 := FindReach(s1, w);
    s := AcquireReach(s2, w, h, h.owner, Target(h, h.owner), 20, false);
  }

  // --- When the properties hold --------------------------------------------------------------------

  lemma ReachableKeeps(s: State)
    requires Reachable(s)
    ensures Inv(s) && Told(s)
  {
    var run: seq<State>, steps: seq<Step> :| EndsAt(run, steps, s);
    RunKeeps(run, steps, |steps|);
  }

  /** The counts of a post stay in range in every reachable state if and only if it is not a read from oneself. */
  lemma PendingInRangeExactly(h: PostId, p: Post)
    requires p.initiator == h.owner && h.owner != NOBODY && p.target != NOBODY
    ensures (forall s :: Reachable(s) && h in s.posts && s.posts[h] == p ==> PendingInRange(s, h)) <==> Proper(p)
  {
    if Proper(p) {
      forall s | Reachable(s) && h in s.posts && s.posts[h] == p ensures PendingInRange(s, h) {
        ReachableKeeps(s);
        PendingBounded(s, h);
      }
    } else {
      var s := SelfReadUnderflows(h);
    }
  }

  /** The same for what its post callback says. */
  lemma CallbackIsTrueExactly(h: PostId, p: Post)
    requires p.initiator == h.owner && h.owner != NOBODY && p.target != NOBODY
    ensures (forall s :: Reachable(s) && h in s.posts && s.posts[h] == p ==> CallbackIsTrue(s, h)) <==> Proper(p)
  {
    if Proper(p) {
      forall s | Reachable(s) && h in s.posts && s.posts[h] == p ensures CallbackIsTrue(s, h) {
        ReachableKeeps(s);
        CallbackFacts(s, h);
      }
    } else {
      var s := SelfReadLies(h);
    }
  }

  // --- A read from another host -----------------------------------------------------------------

  /** A state in which the success of a read has been reported is reachable. */
  lemma SuccessIsPossible(h: PostId, b: Host) returns (s: State)
    requires h.owner != NOBODY && b != NOBODY && b != h.owner
    ensures Reachable(s) && h in s.posts && s.posts[h] == ReadOf(h, b) && h in s.reported
  {
    var s0 := Delivered(h, b);
    s := PollDelivered(s0, h, b);
  }

  /** The thread that received the chunk looks a duplicate up before the poll: Find then aborts. */
  lemma LateFind(h: PostId, b: Host) returns (s: State, w: Worker)
    requires h.owner != NOBODY && b != NOBODY && b != h.owner
    ensures Reachable(s) && w in s.rx && s.rx[w].Located? && !CanFind(s, w)
  {
    w := Reader(h, 0);
    var s0 := Delivered(h, b);
    var s1 := LocateReach(s0, w, Data(h, b), NOBODY);
    s := PollDelivered(s1, h, b);
  }

  /** It has found the tracker before the poll: Acquire then follows a dangling reference. */
  lemma LateAcquire(h: PostId, b: Host) returns (s: State, w: Worker)
    requires h.owner != NOBODY && b != NOBODY && b != h.owner
    ensures Reachable(s) && w in s.rx && s.rx[w].Found? && !CanAcquire(s, w)
  {
    w := Reader(h, 0);
    var s0 := Delivered(h, b);
    var s1 := LocateReach(s0, w, Data(h, b), NOBODY);
    var s2 := FindReach(s1, w);
    s := PollDelivered(s2, h, b);
  }

  // --- One handle at two hosts ---------------------------------------------------------------------

  lemma EnqueueReach(s: State, h: PostId, post: Post) returns (s': State)
    requires Reachable(s) && CanEnqueue(s, h, post) && post.op.Write? && HomePlace(post, h) !in s.out
    ensures Reachable(s')
    ensures s' == s.(posts := s.posts[h := post], out := s.out[HomePlace(post, h) := NewEntry(Silent)])
  {
    EnqueueIs(s, h, post, false);
    s' := DoEnqueue(s, h, post, false);
    assert Apply(s, Enqueue(h, post, false)) == s';
    Reach(s, Enqueue(h, post, false), s');
  }

  /**
    * The read has been served and its outgoing entry is gone; the responder has since made a
    * post of its own under the same handle. A duplicate of the acknowledgement, received by
    * the thread that received the first, aborts.
    */
  lemma LateAck(h: PostId, b: Host) returns (s: State, w: Worker, f: Frame)
    requires h.owner != NOBODY && b != NOBODY && b != h.owner
    ensures Reachable(s) && f in s.net && f.AckFrame? && w.host == f.dst && Ready(s, w) && !CanRecvAck(s, w, f)
  {
    w, f := Responder(b), Ack(h, b);
    var s0 := Delivered(h, b);
    var s1 := RecvAckReach(s0, h, b);
    var s2 := CompleteReach(s1, w, Target(h, b), EMPTY, 1, 20, false);
    s := EnqueueReach(s2, PostId(b, h.handle), Post(Write, b, h.owner));
    assert AckPlace(w, f) == Sender(h, b);
  }
}
