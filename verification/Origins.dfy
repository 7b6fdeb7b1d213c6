/**
  * Where what a run moves comes from: the posts, requests, addresses and metadata of a state
  * are those the application and the resolve callback gave at earlier steps.
  */
module Origins {
  import opened Options
  import opened Trackers
  import opened Layout
  import opened Protocol
  import opened Invariant
  import opened Safety
  import opened Delivery
  import opened Completion
  import opened Theorems

  /** A step before state `n`, with the state it was taken in. */
  predicate Before(run: seq<State>, steps: seq<Step>, m: nat, n: nat) {
    |run| == |steps| + 1 && m < n < |run|
  }

  lemma StepBefore(run: seq<State>, steps: seq<Step>, n: nat)
    requires IsRun(run, steps) && 0 < n < |run|
    ensures Enabled(run[n - 1], steps[n - 1]) && run[n] == Apply(run[n - 1], steps[n - 1])
    ensures Before(run, steps, n - 1, n)
  {
    assert Enabled(run[n - 1], steps[n - 1]) && run[n - 1 + 1] == Apply(run[n - 1], steps[n - 1]);
  }

  // --- What a step leaves alone -------------------------------------------------------------

  /** No post, request, route or frame has come or changed. */
  ghost predicate Still(s: State, s': State) {
    s'.posts == s.posts && s'.asked == s.asked && s'.routes == s.routes && s'.net == s.net
  }

  /** The steps that bring something new. */
  predicate Brings(step: Step) {
    step.Enqueue? || step.Process? || step.RecvInfo? || step.SendChunk? || step.SendAck?
  }

  lemma RespondIsStill(s: State, w: Worker)
    requires CanRespond(s, w)
    ensures Still(s, DoRespond(s, w))
  {
  }

  lemma ServeIsStill(s: State, h: PostId)
    requires CanProcessRead(s, h)
    ensures Still(s, DoProcessRead(s, h))
  {
  }

  lemma DataIsStill(s: State, w: Worker, f: Frame, peer: Host)
    requires f.DataFrame?
    ensures Still(s, DoRecvData(s, w, f, peer))
  {
  }

  lemma AcquireIsStill(s: State, w: Worker)
    requires CanAcquire(s, w)
    ensures Still(s, DoAcquire(s, w))
  {
  }

  lemma ReleaseIsStill(s: State, w: Worker, success: bool)
    requires CanRelease(s, w, success)
    ensures Still(s, DoRelease(s, w, success))
  {
  }

  lemma StepIsStill(s: State, step: Step)
    requires Enabled(s, step) && !Brings(step)
    ensures Still(s, Apply(s, step))
  {
    match step {
      case Respond(w) => RespondIsStill(s, w);
      case ProcessRead(h) => ServeIsStill(s, h);
      case RecvData(w, f, peer) => DataIsStill(s, w, f, peer);
      case AcquireChunk(w) => AcquireIsStill(s, w);
      case ReleaseChunk(w, success) => ReleaseIsStill(s, w, success);
      case CompleteReq(w) => CompleteIsQuiet(s, w);
      case RecvAck(w, f) => AckIsQuiet(s, w, f);
      case Poll(h) => PollIsQuiet(s, h);
      case _ =>
    }
  }

  lemma EnqueueLeaves(s: State, h: PostId, p: Post, callback: bool)
    ensures var s' := DoEnqueue(s, h, p, callback);
      && s'.asked == s.asked && s'.routes == s.routes && s'.net == s.net
      && (s'.posts == s.posts || s'.posts == s.posts[h := p])
  {
  }

  lemma InfoLeaves(s: State, w: Worker, f: Frame, resolve: map<ReqId, Addr>)
    requires CanRecvInfo(s, w, f, resolve)
    ensures var s' := DoRecvInfo(s, w, f, resolve);
      && s'.posts == s.posts && s'.asked == s.asked && s'.net == s.net
      && s'.routes == if Registers(s, f, resolve) then BindRoutes(s, f, resolve) else s.routes
  {
  }

  // --- Requests -----------------------------------------------------------------------------

  /** The application asked for request `x` at this step, as `q`. */
  predicate AsksFor(step: Step, x: Id, q: Request) {
    step.Process? && step.h == x.h && x.r in step.reqs && step.reqs[x.r] == q
  }

  lemma ProcessAsks(s: State, h: PostId, reqs: map<ReqId, Request>, meta: Metadata, x: Id)
    requires CanProcess(s, h, reqs) && x in DoProcess(s, h, reqs, meta).asked
    ensures var q := DoProcess(s, h, reqs, meta).asked[x];
      (x in s.asked && s.asked[x] == q) || (x.h == h && x.r in reqs && reqs[x.r] == q)
  {
  }

  lemma AskedChanges(s: State, step: Step, x: Id)
    requires Enabled(s, step) && x in Apply(s, step).asked
    ensures (x in s.asked && s.asked[x] == Apply(s, step).asked[x]) || AsksFor(step, x, Apply(s, step).asked[x])
  {
    if !Brings(step) {
      StepIsStill(s, step);
    } else {
      match step {
        case Enqueue(h, p, callback) => EnqueueLeaves(s, h, p, callback);
        case Process(h, reqs, meta) => ProcessAsks(s, h, reqs, meta, x);
        case RecvInfo(w, f, resolve) => InfoLeaves(s, w, f, resolve);
        case _ =>
      }
    }
  }

  /** Request `x` is as it was, or was asked for at the step from `s` to `s'`. */
  predicate AskedStep(s: State, step: Step, s': State, x: Id) {
    x in s'.asked ==> (x in s.asked && s.asked[x] == s'.asked[x]) || AsksFor(step, x, s'.asked[x])
  }

  ghost predicate AskedSteps(run: seq<State>, steps: seq<Step>, x: Id) {
    && |run| == |steps| + 1 && x !in run[0].asked
    && forall n :: 0 <= n < |steps| ==> AskedStep(run[n], steps[n], run[n + 1], x)
  }

  lemma RunAsks(run: seq<State>, steps: seq<Step>, x: Id)
    requires IsRun(run, steps)
    ensures AskedSteps(run, steps, x)
  {
    forall n | 0 <= n < |steps| ensures AskedStep(run[n], steps[n], run[n + 1], x) {
      StepAsks(run, steps, n, x);
    }
  }

  lemma StepAsks(run: seq<State>, steps: seq<Step>, n: nat, x: Id)
    requires IsRun(run, steps) && n < |steps|
    ensures AskedStep(run[n], steps[n], run[n + 1], x)
  {
    StepBefore(run, steps, n + 1);
    if x in run[n + 1].asked {
      AskedChanges(run[n], steps[n], x);
    }
  }

  lemma {:induction false} AskedOnTheWay(run: seq<State>, steps: seq<Step>, n: nat, x: Id) returns (m: nat)
    requires AskedSteps(run, steps, x) && n < |run| && x in run[n].asked
    ensures Before(run, steps, m, n) && AsksFor(steps[m], x, run[n].asked[x])
  {
    m := n - 1;
    assert AskedStep(run[m], steps[m], run[m + 1], x);
    if x in run[m].asked && run[m].asked[x] == run[n].asked[x] {
      m := AskedOnTheWay(run, steps, n - 1, x);
    }
  }

  /** Every request of a state was asked for by the application at an earlier step, as it is. */
  lemma AskedFrom(run: seq<State>, steps: seq<Step>, n: nat, x: Id) returns (m: nat)
    requires IsRun(run, steps) && n < |run| && x in run[n].asked
    ensures Before(run, steps, m, n) && AsksFor(steps[m], x, run[n].asked[x])
  {
    RunAsks(run, steps, x);
    m := AskedOnTheWay(run, steps, n, x);
  }

  /** A request stays as it was asked for. */
  lemma AskedStays(s: State, step: Step, x: Id)
    requires Enabled(s, step) && x in s.asked && s.asked.Keys == s.routes.Keys
    ensures x in Apply(s, step).asked && Apply(s, step).asked[x] == s.asked[x]
  {
    if !Brings(step) {
      StepIsStill(s, step);
    } else {
      match step {
        case Enqueue(h, p, callback) => EnqueueLeaves(s, h, p, callback);
        case RecvInfo(w, f, resolve) => InfoLeaves(s, w, f, resolve);
        case _ =>
      }
    }
  }

  // --- Posts ----------------------------------------------------------------------------------

  lemma PostsChange(s: State, step: Step, h: PostId)
    requires Enabled(s, step) && h in Apply(s, step).posts
    ensures var p := Apply(s, step).posts[h];
      (h in s.posts && s.posts[h] == p) || (step.Enqueue? && step.h == h && step.post == p)
  {
    if !Brings(step) {
      StepIsStill(s, step);
    } else {
      match step {
        case Enqueue(g, p, callback) => EnqueueLeaves(s, g, p, callback);
        case RecvInfo(w, f, resolve) => InfoLeaves(s, w, f, resolve);
        case _ =>
      }
    }
  }

  /** Every post of a state was made at an earlier step, as it is. */
  lemma {:induction false} PostedBy(run: seq<State>, steps: seq<Step>, n: nat, h: PostId) returns (m: nat)
    requires IsRun(run, steps) && n < |run| && h in run[n].posts
    ensures Before(run, steps, m, n) && steps[m].Enqueue? && steps[m].h == h && steps[m].post == run[n].posts[h]
  {
    StepBefore(run, steps, n);
    PostsChange(run[n - 1], steps[n - 1], h);
    if h in run[n - 1].posts && run[n - 1].posts[h] == run[n].posts[h] {
      m := PostedBy(run, steps, n - 1, h);
    } else {
      m := n - 1;
    }
  }

  // --- The far end ----------------------------------------------------------------------------

  /** The end of a route at the target of its post. */
  function Far(p: Post, route: Route): Option<Loc> { if p.op.Write? then route.dst else route.src }

  /** The resolve callback of the target answers `a` for request `x`. */
  predicate AnswersAt(step: Step, x: Id, a: Addr) {
    step.RecvInfo? && step.f.InfoFrame? && step.f.h == x.h && x.r in step.resolve && step.resolve[x.r] == a
  }

  /** The far address that was asked for, or else what the callback answers at this step. */
  predicate FoundAt(q: Request, step: Step, x: Id, a: Addr) {
    if q.raddr != 0 then a == q.raddr else AnswersAt(step, x, a)
  }

  /** A PostInfo that registers its post binds the far ends of its routes, and of no others. */
  lemma BindSets(s: State, f: Frame, resolve: map<ReqId, Addr>, x: Id)
    requires f.InfoFrame? && InfoOk(f, s.posts, s.routes) && AllResolve(f.infos, resolve)
    requires x in s.routes && x.h in s.posts
    ensures var route := BindRoutes(s, f, resolve)[x];
      if x.h != f.h then route == s.routes[x]
      else
        && x.r in f.infos && Far(s.posts[x.h], route).Some?
        && var far := Far(s.posts[x.h], route).value;
           && far.host == s.posts[x.h].target
           && (f.infos[x.r].raddr != 0 ==> far.addr == f.infos[x.r].raddr)
           && (f.infos[x.r].raddr == 0 ==> x.r in resolve && far.addr == resolve[x.r])
  {
  }

  lemma InfoAsks(net: set<Frame>, asked: map<Id, Request>, f: Frame, r: ReqId)
    requires InfosAsk(net, asked) && f in net && f.InfoFrame? && r in f.infos
    ensures Id(f.h, r) in asked && f.infos[r].raddr == asked[Id(f.h, r)].raddr
  {
  }

  /** The registering step sets the far end as asked or answered. */
  lemma InfoSetsFar(s: State, w: Worker, f: Frame, resolve: map<ReqId, Addr>, x: Id)
    requires CanRecvInfo(s, w, f, resolve) && InfoOk(f, s.posts, s.routes) && PostsOk(s.posts)
    requires IncOk(s.inc, s.posts, s.routes, s.registered, s.delivered)
    requires x in s.routes && x.h in s.posts && InfosAsk(s.net, s.asked)
    ensures x in DoRecvInfo(s, w, f, resolve).routes
    ensures var far := Far(s.posts[x.h], DoRecvInfo(s, w, f, resolve).routes[x]);
      || far == Far(s.posts[x.h], s.routes[x])
      || (&& far.Some? && far.value.host == s.posts[x.h].target && x in s.asked
          && FoundAt(s.asked[x], RecvInfo(w, f, resolve), x, far.value.addr))
  {
    InfoLeaves(s, w, f, resolve);
    RegistersWhen(s, f, resolve);
    if Registers(s, f, resolve) {
      BindSets(s, f, resolve, x);
      if x.h == f.h {
        InfoAsks(s.net, s.asked, f, x.r);
        assert x == Id(f.h, x.r);
      }
    }
  }

  /** A request processed now has no far end yet. */
  lemma ProcessSetsNear(s: State, h: PostId, reqs: map<ReqId, Request>, meta: Metadata, x: Id)
    requires CanProcess(s, h, reqs) && x in DoProcess(s, h, reqs, meta).routes
    ensures var route := DoProcess(s, h, reqs, meta).routes[x];
      (x in s.routes && route == s.routes[x]) || (x.h == h && Far(s.posts[h], route).None?)
  {
  }

  lemma RoutesStay(s: State, step: Step, x: Id)
    requires Enabled(s, step) && !step.RecvInfo? && !step.Process? && x in Apply(s, step).routes
    ensures x in s.routes && Apply(s, step).routes[x] == s.routes[x]
  {
    if !Brings(step) {
      StepIsStill(s, step);
    } else {
      match step {
        case Enqueue(h, p, callback) => EnqueueLeaves(s, h, p, callback);
        case _ =>
      }
    }
  }

  /** What the lemmas below need of a state. */
  ghost predicate Traceable(s: State) {
    && PostsOk(s.posts) && RoutesOk(s.routes, s.posts, s.registered) && AskedOk(s.asked, s.posts, s.routes)
    && IncOk(s.inc, s.posts, s.routes, s.registered, s.delivered)
    && NetOk(s.net, s.posts, s.routes, s.written) && InfosAsk(s.net, s.asked)
  }

  lemma RunIsRouted(run: seq<State>, steps: seq<Step>, n: nat)
    requires IsRun(run, steps) && n < |run|
    ensures Traceable(run[n])
  {
    RunIsSound(run, steps, n);
  }

  lemma RoutePost(s: State, x: Id)
    requires Traceable(s) && x in s.routes
    ensures x.h in s.posts && x in s.asked && s.asked.Keys == s.routes.Keys
  {
  }

  /** The step adds routes of a post that exists, or changes those that exist. */
  lemma RouteFrom(s: State, step: Step, x: Id)
    requires Enabled(s, step) && x in Apply(s, step).routes
    ensures x in s.routes || (step.Process? && step.h == x.h)
  {
    match step {
      case RecvInfo(w, f, resolve) => InfoLeaves(s, w, f, resolve);
      case Process(h, reqs, meta) => ProcessSetsNear(s, h, reqs, meta, x);
      case _ => RoutesStay(s, step, x);
    }
  }

  /** How the far end of a route comes about. */
  lemma InfoChangesFar(s: State, w: Worker, f: Frame, resolve: map<ReqId, Addr>, x: Id)
    requires Traceable(s) && CanRecvInfo(s, w, f, resolve) && x in s.routes && x.h in s.posts && x in s.asked
    ensures x in DoRecvInfo(s, w, f, resolve).routes
    ensures var far := Far(s.posts[x.h], DoRecvInfo(s, w, f, resolve).routes[x]);
      || far == Far(s.posts[x.h], s.routes[x])
      || (&& far.Some? && far.value.host == s.posts[x.h].target
          && FoundAt(s.asked[x], RecvInfo(w, f, resolve), x, far.value.addr))
  {
    InfoInNet(s, f);
    InfoSetsFar(s, w, f, resolve, x);
  }

  lemma FarChanges(s: State, step: Step, x: Id, p: Post)
    requires Traceable(s) && Enabled(s, step) && x in Apply(s, step).routes && x.h in s.posts && s.posts[x.h] == p
    requires x in s.routes && x in s.asked
    ensures var far := Far(p, Apply(s, step).routes[x]);
      || far == Far(p, s.routes[x])
      || (far.Some? && far.value.host == p.target && FoundAt(s.asked[x], step, x, far.value.addr))
  {
    if step.RecvInfo? {
      InfoChangesFar(s, step.w, step.f, step.resolve, x);
    } else if step.Process? {
      ProcessSetsNear(s, step.h, step.reqs, step.meta, x);
    } else {
      RoutesStay(s, step, x);
    }
  }

  lemma PostStays(s: State, step: Step, h: PostId)
    requires Enabled(s, step) && h in s.posts
    ensures h in Apply(s, step).posts && Apply(s, step).posts[h] == s.posts[h]
  {
    if !Brings(step) {
      StepIsStill(s, step);
    } else {
      match step {
        case Enqueue(g, p, callback) => EnqueueLeaves(s, g, p, callback);
        case RecvInfo(w, f, resolve) => InfoLeaves(s, w, f, resolve);
        case _ =>
      }
    }
  }

  lemma NewHasNoFar(s: State, step: Step, x: Id, p: Post)
    requires Enabled(s, step) && x in Apply(s, step).routes && x !in s.routes && x.h in s.posts && s.posts[x.h] == p
    ensures Far(p, Apply(s, step).routes[x]).None?
  {
    RouteFrom(s, step, x);
    ProcessSetsNear(s, step.h, step.reqs, step.meta, x);
  }

  lemma PostOfRoute(s: State, step: Step, x: Id)
    requires Traceable(s) && Enabled(s, step) && x in Apply(s, step).routes
    ensures x.h in s.posts
  {
    RouteFrom(s, step, x);
    if x in s.routes {
      RoutePost(s, x);
    }
  }

  /**
    * The far end of a route, once it is known, is at the target of the post: at the address
    * asked for, or, if none was, at the one the resolve callback of the target has answered.
    */
  lemma {:induction false} FarEndIsAnswered(run: seq<State>, steps: seq<Step>, n: nat, x: Id) returns (m: nat)
    requires IsRun(run, steps) && n < |run| && x in run[n].routes && x.h in run[n].posts && x in run[n].asked
    requires Far(run[n].posts[x.h], run[n].routes[x]).Some?
    ensures Before(run, steps, m, n)
    ensures var far := Far(run[n].posts[x.h], run[n].routes[x]).value;
      far.host == run[n].posts[x.h].target && FoundAt(run[n].asked[x], steps[m], x, far.addr)
  {
    StepBefore(run, steps, n);
    var s, step := run[n - 1], steps[n - 1];
    RunIsRouted(run, steps, n - 1);
    PostOfRoute(s, step, x);
    PostStays(s, step, x.h);
    if x !in s.routes {
      NewHasNoFar(s, step, x, s.posts[x.h]);
    }
    RoutePost(s, x);
    AskedStays(s, step, x);
    FarChanges(s, step, x, s.posts[x.h]);
    if Far(s.posts[x.h], s.routes[x]) == Far(run[n].posts[x.h], run[n].routes[x]) {
      m := FarEndIsAnswered(run, steps, n - 1, x);
    } else {
      m := n - 1;
    }
  }

  /** So a write lands where it was asked to, or where the callback has answered. */
  lemma DestinationIsAnswered(run: seq<State>, steps: seq<Step>, n: nat, x: Id) returns (m: nat)
    requires IsRun(run, steps) && n < |run| && x in run[n].routes && x in run[n].asked && x.h in run[n].registered
    requires x.h in run[n].posts && run[n].posts[x.h].op.Write?
    ensures Before(run, steps, m, n)
    ensures var s := run[n];
      var k := TargetPlace(s.posts[x.h], x.h);
      k in s.inc && x.r in s.inc[k].reqs && FoundAt(s.asked[x], steps[m], x, s.inc[k].reqs[x.r].raddr)
  {
    DestinationIsResolved(run, steps, n, x);
    m := FarEndIsAnswered(run, steps, n, x);
  }

  // --- What reported success means, in the application's terms ---------------------------------

  /** Every byte of the request is equal at the initiator and at address `far` of the target. */
  ghost predicate Moved(mem: map<Loc, Byte>, p: Post, q: Request, far: Addr) {
    forall b: nat :: b < q.len ==> Get(mem, At(Loc(p.initiator, q.laddr), b)) == Get(mem, At(Loc(p.target, far), b))
  }

  /** Moved to or from the address asked for or answered before state `n`. */
  ghost predicate MovedAsAsked(run: seq<State>, steps: seq<Step>, n: nat, mem: map<Loc, Byte>, p: Post, q: Request,
                               x: Id)
  {
    exists far: Addr, m: nat :: Before(run, steps, m, n) && FoundAt(q, steps[m], x, far) && Moved(mem, p, q, far)
  }

  lemma ArrivedIsMoved(s: State, x: Id, p: Post)
    requires Arrived(s, x) && s.posts[x.h] == p
    ensures Far(p, s.routes[x]).Some? && Moved(s.mem, p, s.asked[x], Far(p, s.routes[x]).value.addr)
  {
    var route, q := s.routes[x], s.asked[x];
    assert Far(p, route).Some? && Far(p, route).value.host == p.target;
  }

  lemma RequestMoved(run: seq<State>, steps: seq<Step>, n: nat, x: Id)
    requires IsRun(run, steps) && n < |run| && Arrived(run[n], x)
    ensures MovedAsAsked(run, steps, n, run[n].mem, run[n].posts[x.h], run[n].asked[x], x)
  {
    var s := run[n];
    ArrivedIsMoved(s, x, s.posts[x.h]);
    var m := FarEndIsAnswered(run, steps, n, x);
    var far := Far(s.posts[x.h], s.routes[x]).value.addr;
    assert Before(run, steps, m, n) && FoundAt(s.asked[x], steps[m], x, far);
  }

  lemma {:induction false} AskedUntil(run: seq<State>, steps: seq<Step>, m: nat, n: nat, x: Id)
    requires IsRun(run, steps) && m <= n < |run| && x in run[m].asked
    ensures x in run[n].asked && run[n].asked[x] == run[m].asked[x]
  {
    if m < n {
      AskedUntil(run, steps, m, n - 1, x);
      StepBefore(run, steps, n);
      RunIsRouted(run, steps, n - 1);
      AskedStays(run[n - 1], steps[n - 1], x);
    }
  }

  lemma ProcessAsksAll(s: State, h: PostId, reqs: map<ReqId, Request>, meta: Metadata, r: ReqId)
    requires CanProcess(s, h, reqs) && r in reqs
    ensures var asked := DoProcess(s, h, reqs, meta).asked; Id(h, r) in asked && asked[Id(h, r)] == reqs[r]
  {
    assert Id(h, r) in (set q | q in reqs :: Id(h, q));
  }

  /** The requests a Process step gives a post are those of the post from then on. */
  lemma ProcessedAreAsked(run: seq<State>, steps: seq<Step>, m: nat, n: nat, r: ReqId)
    requires IsRun(run, steps) && Before(run, steps, m, n) && steps[m].Process? && r in steps[m].reqs
    ensures var x := Id(steps[m].h, r); x in run[n].asked && run[n].asked[x] == steps[m].reqs[r]
  {
    StepBefore(run, steps, m + 1);
    ProcessAsksAll(run[m], steps[m].h, steps[m].reqs, steps[m].meta, r);
    AskedUntil(run, steps, m + 1, n, Id(steps[m].h, r));
  }

  lemma SomeRequest(s: State, h: PostId) returns (x: Id)
    requires HasRequests(h, s.routes) && Traceable(s)
    ensures x in s.asked && x.h == h
  {
    x :| x in s.routes && x.h == h;
  }

  /**
    * End-to-end safety in the application's terms: when it is told that post `h` has
    * succeeded, every byte of every request it gave for `h` is equal at its own buffer and
    * at the far one: at the address it asked for, or at the one the callback answered.
    */
  lemma ReportedMeansMoved(run: seq<State>, steps: seq<Step>, n: nat, h: PostId) returns (e: nat, m: nat)
    requires IsRun(run, steps) && n < |steps| && h !in run[n].reported && h in run[n + 1].reported
    ensures Before(run, steps, e, n + 1) && steps[e].Enqueue? && steps[e].h == h
    ensures Before(run, steps, m, n + 1) && steps[m].Process? && steps[m].h == h
    ensures forall r <- steps[m].reqs ::
      MovedAsAsked(run, steps, n + 1, run[n + 1].mem, steps[e].post, steps[m].reqs[r], Id(h, r))
  {
    ReportedMeansArrived(run, steps, n, h);
    RunIsRouted(run, steps, n + 1);
    var x := SomeRequest(run[n + 1], h);
    e := PostedBy(run, steps, n + 1, h);
    m := AskedFrom(run, steps, n + 1, x);
    forall r | r in steps[m].reqs
      ensures MovedAsAsked(run, steps, n + 1, run[n + 1].mem, steps[e].post, steps[m].reqs[r], Id(h, r))
    {
      ProcessedAreAsked(run, steps, m, n + 1, r);
      RequestMoved(run, steps, n + 1, Id(h, r));
    }
  }

  // --- Metadata ----------------------------------------------------------------------------------

  /** The PostInfo carries what the application gave to this step. */
  ghost predicate Announces(f: Frame, step: Step) {
    && f.InfoFrame? && step.Process? && step.h == f.h && step.meta == f.meta && f.infos.Keys == step.reqs.Keys
    && forall r <- f.infos :: f.infos[r].meta == step.reqs[r].meta
  }

  lemma ProcessAnnounces(s: State, h: PostId, reqs: map<ReqId, Request>, meta: Metadata, f: Frame)
    requires CanProcess(s, h, reqs) && f in DoProcess(s, h, reqs, meta).net && f.InfoFrame?
    ensures f in s.net || Announces(f, Process(h, reqs, meta))
  {
    assert WireInfos(s.posts[h].op, reqs).Keys == reqs.Keys;
  }

  lemma InfoFrom(s: State, step: Step, f: Frame)
    requires Enabled(s, step) && f in Apply(s, step).net && f.InfoFrame?
    requires RxOk(s.rx, s.posts, s.routes, s.inc, s.registered, s.written)
    ensures f in s.net || Announces(f, step)
  {
    if !Brings(step) {
      StepIsStill(s, step);
    } else {
      match step {
        case Enqueue(h, p, callback) => EnqueueLeaves(s, h, p, callback);
        case Process(h, reqs, meta) => ProcessAnnounces(s, h, reqs, meta, f);
        case RecvInfo(w, g, resolve) => InfoLeaves(s, w, g, resolve);
        case SendAck(w, ok) => AckIsAck(s, w);
        case _ =>
      }
    }
  }

  lemma RunReceives(run: seq<State>, steps: seq<Step>, n: nat)
    requires IsRun(run, steps) && n < |run|
    ensures RxOk(run[n].rx, run[n].posts, run[n].routes, run[n].inc, run[n].registered, run[n].written)
  {
    RunIsSound(run, steps, n);
  }

  lemma {:induction false} AnnouncedBy(run: seq<State>, steps: seq<Step>, n: nat, f: Frame) returns (m: nat)
    requires IsRun(run, steps) && n < |run| && f in run[n].net && f.InfoFrame?
    ensures Before(run, steps, m, n) && Announces(f, steps[m])
  {
    StepBefore(run, steps, n);
    RunReceives(run, steps, n - 1);
    InfoFrom(run[n - 1], steps[n - 1], f);
    if f in run[n - 1].net {
      m := AnnouncedBy(run, steps, n - 1, f);
    } else {
      m := n - 1;
    }
  }

  /** The entry has the metadata the PostInfo carried. */
  ghost predicate Holds(pt: PostTracker, f: Frame) {
    && f.InfoFrame? && pt.meta == f.meta && pt.reqs.Keys == f.infos.Keys
    && forall r <- pt.reqs :: pt.reqs[r].meta == f.infos[r].meta
  }

  ghost predicate HeldFrom(net: set<Frame>, k: Place, pt: PostTracker) {
    exists f :: f in net && Holds(pt, f) && f.h == IncPost(k)
  }

  /** Every entry of a remote post has the metadata of a PostInfo of that post. */
  ghost predicate Carried(inc: Table, net: set<Frame>) {
    forall k <- inc :: !inc[k].initiator ==> HeldFrom(net, k, inc[k])
  }

  predicate SameMeta(a: PostTracker, b: PostTracker) {
    && a.initiator == b.initiator && a.meta == b.meta && a.reqs.Keys == b.reqs.Keys
    && forall r <- a.reqs :: a.reqs[r].meta == b.reqs[r].meta
  }

  /** Entries of remote posts are kept as far as metadata goes, or dropped. */
  ghost predicate KeepsMeta(inc: Table, inc': Table) {
    forall k <- inc' :: inc'[k].initiator || (k in inc && SameMeta(inc[k], inc'[k]))
  }

  lemma KeptCarries(inc: Table, inc': Table, net: set<Frame>, net': set<Frame>)
    requires Carried(inc, net) && KeepsMeta(inc, inc') && net <= net'
    ensures Carried(inc', net')
  {
    forall k | k in inc' && !inc'[k].initiator ensures HeldFrom(net', k, inc'[k]) {
      assert HeldFrom(net, k, inc[k]);
      var f :| f in net && Holds(inc[k], f) && f.h == IncPost(k);
      assert Holds(inc'[k], f);
    }
  }

  lemma SetChunksKeepsMeta(inc: Table, k: Place, r: ReqId, c: Chunks)
    requires k in inc && r in inc[k].reqs
    ensures KeepsMeta(inc, WithChunks(inc, k, r, c))
  {
  }

  lemma CompleteKeepsMeta(inc: Table, k: Place)
    ensures KeepsMeta(inc, ReqComplete(inc, k))
  {
  }

  lemma RegisteredCarries(inc: Table, net: set<Frame>, f: Frame, resolve: map<ReqId, Addr>)
    requires Carried(inc, net) && f in net && f.InfoFrame? && IncPost(InfoPlace(f)) == f.h
    ensures Carried(inc[InfoPlace(f) := Registered(f, resolve)], net)
  {
    var pt, k := Registered(f, resolve), InfoPlace(f);
    assert pt.reqs.Keys == f.infos.Keys;
    assert Holds(pt, f) && HeldFrom(net, k, pt);
  }

  lemma NetGrows(s: State, step: Step)
    requires Enabled(s, step)
    ensures s.net <= Apply(s, step).net
  {
    if !Brings(step) {
      StepIsStill(s, step);
    } else {
      match step {
        case Enqueue(h, p, callback) => EnqueueLeaves(s, h, p, callback);
        case RecvInfo(w, f, resolve) => InfoLeaves(s, w, f, resolve);
        case _ =>
      }
    }
  }

  lemma EnqueueKeepsMeta(s: State, h: PostId, p: Post, callback: bool)
    ensures KeepsMeta(s.inc, DoEnqueue(s, h, p, callback).inc)
  {
    EnqueueIs(s, h, p, callback);
  }

  lemma ProcessKeepsMeta(s: State, h: PostId, reqs: map<ReqId, Request>, meta: Metadata)
    requires CanProcess(s, h, reqs) && Waiting(s, h)
    ensures KeepsMeta(s.inc, DoProcess(s, h, reqs, meta).inc)
  {
    var p := s.posts[h];
    ProcessIs(s, h, reqs, meta);
    if p.op.Read? {
      AddKeepsMeta(s.inc, HomePlace(p, h), LocalInfos(p.op, reqs), |reqs|, p.op);
    }
  }

  lemma AddKeepsMeta(inc: Table, k: Place, infos: map<ReqId, RequestInfo>, n: nat, op: Op)
    requires k in inc && inc[k].initiator
    ensures KeepsMeta(inc, AddReqs(inc, k, infos, n, op, [], map[]))
  {
  }

  lemma AcquireKeepsMeta(s: State, w: Worker)
    requires CanAcquire(s, w)
    ensures KeepsMeta(s.inc, DoAcquire(s, w).inc)
  {
    var t := s.rx[w];
    SetChunksKeepsMeta(s.inc, t.place, t.f.id.r, Acquire(s.inc[t.place].reqs[t.f.id.r].chunks, t.f.i));
  }

  lemma ReleaseKeepsMeta(s: State, w: Worker, success: bool)
    requires CanRelease(s, w, success)
    ensures KeepsMeta(s.inc, DoRelease(s, w, success).inc)
  {
    var t := s.rx[w];
    SetChunksKeepsMeta(s.inc, t.place, t.f.id.r, Release(s.inc[t.place].reqs[t.f.id.r].chunks, t.f.i, success));
  }

  lemma CountedInc(s: State, w: Worker)
    requires CanComplete(s, w)
    ensures DoComplete(s, w).inc == ReqComplete(s.inc, s.rx[w].place)
  {
    match ReqCompleteCall(s.inc, s.rx[w].place) {
      case RecvPost(_, _) => CompletePosts(s, w);
      case OnComplete(_) => CompleteReports(s, w);
      case _ => CompleteCounts(s, w);
    }
  }

  lemma CountKeepsMeta(s: State, w: Worker)
    requires CanComplete(s, w)
    ensures KeepsMeta(s.inc, DoComplete(s, w).inc)
  {
    CountedInc(s, w);
    CompleteKeepsMeta(s.inc, s.rx[w].place);
  }

  lemma PolledInc(s: State, h: PostId)
    requires h in s.posts
    ensures DoPoll(s, h).inc == s.inc || DoPoll(s, h).inc == s.inc - {HomePlace(s.posts[h], h)}
  {
    var k := HomePlace(s.posts[h], h);
    if Check(s.out, k).Success? {
    } else if Check(s.out, k).NotFound? && Check(s.inc, k).Success? {
    } else {
      assert DoPoll(s, h) == s;
    }
  }

  lemma DropKeepsMeta(inc: Table, k: Place)
    ensures KeepsMeta(inc, inc) && KeepsMeta(inc, inc - {k})
  {
  }

  lemma PollKeepsMeta(s: State, h: PostId)
    requires h in s.posts
    ensures KeepsMeta(s.inc, DoPoll(s, h).inc)
  {
    PolledInc(s, h);
    DropKeepsMeta(s.inc, HomePlace(s.posts[h], h));
  }

  lemma AckLeavesInc(s: State, w: Worker, f: Frame)
    requires CanRecvAck(s, w, f)
    ensures DoRecvAck(s, w, f).inc == s.inc
  {
    RecvAckIs(s, w, f);
  }

  predicate TouchesInc(step: Step) {
    || step.Enqueue? || step.Process? || step.RecvInfo? || step.AcquireChunk? || step.ReleaseChunk?
    || step.CompleteReq? || step.Poll?
  }

  lemma OthersKeepInc(s: State, step: Step)
    requires Enabled(s, step) && !TouchesInc(step)
    ensures Apply(s, step).inc == s.inc
  {
    match step {
      case RecvAck(w, f) => AckLeavesInc(s, w, f);
      case _ =>
    }
  }

  /** Every step but the arrival of a PostInfo. */
  lemma StepKeepsMeta(s: State, step: Step)
    requires Enabled(s, step) && !step.RecvInfo? && (step.Process? ==> Waiting(s, step.h))
    ensures KeepsMeta(s.inc, Apply(s, step).inc)
  {
    match step {
      case Enqueue(h, p, callback) => EnqueueKeepsMeta(s, h, p, callback);
      case Process(h, reqs, meta) => ProcessKeepsMeta(s, h, reqs, meta);
      case AcquireChunk(w) => AcquireKeepsMeta(s, w);
      case ReleaseChunk(w, success) => ReleaseKeepsMeta(s, w, success);
      case CompleteReq(w) => CountKeepsMeta(s, w);
      case Poll(h) => PollKeepsMeta(s, h);
      case _ => OthersKeepInc(s, step);
    }
  }

  lemma InfoCarries(s: State, w: Worker, f: Frame, resolve: map<ReqId, Addr>)
    requires CanRecvInfo(s, w, f, resolve) && Traceable(s) && Carried(s.inc, s.net)
    ensures Carried(DoRecvInfo(s, w, f, resolve).inc, s.net)
  {
    InfoInNet(s, f);
    RegistersWhen(s, f, resolve);
    RecvInfoOutcome(s, w, f, resolve);
    RegisteredCarries(s.inc, s.net, f, resolve);
  }

  lemma RunWaits(run: seq<State>, steps: seq<Step>, n: nat)
    requires IsRun(run, steps) && n < |steps| && steps[n].Process?
    ensures steps[n].h in run[n].posts && Waiting(run[n], steps[n].h)
  {
    RunIsSound(run, steps, n);
    assert Enabled(run[n], steps[n]);
    assert PostTold(run[n], steps[n].h);
    HomeReady(run[n], steps[n].h);
  }

  lemma InfoStepCarries(s: State, step: Step)
    requires Enabled(s, step) && step.RecvInfo? && Traceable(s) && Carried(s.inc, s.net)
    ensures Carried(Apply(s, step).inc, Apply(s, step).net)
  {
    InfoLeaves(s, step.w, step.f, step.resolve);
    InfoCarries(s, step.w, step.f, step.resolve);
  }

  lemma OtherStepCarries(s: State, step: Step)
    requires Enabled(s, step) && !step.RecvInfo? && (step.Process? ==> Waiting(s, step.h)) && Carried(s.inc, s.net)
    ensures Carried(Apply(s, step).inc, Apply(s, step).net)
  {
    StepKeepsMeta(s, step);
    NetGrows(s, step);
    KeptCarries(s.inc, Apply(s, step).inc, s.net, Apply(s, step).net);
  }

  lemma StepCarries(run: seq<State>, steps: seq<Step>, n: nat)
    requires IsRun(run, steps) && n < |steps| && Carried(run[n].inc, run[n].net)
    ensures Carried(run[n + 1].inc, run[n + 1].net)
  {
    StepBefore(run, steps, n + 1);
    if steps[n].RecvInfo? {
      RunIsRouted(run, steps, n);
      InfoStepCarries(run[n], steps[n]);
    } else {
      if steps[n].Process? {
        RunWaits(run, steps, n);
      }
      OtherStepCarries(run[n], steps[n]);
    }
  }

  lemma {:induction false} RunCarries(run: seq<State>, steps: seq<Step>, n: nat)
    requires IsRun(run, steps) && n < |run|
    ensures Carried(run[n].inc, run[n].net)
  {
    if n > 0 {
      RunCarries(run, steps, n - 1);
      StepCarries(run, steps, n - 1);
    }
  }

  lemma CallIsHeld(inc: Table, k: Place, f: Frame)
    requires k in inc && Holds(inc[k], f) && ReqCompleteCall(inc, k).RecvPost?
    ensures var call := ReqCompleteCall(inc, k);
      && call.meta == f.meta && call.reqMetas.Keys == f.infos.Keys
      && forall r <- call.reqMetas :: call.reqMetas[r] == f.infos[r].meta
  {
  }

  lemma EntryHeld(run: seq<State>, steps: seq<Step>, n: nat, k: Place) returns (f: Frame)
    requires IsRun(run, steps) && n < |run| && ReqCompleteCall(run[n].inc, k).RecvPost?
    ensures k in run[n].inc && f in run[n].net && Holds(run[n].inc[k], f) && f.h == IncPost(k)
  {
    RunCarries(run, steps, n);
    assert HeldFrom(run[n].net, k, run[n].inc[k]);
    f :| f in run[n].net && Holds(run[n].inc[k], f) && f.h == IncPost(k);
  }

  /**
    * The receiver's post callback is given exactly the metadata the application gave to the
    * post and to each of its requests.
    */
  lemma CallbackGetsMetadata(run: seq<State>, steps: seq<Step>, n: nat) returns (m: nat)
    requires IsRun(run, steps) && n < |steps| && steps[n].CompleteReq?
    requires ReqCompleteCall(run[n].inc, run[n].rx[steps[n].w].place).RecvPost?
    ensures Before(run, steps, m, n) && steps[m].Process? && steps[m].h == IncPost(run[n].rx[steps[n].w].place)
    ensures var call := ReqCompleteCall(run[n].inc, run[n].rx[steps[n].w].place);
      && call.meta == steps[m].meta && call.reqMetas.Keys == steps[m].reqs.Keys
      && forall r <- call.reqMetas :: call.reqMetas[r] == steps[m].reqs[r].meta
  {
    var k := run[n].rx[steps[n].w].place;
    var f := EntryHeld(run, steps, n, k);
    CallIsHeld(run[n].inc, k, f);
    m := AnnouncedBy(run, steps, n, f);
  }
}
