/**
  * TcpManager as a transition system: callers connecting and collecting sockets, the
  * event loop, and Stop, interleaved at every lock and every poller call. Sockets are
  * closed one by one, after the lock they were taken out under has been dropped.
  */
module TcpManaging {
  /** A socket, and the file descriptor it has while open; the system reuses descriptors, not sockets. */
  type Sock = nat
  type Fd = nat

  /** Where the event loop is. */
  datatype Pc =
    | Polling
    | Handling(rest: seq<Fd>)                         // events still to be dispatched
    | Accepting(fd: Fd, rest: seq<Fd>)                // in the accept loop of listener `fd`
    | Accepted(x: Sock, fd: Fd, rest: seq<Fd>)        // about to add the accepted `x`
    | Dropping(fd: Fd, rest: seq<Fd>)                 // listener `fd` is unregistered, about to be removed
    | Removed(x: Sock, rest: seq<Fd>)                 // `x` is out of connectors, still registered
    | Unregistered(x: Sock, rest: seq<Fd>)
    | Expiring(todo: set<Sock>, done: set<Sock>)      // expired connectors, to be unregistered and closed
    | ClosingListeners
    | ClosingConnectors
    | Exited

  datatype State = State(
    open: map<Sock, Fd>,
    closed: set<Sock>,
    listeners: map<Fd, Sock>,
    connectors: map<Fd, Sock>,
    incoming: set<Sock>,
    outgoing: set<Sock>,
    callers: set<Sock>,       // collected by MoveAll
    connecting: set<Sock>,    // held by a thread inside Connect
    doomed: set<Sock>,        // taken out or refused, to be closed by the thread that holds them
    registered: set<Fd>,      // what the poller watches
    sealedConnectors: bool,
    sealedIncoming: bool,
    sealedOutgoing: bool,
    stop: bool,
    stopPc: nat,              // how far Stop has come
    pc: Pc)

  const STOP_RETURNED := 7

  datatype Step =
    | Create(x: Sock, fd: Fd)
    | ConnectFails(x: Sock)
    | ConnectSucceeds(x: Sock)
    | ConnectPending(x: Sock, registers: bool)
    | MoveIncoming
    | MoveOutgoing
    | CallerCloses(x: Sock)
    | CloseOne(x: Sock)
    | Wait(events: seq<Fd>)
    | Dispatch(broken: bool)
    | Accept(x: Sock, fd: Fd)
    | AddAccepted
    | AcceptEnds(shutdown: bool)
    | DropListener
    | Unregister
    | FinishConnect(ok: bool)
    | Expire(fds: set<Fd>)
    | UnregisterExpired(x: Sock)
    | LoopExits
    | CloseListeners
    | CloseConnectors
    | StopStep

  /** The socket is left to its thread to be closed. */
  function Doom(s: State, xs: set<Sock>): State { s.(doomed := s.doomed + xs) }

  /** Closing a socket frees its descriptor, and the poller forgets it. */
  function Close(s: State, x: Sock): State
    requires x in s.open
  {
    s.(open := s.open - {x}, closed := s.closed + {x}, doomed := s.doomed - {x},
       registered := s.registered - {s.open[x]})
  }

  predicate Fresh(s: State, x: Sock, fd: Fd) { x !in s.open && x !in s.closed && fd !in s.open.Values }

  predicate Distinct(fds: seq<Fd>) { forall i, j :: 0 <= i < j < |fds| ==> fds[i] != fds[j] }

  predicate Enabled(s: State, step: Step) {
    match step
    case Create(x, fd) => Fresh(s, x, fd)
    case ConnectFails(x) => x in s.connecting
    case ConnectSucceeds(x) => x in s.connecting
    case ConnectPending(x, _) => x in s.connecting && x in s.open
    case MoveIncoming => true
    case MoveOutgoing => true
    case CallerCloses(x) => x in s.callers
    case CloseOne(x) => x in s.doomed && x in s.open
    case Wait(events) => s.pc.Polling? && Distinct(events) && forall fd <- events :: fd in s.registered
    case Dispatch(_) =>
      s.pc.Handling? && s.pc.rest != [] && (s.pc.rest[0] in s.listeners || s.pc.rest[0] in s.connectors)
    case Accept(x, fd) => s.pc.Accepting? && Fresh(s, x, fd)
    case AddAccepted => s.pc.Accepted?
    case AcceptEnds(_) => s.pc.Accepting?
    case DropListener => s.pc.Dropping? && s.pc.fd in s.listeners
    case Unregister => s.pc.Removed? && s.pc.x in s.open
    case FinishConnect(_) => s.pc.Unregistered?
    case Expire(fds) => s.pc == Handling([]) && fds <= s.connectors.Keys
    case UnregisterExpired(x) => s.pc.Expiring? && (s.pc.todo == {} || (x in s.pc.todo && x in s.open))
    case LoopExits => s.pc.Polling? && s.stop
    case CloseListeners => s.pc.ClosingListeners?
    case CloseConnectors => s.pc.ClosingConnectors?
    case StopStep => s.stopPc < STOP_RETURNED
  }

  /** handleAllIncoming if `fd` is a listener's, else handleOneOutgoing. `broken`: the listener reports an error. */
  function DoDispatch(s: State, broken: bool): State
    requires Enabled(s, Dispatch(broken))
  {
    var fd, rest := s.pc.rest[0], s.pc.rest[1..];
    var listens := fd in s.listeners;
    s.(registered := if listens && broken then s.registered - {fd} else s.registered,
       connectors := if listens then s.connectors else s.connectors - {fd},
       pc := if !listens then Removed(s.connectors[fd], rest)
             else if broken then Dropping(fd, rest) else Accepting(fd, rest))
  }

  /** connectors_.Add, with the registration under its lock. */
  function DoPending(s: State, x: Sock, registers: bool): State
    requires x in s.open
  {
    var fd := s.open[x];
    var added := !s.sealedConnectors && fd !in s.connectors && registers;
    s.(connecting := s.connecting - {x},
       connectors := if added then s.connectors[fd := x] else s.connectors,
       registered := if added then s.registered + {fd} else s.registered,
       doomed := if added then s.doomed else s.doomed + {x})
  }

  /** outgoing_.Add of a connected socket: by its connecting thread. */
  function DoConnected(s: State, x: Sock): State {
    s.(connecting := s.connecting - {x},
       outgoing := if s.sealedOutgoing then s.outgoing else s.outgoing + {x},
       doomed := if s.sealedOutgoing then s.doomed + {x} else s.doomed)
  }

  /** By the event loop, if the connect has succeeded. */
  function DoFinish(s: State, ok: bool): State
    requires s.pc.Unregistered?
  {
    var added := ok && !s.sealedOutgoing;
    s.(pc := Handling(s.pc.rest),
       outgoing := if added then s.outgoing + {s.pc.x} else s.outgoing,
       doomed := if added then s.doomed else s.doomed + {s.pc.x})
  }

  function DoAddAccepted(s: State): State
    requires s.pc.Accepted?
  {
    s.(incoming := if s.sealedIncoming then s.incoming else s.incoming + {s.pc.x},
       doomed := if s.sealedIncoming then s.doomed + {s.pc.x} else s.doomed,
       pc := if s.sealedIncoming then Handling(s.pc.rest) else Accepting(s.pc.fd, s.pc.rest))
  }

  function DoExpire(s: State, fds: set<Fd>): State
    requires fds <= s.connectors.Keys
  {
    s.(connectors := s.connectors - fds, pc := Expiring(set fd | fd in fds :: s.connectors[fd], {}))
  }

  /** Unregisters one expired connector, or closes them when all are unregistered. */
  function DoUnregisterExpired(s: State, x: Sock): State
    requires Enabled(s, UnregisterExpired(x))
  {
    if s.pc.todo == {} then Doom(s.(pc := Polling), s.pc.done)
    else s.(registered := s.registered - {s.open[x]}, pc := Expiring(s.pc.todo - {x}, s.pc.done + {x}))
  }

  function DoStop(s: State): State
    requires Enabled(s, StopStep)
  {
    s.(stopPc := s.stopPc + 1,
       sealedConnectors := s.sealedConnectors || s.stopPc == 0,
       sealedIncoming := s.sealedIncoming || s.stopPc == 1,
       sealedOutgoing := s.sealedOutgoing || s.stopPc == 2,
       stop := s.stop || s.stopPc == 3,
       // 4: listeners_.Shutdown()
       incoming := if s.stopPc == 5 then {} else s.incoming,
       outgoing := if s.stopPc == 6 then {} else s.outgoing,
       doomed := if s.stopPc == 5 then s.doomed + s.incoming
                 else if s.stopPc == 6 then s.doomed + s.outgoing else s.doomed)
  }

  function Apply(s: State, step: Step): State
    requires Enabled(s, step)
  {
    match step
    case Create(x, fd) => s.(open := s.open[x := fd], connecting := s.connecting + {x})
    case ConnectFails(x) => Doom(s.(connecting := s.connecting - {x}), {x})
    case ConnectSucceeds(x) => DoConnected(s, x)
    case ConnectPending(x, registers) => DoPending(s, x, registers)
    case MoveIncoming => s.(incoming := {}, callers := s.callers + s.incoming)
    case MoveOutgoing => s.(outgoing := {}, callers := s.callers + s.outgoing)
    case CallerCloses(x) => Doom(s.(callers := s.callers - {x}), {x})
    case CloseOne(x) => Close(s, x)
    case Wait(events) => s.(pc := Handling(events))
    case Dispatch(broken) => DoDispatch(s, broken)
    case Accept(x, fd) => s.(open := s.open[x := fd], pc := Accepted(x, s.pc.fd, s.pc.rest))
    case AddAccepted => DoAddAccepted(s)
    case AcceptEnds(shutdown) =>
      s.(registered := if shutdown then s.registered - {s.pc.fd} else s.registered,
         pc := if shutdown then Dropping(s.pc.fd, s.pc.rest) else Handling(s.pc.rest))
    case DropListener =>
      Doom(s.(listeners := s.listeners - {s.pc.fd}, pc := Handling(s.pc.rest)), {s.listeners[s.pc.fd]})
    case Unregister => s.(registered := s.registered - {s.open[s.pc.x]}, pc := Unregistered(s.pc.x, s.pc.rest))
    case FinishConnect(ok) => DoFinish(s, ok)
    case Expire(fds) => DoExpire(s, fds)
    case UnregisterExpired(x) => DoUnregisterExpired(s, x)
    case LoopExits => s.(pc := ClosingListeners)
    case CloseListeners => Doom(s.(listeners := map[], pc := ClosingConnectors), s.listeners.Values)
    case CloseConnectors => Doom(s.(connectors := map[], pc := Exited), s.connectors.Values)
    case StopStep => DoStop(s)
  }

  /** Created with its listeners open and registered. */
  predicate Init(s: State) {
    && s.closed == {} && s.connectors == map[] && s.incoming == {} && s.outgoing == {} && s.callers == {}
    && s.connecting == {} && s.doomed == {} && !s.sealedConnectors && !s.sealedIncoming && !s.sealedOutgoing && !s.stop
    && s.stopPc == 0 && s.pc.Polling? && s.registered == s.listeners.Keys
    && (forall fd <- s.listeners :: s.listeners[fd] in s.open && s.open[s.listeners[fd]] == fd)
    && (forall x <- s.open :: s.open[x] in s.listeners && s.listeners[s.open[x]] == x)
  }

  predicate IsRun(run: seq<State>, steps: seq<Step>) {
    && |run| == |steps| + 1 && Init(run[0])
    && forall n {:trigger steps[n]} :: 0 <= n < |steps| ==>
         Enabled(run[n], steps[n]) && run[n + 1] == Apply(run[n], steps[n])
  }

  // --- The invariant -----------------------------------------------------------------------

  /** What the event loop holds itself. */
  function Hand(pc: Pc): set<Sock> {
    match pc
    case Accepted(x, _, _) => {x}
    case Removed(x, _) => {x}
    case Unregistered(x, _) => {x}
    case Expiring(todo, done) => todo + done
    case _ => {}
  }

  /** The events of this round that are still to be handled, this one included. */
  function Pending(pc: Pc): seq<Fd> {
    match pc
    case Handling(rest) => rest
    case Accepting(fd, rest) => rest
    case Accepted(_, fd, rest) => rest
    case Dropping(fd, rest) => rest
    case Removed(_, rest) => rest
    case Unregistered(_, rest) => rest
    case _ => []
  }

  /** The listener being handled. */
  predicate Current(pc: Pc, fd: Fd) {
    (pc.Accepting? || pc.Accepted? || pc.Dropping?) && pc.fd == fd
  }

  function One(b: bool): nat { if b then 1 else 0 }

  /** How many owners `x` has. */
  function Owners(s: State, x: Sock): nat {
    One(x in s.open && s.open[x] in s.listeners && s.listeners[s.open[x]] == x) +
    One(x in s.open && s.open[x] in s.connectors && s.connectors[s.open[x]] == x) +
    One(x in s.incoming) + One(x in s.outgoing) + One(x in s.callers) + One(x in s.connecting) + One(x in s.doomed) +
    One(x in Hand(s.pc))
  }

  /** Every open socket has exactly one owner, and a closed one has none. */
  ghost predicate OneOwner(s: State) { forall x: Sock :: Owners(s, x) == One(x in s.open) }

  ghost predicate FdsOk(s: State) {
    && (forall x, y :: x in s.open && y in s.open && s.open[x] == s.open[y] ==> x == y)
    && (forall x <- s.open :: x !in s.closed)
    && (forall fd <- s.listeners :: s.listeners[fd] in s.open && s.open[s.listeners[fd]] == fd)
    && (forall fd <- s.connectors :: s.connectors[fd] in s.open && s.open[s.connectors[fd]] == fd)
  }

  /** The event loop polls no more. */
  predicate Exiting(pc: Pc) { pc.ClosingConnectors? || pc.Exited? }

  /** Somebody other than the containers has the descriptor, though it is still registered. */
  ghost predicate HeldWatched(s: State, fd: Fd) {
    || (exists x :: x in Hand(s.pc) && x in s.open && s.open[x] == fd && MayWatch(s.pc, x))
    || (Exiting(s.pc) && exists x :: x in s.doomed && x in s.open && s.open[x] == fd)
  }

  /** Expiring or removed connectors may still be registered, and at the end those to be closed. */
  ghost predicate WatchOk(s: State) {
    forall fd <- s.registered :: fd in s.listeners || fd in s.connectors || HeldWatched(s, fd)
  }

  predicate MayWatch(pc: Pc, x: Sock) { pc.Removed? || (pc.Expiring? && x in pc.todo) }

  ghost predicate EventsOk(s: State) {
    && Distinct(Pending(s.pc))
    && (forall fd <- Pending(s.pc) :: (fd in s.listeners || fd in s.connectors) && !Current(s.pc, fd))
    && (s.pc.Accepting? || s.pc.Accepted? || s.pc.Dropping? ==> s.pc.fd in s.listeners)
    && (s.pc.Dropping? ==> s.pc.fd !in s.registered)
  }

  predicate StopOk(s: State) {
    && s.stopPc <= STOP_RETURNED
    && (s.stopPc > 0 <==> s.sealedConnectors) && (s.stopPc > 1 <==> s.sealedIncoming)
    && (s.stopPc > 2 <==> s.sealedOutgoing)
    && (s.stop <==> s.stopPc > 3)
    && (s.stopPc > 5 ==> s.incoming == {}) && (s.stopPc > 6 ==> s.outgoing == {})
    && (s.pc.ClosingListeners? || s.pc.ClosingConnectors? || s.pc.Exited? ==> s.stop)
    && (s.pc.ClosingConnectors? || s.pc.Exited? ==> s.listeners == map[])
    && (s.pc.Exited? ==> s.connectors == map[])
  }

  ghost predicate Inv(s: State) { OneOwner(s) && FdsOk(s) && WatchOk(s) && EventsOk(s) && StopOk(s) }

  // --- Every step keeps it -----------------------------------------------------------------------

  /** The invariant, except that the sockets `xs` have lost their owner. */
  ghost predicate InvBut(s: State, xs: set<Sock>) {
    && xs <= s.open.Keys && (forall x: Sock :: Owners(s, x) == One(x in s.open && x !in xs))
    && (forall fd <- s.registered ::
          fd in s.listeners || fd in s.connectors || HeldWatched(s, fd)
          || (Exiting(s.pc) && exists x <- xs :: s.open[x] == fd))
    && FdsOk(s) && EventsOk(s) && StopOk(s)
  }

  lemma DoomKeepsOwners(s: State, xs: set<Sock>)
    requires InvBut(s, xs)
    ensures OneOwner(Doom(s, xs))
  {
    forall x: Sock ensures Owners(Doom(s, xs), x) == One(x in s.open) {
      assert Owners(s, x) == One(x in s.open && x !in xs);
    }
  }

  /** Ownerless sockets go to the thread that took them out. */
  lemma DoomKeeps(s: State, xs: set<Sock>)
    requires InvBut(s, xs)
    ensures Inv(Doom(s, xs))
  {
    DoomKeepsOwners(s, xs);
    var s' := Doom(s, xs);
    forall fd | fd in s'.registered && fd !in s'.listeners && fd !in s'.connectors ensures HeldWatched(s', fd) {
      assert HeldWatched(s, fd) || (Exiting(s.pc) && exists x <- xs :: s.open[x] == fd);
    }
  }

  lemma CloseKeepsOwners(s: State, x: Sock)
    requires OneOwner(s) && x in s.doomed && x in s.open && FdsOk(s)
    ensures OneOwner(Close(s, x)) && FdsOk(Close(s, x))
  {
    var s' := Close(s, x);
    assert Owners(s, x) == 1;
    forall y: Sock ensures Owners(s', y) == One(y in s'.open) {
      assert Owners(s, y) == One(y in s.open);
    }
  }

  lemma WatcherRemains(s: State, x: Sock, fd: Fd)
    requires x in s.open && HeldWatched(s, fd) && fd != s.open[x]
    ensures HeldWatched(Close(s, x), fd)
  {
    var s' := Close(s, x);
    if y :| y in Hand(s.pc) && y in s.open && s.open[y] == fd && MayWatch(s.pc, y) {
      assert y in s'.open;
    } else {
      var y :| y in s.doomed && y in s.open && s.open[y] == fd;
      assert y in s'.open && y in s'.doomed;
    }
  }

  /** Closing a socket frees its descriptor for good, and nobody else held it. */
  lemma CloseOneKeeps(s: State, x: Sock)
    requires Inv(s) && Enabled(s, CloseOne(x))
    ensures Inv(Apply(s, CloseOne(x)))
  {
    CloseKeepsOwners(s, x);
    var s' := Close(s, x);
    forall fd | fd in s'.registered && fd !in s'.listeners && fd !in s'.connectors ensures HeldWatched(s', fd) {
      WatcherRemains(s, x, fd);
    }
  }

  lemma CreateKeeps(s: State, x: Sock, fd: Fd)
    requires Inv(s) && Enabled(s, Create(x, fd))
    ensures Inv(Apply(s, Create(x, fd)))
  {
    CreatedOwners(s, x, Apply(s, Create(x, fd)));
    WatchersStay(s, Apply(s, Create(x, fd)));
  }

  /** A new socket gets an owner, and the others keep theirs. */
  lemma CreatedOwners(s: State, x: Sock, s': State)
    requires Inv(s) && x !in s.open && x in s'.open
    requires s'.open == s.open[x := s'.open[x]] && s'.open[x] !in s.open.Values
    requires s' == s.(open := s'.open, connecting := s'.connecting, pc := s'.pc)
    requires || (s'.connecting == s.connecting + {x} && s'.pc == s.pc)
      || (s'.connecting == s.connecting && Hand(s.pc) == {} && Hand(s'.pc) == {x})
    ensures OneOwner(s')
  {
    assert Owners(s, x) == 0;
    forall y: Sock ensures Owners(s', y) == One(y in s'.open) {
      assert Owners(s, y) == One(y in s.open);
    }
  }

  /** Registered descriptors keep their holders when more sockets are open. */
  lemma WatchersStay(s: State, s': State)
    requires WatchOk(s) && (forall x <- s.open :: x in s'.open && s'.open[x] == s.open[x])
    requires s'.registered == s.registered && s'.listeners == s.listeners && s'.connectors == s.connectors
    requires s'.doomed == s.doomed && (s'.pc == s.pc || (s.pc.Accepting? && s'.pc.Accepted?))
    ensures WatchOk(s')
  {
    forall fd | fd in s.registered && fd !in s.listeners && fd !in s.connectors ensures HeldWatched(s', fd) {
      assert HeldWatched(s, fd);
    }
  }

  /** A thread inside Connect lets go of its socket. */
  lemma TakeConnecting(s: State, x: Sock)
    requires Inv(s) && x in s.connecting
    ensures InvBut(s.(connecting := s.connecting - {x}), {x})
  {
    var s' := s.(connecting := s.connecting - {x});
    forall y: Sock ensures Owners(s', y) == One(y in s.open && y != x) {
      assert Owners(s, y) == One(y in s.open);
    }
    WatchersStay(s, s');
  }

  lemma ConnectFailsKeeps(s: State, x: Sock)
    requires Inv(s) && Enabled(s, ConnectFails(x))
    ensures Inv(Apply(s, ConnectFails(x)))
  {
    TakeConnecting(s, x);
    DoomKeeps(s.(connecting := s.connecting - {x}), {x});
  }

  lemma ConnectSucceedsKeeps(s: State, x: Sock)
    requires Inv(s) && Enabled(s, ConnectSucceeds(x))
    ensures Inv(Apply(s, ConnectSucceeds(x)))
  {
    if s.sealedOutgoing {
      TakeConnecting(s, x);
      DoomKeeps(s.(connecting := s.connecting - {x}), {x});
    } else {
      ConnectedKeeps(s, x);
    }
  }

  lemma ConnectedKeeps(s: State, x: Sock)
    requires Inv(s) && x in s.connecting && !s.sealedOutgoing
    ensures Inv(s.(connecting := s.connecting - {x}, outgoing := s.outgoing + {x}))
  {
    var s' := s.(connecting := s.connecting - {x}, outgoing := s.outgoing + {x});
    forall y: Sock ensures Owners(s', y) == One(y in s'.open) {
      assert Owners(s, y) == One(y in s.open);
    }
    WatchersStay(s, s');
  }

  lemma AddPending(s: State, x: Sock)
    requires Inv(s) && x in s.connecting && x in s.open && s.open[x] !in s.connectors && !s.sealedConnectors
    ensures Inv(s.(connecting := s.connecting - {x}, connectors := s.connectors[s.open[x] := x],
                   registered := s.registered + {s.open[x]}))
  {
  }

  lemma ConnectPendingKeeps(s: State, x: Sock, registers: bool)
    requires Inv(s) && Enabled(s, ConnectPending(x, registers))
    ensures Inv(Apply(s, ConnectPending(x, registers)))
  {
    if s.sealedConnectors || s.open[x] in s.connectors || !registers {
      TakeConnecting(s, x);
      DoomKeeps(s.(connecting := s.connecting - {x}), {x});
    } else {
      AddPending(s, x);
    }
  }

  lemma MoveIncomingKeeps(s: State)
    requires Inv(s) && Enabled(s, MoveIncoming)
    ensures Inv(Apply(s, MoveIncoming))
  {
  }

  lemma MoveOutgoingKeeps(s: State)
    requires Inv(s) && Enabled(s, MoveOutgoing)
    ensures Inv(Apply(s, MoveOutgoing))
  {
  }

  lemma CallerClosesKeeps(s: State, x: Sock)
    requires Inv(s) && Enabled(s, CallerCloses(x))
    ensures Inv(Apply(s, CallerCloses(x)))
  {
    DoomKeeps(s.(callers := s.callers - {x}), {x});
  }

  lemma WaitKeeps(s: State, events: seq<Fd>)
    requires Inv(s) && Enabled(s, Wait(events))
    ensures Inv(Apply(s, Wait(events)))
  {
  }

  lemma TakeEvent(fds: seq<Fd>)
    requires fds != [] && Distinct(fds)
    ensures Distinct(fds[1..]) && fds[0] !in fds[1..] && forall fd <- fds[1..] :: fd in fds
  {
  }

  lemma DispatchListener(s: State)
    requires Inv(s) && s.pc.Handling? && s.pc.rest != [] && s.pc.rest[0] in s.listeners
    requires Distinct(s.pc.rest[1..]) && s.pc.rest[0] !in s.pc.rest[1..]
    requires forall fd <- s.pc.rest[1..] :: fd in s.pc.rest
    ensures Inv(s.(pc := Accepting(s.pc.rest[0], s.pc.rest[1..])))
  {
  }

  lemma DispatchBroken(s: State)
    requires Inv(s) && s.pc.Handling? && s.pc.rest != [] && s.pc.rest[0] in s.listeners
    requires Distinct(s.pc.rest[1..]) && s.pc.rest[0] !in s.pc.rest[1..]
    requires forall fd <- s.pc.rest[1..] :: fd in s.pc.rest
    ensures Inv(s.(registered := s.registered - {s.pc.rest[0]}, pc := Dropping(s.pc.rest[0], s.pc.rest[1..])))
  {
  }

  lemma DispatchConnector(s: State)
    requires Inv(s) && s.pc.Handling? && s.pc.rest != [] && s.pc.rest[0] in s.connectors
    requires Distinct(s.pc.rest[1..]) && s.pc.rest[0] !in s.pc.rest[1..]
    requires forall fd <- s.pc.rest[1..] :: fd in s.pc.rest
    ensures var fd := s.pc.rest[0];
      Inv(s.(connectors := s.connectors - {fd}, pc := Removed(s.connectors[fd], s.pc.rest[1..])))
  {
    var fd := s.pc.rest[0];
    var x := s.connectors[fd];
    var s' := s.(connectors := s.connectors - {fd}, pc := Removed(x, s.pc.rest[1..]));
    assert x in Hand(s'.pc) && x in s'.open && s'.open[x] == fd && MayWatch(s'.pc, x);
    forall y: Sock ensures Owners(s', y) == One(y in s'.open) {
      assert Owners(s, y) == One(y in s.open);
    }
  }

  lemma DispatchKeeps(s: State, broken: bool)
    requires Inv(s) && Enabled(s, Dispatch(broken))
    ensures Inv(Apply(s, Dispatch(broken)))
  {
    TakeEvent(s.pc.rest);
    if s.pc.rest[0] !in s.listeners {
      DispatchConnector(s);
    } else if broken {
      DispatchBroken(s);
    } else {
      DispatchListener(s);
    }
  }

  lemma AcceptKeeps(s: State, x: Sock, fd: Fd)
    requires Inv(s) && Enabled(s, Accept(x, fd))
    ensures Inv(Apply(s, Accept(x, fd)))
  {
    CreatedOwners(s, x, Apply(s, Accept(x, fd)));
    WatchersStay(s, Apply(s, Accept(x, fd)));
  }

  lemma RejectAccepted(s: State)
    requires Inv(s) && s.pc.Accepted?
    ensures Inv(Doom(s.(pc := Handling(s.pc.rest)), {s.pc.x}))
  {
    DoomKeeps(s.(pc := Handling(s.pc.rest)), {s.pc.x});
  }

  lemma KeepAccepted(s: State)
    requires Inv(s) && s.pc.Accepted? && !s.sealedIncoming
    ensures Inv(s.(incoming := s.incoming + {s.pc.x}, pc := Accepting(s.pc.fd, s.pc.rest)))
  {
  }

  lemma AddAcceptedKeeps(s: State)
    requires Inv(s) && Enabled(s, AddAccepted)
    ensures Inv(Apply(s, AddAccepted))
  {
    if s.sealedIncoming {
      RejectAccepted(s);
    } else {
      KeepAccepted(s);
    }
  }

  lemma AcceptEndsKeeps(s: State, shutdown: bool)
    requires Inv(s) && Enabled(s, AcceptEnds(shutdown))
    ensures Inv(Apply(s, AcceptEnds(shutdown)))
  {
  }

  lemma ListenerTaken(s: State)
    requires Inv(s) && s.pc.Dropping? && s.pc.fd in s.listeners
    ensures InvBut(s.(listeners := s.listeners - {s.pc.fd}, pc := Handling(s.pc.rest)), {s.listeners[s.pc.fd]})
  {
    var s', x := s.(listeners := s.listeners - {s.pc.fd}, pc := Handling(s.pc.rest)), s.listeners[s.pc.fd];
    forall y: Sock ensures Owners(s', y) == One(y in s.open && y != x) {
      assert Owners(s, y) == One(y in s.open);
    }
  }

  lemma ListenerDropped(s: State)
    requires Inv(s) && s.pc.Dropping? && s.pc.fd in s.listeners
    ensures Inv(Doom(s.(listeners := s.listeners - {s.pc.fd}, pc := Handling(s.pc.rest)), {s.listeners[s.pc.fd]}))
  {
    ListenerTaken(s);
    DoomKeeps(s.(listeners := s.listeners - {s.pc.fd}, pc := Handling(s.pc.rest)), {s.listeners[s.pc.fd]});
  }

  lemma DropListenerKeeps(s: State)
    requires Inv(s) && Enabled(s, DropListener)
    ensures Inv(Apply(s, DropListener))
  {
    ListenerDropped(s);
  }

  lemma UnregisterKeeps(s: State)
    requires Inv(s) && Enabled(s, Unregister)
    ensures Inv(Apply(s, Unregister))
  {
  }

  lemma FinishedKeeps(s: State)
    requires Inv(s) && s.pc.Unregistered? && !s.sealedOutgoing
    ensures Inv(s.(pc := Handling(s.pc.rest), outgoing := s.outgoing + {s.pc.x}))
  {
    var s' := s.(pc := Handling(s.pc.rest), outgoing := s.outgoing + {s.pc.x});
    forall y: Sock ensures Owners(s', y) == One(y in s'.open) {
      assert Owners(s, y) == One(y in s.open);
    }
  }

  lemma UnregisteredTaken(s: State)
    requires Inv(s) && s.pc.Unregistered?
    ensures InvBut(s.(pc := Handling(s.pc.rest)), {s.pc.x})
  {
    var s', x := s.(pc := Handling(s.pc.rest)), s.pc.x;
    forall y: Sock ensures Owners(s', y) == One(y in s.open && y != x) {
      assert Owners(s, y) == One(y in s.open);
    }
  }

  lemma FinishConnectKeeps(s: State, ok: bool)
    requires Inv(s) && Enabled(s, FinishConnect(ok))
    ensures Inv(Apply(s, FinishConnect(ok)))
  {
    if !ok || s.sealedOutgoing {
      UnregisteredTaken(s);
      DoomKeeps(s.(pc := Handling(s.pc.rest)), {s.pc.x});
    } else {
      FinishedKeeps(s);
    }
  }

  lemma Expired(s: State, fds: set<Fd>)
    requires Inv(s) && s.pc == Handling([]) && fds <= s.connectors.Keys
    ensures Inv(DoExpire(s, fds))
  {
  }

  lemma ExpireKeeps(s: State, fds: set<Fd>)
    requires Inv(s) && Enabled(s, Expire(fds))
    ensures Inv(Apply(s, Expire(fds)))
  {
    Expired(s, fds);
  }

  lemma OneExpiredKeeps(s: State, x: Sock)
    requires Inv(s) && s.pc.Expiring? && x in s.pc.todo && x in s.open
    ensures Inv(s.(registered := s.registered - {s.open[x]}, pc := Expiring(s.pc.todo - {x}, s.pc.done + {x})))
  {
    assert s.pc.todo - {x} + (s.pc.done + {x}) == s.pc.todo + s.pc.done;
  }

  lemma UnregisterExpiredKeeps(s: State, x: Sock)
    requires Inv(s) && Enabled(s, UnregisterExpired(x))
    ensures Inv(Apply(s, UnregisterExpired(x)))
  {
    if s.pc.todo == {} {
      DoomKeeps(s.(pc := Polling), s.pc.done);
    } else {
      OneExpiredKeeps(s, x);
    }
  }

  lemma LoopExitsKeeps(s: State)
    requires Inv(s) && Enabled(s, LoopExits)
    ensures Inv(Apply(s, LoopExits))
  {
  }

  lemma ListenersClosed(s: State)
    requires Inv(s) && s.pc.ClosingListeners?
    ensures Inv(Doom(s.(listeners := map[], pc := ClosingConnectors), s.listeners.Values))
  {
    DoomKeeps(s.(listeners := map[], pc := ClosingConnectors), s.listeners.Values);
  }

  lemma CloseListenersKeeps(s: State)
    requires Inv(s) && Enabled(s, CloseListeners)
    ensures Inv(Apply(s, CloseListeners))
  {
    ListenersClosed(s);
  }

  lemma CloseConnectorsKeeps(s: State)
    requires Inv(s) && Enabled(s, CloseConnectors)
    ensures Inv(Apply(s, CloseConnectors))
  {
    DoomKeeps(s.(connectors := map[], pc := Exited), s.connectors.Values);
  }

  lemma FlagsKeep(s: State, s': State)
    requires Inv(s) && StopOk(s')
    requires s' == s.(sealedConnectors := s'.sealedConnectors, sealedIncoming := s'.sealedIncoming,
                      sealedOutgoing := s'.sealedOutgoing, stop := s'.stop, stopPc := s'.stopPc)
    ensures Inv(s')
  {
  }

  lemma StopSeals(s: State)
    requires Inv(s) && s.stopPc < 5
    ensures Inv(DoStop(s))
  {
    var s' := DoStop(s);
    assert s' == s.(sealedConnectors := s'.sealedConnectors, sealedIncoming := s'.sealedIncoming,
                    sealedOutgoing := s'.sealedOutgoing, stop := s'.stop, stopPc := s'.stopPc);
    assert StopOk(s');
    FlagsKeep(s, s');
  }

  lemma StopClosesIncoming(s: State)
    requires Inv(s) && s.stopPc == 5
    ensures Inv(Doom(s.(stopPc := 6, incoming := {}), s.incoming))
  {
    DoomKeeps(s.(stopPc := 6, incoming := {}), s.incoming);
  }

  lemma StopClosesOutgoing(s: State)
    requires Inv(s) && s.stopPc == 6
    ensures Inv(Doom(s.(stopPc := 7, outgoing := {}), s.outgoing))
  {
    DoomKeeps(s.(stopPc := 7, outgoing := {}), s.outgoing);
  }

  lemma StopStepKeeps(s: State)
    requires Inv(s) && Enabled(s, StopStep)
    ensures Inv(Apply(s, StopStep))
  {
    if s.stopPc == 5 {
      StopClosesIncoming(s);
    } else if s.stopPc == 6 {
      StopClosesOutgoing(s);
    } else {
      StopSeals(s);
    }
  }

  lemma StepKeeps(s: State, step: Step)
    requires Inv(s) && Enabled(s, step)
    ensures Inv(Apply(s, step))
  {
    match step {
      case Create(x, fd) => CreateKeeps(s, x, fd);
      case ConnectFails(x) => ConnectFailsKeeps(s, x);
      case ConnectSucceeds(x) => ConnectSucceedsKeeps(s, x);
      case ConnectPending(x, registers) => ConnectPendingKeeps(s, x, registers);
      case MoveIncoming => MoveIncomingKeeps(s);
      case MoveOutgoing => MoveOutgoingKeeps(s);
      case CallerCloses(x) => CallerClosesKeeps(s, x);
      case CloseOne(x) => CloseOneKeeps(s, x);
      case Wait(events) => WaitKeeps(s, events);
      case Dispatch(broken) => DispatchKeeps(s, broken);
      case Accept(x, fd) => AcceptKeeps(s, x, fd);
      case AddAccepted => AddAcceptedKeeps(s);
      case AcceptEnds(shutdown) => AcceptEndsKeeps(s, shutdown);
      case DropListener => DropListenerKeeps(s);
      case Unregister => UnregisterKeeps(s);
      case FinishConnect(ok) => FinishConnectKeeps(s, ok);
      case Expire(fds) => ExpireKeeps(s, fds);
      case UnregisterExpired(x) => UnregisterExpiredKeeps(s, x);
      case LoopExits => LoopExitsKeeps(s);
      case CloseListeners => CloseListenersKeeps(s);
      case CloseConnectors => CloseConnectorsKeeps(s);
      case StopStep => StopStepKeeps(s);
    }
  }

  lemma InitKeeps(s: State)
    requires Init(s)
    ensures Inv(s)
  {
  }

  // --- Whole runs --------------------------------------------------------------------------------

  lemma {:induction false} RunKeeps(run: seq<State>, steps: seq<Step>, n: nat)
    requires IsRun(run, steps) && n < |run|
    ensures Inv(run[n])
  {
    if n == 0 {
      InitKeeps(run[0]);
    } else {
      RunKeeps(run, steps, n - 1);
      assert Enabled(run[n - 1], steps[n - 1]) && run[n - 1 + 1] == Apply(run[n - 1], steps[n - 1]);
      StepKeeps(run[n - 1], steps[n - 1]);
    }
  }

  /** Each socket has exactly one owner while it is open and none once it is closed. */
  lemma ExactlyOneOwner(run: seq<State>, steps: seq<Step>, n: nat, x: Sock)
    requires IsRun(run, steps) && n < |run|
    ensures Owners(run[n], x) == One(x in run[n].open)
    ensures x in run[n].open ==> x !in run[n].closed
  {
    RunKeeps(run, steps, n);
  }

  /** Every polled event finds its descriptor among the listeners or the connectors. */
  lemma EventsFindTheirSocket(run: seq<State>, steps: seq<Step>, n: nat, broken: bool)
    requires IsRun(run, steps) && n < |run| && run[n].pc.Handling? && run[n].pc.rest != []
    ensures Enabled(run[n], Dispatch(broken))
  {
    RunKeeps(run, steps, n);
    assert run[n].pc.rest[0] in Pending(run[n].pc);
  }

  /** The poller watches only descriptors of sockets the manager still owns. */
  lemma WatchedAreOwned(run: seq<State>, steps: seq<Step>, n: nat, fd: Fd)
    requires IsRun(run, steps) && n < |run| && fd in run[n].registered
    ensures exists x :: x in run[n].open && run[n].open[x] == fd
  {
    RunKeeps(run, steps, n);
    var s := run[n];
    if fd in s.listeners {
      assert s.listeners[fd] in s.open;
    } else if fd in s.connectors {
      assert s.connectors[fd] in s.open;
    }
  }

  predicate Over(s: State) { s.stopPc == STOP_RETURNED && s.pc.Exited? }

  lemma OverStays(s: State, step: Step)
    requires Over(s) && Enabled(s, step)
    ensures Over(Apply(s, step))
  {
  }

  lemma {:induction false} OverForever(run: seq<State>, steps: seq<Step>, n: nat, m: nat)
    requires IsRun(run, steps) && n <= m < |run| && Over(run[n])
    ensures Over(run[m])
    decreases m
  {
    if n < m {
      OverForever(run, steps, n, m - 1);
      assert Enabled(run[m - 1], steps[m - 1]) && run[m - 1 + 1] == Apply(run[m - 1], steps[m - 1]);
      OverStays(run[m - 1], steps[m - 1]);
    }
  }

  lemma OverIsEmpty(s: State)
    requires Over(s) && StopOk(s)
    ensures s.listeners == map[] && s.connectors == map[] && s.incoming == {} && s.outgoing == {}
  {
  }

  /** Once Stop has returned and Start has exited, no container holds a socket, then or ever after. */
  lemma NothingAfterStop(run: seq<State>, steps: seq<Step>, n: nat, m: nat)
    requires IsRun(run, steps) && n <= m < |run| && Over(run[n])
    ensures run[m].listeners == map[] && run[m].connectors == map[] && run[m].incoming == {} && run[m].outgoing == {}
  {
    RunKeeps(run, steps, m);
    OverForever(run, steps, n, m);
    OverIsEmpty(run[m]);
  }

  // --- Which sockets are handed out -------------------------------------------------------------

  /** Socket `x` gets connected at this step: by connect(), now or after a wait, or by accept(). */
  predicate ConnectsAt(s: State, step: Step, x: Sock) {
    || step == ConnectSucceeds(x) || (step.Accept? && step.x == x)
    || (step == FinishConnect(true) && s.pc.Unregistered? && s.pc.x == x)
  }

  /** What callers have collected or can collect, and the socket just accepted. */
  function Ready(s: State): set<Sock> {
    s.incoming + s.outgoing + s.callers + if s.pc.Accepted? then {s.pc.x} else {}
  }

  ghost predicate ConnectedBefore(run: seq<State>, steps: seq<Step>, n: nat, x: Sock) {
    |run| == |steps| + 1 && exists m: nat :: m < n && m < |steps| && ConnectsAt(run[m], steps[m], x)
  }

  /** The caller who collected `x` has closed it. */
  ghost predicate ClosedByCaller(steps: seq<Step>, n: nat, x: Sock) {
    exists m: nat :: m < n && m < |steps| && steps[m] == CallerCloses(x)
  }

  /** Nothing has been handed out or taken, and Stop is where it was. */
  predicate SameReady(s: State, s': State) { Ready(s') == Ready(s) && s'.stopPc == s.stopPc }

  predicate HandsOut(step: Step) {
    || step.ConnectSucceeds? || step.MoveIncoming? || step.MoveOutgoing? || step.CallerCloses?
    || step.Accept? || step.AddAccepted? || step.FinishConnect? || step.StopStep?
  }

  predicate IsConnectStep(step: Step) {
    step.Create? || step.ConnectFails? || step.ConnectPending? || step.CloseOne?
  }

  predicate IsListenStep(step: Step) {
    step.Wait? || step.Dispatch? || step.AcceptEnds? || step.DropListener? || step.Unregister?
  }

  lemma ConnectStepHandsNothing(s: State, step: Step)
    requires Enabled(s, step) && IsConnectStep(step)
    ensures SameReady(s, Apply(s, step))
  {
  }

  lemma ListenStepHandsNothing(s: State, step: Step)
    requires Enabled(s, step) && IsListenStep(step)
    ensures SameReady(s, Apply(s, step))
  {
  }

  lemma EndStepHandsNothing(s: State, step: Step)
    requires Enabled(s, step) && !HandsOut(step) && !IsConnectStep(step) && !IsListenStep(step)
    ensures SameReady(s, Apply(s, step))
  {
  }

  lemma StepHandsNothing(s: State, step: Step)
    requires Enabled(s, step) && !HandsOut(step)
    ensures SameReady(s, Apply(s, step))
  {
    if IsConnectStep(step) {
      ConnectStepHandsNothing(s, step);
    } else if IsListenStep(step) {
      ListenStepHandsNothing(s, step);
    } else {
      EndStepHandsNothing(s, step);
    }
  }

  lemma AcceptHandsOut(s: State, step: Step)
    requires Enabled(s, step) && (step.Accept? || step.AddAccepted?)
    ensures var s' := Apply(s, step);
      && s'.stopPc == s.stopPc && (forall x :: x in Ready(s') ==> x in Ready(s) || ConnectsAt(s, step, x))
      && (step.Accept? ==> Ready(s') == Ready(s) + {step.x})
      && (step.AddAccepted? && !s.sealedIncoming ==> Ready(s') == Ready(s))
  {
  }

  lemma ConnectHandsOut(s: State, step: Step)
    requires Enabled(s, step) && (step.ConnectSucceeds? || step.FinishConnect?)
    ensures var s' := Apply(s, step);
      && s'.stopPc == s.stopPc && (forall x :: x in Ready(s') ==> x in Ready(s) || ConnectsAt(s, step, x))
      && Ready(s) <= Ready(s')
      && (!s.sealedOutgoing ==> forall x :: ConnectsAt(s, step, x) ==> x in Ready(s'))
  {
  }

  lemma CallersTake(s: State, step: Step)
    requires Enabled(s, step) && (step.MoveIncoming? || step.MoveOutgoing? || step.CallerCloses?)
    ensures var s' := Apply(s, step);
      && s'.stopPc == s.stopPc && Ready(s') <= Ready(s)
      && forall x :: x in Ready(s) && step != CallerCloses(x) ==> x in Ready(s')
  {
  }

  lemma StopTakes(s: State)
    requires Enabled(s, StopStep)
    ensures Ready(Apply(s, StopStep)) <= Ready(s) && Apply(s, StopStep).stopPc > s.stopPc
  {
  }

  /** How a step changes what is ready. */
  lemma ReadyChanges(s: State, step: Step)
    requires Enabled(s, step) && StopOk(s)
    ensures var s' := Apply(s, step);
      && s.stopPc <= s'.stopPc
      && (forall x :: x in Ready(s') ==> x in Ready(s) || ConnectsAt(s, step, x))
      && (s'.stopPc == 0 ==>
            forall x :: (x in Ready(s) && step != CallerCloses(x)) || ConnectsAt(s, step, x) ==> x in Ready(s'))
  {
    if !HandsOut(step) {
      StepHandsNothing(s, step);
    } else if step.Accept? || step.AddAccepted? {
      AcceptHandsOut(s, step);
    } else if step.ConnectSucceeds? || step.FinishConnect? {
      ConnectHandsOut(s, step);
    } else if step.StopStep? {
      StopTakes(s);
    } else {
      CallersTake(s, step);
    }
  }

  lemma RunStops(run: seq<State>, steps: seq<Step>, n: nat)
    requires IsRun(run, steps) && n < |run|
    ensures StopOk(run[n])
  {
    RunKeeps(run, steps, n);
  }

  /** A step from `s` to `s'` makes `x` ready only by connecting it, and until Stop only its caller takes it away. */
  predicate ReadyStep(s: State, step: Step, s': State, x: Sock) {
    && s.stopPc <= s'.stopPc
    && (x in Ready(s') ==> x in Ready(s) || ConnectsAt(s, step, x))
    && (s'.stopPc == 0 && x in Ready(s) ==> step == CallerCloses(x) || x in Ready(s'))
    && (s'.stopPc == 0 && ConnectsAt(s, step, x) ==> x in Ready(s'))
  }

  ghost predicate ReadySteps(run: seq<State>, steps: seq<Step>, x: Sock) {
    |run| == |steps| + 1 && forall n :: 0 <= n < |steps| ==> ReadyStep(run[n], steps[n], run[n + 1], x)
  }

  lemma RunReady(run: seq<State>, steps: seq<Step>, n: nat, x: Sock)
    requires IsRun(run, steps) && n < |steps|
    ensures ReadyStep(run[n], steps[n], run[n + 1], x)
  {
    RunStops(run, steps, n);
    assert Enabled(run[n], steps[n]) && run[n + 1] == Apply(run[n], steps[n]);
    ReadyChanges(run[n], steps[n]);
  }

  /** Callers are handed connected sockets only: no connect that failed or expired. */
  lemma {:induction false} OnlyConnected(run: seq<State>, steps: seq<Step>, n: nat, x: Sock)
    requires IsRun(run, steps) && n < |run| && x in Ready(run[n])
    ensures ConnectedBefore(run, steps, n, x)
  {
    assert n > 0;
    RunReady(run, steps, n - 1, x);
    if x in Ready(run[n - 1]) {
      OnlyConnected(run, steps, n - 1, x);
    }
  }

  lemma RunIsReady(run: seq<State>, steps: seq<Step>, x: Sock)
    requires IsRun(run, steps)
    ensures ReadySteps(run, steps, x)
  {
    forall n | 0 <= n < |steps| ensures ReadyStep(run[n], steps[n], run[n + 1], x) {
      RunReady(run, steps, n, x);
    }
  }

  lemma ConnectedEarlier(run: seq<State>, steps: seq<Step>, n: nat, x: Sock)
    requires 0 < n <= |steps| && ConnectedBefore(run, steps, n, x) && !ConnectsAt(run[n - 1], steps[n - 1], x)
    ensures ConnectedBefore(run, steps, n - 1, x)
  {
    var m: nat :| m < n && m < |steps| && ConnectsAt(run[m], steps[m], x);
    assert m < n - 1;
  }

  lemma StaysClosed(steps: seq<Step>, n: nat, x: Sock)
    requires 0 < n <= |steps|
    ensures ClosedByCaller(steps, n - 1, x) || steps[n - 1] == CallerCloses(x) ==> ClosedByCaller(steps, n, x)
  {
  }

  lemma {:induction false} NoneLostOnTheWay(run: seq<State>, steps: seq<Step>, n: nat, x: Sock)
    requires ReadySteps(run, steps, x) && n < |run| && run[n].stopPc == 0 && ConnectedBefore(run, steps, n, x)
    ensures x in Ready(run[n]) || ClosedByCaller(steps, n, x)
  {
    assert ReadyStep(run[n - 1], steps[n - 1], run[n - 1 + 1], x);
    StaysClosed(steps, n, x);
    if !ConnectsAt(run[n - 1], steps[n - 1], x) {
      ConnectedEarlier(run, steps, n, x);
      NoneLostOnTheWay(run, steps, n - 1, x);
    }
  }

  /** Until Stop is called, every connected or accepted socket is there for the callers, or was closed by one. */
  lemma NoneLost(run: seq<State>, steps: seq<Step>, n: nat, x: Sock)
    requires IsRun(run, steps) && n < |run| && run[n].stopPc == 0 && ConnectedBefore(run, steps, n, x)
    ensures x in Ready(run[n]) || ClosedByCaller(steps, n, x)
  {
    RunIsReady(run, steps, x);
    NoneLostOnTheWay(run, steps, n, x);
  }

  /** The outcome of a pending connect decides: connected goes to the callers unless sealed, the rest is closed. */
  lemma OutcomeDecides(run: seq<State>, steps: seq<Step>, n: nat)
    requires IsRun(run, steps) && n < |steps| && steps[n].FinishConnect?
    ensures var s, s' := run[n], run[n + 1];
      && s.pc.Unregistered? && (s.pc.x in s'.outgoing <==> steps[n].ok && !s.sealedOutgoing)
      && (s.pc.x in s'.doomed <==> !steps[n].ok || s.sealedOutgoing)
  {
    var s := run[n];
    RunKeeps(run, steps, n);
    assert Enabled(s, steps[n]) && run[n + 1] == Apply(s, steps[n]);
    assert Owners(s, s.pc.x) == One(s.pc.x in s.open);
  }

  /** Likewise for a connect() that returns at once, or with a wait ahead. */
  lemma ConnectDecides(run: seq<State>, steps: seq<Step>, n: nat)
    requires IsRun(run, steps) && n < |steps|
    requires steps[n].ConnectSucceeds? || steps[n].ConnectFails? || steps[n].ConnectPending?
    ensures var s, s', x := run[n], run[n + 1], steps[n].x;
      && x in s.open && x !in s'.connecting
      && (x in s'.outgoing <==> steps[n].ConnectSucceeds? && !s.sealedOutgoing)
      && (x in s'.connectors.Values <==>
            steps[n].ConnectPending? && steps[n].registers && !s.sealedConnectors && s.open[x] !in s.connectors)
      && (x in s'.doomed <==> x !in s'.outgoing && x !in s'.connectors.Values)
  {
    var s, x := run[n], steps[n].x;
    RunKeeps(run, steps, n);
    assert Enabled(s, steps[n]) && run[n + 1] == Apply(s, steps[n]);
    assert Owners(s, x) == One(x in s.open);
    NotAConnector(s, x);
    if steps[n].ConnectPending? {
      assert run[n + 1].connectors == s.connectors || run[n + 1].connectors == s.connectors[s.open[x] := x];
    }
  }

  lemma NotAConnector(s: State, x: Sock)
    requires Inv(s) && x in s.connecting
    ensures x in s.open && x !in s.connectors.Values && x !in s.outgoing && x !in s.doomed
  {
    assert Owners(s, x) == One(x in s.open);
  }
}
