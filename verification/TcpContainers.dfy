/** The containers of TcpManager, each behind its own lock. What they drop is returned, to be closed by the caller. */
module TcpContainers {
  import opened Options

  type Sock = nat
  type Fd = nat

  datatype Connector = Connector(socket: Sock, expiration: int)

  /** The connectors that expire after `now`. */
  function Alive(cs: map<Fd, Connector>, now: int): map<Fd, Connector> {
    map fd | fd in cs && cs[fd].expiration > now :: cs[fd]
  }

  function Sockets(cs: map<Fd, Connector>): set<Sock> { set fd | fd in cs :: cs[fd].socket }

  /** No socket is in the map twice. */
  ghost predicate Once(cs: map<Fd, Connector>) {
    forall a, b :: a in cs && b in cs && cs[a].socket == cs[b].socket ==> a == b
  }

  class Connectors {
    var sealed: bool
    var fd2cs: map<Fd, Connector>

    constructor ()
      ensures !sealed && fd2cs == map[]
    {
      sealed, fd2cs := false, map[];
    }

    method Seal()
      modifies this
      ensures sealed && fd2cs == old(fd2cs)
    {
      sealed := true;
    }

    /** Registers and adds under one lock; a rejected connector is not watched and the caller closes it. */
    method Add(fd: Fd, c: Connector, registers: bool) returns (added: bool, registered: bool)
      modifies this
      ensures added <==> !old(sealed) && fd !in old(fd2cs) && registers
      ensures registered == added && sealed == old(sealed)
      ensures fd2cs == if added then old(fd2cs)[fd := c] else old(fd2cs)
    {
      registered := false;
      if !sealed && fd !in fd2cs {
        registered := registers;
        if registered {
          fd2cs := fd2cs[fd := c];
          return true, registered;
        }
      }
      return false, registered;
    }

    method Remove(fd: Fd) returns (socket: Option<Sock>)
      modifies this
      ensures socket == if fd in old(fd2cs) then Some(old(fd2cs)[fd].socket) else None
      ensures fd2cs == old(fd2cs) - {fd} && sealed == old(sealed)
    {
      if fd !in fd2cs {
        assert fd2cs - {fd} == fd2cs;
        return None;
      }
      socket := Some(fd2cs[fd].socket);
      fd2cs := fd2cs - {fd};
    }

    /** Takes out exactly the expired connectors. */
    method RemoveExpired(now: int) returns (expired: map<Fd, Connector>)
      modifies this
      ensures fd2cs == Alive(old(fd2cs), now) && sealed == old(sealed)
      ensures expired == old(fd2cs) - Alive(old(fd2cs), now).Keys
      ensures old(fd2cs) == fd2cs + expired && fd2cs.Keys !! expired.Keys
    {
      ghost var all := fd2cs;
      expired := map[];
      var left := fd2cs.Keys;
      while left != {}
        invariant left <= all.Keys && sealed == old(sealed)
        invariant expired == map fd | fd in all && fd !in left && all[fd].expiration <= now :: all[fd]
        invariant fd2cs == map fd | fd in all && (fd in left || all[fd].expiration > now) :: all[fd]
        decreases |left|
      {
        var fd :| fd in left;
        if fd2cs[fd].expiration <= now {
          expired := expired[fd := fd2cs[fd]];
          fd2cs := fd2cs - {fd};
        }
        left := left - {fd};
      }
    }

    /** Takes out everything; for a sealed container nothing comes after it. */
    method Close() returns (doomed: map<Fd, Connector>)
      requires sealed
      modifies this
      ensures doomed == old(fd2cs) && fd2cs == map[] && sealed
    {
      doomed := fd2cs;
      fd2cs := map[];
    }
  }

  class Produced {
    var sealed: bool
    var sockets: seq<Sock>

    constructor ()
      ensures !sealed && sockets == []
    {
      sealed, sockets := false, [];
    }

    method Seal()
      modifies this
      ensures sealed && sockets == old(sockets)
    {
      sealed := true;
    }

    method Add(socket: Sock) returns (added: bool)
      modifies this
      ensures added == !old(sealed) && sealed == old(sealed)
      ensures sockets == old(sockets) + if added then [socket] else []
    {
      if sealed {
        return false;
      }
      sockets := sockets + [socket];
      return true;
    }

    method MoveAll() returns (all: seq<Sock>)
      modifies this
      ensures all == old(sockets) && sockets == [] && sealed == old(sealed)
    {
      all := sockets;
      sockets := [];
    }

    method Close() returns (doomed: seq<Sock>)
      requires sealed
      modifies this
      ensures doomed == old(sockets) && sockets == [] && sealed
    {
      doomed := sockets;
      sockets := [];
    }
  }

  /** Expiry splits the sockets: none is lost and none is in both parts. */
  lemma ExpirySplits(cs: map<Fd, Connector>, now: int)
    requires Once(cs)
    ensures var expired := cs - Alive(cs, now).Keys;
      Sockets(Alive(cs, now)) + Sockets(expired) == Sockets(cs) && Sockets(Alive(cs, now)) !! Sockets(expired)
  {
    var alive, expired := Alive(cs, now), cs - Alive(cs, now).Keys;
    forall x | x in Sockets(cs) ensures x in Sockets(alive) + Sockets(expired) {
      var fd :| fd in cs && cs[fd].socket == x;
      assert fd in alive || fd in expired;
    }
  }
}
