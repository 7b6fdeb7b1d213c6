/** The pool of connections: every connection is pooled, borrowed or closed, and only one of these. */
module ConnPooling {
  import opened Options

  /** A connection, for the life of its descriptor. */
  type Conn = nat

  // --- Keys --------------------------------------------------------------------------------

  const ARROW: string := "->"

  function PoolKey(peer: string, localIp: string): string { localIp + ARROW + peer }

  function PoolKeySuffix(peer: string): string { ARROW + peer }

  predicate EndsWith(s: string, suffix: string) { |suffix| <= |s| && s[|s| - |suffix|..] == suffix }

  predicate HasArrow(s: string) { exists i :: 0 <= i < |s| - 1 && s[i] == '-' && s[i + 1] == '>' }

  lemma SuffixOfKey(peer: string, other: string, localIp: string)
    ensures EndsWith(PoolKey(other, localIp), PoolKeySuffix(peer)) ==>
      other == peer || HasArrow(peer) || HasArrow(other)
  {
    var key, suffix := PoolKey(other, localIp), PoolKeySuffix(peer);
    if EndsWith(key, suffix) {
      var shift := |key| - |suffix|;
      assert forall i :: 0 <= i < |suffix| ==> key[shift..][i] == key[shift + i];
      assert key[|localIp|] == '-' && key[|localIp| + 1] == '>';
      assert suffix[0] == key[shift] == '-' && suffix[1] == key[shift + 1] == '>';
      if |other| >= |peer| + 2 {
        assert other[|other| - |peer| - 2] == suffix[0] && other[|other| - |peer| - 1] == suffix[1];
      } else if |other| + 2 <= |peer| {
        assert suffix[|peer| - |other|] == key[|localIp|] && suffix[|peer| - |other| + 1] == key[|localIp| + 1];
      } else if |other| == |peer| {
        assert other == key[shift..][2..] == peer;
      }
    }
  }

  /** For peers without an arrow the suffix matches exactly the keys of the peer, under any local address. */
  lemma SuffixSelectsPeer(peer: string, other: string, localIp: string)
    requires !HasArrow(peer) && !HasArrow(other)
    ensures EndsWith(PoolKey(other, localIp), PoolKeySuffix(peer)) <==> other == peer
  {
    SuffixOfKey(peer, other, localIp);
    assert PoolKey(peer, localIp)[|localIp|..] == PoolKeySuffix(peer);
  }

  /** The peer and the local address a connection was returned for. */
  datatype Home = Home(peer: string, localIp: string)

  lemma SameKeySameAddress(a: Home, b: Home)
    requires PoolKey(a.peer, a.localIp) == PoolKey(b.peer, b.localIp) && |a.localIp| <= |b.localIp|
    ensures a == b || HasArrow(b.localIp)
  {
    var key, n := PoolKey(b.peer, b.localIp), |a.localIp|;
    assert key[n] == '-' && key[n + 1] == '>' && key[..n] == a.localIp && key[n + 2..] == a.peer;
    if n + 1 < |b.localIp| {
      assert b.localIp[n] == '-' && b.localIp[n + 1] == '>';
    } else if n == |b.localIp| {
      assert key[..n] == b.localIp && key[n + 2..] == b.peer;
    }
  }

  /** For local addresses without an arrow a key stands for one peer and one local address. */
  lemma KeysDistinct(a: Home, b: Home)
    requires !HasArrow(a.localIp) && !HasArrow(b.localIp)
    ensures PoolKey(a.peer, a.localIp) == PoolKey(b.peer, b.localIp) <==> a == b
  {
    if PoolKey(a.peer, a.localIp) == PoolKey(b.peer, b.localIp) {
      if |a.localIp| <= |b.localIp| {
        SameKeySameAddress(a, b);
      } else {
        SameKeySameAddress(b, a);
      }
    }
  }

  // --- The pool ------------------------------------------------------------------------------

  type Pool = map<string, seq<Conn>>

  /** The idle connections under keys with this suffix. */
  function Idle(pool: Pool, suffix: string): set<Conn> {
    set k, c | k in pool && EndsWith(k, suffix) && c in pool[k] :: c
  }

  function AllIdle(pool: Pool): set<Conn> { set k, c | k in pool && c in pool[k] :: c }

  /** No connection is in the pool twice. */
  ghost predicate Once(pool: Pool) {
    forall k, m, i, j ::
      k in pool && m in pool && 0 <= i < |pool[k]| && 0 <= j < |pool[m]| && pool[k][i] == pool[m][j] ==>
        k == m && i == j
  }

  type Homes = map<Conn, Home>

  /** Every connection is pooled under the key of the peer and the address it was returned for. */
  ghost predicate Filed(pool: Pool, homes: Homes) {
    forall k, c :: k in pool && c in pool[k] ==> c in homes && k == PoolKey(homes[c].peer, homes[c].localIp)
  }

  ghost predicate NoArrows(homes: Homes) { forall c <- homes :: !HasArrow(homes[c].peer) }

  ghost predicate PlainAddresses(homes: Homes) { forall c <- homes :: !HasArrow(homes[c].localIp) }

  /** A connection found under a key was returned for the same peer and address. */
  lemma FoundAtHome(pool: Pool, homes: Homes, home: Home, c: Conn)
    requires Filed(pool, homes) && PlainAddresses(homes) && !HasArrow(home.localIp)
    requires PoolKey(home.peer, home.localIp) in pool && c in pool[PoolKey(home.peer, home.localIp)]
    ensures c in homes && homes[c] == home
  {
    KeysDistinct(homes[c], home);
  }

  /** The idle connections of a peer. */
  function IdleOf(pool: Pool, homes: Homes, peer: string): set<Conn> {
    set c | c in AllIdle(pool) && c in homes && homes[c].peer == peer
  }

  /** The suffix test finds the idle connections of the peer and no others, unless some peer's text has an arrow. */
  lemma IdleIsOfPeer(pool: Pool, homes: Homes, peer: string)
    requires Filed(pool, homes)
    ensures !HasArrow(peer) && NoArrows(homes) ==> Idle(pool, PoolKeySuffix(peer)) == IdleOf(pool, homes, peer)
  {
    if !HasArrow(peer) && NoArrows(homes) {
      forall k, c | k in pool && c in pool[k] ensures EndsWith(k, PoolKeySuffix(peer)) <==> homes[c].peer == peer {
        SuffixSelectsPeer(peer, homes[c].peer, homes[c].localIp);
      }
      forall c | c in IdleOf(pool, homes, peer) ensures c in Idle(pool, PoolKeySuffix(peer)) {
        var k :| k in pool && c in pool[k];
      }
    }
  }

  function Elements(s: seq<Conn>): set<Conn> { set c | c in s }

  lemma {:induction false} ElementsSize(s: seq<Conn>)
    requires forall i, j :: 0 <= i < j < |s| ==> s[i] != s[j]
    ensures |Elements(s)| == |s|
  {
    if s != [] {
      var init := s[..|s| - 1];
      ElementsSize(init);
      assert Elements(s) == Elements(init) + {s[|s| - 1]};
    }
  }

  /** The idle connections under the keys `ks`. */
  function Under(pool: Pool, ks: set<string>): set<Conn> { set k, c | k in ks && k in pool && c in pool[k] :: c }

  lemma UnderMore(pool: Pool, ks: set<string>, k: string)
    requires Once(pool) && k in pool && k !in ks
    ensures Under(pool, ks + {k}) == Under(pool, ks) + Elements(pool[k])
    ensures |Under(pool, ks + {k})| == |Under(pool, ks)| + |pool[k]|
  {
    ElementsSize(pool[k]);
    assert Under(pool, ks) !! Elements(pool[k]) by {
      forall c | c in Under(pool, ks) ensures c !in Elements(pool[k]) {
        var m :| m in ks && m in pool && c in pool[m];
        var i :| 0 <= i < |pool[m]| && pool[m][i] == c;
        assert forall j :: 0 <= j < |pool[k]| ==> pool[k][j] != c;
      }
    }
    assert Under(pool, ks + {k}) == Under(pool, ks) + Elements(pool[k]);
  }

  function Matching(pool: Pool, suffix: string): set<string> { set k | k in pool && EndsWith(k, suffix) }

  lemma IdleIsUnder(pool: Pool, suffix: string)
    ensures Idle(pool, suffix) == Under(pool, Matching(pool, suffix))
  {
  }

  /** The connections under matching keys. */
  method CollectMatching(pool: Pool, suffix: string) returns (taken: seq<Conn>)
    requires Once(pool)
    ensures Elements(taken) == Idle(pool, suffix) && |taken| == |Idle(pool, suffix)|
  {
    taken := [];
    var left := Matching(pool, suffix);
    ghost var done := {};
    IdleIsUnder(pool, suffix);
    while left != {}
      invariant done !! left && done + left == Matching(pool, suffix)
      invariant Elements(taken) == Under(pool, done) && |taken| == |Under(pool, done)|
      decreases |left|
    {
      var k :| k in left;
      CollectMore(pool, done, k, taken);
      taken := taken + pool[k];
      left := left - {k};
      done := done + {k};
    }
  }

  lemma CollectMore(pool: Pool, done: set<string>, k: string, taken: seq<Conn>)
    requires Once(pool) && k in pool && k !in done
    requires Elements(taken) == Under(pool, done) && |taken| == |Under(pool, done)|
    ensures Elements(taken + pool[k]) == Under(pool, done + {k})
    ensures |taken + pool[k]| == |Under(pool, done + {k})|
  {
    UnderMore(pool, done, k);
    ElementsMore(taken, pool[k]);
  }

  lemma ElementsMore(a: seq<Conn>, b: seq<Conn>)
    ensures Elements(a + b) == Elements(a) + Elements(b)
  {
  }

  class ConnPool {
    var pool: Pool
    var stop: bool
    ghost var borrowed: set<Conn>
    ghost var closed: set<Conn>
    /** What connections were last returned for. */
    ghost var homes: Homes

    /** Pooled, borrowed and closed connections are all different. */
    ghost predicate Valid()
      reads this
    {
      && Once(pool) && AllIdle(pool) !! borrowed && AllIdle(pool) !! closed && borrowed !! closed
      && Filed(pool, homes) && (stop ==> pool == map[])
    }

    ghost function Known(): set<Conn>
      reads this
    {
      AllIdle(pool) + borrowed + closed
    }

    constructor ()
      ensures Valid() && Known() == {} && !stop
    {
      pool, stop, borrowed, closed, homes := map[], false, {}, {}, map[];
    }

    /** No connection is closed twice. */
    method CloseSocket(c: Conn)
      requires c !in closed
      modifies this`closed
      ensures closed == old(closed) + {c}
    {
      closed := closed + {c};
    }

    method CloseSockets(cs: set<Conn>)
      requires cs !! closed
      modifies this`closed
      ensures closed == old(closed) + cs
    {
      var left := cs;
      while left != {}
        invariant left <= cs && left !! closed && closed + left == old(closed) + cs
        decreases |left|
      {
        var c :| c in left;
        CloseSocket(c);
        left := left - {c};
      }
    }

    /** Pops the last connection of a list. */
    method Pop(key: string) returns (c: Conn)
      requires Once(pool) && key in pool && pool[key] != []
      modifies this`pool
      ensures var n := |old(pool)[key]| - 1;
        pool == old(pool)[key := old(pool)[key][..n]] && c == old(pool)[key][n]
      ensures Once(pool) && AllIdle(pool) == AllIdle(old(pool)) - {c} && c in AllIdle(old(pool))
    {
      var n := |pool[key]| - 1;
      c := pool[key][n];
      ghost var before := pool;
      pool := pool[key := pool[key][..n]];
      PopKeeps(before, key);
      assert c in before[key];
    }

    /** The last idle connection of the key that has no unread data; those that have some are closed on the way. */
    method TakeIdle(key: string, readable: set<Conn>) returns (r: Option<Conn>)
      requires Valid() && key in pool
      modifies this`pool, this`closed
      ensures Once(pool) && key in pool && pool[key] <= old(pool)[key] && pool == old(pool)[key := pool[key]]
      ensures old(closed) <= closed && closed - old(closed) <= readable
      ensures AllIdle(old(pool)) == AllIdle(pool) + (closed - old(closed)) + if r.Some? then {r.value} else {}
      ensures r.Some? ==> r.value !in AllIdle(pool) && r.value !in closed
      ensures AllIdle(pool) !! closed
      ensures Takes(old(pool)[key], |pool[key]|, readable, r)
    {
      ghost var before := pool[key];
      while pool[key] != []
        invariant Once(pool) && key in pool && pool[key] <= before && pool == old(pool)[key := pool[key]]
        invariant old(closed) <= closed && closed - old(closed) <= readable && AllIdle(pool) !! closed
        invariant AllIdle(old(pool)) == AllIdle(pool) + (closed - old(closed))
        invariant forall i :: |pool[key]| <= i < |before| ==> before[i] in readable
        decreases |pool[key]|
      {
        var c := Pop(key);
        if c !in readable {
          return Some(c);
        }
        CloseSocket(c);
      }
      return None;
    }

    /** An idle connection, or a new one from `dial`, which is the result of connecting. */
    method Borrow(peer: string, localIp: string, readable: set<Conn>, dial: Option<Conn>) returns (r: Option<Conn>)
      requires Valid() && (dial.Some? ==> dial.value !in Known())
      modifies this
      ensures Valid() && stop == old(stop) && homes == old(homes)
      ensures stop ==> r.None? && Known() == old(Known())
      ensures r.Some? ==> r.value !in old(borrowed) && r.value !in old(closed) && borrowed == old(borrowed) + {r.value}
      ensures r.None? ==> borrowed == old(borrowed)
      ensures old(closed) <= closed && closed - old(closed) <= readable && AllIdle(pool) <= AllIdle(old(pool))
      ensures Known() == old(Known()) + if r.Some? then {r.value} else {}
      ensures var key := PoolKey(peer, localIp);
        if stop || key !in old(pool) then pool == old(pool) && (!stop ==> r == dial)
        else
          && key in pool && pool[key] <= old(pool)[key] && pool == old(pool)[key := pool[key]]
          && (Takes(old(pool)[key], |pool[key]|, readable, r)
              || (r == dial && Takes(old(pool)[key], |pool[key]|, readable, None)))
      ensures r.Some? && r.value in AllIdle(old(pool)) && PlainAddresses(homes) && !HasArrow(localIp) ==>
        r.value in homes && homes[r.value] == Home(peer, localIp)
    {
      if stop {
        return None;
      }
      var key := PoolKey(peer, localIp);
      if key in pool {
        r := TakeIdle(key, readable);
        if r.Some? && PlainAddresses(homes) && !HasArrow(localIp) {
          FoundAtHome(old(pool), homes, Home(peer, localIp), r.value);
        }
        PrefixFiled(old(pool), pool, key, homes);
        if r.Some? {
          borrowed := borrowed + {r.value};
          return;
        }
      }
      if dial.Some? {
        borrowed := borrowed + {dial.value};
      }
      return dial;
    }

    /** For a borrowed connection: each is returned at most once. */
    method Return(ok: bool, c: Conn, peer: string, localIp: string)
      requires Valid() && c in borrowed
      modifies this
      ensures Valid() && stop == old(stop) && borrowed == old(borrowed) - {c} && Known() == old(Known())
      ensures if ok && !stop then closed == old(closed) && homes == old(homes)[c := Home(peer, localIp)]
        else closed == old(closed) + {c} && pool == old(pool) && homes == old(homes)
      ensures ok && !stop ==> var key := PoolKey(peer, localIp);
        key in pool && pool == old(pool)[key := (if key in old(pool) then old(pool)[key] else []) + [c]]
    {
      borrowed := borrowed - {c};
      if !ok || stop {
        CloseSocket(c);
        return;
      }
      var key := PoolKey(peer, localIp);
      PushKeeps(pool, key, c);
      PushFiled(pool, homes, peer, localIp, c);
      pool := pool[key := (if key in pool then pool[key] else []) + [c]];
      homes := homes[c := Home(peer, localIp)];
    }

    method DropMatching(suffix: string) returns (n: nat)
      requires Once(pool) && Idle(pool, suffix) !! closed
      modifies this`pool, this`closed
      ensures closed == old(closed) + Idle(old(pool), suffix) && n == |Idle(old(pool), suffix)|
      ensures pool == old(pool) - Matching(old(pool), suffix)
    {
      var toClose := CollectMatching(pool, suffix);
      pool := pool - Matching(pool, suffix);
      CloseSockets(Elements(toClose));
      return |toClose|;
    }

    /** Closes the idle connections of a peer and no others, and counts them. */
    method CloseIdle(peer: string) returns (n: nat)
      requires Valid()
      modifies this
      ensures Valid() && Known() == old(Known())
      ensures stop == old(stop) && borrowed == old(borrowed) && homes == old(homes)
      ensures closed == old(closed) + Idle(old(pool), PoolKeySuffix(peer))
      ensures n == |Idle(old(pool), PoolKeySuffix(peer))|
      ensures pool == old(pool) - Matching(old(pool), PoolKeySuffix(peer))
      ensures !HasArrow(peer) && NoArrows(homes) ==>
        closed == old(closed) + IdleOf(old(pool), homes, peer) && n == |IdleOf(old(pool), homes, peer)|
    {
      var suffix := PoolKeySuffix(peer);
      IdleIsOfPeer(pool, homes, peer);
      DropKeeps(pool, suffix);
      DropFiled(pool, homes, suffix);
      MoveToClosed(AllIdle(pool), Idle(pool, suffix), borrowed, closed);
      n := DropMatching(suffix);
    }

    method IdleCount(peer: string) returns (count: nat)
      requires Valid()
      ensures count == |Idle(pool, PoolKeySuffix(peer))|
      ensures !HasArrow(peer) && NoArrows(homes) ==> count == |IdleOf(pool, homes, peer)|
    {
      var suffix := PoolKeySuffix(peer);
      count := 0;
      var left := Matching(pool, suffix);
      ghost var done := {};
      while left != {}
        invariant done !! left && done + left == Matching(pool, suffix) && count == |Under(pool, done)|
        decreases |left|
      {
        var k :| k in left;
        UnderMore(pool, done, k);
        count := count + |pool[k]|;
        left := left - {k};
        done := done + {k};
      }
      IdleIsUnder(pool, suffix);
      IdleIsOfPeer(pool, homes, peer);
    }

    method Close()
      requires Valid()
      modifies this
      ensures Valid() && stop && borrowed == old(borrowed) && pool == map[] && homes == old(homes)
      ensures closed == old(closed) + AllIdle(old(pool))
    {
      stop := true;
      var toClose := AllIdle(pool);
      pool := map[];
      CloseSockets(toClose);
    }
  }

  /** What is taken from a list of which `left` remain: the last one without unread data, if there is one. */
  ghost predicate Takes(idle: seq<Conn>, left: nat, readable: set<Conn>, r: Option<Conn>) {
    match r
    case None => left == 0 && forall c <- idle :: c in readable
    case Some(c) =>
      && left < |idle| && c == idle[left] && c !in readable
      && forall i :: left < i < |idle| ==> idle[i] in readable
  }

  lemma PrefixFiled(pool: Pool, pool': Pool, key: string, homes: Homes)
    requires Filed(pool, homes) && key in pool && key in pool'
    requires pool'[key] <= pool[key] && pool' == pool[key := pool'[key]]
    ensures Filed(pool', homes)
  {
    forall k, c | k in pool' && c in pool'[k] ensures c in pool[k] {
    }
  }

  lemma PushFiled(pool: Pool, homes: Homes, peer: string, localIp: string, c: Conn)
    requires Filed(pool, homes) && c !in AllIdle(pool)
    ensures var key := PoolKey(peer, localIp);
      Filed(pool[key := (if key in pool then pool[key] else []) + [c]], homes[c := Home(peer, localIp)])
  {
    var key := PoolKey(peer, localIp);
    var pool' := pool[key := (if key in pool then pool[key] else []) + [c]];
    forall k, d | k in pool' && d in pool'[k]
      ensures var homes' := homes[c := Home(peer, localIp)];
        d in homes' && k == PoolKey(homes'[d].peer, homes'[d].localIp)
    {
      if d != c {
        assert k in pool && d in pool[k];
      } else {
        assert k == key by {
          assert k != key ==> c in AllIdle(pool);
        }
      }
    }
  }

  lemma PopKeeps(pool: Pool, key: string)
    requires Once(pool) && key in pool && pool[key] != []
    ensures var n := |pool[key]| - 1;
      var pool' := pool[key := pool[key][..n]];
      Once(pool') && AllIdle(pool') == AllIdle(pool) - {pool[key][n]}
  {
    var n := |pool[key]| - 1;
    var pool' := pool[key := pool[key][..n]];
    forall c | c in AllIdle(pool) && c != pool[key][n] ensures c in AllIdle(pool') {
      var k :| k in pool && c in pool[k];
      assert c in pool'[k];
    }
    forall c | c in AllIdle(pool') ensures c in AllIdle(pool) && c != pool[key][n] {
      var k :| k in pool' && c in pool'[k];
      var i :| 0 <= i < |pool'[k]| && pool'[k][i] == c;
      assert pool[k][i] == c && (k != key || i != n);
      assert c in pool[k];
    }
  }

  lemma PushKeeps(pool: Pool, key: string, c: Conn)
    requires Once(pool) && c !in AllIdle(pool)
    ensures var pool' := pool[key := (if key in pool then pool[key] else []) + [c]];
      Once(pool') && AllIdle(pool') == AllIdle(pool) + {c}
  {
    var fds := if key in pool then pool[key] else [];
    var pool' := pool[key := fds + [c]];
    assert c in pool'[key];
    forall k, i | k in pool && 0 <= i < |pool[k]| ensures pool[k][i] != c {
      assert pool[k][i] in pool[k];
    }
    forall d | d in AllIdle(pool) ensures d in AllIdle(pool') {
      var k :| k in pool && d in pool[k];
      assert d in pool'[k];
    }
  }

  lemma MoveToClosed(idle: set<Conn>, gone: set<Conn>, borrowed: set<Conn>, closed: set<Conn>)
    requires gone <= idle && idle !! borrowed && idle !! closed && borrowed !! closed
    ensures (idle - gone) + borrowed + (closed + gone) == idle + borrowed + closed
    ensures idle - gone !! borrowed && idle - gone !! closed + gone && borrowed !! closed + gone
  {
  }

  lemma DropFiled(pool: Pool, homes: Homes, suffix: string)
    requires Filed(pool, homes)
    ensures Filed(pool - Matching(pool, suffix), homes)
  {
  }

  lemma DropKeeps(pool: Pool, suffix: string)
    requires Once(pool)
    ensures var pool' := pool - Matching(pool, suffix);
      Once(pool') && AllIdle(pool') == AllIdle(pool) - Idle(pool, suffix) && Idle(pool, suffix) <= AllIdle(pool)
  {
    var pool' := pool - Matching(pool, suffix);
    forall c | c in AllIdle(pool) && c !in Idle(pool, suffix) ensures c in AllIdle(pool') {
      var k :| k in pool && c in pool[k];
      assert k in pool' && c in pool'[k];
    }
    forall c | c in AllIdle(pool') ensures c !in Idle(pool, suffix) {
      var k :| k in pool' && c in pool'[k];
      var i :| 0 <= i < |pool[k]| && pool[k][i] == c;
      forall m | m in pool && EndsWith(m, suffix) ensures c !in pool[m] {
        assert forall j :: 0 <= j < |pool[m]| ==> pool[m][j] != c;
      }
    }
  }
}
