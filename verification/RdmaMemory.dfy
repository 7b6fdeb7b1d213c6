/** The index of registered RDMA regions and the device handles behind it. */
module RdmaRegions {
  import opened Options

  const WORD: nat := 0x1_0000_0000_0000_0000

  /** A memory region handle of a device. */
  type Mr = nat

  datatype Region = Region(length: nat, mrs: map<string, Mr>)

  /** Regions by base address. */
  type Index = map<nat, Region>

  /** The end of a range in 64-bit arithmetic. */
  function End(start: nat, length: nat): nat { (start + length) % WORD }

  /** The region with the greatest base not above `start`: the one before upper_bound. */
  ghost predicate IsFloor(regions: Index, start: nat, b: nat) {
    b in regions && b <= start && forall c <- regions :: c <= start ==> c <= b
  }

  /** What findRegion returns for a non-null address and a positive length. */
  ghost predicate Finds(regions: Index, start: nat, length: nat, b: nat) {
    IsFloor(regions, start, b) && End(start, length) <= End(b, regions[b].length)
  }

  /** The region really contains the range. */
  predicate Contains(regions: Index, b: nat, start: nat, length: nat) {
    b in regions && b <= start && start + length <= b + regions[b].length
  }

  /** No region reaches the end of the address space. */
  predicate NoWrap(regions: Index) { forall b <- regions :: b + regions[b].length < WORD }

  /** What is found contains the range, unless the range itself wraps around. */
  lemma FoundContains(regions: Index, start: nat, length: nat, b: nat)
    requires NoWrap(regions) && Finds(regions, start, length, b) && start < WORD && length < WORD
    ensures Contains(regions, b, start, length) <==> start + length < WORD
  {
  }

  /** No region ends inside one that starts before it. */
  ghost predicate EndsInOrder(regions: Index) {
    forall a, b :: a in regions && b in regions && a < b < a + regions[a].length ==>
      a + regions[a].length <= b + regions[b].length
  }

  /** Every range inside some region is found. */
  ghost predicate Complete(regions: Index) {
    forall start: nat, length: nat, a :: length > 0 && Contains(regions, a, start, length) ==>
      exists b :: Finds(regions, start, length, b)
  }

  lemma {:induction false} FloorExists(regions: Index, start: nat, a: nat) returns (b: nat)
    requires a in regions && a <= start
    ensures IsFloor(regions, start, b)
    decreases start - a
  {
    if c :| c in regions && a < c <= start {
      b := FloorExists(regions, start, c);
    } else {
      b := a;
    }
  }

  lemma InOrderComplete(regions: Index)
    requires NoWrap(regions) && EndsInOrder(regions)
    ensures Complete(regions)
  {
    forall start: nat, length: nat, a: nat | length > 0 && Contains(regions, a, start, length)
      ensures exists b :: Finds(regions, start, length, b)
    {
      var b := FloorExists(regions, start, a);
      assert a <= b <= start && start + length <= a + regions[a].length <= b + regions[b].length < WORD;
      assert End(start, length) == start + length && End(b, regions[b].length) == b + regions[b].length;
      assert Finds(regions, start, length, b);
    }
  }

  lemma CompleteInOrder(regions: Index)
    requires NoWrap(regions) && Complete(regions)
    ensures EndsInOrder(regions)
  {
    forall a, b | a in regions && b in regions && a < b < a + regions[a].length
      ensures a + regions[a].length <= b + regions[b].length
    {
      var length := a + regions[a].length - b;
      assert Contains(regions, a, b, length);
      var c :| Finds(regions, b, length, c);
      assert c == b;
    }
  }

  /** The lookup agrees with an exhaustive search for all ranges exactly when regions end in the order they start. */
  lemma LookupComplete(regions: Index)
    requires NoWrap(regions)
    ensures Complete(regions) <==> EndsInOrder(regions)
  {
    if EndsInOrder(regions) {
      InOrderComplete(regions);
    }
    if Complete(regions) {
      CompleteInOrder(regions);
    }
  }

  /** Pairwise disjoint regions do. */
  lemma DisjointInOrder(regions: Index)
    requires forall a, b :: a in regions && b in regions && a < b ==> a + regions[a].length <= b
    ensures EndsInOrder(regions)
  {
  }

  // --- Registration --------------------------------------------------------------------------

  /** A device, and whether registering on it will succeed this time. */
  datatype Device = Device(name: string, ok: bool)

  ghost predicate DistinctNames(devices: seq<Device>) {
    forall i, j :: 0 <= i < j < |devices| ==> devices[i].name != devices[j].name
  }

  function Handles(regions: Index): set<Mr> {
    set b, d | b in regions && d in regions[b].mrs :: regions[b].mrs[d]
  }

  ghost predicate Once(regions: Index) {
    forall a, b, d, e :: a in regions && b in regions && d in regions[a].mrs && e in regions[b].mrs ==>
      regions[a].mrs[d] == regions[b].mrs[e] ==> a == b && d == e
  }

  /** The handles of the region at `a`, and those of all others. */
  lemma HandlesWithout(regions: Index, a: nat)
    requires Once(regions) && a in regions
    ensures Handles(regions - {a}) == Handles(regions) - regions[a].mrs.Values
    ensures Once(regions - {a})
  {
    var others := regions - {a};
    forall m | m in Handles(regions) && m !in regions[a].mrs.Values ensures m in Handles(others) {
      var b, d :| b in regions && d in regions[b].mrs && regions[b].mrs[d] == m;
      assert b != a && b in others && d in others[b].mrs;
    }
    forall m | m in Handles(others) ensures m in Handles(regions) && m !in regions[a].mrs.Values {
      var b, d :| b in others && d in others[b].mrs && others[b].mrs[d] == m;
      assert b in regions && d in regions[b].mrs;
    }
  }

  lemma HandlesWith(regions: Index, a: nat, r: Region)
    requires a !in regions
    ensures Handles(regions[a := r]) == Handles(regions) + r.mrs.Values
  {
    var regions' := regions[a := r];
    forall m | m in Handles(regions) + r.mrs.Values ensures m in Handles(regions') {
      if m in Handles(regions) {
        var b, d :| b in regions && d in regions[b].mrs && regions[b].mrs[d] == m;
        assert b in regions' && d in regions'[b].mrs;
      } else {
        var d :| d in r.mrs && r.mrs[d] == m;
        assert a in regions' && d in regions'[a].mrs;
      }
    }
  }

  ghost predicate Injective(mrs: map<string, Mr>) {
    forall d, e :: d in mrs && e in mrs && mrs[d] == mrs[e] ==> d == e
  }

  lemma OnceWith(regions: Index, a: nat, r: Region)
    requires Once(regions) && a !in regions && Injective(r.mrs) && r.mrs.Values !! Handles(regions)
    ensures Once(regions[a := r])
  {
    forall b, d | b in regions && d in regions[b].mrs ensures regions[b].mrs[d] !in r.mrs.Values {
      assert regions[b].mrs[d] in Handles(regions);
    }
  }

  class RdmaMemory {
    var regions: Index
    var live: set<Mr>   // the handles the devices hold
    var next: Mr

    /** Every handle in the index is held by a device, and is there once. */
    ghost predicate Valid()
      reads this
    {
      Handles(regions) <= live && Once(regions) && forall m <- live :: m < next
    }

    /** No handle is held that the index has forgotten. */
    ghost predicate NoneLost()
      reads this
    {
      live == Handles(regions)
    }

    constructor ()
      ensures Valid() && NoneLost() && regions == map[]
    {
      regions, live, next := map[], {}, 0;
    }

    /** Finds the region before the first one with a higher base, and checks it. */
    method FindRegion(start: nat, length: nat) returns (r: Option<nat>)
      ensures r.Some? ==> start != 0 && length != 0 && Finds(regions, start, length, r.value)
      ensures r.None? ==> start == 0 || length == 0 || forall b :: !Finds(regions, start, length, b)
    {
      if start == 0 || length == 0 || regions == map[] {
        return None;
      }
      var below: Option<nat> := None;
      var left := regions.Keys;
      while left != {}
        invariant left <= regions.Keys
        invariant below.Some? ==> below.value in regions && below.value <= start
        invariant forall c <- regions :: c in left || c > start || (below.Some? && c <= below.value)
        decreases |left|
      {
        var b :| b in left;
        if b <= start && (below.None? || below.value < b) {
          below := Some(b);
        }
        left := left - {b};
      }
      if below.None? {
        return None;
      }
      if End(start, length) <= End(below.value, regions[below.value].length) {
        return below;
      }
      return None;
    }

    /**
      * Registers on every device in turn, until one fails; then those in `mrs` are undone.
      * A handle is lost, held but not in `mrs`, exactly if two devices tried have one name.
      */
    method RegisterOn(devices: seq<Device>) returns (ok: bool, mrs: map<string, Mr>)
      requires forall m <- live :: m < next
      modifies this`live, this`next
      ensures old(live) <= live && forall m <- live :: m < next
      ensures ok <==> forall d <- devices :: d.ok
      ensures ok ==> mrs.Values <= live && mrs.Values !! old(live)
      ensures ok ==> Injective(mrs) && mrs.Keys == (set d <- devices :: d.name)
      ensures DistinctNames(devices[..Tried(devices)]) <==> live == old(live) + if ok then mrs.Values else {}
    {
      ok, mrs := true, map[];
      ghost var before, lost: set<Mr> := live, {};
      var i := 0;
      while i < |devices|
        invariant 0 <= i <= |devices| && before == old(live)
        invariant Holds(live, before, mrs, lost, next) && Named(devices, i, mrs, lost)
      {
        if !devices[i].ok {
          FailedAt(devices, i, mrs, lost);
          UndoneIs(live, before, mrs, lost, next);
          live := live - mrs.Values;
          return false, mrs;
        }
        ghost var mrs0, lost0 := mrs, lost;
        mrs, lost := RegisterOne(devices[i].name, mrs, before, lost);
        NamedMore(devices, i, mrs0, lost0, mrs, lost);
        i := i + 1;
      }
      AllNamed(devices, mrs, lost);
      UndoneIs(live, before, mrs, lost, next);
    }

    method RegisterOne(name: string, mrs: map<string, Mr>, ghost before: set<Mr>, ghost lost: set<Mr>)
      returns (mrs': map<string, Mr>, ghost lost': set<Mr>)
      requires Holds(live, before, mrs, lost, next)
      modifies this`live, this`next
      ensures Holds(live, before, mrs', lost', next) && mrs'.Keys == mrs.Keys + {name}
      ensures lost' == {} <==> lost == {} && name !in mrs
    {
      RegisterHolds(live, before, mrs, lost, next, name);
      mrs', lost' := mrs[name := next], lost + if name in mrs then {mrs[name]} else {};
      live := live + {next};
      next := next + 1;
    }

    /**
      * A registration adds a handle per device. It loses those of a region it replaces, so
      * the base must be a fresh one, and all but one of those of devices with one name. One
      * that fails leaves nothing behind but the latter.
      */
    method RegisterMemory(addr: nat, length: nat, devices: seq<Device>) returns (ok: bool)
      requires Valid()
      modifies this
      ensures Valid() && old(live) <= live
      ensures ok <==> Accepts(old(regions), addr, length, devices) && forall d <- devices :: d.ok
      ensures !ok ==> regions == old(regions)
      ensures !ok ==> (live == old(live) <==>
        (Accepts(old(regions), addr, length, devices) ==> DistinctNames(devices[..Tried(devices)])))
      ensures ok ==> addr in regions && regions == old(regions)[addr := regions[addr]] && regions[addr].length == length
      ensures ok ==> regions[addr].mrs.Keys == (set d <- devices :: d.name)
      ensures ok ==> regions[addr].mrs.Values <= live && regions[addr].mrs.Values !! old(live)
      ensures ok ==> (live == old(live) + regions[addr].mrs.Values <==> DistinctNames(devices))
      ensures ok && old(NoneLost()) ==>
        (NoneLost() <==> DistinctNames(devices) && (addr !in old(regions) || old(regions)[addr].mrs == map[]))
    {
      if addr == 0 || length == 0 || devices == [] {
        return false;
      }
      var found := FindRegion(addr, length);
      if found.Some? {
        return false;
      }
      var mrs;
      ok, mrs := RegisterOn(devices);
      if !ok {
        return;
      }
      AllTried(devices);
      ReplaceHandles(regions, addr, Region(length, mrs), old(live));
      regions := regions[addr := Region(length, mrs)];
    }

    method UnregisterMemory(addr: nat) returns (ok: bool)
      requires Valid()
      modifies this
      ensures Valid() && ok == (addr in old(regions))
      ensures regions == old(regions) - {addr}
      ensures live == old(live) - (if ok then old(regions)[addr].mrs.Values else {})
      ensures old(NoneLost()) ==> NoneLost()
    {
      if addr !in regions {
        assert regions - {addr} == regions;
        return false;
      }
      HandlesWithout(regions, addr);
      live := live - regions[addr].mrs.Values;
      regions := regions - {addr};
      return true;
    }
  }

  /** Registration is tried: the arguments are valid and the range is not found. */
  ghost predicate Accepts(regions: Index, addr: nat, length: nat, devices: seq<Device>) {
    addr != 0 && length != 0 && devices != [] && forall b :: !Finds(regions, addr, length, b)
  }

  /** How many devices are registered on before the first failure. */
  function Tried(devices: seq<Device>): (n: nat)
    ensures n <= |devices| && (forall i :: 0 <= i < n ==> devices[i].ok) && (n < |devices| ==> !devices[n].ok)
  {
    if devices == [] || !devices[0].ok then 0 else 1 + Tried(devices[1..])
  }

  lemma TriedIs(devices: seq<Device>, i: nat)
    requires i <= |devices| && (forall d <- devices[..i] :: d.ok) && (i < |devices| ==> !devices[i].ok)
    ensures Tried(devices) == i
  {
    assert forall j :: 0 <= j < i ==> devices[..i][j] == devices[j];
  }

  lemma AllTried(devices: seq<Device>)
    requires forall d <- devices :: d.ok
    ensures devices[..Tried(devices)] == devices
  {
  }

  /** The handles held: those from `before`, those recorded and those lost. */
  ghost predicate Holds(live: set<Mr>, before: set<Mr>, mrs: map<string, Mr>, lost: set<Mr>, next: Mr) {
    && live == before + mrs.Values + lost && mrs.Values !! before && lost !! before && lost !! mrs.Values
    && Injective(mrs) && forall m <- live :: m < next
  }

  /** `mrs` has a handle for every name among the first `i` devices, and one is lost iff two have one name. */
  ghost predicate Named(devices: seq<Device>, i: nat, mrs: map<string, Mr>, lost: set<Mr>) {
    && i <= |devices| && (forall d <- devices[..i] :: d.ok)
    && mrs.Keys == (set d <- devices[..i] :: d.name) && (lost == {} <==> DistinctNames(devices[..i]))
  }

  lemma NamedMore(devices: seq<Device>, i: nat, mrs: map<string, Mr>, lost: set<Mr>, mrs': map<string, Mr>,
                  lost': set<Mr>)
    requires Named(devices, i, mrs, lost) && i < |devices| && devices[i].ok
    requires mrs'.Keys == mrs.Keys + {devices[i].name} && (lost' == {} <==> lost == {} && devices[i].name !in mrs)
    ensures Named(devices, i + 1, mrs', lost')
  {
    NameIsNew(devices, i);
    assert devices[..i + 1] == devices[..i] + [devices[i]];
  }

  lemma FailedAt(devices: seq<Device>, i: nat, mrs: map<string, Mr>, lost: set<Mr>)
    requires Named(devices, i, mrs, lost) && i < |devices| && !devices[i].ok
    ensures devices[i] in devices && (lost == {} <==> DistinctNames(devices[..Tried(devices)]))
  {
    TriedIs(devices, i);
  }

  lemma AllNamed(devices: seq<Device>, mrs: map<string, Mr>, lost: set<Mr>)
    requires Named(devices, |devices|, mrs, lost)
    ensures (forall d <- devices :: d.ok) && mrs.Keys == (set d <- devices :: d.name)
    ensures lost == {} <==> DistinctNames(devices[..Tried(devices)])
  {
    assert devices[..|devices|] == devices;
    TriedIs(devices, |devices|);
  }

  lemma UndoneIs(live: set<Mr>, before: set<Mr>, mrs: map<string, Mr>, lost: set<Mr>, next: Mr)
    requires Holds(live, before, mrs, lost, next)
    ensures live - mrs.Values == before + lost && mrs.Values <= live
    ensures live - mrs.Values == before <==> lost == {}
    ensures live == before + mrs.Values <==> lost == {}
  {
  }

  /** One more handle, under `name`; the one it replaces is lost. */
  lemma RegisterHolds(live: set<Mr>, before: set<Mr>, mrs: map<string, Mr>, lost: set<Mr>, next: Mr, name: string)
    requires Holds(live, before, mrs, lost, next)
    ensures Holds(live + {next}, before, mrs[name := next], lost + if name in mrs then {mrs[name]} else {}, next + 1)
  {
    var mrs' := mrs[name := next];
    forall m | m in mrs.Values && (name in mrs ==> m != mrs[name]) ensures m in mrs'.Values {
      var d :| d in mrs && mrs[d] == m;
      assert d in mrs' && mrs'[d] == m;
    }
    assert mrs'[name] in mrs'.Values;
  }

  /** The index after a region has been set: the handles of one it replaces are gone from it. */
  lemma ReplaceHandles(regions: Index, addr: nat, r: Region, live: set<Mr>)
    requires Once(regions) && Handles(regions) <= live && Injective(r.mrs) && r.mrs.Values !! live
    ensures Once(regions[addr := r])
    ensures Handles(regions[addr := r])
      == Handles(regions) - (if addr in regions then regions[addr].mrs.Values else {}) + r.mrs.Values
    ensures addr in regions ==> regions[addr].mrs.Values <= Handles(regions)
    ensures addr in regions && regions[addr].mrs != map[] ==> regions[addr].mrs.Values != {}
  {
    var others := regions - {addr};
    if addr in regions {
      HandlesWithout(regions, addr);
      NonEmptyValues(regions[addr].mrs);
      HandlesOf(regions, addr);
    } else {
      assert others == regions;
    }
    HandlesWith(others, addr, r);
    OnceWith(others, addr, r);
    assert regions[addr := r] == others[addr := r];
  }

  lemma HandlesOf(regions: Index, a: nat)
    requires a in regions
    ensures regions[a].mrs.Values <= Handles(regions)
  {
    forall m | m in regions[a].mrs.Values ensures m in Handles(regions) {
      var d :| d in regions[a].mrs && regions[a].mrs[d] == m;
    }
  }

  lemma NameIsNew(devices: seq<Device>, i: nat)
    requires i < |devices|
    ensures (set d <- devices[..i + 1] :: d.name) == (set d <- devices[..i] :: d.name) + {devices[i].name}
    ensures DistinctNames(devices[..i + 1]) <==>
      DistinctNames(devices[..i]) && devices[i].name !in (set d <- devices[..i] :: d.name)
  {
    var init, more := devices[..i], devices[..i + 1];
    assert more == init + [devices[i]];
    if DistinctNames(more) {
      forall j, k | 0 <= j < k < i ensures init[j].name != init[k].name {
        assert more[j] == init[j] && more[k] == init[k];
      }
      forall j | 0 <= j < i ensures init[j].name != devices[i].name {
        assert more[j] == init[j] && more[i] == devices[i];
      }
    }
    if devices[i].name in (set d <- init :: d.name) {
      var j :| 0 <= j < i && init[j].name == devices[i].name;
      assert more[j].name == more[i].name;
    }
  }

  lemma NonEmptyValues(mrs: map<string, Mr>)
    ensures mrs != map[] ==> mrs.Values != {}
  {
    if mrs != map[] {
      var d :| d in mrs;
      assert mrs[d] in mrs.Values;
    }
  }

  // --- Inputs that fail ------------------------------------------------------------------------

  /** A range that wraps around is found in a region that does not contain it. */
  method FindsWrapped(name: string) returns (regions: Index, r: Option<nat>)
    ensures r == Some(100) && NoWrap(regions) && !Contains(regions, 100, 100, WORD - 50)
  {
    var memory := new RdmaMemory();
    var _ := memory.RegisterMemory(100, 10, [Device(name, true)]);
    assert Finds(memory.regions, 100, WORD - 50, 100);
    r := memory.FindRegion(100, WORD - 50);
    regions := memory.regions;
  }

  /** A range inside a region is missed when a shorter one starts inside it. */
  method MissesEnclosed(name: string) returns (regions: Index, r: Option<nat>)
    ensures r == None && NoWrap(regions) && Contains(regions, 50, 100, 50) && !Complete(regions)
  {
    var memory := new RdmaMemory();
    var _ := memory.RegisterMemory(100, 10, [Device(name, true)]);
    var _ := memory.RegisterMemory(50, 200, [Device(name, true)]);
    assert memory.regions.Keys == {50, 100} && Contains(memory.regions, 50, 100, 50);
    assert forall b :: !Finds(memory.regions, 100, 50, b) by {
      assert forall b :: IsFloor(memory.regions, 100, b) ==> b == 100;
    }
    r := memory.FindRegion(100, 50);
    regions := memory.regions;
  }

  /** A longer region at the same base replaces the first, whose handle stays with the device for good. */
  method LosesReplaced(name: string) returns (regions: Index, live: set<Mr>, lost: Mr)
    ensures regions.Keys == {100} && regions[100].length == 20 && lost in live && lost !in Handles(regions)
  {
    var memory := new RdmaMemory();
    var _ := memory.RegisterMemory(100, 10, [Device(name, true)]);
    lost := memory.regions[100].mrs[name];
    ghost var first := memory.regions;
    assert lost in first[100].mrs.Values;
    var _ := memory.RegisterMemory(100, 20, [Device(name, true)]);
    regions, live := memory.regions, memory.live;
  }

  /** Of two devices with one name, the handle of the first is lost. */
  method LosesNamesake(name: string) returns (regions: Index, live: set<Mr>)
    ensures regions.Keys == {100} && Handles(regions) < live
  {
    var memory := new RdmaMemory();
    var devices := [Device(name, true), Device(name, true)];
    assert devices[0].name == devices[1].name;
    var _ := memory.RegisterMemory(100, 10, devices);
    regions, live := memory.regions, memory.live;
  }
}
