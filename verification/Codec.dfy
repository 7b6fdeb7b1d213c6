/** The wire form of headers and request lists: fixed-size little-endian structs. */
module Codec {
  import opened Options

  type Octet = x: nat | x < 256
  type Bytes = seq<Octet>

  type u8 = x: nat | x < 0x100
  type u16 = x: nat | x < 0x1_0000
  type u32 = x: nat | x < 0x1_0000_0000
  type u64 = x: nat | x < 0x1_0000_0000_0000_0000
  type i8 = x: int | -128 <= x < 128

  // --- Little-endian numbers ----------------------------------------------------------

  function Le(n: nat, width: nat): (s: Bytes)
    ensures |s| == width
  {
    if width == 0 then [] else [n % 256] + Le(n / 256, width - 1)
  }

  function Num(s: Bytes): nat { if s == [] then 0 else s[0] + 256 * Num(s[1..]) }

  function Bound(width: nat): nat { if width == 0 then 1 else 256 * Bound(width - 1) }

  lemma {:induction false} NumLe(n: nat, width: nat)
    requires n < Bound(width)
    ensures Num(Le(n, width)) == n
  {
    if width > 0 {
      NumLe(n / 256, width - 1);
      assert Le(n, width)[1..] == Le(n / 256, width - 1);
    }
  }

  lemma {:induction false} NumBelow(s: Bytes)
    ensures Num(s) < Bound(|s|)
  {
    if s != [] {
      NumBelow(s[1..]);
    }
  }

  lemma Bounds()
    ensures Bound(1) == 0x100 && Bound(2) == 0x1_0000 && Bound(4) == 0x1_0000_0000
    ensures Bound(8) == 0x1_0000_0000_0000_0000
  {
    assert Bound(3) == 256 * Bound(2) && Bound(2) == 256 * Bound(1);
    assert Bound(5) == 256 * Bound(4);
    assert Bound(6) == 256 * Bound(5);
    assert Bound(7) == 256 * Bound(6);
  }

  lemma Round1(n: u8)
    ensures Num(Le(n, 1)) == n
  {
    Bounds();
    NumLe(n, 1);
  }

  lemma Round2(n: u16)
    ensures Num(Le(n, 2)) == n
  {
    Bounds();
    NumLe(n, 2);
  }

  lemma Round4(n: u32)
    ensures Num(Le(n, 4)) == n
  {
    Bounds();
    NumLe(n, 4);
  }

  lemma Round8(n: u64)
    ensures Num(Le(n, 8)) == n
  {
    Bounds();
    NumLe(n, 8);
  }

  /** The unsigned byte of a signed one. */
  function Unsigned(n: i8): u8 { if n < 0 then n + 256 else n }

  function Signed(n: u8): i8 { if n < 128 then n else n - 256 }

  // --- Structs ----------------------------------------------------------------------------

  /** A struct is its fields, one after the other. */
  function Join(fields: seq<Bytes>): Bytes { if fields == [] then [] else fields[0] + Join(fields[1..]) }

  /** The offset of field `i`. */
  function Start(fields: seq<Bytes>, i: nat): nat
    requires i <= |fields|
  {
    if i == 0 then 0 else Start(fields, i - 1) + |fields[i - 1]|
  }

  lemma {:induction false} StartTail(fields: seq<Bytes>, i: nat)
    requires 1 <= i <= |fields|
    ensures Start(fields, i) == |fields[0]| + Start(fields[1..], i - 1)
  {
    if i > 1 {
      StartTail(fields, i - 1);
    }
  }

  lemma {:induction false} JoinAt(fields: seq<Bytes>, i: nat)
    requires i < |fields|
    ensures Start(fields, i) + |fields[i]| <= |Join(fields)|
    ensures Join(fields)[Start(fields, i)..Start(fields, i) + |fields[i]|] == fields[i]
    decreases i
  {
    if i > 0 {
      JoinAt(fields[1..], i - 1);
      StartTail(fields, i);
      var start, n := Start(fields[1..], i - 1), |fields[0]|;
      assert Join(fields)[n..] == Join(fields[1..]);
      assert Join(fields)[n..][start..start + |fields[i]|] == Join(fields)[n + start..n + start + |fields[i]|];
    }
  }

  lemma {:induction false} JoinSize(fields: seq<Bytes>)
    ensures |Join(fields)| == Start(fields, |fields|)
  {
    if fields != [] {
      JoinSize(fields[1..]);
      StartTail(fields, |fields|);
    }
  }

  /** Field `i` is read back at its offset. */
  function Field(s: Bytes, start: nat, width: nat): (f: Bytes)
    requires start + width <= |s|
    ensures |f| == width
  {
    s[start..start + width]
  }

  // --- Headers ------------------------------------------------------------------------------

  const HEADER_SIZE: nat := 64
  const REQUEST_SIZE: nat := 128
  const MAGIC: u16 := 0x4750
  const POST_INFO: u8 := 1
  const DATA: u8 := 2

  datatype Base = Base(opcode: u8, handle: u32, len: u32)

  predicate IsPostInfo(b: Base) { b.opcode == POST_INFO && b.len > 0 && b.len % REQUEST_SIZE == 0 }
  predicate IsData(b: Base) { b.opcode == DATA && b.len > 0 }
  predicate IsAck(b: Base) { b.opcode == DATA && b.len == 0 }

  datatype Trace = Trace(txSendUs: u64, rxPayloadUs: u32, rxAcquireUs: u16, rxWorkerId: i8, rxChunkStatus: u8)

  datatype DataHeader = DataHeader(base: Base, reqid: u32, index: u32, byteOffset: u64, raddr: u64, trace: Trace)

  predicate ValidData(h: DataHeader) { IsData(h.base) || IsAck(h.base) }

  datatype IpAddr = IPv4(raw: Bytes) | IPv6(raw: Bytes)
  datatype Endpoint = Endpoint(ip: IpAddr, port: u16)

  predicate ValidEndpoint(e: Endpoint) { |e.ip.raw| == if e.ip.IPv4? then 4 else 16 }

  datatype PostInfoHeader = PostInfoHeader(base: Base, peer: Endpoint, metadata: Bytes)

  predicate ValidPostInfo(h: PostInfoHeader) {
    IsPostInfo(h.base) && ValidEndpoint(h.peer) && |h.metadata| == 32
  }

  function BaseFields(b: Base): seq<Bytes> {
    [Le(MAGIC, 2), Le(1, 1), Le(b.opcode, 1), Le(b.handle, 4), Le(b.len, 4)]
  }

  function DataFields(h: DataHeader): seq<Bytes> {
    BaseFields(h.base) +
    [Le(h.reqid, 4), Le(h.index, 4), Le(0, 4), Le(h.byteOffset, 8), Le(h.raddr, 8),
     Le(h.trace.txSendUs, 8), Le(h.trace.rxPayloadUs, 4), Le(h.trace.rxAcquireUs, 2),
     Le(Unsigned(h.trace.rxWorkerId), 1), Le(h.trace.rxChunkStatus, 1), Le(0, 8)]
  }

  function SerializeData(h: DataHeader): Bytes { Join(DataFields(h)) }

  const ZERO12: Bytes := [0, 0, 0, 0, 0, 0, 0, 0, 0, 0, 0, 0]

  /** An IPv4 address fills the first 4 of the 16 bytes. */
  function IpField(ip: IpAddr): Bytes { if ip.IPv4? then ip.raw + ZERO12 else ip.raw }

  function PostInfoFields(h: PostInfoHeader): seq<Bytes> {
    BaseFields(h.base) +
    [IpField(h.peer.ip), Le(h.peer.port, 2), Le(if h.peer.ip.IPv6? then 1 else 0, 1), Le(0, 1), h.metadata]
  }

  function SerializePostInfo(h: PostInfoHeader): Bytes { Join(PostInfoFields(h)) }

  predicate Supported(s: Bytes)
    requires |s| == HEADER_SIZE
  {
    Num(Field(s, 0, 2)) == MAGIC && Num(Field(s, 2, 1)) == 1
  }

  function Num1(s: Bytes, start: nat): u8
    requires start + 1 <= |s|
  {
    Bounds(); NumBelow(Field(s, start, 1)); Num(Field(s, start, 1))
  }

  function Num2(s: Bytes, start: nat): u16
    requires start + 2 <= |s|
  {
    Bounds(); NumBelow(Field(s, start, 2)); Num(Field(s, start, 2))
  }

  function Num4(s: Bytes, start: nat): u32
    requires start + 4 <= |s|
  {
    Bounds(); NumBelow(Field(s, start, 4)); Num(Field(s, start, 4))
  }

  function Num8(s: Bytes, start: nat): u64
    requires start + 8 <= |s|
  {
    Bounds(); NumBelow(Field(s, start, 8)); Num(Field(s, start, 8))
  }

  function ReadBase(s: Bytes): Base
    requires |s| == HEADER_SIZE
  {
    Base(Num1(s, 3), Num4(s, 4), Num4(s, 8))
  }

  function ReadTrace(s: Bytes): Trace
    requires |s| == HEADER_SIZE
  {
    Trace(Num8(s, 40), Num4(s, 48), Num2(s, 52), Signed(Num1(s, 54)), Num1(s, 55))
  }

  function DeserializeData(s: Bytes): (r: Option<DataHeader>)
    ensures r.Some? ==> ValidData(r.value)
  {
    if |s| != HEADER_SIZE || !Supported(s) then None
    else
      var b := ReadBase(s);
      if !IsData(b) && !IsAck(b) then None
      else Some(DataHeader(b, Num4(s, 12), Num4(s, 16), Num8(s, 24), Num8(s, 32), ReadTrace(s)))
  }

  function ReadPeer(s: Bytes): (e: Endpoint)
    requires |s| == HEADER_SIZE
    ensures ValidEndpoint(e)
  {
    Endpoint(if Num1(s, 30) != 0 then IPv6(Field(s, 12, 16)) else IPv4(Field(s, 12, 4)), Num2(s, 28))
  }

  function DeserializePostInfo(s: Bytes): (r: Option<PostInfoHeader>)
    ensures r.Some? ==> ValidPostInfo(r.value)
  {
    if |s| != HEADER_SIZE || !Supported(s) then None
    else
      var b := ReadBase(s);
      if !IsPostInfo(b) then None else Some(PostInfoHeader(b, ReadPeer(s), Field(s, 32, 32)))
  }

  datatype Header = Data(data: DataHeader) | Info(info: PostInfoHeader)

  /** Transfer::deserialize: a data header if it parses as one, else a PostInfo header. */
  function Deserialize(s: Bytes): Option<Header> {
    if DeserializeData(s).Some? then Some(Data(DeserializeData(s).value))
    else if DeserializePostInfo(s).Some? then Some(Info(DeserializePostInfo(s).value))
    else None
  }

  /** No bytes parse both ways, so the order of the two attempts does not matter. */
  lemma Exclusive(s: Bytes)
    ensures DeserializeData(s).None? || DeserializePostInfo(s).None?
    ensures Deserialize(s) ==
      if DeserializePostInfo(s).Some? then Some(Info(DeserializePostInfo(s).value))
      else if DeserializeData(s).Some? then Some(Data(DeserializeData(s).value)) else None
  {
  }

  // --- Round trips of headers -----------------------------------------------------------------

  /** `s` is the struct with these fields: field `i` starts at `starts[i]`. */
  ghost predicate LaidOut(s: Bytes, fields: seq<Bytes>, starts: seq<nat>) {
    && |starts| == |fields|
    && forall i :: 0 <= i < |fields| ==>
         starts[i] + |fields[i]| <= |s| && s[starts[i]..starts[i] + |fields[i]|] == fields[i]
  }

  lemma JoinLaidOut(fields: seq<Bytes>, starts: seq<nat>)
    requires |starts| == |fields| && (|fields| > 0 ==> starts[0] == 0)
    requires forall i :: 0 < i < |fields| ==> starts[i] == starts[i - 1] + |fields[i - 1]|
    ensures LaidOut(Join(fields), fields, starts)
    ensures |fields| > 0 ==> |Join(fields)| == starts[|fields| - 1] + |fields[|fields| - 1]|
  {
    forall i | 0 <= i < |fields|
      ensures starts[i] + |fields[i]| <= |Join(fields)|
      ensures Join(fields)[starts[i]..starts[i] + |fields[i]|] == fields[i]
    {
      Starts(fields, starts, i);
      JoinAt(fields, i);
    }
    if |fields| > 0 {
      JoinSize(fields);
      Starts(fields, starts, |fields| - 1);
    }
  }

  lemma {:induction false} Starts(fields: seq<Bytes>, starts: seq<nat>, i: nat)
    requires |starts| == |fields| && i < |fields| && starts[0] == 0
    requires forall i :: 0 < i < |fields| ==> starts[i] == starts[i - 1] + |fields[i - 1]|
    ensures starts[i] == Start(fields, i)
  {
    if i > 0 {
      Starts(fields, starts, i - 1);
    }
  }

  /** The fields of a header, read at their offsets. */
  lemma BaseRead(s: Bytes, b: Base)
    requires BaseAt(s, b)
    ensures Supported(s) && ReadBase(s) == b
  {
    Round2(MAGIC);
    Round1(1);
    Round1(b.opcode);
    Round4(b.handle);
    Round4(b.len);
  }

  lemma TraceRead(s: Bytes, t: Trace)
    requires |s| == HEADER_SIZE
    requires Field(s, 40, 8) == Le(t.txSendUs, 8) && Field(s, 48, 4) == Le(t.rxPayloadUs, 4)
    requires Field(s, 52, 2) == Le(t.rxAcquireUs, 2) && Field(s, 54, 1) == Le(Unsigned(t.rxWorkerId), 1)
    requires Field(s, 55, 1) == Le(t.rxChunkStatus, 1)
    ensures ReadTrace(s) == t
  {
    Round8(t.txSendUs);
    Round4(t.rxPayloadUs);
    Round2(t.rxAcquireUs);
    Round1(Unsigned(t.rxWorkerId));
    Round1(t.rxChunkStatus);
  }

  const DATA_STARTS: seq<nat> := [0, 2, 3, 4, 8, 12, 16, 20, 24, 32, 40, 48, 52, 54, 55, 56]

  lemma DataLaidOut(h: DataHeader)
    ensures LaidOut(SerializeData(h), DataFields(h), DATA_STARTS) && |SerializeData(h)| == HEADER_SIZE
  {
    JoinLaidOut(DataFields(h), DATA_STARTS);
  }

  lemma FieldIs(s: Bytes, fields: seq<Bytes>, starts: seq<nat>, i: nat)
    requires LaidOut(s, fields, starts) && i < |fields|
    ensures starts[i] + |fields[i]| <= |s| && Field(s, starts[i], |fields[i]|) == fields[i]
  {
  }

  /** The fields of a base header at their offsets. */
  ghost predicate BaseAt(s: Bytes, b: Base) {
    && |s| == HEADER_SIZE
    && Field(s, 0, 2) == Le(MAGIC, 2) && Field(s, 2, 1) == Le(1, 1) && Field(s, 3, 1) == Le(b.opcode, 1)
    && Field(s, 4, 4) == Le(b.handle, 4) && Field(s, 8, 4) == Le(b.len, 4)
  }

  lemma DataBaseFields(h: DataHeader)
    ensures BaseAt(SerializeData(h), h.base)
  {
    var s, f := SerializeData(h), DataFields(h);
    DataLaidOut(h);
    FieldIs(s, f, DATA_STARTS, 0);
    FieldIs(s, f, DATA_STARTS, 1);
    FieldIs(s, f, DATA_STARTS, 2);
    FieldIs(s, f, DATA_STARTS, 3);
    FieldIs(s, f, DATA_STARTS, 4);
  }

  lemma DataBaseRead(h: DataHeader)
    ensures |SerializeData(h)| == HEADER_SIZE && Supported(SerializeData(h)) && ReadBase(SerializeData(h)) == h.base
  {
    DataBaseFields(h);
    BaseRead(SerializeData(h), h.base);
  }

  lemma DataTimesRead(h: DataHeader)
    ensures var s := SerializeData(h);
      && |s| == HEADER_SIZE && Field(s, 40, 8) == Le(h.trace.txSendUs, 8)
      && Field(s, 48, 4) == Le(h.trace.rxPayloadUs, 4) && Field(s, 52, 2) == Le(h.trace.rxAcquireUs, 2)
  {
    DataLaidOut(h);
    FieldIs(SerializeData(h), DataFields(h), DATA_STARTS, 10);
    FieldIs(SerializeData(h), DataFields(h), DATA_STARTS, 11);
    FieldIs(SerializeData(h), DataFields(h), DATA_STARTS, 12);
  }

  lemma DataStatusRead(h: DataHeader)
    ensures var s := SerializeData(h);
      && |s| == HEADER_SIZE && Field(s, 54, 1) == Le(Unsigned(h.trace.rxWorkerId), 1)
      && Field(s, 55, 1) == Le(h.trace.rxChunkStatus, 1)
  {
    DataLaidOut(h);
    FieldIs(SerializeData(h), DataFields(h), DATA_STARTS, 13);
    FieldIs(SerializeData(h), DataFields(h), DATA_STARTS, 14);
  }

  lemma DataTraceRead(h: DataHeader)
    ensures |SerializeData(h)| == HEADER_SIZE && ReadTrace(SerializeData(h)) == h.trace
  {
    DataTimesRead(h);
    DataStatusRead(h);
    TraceRead(SerializeData(h), h.trace);
  }

  lemma DataBodyRead(h: DataHeader)
    ensures var s := SerializeData(h);
      && |s| == HEADER_SIZE && Field(s, 12, 4) == Le(h.reqid, 4) && Field(s, 16, 4) == Le(h.index, 4)
      && Field(s, 24, 8) == Le(h.byteOffset, 8) && Field(s, 32, 8) == Le(h.raddr, 8)
  {
    DataLaidOut(h);
    FieldIs(SerializeData(h), DataFields(h), DATA_STARTS, 5);
    FieldIs(SerializeData(h), DataFields(h), DATA_STARTS, 6);
    FieldIs(SerializeData(h), DataFields(h), DATA_STARTS, 8);
    FieldIs(SerializeData(h), DataFields(h), DATA_STARTS, 9);
  }

  lemma DataRoundTrip(h: DataHeader)
    requires ValidData(h)
    ensures |SerializeData(h)| == HEADER_SIZE && DeserializeData(SerializeData(h)) == Some(h)
  {
    DataBaseRead(h);
    DataTraceRead(h);
    DataBodyRead(h);
    Round4(h.reqid);
    Round4(h.index);
    Round8(h.byteOffset);
    Round8(h.raddr);
  }

  const INFO_STARTS: seq<nat> := [0, 2, 3, 4, 8, 12, 28, 30, 31, 32]

  lemma PostInfoLaidOut(h: PostInfoHeader)
    requires ValidPostInfo(h)
    ensures LaidOut(SerializePostInfo(h), PostInfoFields(h), INFO_STARTS) && |SerializePostInfo(h)| == HEADER_SIZE
  {
    JoinLaidOut(PostInfoFields(h), INFO_STARTS);
  }

  lemma PeerRead(s: Bytes, e: Endpoint)
    requires |s| == HEADER_SIZE && ValidEndpoint(e)
    requires Field(s, 12, 16) == IpField(e.ip) && Field(s, 28, 2) == Le(e.port, 2)
    requires Field(s, 30, 1) == Le(if e.ip.IPv6? then 1 else 0, 1)
    ensures ReadPeer(s) == e
  {
    Round2(e.port);
    Round1(if e.ip.IPv6? then 1 else 0);
    assert Field(s, 12, 4) == Field(s, 12, 16)[..4];
  }

  lemma InfoBaseFields(h: PostInfoHeader)
    requires ValidPostInfo(h)
    ensures BaseAt(SerializePostInfo(h), h.base)
  {
    var s, f := SerializePostInfo(h), PostInfoFields(h);
    PostInfoLaidOut(h);
    FieldIs(s, f, INFO_STARTS, 0);
    FieldIs(s, f, INFO_STARTS, 1);
    FieldIs(s, f, INFO_STARTS, 2);
    FieldIs(s, f, INFO_STARTS, 3);
    FieldIs(s, f, INFO_STARTS, 4);
  }

  lemma PostInfoRoundTrip(h: PostInfoHeader)
    requires ValidPostInfo(h)
    ensures |SerializePostInfo(h)| == HEADER_SIZE && DeserializePostInfo(SerializePostInfo(h)) == Some(h)
  {
    var s, f := SerializePostInfo(h), PostInfoFields(h);
    PostInfoLaidOut(h);
    InfoBaseFields(h);
    BaseRead(s, h.base);
    FieldIs(s, f, INFO_STARTS, 5);
    FieldIs(s, f, INFO_STARTS, 6);
    FieldIs(s, f, INFO_STARTS, 7);
    FieldIs(s, f, INFO_STARTS, 9);
    PeerRead(s, h.peer);
  }

  // --- What is accepted, byte by byte -----------------------------------------------------------

  lemma Num1Is(s: Bytes, i: nat)
    requires i < |s|
    ensures Num(Field(s, i, 1)) == s[i]
  {
    assert Field(s, i, 1) == [s[i]];
  }

  lemma Num2Is(s: Bytes, i: nat)
    requires i + 2 <= |s|
    ensures Num(Field(s, i, 2)) == s[i] as nat + 256 * s[i + 1] as nat
  {
    assert Field(s, i, 2)[1..] == Field(s, i + 1, 1);
    Num1Is(s, i + 1);
  }

  lemma Num4Is(s: Bytes, i: nat)
    requires i + 4 <= |s|
    ensures Num(Field(s, i, 4)) == s[i] as nat + 256 * s[i + 1] as nat + 0x1_0000 * Num(Field(s, i + 2, 2))
  {
    assert Field(s, i, 4)[1..] == Field(s, i + 1, 3) && Field(s, i + 1, 3)[1..] == Field(s, i + 2, 2);
  }

  /** The magic number in little-endian order, then the version, then the opcode. */
  predicate Starts4(s: Bytes, opcode: u8) { |s| == HEADER_SIZE && s[..4] == [0x50, 0x47, 1, opcode] }

  lemma SupportedExactly(s: Bytes, opcode: u8)
    requires |s| == HEADER_SIZE
    ensures Supported(s) && ReadBase(s).opcode == opcode <==> Starts4(s, opcode)
  {
    Num2Is(s, 0);
    Num1Is(s, 2);
    Num1Is(s, 3);
    assert s[..4] == [s[0], s[1], s[2], s[3]];
  }

  /** Exactly the headers that start so are accepted as data headers. */
  lemma AcceptsData(s: Bytes)
    ensures DeserializeData(s).Some? <==> Starts4(s, DATA)
  {
    if |s| == HEADER_SIZE {
      SupportedExactly(s, DATA);
    }
  }

  /** A PostInfo header also needs a payload of whole descriptors: not empty, and a multiple of 128 bytes. */
  lemma AcceptsPostInfo(s: Bytes)
    ensures DeserializePostInfo(s).Some? <==>
      Starts4(s, POST_INFO) && s[8..12] != [0, 0, 0, 0] && (s[8] == 0 || s[8] == 128)
  {
    if |s| == HEADER_SIZE {
      SupportedExactly(s, POST_INFO);
      Num4Is(s, 8);
      Num2Is(s, 10);
      assert s[8..12] == [s[8], s[9], s[10], s[11]];
    }
  }

  // --- What is accepted says what it was read from ------------------------------------------------

  lemma {:induction false} LeNum(s: Bytes)
    ensures Le(Num(s), |s|) == s
  {
    if s != [] {
      LeNum(s[1..]);
      assert Num(s) % 256 == s[0] && Num(s) / 256 == Num(s[1..]);
    }
  }

  /** Bytes `from` to `to` are the same in both. */
  predicate Agree(s: Bytes, t: Bytes, from: nat, to: nat) {
    from <= to <= |s| && to <= |t| && s[from..to] == t[from..to]
  }

  lemma AgreeOn(s: Bytes, t: Bytes, from: nat, mid: nat, to: nat)
    requires Agree(s, t, from, mid) && Agree(s, t, mid, to)
    ensures Agree(s, t, from, to)
  {
    assert s[from..to] == s[from..mid] + s[mid..to] && t[from..to] == t[from..mid] + t[mid..to];
  }

  /** A field that was read as a number is written back as it was. */
  lemma FieldAgrees(s: Bytes, t: Bytes, start: nat, width: nat)
    requires start + width <= |s| && start + width <= |t|
    requires Field(t, start, width) == Le(Num(Field(s, start, width)), width)
    ensures Agree(t, s, start, start + width)
  {
    LeNum(Field(s, start, width));
  }

  lemma BaseAgrees(s: Bytes, t: Bytes, b: Base)
    requires |s| == HEADER_SIZE && Supported(s) && b == ReadBase(s) && BaseAt(t, b)
    ensures Agree(t, s, 0, 12)
  {
    FieldAgrees(s, t, 0, 2);
    FieldAgrees(s, t, 2, 1);
    AgreeOn(t, s, 0, 2, 3);
    FieldAgrees(s, t, 3, 1);
    AgreeOn(t, s, 0, 3, 4);
    FieldAgrees(s, t, 4, 4);
    AgreeOn(t, s, 0, 4, 8);
    FieldAgrees(s, t, 8, 4);
    AgreeOn(t, s, 0, 8, 12);
  }

  lemma BodyAgrees(s: Bytes, h: DataHeader)
    requires |s| == HEADER_SIZE
    requires h.reqid == Num4(s, 12) && h.index == Num4(s, 16) && h.byteOffset == Num8(s, 24) && h.raddr == Num8(s, 32)
    ensures Agree(SerializeData(h), s, 12, 20) && Agree(SerializeData(h), s, 24, 40)
  {
    var t := SerializeData(h);
    DataBodyRead(h);
    FieldAgrees(s, t, 12, 4);
    FieldAgrees(s, t, 16, 4);
    AgreeOn(t, s, 12, 16, 20);
    FieldAgrees(s, t, 24, 8);
    FieldAgrees(s, t, 32, 8);
    AgreeOn(t, s, 24, 32, 40);
  }

  lemma TraceAgrees(s: Bytes, h: DataHeader)
    requires |s| == HEADER_SIZE && h.trace == ReadTrace(s)
    ensures Agree(SerializeData(h), s, 40, 56)
  {
    var t := SerializeData(h);
    DataTimesRead(h);
    DataStatusRead(h);
    FieldAgrees(s, t, 40, 8);
    FieldAgrees(s, t, 48, 4);
    AgreeOn(t, s, 40, 48, 52);
    FieldAgrees(s, t, 52, 2);
    AgreeOn(t, s, 40, 52, 54);
    FieldAgrees(s, t, 54, 1);
    AgreeOn(t, s, 40, 54, 55);
    FieldAgrees(s, t, 55, 1);
    AgreeOn(t, s, 40, 55, 56);
  }

  lemma DataBaseAgrees(s: Bytes, h: DataHeader)
    requires |s| == HEADER_SIZE && Supported(s) && h.base == ReadBase(s)
    ensures Agree(SerializeData(h), s, 0, 12)
  {
    DataBaseFields(h);
    BaseAgrees(s, SerializeData(h), h.base);
  }

  /** What was read from a data header writes back every byte of it but the padding. */
  lemma DataReadsAll(s: Bytes)
    requires DeserializeData(s).Some?
    ensures var t := SerializeData(DeserializeData(s).value); Agree(t, s, 0, 20) && Agree(t, s, 24, 56)
  {
    var h := DeserializeData(s).value;
    var t := SerializeData(h);
    DataBaseAgrees(s, h);
    BodyAgrees(s, h);
    TraceAgrees(s, h);
    AgreeOn(t, s, 0, 12, 20);
    AgreeOn(t, s, 24, 40, 56);
  }

  lemma InfoBaseAgrees(s: Bytes, h: PostInfoHeader)
    requires |s| == HEADER_SIZE && Supported(s) && h.base == ReadBase(s) && ValidPostInfo(h)
    ensures Agree(SerializePostInfo(h), s, 0, 12)
  {
    InfoBaseFields(h);
    BaseAgrees(s, SerializePostInfo(h), h.base);
  }

  lemma PeerAgrees(s: Bytes, h: PostInfoHeader)
    requires |s| == HEADER_SIZE && h.peer == ReadPeer(s) && ValidPostInfo(h)
    ensures Agree(SerializePostInfo(h), s, 28, 30)
    ensures Agree(SerializePostInfo(h), s, 12, if h.peer.ip.IPv6? then 28 else 16)
    ensures |SerializePostInfo(h)| == HEADER_SIZE && (SerializePostInfo(h)[30] == 0 <==> s[30] == 0)
    ensures h.peer.ip.IPv6? <==> s[30] != 0
  {
    var t, f := SerializePostInfo(h), PostInfoFields(h);
    PostInfoLaidOut(h);
    FieldIs(t, f, INFO_STARTS, 5);
    FieldIs(t, f, INFO_STARTS, 6);
    FieldIs(t, f, INFO_STARTS, 7);
    FieldAgrees(s, t, 28, 2);
    Num1Is(s, 30);
    assert t[30] == Field(t, 30, 1)[0];
    if h.peer.ip.IPv4? {
      assert t[12..16] == Field(t, 12, 16)[..4];
    }
  }

  /** Likewise for a PostInfo header: base, address, port, family and metadata. */
  lemma PostInfoReadsAll(s: Bytes)
    requires DeserializePostInfo(s).Some?
    ensures var h := DeserializePostInfo(s).value;
      var t := SerializePostInfo(h);
      && Agree(t, s, 0, if h.peer.ip.IPv6? then 28 else 16) && Agree(t, s, 28, 30) && Agree(t, s, 32, 64)
      && (t[30] == 0 <==> s[30] == 0) && (h.peer.ip.IPv6? <==> s[30] != 0)
  {
    var h := DeserializePostInfo(s).value;
    var t := SerializePostInfo(h);
    InfoBaseAgrees(s, h);
    PeerAgrees(s, h);
    AgreeOn(t, s, 0, 12, if h.peer.ip.IPv6? then 28 else 16);
    PostInfoLaidOut(h);
    FieldIs(t, PostInfoFields(h), INFO_STARTS, 9);
  }

  /** Whatever is sent is dispatched to its own kind. */
  lemma DispatchRoundTrip(d: DataHeader, p: PostInfoHeader)
    ensures ValidData(d) ==> Deserialize(SerializeData(d)) == Some(Data(d))
    ensures ValidPostInfo(p) ==> Deserialize(SerializePostInfo(p)) == Some(Info(p))
  {
    if ValidData(d) {
      DataRoundTrip(d);
    }
    if ValidPostInfo(p) {
      PostInfoRoundTrip(p);
      Exclusive(SerializePostInfo(p));
    }
  }

  // --- Request descriptors -------------------------------------------------------------------------

  const READ: u8 := 1
  const WRITE: u8 := 2
  const CONTIGUOUS: u8 := 1

  datatype Descriptor = Descriptor(reqid: u32, nchunks: u32, raddr: u64, totalLen: u64, op: u8, recipe: u8,
                                   params: Bytes, metadata: Bytes)

  predicate Sound(op: u8, totalLen: u64, nchunks: u32, recipe: u8) {
    (op == READ || op == WRITE) && totalLen > 0 && nchunks > 0 && recipe == CONTIGUOUS
  }

  predicate ValidDescriptor(d: Descriptor) {
    Sound(d.op, d.totalLen, d.nchunks, d.recipe) && |d.params| == 32 && |d.metadata| == 32
  }

  function DescriptorFields(d: Descriptor): seq<Bytes> {
    [Le(d.reqid, 4), Le(d.nchunks, 4), Le(d.raddr, 8), Le(d.totalLen, 8), Le(d.op, 1), Le(0, 1), Le(0, 2), Le(0, 4),
     Le(d.recipe, 1), Le(0, 1), Le(0, 2), Le(0, 4), d.params, d.metadata, Le(0, 8), Le(0, 8), Le(0, 8)]
  }

  function SerializeOne(d: Descriptor): Bytes { Join(DescriptorFields(d)) }

  function DeserializeOne(s: Bytes): (r: Option<Descriptor>)
    ensures r.Some? ==> ValidDescriptor(r.value)
  {
    if |s| != REQUEST_SIZE then None
    else
      var op, total, nchunks, recipe := Num1(s, 24), Num8(s, 16), Num4(s, 4), Num1(s, 32);
      if !Sound(op, total, nchunks, recipe) then None
      else Some(Descriptor(Num4(s, 0), nchunks, Num8(s, 8), total, op, recipe, Field(s, 40, 32), Field(s, 72, 32)))
  }

  const ONE_STARTS: seq<nat> := [0, 4, 8, 16, 24, 25, 26, 28, 32, 33, 34, 36, 40, 72, 104, 112, 120]

  lemma OneLaidOut(d: Descriptor)
    requires ValidDescriptor(d)
    ensures LaidOut(SerializeOne(d), DescriptorFields(d), ONE_STARTS) && |SerializeOne(d)| == REQUEST_SIZE
  {
    JoinLaidOut(DescriptorFields(d), ONE_STARTS);
  }

  /** Where the fields of a descriptor are. */
  lemma OneFieldsAt(d: Descriptor)
    requires ValidDescriptor(d)
    ensures var s := SerializeOne(d);
      && |s| == REQUEST_SIZE && Field(s, 0, 4) == Le(d.reqid, 4) && Field(s, 4, 4) == Le(d.nchunks, 4)
      && Field(s, 8, 8) == Le(d.raddr, 8) && Field(s, 16, 8) == Le(d.totalLen, 8)
      && Field(s, 24, 1) == Le(d.op, 1) && Field(s, 32, 1) == Le(d.recipe, 1)
      && Field(s, 40, 32) == d.params && Field(s, 72, 32) == d.metadata
  {
    var s, f := SerializeOne(d), DescriptorFields(d);
    OneLaidOut(d);
    FieldIs(s, f, ONE_STARTS, 0);
    FieldIs(s, f, ONE_STARTS, 1);
    FieldIs(s, f, ONE_STARTS, 2);
    FieldIs(s, f, ONE_STARTS, 3);
    FieldIs(s, f, ONE_STARTS, 4);
    FieldIs(s, f, ONE_STARTS, 8);
    FieldIs(s, f, ONE_STARTS, 12);
    FieldIs(s, f, ONE_STARTS, 13);
  }

  lemma OneRoundTrip(d: Descriptor)
    requires ValidDescriptor(d)
    ensures |SerializeOne(d)| == REQUEST_SIZE && DeserializeOne(SerializeOne(d)) == Some(d)
  {
    OneFieldsAt(d);
    Round4(d.reqid);
    Round4(d.nchunks);
    Round8(d.raddr);
    Round8(d.totalLen);
    Round1(d.op);
    Round1(d.recipe);
  }

  function SerializeAll(ds: seq<Descriptor>): Bytes {
    if ds == [] then [] else SerializeAll(ds[..|ds| - 1]) + SerializeOne(ds[|ds| - 1])
  }

  /** Entry `i` of a payload. */
  function Entry(s: Bytes, i: nat): Bytes
    requires REQUEST_SIZE * (i + 1) <= |s|
  {
    s[REQUEST_SIZE * i..REQUEST_SIZE * (i + 1)]
  }

  /** The payload of a PostInfo: a loop over the descriptors. */
  method SerializeList(ds: seq<Descriptor>) returns (out: Bytes)
    ensures out == SerializeAll(ds)
  {
    out := [];
    for i := 0 to |ds|
      invariant out == SerializeAll(ds[..i])
    {
      out := out + SerializeOne(ds[i]);
      assert ds[..i + 1][..i] == ds[..i];
    }
    assert ds[..|ds|] == ds;
  }

  /** The payload is the positive number of descriptors `ds`. */
  ghost predicate Parses(s: Bytes, ds: seq<Descriptor>) {
    && ds != [] && |s| == REQUEST_SIZE * |ds|
    && forall i :: 0 <= i < |ds| ==> DeserializeOne(Entry(s, i)) == Some(ds[i])
  }

  /** Parses the payload if it can be parsed at all. */
  method DeserializeList(s: Bytes) returns (ok: bool, ds: seq<Descriptor>)
    ensures ok ==> Parses(s, ds)
    ensures !ok ==> forall other :: !Parses(s, other)
  {
    ds := [];
    if |s| == 0 || |s| % REQUEST_SIZE != 0 {
      return false, ds;
    }
    var count := |s| / REQUEST_SIZE;
    var i := 0;
    while i < count
      invariant 0 <= i <= count && |ds| == i
      invariant forall j :: 0 <= j < i ==> DeserializeOne(Entry(s, j)) == Some(ds[j])
    {
      var r := DeserializeOne(s[REQUEST_SIZE * i..REQUEST_SIZE * i + REQUEST_SIZE]);
      assert Entry(s, i) == s[REQUEST_SIZE * i..REQUEST_SIZE * i + REQUEST_SIZE];
      if r.None? {
        return false, ds;
      }
      ds := ds + [r.value];
      i := i + 1;
    }
    return true, ds;
  }

  lemma ParsesOnce(s: Bytes, a: seq<Descriptor>, b: seq<Descriptor>)
    requires Parses(s, a) && Parses(s, b)
    ensures a == b && forall d <- a :: ValidDescriptor(d)
  {
    forall i | 0 <= i < |a| ensures a[i] == b[i] {
      assert DeserializeOne(Entry(s, i)) == Some(a[i]);
    }
  }

  lemma OneSize(d: Descriptor)
    requires ValidDescriptor(d)
    ensures |SerializeOne(d)| == REQUEST_SIZE
  {
    OneRoundTrip(d);
  }

  lemma {:induction false} AllSize(ds: seq<Descriptor>)
    requires forall d <- ds :: ValidDescriptor(d)
    ensures |SerializeAll(ds)| == REQUEST_SIZE * |ds|
  {
    if ds != [] {
      AllSize(ds[..|ds| - 1]);
      OneSize(ds[|ds| - 1]);
    }
  }

  lemma EntryAppend(s: Bytes, n: nat, last: Bytes, i: nat)
    requires |s| == REQUEST_SIZE * n && |last| == REQUEST_SIZE && i <= n
    ensures REQUEST_SIZE * (i + 1) <= |s + last| && Entry(s + last, i) == if i < n then Entry(s, i) else last
  {
  }

  lemma {:induction false} EntryOfAll(ds: seq<Descriptor>, i: nat)
    requires (forall d <- ds :: ValidDescriptor(d)) && i < |ds|
    ensures REQUEST_SIZE * (i + 1) <= |SerializeAll(ds)| && Entry(SerializeAll(ds), i) == SerializeOne(ds[i])
    decreases |ds|
  {
    var init := ds[..|ds| - 1];
    var last := SerializeOne(ds[|ds| - 1]);
    AllSize(init);
    OneSize(ds[|ds| - 1]);
    EntryAppend(SerializeAll(init), |init|, last, i);
    assert SerializeAll(ds) == SerializeAll(init) + last;
    if i < |init| {
      EntryOfAll(init, i);
      assert init[i] == ds[i];
    }
  }

  /** Every non-empty list of valid descriptors survives the wire. */
  lemma ListRoundTrip(ds: seq<Descriptor>)
    requires ds != [] && forall d <- ds :: ValidDescriptor(d)
    ensures Parses(SerializeAll(ds), ds)
  {
    AllSize(ds);
    forall i: nat | i < |ds| ensures DeserializeOne(Entry(SerializeAll(ds), i)) == Some(ds[i]) {
      EntryOfAll(ds, i);
      OneRoundTrip(ds[i]);
    }
  }
}
