/**
  * Receiving from a stream channel: every successful receive consumes exactly one
  * frame, so a receive loop never loses its place in the stream.
  */
module Transfer {
  import opened Options
  import opened Trackers
  import opened Codec

  const TMP_BUF_SIZE: nat := 10 * 1024

  function PayloadSize(h: Header): nat { if h.Data? then h.data.base.len else h.info.base.len }

  predicate ValidHeader(h: Header) { if h.Data? then ValidData(h.data) else ValidPostInfo(h.info) }

  function Serialize(h: Header): Bytes { if h.Data? then SerializeData(h.data) else SerializePostInfo(h.info) }

  lemma HeaderRoundTrip(h: Header)
    requires ValidHeader(h)
    ensures |Serialize(h)| == HEADER_SIZE && Codec.Deserialize(Serialize(h)) == Some(h)
  {
    if h.Data? {
      DataRoundTrip(h.data);
    } else {
      PostInfoRoundTrip(h.info);
      Exclusive(Serialize(h));
    }
  }

  /** The acknowledgement of a chunk: its header with the length cleared. */
  function AckHeader(d: DataHeader): DataHeader { d.(base := d.base.(len := 0)) }

  /** What the sender decodes of an acknowledgement names the chunk it acknowledges, and nothing else changed. */
  lemma AckNamesChunk(d: DataHeader)
    requires IsData(d.base)
    ensures var a := Codec.Deserialize(SerializeData(AckHeader(d)));
      && a.Some? && a.value.Data? && IsAck(a.value.data.base) && a.value.data.base.handle == d.base.handle
      && a.value.data.reqid == d.reqid && a.value.data.index == d.index
      && a.value.data.(base := d.base) == d
  {
    HeaderRoundTrip(Data(AckHeader(d)));
  }

  /** What the tracker answers for a data chunk. */
  datatype Lookup = Unregistered | Unresolved | Found(status: ChunkStatus)

  /** The environment during one receive: the tracker's answers, and whether the acknowledgement can be written. */
  datatype Env = Env(lookup: Lookup, ackOk: bool, addOk: bool)

  /** The acknowledgement a data chunk gets: of one that has just been stored, or was there before. */
  function AckFor(chunk: DataHeader, env: Env, stored: bool): seq<DataHeader> {
    if IsData(chunk.base) && env.ackOk && (stored || env.lookup == Found(Done)) then [AckHeader(chunk)] else []
  }

  /** The acknowledgement written for a frame with this header. */
  function AcksFor(env: Env, header: Option<Header>, stored: bool): seq<DataHeader> {
    if header.Some? && header.value.Data? then AckFor(header.value.data, env, stored) else []
  }

  /** Data that was read whole is received if the tracker knows it, and its acknowledgement, if due, is written. */
  predicate DataOk(chunk: DataHeader, env: Env) {
    IsAck(chunk.base) || (env.lookup.Found? && (env.lookup.status.Busy? || env.ackOk))
  }

  /** A PostInfo payload that was read whole is received if it is a list of descriptors and is registered. */
  ghost predicate InfoOk(payload: Bytes, env: Env) { env.addOk && exists reqs :: Parses(payload, reqs) }

  /**
    * One frame read from `input`, from `start` up to `end`: `header` is what was decoded,
    * `payload` what reached the destination, if all of it did.
    */
  ghost predicate FrameRead(input: Bytes, start: nat, end: nat, env: Env, ok: bool, header: Option<Header>,
                            payload: Option<Bytes>, decode: Bytes -> Option<Header>)
  {
    && start <= end <= |input| && (ok ==> header.Some?)
    && match header
       case None => payload.None?
       case Some(h) =>
         var body := start + HEADER_SIZE;
         && body <= end <= body + PayloadSize(h) && header == decode(input[start..body])
         && (ok <==> end == body + PayloadSize(h) &&
                     if h.Data? then DataOk(h.data, env) else InfoOk(input[body..end], env))
         && (payload.Some? <==>
               h.Data? && IsData(h.data.base) && env.lookup == Found(Empty) && end == body + PayloadSize(h))
         && (payload.Some? ==> payload.value == input[body..end])
  }

  class StreamChannel {
    const input: Bytes
    var pos: nat
    var acks: seq<DataHeader>

    constructor (input: Bytes)
      ensures this.input == input && pos == 0 && acks == []
    {
      this.input := input;
      pos, acks := 0, [];
    }

    /** Reads the next `n` bytes, or fails after any number of them. */
    method Read(n: nat) returns (len: int, got: Bytes)
      requires pos <= |input|
      modifies this`pos
      ensures old(pos) <= pos <= |input| && pos <= old(pos) + n
      ensures if len == n then pos == old(pos) + n && got == input[old(pos)..pos] else pos < old(pos) + n
    {
      var k: nat :| k <= n && pos + k <= |input|;
      got := input[pos..pos + k];
      pos := pos + k;
      len := if k == n then n else -1;
    }

    method SendAck(chunk: DataHeader, ok: bool) returns (sent: bool)
      modifies this`acks
      ensures sent == ok && acks == old(acks) + if ok then [AckHeader(chunk)] else []
    {
      if ok {
        acks := acks + [chunk.(base := chunk.base.(len := 0))];
      }
      return ok;
    }

    /** Reads and drops `size` bytes, a buffer at a time. */
    method Drain(size: nat) returns (ok: bool)
      requires pos <= |input|
      modifies this`pos
      ensures old(pos) <= pos <= |input| && pos <= old(pos) + size
      ensures ok <==> pos == old(pos) + size
    {
      var left := size;
      while left > 0
        invariant 0 <= left <= size && old(pos) <= pos <= |input|
        invariant pos == old(pos) + size - left
      {
        var n := if left < TMP_BUF_SIZE then left else TMP_BUF_SIZE;
        var len, _ := Read(n);
        if len != n {
          return false;
        }
        left := left - n;
      }
      return left == 0;
    }

    /** `payload` is what reached the destination, if all of it did. */
    method RecvData(chunk: DataHeader, env: Env) returns (ok: bool, payload: Option<Bytes>)
      requires pos <= |input| && ValidData(chunk)
      modifies this`pos, this`acks
      ensures old(pos) <= pos <= |input| && pos <= old(pos) + chunk.base.len
      ensures ok <==> pos == old(pos) + chunk.base.len && DataOk(chunk, env)
      ensures payload.Some? <==> IsData(chunk.base) && env.lookup == Found(Empty) && pos == old(pos) + chunk.base.len
      ensures payload.Some? ==> payload.value == input[old(pos)..pos]
      ensures acks == old(acks) + AckFor(chunk, env, payload.Some?)
    {
      if chunk.base.len == 0 {
        return true, None;
      }
      var size := chunk.base.len;
      if env.lookup.Unregistered? || env.lookup.Unresolved? {
        var _ := Drain(size);
        return false, None;
      }
      if env.lookup.status.Empty? {
        var len, got := Read(size);
        if len != size {
          return false, None;
        }
        ok := SendAck(chunk, env.ackOk);
        return ok, Some(got);
      }
      var done := env.lookup.status.Done?;
      var drained := Drain(size);
      var success := true;
      if done {
        success := SendAck(chunk, env.ackOk);
      }
      return drained && success, None;
    }

    method RecvPostInfo(info: PostInfoHeader, env: Env) returns (ok: bool, reqs: seq<Descriptor>)
      requires pos <= |input|
      modifies this`pos
      ensures old(pos) <= pos <= |input| && pos <= old(pos) + info.base.len
      ensures ok <==> pos == old(pos) + info.base.len && InfoOk(input[old(pos)..pos], env)
      ensures ok ==> Parses(input[old(pos)..pos], reqs)
    {
      reqs := [];
      var len, got := Read(info.base.len);
      if len != info.base.len {
        return false, reqs;
      }
      var parsed;
      parsed, reqs := DeserializeList(got);
      return parsed && env.addOk, reqs;
    }

    /** One frame. */
    method RecvStream(env: Env) returns (ok: bool, header: Option<Header>, payload: Option<Bytes>)
      requires pos <= |input|
      modifies this`pos, this`acks
      ensures FrameRead(input, old(pos), pos, env, ok, header, payload, Codec.Deserialize)
      ensures acks == old(acks) + AcksFor(env, header, payload.Some?)
    {
      payload := None;
      var len, buf := Read(HEADER_SIZE);
      if len != HEADER_SIZE {
        return false, None, None;
      }
      header := Deserialize(buf);
      match header {
        case None => ok := false;
        case Some(Data(chunk)) =>
          ok, payload := RecvData(chunk, env);
        case Some(Info(info)) =>
          var reqs;
          ok, reqs := RecvPostInfo(info, env);
      }
    }

    /** The receive thread of a stream worker, up to |envs| rounds or a failure; `headers` is what it decoded. */
    method RecvLoop(envs: seq<Env>) returns (headers: seq<Header>, failed: bool)
      requires pos == 0
      modifies this`pos, this`acks
      ensures pos <= |input| && Follows(input, 0, headers, Codec.Deserialize)
      ensures !failed ==> |headers| == |envs| && pos == End(headers, 0)
    {
      headers, failed := [], false;
      var i := 0;
      while i < |envs| && !failed
        invariant 0 <= i <= |envs| && pos <= |input|
        invariant Follows(input, 0, headers, Codec.Deserialize)
        invariant !failed ==> |headers| == i && pos == End(headers, 0)
      {
        ghost var before := headers;
        var ok, header, payload := RecvStream(envs[i]);
        ReadMore(input, before, pos, envs[i], ok, header, payload, Codec.Deserialize);
        if header.Some? {
          headers := headers + [header.value];
        }
        failed := !ok;
        i := i + 1;
      }
    }
  }

  // --- The whole stream -----------------------------------------------------------------------

  /** Where frames with these headers end, starting at `start`. */
  function End(headers: seq<Header>, start: nat): nat
    decreases |headers|
  {
    if headers == [] then start else End(headers[1..], start + HEADER_SIZE + PayloadSize(headers[0]))
  }

  /** Each header is decoded where the frame before it ends. */
  predicate Follows(input: Bytes, start: nat, headers: seq<Header>, decode: Bytes -> Option<Header>)
    decreases |headers|
  {
    headers == [] ||
    (&& start + HEADER_SIZE <= |input| && decode(input[start..start + HEADER_SIZE]) == Some(headers[0])
     && Follows(input, start + HEADER_SIZE + PayloadSize(headers[0]), headers[1..], decode))
  }

  lemma {:induction false} FollowsMore(input: Bytes, start: nat, headers: seq<Header>, h: Header,
                                       decode: Bytes -> Option<Header>)
    requires Follows(input, start, headers, decode)
    requires var end := End(headers, start);
      end + HEADER_SIZE <= |input| && decode(input[end..end + HEADER_SIZE]) == Some(h)
    ensures Follows(input, start, headers + [h], decode)
    ensures End(headers + [h], start) == End(headers, start) + HEADER_SIZE + PayloadSize(h)
    decreases |headers|
  {
    if headers != [] {
      FollowsMore(input, start + HEADER_SIZE + PayloadSize(headers[0]), headers[1..], h, decode);
      assert (headers + [h])[1..] == headers[1..] + [h];
    }
  }

  /** Reading one more frame where the last one ended. */
  lemma ReadMore(input: Bytes, headers: seq<Header>, end: nat, env: Env, ok: bool, header: Option<Header>,
                 payload: Option<Bytes>, decode: Bytes -> Option<Header>)
    requires Follows(input, 0, headers, decode)
    requires FrameRead(input, End(headers, 0), end, env, ok, header, payload, decode)
    ensures header.Some? ==> Follows(input, 0, headers + [header.value], decode)
    ensures ok ==> End(headers + [header.value], 0) == end
  {
    if header.Some? {
      FollowsMore(input, 0, headers, header.value, decode);
    }
  }

  /** A frame as written: the bytes of its header, and its payload. */
  datatype Frame = Frame(header: Header, head: Bytes, payload: Bytes)

  predicate Whole(f: Frame, decode: Bytes -> Option<Header>) {
    |f.head| == HEADER_SIZE && decode(f.head) == Some(f.header) && |f.payload| == PayloadSize(f.header)
  }

  /** What the sender writes. */
  function Wire(frames: seq<Frame>): Bytes {
    if frames == [] then [] else frames[0].head + frames[0].payload + Wire(frames[1..])
  }

  lemma HeadAt(wire: Bytes, input: Bytes, start: nat, f: Frame, rest: Bytes)
    requires start <= |wire| && wire[start..] == f.head + f.payload + rest && |f.head| == HEADER_SIZE
    requires input <= wire && start + HEADER_SIZE <= |input|
    ensures input[start..start + HEADER_SIZE] == f.head
    ensures start + HEADER_SIZE + |f.payload| <= |wire| && wire[start + HEADER_SIZE + |f.payload|..] == rest
  {
    var tail := wire[start..];
    assert input[start..start + HEADER_SIZE] == tail[..HEADER_SIZE];
    assert wire[start + HEADER_SIZE + |f.payload|..] == tail[HEADER_SIZE + |f.payload|..];
  }

  /** From any frame boundary on, what is decoded is what was sent. */
  lemma {:induction false} FollowsIsPrefix(frames: seq<Frame>, wire: Bytes, input: Bytes, start: nat,
                                           headers: seq<Header>, decode: Bytes -> Option<Header>)
    requires (forall f <- frames :: Whole(f, decode)) && input <= wire
    requires start <= |wire| && wire[start..] == Wire(frames)
    requires Follows(input, start, headers, decode)
    ensures |headers| <= |frames| && forall i :: 0 <= i < |headers| ==> headers[i] == frames[i].header
    decreases |headers|
  {
    if headers != [] {
      assert frames != [];
      assert Whole(frames[0], decode);
      HeadAt(wire, input, start, frames[0], Wire(frames[1..]));
      FollowsIsPrefix(frames[1..], wire, input, start + HEADER_SIZE + PayloadSize(headers[0]), headers[1..], decode);
      forall i | 0 <= i < |headers| ensures headers[i] == frames[i].header {
        if i > 0 {
          assert headers[1..][i - 1] == frames[1..][i - 1].header;
        }
      }
    }
  }

  /** A frame the sender writes: a valid header, serialized, and as many bytes as it says. */
  predicate Sent(f: Frame) {
    ValidHeader(f.header) && f.head == Serialize(f.header) && |f.payload| == PayloadSize(f.header)
  }

  /**
    * Whatever prefix of the sender's stream arrives, and wherever the receive loop stops,
    * the headers it decoded are the first ones that were sent.
    */
  lemma DecodedIsPrefix(frames: seq<Frame>, input: Bytes, headers: seq<Header>)
    requires (forall f <- frames :: Sent(f)) && input <= Wire(frames)
    requires Follows(input, 0, headers, Codec.Deserialize)
    ensures |headers| <= |frames| && forall i :: 0 <= i < |headers| ==> headers[i] == frames[i].header
  {
    forall f | f in frames ensures Whole(f, Codec.Deserialize) {
      HeaderRoundTrip(f.header);
    }
    FollowsIsPrefix(frames, Wire(frames), input, 0, headers, Codec.Deserialize);
  }

  // --- Message channels -------------------------------------------------------------------------

  /** What a read into the receive buffer gets of a packet. */
  function Received(packet: Bytes): Bytes { if |packet| <= TMP_BUF_SIZE then packet else packet[..TMP_BUF_SIZE] }

  /** The header and the payload a packet stands for, if any. */
  function Unpack(packet: Bytes): Option<(Header, Bytes)> {
    var got := Received(packet);
    if |got| < HEADER_SIZE then None
    else
      match Codec.Deserialize(got[..HEADER_SIZE])
      case None => None
      case Some(h) => if PayloadSize(h) == |got| - HEADER_SIZE then Some((h, got[HEADER_SIZE..])) else None
  }

  /**
    * A frame sent as one packet arrives as exactly its header and its payload if it fits the
    * receive buffer, and is dropped whole if it does not.
    */
  lemma SentUnpacks(f: Frame)
    requires Sent(f)
    ensures Unpack(f.head + f.payload) ==
      if HEADER_SIZE + |f.payload| <= TMP_BUF_SIZE then Some((f.header, f.payload)) else None
  {
    HeaderRoundTrip(f.header);
    var packet := f.head + f.payload;
    assert packet[..HEADER_SIZE] == f.head && packet[HEADER_SIZE..] == f.payload;
    if |packet| > TMP_BUF_SIZE {
      assert packet[..TMP_BUF_SIZE][..HEADER_SIZE] == f.head;
    }
  }

  class MessageChannel {
    const packets: seq<Bytes>
    var next: nat
    var acks: seq<DataHeader>

    constructor (packets: seq<Bytes>)
      ensures this.packets == packets && next == 0 && acks == []
    {
      this.packets := packets;
      next, acks := 0, [];
    }

    /** Takes the next packet, cut to the receive buffer; or fails, with the packet lost or not. */
    method Read() returns (len: int, got: Bytes)
      requires next <= |packets|
      modifies this`next
      ensures old(next) <= next <= |packets| && next <= old(next) + 1
      ensures len <= 0 || (next > old(next) && len == |got| && got == Received(packets[old(next)]))
    {
      var there, ok: bool := *, *;
      if next == |packets| || !there {
        return 0, [];
      }
      next := next + 1;
      if !ok {
        return -1, [];
      }
      got := Received(packets[next - 1]);
      len := |got|;
    }

    method SendAck(chunk: DataHeader, ok: bool) returns (sent: bool)
      modifies this`acks
      ensures sent == ok && acks == old(acks) + if ok then [AckHeader(chunk)] else []
    {
      if ok {
        acks := acks + [chunk.(base := chunk.base.(len := 0))];
      }
      return ok;
    }

    /** `stored` is what was copied to the destination. */
    method RecvData(chunk: DataHeader, payload: Bytes, env: Env) returns (ok: bool, stored: Option<Bytes>)
      requires ValidData(chunk)
      modifies this`acks
      ensures stored == if |payload| == chunk.base.len && IsData(chunk.base) && env.lookup == Found(Empty)
                        then Some(payload) else None
      ensures acks == old(acks) + if |payload| == chunk.base.len then AckFor(chunk, env, stored.Some?) else []
      ensures ok <==> |payload| == chunk.base.len && DataOk(chunk, env)
    {
      if |payload| != chunk.base.len {
        return false, None;
      }
      if chunk.base.len == 0 {
        return true, None;
      }
      if env.lookup.Unregistered? || env.lookup.Unresolved? {
        return false, None;
      }
      match env.lookup.status {
        case Empty =>
          stored := Some(payload);
          ok := SendAck(chunk, env.ackOk);
        case Done =>
          stored := None;
          ok := SendAck(chunk, env.ackOk);
        case Busy =>
          return true, None;
      }
    }

    method RecvPostInfo(info: PostInfoHeader, payload: Bytes, env: Env) returns (ok: bool, reqs: seq<Descriptor>)
      ensures ok <==> |payload| == info.base.len && InfoOk(payload, env)
      ensures ok ==> Parses(payload, reqs)
    {
      if |payload| != info.base.len {
        return false, [];
      }
      var parsed;
      parsed, reqs := DeserializeList(payload);
      return parsed && env.addOk, reqs;
    }

    /** At most one packet: if `read`, it acts as the header and payload it stands for, or is dropped whole. */
    method RecvMsg(env: Env) returns (ok: bool, read: bool, stored: Option<Bytes>)
      requires next <= |packets|
      modifies this
      ensures old(next) <= next <= |packets| && next <= old(next) + 1 && (read ==> next > old(next))
      ensures !read ==> !ok && stored.None? && acks == old(acks)
      ensures read ==>
        match Unpack(packets[old(next)])
        case None => !ok && stored.None? && acks == old(acks)
        case Some((Data(d), payload)) =>
          && stored == (if IsData(d.base) && env.lookup == Found(Empty) then Some(payload) else None)
          && acks == old(acks) + AckFor(d, env, stored.Some?)
          && (ok <==> DataOk(d, env))
        case Some((Info(i), payload)) =>
          stored.None? && acks == old(acks) && (ok <==> InfoOk(payload, env))
    {
      var len, got := Read();
      if len < HEADER_SIZE {
        return false, len > 0, None;
      }
      var header := Deserialize(got[..HEADER_SIZE]);
      ok, read, stored := false, true, None;
      match header {
        case None =>
        case Some(Data(chunk)) =>
          ok, stored := RecvData(chunk, got[HEADER_SIZE..], env);
        case Some(Info(info)) =>
          var reqs;
          ok, reqs := RecvPostInfo(info, got[HEADER_SIZE..], env);
      }
    }
  }
}
