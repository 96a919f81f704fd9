/** The chunk layer on values: what one call of the packer, the unpacker and the message collector
    does to their state (protocol/rtmp/pack.go, protocol/rtmp/message.go). */
module RtmpPack {
  import opened ByteIO
  import opened RtmpChunk

  datatype Message = Message(kind: Byte, timestamp: U32, streamId: U32, payload: Bytes)

  /** Per chunk stream state, on either side. */
  datatype ChunkStream = ChunkStream(format: nat, hdr: MsgHeader, remain: U32)

  const FRESH_STREAM := ChunkStream(0, EMPTY_HEADER, 0)

  // ---------------------------------------------------------------- sending

  datatype Packer = Packer(chunkSize: U32, streams: map<U32, ChunkStream>)

  function NewSetChunkSize(n: U32): Message { Message(1, 0, 0, PutU32BE(n)) }

  predicate IsControl(kind: Byte) { 0 < kind < 7 }

  function Csid(kind: Byte): (c: U32)
    ensures c in {2, 3, 4, 6}
    ensures IsControl(kind) ==> c == 2
  {
    match kind
    case 0x14 => 3
    case 0x11 => 3
    case 0x12 => 4
    case 0x0f => 4
    case 9 => 6
    case 8 => 4
    case _ => 2
  }

  /** Messages the packer refuses, leaving no trace. */
  predicate Refused(m: Message) { IsControl(m.kind) && m.streamId != 0 }

  /** The one header all chunks of a message share. */
  function FreshHeader(m: Message): MsgHeader {
    MsgHeader(m.timestamp, |m.payload| % 0x1_0000_0000, m.kind, m.timestamp > 0xffffff, 0, m.streamId)
  }

  /** The payload cut into chunks. */
  function Pieces(payload: Bytes, size: U32): (ps: seq<Bytes>)
    requires size >= 1
    ensures ps == [] <==> payload == []
  {
    if |payload| == 0 then []
    else if |payload| <= size then [payload]
    else [payload[..size]] + Pieces(payload[size..], size)
  }

  /** Protocol control messages never have their headers compressed. */
  predicate AlwaysFull(csid: U32, h: MsgHeader) {
    csid == 2 && h.streamId == 0 && h.kind != 4 && h.kind < 7
  }

  datatype Packed = Packed(stream: ChunkStream, hdr: MsgHeader)

  /** The header compression decision for one chunk. `stream` is None when this chunk stream id has
      never been used. The result holds the stored state and the header as written. */
  function Compress(stream: Option<ChunkStream>, csid: U32, h: MsgHeader): (p: Packed)
    ensures p.stream.format < 4
  {
    if stream.None? || AlwaysFull(csid, h) || stream.value.hdr.streamId != h.streamId then
      Packed(ChunkStream(0, h, if stream.None? then 0 else stream.value.remain), h)
    else
      var cs := stream.value;
      var delta := Sub32(h.timestamp, cs.hdr.timestamp);
      if cs.hdr.length == h.length && cs.hdr.kind == h.kind then
        if cs.hdr.timestamp == h.timestamp || cs.hdr.timeDelta == delta then
          Packed(cs.(format := 3), h)
        else
          Packed(cs.(format := 2, hdr := cs.hdr.(timeDelta := delta, timestamp := h.timestamp)),
                 h.(timeDelta := delta))
      else
        Packed(cs.(format := 1, hdr := cs.hdr.(timeDelta := delta, timestamp := h.timestamp,
                                               length := h.length, kind := h.kind)),
               h.(timeDelta := delta))
  }

  function Lookup<K, V>(m: map<K, V>, k: K): Option<V> { if k in m then Some(m[k]) else None }

  datatype Sent = Sent(packer: Packer, bytes: Bytes)

  function PackPieces(p: Packer, csid: U32, h: MsgHeader, ps: seq<Bytes>): (s: Sent)
    ensures s.packer.chunkSize == p.chunkSize
    decreases |ps|
  {
    if |ps| == 0 then Sent(p, [])
    else
      var c := Compress(Lookup(p.streams, csid), csid, h);
      var tail := PackPieces(p.(streams := p.streams[csid := c.stream]), csid, c.hdr, ps[1..]);
      Sent(tail.packer, SerializeHeader(c.stream.format, csid, c.hdr) + ps[0] + tail.bytes)
  }

  /** WriteMessage. */
  function PackMessage(p: Packer, m: Message): (s: Sent)
    requires p.chunkSize >= 1
    ensures s.packer.chunkSize == p.chunkSize
  {
    if Refused(m) then Sent(p, [])
    else PackPieces(p, Csid(m.kind), FreshHeader(m), Pieces(m.payload, p.chunkSize))
  }

  // ---------------------------------------------------------------- receiving

  datatype Chunk = Chunk(format: nat, csid: U32, hdr: MsgHeader, data: Bytes)

  datatype MessageStream = MessageStream(
    timestamp: U32, length: U32, kind: Byte, streamId: U32, remain: U32, collecting: bool, data: Bytes)

  const FRESH_COLLECTOR := MessageStream(0, 0, 0, 0, 0, false, [])

  datatype Unpacker = Unpacker(
    streams: map<U32, ChunkStream>, chunkSize: U32, collector: map<U32, MessageStream>)

  /** A step's outcome: the state after it, the unread input, and the result. */
  datatype Outcome<+T> = Outcome(unpacker: Unpacker, rest: Bytes, res: Result<T>)

  /** A header that opens a message: the new stored state and the completed header. */
  function Open(cs: ChunkStream, format: nat, h: MsgHeader): Packed {
    match format
    case 0 => Packed(ChunkStream(0, h, h.length), h)
    case 1 =>
      var t := Add32(h.timestamp, cs.hdr.timestamp);
      Packed(cs.(remain := h.length, hdr := cs.hdr.(length := h.length, kind := h.kind, timestamp := t)),
             h.(timestamp := t, streamId := cs.hdr.streamId))
    case 2 =>
      var t := Add32(h.timestamp, cs.hdr.timestamp);
      Packed(cs.(remain := cs.hdr.length, hdr := cs.hdr.(timestamp := t)),
             h.(timestamp := t, length := cs.hdr.length, kind := cs.hdr.kind, streamId := cs.hdr.streamId))
    case _ =>
      Packed(cs.(remain := cs.hdr.length),
             h.(timestamp := cs.hdr.timestamp, length := cs.hdr.length, kind := cs.hdr.kind,
                streamId := cs.hdr.streamId))
  }

  function ReadChunk(u: Unpacker, b: Bytes): (o: Outcome<Chunk>)
    ensures o.res.Ok? ==> |o.rest| < |b|
    ensures o.res.Err? ==> o.res.failure == Short
  {
    match ReadBasic(b)
    case Missing => Outcome(u, [], Err(Short))
    case Got(basic, b1) =>
      var cs := if basic.csid in u.streams then u.streams[basic.csid] else FRESH_STREAM;
      match ReadMsgHeader(basic.format, b1)
      case Missing => Outcome(u.(streams := u.streams[basic.csid := cs]), [], Err(Short))
      case Got(h, b2) =>
        var started := if cs.remain == 0 then Open(cs, basic.format, h) else Packed(cs, h);
        var cs1 := started.stream;
        var h1 := if basic.format != 0 then started.hdr.(streamId := cs1.hdr.streamId) else started.hdr;
        match ReadFull(b2, Min(cs1.remain, u.chunkSize))
        case Missing => Outcome(u.(streams := u.streams[basic.csid := cs1]), [], Err(Short))
        case Got(data, b3) =>
          var cs2 := cs1.(remain := Sub32(cs1.remain, |data|));
          Outcome(u.(streams := u.streams[basic.csid := cs2]), b3,
                  Ok(Chunk(basic.format, basic.csid, h1, data)))
  }

  datatype Collected = Collected(streams: map<U32, MessageStream>, res: Result<Option<Message>>)

  /** getMessage: hand the collected message over and empty the buffer. */
  function TakeMessage(ms: MessageStream): (Message, MessageStream) {
    (Message(ms.kind, ms.timestamp, ms.streamId, ms.data), ms.(data := [], collecting := false))
  }

  function Collect(streams: map<U32, MessageStream>, c: Chunk): (r: Collected)
    ensures r.res.Err? ==> r.res.failure == Panicked
  {
    var sid := c.hdr.streamId;
    var ms := if sid in streams then streams[sid] else FRESH_COLLECTOR;
    if sid !in streams && c.format != 0 then Collected(streams[sid := ms], Err(Panicked))
    else if ms.collecting then
      var ms1 := ms.(data := ms.data + c.data, remain := Sub32(ms.remain, |c.data| % 0x1_0000_0000));
      if ms1.remain == 0 then
        var (m, ms2) := TakeMessage(ms1);
        Collected(streams[sid := ms2], Ok(Some(m)))
      else Collected(streams[sid := ms1], Ok(None))
    else
      var ms1 := ms.(timestamp := c.hdr.timestamp, length := c.hdr.length, kind := c.hdr.kind, streamId := sid);
      if ms1.length == |c.data| % 0x1_0000_0000 then
        var (m, ms2) := TakeMessage(ms1.(data := c.data));
        Collected(streams[sid := ms2], Ok(Some(m)))
      else
        var data := ms1.data + c.data;
        Collected(streams[sid := ms1.(data := data, collecting := true,
                                      remain := Sub32(ms1.length, |data| % 0x1_0000_0000))], Ok(None))
  }

  /** The receiver's checks on a completed message. */
  function CheckControl(csid: U32, m: Message): Result<Option<Message>> {
    if IsControl(m.kind) && csid != 2 then Err(BadControlCsid)
    else if IsControl(m.kind) && m.streamId != 0 then Err(BadControlStream)
    else Ok(Some(m))
  }

  /** One round of getRtmpMessage's loop. */
  function Step(u: Unpacker, b: Bytes): (o: Outcome<Option<Message>>)
    ensures o.res.Ok? ==> |o.rest| < |b|
  {
    var o := ReadChunk(u, b);
    if o.res.Err? then Outcome(o.unpacker, o.rest, Err(o.res.failure))
    else
      var chunk := o.res.value;
      var c := Collect(o.unpacker.collector, chunk);
      var u1 := o.unpacker.(collector := c.streams);
      if c.res.Err? then Outcome(u1, o.rest, Err(c.res.failure))
      else if chunk.csid < 2 then Outcome(u1, o.rest, Err(BadCsid))
      else if c.res.value.None? then Outcome(u1, o.rest, Ok(None))
      else Outcome(u1, o.rest, CheckControl(chunk.csid, c.res.value.value))
  }

  /** getRtmpMessage. */
  function GetMessage(u: Unpacker, b: Bytes): (o: Outcome<Message>)
    ensures o.res.Ok? ==> |o.rest| < |b|
    decreases |b|
  {
    var s := Step(u, b);
    if s.res.Err? then Outcome(s.unpacker, s.rest, Err(s.res.failure))
    else if s.res.value.None? then GetMessage(s.unpacker, s.rest)
    else Outcome(s.unpacker, s.rest, Ok(s.res.value.value))
  }

  datatype Drained = Drained(unpacker: Unpacker, messages: seq<Message>, failure: Option<Failure>)

  /** A receiver that reads its whole input, adopting each chunk size it is sent
      (protocol/rtmp/clientHandler.go:174-180). A shorter size message would make it panic. */
  function Drain(u: Unpacker, b: Bytes): Drained
    decreases |b|
  {
    if |b| == 0 then Drained(u, [], None)
    else
      var g := GetMessage(u, b);
      if g.res.Err? then Drained(g.unpacker, [], Some(g.res.failure))
      else
        var m := g.res.value;
        if m.kind == 1 && |m.payload| < 4 then Drained(g.unpacker, [m], Some(Panicked))
        else
          var u1 := if m.kind == 1 then g.unpacker.(chunkSize := U32BE(m.payload[..4])) else g.unpacker;
          var d := Drain(u1, g.rest);
          d.(messages := [m] + d.messages)
  }
}
