/** The chunk layer as the program runs it: objects whose methods update their maps in place, each
    proved to do what its value-level counterpart in RtmpPack does. */
module RtmpObjects {
  import opened ByteIO
  import opened RtmpChunk
  import P = RtmpPack
  import R = RtmpRun
  import T = RtmpRoundTrip
  import W = RtmpWire

  type Message = P.Message
  type Chunk = P.Chunk
  type ChunkStream = P.ChunkStream
  type MessageStream = P.MessageStream

  /** An input: bytes and a position in them. */
  class Input {
    const data: Bytes
    var pos: nat

    ghost predicate Valid()
      reads this
    {
      pos <= |data|
    }

    function Rest(): Bytes
      requires Valid()
      reads this
    {
      data[pos..]
    }

    constructor (data: Bytes)
      ensures Valid() && Rest() == data
    {
      this.data := data;
      pos := 0;
    }

    /** All n bytes, or none and the end of the input. */
    method Take(n: nat) returns (ok: bool, b: Bytes)
      requires Valid()
      modifies this
      ensures Valid() && ok == (n <= |old(Rest())|)
      ensures ok ==> b == old(Rest())[..n] && Rest() == old(Rest())[n..]
      ensures !ok ==> Rest() == []
    {
      if n <= |data| - pos {
        ok, b := true, data[pos..pos + n];
        pos := pos + n;
      } else {
        ok, b := false, [];
        pos := |data|;
      }
    }
  }

  class MessageCollector {
    var streams: map<U32, MessageStream>

    constructor ()
      ensures streams == map[]
    {
      streams := map[];
    }

    method HandleReceiveChunk(chunk: Chunk) returns (res: Result<Option<Message>>)
      modifies this
      ensures P.Collected(streams, res) == P.Collect(old(streams), chunk)
    {
      var sid := chunk.hdr.streamId;
      var ms;
      if sid in streams {
        ms := streams[sid];
      } else {
        ms := P.FRESH_COLLECTOR;
        if chunk.format != 0 {
          streams := streams[sid := ms];
          return Err(Panicked);
        }
      }
      if ms.collecting {
        ms := ms.(data := ms.data + chunk.data);
        ms := ms.(remain := Sub32(ms.remain, |chunk.data| % 0x1_0000_0000));
        if ms.remain == 0 {
          res := GetMessage(sid, ms);
          return;
        }
      } else {
        ms := ms.(timestamp := chunk.hdr.timestamp, length := chunk.hdr.length,
                  kind := chunk.hdr.kind, streamId := sid);
        if ms.length == |chunk.data| % 0x1_0000_0000 {
          res := GetMessage(sid, ms.(data := chunk.data));
          return;
        }
        ms := ms.(data := ms.data + chunk.data, collecting := true);
        ms := ms.(remain := Sub32(ms.length, |ms.data| % 0x1_0000_0000));
      }
      streams := streams[sid := ms];
      return Ok(None);
    }

    method GetMessage(sid: U32, ms: MessageStream) returns (res: Result<Option<Message>>)
      modifies this
      ensures res == Ok(Some(P.TakeMessage(ms).0))
      ensures streams == old(streams)[sid := P.TakeMessage(ms).1]
    {
      streams := streams[sid := ms.(data := [], collecting := false)];
      return Ok(Some(P.Message(ms.kind, ms.timestamp, ms.streamId, ms.data)));
    }
  }

  class ChunkUnpacker {
    var streams: map<U32, ChunkStream>
    var chunkSize: U32
    const collector: MessageCollector

    function State(): P.Unpacker
      reads this, collector
    {
      P.Unpacker(streams, chunkSize, collector.streams)
    }

    constructor ()
      ensures State() == P.Unpacker(map[], 128, map[]) && fresh(collector)
    {
      streams, chunkSize := map[], 128;
      collector := new MessageCollector();
    }

    method SetChunkSize(size: U32)
      modifies this`chunkSize
      ensures chunkSize == size
    {
      chunkSize := size;
    }

    method ReadBasicHeader(r: Input) returns (h: Option<Basic>)
      requires r.Valid()
      modifies r
      ensures r.Valid()
      ensures ReadBasic(old(r.Rest())) == if h.Some? then Got(h.value, r.Rest()) else Missing
      ensures h.None? ==> r.Rest() == []
    {
      var ok, b := r.Take(1);
      if !ok { return None; }
      var csid: U32 := b[0] % 64;
      var format := b[0] / 64;
      ghost var all := old(r.Rest());
      if csid == 0 {
        ok, b := r.Take(1);
        if !ok { return None; }
        csid := b[0] as int + 64;
        assert all[2..] == all[1..][1..];
      } else if csid == 1 {
        ok, b := r.Take(2);
        if !ok { return None; }
        csid := U16BE(b) + 64;
        assert all[1..3] == all[1..][..2] && all[3..] == all[1..][2..];
      }
      return Some(Basic(format, csid));
    }

    method ReadExtendedTimestamp(r: Input, h: MsgHeader) returns (res: Option<MsgHeader>)
      requires r.Valid()
      modifies r
      ensures r.Valid()
      ensures ReadExtended(h, old(r.Rest())) == if res.Some? then Got(res.value, r.Rest()) else Missing
      ensures res.None? ==> r.Rest() == []
    {
      if h.timestamp == 0xffffff {
        var ok, b := r.Take(4);
        if !ok { return None; }
        return Some(h.(timestamp := U32BE(b), exted := true));
      }
      return Some(h);
    }

    method ReadMessageHeader(r: Input, format: nat) returns (res: Option<MsgHeader>)
      requires r.Valid() && format < 4
      modifies r
      ensures r.Valid()
      ensures ReadMsgHeader(format, old(r.Rest())) == if res.Some? then Got(res.value, r.Rest()) else Missing
      ensures res.None? ==> r.Rest() == []
    {
      if format == 3 {
        return Some(EMPTY_HEADER);
      }
      var ok, f := r.Take(if format == 0 then 11 else if format == 1 then 7 else 3);
      if !ok { return None; }
      var h := EMPTY_HEADER.(timestamp := U24BE(f[..3]));
      if format < 2 {
        h := h.(length := U24BE(f[3..6]), kind := f[6]);
      }
      if format == 0 {
        h := h.(streamId := U32LE(f[7..]));
      }
      assert format == 2 ==> f[..3] == f;
      res := ReadExtendedTimestamp(r, h);
    }

    /** ReadChunk's switch: a header met when no message is under way on its chunk stream. */
    method OpenMessage(stream: ChunkStream, format: nat, header: MsgHeader) returns (cs: ChunkStream, h: MsgHeader)
      requires format < 4
      ensures P.Packed(cs, h) == P.Open(stream, format, header)
    {
      cs, h := stream, header;
      match format {
        case 0 =>
          cs := P.ChunkStream(0, h, h.length);
        case 1 =>
          cs := cs.(remain := h.length, hdr := cs.hdr.(length := h.length, kind := h.kind));
          h := h.(timestamp := Add32(h.timestamp, cs.hdr.timestamp));
          cs := cs.(hdr := cs.hdr.(timestamp := h.timestamp));
          h := h.(streamId := cs.hdr.streamId);
        case 2 =>
          cs := cs.(remain := cs.hdr.length);
          h := h.(timestamp := Add32(h.timestamp, cs.hdr.timestamp));
          cs := cs.(hdr := cs.hdr.(timestamp := h.timestamp));
          h := h.(length := cs.hdr.length, kind := cs.hdr.kind, streamId := cs.hdr.streamId);
        case _ =>
          cs := cs.(remain := cs.hdr.length);
          h := h.(timestamp := cs.hdr.timestamp, length := cs.hdr.length, kind := cs.hdr.kind,
                  streamId := cs.hdr.streamId);
      }
    }

    method ReadChunk(r: Input) returns (res: Result<Chunk>)
      requires r.Valid()
      modifies this`streams, r
      ensures r.Valid()
      ensures P.Outcome(State(), r.Rest(), res) == P.ReadChunk(old(State()), old(r.Rest()))
    {
      hide ReadBasic, ReadMsgHeader, P.Open;
      var basic := ReadBasicHeader(r);
      if basic.None? { return Err(Short); }
      var format, csid := basic.value.format, basic.value.csid;

      if csid !in streams {
        streams := streams[csid := P.FRESH_STREAM];
      }
      var cs := streams[csid];
      var header := ReadMessageHeader(r, format);
      if header.None? {
        assert streams == old(streams)[csid := cs];
        return Err(Short);
      }
      var h := header.value;

      if cs.remain == 0 {
        cs, h := OpenMessage(cs, format, h);
      }
      if format != 0 {
        h := h.(streamId := cs.hdr.streamId);
      }
      var ok, data := r.Take(Min(cs.remain, chunkSize));
      if ok {
        cs := cs.(remain := Sub32(cs.remain, |data|));
      }
      streams := streams[csid := cs];
      assert streams == old(streams)[csid := cs];
      if !ok { return Err(Short); }
      return Ok(P.Chunk(format, csid, h, data));
    }

    method GetRtmpMessage(r: Input) returns (res: Result<Message>)
      requires r.Valid()
      modifies this`streams, collector, r
      ensures r.Valid()
      ensures P.Outcome(State(), r.Rest(), res) == P.GetMessage(old(State()), old(r.Rest()))
    {
      while true
        invariant r.Valid()
        invariant P.GetMessage(State(), r.Rest()) == P.GetMessage(old(State()), old(r.Rest()))
        decreases |r.Rest()|
      {
        var chunk := ReadChunk(r);
        if chunk.Err? { return Err(chunk.failure); }
        var c := chunk.value;
        var msg := collector.HandleReceiveChunk(c);
        if msg.Err? { return Err(msg.failure); }
        if c.csid < 2 { return Err(BadCsid); }
        if msg.value.None? { continue; }
        var m := msg.value.value;
        if 0 < m.kind < 7 {
          if c.csid != 2 { return Err(BadControlCsid); }
          if m.streamId != 0 { return Err(BadControlStream); }
        }
        return Ok(m);
      }
    }
  }

  class ChunkPacker {
    var sendChunkSize: U32
    var sendStreams: map<U32, ChunkStream>

    function State(): P.Packer
      reads this
    {
      P.Packer(sendChunkSize, sendStreams)
    }

    constructor ()
      ensures State() == P.Packer(128, map[])
    {
      sendChunkSize, sendStreams := 128, map[];
    }

    method SetChunkSize(size: U32)
      modifies this`sendChunkSize
      ensures sendChunkSize == size
    {
      sendChunkSize := size;
    }

    /** ToType0Chunk's loop; the chunks share one header. */
    method ToType0Chunk(payload: Bytes, size: U32) returns (chunks: seq<Bytes>)
      requires size >= 1
      ensures chunks == P.Pieces(payload, size)
    {
      chunks := [];
      var left := payload;
      while |left| > 0
        invariant chunks + P.Pieces(left, size) == P.Pieces(payload, size)
        decreases |left|
      {
        if |left| <= size {
          chunks := chunks + [left];
          left := [];
        } else {
          ghost var before := chunks;
          chunks := chunks + [left[..size]];
          assert before + P.Pieces(left, size) == chunks + P.Pieces(left[size..], size);
          left := left[size..];
        }
      }
    }

    /** The body of SerializerChunk's loop up to the choice of header format: updates the chunk stream
        and the header the message's chunks share. */
    method Compress(csid: U32, shared: MsgHeader) returns (h: MsgHeader)
      modifies this`sendStreams
      ensures var c := P.Compress(P.Lookup(old(sendStreams), csid), csid, shared);
              h == c.hdr && sendStreams == old(sendStreams)[csid := c.stream]
    {
      h := shared;
      var known := csid in sendStreams;
      var cs := if known then sendStreams[csid] else P.FRESH_STREAM;
      var isControl := csid == 2 && h.streamId == 0 && h.kind != 4 && h.kind < 7;

      if isControl || cs.hdr.streamId != h.streamId || !known {
        cs := cs.(hdr := h, format := 0);
      } else {
        var delta := Sub32(h.timestamp, cs.hdr.timestamp);
        if cs.hdr.length == h.length && cs.hdr.kind == h.kind {
          if cs.hdr.timestamp == h.timestamp || cs.hdr.timeDelta == delta {
            cs := cs.(format := 3);
          } else {
            cs := cs.(hdr := cs.hdr.(timeDelta := delta, timestamp := h.timestamp), format := 2);
            h := h.(timeDelta := delta);
          }
        } else {
          cs := cs.(hdr := cs.hdr.(timeDelta := delta, timestamp := h.timestamp,
                                   length := h.length, kind := h.kind), format := 1);
          h := h.(timeDelta := delta);
        }
      }
      sendStreams := sendStreams[csid := cs];
    }

    method SerializerChunk(csid: U32, shared: MsgHeader, chunks: seq<Bytes>) returns (out: Bytes)
      modifies this`sendStreams
      ensures P.Sent(State(), out) == P.PackPieces(old(State()), csid, shared, chunks)
    {
      hide SerializeHeader, P.Compress;
      out := [];
      var h := shared;
      for i := 0 to |chunks|
        invariant P.PackPieces(old(State()), csid, shared, chunks)
                  == var tail := P.PackPieces(State(), csid, h, chunks[i..]); tail.(bytes := out + tail.bytes)
      {
        ghost var before := out;
        assert chunks[i..][1..] == chunks[i + 1..] && chunks[i..][0] == chunks[i];
        h := Compress(csid, h);
        var piece := SerializeHeader(sendStreams[csid].format, csid, h) + chunks[i];
        out := out + piece;
        ghost var tail := P.PackPieces(State(), csid, h, chunks[i + 1..]);
        assert before + (piece + tail.bytes) == out + tail.bytes;
      }
      assert chunks[|chunks|..] == [];
      assert out + [] == out;
    }

    method WriteMessage(m: Message) returns (ok: bool, out: Bytes)
      requires sendChunkSize >= 1
      modifies this`sendStreams
      ensures ok == !P.Refused(m)
      ensures P.Sent(State(), out) == P.PackMessage(old(State()), m)
      ensures W.OnWire(old(State()), m, P.Sent(State(), out))
    {
      W.PackedOnWire(State(), m);
      hide W.OnWire, P.PackPieces;
      if 0 < m.kind < 7 && m.streamId != 0 {
        return false, [];
      }
      var csid: U32 := 2;
      match m.kind {
        case 0x14 => csid := 3;
        case 0x11 => csid := 3;
        case 0x12 => csid := 4;
        case 0x0f => csid := 4;
        case 9 => csid := 6;
        case 8 => csid := 4;
        case _ =>
      }
      var chunks := ToType0Chunk(m.payload, sendChunkSize);
      out := SerializerChunk(csid, P.FreshHeader(m), chunks);
      ok := true;
    }
  }

  /** Sending any sequence of events. */
  method SendAll(tx: ChunkPacker, evs: seq<R.Event>, ghost base: map<U32, U32>) returns (wire: Bytes)
    requires tx.sendChunkSize >= 1
    modifies tx
    ensures var t := R.Run(old(tx.State()), base, evs); wire == t.bytes && tx.State() == t.packer
  {
    hide P.PackMessage, T.BaseAfter, T.Arrival;
    wire := [];
    ghost var b := base;
    ghost var all := R.Run(tx.State(), base, evs);
    for i := 0 to |evs|
      invariant tx.sendChunkSize >= 1
      invariant Ahead(all, wire, R.Run(tx.State(), b, evs[i..]))
    {
      assert evs[i..][1..] == evs[i + 1..] && evs[i..][0] == evs[i];
      ghost var before, m := R.Run(tx.State(), b, evs[i..]), R.MessageOf(evs[i]);
      b := if R.Emits(m) then T.BaseAfter(tx.State(), b, m) else b;
      if evs[i].Resize? {
        tx.SetChunkSize(evs[i].size);
      }
      var ok, out := tx.WriteMessage(R.MessageOf(evs[i]));
      AheadStep(all, wire, out, before, R.Run(tx.State(), b, evs[i + 1..]));
      wire := wire + out;
    }
    assert evs[|evs|..] == [] && wire + [] == wire;
  }

  /** `all` is what `wire` followed by the remaining trace t amounts to. */
  ghost predicate Ahead(all: R.Trace, wire: Bytes, t: R.Trace) {
    all.bytes == wire + t.bytes && all.packer == t.packer
  }

  lemma AheadStep(all: R.Trace, wire: Bytes, out: Bytes, t: R.Trace, t1: R.Trace)
    requires Ahead(all, wire, t) && t.bytes == out + t1.bytes && t.packer == t1.packer
    ensures Ahead(all, wire + out, t1)
  {
  }

  /** `all` is what the messages so far and the drain d of the rest amount to. */
  ghost predicate Continues(all: P.Drained, got: seq<Message>, d: P.Drained) {
    all == d.(messages := got + d.messages)
  }

  lemma ContinueStep(all: P.Drained, got: seq<Message>, m: Message, d: P.Drained)
    requires Continues(all, got, d.(messages := [m] + d.messages))
    ensures Continues(all, got + [m], d)
  {
    assert got + ([m] + d.messages) == got + [m] + d.messages;
  }

  /** The receiving loop of protocol/rtmp/clientHandler.go:97-118, with its reaction to set-chunk-size. */
  method ReceiveAll(rx: ChunkUnpacker, r: Input) returns (got: seq<Message>, failure: Option<Failure>)
    requires r.Valid()
    modifies rx, rx.collector, r
    ensures P.Drained(rx.State(), got, failure) == P.Drain(old(rx.State()), old(r.Rest()))
  {
    hide P.GetMessage;
    got := [];
    ghost var all := P.Drain(rx.State(), r.Rest());
    assert Continues(all, got, all) by { assert [] + all.messages == all.messages; }
    while r.pos < |r.data|
      invariant r.Valid()
      invariant Continues(all, got, P.Drain(rx.State(), r.Rest()))
      decreases |r.Rest()|
    {
      hide Continues;
      ghost var before := P.Drain(rx.State(), r.Rest());
      var res := rx.GetRtmpMessage(r);
      if res.Err? {
        Finish(all, got, before);
        return got, Some(res.failure);
      }
      var m := res.value;
      if m.kind == 1 {
        if |m.payload| < 4 {
          FinishWith(all, got, m, before);
          return got + [m], Some(Panicked);
        }
        rx.SetChunkSize(U32BE(m.payload[..4]));
      }
      ContinueStep(all, got, m, P.Drain(rx.State(), r.Rest()));
      got := got + [m];
    }
    assert r.Rest() == [];
    Finish(all, got, P.Drain(rx.State(), r.Rest()));
    return got, None;
  }

  lemma Finish(all: P.Drained, got: seq<Message>, d: P.Drained)
    requires Continues(all, got, d) && d.messages == []
    ensures all == d.(messages := got)
  {
    assert got + [] == got;
  }

  lemma FinishWith(all: P.Drained, got: seq<Message>, m: Message, d: P.Drained)
    requires Continues(all, got, d) && d.messages == [m]
    ensures all == d.(messages := got + [m])
  {
  }

  /** Two live objects joined by a wire: over any well-timed run with any number of chunk size changes, what was
      sent comes out, in order, and both sides end with the same chunk size. */
  method Relay(evs: seq<R.Event>) returns (got: seq<Message>)
    requires R.WellTimed(128, map[], evs)
    ensures R.SameContents(got, R.Emitted(evs))
  {
    var tx := new ChunkPacker();
    var rx := new ChunkUnpacker();
    var wire := SendAll(tx, evs, R.NO_BASES);
    var r := new Input(wire);
    var failure;
    got, failure := ReceiveAll(rx, r);
    R.WellTimedRoundTrip(128, evs);
    assert failure == None;
  }
}
