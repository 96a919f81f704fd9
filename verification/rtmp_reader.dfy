/** What the receiver can be relied on for with any input: it looks no further than it reads, and what it refuses. */
module RtmpReader {
  import opened ByteIO
  import opened RtmpChunk
  import opened RtmpPack
  import opened RtmpRoundTrip

  // ---------------------------------------------------------------- it looks no further than it reads

  lemma BasicLocal(b: Bytes, x: Bytes)
    requires ReadBasic(b).Got?
    ensures ReadBasic(b + x) == Got(ReadBasic(b).value, ReadBasic(b).rest + x)
  {
    var k := |b| - |ReadBasic(b).rest|;
    assert (b + x)[..k] == b[..k] && (b + x)[k..] == b[k..] + x;
    if k == 3 { assert (b + x)[1..3] == b[1..3]; }
  }

  lemma FullLocal(b: Bytes, n: nat, x: Bytes)
    requires n <= |b|
    ensures ReadFull(b + x, n) == Got(b[..n], b[n..] + x)
  {
    assert (b + x)[..n] == b[..n] && (b + x)[n..] == b[n..] + x;
  }

  lemma ExtendedLocal(h: MsgHeader, b: Bytes, x: Bytes)
    requires ReadExtended(h, b).Got?
    ensures ReadExtended(h, b + x) == Got(ReadExtended(h, b).value, ReadExtended(h, b).rest + x)
  {
    if h.timestamp == 0xffffff { FullLocal(b, 4, x); }
  }

  lemma HeaderLocal(format: nat, b: Bytes, x: Bytes)
    requires format < 4 && ReadMsgHeader(format, b).Got?
    ensures ReadMsgHeader(format, b + x) == Got(ReadMsgHeader(format, b).value, ReadMsgHeader(format, b).rest + x)
  {
    hide ReadExtended, U24BE, U32LE;
    match format
    case 0 =>
      FullLocal(b, 11, x);
      var f := b[..11];
      ExtendedLocal(MsgHeader(U24BE(f[..3]), U24BE(f[3..6]), f[6], false, 0, U32LE(f[7..])), b[11..], x);
    case 1 =>
      FullLocal(b, 7, x);
      var f := b[..7];
      ExtendedLocal(MsgHeader(U24BE(f[..3]), U24BE(f[3..6]), f[6], false, 0, 0), b[7..], x);
    case 2 =>
      FullLocal(b, 3, x);
      ExtendedLocal(EMPTY_HEADER.(timestamp := U24BE(b[..3])), b[3..], x);
    case _ =>
  }

  lemma ChunkLocal(u: Unpacker, b: Bytes, x: Bytes)
    requires ReadChunk(u, b).res.Ok?
    ensures ReadChunk(u, b + x) == ReadChunk(u, b).(rest := ReadChunk(u, b).rest + x)
  {
    hide ReadBasic, ReadMsgHeader, Open;
    BasicLocal(b, x);
    var rb := ReadBasic(b);
    HeaderLocal(rb.value.format, rb.rest, x);
    var rh := ReadMsgHeader(rb.value.format, rb.rest);
    var cs := if rb.value.csid in u.streams then u.streams[rb.value.csid] else FRESH_STREAM;
    var cs1 := if cs.remain == 0 then Open(cs, rb.value.format, rh.value).stream else cs;
    FullLocal(rh.rest, Min(cs1.remain, u.chunkSize), x);
  }

  lemma StepLocal(u: Unpacker, b: Bytes, x: Bytes)
    requires Step(u, b).res != Err(Short)
    ensures Step(u, b + x) == Step(u, b).(rest := Step(u, b).rest + x)
  {
    hide ReadChunk, Collect, CheckControl;
    ChunkLocal(u, b, x);
  }

  /** Unless it runs out of input, the receiver does the same whatever follows, and leaves that untouched. */
  lemma {:induction false} MessageLocal(u: Unpacker, b: Bytes, x: Bytes)
    requires GetMessage(u, b).res != Err(Short)
    ensures GetMessage(u, b + x) == GetMessage(u, b).(rest := GetMessage(u, b).rest + x)
    ensures |GetMessage(u, b + x).rest| >= |x|
    decreases |b|
  {
    hide Step;
    StepLocal(u, b, x);
    var s := Step(u, b);
    if s.res.Ok? && s.res.value.None? { MessageLocal(s.unpacker, s.rest, x); }
  }

  /** A message cut short is never delivered, in whole or in part: every strict start of what makes a message is out of
      input. */
  lemma CutShort(u: Unpacker, b: Bytes, k: nat)
    requires GetMessage(u, b).res.Ok? && GetMessage(u, b).rest == [] && k < |b|
    ensures GetMessage(u, b[..k]).res == Err(Short)
  {
    hide GetMessage;
    assert b == b[..k] + b[k..];
    if GetMessage(u, b[..k]).res != Err(Short) {
      MessageLocal(u, b[..k], b[k..]);
    }
  }

  // ---------------------------------------------------------------- what it refuses

  /** A chunk without a full header, for a message stream never heard of, makes the program panic; nothing else does. */
  lemma PanicsIff(u: Unpacker, b: Bytes)
    ensures Step(u, b).res == Err(Panicked) <==>
            ReadChunk(u, b).res.Ok? && ReadChunk(u, b).res.value.format != 0
            && ReadChunk(u, b).res.value.hdr.streamId !in u.collector
  {
    hide ReadChunk;
    if ReadChunk(u, b).res.Ok? { SameCollector(u, b); }
  }

  lemma SameCollector(u: Unpacker, b: Bytes)
    ensures ReadChunk(u, b).unpacker.collector == u.collector
  {
    hide ReadBasic, ReadMsgHeader, Open;
  }

  /** Control messages are delivered only from message stream 0, on chunk stream 2. */
  lemma ControlDelivered(u: Unpacker, b: Bytes)
    requires Step(u, b).res.Ok? && Step(u, b).res.value.Some? && 1 <= Step(u, b).res.value.value.kind <= 6
    ensures Step(u, b).res.value.value.streamId == 0 && ReadChunk(u, b).res.Ok? && ReadChunk(u, b).res.value.csid == 2
  {
    hide ReadChunk, Collect;
  }

  /** ... and no other message is refused. */
  lemma OthersDelivered(u: Unpacker, b: Bytes)
    requires ReadChunk(u, b).res.Ok? && Collect(u.collector, ReadChunk(u, b).res.value).res.Ok?
    requires Collect(u.collector, ReadChunk(u, b).res.value).res.value.Some?
    ensures var c, m := ReadChunk(u, b).res.value, Collect(u.collector, ReadChunk(u, b).res.value).res.value.value;
            Step(u, b).res == if m.kind in {1, 2, 3, 4, 5, 6} && c.csid != 2 then Err(BadControlCsid)
                              else if m.kind in {1, 2, 3, 4, 5, 6} && m.streamId != 0 then Err(BadControlStream)
                              else Ok(Some(m))
  {
    hide ReadBasic, ReadMsgHeader, Open, Collect;
    SameCollector(u, b);
    ChunkStreams(u, b);
  }

  /** No chunk stream id below 2 is ever read. */
  lemma ChunkStreams(u: Unpacker, b: Bytes)
    requires ReadChunk(u, b).res.Ok?
    ensures ReadChunk(u, b).res.value.csid >= 2
  {
    hide ReadMsgHeader, Open;
  }
}
