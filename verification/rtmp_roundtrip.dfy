/** Sender and receiver in step: what the packer writes, the unpacker delivers. */
module RtmpRoundTrip {
  import opened ByteIO
  import opened RtmpChunk
  import opened RtmpPack

  // ---------------------------------------------------------------- the shape of a packed message

  /** The header every chunk after the first gets. */
  function ContHeader(csid: U32, h: MsgHeader): Bytes {
    SerializeHeader(if AlwaysFull(csid, h) then 0 else 3, csid, h)
  }

  function ContBytes(hdr: Bytes, payload: Bytes, size: U32): Bytes
    requires size >= 1
  {
    if |payload| == 0 then []
    else
      var n := Min(|payload|, size);
      hdr + payload[..n] + ContBytes(hdr, payload[n..], size)
  }

  /** The stored state makes every further chunk of the message a continuation. */
  predicate Settled(cs: ChunkStream, csid: U32, h: MsgHeader) {
    if AlwaysFull(csid, h) then cs == ChunkStream(0, h, cs.remain)
    else
      && cs.hdr.streamId == h.streamId && cs.hdr.length == h.length && cs.hdr.kind == h.kind
      && (cs.hdr.timestamp == h.timestamp || cs.hdr.timeDelta == Sub32(h.timestamp, cs.hdr.timestamp))
  }

  lemma {:induction false} PackTail(p: Packer, csid: U32, h: MsgHeader, payload: Bytes, size: U32)
    requires size >= 1 && csid in p.streams && Settled(p.streams[csid], csid, h)
    ensures var s := PackPieces(p, csid, h, Pieces(payload, size));
            && s.bytes == ContBytes(ContHeader(csid, h), payload, size)
            && s.packer.chunkSize == p.chunkSize
            && csid in s.packer.streams
            && s.packer.streams == p.streams[csid := s.packer.streams[csid]]
            && s.packer.streams[csid].hdr == p.streams[csid].hdr
    decreases |payload|
  {
    hide SerializeHeader;
    if |payload| > 0 {
      var n := Min(|payload|, size);
      var c := Compress(Some(p.streams[csid]), csid, h);
      var p1 := p.(streams := p.streams[csid := c.stream]);
      assert |payload| <= size ==> payload[..n] == payload && payload[n..] == [];
      assert Pieces(payload, size) == [payload[..n]] + Pieces(payload[n..], size);
      assert Pieces(payload, size)[1..] == Pieces(payload[n..], size);
      PackTail(p1, csid, h, payload[n..], size);
    }
  }

  /** A packed message is one compressed header, then continuation headers only. */
  lemma PackShape(p: Packer, m: Message)
    requires p.chunkSize >= 1 && !Refused(m) && m.payload != []
    ensures var csid, h := Csid(m.kind), FreshHeader(m);
            var c := Compress(Lookup(p.streams, csid), csid, h);
            var n := Min(|m.payload|, p.chunkSize);
            var s := PackMessage(p, m);
            && s.bytes == SerializeHeader(c.stream.format, csid, c.hdr) + m.payload[..n]
                          + ContBytes(ContHeader(csid, c.hdr), m.payload[n..], p.chunkSize)
            && s.packer.chunkSize == p.chunkSize
            && csid in s.packer.streams
            && s.packer.streams == p.streams[csid := s.packer.streams[csid]]
            && s.packer.streams[csid].hdr == c.stream.hdr
  {
    var csid, h := Csid(m.kind), FreshHeader(m);
    var c := Compress(Lookup(p.streams, csid), csid, h);
    var n := Min(|m.payload|, p.chunkSize);
    var ps := Pieces(m.payload, p.chunkSize);
    assert |m.payload| <= p.chunkSize ==> m.payload[..n] == m.payload && m.payload[n..] == [];
    assert ps == [m.payload[..n]] + Pieces(m.payload[n..], p.chunkSize);
    assert ps[1..] == Pieces(m.payload[n..], p.chunkSize);
    PackTail(p.(streams := p.streams[csid := c.stream]), csid, c.hdr, m.payload[n..], p.chunkSize);
  }

  // ---------------------------------------------------------------- the receiver inside a message

  predicate Idle(ms: MessageStream) { !ms.collecting && ms.data == [] }

  predicate Deliverable(csid: U32, m: Message) {
    && 2 <= csid < 64 && 0 < |m.payload| < 0x100_0000
    && (IsControl(m.kind) ==> csid == 2 && m.streamId == 0)
  }

  /** k bytes of m have arrived on chunk stream csid; both `remain` counters hold what is missing. */
  predicate Mid(u: Unpacker, csid: U32, m: Message, k: nat) {
    && Deliverable(csid, m) && 0 < k < |m.payload|
    && csid in u.streams && u.streams[csid].remain == |m.payload| - k
    && u.streams[csid].hdr.streamId == m.streamId
    && m.streamId in u.collector
    && var ms := u.collector[m.streamId];
    && ms.collecting && ms.data == m.payload[..k] && ms.remain == |m.payload| - k
    && ms.kind == m.kind && ms.timestamp == m.timestamp && ms.streamId == m.streamId
  }

  /** The receiver once j bytes of the message have arrived. */
  function Advance(u: Unpacker, csid: U32, m: Message, j: nat): Unpacker
    requires csid in u.streams && m.streamId in u.collector && j <= |m.payload| < 0x100_0000
  {
    var left := |m.payload| - j;
    var ms := u.collector[m.streamId];
    u.(streams := u.streams[csid := u.streams[csid].(remain := left)],
       collector := u.collector[m.streamId :=
         ms.(data := if left == 0 then [] else m.payload[..j], collecting := left != 0, remain := left)])
  }

  /** Continuation headers the receiver can follow. */
  predicate ContFits(csid: U32, h: MsgHeader, m: Message) {
    h.streamId == m.streamId && h.length < 0x100_0000
    && (AlwaysFull(csid, h) ==> h.timeDelta == 0 && h.timestamp <= 0xffffff)
  }

  lemma ContHeaderRead(csid: U32, h: MsgHeader, m: Message, tail: Bytes)
    requires 2 <= csid < 64 && ContFits(csid, h, m)
    ensures var rb := ReadBasic(ContHeader(csid, h) + tail);
            && rb.Got? && rb.value.csid == csid && (rb.value.format == 0 || rb.value.format == 3)
            && var rh := ReadMsgHeader(rb.value.format, rb.rest);
            && rh.Got? && rh.rest == tail && (rb.value.format == 0 ==> rh.value.streamId == m.streamId)
  {
    hide ReadBasic, ReadMsgHeader;
    if AlwaysFull(csid, h) {
      HeaderMirrorsIff(0, csid, h, tail);
    } else {
      assert ContHeader(csid, h) == SerializeHeader(3, csid, h.(timeDelta := 0));
      HeaderMirrorsIff(3, csid, h.(timeDelta := 0), tail);
    }
  }

  predicate IsPiece(r: Result<Chunk>, csid: U32, streamId: U32, data: Bytes) {
    r.Ok? && r.value.csid == csid && r.value.hdr.streamId == streamId && r.value.data == data
  }

  lemma ContRead(u: Unpacker, csid: U32, m: Message, k: nat, h: MsgHeader, rest: Bytes)
    requires Mid(u, csid, m, k) && ContFits(csid, h, m) && u.chunkSize >= 1
    ensures var n := Min(|m.payload| - k, u.chunkSize);
            var data := m.payload[k..k + n];
            var u1 := u.(streams := u.streams[csid := u.streams[csid].(remain := |m.payload| - k - n)]);
            var o := ReadChunk(u, ContHeader(csid, h) + data + rest);
            o.rest == rest && o.unpacker == u1 && IsPiece(o.res, csid, m.streamId, data)
  {
    hide ReadBasic, ReadMsgHeader, ContHeader, Open;
    var n := Min(|m.payload| - k, u.chunkSize);
    var data := m.payload[k..k + n];
    assert ContHeader(csid, h) + data + rest == ContHeader(csid, h) + (data + rest);
    ContHeaderRead(csid, h, m, data + rest);
    Seam(data, rest);
  }

  lemma ContStep(u: Unpacker, csid: U32, m: Message, k: nat, h: MsgHeader, rest: Bytes)
    requires Mid(u, csid, m, k) && ContFits(csid, h, m) && u.chunkSize >= 1
    ensures var n := Min(|m.payload| - k, u.chunkSize);
            Step(u, ContHeader(csid, h) + m.payload[k..k + n] + rest)
            == Outcome(Advance(u, csid, m, k + n), rest, Ok(if k + n == |m.payload| then Some(m) else None))
    ensures var n := Min(|m.payload| - k, u.chunkSize);
            k + n < |m.payload| ==> Mid(Advance(u, csid, m, k + n), csid, m, k + n)
  {
    hide ReadChunk, ContHeader;
    var n := Min(|m.payload| - k, u.chunkSize);
    ContRead(u, csid, m, k, h, rest);
    assert m.payload[..k] + m.payload[k..k + n] == m.payload[..k + n];
    assert k + n == |m.payload| ==> m.payload[..k + n] == m.payload;
  }

  /** The rest of a message, however many chunks it takes. */
  lemma {:induction false} ContAll(u: Unpacker, csid: U32, m: Message, k: nat, h: MsgHeader, rest: Bytes)
    requires Mid(u, csid, m, k) && ContFits(csid, h, m) && u.chunkSize >= 1
    ensures GetMessage(u, ContBytes(ContHeader(csid, h), m.payload[k..], u.chunkSize) + rest)
            == Outcome(Advance(u, csid, m, |m.payload|), rest, Ok(m))
    decreases |m.payload| - k
  {
    hide Step, ContHeader, GetMessage, Mid, ContFits, Advance, ContBytes;
    MidBounds(u, csid, m, k);
    var n := Min(|m.payload| - k, u.chunkSize);
    var hdr := ContHeader(csid, h);
    var tail := ContBytes(hdr, m.payload[k + n..], u.chunkSize);
    ContNext(hdr, m.payload, k, u.chunkSize, rest);
    ContStep(u, csid, m, k, h, tail + rest);
    Unfold(u, hdr + m.payload[k..k + n] + (tail + rest));
    if k + n < |m.payload| {
      AdvanceTwice(u, csid, m, k + n);
      ContAll(Advance(u, csid, m, k + n), csid, m, k + n, h, rest);
    }
  }

  lemma MidBounds(u: Unpacker, csid: U32, m: Message, k: nat)
    requires Mid(u, csid, m, k)
    ensures 0 < k < |m.payload| < 0x100_0000 && csid in u.streams && m.streamId in u.collector
  {
  }

  /** The next continuation, off the front of the rest. */
  lemma ContNext(hdr: Bytes, payload: Bytes, k: nat, size: U32, rest: Bytes)
    requires size >= 1 && k < |payload|
    ensures var n := Min(|payload| - k, size);
            var tail := ContBytes(hdr, payload[k + n..], size);
            && ContBytes(hdr, payload[k..], size) + rest == hdr + payload[k..k + n] + (tail + rest)
            && (k + n == |payload| ==> tail + rest == rest)
  {
    var n := Min(|payload| - k, size);
    SliceOfDrop(payload, k, 0, n);
    SliceOfDrop(payload, k, n, n);
    Assoc(hdr + payload[k..k + n], ContBytes(hdr, payload[k + n..], size), rest);
  }

  lemma AdvanceTwice(u: Unpacker, csid: U32, m: Message, j: nat)
    requires csid in u.streams && m.streamId in u.collector && j < |m.payload| < 0x100_0000
    ensures var u1 := Advance(u, csid, m, j);
            && u1.chunkSize == u.chunkSize && csid in u1.streams && m.streamId in u1.collector
            && Advance(u1, csid, m, |m.payload|) == Advance(u, csid, m, |m.payload|)
  {
  }

  /** One round of the receiving loop. */
  lemma Unfold(u: Unpacker, b: Bytes)
    ensures var s := Step(u, b);
            && (s.res == Ok(None) ==> GetMessage(u, b) == GetMessage(s.unpacker, s.rest))
            && (s.res.Ok? && s.res.value.Some? ==>
                  GetMessage(u, b) == Outcome(s.unpacker, s.rest, Ok(s.res.value.value)))
  {
  }

  // ---------------------------------------------------------------- the first chunk

  function StreamOf(u: Unpacker, csid: U32): ChunkStream {
    if csid in u.streams then u.streams[csid] else FRESH_STREAM
  }

  /** A header in this format tells the receiver it is looking at message m. */
  predicate Opens(u: Unpacker, csid: U32, format: nat, h: MsgHeader, m: Message)
    requires format < 4
  {
    var cs := StreamOf(u, csid);
    && Deliverable(csid, m)
    && cs.remain == 0 && Mirrors(format, h) && h.length < 0x100_0000 && (format == 0 ==> h.timeDelta == 0)
    && (if m.streamId in u.collector then Idle(u.collector[m.streamId]) else format == 0)
    && var o := Open(cs, format, HeaderAsRead(format, h));
    && o.hdr.kind == m.kind && o.hdr.timestamp == m.timestamp && o.hdr.length == |m.payload|
    && o.hdr.streamId == m.streamId && o.stream.hdr.streamId == m.streamId && o.stream.remain == |m.payload|
  }

  /** The receiver after the first n bytes of m. */
  function Opened(u: Unpacker, csid: U32, format: nat, h: MsgHeader, m: Message, n: nat): Unpacker
    requires format < 4 && n <= |m.payload| < 0x100_0000
  {
    var left := |m.payload| - n;
    var ms := if m.streamId in u.collector then u.collector[m.streamId] else FRESH_COLLECTOR;
    u.(streams := u.streams[csid := Open(StreamOf(u, csid), format, HeaderAsRead(format, h)).stream.(remain := left)],
       collector := u.collector[m.streamId :=
         MessageStream(m.timestamp, |m.payload|, m.kind, m.streamId, if left == 0 then ms.remain else left,
                       left != 0, if left == 0 then [] else m.payload[..n])])
  }

  lemma FirstRead(u: Unpacker, csid: U32, format: nat, h: MsgHeader, m: Message, rest: Bytes)
    requires format < 4 && Opens(u, csid, format, h, m) && u.chunkSize >= 1
    ensures var n := Min(|m.payload|, u.chunkSize);
            var o := ReadChunk(u, SerializeHeader(format, csid, h) + m.payload[..n] + rest);
            var op := Open(StreamOf(u, csid), format, HeaderAsRead(format, h));
            && o.rest == rest
            && o.res == Ok(Chunk(format, csid, op.hdr, m.payload[..n]))
            && o.unpacker == u.(streams := u.streams[csid := op.stream.(remain := |m.payload| - n)])
  {
    hide ReadBasic, ReadMsgHeader, SerializeHeader, HeaderAsRead, Mirrors, Open;
    var n := Min(|m.payload|, u.chunkSize);
    var data := m.payload[..n];
    var b := SerializeHeader(format, csid, h) + data + rest;
    assert b == SerializeHeader(format, csid, h) + (data + rest);
    HeaderMirrorsIff(format, csid, h, data + rest);
    Seam(data, rest);
  }

  lemma FirstStep(u: Unpacker, csid: U32, format: nat, h: MsgHeader, m: Message, rest: Bytes)
    requires format < 4 && Opens(u, csid, format, h, m) && u.chunkSize >= 1
    ensures var n := Min(|m.payload|, u.chunkSize);
            Step(u, SerializeHeader(format, csid, h) + m.payload[..n] + rest)
            == Outcome(Opened(u, csid, format, h, m, n), rest, Ok(if n == |m.payload| then Some(m) else None))
    ensures var n := Min(|m.payload|, u.chunkSize);
            n < |m.payload| ==> Mid(Opened(u, csid, format, h, m, n), csid, m, n)
  {
    hide ReadChunk, SerializeHeader, HeaderAsRead, Open;
    var n := Min(|m.payload|, u.chunkSize);
    FirstRead(u, csid, format, h, m, rest);
    assert [] + m.payload[..n] == m.payload[..n];
    assert n == |m.payload| ==> m.payload[..n] == m.payload;
  }

  /** A whole message, one chunk or many. */
  lemma WholeMessage(u: Unpacker, csid: U32, format: nat, h: MsgHeader, m: Message, rest: Bytes)
    requires format < 4 && Opens(u, csid, format, h, m) && u.chunkSize >= 1 && ContFits(csid, h, m)
    ensures var n := Min(|m.payload|, u.chunkSize);
            var b := SerializeHeader(format, csid, h) + m.payload[..n]
                     + ContBytes(ContHeader(csid, h), m.payload[n..], u.chunkSize);
            var o := GetMessage(u, b + rest);
            var op := Open(StreamOf(u, csid), format, HeaderAsRead(format, h));
            && o.res == Ok(m) && o.rest == rest
            && o.unpacker.chunkSize == u.chunkSize
            && o.unpacker.streams == u.streams[csid := op.stream.(remain := 0)]
            && m.streamId in o.unpacker.collector && Idle(o.unpacker.collector[m.streamId])
            && o.unpacker.collector == u.collector[m.streamId := o.unpacker.collector[m.streamId]]
  {
    hide Step, SerializeHeader, ContHeader, HeaderAsRead, Open, Mid;
    var n := Min(|m.payload|, u.chunkSize);
    var tail := ContBytes(ContHeader(csid, h), m.payload[n..], u.chunkSize);
    var b := SerializeHeader(format, csid, h) + m.payload[..n] + tail;
    assert b + rest == SerializeHeader(format, csid, h) + m.payload[..n] + (tail + rest);
    FirstStep(u, csid, format, h, m, tail + rest);
    if n < |m.payload| {
      ContAll(Opened(u, csid, format, h, m, n), csid, m, n, h, rest);
    } else {
      assert tail + rest == rest;
    }
  }

  // ---------------------------------------------------------------- synchrony

  /** Sender and receiver agree on a chunk stream; the receiver's clock runs `base` behind. */
  predicate StreamSync(s: ChunkStream, r: ChunkStream, base: U32) {
    && s.hdr.length == r.hdr.length && s.hdr.kind == r.hdr.kind && s.hdr.streamId == r.hdr.streamId
    && r.hdr.timestamp == Sub32(s.hdr.timestamp, base)
    && r.remain == 0
  }

  ghost predicate Sync(p: Packer, u: Unpacker, base: map<U32, U32>) {
    && p.streams.Keys == u.streams.Keys == base.Keys
    && (forall c :: c in p.streams ==>
          StreamSync(p.streams[c], u.streams[c], base[c]) && p.streams[c].hdr.streamId in u.collector)
    && (forall s :: s in u.collector ==> Idle(u.collector[s]))
  }

  /** How far the receiver's clock is behind after a header: a type 0 header restarts it at 0, a
      type 1 header loses whatever of the delta did not fit in 24 bits. */
  function NextBase(base: U32, format: nat, h: MsgHeader): U32
    requires format < 4
  {
    match format
    case 0 => h.timestamp
    case 1 => Add32(base, Sub32(h.timeDelta, HeaderAsRead(1, h).timestamp))
    case _ => base
  }

  function FirstChunk(p: Packer, m: Message): Packed {
    Compress(Lookup(p.streams, Csid(m.kind)), Csid(m.kind), FreshHeader(m))
  }

  function BaseAfter(p: Packer, base: map<U32, U32>, m: Message): map<U32, U32> {
    var csid, c := Csid(m.kind), FirstChunk(p, m);
    var b := if csid in base then base[csid] else 0;
    base[csid := NextBase(b, c.stream.format, c.hdr)]
  }

  /** What arrives when m is sent: everything but the timestamp, which is the sender's stored clock
      seen through the base. */
  function Arrival(p: Packer, base: map<U32, U32>, m: Message): Message {
    m.(timestamp := Sub32(FirstChunk(p, m).stream.hdr.timestamp, BaseAfter(p, base, m)[Csid(m.kind)]))
  }

  /** The message's first header reads back exactly (see HeaderMirrorsIff). */
  predicate Sendable(p: Packer, m: Message) {
    && |m.payload| < 0x100_0000
    && Mirrors(FirstChunk(p, m).stream.format, FirstChunk(p, m).hdr)
  }

  lemma SubAdd(a: U32, b: U32, c: U32, d: U32, e: U32)
    requires d == Sub32(a, b)
    ensures Add32(d, Sub32(b, c)) == Sub32(a, c)
    ensures Add32(e, Sub32(b, c)) == Sub32(a, Add32(c, Sub32(d, e)))
  {
  }

  lemma FirstOpens(p: Packer, u: Unpacker, base: map<U32, U32>, m: Message)
    requires Sync(p, u, base) && !Refused(m) && m.payload != [] && Sendable(p, m)
    ensures var c := FirstChunk(p, m);
            var csid := Csid(m.kind);
            && Opens(u, csid, c.stream.format, c.hdr, Arrival(p, base, m))
            && ContFits(csid, c.hdr, m)
            && StreamSync(c.stream, Open(StreamOf(u, csid), c.stream.format,
                                         HeaderAsRead(c.stream.format, c.hdr)).stream.(remain := 0),
                          BaseAfter(p, base, m)[csid])
  {
    var csid, c := Csid(m.kind), FirstChunk(p, m);
    if c.stream.format == 1 || c.stream.format == 2 {
      var s := p.streams[csid];
      SubAdd(m.timestamp, s.hdr.timestamp, base[csid], c.hdr.timeDelta,
             HeaderAsRead(c.stream.format, c.hdr).timestamp);
    }
  }

  /** One message: it arrives whole, and the two sides are in step again. */
  lemma MessageInStep(p: Packer, u: Unpacker, base: map<U32, U32>, m: Message, rest: Bytes)
    requires Sync(p, u, base) && p.chunkSize == u.chunkSize >= 1
    requires !Refused(m) && m.payload != [] && Sendable(p, m)
    ensures var s := PackMessage(p, m);
            var o := GetMessage(u, s.bytes + rest);
            && o.res == Ok(Arrival(p, base, m)) && o.rest == rest
            && s.packer.chunkSize == o.unpacker.chunkSize == u.chunkSize
            && Sync(s.packer, o.unpacker, BaseAfter(p, base, m))
  {
    hide GetMessage, PackMessage, ContBytes, ContHeader, SerializeHeader, HeaderAsRead, Open, NextBase;
    var csid, c := Csid(m.kind), FirstChunk(p, m);
    PackShape(p, m);
    FirstOpens(p, u, base, m);
    WholeMessage(u, csid, c.stream.format, c.hdr, Arrival(p, base, m), rest);
  }
}
