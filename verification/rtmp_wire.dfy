/** What the packer puts on the wire, byte for byte, told from the sender's state before a message
    (sections 5.3.1.1 to 5.3.1.3 of the RTMP specification 1.0). */
module RtmpWire {
  import opened ByteIO
  import opened RtmpChunk
  import opened RtmpPack
  import opened RtmpRoundTrip
  import opened RtmpRun

  // ---------------------------------------------------------------- which header

  /** The chunk stream a message type goes out on. */
  function WireStream(kind: Byte): U32 {
    if kind == 9 then 6 else if kind in {8, 15, 18} then 4 else if kind in {17, 20} then 3 else 2
  }

  /** Messages of types 1 to 6 belong on message stream 0. */
  predicate Misplaced(m: Message) { 1 <= m.kind <= 6 && m.streamId != 0 }

  /** Protocol control other than user control: a full header on every chunk. */
  predicate FullAlways(m: Message) { WireStream(m.kind) == 2 && m.streamId == 0 && m.kind < 7 && m.kind != 4 }

  /** Nothing on the chunk stream can be taken for granted. */
  predicate Restarts(p: Packer, m: Message) {
    var c := WireStream(m.kind);
    c !in p.streams || FullAlways(m) || p.streams[c].hdr.streamId != m.streamId
  }

  predicate SameShape(p: Packer, m: Message)
    requires !Restarts(p, m)
  {
    var h := p.streams[WireStream(m.kind)].hdr;
    h.length == |m.payload| % 0x1_0000_0000 && h.kind == m.kind
  }

  function Elapsed(p: Packer, m: Message): U32
    requires !Restarts(p, m)
  {
    (m.timestamp - p.streams[WireStream(m.kind)].hdr.timestamp) % 0x1_0000_0000
  }

  predicate SameStep(p: Packer, m: Message)
    requires !Restarts(p, m)
  {
    var h := p.streams[WireStream(m.kind)].hdr;
    h.timestamp == m.timestamp || h.timeDelta == Elapsed(p, m)
  }

  /** The header a message opens with. */
  function Opening(p: Packer, m: Message): (b: Bytes)
    ensures |b| > 0
  {
    var c := WireStream(m.kind);
    if Restarts(p, m) then
      [c, 0, 0, 0] + PutU24BE(|m.payload|) + [m.kind] + PutU32LE(m.streamId)
      + (if m.timestamp > 0xffffff then PutU32BE(m.timestamp) else [])
    else if !SameShape(p, m) then
      [0x40 + c] + PutU24BE(Elapsed(p, m)) + PutU24BE(|m.payload|) + [m.kind]
      + (if m.timestamp > 0xffffff then PutU32BE(Elapsed(p, m)) else [])
    else if SameStep(p, m) then [0xc0 + c]
    else if Elapsed(p, m) < 0xffffff then [0x80 + c] + PutU24BE(Elapsed(p, m))
    else [0x80 + c, 0xff, 0xff, 0xff] + PutU32BE(Elapsed(p, m))
  }

  /** The header of every further chunk. */
  function Further(p: Packer, m: Message): Bytes {
    if FullAlways(m) then Opening(p, m) else [0xc0 + WireStream(m.kind)]
  }

  /** What the sender remembers of the chunk stream afterwards. */
  predicate Remembers(p: Packer, m: Message, h: MsgHeader) {
    && h.length == |m.payload| % 0x1_0000_0000 && h.kind == m.kind && h.streamId == m.streamId
    && if Restarts(p, m) then h.timestamp == m.timestamp && h.timeDelta == 0
       else if SameShape(p, m) && SameStep(p, m) then
         var h0 := p.streams[WireStream(m.kind)].hdr; h.timestamp == h0.timestamp && h.timeDelta == h0.timeDelta
       else h.timestamp == m.timestamp && h.timeDelta == Elapsed(p, m)
  }

  /** A message on the wire: nothing at all if it is empty or misplaced; otherwise the opening header, then the payload
      cut every chunk size bytes with a further header before each cut; and one chunk stream remembers it. */
  predicate OnWire(p: Packer, m: Message, s: Sent)
    requires p.chunkSize >= 1
  {
    if Misplaced(m) || m.payload == [] then s == Sent(p, [])
    else
      var c, n := WireStream(m.kind), Min(|m.payload|, p.chunkSize);
      && s.bytes == Opening(p, m) + m.payload[..n] + ContBytes(Further(p, m), m.payload[n..], p.chunkSize)
      && s.packer.chunkSize == p.chunkSize && c in s.packer.streams
      && s.packer.streams == p.streams[c := s.packer.streams[c]] && Remembers(p, m, s.packer.streams[c].hdr)
  }

  // ---------------------------------------------------------------- the packer does that

  lemma PackedOnWire(p: Packer, m: Message)
    requires p.chunkSize >= 1
    ensures OnWire(p, m, PackMessage(p, m))
  {
    if !Misplaced(m) && m.payload != [] {
      PackShape(p, m);
      OpeningIs(p, m);
      FurtherIs(p, m);
      RemembersIs(p, m);
      hide PackMessage, Opening, Further, ContBytes, Remembers, SerializeHeader, ContHeader;
    }
  }

  lemma OpeningIs(p: Packer, m: Message)
    ensures var c := FirstChunk(p, m); Opening(p, m) == SerializeHeader(c.stream.format, Csid(m.kind), c.hdr)
  {
    hide PutU24BE, PutU32BE, PutU32LE, SerializeHeader;
    var c, csid := FirstChunk(p, m), Csid(m.kind);
    LowLength(|m.payload|);
    Spelled(csid, c.hdr);
  }

  /** The four formats, spelled out. */
  lemma Spelled(csid: U32, h: MsgHeader)
    requires csid < 64
    ensures h.timeDelta == 0 ==>
              SerializeHeader(0, csid, h)
              == [csid, 0, 0, 0] + PutU24BE(h.length) + [h.kind] + PutU32LE(h.streamId)
                 + (if h.timestamp > 0xffffff then PutU32BE(h.timestamp) else [])
    ensures SerializeHeader(1, csid, h)
            == [0x40 + csid] + PutU24BE(h.timeDelta) + PutU24BE(h.length) + [h.kind]
               + (if h.timestamp > 0xffffff then PutU32BE(h.timeDelta) else [])
    ensures SerializeHeader(2, csid, h)
            == if h.timeDelta < 0xffffff then [0x80 + csid] + PutU24BE(h.timeDelta)
               else [0x80 + csid, 0xff, 0xff, 0xff] + PutU32BE(h.timeDelta)
    ensures SerializeHeader(3, csid, h) == [0xc0 + csid]
  {
    ZeroField();
    hide PutU24BE, PutU32BE, PutU32LE;
    assert [csid, 0, 0, 0] == [csid] + [0, 0, 0];
    assert [0x80 + csid, 0xff, 0xff, 0xff] == [0x80 + csid] + [0xff, 0xff, 0xff];
  }

  /** Only the low three bytes of a length are written. */
  lemma LowLength(n: nat)
    ensures PutU24BE(n % 0x1_0000_0000) == PutU24BE(n)
  {
    var q, r := n / 0x1_0000_0000, n % 0x1_0000_0000;
    assert n == q * 0x1_0000_0000 + r;
    LowByte(q, r);
    NextByte(q, r / 0x100);
    LastByte(q, r / 0x100 / 0x100);
  }

  lemma LowByte(q: nat, r: nat)
    ensures (q * 0x1_0000_0000 + r) % 0x100 == r % 0x100
    ensures (q * 0x1_0000_0000 + r) / 0x100 == q * 0x100_0000 + r / 0x100
  {
  }

  lemma NextByte(q: nat, r: nat)
    ensures (q * 0x100_0000 + r) % 0x100 == r % 0x100 && (q * 0x100_0000 + r) / 0x100 == q * 0x1_0000 + r / 0x100
  {
  }

  lemma LastByte(q: nat, r: nat)
    ensures (q * 0x1_0000 + r) % 0x100 == r % 0x100
  {
  }

  lemma ZeroField()
    ensures PutU24BE(0) == [0, 0, 0]
  {
  }

  lemma FurtherIs(p: Packer, m: Message)
    ensures Further(p, m) == ContHeader(Csid(m.kind), FirstChunk(p, m).hdr)
  {
    hide Opening;
    OpeningIs(p, m);
  }

  lemma RemembersIs(p: Packer, m: Message)
    ensures Remembers(p, m, FirstChunk(p, m).stream.hdr)
  {
  }

  // ---------------------------------------------------------------- reading the law off the first byte

  /** The first byte: the format by what the chunk stream remembers, the chunk stream by the message type. And the
      length of the header, by format and extension. */
  lemma FirstByte(p: Packer, m: Message)
    requires p.chunkSize >= 1 && m.payload != [] && !Misplaced(m)
    ensures var b := PackMessage(p, m).bytes;
            && b != [] && b[0] % 64 == WireStream(m.kind)
            && (b[0] / 64 == 0 <==> Restarts(p, m))
            && (!Restarts(p, m) ==>
                  && (b[0] / 64 == 1 <==> !SameShape(p, m))
                  && (b[0] / 64 == 3 <==> SameShape(p, m) && SameStep(p, m))
                  && (b[0] / 64 == 2 <==> SameShape(p, m) && !SameStep(p, m)))
    ensures var b, n := PackMessage(p, m).bytes, Min(|m.payload|, p.chunkSize);
            var k := [12, 8, 4, 1][b[0] / 64]
                     + if b[0] / 64 < 2 && m.timestamp > 0xffffff then 4
                       else if b[0] / 64 == 2 && Elapsed(p, m) >= 0xffffff then 4 else 0;
            k + n <= |b| && b[k..k + n] == m.payload[..n]
  {
    hide PackMessage, PutU24BE, PutU32BE, PutU32LE;
    PackedOnWire(p, m);
    var n := Min(|m.payload|, p.chunkSize);
    Within(Opening(p, m), m.payload[..n], ContBytes(Further(p, m), m.payload[n..], p.chunkSize));
  }

  lemma Within(x: Bytes, y: Bytes, z: Bytes)
    requires |x| > 0
    ensures var b := x + y + z; |b| == |x| + |y| + |z| && b[0] == x[0] && b[|x|..|x| + |y|] == y
  {
  }

  // ---------------------------------------------------------------- every message of every run

  /** In the bytes of a run, event k's message stands as OnWire says in the state the events before it leave. */
  lemma {:induction false} RunOnWire(p: Packer, base: map<U32, U32>, evs: seq<Event>, k: nat)
    requires p.chunkSize >= 1 && k < |evs|
    ensures var t, before := Run(p, base, evs), Run(p, base, evs[..k]);
            var q := Sized(before.packer, evs[k]);
            && q.chunkSize >= 1
            && var s := PackMessage(q, MessageOf(evs[k]));
            && OnWire(q, MessageOf(evs[k]), s)
            && before.bytes + s.bytes <= t.bytes && Run(p, base, evs[..k + 1]).packer == s.packer
    decreases |evs|
  {
    hide PackMessage, OnWire, BaseAfter, Arrival;
    var m := MessageOf(evs[0]);
    var s := PackMessage(Sized(p, evs[0]), m);
    var base1 := if Emits(m) then BaseAfter(p, base, m) else base;
    if k == 0 {
      PackedOnWire(Sized(p, evs[0]), m);
      assert evs[..1][1..] == [] && evs[..0] == [] && [] + s.bytes == s.bytes;
    } else {
      assert evs[..k][1..] == evs[1..][..k - 1] && evs[..k + 1][1..] == evs[1..][..k];
      RunOnWire(s.packer, base1, evs[1..], k - 1);
      var b, x := Run(s.packer, base1, evs[1..][..k - 1]).bytes, Run(s.packer, base1, evs[1..]).bytes;
      var q := Sized(Run(s.packer, base1, evs[1..][..k - 1]).packer, evs[k]);
      PrefixAfter(s.bytes, b, PackMessage(q, MessageOf(evs[k])).bytes, x);
    }
  }

  lemma PrefixAfter(a: Bytes, b: Bytes, c: Bytes, x: Bytes)
    requires b + c <= x
    ensures (a + b) + c <= a + x
  {
    Assoc(a, b, c);
    assert a + (b + c) == (a + x)[..|a| + |b + c|];
  }

  /** Two one-byte video messages 10 ms apart, byte for byte. */
  lemma VideosSpelled(x: Byte)
    ensures var p, a, b := Packer(128, map[]), Message(9, 0, 1, [x]), Message(9, 10, 1, [x]);
            var s := PackMessage(p, a);
            && s.bytes == [0x06, 0, 0, 0, 0, 0, 1, 9, 1, 0, 0, 0, x]
            && PackMessage(s.packer, b).bytes == [0x86, 0, 0, 10, x]
  {
    hide PackMessage;
    var p, a, b := Packer(128, map[]), Message(9, 0, 1, [x]), Message(9, 10, 1, [x]);
    PackedOnWire(p, a);
    PackedOnWire(PackMessage(p, a).packer, b);
    assert [x][..1] == [x] && [x][1..] == [];
  }

  /** A chunk size change to 4096. */
  lemma ResizeSpelled()
    ensures PackMessage(Packer(4096, map[]), NewSetChunkSize(4096)).bytes
            == [0x02, 0, 0, 0, 0, 0, 4, 1, 0, 0, 0, 0, 0, 0, 0x10, 0]
  {
    hide PackMessage;
    var p, m := Packer(4096, map[]), NewSetChunkSize(4096);
    PackedOnWire(p, m);
    assert m.payload[..4] == m.payload == [0, 0, 0x10, 0] && m.payload[4..] == [];
    assert Opening(p, m) == [0x02, 0, 0, 0] + PutU24BE(4) + [1] + PutU32LE(0) + [];
    assert PutU24BE(4) == [0, 0, 4] && PutU32LE(0) == [0, 0, 0, 0];
    hide Opening, PutU24BE, PutU32LE;
  }
}
