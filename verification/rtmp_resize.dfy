/** In-band chunk size changes: exactly which of them the receiver understands. The message that announces a size is cut
    by that size already, and read by the old one. */
module RtmpResize {
  import opened ByteIO
  import opened RtmpChunk
  import opened RtmpPack
  import opened RtmpRoundTrip
  import opened RtmpRun

  // ---------------------------------------------------------------- bytes read against bytes held

  ghost predicate Holds(u: Unpacker, most: nat) {
    forall s :: s in u.collector ==> |u.collector[s].data| <= most
  }

  /** A chunk takes its data and at least one byte of header; at least 13 when it starts with a zero byte, which
      announces a two-byte chunk stream id and a full header. */
  lemma ChunkCosts(u: Unpacker, b: Bytes)
    requires ReadChunk(u, b).res.Ok?
    ensures var o := ReadChunk(u, b);
            && |o.res.value.data| + 1 <= |b| - |o.rest| && |b| > 0
            && (b[0] == 0 ==> |o.res.value.data| + 13 <= |b| - |o.rest|)
            && o.unpacker.collector == u.collector
  {
    var rb := ReadBasic(b);
    var rh := ReadMsgHeader(rb.value.format, rb.rest);
    HeaderCosts(rb.value.format, rb.rest);
    if b[0] == 0 {
      assert rb.value.format == 0 && |rb.rest| <= |b| - 2;
    }
  }

  lemma HeaderCosts(format: nat, b: Bytes)
    requires format < 4 && ReadMsgHeader(format, b).Got?
    ensures |ReadMsgHeader(format, b).rest| <= |b| && (format == 0 ==> |ReadMsgHeader(format, b).rest| + 11 <= |b|)
  {
  }

  /** One step: what is held, or delivered, grows by no more than the bytes read, less the header. */
  lemma StepCosts(u: Unpacker, b: Bytes, most: nat)
    requires Holds(u, most)
    ensures var o, v := Step(u, b), if |b| > 0 && b[0] == 0 then 13 else 1;
            && (o.res == Ok(None) ==> |b| - |o.rest| >= v && Holds(o.unpacker, most + |b| - |o.rest| - v))
            && (o.res.Ok? && o.res.value.Some? ==>
                  |b| - |o.rest| >= v && |o.res.value.value.payload| <= most + |b| - |o.rest| - v)
  {
    hide ReadChunk, Collect, CheckControl;
    var o := ReadChunk(u, b);
    if o.res.Ok? {
      ChunkCosts(u, b);
      CollectCosts(u.collector, o.res.value, most);
      var c := Collect(u.collector, o.res.value);
      if c.res.Ok? && c.res.value.Some? { CheckKeeps(o.res.value.csid, c); }
    }
  }

  lemma CollectCosts(streams: map<U32, MessageStream>, c: Chunk, most: nat)
    requires forall s :: s in streams ==> |streams[s].data| <= most
    ensures var r := Collect(streams, c);
            && (r.res == Ok(None) ==> forall s :: s in r.streams ==> |r.streams[s].data| <= most + |c.data|)
            && (r.res.Ok? && r.res.value.Some? ==> |r.res.value.value.payload| <= most + |c.data|)
  {
  }

  lemma CheckKeeps(csid: U32, c: Collected)
    requires c.res.Ok? && c.res.value.Some?
    ensures var r := CheckControl(csid, c.res.value.value); r.Ok? ==> r == c.res
  {
  }

  lemma {:induction false} MessageCosts(u: Unpacker, b: Bytes, most: nat)
    requires Holds(u, most) && GetMessage(u, b).res.Ok?
    ensures var o, v := GetMessage(u, b), if |b| > 0 && b[0] == 0 then 13 else 1;
            |o.res.value.payload| + v <= most + |b| - |o.rest|
    decreases |b|
  {
    hide Step, Holds;
    StepCosts(u, b, most);
    var s := Step(u, b);
    if s.res == Ok(None) {
      var v := if |b| > 0 && b[0] == 0 then 13 else 1;
      MessageCosts(s.unpacker, s.rest, most + |b| - |s.rest| - v);
    }
  }

  // ---------------------------------------------------------------- what is collected stays collected

  /** d has come in on message stream 0, and a message being collected knows its stream. */
  ghost predicate Collecting(u: Unpacker, d: Bytes) {
    && 0 in u.collector && u.collector[0].collecting && d <= u.collector[0].data
    && forall s :: s in u.collector && u.collector[s].collecting ==> u.collector[s].streamId == s
  }

  /** What a message on stream 0 must begin with. */
  predicate Begins(m: Message, d: Bytes) { m.streamId == 0 ==> d <= m.payload }

  lemma CollectKeeps(u: Unpacker, b: Bytes, d: Bytes)
    requires Collecting(u, d)
    ensures var o := Step(u, b);
            && (o.res == Ok(None) ==> Collecting(o.unpacker, d))
            && (o.res.Ok? && o.res.value.Some? ==> Begins(o.res.value.value, d))
  {
    hide ReadChunk;
    if ReadChunk(u, b).res.Ok? {
      ChunkCosts(u, b);
    }
  }

  lemma {:induction false} MessageKeeps(u: Unpacker, b: Bytes, d: Bytes)
    requires Collecting(u, d) && GetMessage(u, b).res.Ok?
    ensures Begins(GetMessage(u, b).res.value, d)
    decreases |b|
  {
    hide Step, Collecting, Begins;
    CollectKeeps(u, b, d);
    var s := Step(u, b);
    if s.res == Ok(None) {
      MessageKeeps(s.unpacker, s.rest, d);
    }
  }

  // ---------------------------------------------------------------- the size message on the wire

  /** The header of a four-byte control message on chunk stream 2. */
  function SizeHeader(): Bytes { SerializeHeader(0, 2, FreshHeader(NewSetChunkSize(1))) }

  /** What is sent is that header, again before every further piece. */
  lemma SizeBytes(p: Packer, n: Size)
    ensures var payload, k := PutU32BE(n), Min(4, n);
            PackMessage(p.(chunkSize := n), NewSetChunkSize(n)).bytes
            == SizeHeader() + payload[..k] + ContBytes(SizeHeader(), payload[k..], n)
    ensures |SizeHeader()| == 12 && SizeHeader()[0] == 2
  {
    PackShape(p.(chunkSize := n), NewSetChunkSize(n));
  }

  /** The receiver's first step, whatever four bytes the header is followed by. */
  lemma SizeOpens(p: Packer, u: Unpacker, base: map<U32, U32>, payload: Bytes, rest: Bytes)
    requires Sync(p, u, base) && u.chunkSize >= 1 && |payload| == 4
    ensures var m, n := Message(1, 0, 0, payload), Min(4, u.chunkSize);
            var s := Step(u, SizeHeader() + payload[..n] + rest);
            && s.rest == rest && s.res == Ok(if n == 4 then Some(m) else None)
            && (n < 4 ==> Holds(s.unpacker, n) && Collecting(s.unpacker, payload[..n]))
  {
    var m, n := Message(1, 0, 0, payload), Min(4, u.chunkSize);
    var h := FreshHeader(m);
    FirstOpens(p, u, base, m);
    FirstStep(u, 2, 0, h, m, rest);
  }

  // ---------------------------------------------------------------- when it is understood

  predicate Arrives(o: Outcome<Message>, m: Message, rest: Bytes) { o.res == Ok(m) && o.rest == rest }

  /** A receiver with larger chunks takes a header byte for payload. */
  lemma ReadsTooMuch(p: Packer, u: Unpacker, base: map<U32, U32>, n: Size, rest: Bytes)
    requires Sync(p, u, base) && n < u.chunkSize && n < 4
    ensures var m := NewSetChunkSize(n); GetMessage(u, PackMessage(p.(chunkSize := n), m).bytes + rest).res != Ok(m)
  {
    hide PackMessage, GetMessage, Sync, SizeHeader, ContBytes, PutU32BE;
    SizeBytes(p, n);
    NextHeader(n);
    var m, k := NewSetChunkSize(n), Min(4, u.chunkSize);
    var head, tail := m.payload[..n], ContBytes(SizeHeader(), m.payload[n..], n);
    After(head, tail, rest);
    Cut(SizeHeader(), head, tail, rest, k);
    Misread(p, u, base, head + tail + rest, n, m);
  }

  lemma NextHeader(n: Size)
    requires n < 4 && |SizeHeader()| == 12 && SizeHeader()[0] == 2
    ensures var tail := ContBytes(SizeHeader(), PutU32BE(n)[n..], n); |tail| >= 12 && tail[0] == 2
    ensures PutU32BE(n)[n] != 2
  {
    hide SizeHeader;
  }

  /** Where the payload byte should be, it finds a 2. */
  lemma Misread(p: Packer, u: Unpacker, base: map<U32, U32>, x: Bytes, n: nat, m: Message)
    requires Sync(p, u, base) && n < u.chunkSize && n < 4 <= |x| && x[n] == 2
    requires m.streamId == 0 && |m.payload| == 4 && m.payload[n] != 2
    ensures var k := Min(4, u.chunkSize); GetMessage(u, SizeHeader() + x[..k] + x[k..]).res != Ok(m)
  {
    hide GetMessage, Step, Sync, SizeHeader, Collecting, Holds;
    var k, payload := Min(4, u.chunkSize), x[..4];
    var b := SizeHeader() + x[..k] + x[k..];
    assert payload[..k] == x[..k] && payload[..k][n] == 2;
    SizeOpens(p, u, base, payload, x[k..]);
    Unfold(u, b);
    if k < 4 && GetMessage(u, b).res.Ok? {
      MessageKeeps(Step(u, b).unpacker, x[k..], payload[..k]);
    }
  }

  lemma After(head: Bytes, tail: Bytes, rest: Bytes)
    requires |tail| > 0
    ensures var x := head + tail + rest; |x| == |head| + |tail| + |rest| && x[|head|] == tail[0]
  {
  }

  lemma Cut(h: Bytes, head: Bytes, tail: Bytes, rest: Bytes, k: nat)
    requires k <= |head + tail + rest|
    ensures var x := head + tail + rest; h + head + tail + rest == h + x[..k] + x[k..]
  {
    var x := head + tail + rest;
    assert x == x[..k] + x[k..];
  }

  /** A receiver with smaller chunks takes payload for a header, and runs into what follows. */
  lemma ReadsTooLittle(p: Packer, u: Unpacker, base: map<U32, U32>, n: Size, rest: Bytes)
    requires Sync(p, u, base) && 1 <= u.chunkSize < n && u.chunkSize < 4
    ensures var m := NewSetChunkSize(n);
            !Arrives(GetMessage(u, PackMessage(p.(chunkSize := n), m).bytes + rest), m, rest)
  {
    hide PackMessage, GetMessage, Step, Sync, SerializeHeader, FreshHeader, SizeHeader, Holds, Collecting;
    SizeBytes(p, n);
    var m, a, j := NewSetChunkSize(n), u.chunkSize, Min(4, n);
    var head, tail := m.payload[..j], ContBytes(SizeHeader(), m.payload[j..], n);
    var x := head + tail + rest;
    var b := PackMessage(p.(chunkSize := n), m).bytes + rest;
    HeadOf(m.payload, j, tail, rest, a);
    Cut(SizeHeader(), head, tail, rest, a);
    SizeOpens(p, u, base, m.payload, x[a..]);
    Unfold(u, b);
    TailLength(n);
    if n < 4 { ZeroByte(n, a); }
    if GetMessage(u, b).res.Ok? {
      MessageCosts(Step(u, b).unpacker, x[a..], a);
    }
  }

  lemma HeadOf(payload: Bytes, j: nat, tail: Bytes, rest: Bytes, a: nat)
    requires a < j <= |payload|
    ensures var x := payload[..j] + tail + rest;
            |x| == j + |tail| + |rest| && x[..a] == payload[..a] && x[a..][0] == payload[a]
  {
    var x := payload[..j] + tail + rest;
    assert x == payload[..j] + (tail + rest);
  }

  lemma ZeroByte(n: Size, a: nat)
    requires a < n < 4
    ensures PutU32BE(n)[a] == 0
  {
  }

  lemma TailLength(n: Size)
    requires n >= 2 && |SizeHeader()| == 12
    ensures |ContBytes(SizeHeader(), PutU32BE(n)[Min(4, n)..], n)| == if n < 4 then 16 - n else 0
  {
    hide SizeHeader;
    if n < 4 {
      var last := PutU32BE(n)[n..];
      assert last[Min(|last|, n)..] == [];
      assert ContBytes(SizeHeader(), [], n) == [];
    }
  }

  /** A chunk size change is understood, and nothing after it disturbed, exactly when the size stays the same or both
      sizes cover the four bytes that announce it. */
  lemma ResizeArrivesIff(p: Packer, u: Unpacker, base: map<U32, U32>, n: Size, rest: Bytes)
    requires Sync(p, u, base) && p.chunkSize == u.chunkSize >= 1
    ensures var m := NewSetChunkSize(n);
            Arrives(GetMessage(u, PackMessage(p.(chunkSize := n), m).bytes + rest), m, rest)
            <==> n == u.chunkSize || (n >= 4 && u.chunkSize >= 4)
  {
    hide PackMessage, GetMessage, Sync;
    if n == u.chunkSize || (n >= 4 && u.chunkSize >= 4) {
      EventInStep(p, u, base, Resize(n), rest);
      assert Arrival(p, base, NewSetChunkSize(n)) == NewSetChunkSize(n);
    } else if n < u.chunkSize {
      ReadsTooMuch(p, u, base, n, rest);
    } else {
      ReadsTooLittle(p, u, base, n, rest);
    }
  }
}
