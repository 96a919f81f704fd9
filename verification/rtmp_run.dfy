/** Whole runs: any number of messages and in-band chunk size changes. */
module RtmpRun {
  import opened ByteIO
  import opened RtmpChunk
  import opened RtmpPack
  import opened RtmpRoundTrip

  type Size = x: int | 1 <= x < 0x1_0000_0000 witness 128

  /** What an endpoint does: send a message, or adopt a chunk size and announce it
      (protocol/rtmp/clientHandler.go:234-235). */
  datatype Event = Send(message: Message) | Resize(size: Size)

  function MessageOf(e: Event): Message {
    if e.Send? then e.message else NewSetChunkSize(e.size)
  }

  function Sized(p: Packer, e: Event): Packer {
    if e.Send? then p else p.(chunkSize := e.size)
  }

  /** Something reaches the wire. */
  predicate Emits(m: Message) { !Refused(m) && m.payload != [] }

  /** An event the two sides survive. A set-chunk-size message is cut by the new size and read by the
      old one: by PiecesAgreeIff these must be equal or both cover its four bytes. */
  predicate Safe(p: Packer, e: Event) {
    match e
    case Send(m) => Emits(m) ==> m.kind != 1 && Sendable(p, m)
    case Resize(n) => n == p.chunkSize || (n >= 4 && p.chunkSize >= 4)
  }

  lemma PiecesAgreeIff(payload: Bytes, a: Size, b: Size)
    ensures Pieces(payload, a) == Pieces(payload, b) <==> a == b || |payload| <= Min(a, b)
  {
    var pa, pb := Pieces(payload, a), Pieces(payload, b);
    if a != b && |payload| > Min(a, b) {
      assert pa[0] == if |payload| <= a then payload else payload[..a];
      assert pb[0] == if |payload| <= b then payload else payload[..b];
      assert |pa[0]| != |pb[0]|;
    }
  }

  /** A run's trace: the sender at the end, how far each receiving clock is behind, the bytes on the wire
      and the messages a receiver should see. */
  datatype Trace = Trace(packer: Packer, base: map<U32, U32>, bytes: Bytes, arrivals: seq<Message>)

  function Run(p: Packer, base: map<U32, U32>, evs: seq<Event>): Trace
    requires p.chunkSize >= 1
    decreases |evs|
  {
    if |evs| == 0 then Trace(p, base, [], [])
    else
      var m := MessageOf(evs[0]);
      var s := PackMessage(Sized(p, evs[0]), m);
      var t := Run(s.packer, if Emits(m) then BaseAfter(p, base, m) else base, evs[1..]);
      t.(bytes := s.bytes + t.bytes, arrivals := (if Emits(m) then [Arrival(p, base, m)] else []) + t.arrivals)
  }

  predicate SafeRun(p: Packer, evs: seq<Event>)
    requires p.chunkSize >= 1
    decreases |evs|
  {
    |evs| == 0 ||
    (Safe(p, evs[0]) && SafeRun(PackMessage(Sized(p, evs[0]), MessageOf(evs[0])).packer, evs[1..]))
  }

  lemma {:induction false} PackIgnoresSize(p: Packer, n: U32, csid: U32, h: MsgHeader, ps: seq<Bytes>)
    ensures var s := PackPieces(p, csid, h, ps);
            PackPieces(p.(chunkSize := n), csid, h, ps) == s.(packer := s.packer.(chunkSize := n))
    decreases |ps|
  {
    if |ps| > 0 {
      var c := Compress(Lookup(p.streams, csid), csid, h);
      PackIgnoresSize(p.(streams := p.streams[csid := c.stream]), n, csid, c.hdr, ps[1..]);
    }
  }

  /** One event, seen from the receiver. */
  lemma EventInStep(p: Packer, u: Unpacker, base: map<U32, U32>, e: Event, rest: Bytes)
    requires Sync(p, u, base) && p.chunkSize == u.chunkSize >= 1 && Safe(p, e) && Emits(MessageOf(e))
    ensures var m := MessageOf(e);
            var s := PackMessage(Sized(p, e), m);
            var o := GetMessage(u, s.bytes + rest);
            && o.res == Ok(Arrival(p, base, m)) && o.rest == rest && s.bytes != []
            && o.unpacker.chunkSize == u.chunkSize
            && Sync(s.packer, o.unpacker, BaseAfter(p, base, m))
  {
    hide GetMessage, SerializeHeader;
    var m := MessageOf(e);
    assert e.Resize? ==> Sendable(p, m);
    MessageInStep(p, u, base, m, rest);
    PackShape(p, m);
    if e.Resize? {
      PiecesAgreeIff(m.payload, p.chunkSize, e.size);
      PackIgnoresSize(p, e.size, Csid(m.kind), FreshHeader(m), Pieces(m.payload, e.size));
    }
  }

  /** One message off the front of a drain. */
  lemma DrainOne(u: Unpacker, b: Bytes, m: Message, u1: Unpacker)
    requires b != [] && GetMessage(u, b).res == Ok(m) && (m.kind == 1 ==> |m.payload| == 4)
    requires u1 == var v := GetMessage(u, b).unpacker;
                   if m.kind == 1 then v.(chunkSize := U32BE(m.payload)) else v
    ensures var d := Drain(u1, GetMessage(u, b).rest);
            Drain(u, b) == d.(messages := [m] + d.messages)
  {
    hide GetMessage;
    assert m.kind == 1 ==> m.payload[..4] == m.payload;
  }

  /** The sender/receiver simulation over any safe run. */
  lemma {:induction false} RunInStep(p: Packer, u: Unpacker, base: map<U32, U32>, evs: seq<Event>)
    requires Sync(p, u, base) && p.chunkSize == u.chunkSize >= 1 && SafeRun(p, evs)
    ensures var t := Run(p, base, evs);
            var d := Drain(u, t.bytes);
            && d.messages == t.arrivals && d.failure == None
            && Sync(t.packer, d.unpacker, t.base) && t.packer.chunkSize == d.unpacker.chunkSize
    decreases |evs|
  {
    hide GetMessage, PackMessage, Arrival, BaseAfter, Sync, Sendable;
    if |evs| == 0 {
      return;
    }
    hide Drain;
    var e, m := evs[0], MessageOf(evs[0]);
    var s := PackMessage(Sized(p, e), m);
    if Emits(m) {
      var base1 := BaseAfter(p, base, m);
      var tail := Run(s.packer, base1, evs[1..]);
      EventInStep(p, u, base, e, tail.bytes);
      var u1 := GetMessage(u, s.bytes + tail.bytes).unpacker;
      ArrivalKeepsContents(p, base, m);
      if e.Resize? {
        GetPutU32BE(e.size);
        SyncIgnoresSize(s.packer, u1, base1, e.size);
        u1 := u1.(chunkSize := e.size);
      }
      DrainOne(u, s.bytes + tail.bytes, Arrival(p, base, m), u1);
      RunInStep(s.packer, u1, base1, evs[1..]);
    } else {
      SilentMessage(p, m);
      RunInStep(s.packer, u, base, evs[1..]);
      var tail := Run(p, base, evs[1..]);
      assert [] + tail.bytes == tail.bytes && [] + tail.arrivals == tail.arrivals;
    }
  }

  lemma ArrivalKeepsContents(p: Packer, base: map<U32, U32>, m: Message)
    ensures Arrival(p, base, m) == m.(timestamp := Arrival(p, base, m).timestamp)
  {
  }

  lemma SyncIgnoresSize(p: Packer, u: Unpacker, base: map<U32, U32>, n: U32)
    requires Sync(p, u, base)
    ensures Sync(p, u.(chunkSize := n), base)
  {
  }

  lemma SilentMessage(p: Packer, m: Message)
    requires p.chunkSize >= 1 && !Emits(m)
    ensures PackMessage(p, m) == Sent(p, [])
  {
  }

  // ---------------------------------------------------------------- what arrives

  /** The messages that reach the wire. */
  function Emitted(evs: seq<Event>): seq<Message> {
    if |evs| == 0 then []
    else (if Emits(MessageOf(evs[0])) then [MessageOf(evs[0])] else []) + Emitted(evs[1..])
  }

  /** Same messages in the same order, but for their timestamps. */
  ghost predicate SameContents(got: seq<Message>, sent: seq<Message>) {
    |got| == |sent| && forall i :: 0 <= i < |got| ==> got[i] == sent[i].(timestamp := got[i].timestamp)
  }

  lemma {:induction false} ArrivalsAreEmitted(p: Packer, base: map<U32, U32>, evs: seq<Event>)
    requires p.chunkSize >= 1
    ensures SameContents(Run(p, base, evs).arrivals, Emitted(evs))
    decreases |evs|
  {
    hide PackMessage, Arrival, BaseAfter;
    if |evs| > 0 {
      var m := MessageOf(evs[0]);
      ArrivalKeepsContents(p, base, m);
      ArrivalsAreEmitted(PackMessage(Sized(p, evs[0]), m).packer,
                         if Emits(m) then BaseAfter(p, base, m) else base, evs[1..]);
    }
  }

  const NO_STREAMS: map<U32, ChunkStream> := map[]
  const NO_BASES: map<U32, U32> := map[]
  const NO_COLLECTORS: map<U32, MessageStream> := map[]

  /** From fresh endpoints with any common chunk size: every message that was sent arrives, in order,
      payload for payload, and no error or panic is met. */
  lemma RoundTrip(size: Size, evs: seq<Event>)
    requires SafeRun(Packer(size, NO_STREAMS), evs)
    ensures var t := Run(Packer(size, NO_STREAMS), NO_BASES, evs);
            var d := Drain(Unpacker(NO_STREAMS, size, NO_COLLECTORS), t.bytes);
            && SameContents(d.messages, Emitted(evs)) && d.failure == None
            && d.unpacker.chunkSize == t.packer.chunkSize
  {
    RunInStep(Packer(size, NO_STREAMS), Unpacker(NO_STREAMS, size, NO_COLLECTORS), NO_BASES, evs);
    ArrivalsAreEmitted(Packer(size, NO_STREAMS), NO_BASES, evs);
  }

  // ---------------------------------------------------------------- clocks

  /** Timestamps below 0xffffff that never decrease on a chunk stream, except for the control messages whose
      headers are never compressed; payloads below 2^24; chunk sizes that cover a size message. */
  predicate WellTimed(size: U32, last: map<U32, U32>, evs: seq<Event>)
    decreases |evs|
  {
    if |evs| == 0 then true
    else
      var m := MessageOf(evs[0]);
      var c := Csid(m.kind);
      && (evs[0].Resize? ==> evs[0].size == size || (evs[0].size >= 4 && size >= 4))
      && (Emits(m) ==>
            && (evs[0].Send? ==> m.kind != 1)
            && |m.payload| < 0x100_0000 && m.timestamp < 0xffffff
            && (c in last && !AlwaysFull(c, FreshHeader(m)) ==> last[c] <= m.timestamp))
      && WellTimed(if evs[0].Send? then size else evs[0].size,
                   if Emits(m) then last[c := m.timestamp] else last, evs[1..])
  }

  /** The clock a chunk stream stores is that of some message no later than the last one. */
  predicate NotAhead(p: Packer, last: map<U32, U32>) {
    forall c :: c in p.streams ==> c in last && p.streams[c].hdr.timestamp <= last[c]
  }

  /** The timestamp of each chunk stream's last type 0 message. */
  function LastFull(p: Packer, base: map<U32, U32>, evs: seq<Event>): map<U32, U32>
    requires p.chunkSize >= 1
    decreases |evs|
  {
    if |evs| == 0 then base
    else
      var m := MessageOf(evs[0]);
      var b := if Emits(m) && (FirstChunk(p, m).stream.format == 0) then base[Csid(m.kind) := m.timestamp] else base;
      LastFull(PackMessage(Sized(p, evs[0]), m).packer, b, evs[1..])
  }

  /** For headers that mirror: the lag after a type 1 header. */
  lemma BaseKeptIff(base: U32, h: MsgHeader)
    ensures NextBase(base, 1, h) == base <==> h.timestamp > 0xffffff || h.timeDelta < 0x100_0000
  {
  }

  /** Sender and receiver move their stored clocks alike, when the receiver has read this header. */
  predicate MovesAlike(s: ChunkStream, s1: ChunkStream, r: ChunkStream, read: MsgHeader) {
    var r1 := Open(r, 1, read).stream;
    Sub32(s1.hdr.timestamp, r1.hdr.timestamp) == Sub32(s.hdr.timestamp, r.hdr.timestamp)
  }

  lemma MovesAlikeIff(s: ChunkStream, s1: ChunkStream, r: ChunkStream, read: MsgHeader)
    ensures MovesAlike(s, s1, r, read) <==> read.timestamp == Sub32(s1.hdr.timestamp, s.hdr.timestamp)
  {
  }

  /** Drift on a type 1 header, as the receiver reads it from the wire. With d the time since the sender's stored clock:
      unless the low 24 bits of d are all ones, the clocks move alike exactly when d fits them, whether the header was
      extended or not. If they are all ones, the reader takes the next four bytes: the clocks move alike exactly when
      those are the extension, which is written for a timestamp over 0xffffff, or happen to spell d. */
  lemma NoDriftIff(s: ChunkStream, r: ChunkStream, csid: U32, h: MsgHeader, rest: Bytes)
    requires Compress(Some(s), csid, h).stream.format == 1
    ensures var c, d := Compress(Some(s), csid, h), Sub32(h.timestamp, s.hdr.timestamp);
            var read := ReadMsgHeader(1, SerializeType1(c.hdr) + rest);
            var ones := d % 0x100_0000 == 0xffffff;
            && (read.Missing? <==> ones && h.timestamp <= 0xffffff && |rest| < 4)
            && (read.Got? ==>
                  (MovesAlike(s, c.stream, r, read.value) <==>
                     if ones then h.timestamp > 0xffffff || U32BE(rest[..4]) == d else d < 0x100_0000))
  {
    hide ReadMsgHeader, SerializeType1, U32BE, MovesAlike;
    var c := Compress(Some(s), csid, h);
    DeltaAsRead(c.hdr, rest);
    var read := ReadMsgHeader(1, SerializeType1(c.hdr) + rest);
    if read.Got? { MovesAlikeIff(s, c.stream, r, read.value); }
  }

  /** From a stored clock of 0, a message of another length stamped 0x1000005: the receiver's clock moves by 5, and the
      four extension bytes are left in the way. */
  lemma ExtendedDeltaDrifts(r: ChunkStream, rest: Bytes)
    ensures var s := ChunkStream(0, MsgHeader(0, 1, 9, false, 0, 1), 0);
            var c := Compress(Some(s), 6, MsgHeader(0x100_0005, 2, 9, true, 0, 1));
            var read := ReadMsgHeader(1, SerializeType1(c.hdr) + rest);
            && c.stream.format == 1 && c.stream.hdr.timestamp == 0x100_0005
            && read.Got? && read.value.timestamp == 5 && |read.rest| != |rest|
            && !MovesAlike(s, c.stream, r, read.value)
  {
    hide ReadMsgHeader, SerializeType1;
    var s, h := ChunkStream(0, MsgHeader(0, 1, 9, false, 0, 1), 0), MsgHeader(0x100_0005, 2, 9, true, 0, 1);
    var c := Compress(Some(s), 6, h);
    DeltaAsRead(c.hdr, rest);
    ReadType1(c.hdr, rest);
    MovesAlikeIff(s, c.stream, r, ReadMsgHeader(1, SerializeType1(c.hdr) + rest).value);
  }

  lemma TimedStep(p: Packer, base: map<U32, U32>, last: map<U32, U32>, m: Message)
    requires NotAhead(p, last) && p.streams.Keys == base.Keys
    requires |m.payload| < 0x100_0000 && m.timestamp < 0xffffff
    requires Csid(m.kind) in last && !AlwaysFull(Csid(m.kind), FreshHeader(m)) ==> last[Csid(m.kind)] <= m.timestamp
    ensures Sendable(p, m)
    ensures BaseAfter(p, base, m) ==
            if FirstChunk(p, m).stream.format == 0 then base[Csid(m.kind) := m.timestamp] else base
    ensures FirstChunk(p, m).stream.hdr.timestamp <= m.timestamp
  {
    var c := FirstChunk(p, m);
    if c.stream.format == 1 {
      assert c.hdr.timeDelta < 0xffffff;
      BaseKeptIff(base[Csid(m.kind)], c.hdr);
    }
  }

  lemma TimedPack(p: Packer, e: Event, base: map<U32, U32>, last: map<U32, U32>)
    requires p.chunkSize >= 1 && NotAhead(p, last) && p.streams.Keys == base.Keys && Emits(MessageOf(e))
    requires FirstChunk(p, MessageOf(e)).stream.hdr.timestamp <= MessageOf(e).timestamp
    ensures var m := MessageOf(e);
            var p1 := PackMessage(Sized(p, e), m).packer;
            NotAhead(p1, last[Csid(m.kind) := m.timestamp]) && p1.streams.Keys == BaseAfter(p, base, m).Keys
  {
    hide PackMessage, SerializeHeader, Compress, NextBase;
    PackShape(Sized(p, e), MessageOf(e));
  }

  /** Well-timed runs are safe, and the receiver's clock never drifts: on every chunk stream it stays behind the
      sender's by exactly the timestamp of the last type 0 message. */
  lemma {:induction false} WellTimedInStep(p: Packer, base: map<U32, U32>, last: map<U32, U32>, evs: seq<Event>)
    requires p.chunkSize >= 1 && NotAhead(p, last) && p.streams.Keys == base.Keys
    requires WellTimed(p.chunkSize, last, evs)
    ensures SafeRun(p, evs)
    ensures Run(p, base, evs).base == LastFull(p, base, evs)
    decreases |evs|
  {
    hide PackMessage, FirstChunk, BaseAfter, Sendable, NotAhead;
    if |evs| > 0 {
      var m := MessageOf(evs[0]);
      var p1 := PackMessage(Sized(p, evs[0]), m).packer;
      if Emits(m) {
        TimedStep(p, base, last, m);
        TimedPack(p, evs[0], base, last);
        WellTimedInStep(p1, BaseAfter(p, base, m), last[Csid(m.kind) := m.timestamp], evs[1..]);
      } else {
        SilentMessage(p, m);
        WellTimedInStep(p1, base, last, evs[1..]);
      }
    }
  }

  /** The main theorem on its documented domain: contents, order, clocks. */
  lemma WellTimedRoundTrip(size: Size, evs: seq<Event>)
    requires WellTimed(size, map[], evs)
    ensures var p, u := Packer(size, NO_STREAMS), Unpacker(NO_STREAMS, size, NO_COLLECTORS);
            var t := Run(p, NO_BASES, evs);
            var d := Drain(u, t.bytes);
            && SameContents(d.messages, Emitted(evs)) && d.failure == None
            && Sync(t.packer, d.unpacker, LastFull(p, NO_BASES, evs))
  {
    var p, u := Packer(size, NO_STREAMS), Unpacker(NO_STREAMS, size, NO_COLLECTORS);
    WellTimedInStep(p, NO_BASES, map[], evs);
    RunInStep(p, u, NO_BASES, evs);
    ArrivalsAreEmitted(p, NO_BASES, evs);
  }

  /** Whether a message will keep its timestamp, told from the sender's state before it: on a new or restarted chunk
      stream it must be stamped 0; otherwise the stream must have been started by a message stamped 0, and the message
      must not repeat the length, the type and the time step of the ones before it. */
  predicate KeepsTimestamp(p: Packer, base: map<U32, U32>, m: Message)
    requires p.streams.Keys == base.Keys
  {
    var c := Csid(m.kind);
    if c !in p.streams || AlwaysFull(c, FreshHeader(m)) || p.streams[c].hdr.streamId != m.streamId then m.timestamp == 0
    else
      var h := p.streams[c].hdr;
      base[c] == 0 && !(h.length == |m.payload| && h.kind == m.kind && h.timestamp != m.timestamp
                        && h.timeDelta == Sub32(m.timestamp, h.timestamp))
  }

  /** Bases are timestamps of messages, so below 0xffffff. */
  predicate LowBases(base: map<U32, U32>) { forall c :: c in base ==> base[c] < 0xffffff }

  /** The next message arrives with its timestamp exactly when KeepsTimestamp. */
  lemma TimestampExactIff(p: Packer, base: map<U32, U32>, last: map<U32, U32>, m: Message)
    requires NotAhead(p, last) && p.streams.Keys == base.Keys && LowBases(base)
    requires |m.payload| < 0x100_0000 && m.timestamp < 0xffffff
    requires Csid(m.kind) in last && !AlwaysFull(Csid(m.kind), FreshHeader(m)) ==> last[Csid(m.kind)] <= m.timestamp
    ensures Arrival(p, base, m) == m <==> KeepsTimestamp(p, base, m)
    ensures LowBases(BaseAfter(p, base, m))
  {
    TimedStep(p, base, last, m);
    var c, b := FirstChunk(p, m), BaseAfter(p, base, m)[Csid(m.kind)];
    assert c.stream.hdr.timestamp <= m.timestamp < 0xffffff && b < 0xffffff;
  }

  /** Every message that reaches the wire keeps its timestamp. */
  predicate AllKept(p: Packer, base: map<U32, U32>, evs: seq<Event>)
    requires p.chunkSize >= 1
    decreases |evs|
  {
    |evs| == 0 ||
    (var m := MessageOf(evs[0]);
     && (Emits(m) ==> p.streams.Keys == base.Keys && KeepsTimestamp(p, base, m))
     && AllKept(PackMessage(Sized(p, evs[0]), m).packer, if Emits(m) then BaseAfter(p, base, m) else base, evs[1..]))
  }

  /** In a well-timed run from any state: the message of event k, and the state it finds. */
  lemma {:induction false} ArrivalExactIff(
    p: Packer, base: map<U32, U32>, last: map<U32, U32>, evs: seq<Event>, k: nat)
    requires p.chunkSize >= 1 && NotAhead(p, last) && p.streams.Keys == base.Keys && LowBases(base)
    requires WellTimed(p.chunkSize, last, evs) && k < |evs| && Emits(MessageOf(evs[k]))
    ensures var t, before, i := Run(p, base, evs), Run(p, base, evs[..k]), |Emitted(evs[..k])|;
            && i < |t.arrivals| && before.packer.streams.Keys == before.base.Keys
            && (t.arrivals[i] == MessageOf(evs[k]) <==> KeepsTimestamp(before.packer, before.base, MessageOf(evs[k])))
    decreases |evs|
  {
    hide PackMessage, FirstChunk, BaseAfter, NotAhead, Arrival, KeepsTimestamp, LowBases;
    var m := MessageOf(evs[0]);
    var p1 := PackMessage(Sized(p, evs[0]), m).packer;
    if Emits(m) {
      TimedStep(p, base, last, m);
      TimedPack(p, evs[0], base, last);
      TimestampExactIff(p, base, last, m);
    } else {
      SilentMessage(p, m);
    }
    if k > 0 {
      assert evs[..k][0] == evs[0] && evs[..k][1..] == evs[1..][..k - 1];
      if Emits(m) {
        ArrivalExactIff(p1, BaseAfter(p, base, m), last[Csid(m.kind) := m.timestamp], evs[1..], k - 1);
      } else {
        ArrivalExactIff(p1, base, last, evs[1..], k - 1);
      }
    }
  }

  lemma {:induction false} WellTimedPrefix(size: U32, last: map<U32, U32>, evs: seq<Event>, k: nat)
    requires WellTimed(size, last, evs) && k <= |evs|
    ensures WellTimed(size, last, evs[..k])
    decreases |evs|
  {
    if k > 0 {
      var m := MessageOf(evs[0]);
      assert evs[..k][0] == evs[0] && evs[..k][1..] == evs[1..][..k - 1];
      WellTimedPrefix(if evs[0].Send? then size else evs[0].size,
                      if Emits(m) then last[Csid(m.kind) := m.timestamp] else last, evs[1..], k - 1);
    }
  }

  /** Timestamps over whole runs between fresh endpoints: the message of event k is delivered exactly as it was sent if
      and only if KeepsTimestamp, in the state the events before it leave. */
  lemma DeliveredExactIff(size: Size, evs: seq<Event>, k: nat)
    requires WellTimed(size, map[], evs) && k < |evs| && Emits(MessageOf(evs[k]))
    ensures var p, u := Packer(size, NO_STREAMS), Unpacker(NO_STREAMS, size, NO_COLLECTORS);
            var got := Drain(u, Run(p, NO_BASES, evs).bytes).messages;
            var sender, base := Run(p, NO_BASES, evs[..k]).packer, LastFull(p, NO_BASES, evs[..k]);
            && |Emitted(evs[..k])| < |got| && sender.streams.Keys == base.Keys
            && (got[|Emitted(evs[..k])|] == MessageOf(evs[k]) <==> KeepsTimestamp(sender, base, MessageOf(evs[k])))
  {
    hide KeepsTimestamp;
    var p, u := Packer(size, NO_STREAMS), Unpacker(NO_STREAMS, size, NO_COLLECTORS);
    WellTimedPrefix(size, map[], evs, k);
    WellTimedInStep(p, NO_BASES, map[], evs);
    WellTimedInStep(p, NO_BASES, map[], evs[..k]);
    RunInStep(p, u, NO_BASES, evs);
    ArrivalExactIff(p, NO_BASES, map[], evs, k);
  }

  lemma {:induction false} ArrivalsExactIff(p: Packer, base: map<U32, U32>, last: map<U32, U32>, evs: seq<Event>)
    requires p.chunkSize >= 1 && NotAhead(p, last) && p.streams.Keys == base.Keys && LowBases(base)
    requires WellTimed(p.chunkSize, last, evs)
    ensures Run(p, base, evs).arrivals == Emitted(evs) <==> AllKept(p, base, evs)
    decreases |evs|
  {
    hide PackMessage, FirstChunk, BaseAfter, NotAhead, Arrival, KeepsTimestamp, LowBases;
    if |evs| > 0 {
      var m := MessageOf(evs[0]);
      var p1 := PackMessage(Sized(p, evs[0]), m).packer;
      if Emits(m) {
        TimedStep(p, base, last, m);
        TimedPack(p, evs[0], base, last);
        TimestampExactIff(p, base, last, m);
        ArrivalsExactIff(p1, BaseAfter(p, base, m), last[Csid(m.kind) := m.timestamp], evs[1..]);
        ConsEqual(Arrival(p, base, m), Run(p1, BaseAfter(p, base, m), evs[1..]).arrivals, m, Emitted(evs[1..]));
      } else {
        SilentMessage(p, m);
        ArrivalsExactIff(p1, base, last, evs[1..]);
        assert [] + Run(p, base, evs[1..]).arrivals == Run(p, base, evs[1..]).arrivals;
        assert [] + Emitted(evs[1..]) == Emitted(evs[1..]);
      }
    }
  }

  lemma ConsEqual(x: Message, xs: seq<Message>, y: Message, ys: seq<Message>)
    ensures [x] + xs == [y] + ys <==> x == y && xs == ys
  {
    var a, b := [x] + xs, [y] + ys;
    assert a[0] == x && b[0] == y && a[1..] == xs && b[1..] == ys;
  }

  /** Between fresh endpoints a well-timed run is delivered exactly as it was sent, timestamps included, if and only if
      every message keeps its timestamp. */
  lemma RunExactIff(size: Size, evs: seq<Event>)
    requires WellTimed(size, map[], evs)
    ensures var p, u := Packer(size, NO_STREAMS), Unpacker(NO_STREAMS, size, NO_COLLECTORS);
            Drain(u, Run(p, NO_BASES, evs).bytes).messages == Emitted(evs) <==> AllKept(p, NO_BASES, evs)
  {
    var p, u := Packer(size, NO_STREAMS), Unpacker(NO_STREAMS, size, NO_COLLECTORS);
    WellTimedInStep(p, NO_BASES, map[], evs);
    RunInStep(p, u, NO_BASES, evs);
    ArrivalsExactIff(p, NO_BASES, map[], evs);
  }

  /** Three equal-sized video messages 10 ms apart: the third takes the equal-delta path, and arrives
      carrying the second one's timestamp. */
  lemma EqualDeltaIsLate(x: Byte)
    ensures var evs := [Send(Message(9, 0, 1, [x])), Send(Message(9, 10, 1, [x])), Send(Message(9, 20, 1, [x]))];
            && WellTimed(128, map[], evs)
            && Run(Packer(128, NO_STREAMS), NO_BASES, evs).arrivals
               == [Message(9, 0, 1, [x]), Message(9, 10, 1, [x]), Message(9, 10, 1, [x])]
  {
    hide SerializeHeader;
    var a, b, c := Message(9, 0, 1, [x]), Message(9, 10, 1, [x]), Message(9, 20, 1, [x]);
    var p0 := Packer(128, NO_STREAMS);
    PackShape(p0, a);
    var p1, b1 := PackMessage(p0, a).packer, BaseAfter(p0, NO_BASES, a);
    PackShape(p1, b);
    var p2, b2 := PackMessage(p1, b).packer, BaseAfter(p1, b1, b);
    assert Arrival(p0, NO_BASES, a) == a && Arrival(p1, b1, b) == b && Arrival(p2, b2, c) == b;
    var evs := [Send(a), Send(b), Send(c)];
    assert evs[1..] == [Send(b), Send(c)];
    assert Run(p2, b2, [Send(c)]).arrivals == [b];
    assert [Send(b), Send(c)][1..] == [Send(c)];
    assert Run(p1, b1, [Send(b), Send(c)]).arrivals == [b, b];
    assert WellTimed(128, map[6 := 10], [Send(c)]);
    assert map[6 := 0][6 := 10] == map[6 := 10];
    assert WellTimed(128, map[6 := 0], [Send(b), Send(c)]);
  }
}
