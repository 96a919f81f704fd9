/** Chunk headers on the wire: what protocol/rtmp/chunk.go writes and what it reads back.
    Readers return the unread rest of the input; a read past the end is `Short`. */
module RtmpChunk {
  import opened ByteIO

  datatype Failure = Short | BadCsid | BadControlCsid | BadControlStream | Panicked
  datatype Result<+T> = Ok(value: T) | Err(failure: Failure)

  datatype MsgHeader = MsgHeader(
    timestamp: U32, length: U32, kind: Byte, exted: bool, timeDelta: U32, streamId: U32)

  const EMPTY_HEADER := MsgHeader(0, 0, 0, false, 0, 0)

  /** A value read, and what is left of the input. */
  datatype Read<+T> = Got(value: T, rest: Bytes) | Missing

  function ReadFull(b: Bytes, n: nat): (r: Read<Bytes>)
    ensures r.Got? <==> n <= |b|
    ensures r.Got? ==> |r.value| == n && r.value + r.rest == b
  {
    if n <= |b| then Got(b[..n], b[n..]) else Missing
  }

  // ---- basic header

  function SerializeBasic(format: nat, csid: U32): (b: Bytes)
    requires format < 4
    ensures |b| >= 1
  {
    if csid < 64 then [format * 64 + csid]
    else if csid < 256 + 64 then [format * 64, (csid - 63) % 0x100]
    else [format * 64 + 1, (csid - 63 - 63) % 0x100, (csid - 63) % 0x100, (csid - 63) / 0x100 % 0x100]
  }

  datatype Basic = Basic(format: nat, csid: U32)

  function ReadBasic(b: Bytes): (r: Read<Basic>)
    ensures r.Got? ==> r.value.format < 4 && r.value.csid >= 2 && |r.rest| < |b|
  {
    if |b| < 1 then Missing
    else
      var format, low := b[0] / 64, b[0] % 64;
      if low == 0 then
        if |b| < 2 then Missing else Got(Basic(format, b[1] as int + 64), b[2..])
      else if low == 1 then
        if |b| < 3 then Missing else Got(Basic(format, U16BE(b[1..3]) + 64), b[3..])
      else Got(Basic(format, low), b[1..])
  }

  // ---- message headers

  function SerializeNoStreamId(h: MsgHeader): (b: Bytes)
    ensures |b| == 7
  {
    PutU24BE(h.timeDelta) + PutU24BE(h.length) + [h.kind]
  }

  function SerializeType0(h: MsgHeader): Bytes {
    SerializeNoStreamId(h) + PutU32LE(h.streamId) +
    (if h.timestamp > 0xffffff then PutU32BE(h.timestamp) else [])
  }

  function SerializeType1(h: MsgHeader): Bytes {
    SerializeNoStreamId(h) + (if h.timestamp > 0xffffff then PutU32BE(h.timeDelta) else [])
  }

  function SerializeDelta(delta: U32): Bytes {
    if delta < 0xffffff then PutU24BE(delta) else [0xff, 0xff, 0xff] + PutU32BE(delta)
  }

  /** The header bytes of a chunk in one of the four formats, basic header included. */
  function SerializeHeader(format: nat, csid: U32, h: MsgHeader): (b: Bytes)
    requires format < 4
    ensures |b| >= 1
  {
    SerializeBasic(format, csid) +
    match format
    case 0 => SerializeType0(h)
    case 1 => SerializeType1(h)
    case 2 => SerializeDelta(h.timeDelta)
    case _ => []
  }

  /** A 24-bit field of all ones announces a 32-bit one after the header. */
  function ReadExtended(h: MsgHeader, b: Bytes): (r: Read<MsgHeader>)
    ensures r.Got? ==> |r.rest| <= |b|
  {
    if h.timestamp != 0xffffff then Got(h, b)
    else match ReadFull(b, 4)
      case Missing => Missing
      case Got(t, rest) => Got(h.(timestamp := U32BE(t), exted := true), rest)
  }

  function ReadMsgHeader(format: nat, b: Bytes): (r: Read<MsgHeader>)
    requires format < 4
    ensures r.Got? ==> |r.rest| <= |b|
  {
    match format
    case 0 => (match ReadFull(b, 11)
               case Missing => Missing
               case Got(f, rest) =>
                 ReadExtended(MsgHeader(U24BE(f[..3]), U24BE(f[3..6]), f[6], false, 0, U32LE(f[7..])), rest))
    case 1 => (match ReadFull(b, 7)
               case Missing => Missing
               case Got(f, rest) =>
                 ReadExtended(MsgHeader(U24BE(f[..3]), U24BE(f[3..6]), f[6], false, 0, 0), rest))
    case 2 => (match ReadFull(b, 3)
               case Missing => Missing
               case Got(f, rest) => ReadExtended(EMPTY_HEADER.(timestamp := U24BE(f)), rest))
    case _ => Got(EMPTY_HEADER, b)
  }

  // ---- when reading undoes writing

  /** Basic headers survive exactly for the one-byte chunk stream ids. */
  lemma BasicMirrorsIff(format: nat, csid: U32, rest: Bytes)
    requires format < 4
    ensures ReadBasic(SerializeBasic(format, csid) + rest) == Got(Basic(format, csid), rest)
            <==> 2 <= csid < 64
  {
    var b := SerializeBasic(format, csid) + rest;
    if csid < 64 {
      assert b[1..] == rest;
    } else if csid >= 320 {
      assert b[0] % 64 == 1;
      assert |b[3..]| == |rest| + 1;
    }
  }

  /** What a reader reconstructs from a written header that `Mirrors`: the 24-bit field carries the delta. */
  function HeaderAsRead(format: nat, h: MsgHeader): MsgHeader
    requires format < 4
  {
    match format
    case 0 => MsgHeader(h.timeDelta, h.length, h.kind, h.timeDelta == 0xffffff, 0, h.streamId)
    case 1 => MsgHeader(if h.timestamp > 0xffffff then h.timeDelta else h.timeDelta % 0x100_0000,
                        h.length, h.kind, h.timestamp > 0xffffff, 0, 0)
    case 2 => EMPTY_HEADER.(timestamp := h.timeDelta, exted := h.timeDelta >= 0xffffff)
    case _ => EMPTY_HEADER
  }

  /** The writer extends the header when the absolute timestamp exceeds 24 bits; the reader expects an
      extension when the 24-bit field is all ones. The two agree exactly here. A type 0 header
      is written with the delta of a fresh message, which is 0. */
  predicate Mirrors(format: nat, h: MsgHeader) {
    match format
    case 0 => h.timestamp <= 0xffffff
    case 1 => h.timestamp > 0xffffff <==> h.timeDelta % 0x100_0000 == 0xffffff
    case _ => true
  }

  lemma ReadNoStreamId(h: MsgHeader, tail: Bytes)
    ensures var b := SerializeNoStreamId(h) + tail;
            U24BE(b[..3]) == h.timeDelta % 0x100_0000 && U24BE(b[3..6]) == h.length % 0x100_0000
            && b[6] == h.kind && b[7..] == tail
  {
    var b := SerializeNoStreamId(h) + tail;
    GetPutU24BE(h.timeDelta);
    GetPutU24BE(h.length);
    assert b[..3] == PutU24BE(h.timeDelta) && b[3..6] == PutU24BE(h.length);
  }

  lemma ReadType0(h: MsgHeader, rest: Bytes)
    requires h.length < 0x100_0000 && h.timeDelta == 0
    ensures Mirrors(0, h) ==> ReadMsgHeader(0, SerializeType0(h) + rest) == Got(HeaderAsRead(0, h), rest)
    ensures !Mirrors(0, h) ==> var r := ReadMsgHeader(0, SerializeType0(h) + rest);
                               r.Got? && |r.rest| == |rest| + 4
  {
    hide SerializeNoStreamId, PutU32LE, U24BE, U32LE;
    var ext := if h.timestamp > 0xffffff then PutU32BE(h.timestamp) else [];
    var b := SerializeType0(h) + rest;
    var tail := PutU32LE(h.streamId) + (ext + rest);
    assert b == SerializeNoStreamId(h) + tail;
    ReadNoStreamId(h, tail);
    FieldsOfTake(b, 11);
    Seam(PutU32LE(h.streamId), ext + rest);
    SliceOfDrop(b, 7, 0, 4);
    SliceOfDrop(b, 7, 4, 4);
    GetPutU32LE(h.streamId);
  }

  lemma FieldsOfTake(b: Bytes, n: nat)
    requires 7 <= n <= |b|
    ensures var f := b[..n]; f[..3] == b[..3] && f[3..6] == b[3..6] && f[6] == b[6] && f[7..] == b[7..n]
  {
    SliceOfTake(b, n, 0, 3);
    SliceOfTake(b, n, 3, 6);
  }

  lemma ReadType1(h: MsgHeader, rest: Bytes)
    requires h.length < 0x100_0000
    ensures Mirrors(1, h) ==> ReadMsgHeader(1, SerializeType1(h) + rest) == Got(HeaderAsRead(1, h), rest)
    ensures !Mirrors(1, h) ==> var r := ReadMsgHeader(1, SerializeType1(h) + rest);
                               r == Missing || |r.rest| != |rest|
  {
    hide SerializeNoStreamId, PutU32BE, U24BE, U32BE;
    var ext := if h.timestamp > 0xffffff then PutU32BE(h.timeDelta) else [];
    var b := SerializeType1(h) + rest;
    assert b == SerializeNoStreamId(h) + (ext + rest);
    ReadNoStreamId(h, ext + rest);
    FieldsOfTake(b, 7);
    Seam(ext, rest);
    GetPutU32BE(h.timeDelta);
  }

  /** The delta a type 1 header is read with, mirrored or not: the 24-bit field, unless it is all ones; then the four
      bytes after the header, whether they are an extension or not. */
  lemma DeltaAsRead(h: MsgHeader, rest: Bytes)
    ensures var low, r := h.timeDelta % 0x100_0000, ReadMsgHeader(1, SerializeType1(h) + rest);
            && (low != 0xffffff ==> r.Got? && r.value.timestamp == low)
            && (low == 0xffffff && h.timestamp > 0xffffff ==> r.Got? && r.value.timestamp == h.timeDelta)
            && (low == 0xffffff && h.timestamp <= 0xffffff ==>
                  && (r.Got? <==> |rest| >= 4)
                  && (r.Got? ==> r.value.timestamp == U32BE(rest[..4])))
  {
    hide SerializeNoStreamId, PutU32BE, U24BE, U32BE;
    var ext := if h.timestamp > 0xffffff then PutU32BE(h.timeDelta) else [];
    var b := SerializeType1(h) + rest;
    assert b == SerializeNoStreamId(h) + (ext + rest);
    ReadNoStreamId(h, ext + rest);
    FieldsOfTake(b, 7);
    Seam(ext, rest);
    GetPutU32BE(h.timeDelta);
    assert ext == [] ==> ext + rest == rest;
  }

  lemma ReadType2(h: MsgHeader, rest: Bytes)
    ensures ReadMsgHeader(2, SerializeDelta(h.timeDelta) + rest) == Got(HeaderAsRead(2, h), rest)
  {
    var b := SerializeDelta(h.timeDelta) + rest;
    GetPutU24BE(h.timeDelta);
    GetPutU32BE(h.timeDelta);
    if h.timeDelta < 0xffffff {
      Seam(PutU24BE(h.timeDelta), rest);
    } else {
      assert b[..3] == [0xff, 0xff, 0xff];
      assert b[3..] == PutU32BE(h.timeDelta) + rest;
      Seam(PutU32BE(h.timeDelta), rest);
    }
  }

  /** A whole chunk header: reading it back consumes exactly its bytes if and only if `Mirrors`. */
  lemma HeaderMirrorsIff(format: nat, csid: U32, h: MsgHeader, rest: Bytes)
    requires format < 4 && 2 <= csid < 64
    requires h.length < 0x100_0000 && (format == 0 ==> h.timeDelta == 0)
    ensures var rb := ReadBasic(SerializeHeader(format, csid, h) + rest);
            && rb.Got? && rb.value == Basic(format, csid)
            && var rh := ReadMsgHeader(format, rb.rest);
            && (Mirrors(format, h) <==> rh.Got? && rh.rest == rest)
            && (Mirrors(format, h) ==> rh.value == HeaderAsRead(format, h))
  {
    var body := match format
      case 0 => SerializeType0(h)
      case 1 => SerializeType1(h)
      case 2 => SerializeDelta(h.timeDelta)
      case _ => [];
    assert SerializeHeader(format, csid, h) + rest == SerializeBasic(format, csid) + (body + rest);
    BasicMirrorsIff(format, csid, body + rest);
    match format {
      case 0 => ReadType0(h, rest);
      case 1 => ReadType1(h, rest);
      case 2 => ReadType2(h, rest);
      case _ => assert body + rest == rest;
    }
  }
}
