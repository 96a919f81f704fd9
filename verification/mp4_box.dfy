/** Movie fragment boxes on disk: container/mp4/box.go, commonContainer.go and moofBox.go
    (ISO/IEC 14496-12, sections 4.2, 8.8.4, 8.8.7, 8.8.8 and 8.8.12). */
module Mp4Box {
  import opened ByteIO

  type U24 = x: int | 0 <= x < 0x100_0000

  const MOOF: U32 := 0x6d6f6f66
  const MFHD: U32 := 0x6d666864
  const TRAF: U32 := 0x74726166
  const TFHD: U32 := 0x74666864
  const TFDT: U32 := 0x74666474
  const TRUN: U32 := 0x7472756e
  const MDAT: U32 := 0x6d646174

  /** The other box types the program has a parser for; this model has none. */
  const OTHERS: set<U32> := {
    0x66747970, 0x73747970, 0x73696478, 0x6d766864, 0x7472616b, 0x746b6864, 0x65647473, 0x6d646961, 0x6d646864,
    0x68646c72, 0x6d696e66, 0x766d6864, 0x64696e66, 0x64726566, 0x6d766578, 0x75647461, 0x7374626c, 0x73747364,
    0x73747473, 0x73747363, 0x7374737a, 0x73747a32, 0x7374636f, 0x656c7374, 0x74726578, 0x6d657461, 0x75726c20,
    0x75726e20, 0x61766331, 0x6d703461, 0x68657631, 0x70617370, 0x65736473, 0x736d6864, 0x6d667261, 0x74667261,
    0x6d66726f }

  datatype Sample = Sample(duration: U32, size: U32, flags: U32, offset: U32, signedOffset: int)

  /** A box as held in memory, with its declared size. */
  datatype Box =
    | Mfhd(size: U64, version: Byte, flags: U24, sequence: U32)
    | Tfhd(size: U64, version: Byte, flags: U24, track: U32, base: U64, description: U32, duration: U32,
           sampleSize: U32, sampleFlags: U32)
    | Tfdt(size: U64, version: Byte, flags: U24, time: U64)
    | Trun(size: U64, version: Byte, flags: U24, count: U32, dataOffset: U32, firstFlags: U32, samples: seq<Sample>)
    | Container(kind: U32, size: U64, children: seq<Box>)
    | Unknown(kind: U32, size: U64, raw: Bytes)

  predicate Has(flags: U24, bit: nat)
    requires bit > 0
  {
    flags / bit % 2 == 1
  }

  function Kind(b: Box): U32 {
    match b
    case Mfhd(_, _, _, _) => MFHD
    case Tfhd(_, _, _, _, _, _, _, _, _) => TFHD
    case Tfdt(_, _, _, _) => TFDT
    case Trun(_, _, _, _, _, _, _) => TRUN
    case Container(k, _, _) => k
    case Unknown(k, _, _) => k
  }

  // ---------------------------------------------------------------- writing

  function BoxHeader(size: U64, kind: U32): (h: Bytes)
    ensures |h| == if size > 0xFFFF_FFFF then 16 else 8
  {
    if size > 0xFFFF_FFFF then PutU32BE(1) + PutU32BE(kind) + PutU64BE(size) else PutU32BE(size) + PutU32BE(kind)
  }

  function FullHeader(version: Byte, flags: U24): (h: Bytes)
    ensures |h| == 4
  {
    [version] + PutU24BE(flags)
  }

  function Opt(present: bool, v: U32): Bytes { if present then PutU32BE(v) else [] }
  function Opt64(present: bool, v: U64): Bytes { if present then PutU64BE(v) else [] }

  function SerializeSample(flags: U24, s: Sample): Bytes {
    Opt(Has(flags, 0x100), s.duration) +
    (Opt(Has(flags, 0x200), s.size) + (Opt(Has(flags, 0x400), s.flags) + Opt(Has(flags, 0x800), s.offset)))
  }

  function SerializeSamples(flags: U24, samples: seq<Sample>): Bytes {
    if |samples| == 0 then [] else SerializeSample(flags, samples[0]) + SerializeSamples(flags, samples[1..])
  }

  function TfhdBody(b: Box): Bytes
    requires b.Tfhd?
  {
    PutU32BE(b.track) +
    (Opt64(Has(b.flags, 1), b.base) +
     (Opt(Has(b.flags, 2), b.description) +
      (Opt(Has(b.flags, 8), b.duration) +
       (Opt(Has(b.flags, 0x10), b.sampleSize) + Opt(Has(b.flags, 0x20), b.sampleFlags)))))
  }

  function TrunBody(b: Box): Bytes
    requires b.Trun?
  {
    PutU32BE(b.count) +
    (Opt(Has(b.flags, 1), b.dataOffset) + (Opt(Has(b.flags, 4), b.firstFlags) + SerializeSamples(b.flags, b.samples)))
  }

  /** What follows the box header. */
  function Body(b: Box): Bytes
    decreases b, 1
  {
    match b
    case Mfhd(_, v, f, n) => FullHeader(v, f) + PutU32BE(n)
    case Tfhd(_, v, f, _, _, _, _, _, _) => FullHeader(v, f) + TfhdBody(b)
    case Tfdt(_, v, f, t) => FullHeader(v, f) + (if v == 0 then PutU32BE(t % 0x1_0000_0000) else PutU64BE(t))
    case Trun(_, v, f, _, _, _, _) => FullHeader(v, f) + TrunBody(b)
    case Container(_, _, children) => SerializeAll(children)
    case Unknown(_, _, raw) => raw
  }

  function Serialize(b: Box): (s: Bytes)
    ensures |s| >= 8
    decreases b, 2
  {
    BoxHeader(b.size, Kind(b)) + Body(b)
  }

  function SerializeAll(bs: seq<Box>): Bytes
    decreases bs, 0
  {
    if |bs| == 0 then [] else Serialize(bs[0]) + SerializeAll(bs[1..])
  }

  // ---------------------------------------------------------------- reading

  datatype Failure = Short | LargeSize | BadVersion | BadFlags | Panicked | NotModelled

  /** A value, the number of bytes its parser reports having read, and the unread input. */
  datatype Parsed<+T> = Got(value: T, used: nat, rest: Bytes) | Failed(why: Failure)

  function Take(b: Bytes, n: nat): (r: Parsed<Bytes>)
    ensures r.Got? ==> r.used == n == |r.value| && |r.rest| == |b| - n
  {
    if n <= |b| then Got(b[..n], n, b[n..]) else Failed(Short)
  }

  function TakeU32(b: Bytes): (r: Parsed<U32>)
    ensures r.Got? ==> r.used == 4 && |r.rest| == |b| - 4
  {
    match Take(b, 4)
    case Failed(w) => Failed(w)
    case Got(v, n, rest) => Got(U32BE(v), n, rest)
  }

  function TakeOpt(present: bool, b: Bytes): (r: Parsed<U32>)
    ensures r.Got? ==> |r.rest| == |b| - r.used
  {
    if present then TakeU32(b) else Got(0, 0, b)
  }

  function TakeOpt64(present: bool, b: Bytes): (r: Parsed<U64>)
    ensures r.Got? ==> |r.rest| == |b| - r.used
  {
    if !present then Got(0, 0, b)
    else match Take(b, 8)
      case Failed(w) => Failed(w)
      case Got(v, n, rest) => Got(U64BE(v), n, rest)
  }

  datatype Full = Full(version: Byte, flags: U24)

  function TakeFull(b: Bytes): (r: Parsed<Full>)
    ensures r.Got? ==> |r.rest| == |b| - r.used
  {
    match Take(b, 4)
    case Failed(w) => Failed(w)
    case Got(v, n, rest) => Got(Full(v[0], U24BE(v[1..])), n, rest)
  }

  function Int32(v: U32): int { if v < 0x8000_0000 then v else v - 0x1_0000_0000 }

  function ParseSample(flags: U24, b: Bytes): (r: Parsed<Sample>)
    ensures r.Got? ==> |r.rest| == |b| - r.used
  {
    match TakeOpt(Has(flags, 0x100), b)
    case Failed(w) => Failed(w)
    case Got(d, n1, b1) =>
      match TakeOpt(Has(flags, 0x200), b1)
      case Failed(w) => Failed(w)
      case Got(s, n2, b2) =>
        match TakeOpt(Has(flags, 0x400), b2)
        case Failed(w) => Failed(w)
        case Got(f, n3, b3) =>
          match TakeOpt(Has(flags, 0x800), b3)
          case Failed(w) => Failed(w)
          case Got(o, n4, b4) => Got(Sample(d, s, f, o, Int32(o)), n1 + n2 + n3 + n4, b4)
  }

  function ParseSamples(flags: U24, n: nat, b: Bytes): (r: Parsed<seq<Sample>>)
    ensures r.Got? ==> |r.rest| == |b| - r.used && |r.value| == n
  {
    if n == 0 then Got([], 0, b)
    else match ParseSample(flags, b)
      case Failed(w) => Failed(w)
      case Got(s, n1, b1) =>
        match ParseSamples(flags, n - 1, b1)
        case Failed(w) => Failed(w)
        case Got(ss, n2, b2) => Got([s] + ss, n1 + n2, b2)
  }

  function ParseMfhd(size: U64, b: Bytes): (r: Parsed<Box>)
    ensures r.Got? ==> |r.rest| == |b| - r.used
  {
    match TakeFull(b)
    case Failed(w) => Failed(w)
    case Got(full, n1, b1) =>
      if full.version != 0 then Failed(BadVersion)
      else if full.flags != 0 then Failed(BadFlags)
      else match TakeU32(b1)
        case Failed(w) => Failed(w)
        case Got(n, n2, b2) => Got(Mfhd(size, full.version, full.flags, n), n1 + n2, b2)
  }

  function ParseTfhd(size: U64, b: Bytes): (r: Parsed<Box>)
    ensures r.Got? ==> |r.rest| == |b| - r.used
  {
    match TakeFull(b)
    case Failed(w) => Failed(w)
    case Got(full, n0, b0) =>
      if full.version != 0 then Failed(BadVersion)
      else match TakeU32(b0)
        case Failed(w) => Failed(w)
        case Got(track, n1, b1) =>
          match TakeOpt64(Has(full.flags, 1), b1)
          case Failed(w) => Failed(w)
          case Got(base, n2, b2) =>
            match ParseDefaults(full.flags, b2)
            case Failed(w) => Failed(w)
            case Got((d, u, z, f), n3, b3) =>
              Got(Tfhd(size, full.version, full.flags, track, base, d, u, z, f), n0 + n1 + n2 + n3, b3)
  }

  function ParseDefaults(flags: U24, b: Bytes): (r: Parsed<(U32, U32, U32, U32)>)
    ensures r.Got? ==> |r.rest| == |b| - r.used
  {
    match TakeOpt(Has(flags, 2), b)
    case Failed(w) => Failed(w)
    case Got(d, n1, b1) =>
      match TakeOpt(Has(flags, 8), b1)
      case Failed(w) => Failed(w)
      case Got(u, n2, b2) =>
        match TakeOpt(Has(flags, 0x10), b2)
        case Failed(w) => Failed(w)
        case Got(z, n3, b3) =>
          match TakeOpt(Has(flags, 0x20), b3)
          case Failed(w) => Failed(w)
          case Got(f, n4, b4) => Got((d, u, z, f), n1 + n2 + n3 + n4, b4)
  }

  function ParseTfdt(size: U64, b: Bytes): (r: Parsed<Box>)
    ensures r.Got? ==> |r.rest| == |b| - r.used
  {
    match TakeFull(b)
    case Failed(w) => Failed(w)
    case Got(full, n1, b1) =>
      if full.flags != 0 then Failed(BadFlags)
      else if full.version == 1 then
        match TakeOpt64(true, b1)
        case Failed(w) => Failed(w)
        case Got(t, n2, b2) => Got(Tfdt(size, full.version, full.flags, t), n1 + n2, b2)
      else
        match TakeU32(b1)
        case Failed(w) => Failed(w)
        case Got(t, n2, b2) => Got(Tfdt(size, full.version, full.flags, t), n1 + n2, b2)
  }

  function ParseTrun(size: U64, b: Bytes): (r: Parsed<Box>)
    ensures r.Got? ==> |r.rest| == |b| - r.used
  {
    match TakeFull(b)
    case Failed(w) => Failed(w)
    case Got(full, n0, b0) =>
      match TakeU32(b0)
      case Failed(w) => Failed(w)
      case Got(count, n1, b1) =>
        match TakeOpt(Has(full.flags, 1), b1)
        case Failed(w) => Failed(w)
        case Got(o, n2, b2) =>
          match TakeOpt(Has(full.flags, 4), b2)
          case Failed(w) => Failed(w)
          case Got(f, n3, b3) =>
            match ParseSamples(full.flags, count, b3)
            case Failed(w) => Failed(w)
            case Got(ss, n4, b4) =>
              Got(Trun(size, full.version, full.flags, count, o, f, ss), n0 + n1 + n2 + n3 + n4, b4)
  }

  /** parseChildBox: a box header, then the parser for its type. */
  function ParseBox(b: Bytes): (r: Parsed<Box>)
    ensures r.Got? ==> |r.rest| == |b| - r.used && r.used >= 8
    decreases |b|, 0
  {
    if |b| < 8 then Failed(Short)
    else
      var size, kind, body := U32BE(b[..4]), U32BE(b[4..8]), b[8..];
      if size == 1 && kind != MDAT then Failed(LargeSize)
      else
        match (if kind == MOOF || kind == TRAF then ParseContainer(size, kind, body)
               else if kind == MFHD then ParseMfhd(size, body)
               else if kind == TFHD then ParseTfhd(size, body)
               else if kind == TFDT then ParseTfdt(size, body)
               else if kind == TRUN then ParseTrun(size, body)
               else if kind in OTHERS then Failed(NotModelled)
               else ParseUnknown(size, kind, body))
        case Failed(w) => Failed(w)
        case Got(x, n, rest) => Got(x, 8 + n, rest)
  }

  function ParseUnknown(size: U64, kind: U32, b: Bytes): (r: Parsed<Box>)
    ensures r.Got? ==> |r.rest| == |b| - r.used
  {
    if size < 8 then Failed(Panicked)
    else match Take(b, size - 8)
      case Failed(w) => Failed(w)
      case Got(raw, n, rest) => Got(Unknown(kind, size, raw), n, rest)
  }

  function ParseContainer(size: U64, kind: U32, b: Bytes): (r: Parsed<Box>)
    ensures r.Got? ==> |r.rest| == |b| - r.used
    decreases |b|, 2
  {
    match ParseAll(b, size - 8)
    case Failed(w) => Failed(w)
    case Got(cs, n, rest) => Got(Container(kind, size, cs), n, rest)
  }

  /** The child loop: until the declared size is used up. It ends, since every child takes at least 8 bytes. */
  function ParseAll(b: Bytes, remain: int): (r: Parsed<seq<Box>>)
    ensures r.Got? ==> |r.rest| == |b| - r.used
    decreases |b|, 1
  {
    if remain <= 0 then Got([], 0, b)
    else match ParseBox(b)
      case Failed(w) => Failed(w)
      case Got(c, n1, b1) =>
        match ParseAll(b1, remain - n1)
        case Failed(w) => Failed(w)
        case Got(cs, n2, b2) => Got([c] + cs, n1 + n2, b2)
  }

  // ---------------------------------------------------------------- the round trip

  predicate SampleWf(flags: U24, s: Sample) {
    && (Has(flags, 0x100) || s.duration == 0) && (Has(flags, 0x200) || s.size == 0)
    && (Has(flags, 0x400) || s.flags == 0) && (Has(flags, 0x800) || s.offset == 0)
    && s.signedOffset == Int32(s.offset)
  }

  /** Fields whose flag is off are zero, versions are ones the parser knows, and every declared size is the length the
      serializer produces. */
  predicate Wf(b: Box) {
    && b.size == |Serialize(b)| && b.size <= 0xFFFF_FFFF
    && match b
       case Mfhd(_, v, f, _) => v == 0 && f == 0
       case Tfhd(_, v, f, _, base, d, u, z, sf) =>
         && v == 0 && (Has(f, 1) || base == 0) && (Has(f, 2) || d == 0) && (Has(f, 8) || u == 0)
         && (Has(f, 0x10) || z == 0) && (Has(f, 0x20) || sf == 0)
       case Tfdt(_, v, f, t) => f == 0 && (v == 1 || (v == 0 && t <= 0xFFFF_FFFF))
       case Trun(_, _, f, n, o, ff, ss) =>
         && n == |ss| && (Has(f, 1) || o == 0) && (Has(f, 4) || ff == 0)
         && forall i :: 0 <= i < |ss| ==> SampleWf(f, ss[i])
       case Container(k, _, cs) => (k == MOOF || k == TRAF) && forall i :: 0 <= i < |cs| ==> Wf(cs[i])
       case Unknown(k, _, _) => k !in OTHERS && k !in {MOOF, TRAF, MFHD, TFHD, TFDT, TRUN}
  }

  lemma U32Back(v: U32, rest: Bytes)
    ensures TakeU32(PutU32BE(v) + rest) == Got(v, 4, rest)
  {
    hide PutU32BE, U32BE;
    Seam(PutU32BE(v), rest);
    GetPutU32BE(v);
  }

  lemma OptBack(present: bool, v: U32, rest: Bytes)
    requires present || v == 0
    ensures TakeOpt(present, Opt(present, v) + rest) == Got(v, |Opt(present, v)|, rest)
  {
    hide TakeU32, PutU32BE;
    if present { U32Back(v, rest); } else { assert [] + rest == rest; }
  }

  lemma Opt64Back(present: bool, v: U64, rest: Bytes)
    requires present || v == 0
    ensures TakeOpt64(present, Opt64(present, v) + rest) == Got(v, |Opt64(present, v)|, rest)
  {
    hide PutU64BE, U64BE;
    if present {
      Seam(PutU64BE(v), rest);
      GetPutU64BE(v);
    } else {
      assert [] + rest == rest;
    }
  }

  lemma FullBack(version: Byte, flags: U24, rest: Bytes)
    ensures TakeFull(FullHeader(version, flags) + rest) == Got(Full(version, flags), 4, rest)
  {
    hide PutU24BE, U24BE;
    var h := FullHeader(version, flags);
    Seam(h, rest);
    assert h[1..] == PutU24BE(flags);
    GetPutU24BE(flags);
  }

  lemma SampleBack(flags: U24, s: Sample, rest: Bytes)
    requires SampleWf(flags, s)
    ensures ParseSample(flags, SerializeSample(flags, s) + rest) == Got(s, |SerializeSample(flags, s)|, rest)
  {
    hide TakeOpt, Opt, Has;
    var d, z := Opt(Has(flags, 0x100), s.duration), Opt(Has(flags, 0x200), s.size);
    var f, o := Opt(Has(flags, 0x400), s.flags), Opt(Has(flags, 0x800), s.offset);
    Assoc(d, z + (f + o), rest);
    Assoc(z, f + o, rest);
    Assoc(f, o, rest);
    OptBack(Has(flags, 0x100), s.duration, z + (f + (o + rest)));
    OptBack(Has(flags, 0x200), s.size, f + (o + rest));
    OptBack(Has(flags, 0x400), s.flags, o + rest);
    OptBack(Has(flags, 0x800), s.offset, rest);
  }

  lemma {:induction false} SamplesBack(flags: U24, ss: seq<Sample>, rest: Bytes)
    requires forall i :: 0 <= i < |ss| ==> SampleWf(flags, ss[i])
    ensures var b := SerializeSamples(flags, ss); ParseSamples(flags, |ss|, b + rest) == Got(ss, |b|, rest)
    decreases |ss|
  {
    hide ParseSample, SerializeSample, SampleWf;
    if |ss| == 0 {
      assert [] + rest == rest;
    } else {
      var head, tail := SerializeSample(flags, ss[0]), SerializeSamples(flags, ss[1..]);
      Assoc(head, tail, rest);
      SampleBack(flags, ss[0], tail + rest);
      SamplesBack(flags, ss[1..], rest);
      assert [ss[0]] + ss[1..] == ss;
    }
  }

  lemma MfhdBack(b: Box, rest: Bytes)
    requires b.Mfhd? && b.version == 0 && b.flags == 0
    ensures ParseMfhd(b.size, Body(b) + rest) == Got(b, |Body(b)|, rest)
  {
    hide TakeFull, FullHeader, TakeU32, PutU32BE;
    var h, n := FullHeader(b.version, b.flags), PutU32BE(b.sequence);
    Assoc(h, n, rest);
    FullBack(b.version, b.flags, n + rest);
    U32Back(b.sequence, rest);
  }

  lemma TfdtBack(b: Box, rest: Bytes)
    requires b.Tfdt? && b.flags == 0 && (b.version == 1 || (b.version == 0 && b.time <= 0xFFFF_FFFF))
    ensures ParseTfdt(b.size, Body(b) + rest) == Got(b, |Body(b)|, rest)
  {
    hide TakeFull, FullHeader, TakeU32, PutU32BE, TakeOpt64, PutU64BE;
    var h := FullHeader(b.version, b.flags);
    if b.version == 0 {
      Assoc(h, PutU32BE(b.time), rest);
      FullBack(b.version, b.flags, PutU32BE(b.time) + rest);
      U32Back(b.time, rest);
    } else {
      Assoc(h, PutU64BE(b.time), rest);
      FullBack(b.version, b.flags, PutU64BE(b.time) + rest);
      Opt64Back(true, b.time, rest);
    }
  }

  lemma DefaultsBack(b: Box, rest: Bytes)
    requires b.Tfhd? && (Has(b.flags, 2) || b.description == 0) && (Has(b.flags, 8) || b.duration == 0)
    requires (Has(b.flags, 0x10) || b.sampleSize == 0) && (Has(b.flags, 0x20) || b.sampleFlags == 0)
    ensures var d, u := Opt(Has(b.flags, 2), b.description), Opt(Has(b.flags, 8), b.duration);
            var z, f := Opt(Has(b.flags, 0x10), b.sampleSize), Opt(Has(b.flags, 0x20), b.sampleFlags);
            var s := d + (u + (z + f));
            ParseDefaults(b.flags, s + rest)
            == Got((b.description, b.duration, b.sampleSize, b.sampleFlags), |s|, rest)
  {
    hide TakeOpt, Opt, Has;
    var d, u := Opt(Has(b.flags, 2), b.description), Opt(Has(b.flags, 8), b.duration);
    var z, f := Opt(Has(b.flags, 0x10), b.sampleSize), Opt(Has(b.flags, 0x20), b.sampleFlags);
    Assoc(d, u + (z + f), rest);
    Assoc(u, z + f, rest);
    Assoc(z, f, rest);
    OptBack(Has(b.flags, 2), b.description, u + (z + (f + rest)));
    OptBack(Has(b.flags, 8), b.duration, z + (f + rest));
    OptBack(Has(b.flags, 0x10), b.sampleSize, f + rest);
    OptBack(Has(b.flags, 0x20), b.sampleFlags, rest);
  }

  lemma TfhdBack(b: Box, rest: Bytes)
    requires b.Tfhd? && Wf(b)
    ensures ParseTfhd(b.size, Body(b) + rest) == Got(b, |Body(b)|, rest)
  {
    hide TakeFull, FullHeader, TakeU32, PutU32BE, TakeOpt64, Opt64, ParseDefaults, Opt, Has;
    var h, t, base := FullHeader(b.version, b.flags), PutU32BE(b.track), Opt64(Has(b.flags, 1), b.base);
    var s := Opt(Has(b.flags, 2), b.description) +
             (Opt(Has(b.flags, 8), b.duration) +
              (Opt(Has(b.flags, 0x10), b.sampleSize) + Opt(Has(b.flags, 0x20), b.sampleFlags)));
    Assoc(h, t + (base + s), rest);
    Assoc(t, base + s, rest);
    Assoc(base, s, rest);
    FullBack(b.version, b.flags, t + (base + (s + rest)));
    U32Back(b.track, base + (s + rest));
    Opt64Back(Has(b.flags, 1), b.base, s + rest);
    DefaultsBack(b, rest);
  }

  lemma TrunBack(b: Box, rest: Bytes)
    requires b.Trun? && Wf(b)
    ensures ParseTrun(b.size, Body(b) + rest) == Got(b, |Body(b)|, rest)
  {
    hide TakeFull, FullHeader, TakeU32, PutU32BE, TakeOpt, Opt, Has, ParseSamples, SerializeSamples, SampleWf;
    var h, n := FullHeader(b.version, b.flags), PutU32BE(b.count);
    var o, f := Opt(Has(b.flags, 1), b.dataOffset), Opt(Has(b.flags, 4), b.firstFlags);
    var s := SerializeSamples(b.flags, b.samples);
    Assoc(h, n + (o + (f + s)), rest);
    Assoc(n, o + (f + s), rest);
    Assoc(o, f + s, rest);
    Assoc(f, s, rest);
    FullBack(b.version, b.flags, n + (o + (f + (s + rest))));
    U32Back(b.count, o + (f + (s + rest)));
    OptBack(Has(b.flags, 1), b.dataOffset, f + (s + rest));
    OptBack(Has(b.flags, 4), b.firstFlags, s + rest);
    SamplesBack(b.flags, b.samples, rest);
  }

  lemma HeaderBack(size: U64, kind: U32, rest: Bytes)
    requires size <= 0xFFFF_FFFF
    ensures var b := BoxHeader(size, kind) + rest;
            |b| >= 8 && U32BE(b[..4]) == size && U32BE(b[4..8]) == kind && b[8..] == rest
  {
    hide PutU32BE, U32BE;
    var b := BoxHeader(size, kind) + rest;
    Assoc(PutU32BE(size), PutU32BE(kind), rest);
    Seam(PutU32BE(size), PutU32BE(kind) + rest);
    Seam(PutU32BE(kind), rest);
    SliceOfDrop(b, 4, 0, 4);
    SliceOfDrop(b, 4, 4, 4);
    GetPutU32BE(size);
    GetPutU32BE(kind);
  }

  /** The parser for b's type, on b's body. */
  function ParseBody(b: Box, body: Bytes): Parsed<Box> {
    match b
    case Mfhd(size, _, _, _) => ParseMfhd(size, body)
    case Tfhd(size, _, _, _, _, _, _, _, _) => ParseTfhd(size, body)
    case Tfdt(size, _, _, _) => ParseTfdt(size, body)
    case Trun(size, _, _, _, _, _, _) => ParseTrun(size, body)
    case Container(k, size, _) => ParseContainer(size, k, body)
    case Unknown(k, size, _) => ParseUnknown(size, k, body)
  }

  lemma ParseBoxIs(b: Box, rest: Bytes)
    requires Wf(b) && ParseBody(b, Body(b) + rest) == Got(b, |Body(b)|, rest)
    ensures ParseBox(Serialize(b) + rest) == Got(b, |Serialize(b)|, rest)
  {
    hide ParseMfhd, ParseTfhd, ParseTfdt, ParseTrun, ParseContainer, ParseUnknown;
    hide BoxHeader, Body, U32BE, Has, SampleWf;
    var h := BoxHeader(b.size, Kind(b));
    Assoc(h, Body(b), rest);
    HeaderBack(b.size, Kind(b), Body(b) + rest);
  }

  /** Parsing a serialized tree returns the tree, reports exactly its bytes and leaves exactly what follows. */
  lemma {:induction false} RoundTrip(b: Box, rest: Bytes)
    requires Wf(b)
    ensures ParseBox(Serialize(b) + rest) == Got(b, |Serialize(b)|, rest)
    decreases b, 1
  {
    hide ParseMfhd, ParseTfhd, ParseTfdt, ParseTrun, ParseBox, BoxHeader, Has, SampleWf;
    match b
    case Mfhd(_, _, _, _) => MfhdBack(b, rest); ParseBoxIs(b, rest);
    case Tfhd(_, _, _, _, _, _, _, _, _) => TfhdBack(b, rest); ParseBoxIs(b, rest);
    case Tfdt(_, _, _, _) => TfdtBack(b, rest); ParseBoxIs(b, rest);
    case Trun(_, _, _, _, _, _, _) => TrunBack(b, rest); ParseBoxIs(b, rest);
    case Container(_, size, cs) =>
      ContainerLength(b);
      AllBack(cs, rest);
      ParseBoxIs(b, rest);
    case Unknown(_, size, raw) =>
      ContainerLength(b);
      Seam(raw, rest);
      ParseBoxIs(b, rest);
  }

  lemma ContainerLength(b: Box)
    requires b.size == |Serialize(b)| && b.size <= 0xFFFF_FFFF
    ensures b.size == 8 + |Body(b)|
  {
  }

  lemma {:induction false} AllBack(cs: seq<Box>, rest: Bytes)
    requires forall i :: 0 <= i < |cs| ==> Wf(cs[i])
    ensures ParseAll(SerializeAll(cs) + rest, |SerializeAll(cs)|) == Got(cs, |SerializeAll(cs)|, rest)
    decreases cs, 0
  {
    hide ParseBox, Serialize, Wf;
    if |cs| == 0 {
      assert [] + rest == rest;
    } else {
      var head, tail := Serialize(cs[0]), SerializeAll(cs[1..]);
      Assoc(head, tail, rest);
      RoundTrip(cs[0], tail + rest);
      AllBack(cs[1..], rest);
      assert [cs[0]] + cs[1..] == cs;
    }
  }

  // ---------------------------------------------------------------- as the program does it

  /** TrunBox.Serialize's loop over the samples. */
  method WriteSamples(flags: U24, samples: seq<Sample>) returns (out: Bytes)
    ensures out == SerializeSamples(flags, samples)
  {
    hide SerializeSample;
    out := [];
    for i := 0 to |samples|
      invariant SerializeSamples(flags, samples) == out + SerializeSamples(flags, samples[i..])
    {
      assert samples[i..][1..] == samples[i + 1..] && samples[i..][0] == samples[i];
      var item := WriteSample(flags, samples[i]);
      Assoc(out, item, SerializeSamples(flags, samples[i + 1..]));
      out := out + item;
    }
    assert out + [] == out;
  }

  method WriteSample(flags: U24, s: Sample) returns (item: Bytes)
    ensures item == SerializeSample(flags, s)
  {
    hide Has, PutU32BE;
    item := [];
    if Has(flags, 0x100) { item := item + PutU32BE(s.duration); }
    if Has(flags, 0x200) { item := item + PutU32BE(s.size); }
    if Has(flags, 0x400) { item := item + PutU32BE(s.flags); }
    if Has(flags, 0x800) { item := item + PutU32BE(s.offset); }
  }

  /** SimpleBoxContainer.Parse: its loop, its remaining size and its running total. */
  method ReadChildren(b: Bytes, size: U64) returns (r: Parsed<seq<Box>>)
    ensures r == ParseAll(b, size - 8)
  {
    hide ParseBox;
    var remain: int := size - 8;
    var children, total, rest := [], 0, b;
    ghost var all := ParseAll(b, remain);
    assert all.Got? ==> [] + all.value == all.value;
    while remain > 0
      invariant total + |rest| == |b|
      invariant all == Prefixed(children, total, ParseAll(rest, remain))
      decreases |rest|
    {
      var c := ParseBox(rest);
      if c.Failed? { return Failed(c.why); }
      PrefixOne(children, total, c.value, c.used, ParseAll(c.rest, remain - c.used));
      children, total, rest := children + [c.value], total + c.used, c.rest;
      remain := remain - c.used;
    }
    assert children + [] == children;
    return Got(children, total, rest);
  }

  function Prefixed(cs: seq<Box>, n: nat, r: Parsed<seq<Box>>): Parsed<seq<Box>> {
    if r.Failed? then r else Got(cs + r.value, n + r.used, r.rest)
  }

  lemma PrefixOne(cs: seq<Box>, n: nat, c: Box, k: nat, r: Parsed<seq<Box>>)
    ensures Prefixed(cs, n, Prefixed([c], k, r)) == Prefixed(cs + [c], n + k, r)
  {
    if r.Got? { assert cs + ([c] + r.value) == cs + [c] + r.value; }
  }
}
