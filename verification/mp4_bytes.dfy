/** Where each field of a movie fragment box stands in its bytes (ISO/IEC 14496-12, sections 4.2, 8.8.5, 8.8.7, 8.8.8
    and 8.8.12), and what the parsers refuse. */
module Mp4Bytes {
  import opened ByteIO
  import opened Mp4Box

  function Spell(s: string): Bytes
    requires |s| == 4 && forall i :: 0 <= i < 4 ==> s[i] < 128 as char
  {
    [s[0] as int, s[1] as int, s[2] as int, s[3] as int]
  }

  /** The four bytes at i. */
  function Word(b: Bytes, i: nat): Bytes
    requires i + 4 <= |b|
  {
    b[i..i + 4]
  }

  lemma TypesSpelled()
    ensures PutU32BE(MOOF) == Spell("moof") && PutU32BE(MFHD) == Spell("mfhd") && PutU32BE(TRAF) == Spell("traf")
    ensures PutU32BE(TFHD) == Spell("tfhd") && PutU32BE(TFDT) == Spell("tfdt") && PutU32BE(TRUN) == Spell("trun")
    ensures PutU32BE(MDAT) == Spell("mdat")
  {
  }

  /** If the field is there, these four bytes hold it. */
  predicate WordIs(s: Bytes, p: nat, present: bool, v: U32) { present ==> p + 4 <= |s| && U32BE(Word(s, p)) == v }

  /** A piece in the middle. */
  lemma Piece(s: Bytes, before: Bytes, f: Bytes, after: Bytes)
    requires s == before + (f + after)
    ensures |s| == |before| + |f| + |after| && s[|before|..|before| + |f|] == f && s == (before + f) + after
  {
    Assoc(before, f, after);
    Seam(before, f + after);
  }

  /** Size and type, of any box below 4 GiB; a larger one has size 1, and its size after the type. */
  lemma BoxHeaderAt(b: Box)
    ensures var s := Serialize(b);
            && Word(s, 4) == PutU32BE(Kind(b))
            && (b.size <= 0xFFFF_FFFF ==> U32BE(Word(s, 0)) == b.size && s[8..] == Body(b))
            && (b.size > 0xFFFF_FFFF ==>
                  && |s| >= 16 && U32BE(Word(s, 0)) == 1 && U64BE(s[8..16]) == b.size && s[16..] == Body(b))
  {
    hide PutU32BE, PutU64BE, U32BE, U64BE, Body, Kind;
    var s := Serialize(b);
    if b.size <= 0xFFFF_FFFF {
      assert s == [] + (PutU32BE(b.size) + (PutU32BE(Kind(b)) + Body(b)));
      Piece(s, [], PutU32BE(b.size), PutU32BE(Kind(b)) + Body(b));
      Piece(s, [] + PutU32BE(b.size), PutU32BE(Kind(b)), Body(b));
      GetPutU32BE(b.size);
    } else {
      assert s == [] + (PutU32BE(1) + (PutU32BE(Kind(b)) + (PutU64BE(b.size) + Body(b))));
      Piece(s, [], PutU32BE(1), PutU32BE(Kind(b)) + (PutU64BE(b.size) + Body(b)));
      Piece(s, [] + PutU32BE(1), PutU32BE(Kind(b)), PutU64BE(b.size) + Body(b));
      Piece(s, [] + PutU32BE(1) + PutU32BE(Kind(b)), PutU64BE(b.size), Body(b));
      GetPutU32BE(1);
      GetPutU64BE(b.size);
    }
  }

  /** Version and flags. */
  lemma FullHeaderAt(b: Box, rest: Bytes)
    requires !b.Container? && !b.Unknown? && Body(b) == FullHeader(b.version, b.flags) + rest
    ensures Body(b)[0] == b.version && U24BE(Body(b)[1..4]) == b.flags && Body(b)[4..] == rest
  {
    hide PutU24BE, U24BE;
    GetPutU24BE(b.flags);
    Piece(Body(b), [b.version], PutU24BE(b.flags), rest);
  }

  function Flag(flags: U24, bit: nat): bool
    requires bit > 0
  {
    flags / bit % 2 == 1
  }

  function Width(present: bool): nat { if present then 4 else 0 }

  /** A field that may be left out. */
  lemma FieldAt(s: Bytes, before: Bytes, present: bool, v: U32, after: Bytes)
    requires s == before + (Opt(present, v) + after)
    ensures |Opt(present, v)| == Width(present) && s == (before + Opt(present, v)) + after
    ensures |before| + Width(present) <= |s| && WordIs(s, |before|, present, v)
  {
    Piece(s, before, Opt(present, v), after);
    GetPutU32BE(v);
  }

  lemma Field64At(s: Bytes, before: Bytes, present: bool, v: U64, after: Bytes)
    requires s == before + (Opt64(present, v) + after)
    ensures |Opt64(present, v)| == 2 * Width(present) && s == (before + Opt64(present, v)) + after
    ensures |before| + 2 * Width(present) <= |s| && (present ==> U64BE(s[|before|..|before| + 8]) == v)
  {
    Piece(s, before, Opt64(present, v), after);
    GetPutU64BE(v);
  }

  /** Version, flags and the word after them. */
  lemma StartAt(s: Bytes, version: Byte, flags: U24, v: U32, rest: Bytes)
    requires s == FullHeader(version, flags) + (PutU32BE(v) + rest)
    ensures |s| >= 8 && s[0] == version && U24BE(s[1..4]) == flags && U32BE(Word(s, 4)) == v
    ensures |FullHeader(version, flags) + PutU32BE(v)| == 8 && s == (FullHeader(version, flags) + PutU32BE(v)) + rest
  {
    hide PutU24BE, U24BE, PutU32BE, U32BE;
    GetPutU24BE(flags);
    GetPutU32BE(v);
    Piece(s, FullHeader(version, flags), PutU32BE(v), rest);
    assert s == [version] + (PutU24BE(flags) + (PutU32BE(v) + rest));
    Piece(s, [version], PutU24BE(flags), PutU32BE(v) + rest);
  }

  lemma MfhdAt(b: Box)
    requires b.Mfhd?
    ensures |Body(b)| == 8 && Body(b)[0] == b.version && U24BE(Body(b)[1..4]) == b.flags
    ensures U32BE(Word(Body(b), 4)) == b.sequence
  {
    hide PutU32BE, U32BE;
    var f := PutU32BE(b.sequence);
    FullHeaderAt(b, f);
    assert f + [] == f;
    Piece(Body(b), FullHeader(b.version, b.flags), f, []);
    GetPutU32BE(b.sequence);
  }

  lemma TfdtAt(b: Box)
    requires b.Tfdt?
    ensures |Body(b)| == if b.version == 0 then 8 else 12
    ensures Body(b)[0] == b.version && U24BE(Body(b)[1..4]) == b.flags
    ensures if b.version == 0 then U32BE(Word(Body(b), 4)) == b.time % 0x1_0000_0000
            else U64BE(Body(b)[4..12]) == b.time
  {
    hide PutU32BE, U32BE, PutU64BE, U64BE;
    var f := if b.version == 0 then PutU32BE(b.time % 0x1_0000_0000) else PutU64BE(b.time);
    FullHeaderAt(b, f);
    assert f + [] == f;
    Piece(Body(b), FullHeader(b.version, b.flags), f, []);
    GetPutU32BE(b.time % 0x1_0000_0000);
    GetPutU64BE(b.time);
  }

  /** Track id, and then whichever fields the flags name, in this order. */
  lemma TfhdAt(b: Box)
    requires b.Tfhd?
    ensures var s, f := Body(b), b.flags;
            var p2 := 8 + 2 * Width(Flag(f, 0x01));
            var p3 := p2 + Width(Flag(f, 0x02));
            var p4 := p3 + Width(Flag(f, 0x08));
            var p5 := p4 + Width(Flag(f, 0x10));
            && |s| == p5 + Width(Flag(f, 0x20)) >= 8 && s[0] == b.version && U24BE(s[1..4]) == f
            && U32BE(Word(s, 4)) == b.track
            && (Flag(f, 0x01) ==> U64BE(s[8..16]) == b.base) && WordIs(s, p2, Flag(f, 0x02), b.description)
            && WordIs(s, p3, Flag(f, 0x08), b.duration) && WordIs(s, p4, Flag(f, 0x10), b.sampleSize)
            && WordIs(s, p5, Flag(f, 0x20), b.sampleFlags)
  {
    hide PutU32BE, U32BE, PutU64BE, U64BE, U24BE, Opt, Opt64, FullHeader, Width, Flag, WordIs;
    var f := b.flags;
    var x2, x3 := Opt64(Flag(f, 1), b.base), Opt(Flag(f, 2), b.description);
    var x4, x5, x6 := Opt(Flag(f, 8), b.duration), Opt(Flag(f, 0x10), b.sampleSize), Opt(Flag(f, 0x20), b.sampleFlags);
    var s, a := Body(b), FullHeader(b.version, f) + PutU32BE(b.track);
    TfhdIs(b);
    hide Body;
    StartAt(s, b.version, f, b.track, x2 + (x3 + (x4 + (x5 + x6))));
    Field64At(s, a, Flag(f, 1), b.base, x3 + (x4 + (x5 + x6)));
    FieldAt(s, a + x2, Flag(f, 2), b.description, x4 + (x5 + x6));
    FieldAt(s, a + x2 + x3, Flag(f, 8), b.duration, x5 + x6);
    FieldAt(s, a + x2 + x3 + x4, Flag(f, 0x10), b.sampleSize, x6);
    assert x6 + [] == x6;
    FieldAt(s, a + x2 + x3 + x4 + x5, Flag(f, 0x20), b.sampleFlags, []);
  }

  lemma TfhdIs(b: Box)
    requires b.Tfhd?
    ensures var f := b.flags;
            Body(b) == FullHeader(b.version, f) + (PutU32BE(b.track) + (Opt64(Flag(f, 1), b.base)
                       + (Opt(Flag(f, 2), b.description) + (Opt(Flag(f, 8), b.duration)
                          + (Opt(Flag(f, 0x10), b.sampleSize) + Opt(Flag(f, 0x20), b.sampleFlags))))))
  {
    hide PutU32BE, Opt, Opt64, FullHeader;
  }

  /** How many bytes a sample takes. */
  function SampleWidth(f: U24): nat {
    Width(Flag(f, 0x100)) + Width(Flag(f, 0x200)) + Width(Flag(f, 0x400)) + Width(Flag(f, 0x800))
  }

  /** How many bytes i samples take. */
  function Stride(f: U24, i: nat): nat { SampleWidth(f) * i }

  /** A sample's fields, those the flags name, from position p. */
  predicate SampleAt(s: Bytes, p: nat, f: U24, x: Sample) {
    var p2 := p + Width(Flag(f, 0x100));
    var p3 := p2 + Width(Flag(f, 0x200));
    var p4 := p3 + Width(Flag(f, 0x400));
    && WordIs(s, p, Flag(f, 0x100), x.duration) && WordIs(s, p2, Flag(f, 0x200), x.size)
    && WordIs(s, p3, Flag(f, 0x400), x.flags) && WordIs(s, p4, Flag(f, 0x800), x.offset)
  }

  lemma OneSampleAt(s: Bytes, before: Bytes, f: U24, x: Sample, after: Bytes)
    requires s == before + (SerializeSample(f, x) + after)
    ensures SampleAt(s, |before|, f, x) && |SerializeSample(f, x)| == SampleWidth(f)
  {
    hide PutU32BE, U32BE;
    var d, z, g, o := Flag(f, 0x100), Flag(f, 0x200), Flag(f, 0x400), Flag(f, 0x800);
    hide Opt;
    var x1, x2, x3, x4 := Opt(d, x.duration), Opt(z, x.size), Opt(g, x.flags), Opt(o, x.offset);
    assert SerializeSample(f, x) == x1 + (x2 + (x3 + x4));
    FourThenMore(x1, x2, x3, x4, after);
    FieldAt(s, before, d, x.duration, x2 + (x3 + (x4 + after)));
    FieldAt(s, before + x1, z, x.size, x3 + (x4 + after));
    FieldAt(s, before + x1 + x2, g, x.flags, x4 + after);
    FieldAt(s, before + x1 + x2 + x3, o, x.offset, after);
  }

  lemma FourThenMore(x1: Bytes, x2: Bytes, x3: Bytes, x4: Bytes, y: Bytes)
    ensures (x1 + (x2 + (x3 + x4))) + y == x1 + (x2 + (x3 + (x4 + y)))
  {
  }

  lemma {:induction false} SamplesAt(s: Bytes, before: Bytes, f: U24, xs: seq<Sample>, i: nat)
    requires s == before + SerializeSamples(f, xs) && i < |xs|
    ensures SampleAt(s, |before| + Stride(f, i), f, xs[i])
    ensures |s| == |before| + Stride(f, |xs|)
    decreases |xs|
  {
    hide SerializeSample, SampleAt, SampleWidth;
    var first, rest := SerializeSample(f, xs[0]), SerializeSamples(f, xs[1..]);
    OneSampleAt(s, before, f, xs[0], rest);
    Assoc(before, first, rest);
    if |xs| == 1 {
      assert rest == [];
    } else {
      SamplesAt(s, before + first, f, xs[1..], if i > 0 then i - 1 else 0);
      Times(SampleWidth(f), i, |xs|);
    }
  }

  lemma Times(w: nat, i: nat, n: nat)
    requires n > 0
    ensures i > 0 ==> w + w * (i - 1) == w * i
    ensures w + w * (n - 1) == w * n && w * 0 == 0
  {
  }

  /** Sample count, the two optional fields, and the samples one after the other. */
  lemma TrunAt(b: Box, i: nat)
    requires b.Trun? && i < |b.samples|
    ensures |Body(b)| >= 8
    ensures var s, f := Body(b), b.flags;
            var p2 := 8 + Width(Flag(f, 0x01));
            var p3 := p2 + Width(Flag(f, 0x04));
            && |s| == p3 + Stride(f, |b.samples|)
            && s[0] == b.version && U24BE(s[1..4]) == f && U32BE(Word(s, 4)) == b.count
            && WordIs(s, 8, Flag(f, 0x01), b.dataOffset) && WordIs(s, p2, Flag(f, 0x04), b.firstFlags)
            && SampleAt(s, p3 + Stride(f, i), f, b.samples[i])
  {
    hide PutU32BE, U32BE, U24BE, SerializeSamples, SampleAt, Stride, Opt, FullHeader, Width, Flag, WordIs;
    var f := b.flags;
    var x2, x3, x4 := Opt(Flag(f, 1), b.dataOffset), Opt(Flag(f, 4), b.firstFlags), SerializeSamples(f, b.samples);
    var s, a := Body(b), FullHeader(b.version, f) + PutU32BE(b.count);
    TrunIs(b);
    hide Body;
    StartAt(s, b.version, f, b.count, x2 + (x3 + x4));
    FieldAt(s, a, Flag(f, 1), b.dataOffset, x3 + x4);
    FieldAt(s, a + x2, Flag(f, 4), b.firstFlags, x4);
    SamplesAt(s, a + x2 + x3, f, b.samples, i);
  }

  lemma TrunIs(b: Box)
    requires b.Trun?
    ensures var f := b.flags;
            Body(b) == FullHeader(b.version, f) + (PutU32BE(b.count) + (Opt(Flag(f, 1), b.dataOffset)
                       + (Opt(Flag(f, 4), b.firstFlags) + SerializeSamples(f, b.samples))))
  {
    hide PutU32BE, Opt, FullHeader, SerializeSamples;
  }

  // ---------------------------------------------------------------- refused

  /** Too short, or with a 64-bit size. */
  lemma HeadersRefused(b: Bytes)
    ensures |b| < 8 ==> ParseBox(b) == Failed(Short)
    ensures |b| >= 8 && U32BE(b[..4]) == 1 && U32BE(b[4..8]) != MDAT ==> ParseBox(b) == Failed(LargeSize)
  {
    hide ParseContainer, ParseMfhd, ParseTfhd, ParseTfdt, ParseTrun, ParseUnknown, U32BE;
  }

  lemma FullAt(b: Bytes)
    requires |b| >= 12
    ensures TakeFull(b[8..]) == Got(Full(b[8], U24BE(b[9..12])), 4, b[8..][4..])
  {
    hide U24BE;
    var body := b[8..];
    assert body[..4][0] == b[8] && body[..4][1..] == b[9..12];
  }

  /** A header box of a version or with flags its parser does not know. */
  lemma MfhdRefused(b: Bytes)
    requires |b| >= 12 && U32BE(b[..4]) != 1 && b[4..8] == Spell("mfhd")
    ensures b[8] != 0 ==> ParseBox(b) == Failed(BadVersion)
    ensures b[8] == 0 && U24BE(b[9..12]) != 0 ==> ParseBox(b) == Failed(BadFlags)
  {
    hide TakeFull, TakeU32, U24BE;
    FullAt(b);
    assert U32BE(Spell("mfhd")) == MFHD;
  }

  lemma TfhdRefused(b: Bytes)
    requires |b| >= 12 && U32BE(b[..4]) != 1 && b[4..8] == Spell("tfhd")
    ensures b[8] != 0 ==> ParseBox(b) == Failed(BadVersion)
  {
    hide TakeFull, TakeU32, U24BE, TakeOpt64, ParseDefaults;
    FullAt(b);
    assert U32BE(Spell("tfhd")) == TFHD;
  }

  lemma TfdtRefused(b: Bytes)
    requires |b| >= 12 && U32BE(b[..4]) != 1 && b[4..8] == Spell("tfdt")
    ensures U24BE(b[9..12]) != 0 ==> ParseBox(b) == Failed(BadFlags)
  {
    hide TakeFull, TakeU32, U24BE, TakeOpt64;
    FullAt(b);
    assert U32BE(Spell("tfdt")) == TFDT;
  }
}
