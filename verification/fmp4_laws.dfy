/** The muxer's arithmetic against what its serializers emit. */
module Fmp4Laws {
  import opened ByteIO
  import opened Mp4Box
  import opened Fmp4

  // ---------------------------------------------------------------- caches

  /** What one frame adds to a cache: audio frames get their length in front. */
  function Unit(frame: Bytes, audio: bool): Bytes {
    if audio && |frame| > 0 then PutU32BE(|frame|) + frame else frame
  }

  function Packed(frames: seq<Bytes>, audio: bool): Bytes {
    if |frames| == 0 then []
    else Packed(frames[..|frames| - 1], audio) + Unit(frames[|frames| - 1], audio)
  }

  function Samples(frames: seq<Bytes>): seq<Sample> {
    seq(|frames|, i requires 0 <= i < |frames| => SampleOf(|frames[i]|))
  }

  /** A cache holds its frames, one sample for each, and sizes to match. */
  predicate CacheOk(c: Cache, audio: bool) {
    && (c.trun.None? ==> c.accOffset == 0)
    && (c.trun.Some? ==>
          && var n := |c.frames|;
          && n > 0 && c.trun.value == Trun(Low64(16 + 4 * n), 0, 0, Low32(n), 0, 0, Samples(c.frames))
          && c.buf == Packed(c.frames, audio) && c.accOffset == Low64(|c.buf|))
  }

  lemma Sum64(x: nat, n: nat)
    ensures Add64(Low64(x), n) == Low64(x + n)
  {
  }

  lemma Sum32(x: nat, n: nat)
    ensures Low32(Low32(x) + n) == Low32(x + n)
  {
  }

  lemma Small(x: nat)
    requires x < 0x1_0000_0000
    ensures Low64(x) == x == Low32(x)
  {
  }

  lemma AddFrameOk(c: Cache, frame: Bytes, ts: int, audio: bool)
    requires CacheOk(c, audio)
    ensures CacheOk(AddFrame(c, frame, ts, if audio then |frame| else 0), audio)
    ensures var c1 := AddFrame(c, frame, ts, if audio then |frame| else 0);
            c1.trun.Some? && c1.base == c.base && c1.track == c.track
            && c1.frames == (if c.trun.Some? then c.frames else []) + [frame]
  {
    hide Add64, Low64, Low32, SampleOf, PutU32BE, Packed, Samples;
    Small(16);
    Small(0);
    var prior := if c.trun.Some? then c.frames else [];
    var n, before := |prior|, Packed(prior, audio);
    NoFrames(audio);
    FramesNext(prior, frame, audio);
    Sum64(16 + 4 * n, 4);
    Sum32(n, 1);
    var prefix := if audio && |frame| > 0 then PutU32BE(|frame|) else [];
    Sum64(|before|, |prefix|);
    Sum64(|before| + |prefix|, |frame|);
  }

  lemma NoFrames(audio: bool)
    ensures Packed([], audio) == [] && Samples([]) == []
  {
  }

  lemma FramesNext(prior: seq<Bytes>, frame: Bytes, audio: bool)
    ensures Samples(prior + [frame]) == Samples(prior) + [SampleOf(|frame|)]
    ensures var prefix := if audio && |frame| > 0 then PutU32BE(|frame|) else [];
            Packed(prior + [frame], audio) == Packed(prior, audio) + prefix + frame
  {
    hide PutU32BE;
    var next := prior + [frame];
    assert next[..|prior|] == prior && next[|prior|] == frame;
    var prefix := if audio && |frame| > 0 then PutU32BE(|frame|) else [];
    Assoc(Packed(prior, audio), prefix, frame);
    assert prefix + frame == Unit(frame, audio);
  }

  // ---------------------------------------------------------------- sizes

  lemma {:induction false} SampleBytes(flags: U24, samples: seq<Sample>)
    requires flags == 0x205 || flags == 0x201
    ensures |SerializeSamples(flags, samples)| == 4 * |samples|
  {
    if |samples| > 0 {
      assert |SerializeSample(flags, samples[0])| == 4;
      SampleBytes(flags, samples[1..]);
    }
  }

  /** The boxes of one track fragment, with the run's offset as finally stored. */
  lemma TrafParts(c: Cache, offset: U64, video: bool, n: nat)
    requires CacheOk(c, !video) && c.trun.Some? && 100 + 4 * |c.frames| < 0x1_0000_0000
    ensures var t := Shift(Traf(c, offset, video), n);
            && t.Container? && t.kind == TRAF && |t.children| == 3
            && t.size == Traf(c, offset, video).size == 84 + (if video then 4 else 0) + 4 * |c.frames|
            && t.children[0].Tfhd? && t.children[0].base == c.base && t.children[0].size == 36
            && t.children[0].flags == 0x39 && t.children[0].version == 0 && t.children[0].description == 0
            && t.children[1].Tfdt? && t.children[1].size == 20 && t.children[1].version == 1 && t.children[1].flags == 0
            && t.children[2].Trun? && t.children[2].samples == Samples(c.frames) && t.children[2].count == |c.frames|
            && t.children[2].flags == (if video then 0x205 else 0x201) && (video || t.children[2].firstFlags == 0)
            && t.children[2].dataOffset == Low32(8 + Low32(offset) + Low32(n))
            && t.children[2].size == 20 + (if video then 4 else 0) + 4 * |c.frames|
  {
    hide Add64, Low64, Low32, Packed, Samples, TruncDiv;
    var k := 4 * |c.frames|;
    Small(16 + k);
    Small(|c.frames|);
    Small64(16 + k, if video then 8 else 4);
    Small64(64, 16 + k + (if video then 8 else 4));
    Sum32(8 + Low32(offset), Low32(n));
  }

  lemma Small64(x: nat, n: nat)
    requires x + n < 0x1_0000_0000
    ensures Add64(x, n) == x + n
  {
  }

  lemma TfhdOk(b: Box)
    requires b.Tfhd? && b.flags == 0x39 && b.size == 36 && b.version == 0 && b.description == 0
    ensures Wf(b)
  {
    assert |TfhdBody(b)| == 24;
  }

  lemma TfdtOk(b: Box)
    requires b.Tfdt? && b.size == 20 && b.version == 1 && b.flags == 0
    ensures Wf(b)
  {
  }

  lemma TrunOk(b: Box, frames: seq<Bytes>, video: bool)
    requires b.Trun? && b.flags == (if video then 0x205 else 0x201) && b.samples == Samples(frames)
    requires b.count == |frames| && b.size == 20 + (if video then 4 else 0) + 4 * |frames| <= 0xFFFF_FFFF
    requires video || b.firstFlags == 0
    ensures Wf(b)
  {
    hide SerializeSamples, PutU32BE, Low32;
    SampleBytes(b.flags, b.samples);
    assert |TrunBody(b)| == 8 + (if video then 4 else 0) + 4 * |frames|;
    assert |Serialize(b)| == 12 + |TrunBody(b)|;
    forall i | 0 <= i < |b.samples| ensures SampleWf(b.flags, b.samples[i]) {
      assert b.samples[i] == SampleOf(|frames[i]|);
    }
  }

  lemma TrafWf(c: Cache, offset: U64, video: bool, n: nat)
    requires CacheOk(c, !video) && c.trun.Some? && 100 + 4 * |c.frames| < 0x1_0000_0000
    ensures Wf(Shift(Traf(c, offset, video), n))
  {
    hide Traf, Shift, Wf, Samples, Packed, Low32, Low64;
    TrafParts(c, offset, video, n);
    var t := Shift(Traf(c, offset, video), n);
    TfhdOk(t.children[0]);
    TfdtOk(t.children[1]);
    TrunOk(t.children[2], c.frames, video);
    ThreeChildren(t);
  }

  lemma ThreeChildren(t: Box)
    requires t.Container? && (t.kind == TRAF || t.kind == MOOF) && |t.children| == 3
    requires Wf(t.children[0]) && Wf(t.children[1]) && Wf(t.children[2])
    requires t.size == 8 + t.children[0].size + t.children[1].size + t.children[2].size <= 0xFFFF_FFFF
    ensures Wf(t)
  {
    hide Serialize;
    var cs := t.children;
    ChildBytes(cs[0]);
    ChildBytes(cs[1]);
    ChildBytes(cs[2]);
    assert SerializeAll(cs[3..]) == [];
    assert cs[2..][0] == cs[2] && cs[2..][1..] == cs[3..];
    assert SerializeAll(cs[2..]) == Serialize(cs[2]) + [];
    assert cs[1..][0] == cs[1] && cs[1..][1..] == cs[2..];
    assert SerializeAll(cs[1..]) == Serialize(cs[1]) + SerializeAll(cs[2..]);
    ContainerBody(t);
  }

  lemma ChildBytes(b: Box)
    requires Wf(b)
    ensures |Serialize(b)| == b.size
  {
  }

  lemma ContainerBody(t: Box)
    requires t.Container? && t.size <= 0xFFFF_FFFF
    ensures |Serialize(t)| == 8 + |SerializeAll(t.children)|
  {
  }

  // ---------------------------------------------------------------- a closed fragment

  predicate TwoTracks(m: Mux) { m.videoTrack > 0 && m.audioTrack > 0 && m.videoTrack != m.audioTrack }

  /** The fragment about to be closed stays below 4 GiB. */
  predicate Fits(m: Mux) {
    204 + 4 * |m.v.frames| + 4 * |m.a.frames| + |m.v.buf| + |m.a.buf| < 0x1_0000_0000
  }

  /** Ready to be closed: both tracks have frames and a key frame has opened the fragment. */
  predicate Ready(m: Mux) {
    && TwoTracks(m) && CacheOk(m.v, false) && CacheOk(m.a, true) && m.v.trun.Some? && m.a.trun.Some?
    && m.moof == Some(Container(MOOF, 24, [Mfhd(16, 0, 0, m.sequence)])) && Fits(m)
  }

  lemma ReadyCloses(m: Mux)
    requires Ready(m)
    ensures !CloseCrashes(m)
  {
    Small(|m.v.frames|);
    hide Samples, Packed, Low64, Low32, File, Fits;
  }

  lemma MfhdWf(n: U32)
    ensures Wf(Mfhd(16, 0, 0, n))
  {
  }

  lemma ClosedSize(m: Mux)
    requires Ready(m)
    ensures !CloseCrashes(m) && ClosedMoof(m).size == 196 + 4 * |m.v.frames| + 4 * |m.a.frames|
  {
    hide Traf, Shift, Samples, Packed, Low32, Low64, Add64;
    ReadyCloses(m);
    var t1 := Traf(First(m), m.curTrackOffset, !AudioFirst(m));
    var t2 := Traf(Second(m), Add64(m.curTrackOffset, First(m).accOffset), AudioFirst(m));
    TrafParts(First(m), m.curTrackOffset, !AudioFirst(m), 0);
    TrafParts(Second(m), Add64(m.curTrackOffset, First(m).accOffset), AudioFirst(m), 0);
    Small64(24, t1.size);
    Small64(24 + t1.size, t2.size);
  }

  /** Every moof the muxer builds declares its serialized length, at every node. */
  lemma ClosedMoofWf(m: Mux)
    requires Ready(m)
    ensures !CloseCrashes(m)
    ensures var moof := ClosedMoof(m);
            Wf(moof) && moof.size == 196 + 4 * |m.v.frames| + 4 * |m.a.frames| == |Serialize(moof)|
  {
    hide Traf, Shift, Wf, CloseCrashes, ClosedMoof, Samples, Packed, Low32, Low64, Add64;
    ClosedRuns(m);
    var af := AudioFirst(m);
    var c1, c2 := First(m), Second(m);
    var o1, o2 := m.curTrackOffset, Add64(m.curTrackOffset, c1.accOffset);
    var moof := ClosedMoof(m);
    TrafParts(c1, o1, !af, moof.size);
    TrafParts(c2, o2, af, moof.size);
    TrafWf(c1, o1, !af, moof.size);
    TrafWf(c2, o2, af, moof.size);
    MfhdWf(m.sequence);
    ClosedSize(m);
    ThreeChildren(moof);
    ChildBytes(moof);
  }

  /** The two runs of a closed fragment. */
  lemma ClosedRuns(m: Mux)
    requires Ready(m)
    ensures !CloseCrashes(m)
    ensures var moof := ClosedMoof(m);
            && moof.Container? && moof.kind == MOOF && |moof.children| == 3
            && moof.children[0] == Mfhd(16, 0, 0, m.sequence)
            && moof.children[1] == Shift(Traf(First(m), m.curTrackOffset, !AudioFirst(m)), moof.size)
            && var next := Add64(m.curTrackOffset, First(m).accOffset);
            moof.children[2] == Shift(Traf(Second(m), next, AudioFirst(m)), moof.size)
  {
    hide Traf, Shift, Samples, Packed, Low32, Low64;
    ReadyCloses(m);
  }

  /** Data offsets are taken modulo 2^32. */
  lemma OffsetIff(size: nat, c: U64, first: nat)
    requires size + 8 + first < 0x1_0000_0000
    ensures Low32(8 + Low32(c) + Low32(size)) == size + 8 <==> Low32(c) == 0
    ensures Low32(8 + Low32(Add64(c, Low64(first))) + Low32(size)) == size + 8 + first <==> Low32(c) == 0
  {
    var a := Low32(c);
    assert Low32(size) == size;
    assert Low32(Add64(c, Low64(first))) == Low32(a + first) by { LowOfSum(c, first); }
    Wrap32(8 + size, a);
    if a + first < 0x1_0000_0000 {
      Wrap32(8 + size + first, a);
    } else {
      Wrap32(8 + size, a + first - 0x1_0000_0000);
    }
  }

  lemma LowOfLow(x: nat)
    ensures Low32(Low64(x)) == Low32(x)
  {
    var k, r := x / 0x1_0000_0000_0000_0000, Low64(x);
    assert x == (k * 0x1_0000_0000) * 0x1_0000_0000 + r;
    Fold32(k * 0x1_0000_0000, r);
  }

  lemma Fold32(q: nat, r: nat)
    ensures Low32(q * 0x1_0000_0000 + r) == Low32(r)
  {
  }

  lemma LowOfSum(c: U64, first: nat)
    requires first < 0x1_0000_0000
    ensures Low32(Add64(c, Low64(first))) == Low32(Low32(c) + first)
  {
    Small(first);
    LowOfLow(c + first);
    Sum32(c, first);
  }

  lemma Wrap32(x: nat, a: nat)
    requires x < 0x1_0000_0000 && a < 0x1_0000_0000
    ensures Low32(x + a) == if x + a < 0x1_0000_0000 then x + a else x + a - 0x1_0000_0000
  {
  }

  // ---------------------------------------------------------------- layout

  /** The closed fragment's bytes in the file: the media data follows its moof and an 8-byte header. */
  lemma FragmentInFile(m: Mux)
    requires Ready(m)
    ensures !CloseCrashes(m)
    ensures var file, moof, data := File(CloseFragment(m)), ClosedMoof(m), ClosedData(m);
            var at := |File(m)| + moof.size + 8;
            && |file| == at + |data| && File(m) <= file && file[at..] == data
            && file[|File(m)|..|File(m)| + moof.size] == Serialize(moof)
  {
    ClosedMoofWf(m);
    hide ClosedMoof, CloseCrashes, Serialize, BoxHeader, CacheOk, Wf;
    var m1, moof, data := CloseFragment(m), ClosedMoof(m), ClosedData(m);
    var f := ClosedFragment(m);
    assert m1.fragments[..|m.fragments|] == m.fragments;
    Small(8 + |data|);
    var head := BoxHeader(8 + |data|, MDAT);
    Assoc(m.header, FragmentsBytes(m.fragments), FragmentBytes(f));
    Assoc(Serialize(moof), head, data);
    Pieces(File(m), Serialize(moof), head, data);
  }

  lemma Pieces(a: Bytes, b: Bytes, c: Bytes, d: Bytes)
    ensures var s := a + (b + (c + d));
            && |s| == |a| + |b| + |c| + |d| && a <= s && s[|a| + |b| + |c|..] == d && s[|a|..|a| + |b|] == b
  {
  }

  predicate IsTraf(b: Box) {
    b.Container? && |b.children| == 3 && b.children[0].Tfhd? && b.children[1].Tfdt? && b.children[2].Trun?
  }

  /** Where a run says its data starts: base offset plus data offset. */
  function Start(b: Box): nat
    requires IsTraf(b)
  {
    b.children[0].base + b.children[2].dataOffset
  }

  lemma BothTracks(m: Mux)
    requires Ready(m)
    ensures ClosedData(m) == First(m).buf + Second(m).buf
  {
  }

  // ---------------------------------------------------------------- samples tile the video

  function Total(sizes: seq<Sample>): nat {
    if |sizes| == 0 then 0 else Total(sizes[..|sizes| - 1]) + sizes[|sizes| - 1].size
  }

  /** Video sample sizes cut the video bytes into the frames, without gap or overlap. */
  lemma {:induction false} VideoTiles(frames: seq<Bytes>, i: nat)
    requires i < |frames| && |Packed(frames, false)| < 0x1_0000_0000
    ensures var at := Total(Samples(frames)[..i]);
            && Samples(frames)[i].size == |frames[i]| && at + |frames[i]| <= |Packed(frames, false)|
            && Packed(frames, false)[at..at + |frames[i]|] == frames[i]
    ensures Total(Samples(frames)) == |Packed(frames, false)|
    decreases |frames|
  {
    var n := |frames| - 1;
    var init := frames[..n];
    assert Samples(frames)[..n] == Samples(init);
    Small(|frames[n]|);
    if n == 0 {
      assert Packed(init, false) == [] && Total(Samples(init)) == 0;
    } else {
      VideoTiles(init, if i < n then i else 0);
    }
    if i < n {
      assert Samples(frames)[..i] == Samples(init)[..i];
    }
  }

  /** Audio bytes exceed what the audio sample sizes cover by four for every frame that is not empty. */
  lemma {:induction false} AudioTilesShort(frames: seq<Bytes>)
    requires |Packed(frames, true)| < 0x1_0000_0000
    ensures |Packed(frames, true)| == Total(Samples(frames)) + 4 * NonEmpty(frames)
    decreases |frames|
  {
    if |frames| > 0 {
      var n := |frames| - 1;
      assert Samples(frames)[..n] == Samples(frames[..n]);
      AudioTilesShort(frames[..n]);
      Small(|frames[n]|);
    }
  }

  /** Where an audio frame really is: past the length fields of the frames before it and its own. */
  lemma {:induction false} AudioFrameAt(frames: seq<Bytes>, i: nat)
    requires i < |frames| && |Packed(frames, true)| < 0x1_0000_0000
    ensures var at := Total(Samples(frames)[..i]) + 4 * NonEmpty(frames[..i + 1]);
            && Samples(frames)[i].size == |frames[i]| && at + |frames[i]| <= |Packed(frames, true)|
            && Packed(frames, true)[at..at + |frames[i]|] == frames[i]
    decreases |frames|
  {
    hide Packed, Samples, Total, NonEmpty;
    var n := |frames| - 1;
    if i < n {
      AudioEarlier(frames, i);
      AudioFrameAt(frames[..n], i);
      var at := Total(Samples(frames)[..i]) + 4 * NonEmpty(frames[..i + 1]);
      SliceOfPrefix(Packed(frames[..n], true), Packed(frames, true), at, at + |frames[i]|);
    } else {
      AudioLast(frames);
    }
  }

  lemma SliceOfPrefix(x: Bytes, y: Bytes, i: nat, j: nat)
    requires x <= y && i <= j <= |x|
    ensures x[i..j] == y[i..j]
  {
    SliceOfTake(y, |x|, i, j);
  }

  /** The frames before the last are where they were. */
  lemma AudioEarlier(frames: seq<Bytes>, i: nat)
    requires i + 1 < |frames|
    ensures var init := frames[..|frames| - 1];
            && Packed(init, true) <= Packed(frames, true) && |Samples(frames)| == |frames| && |Samples(init)| == |init|
            && Samples(frames)[i] == Samples(init)[i]
            && Samples(frames)[..i] == Samples(init)[..i] && frames[..i + 1] == init[..i + 1]
  {
  }

  lemma AudioLast(frames: seq<Bytes>)
    requires |frames| > 0 && |Packed(frames, true)| < 0x1_0000_0000
    ensures var n := |frames| - 1;
            var at := Total(Samples(frames)[..n]) + 4 * NonEmpty(frames[..n + 1]);
            && Samples(frames)[n].size == |frames[n]| && at + |frames[n]| <= |Packed(frames, true)|
            && Packed(frames, true)[at..at + |frames[n]|] == frames[n]
  {
    var n := |frames| - 1;
    assert Samples(frames)[..n] == Samples(frames[..n]) && frames[..n + 1] == frames;
    AudioTilesShort(frames[..n]);
    Small(|frames[n]|);
    hide Total, Samples;
    EndOfConcat(Packed(frames[..n], true), PutU32BE(|frames[n]|), frames[n]);
  }

  lemma EndOfConcat(x: Bytes, y: Bytes, z: Bytes)
    ensures (x + (y + z))[|x| + |y|..|x| + |y| + |z|] == z && (x + z)[|x|..|x| + |z|] == z
  {
  }

  function NonEmpty(frames: seq<Bytes>): nat {
    if |frames| == 0 then 0
    else NonEmpty(frames[..|frames| - 1]) + (if |frames[|frames| - 1]| > 0 then 1 else 0)
  }
}
