/** Where the finished file of a muxing run holds its frames, and where its boxes say so. */
module Fmp4Layout {
  import opened ByteIO
  import opened Mp4Box
  import opened Fmp4
  import opened Fmp4Laws
  import opened Fmp4Run

  // ---------------------------------------------------------------- one fragment

  function VideoBytes(f: Fragment): Bytes { Packed(f.video, false) }
  function AudioBytes(f: Fragment): Bytes { Packed(f.audio, true) }

  /** What the first of the two tracks put into the media data. */
  function FirstBytes(f: Fragment, audioFirst: bool): Bytes { if audioFirst then AudioBytes(f) else VideoBytes(f) }

  predicate TwoTrafs(moof: Box) {
    moof.Container? && |moof.children| == 3 && IsTraf(moof.children[1]) && IsTraf(moof.children[2])
  }

  function VideoTraf(f: Fragment, audioFirst: bool): (t: Box)
    requires TwoTrafs(f.moof)
    ensures IsTraf(t)
  {
    if audioFirst then f.moof.children[2] else f.moof.children[1]
  }

  function AudioTraf(f: Fragment, audioFirst: bool): (t: Box)
    requires TwoTrafs(f.moof)
    ensures IsTraf(t)
  {
    if audioFirst then f.moof.children[1] else f.moof.children[2]
  }

  /** A fragment's media data is its frames, its runs list their sizes, and its data offsets count from the offset it
      was opened with. */
  predicate FragmentOk(f: Fragment, audioFirst: bool) {
    && TwoTrafs(f.moof)
    && f.data == (if audioFirst then AudioBytes(f) + VideoBytes(f) else VideoBytes(f) + AudioBytes(f))
    && f.data != [] && f.moof.size + 8 + |f.data| < 0x1_0000_0000
    && VideoTraf(f, audioFirst).children[2].samples == Samples(f.video)
    && AudioTraf(f, audioFirst).children[2].samples == Samples(f.audio)
    && f.moof.children[1].children[2].dataOffset == Low32(8 + Low32(f.openedAt) + Low32(f.moof.size))
    && f.moof.children[2].children[2].dataOffset
       == Low32(8 + Low32(Add64(f.openedAt, Low64(|FirstBytes(f, audioFirst)|))) + Low32(f.moof.size))
  }

  lemma ClosedFragmentOk(m: Mux)
    requires Ready(m) && m.v.accOffset > 0
    ensures !CloseCrashes(m) && FragmentOk(ClosedFragment(m), AudioFirst(m))
  {
    hide Traf, Shift, ClosedMoof, CloseCrashes, Samples, Packed, Low32, Low64, Add64;
    ReadyCloses(m);
    ClosedRuns(m);
    ClosedSize(m);
    BothTracks(m);
    var size := ClosedMoof(m).size;
    TrafParts(First(m), m.curTrackOffset, !AudioFirst(m), size);
    TrafParts(Second(m), Add64(m.curTrackOffset, First(m).accOffset), AudioFirst(m), size);
    assert m.v.buf != [] by { Small(0); }
  }

  // ---------------------------------------------------------------- what every run keeps

  /** The media data written since the segment of fragment i began. */
  function Since(fs: seq<Fragment>, i: nat): nat
    requires i <= |fs|
  {
    if i == 0 || fs[i - 1].ends then 0 else Since(fs, i - 1) + |fs[i - 1].data|
  }

  predicate LaidFragment(fs: seq<Fragment>, i: nat, audioFirst: bool)
    requires i < |fs|
  {
    FragmentOk(fs[i], audioFirst) && fs[i].openedAt == Low64(Since(fs, i))
  }

  ghost predicate LayoutOk(m: Mux) {
    && (forall i :: 0 <= i < |m.fragments| ==> LaidFragment(m.fragments, i, AudioFirst(m)))
    && m.curTrackOffset == Low64(Since(m.fragments, |m.fragments|))
  }

  lemma {:induction false} SinceExtends(fs: seq<Fragment>, f: Fragment, i: nat)
    requires i <= |fs|
    ensures Since(fs + [f], i) == Since(fs, i)
    decreases i
  {
    if i > 0 {
      assert (fs + [f])[i - 1] == fs[i - 1];
      SinceExtends(fs, f, i - 1);
    }
  }

  lemma AppendLaid(fs: seq<Fragment>, f: Fragment, audioFirst: bool)
    requires forall i :: 0 <= i < |fs| ==> LaidFragment(fs, i, audioFirst)
    requires FragmentOk(f, audioFirst) && f.openedAt == Low64(Since(fs, |fs|))
    ensures forall i :: 0 <= i <= |fs| ==> LaidFragment(fs + [f], i, audioFirst)
    ensures Since(fs + [f], |fs| + 1) == if f.ends then 0 else Since(fs, |fs|) + |f.data|
  {
    hide FragmentOk, LaidFragment, Low64;
    forall i | 0 <= i <= |fs|
      ensures LaidFragment(fs + [f], i, audioFirst)
    {
      if i < |fs| { assert LaidFragment(fs, i, audioFirst); }
      OneLaid(fs, f, i, audioFirst);
    }
    SinceExtends(fs, f, |fs|);
    assert (fs + [f])[|fs|] == f;
  }

  lemma OneLaid(fs: seq<Fragment>, f: Fragment, i: nat, audioFirst: bool)
    requires i <= |fs| && (i < |fs| ==> LaidFragment(fs, i, audioFirst))
    requires FragmentOk(f, audioFirst) && f.openedAt == Low64(Since(fs, |fs|))
    ensures LaidFragment(fs + [f], i, audioFirst)
  {
    hide FragmentOk, Since, Low64;
    SinceExtends(fs, f, i);
    assert (fs + [f])[i] == if i < |fs| then fs[i] else f;
  }

  /** Closing a fragment. */
  lemma CloseLays(m: Mux)
    requires Ready(m) && m.v.accOffset > 0 && LayoutOk(m)
    ensures !CloseCrashes(m)
    ensures var m2 := CloseFragment(m);
            LayoutOk(if EndsSegment(m) then m2.(curTrackOffset := 0, sequence := 1) else m2)
  {
    hide FragmentOk, Ready, CloseCrashes, CloseFragment, ClosedFragment, Since, Low64, LaidFragment;
    ClosedFragmentOk(m);
    CloseOffset(m);
    CloseIs(m);
    AppendLaid(m.fragments, ClosedFragment(m), AudioFirst(m));
    LowChain(Since(m.fragments, |m.fragments|), |ClosedData(m)|);
  }

  lemma CloseIs(m: Mux)
    requires !CloseCrashes(m)
    ensures var m2, f := CloseFragment(m), ClosedFragment(m);
            && m2.fragments == m.fragments + [f] && m2.audioTrack == m.audioTrack && m2.videoTrack == m.videoTrack
            && f.data == ClosedData(m) && f.openedAt == m.curTrackOffset && f.ends == EndsSegment(m)
  {
    hide ClosedMoof, ClosedData, CloseCrashes;
  }

  lemma LowChain(x: nat, n: nat)
    ensures Low64(Low64(x) + n) == Low64(x + n) && Low64(0) == 0
  {
    Sum64(x, n);
  }

  lemma LayoutSame(m: Mux, m1: Mux)
    requires LayoutOk(m) && m1.fragments == m.fragments && m1.curTrackOffset == m.curTrackOffset
    requires m1.audioTrack == m.audioTrack && m1.videoTrack == m.videoTrack
    ensures LayoutOk(m1)
  {
    hide LaidFragment, Since;
    forall i | 0 <= i < |m1.fragments|
      ensures LaidFragment(m1.fragments, i, AudioFirst(m1))
    {
      assert LaidFragment(m.fragments, i, AudioFirst(m));
    }
  }

  lemma KeyFrameLays(m: Mux, ts: int)
    requires MuxOk(m) && LayoutOk(m) && (m.v.accOffset > 0 ==> Fits(m))
    ensures var o := KeyFrame(m, ts); o.Done? ==> LayoutOk(o.mux)
  {
    if m.v.accOffset > 0 {
      HeaderOk(m);
      var m1 := WithHeader(m);
      if !CloseCrashes(m1) {
        HeaderKeeps(m);
        LayoutSame(m, m1);
        FitsSame(m, m1);
        BecomesReady(m1);
        CloseLays(m1);
        hide LayoutOk, MuxOk, CloseFragment, CloseCrashes, WithHeader;
        var m2 := CloseFragment(m1);
        var m3 := if EndsSegment(m) then m2.(curTrackOffset := 0, sequence := 1) else m2;
        LayoutSame(m3, ResetFrag(m3, ts).(keyFrames := 1));
      }
    } else {
      LayoutSame(m, ResetFrag(m, ts).(keyFrames := m.keyFrames + 1));
    }
  }

  lemma HeaderKeeps(m: Mux)
    ensures var m1 := WithHeader(m);
            && m1.fragments == m.fragments && m1.curTrackOffset == m.curTrackOffset && m1.audioTrack == m.audioTrack
            && m1.videoTrack == m.videoTrack && m1.segDuration == m.segDuration
            && m1.v.lastTs == m.v.lastTs && m1.v.firstTs == m.v.firstTs
  {
  }

  lemma FeedLays(m: Mux, i: Input)
    requires MuxOk(m) && LayoutOk(m) && Moderate(m, i)
    ensures CachesTyped(m)
    ensures var o := Feed(m, i); o.Done? ==> LayoutOk(o.mux)
  {
    Typed(m);
    if i.VideoIn? && i.key {
      KeyFrameLays(m, i.ts);
      KeyFrameOk(m, i.ts);
      hide KeyFrame, Fits, LayoutOk, MuxOk;
      var o := KeyFrame(m, i.ts);
      if o.Done? {
        Typed(o.mux);
        LayoutSame(o.mux, o.mux.(v := AddFrame(o.mux.v, i.frame, i.ts, 0)));
      }
    } else if i.VideoIn? {
      LayoutSame(m, m.(v := AddFrame(m.v, i.frame, i.ts, 0)));
    } else {
      LayoutSame(m, m.(a := AddFrame(m.a, i.frame, i.ts, |i.frame|)));
    }
  }

  lemma {:induction false} RunLays(m: Mux, ins: seq<Input>)
    requires MuxOk(m) && LayoutOk(m) && Runs(m, ins)
    ensures MuxOk(FeedAll(m, ins)) && LayoutOk(FeedAll(m, ins))
    decreases |ins|
  {
    hide MuxOk, LayoutOk, Feed;
    if |ins| > 0 {
      FeedOk(m, ins[0]);
      FeedLays(m, ins[0]);
      RunLays(Feed(m, ins[0]).mux, ins[1..]);
    }
  }

  /** A new muxer, whatever its tracks and its header, keeps both invariants. */
  lemma NewMuxOk(headerBytes: Bytes, videoTrack: U32, audioTrack: U32, segDuration: int)
    requires headerBytes != [] && videoTrack > 0 && audioTrack > 0 && videoTrack != audioTrack
    ensures var m := NewMux(headerBytes, videoTrack, audioTrack, segDuration); MuxOk(m) && LayoutOk(m)
  {
  }

  lemma NewMuxIs(headerBytes: Bytes, videoTrack: U32, audioTrack: U32, segDuration: int)
    ensures var m := NewMux(headerBytes, videoTrack, audioTrack, segDuration);
            m.v.accOffset == 0 && m.fragments == [] && m.segDuration == segDuration && m.headerBytes == headerBytes
  {
  }

  /** So does every run from one. */
  lemma RunFromNew(headerBytes: Bytes, videoTrack: U32, audioTrack: U32, segDuration: int, ins: seq<Input>)
    requires headerBytes != [] && videoTrack > 0 && audioTrack > 0 && videoTrack != audioTrack
    requires Runs(NewMux(headerBytes, videoTrack, audioTrack, segDuration), ins)
    ensures var m := FeedAll(NewMux(headerBytes, videoTrack, audioTrack, segDuration), ins); MuxOk(m) && LayoutOk(m)
  {
    hide MuxOk, LayoutOk, NewMux;
    NewMuxOk(headerBytes, videoTrack, audioTrack, segDuration);
    RunLays(NewMux(headerBytes, videoTrack, audioTrack, segDuration), ins);
  }

  // ---------------------------------------------------------------- the finished file

  /** Where fragment i's media data starts in the file. */
  function DataStart(m: Mux, i: nat): nat
    requires i < |m.fragments|
  {
    |m.header| + |FragmentsBytes(m.fragments[..i])| + m.fragments[i].moof.size + 8
  }

  lemma DataInFile(m: Mux, i: nat)
    requires MuxOk(m) && LayoutOk(m) && i < |m.fragments|
    ensures var at, f := DataStart(m, i), m.fragments[i];
            at + |f.data| <= |File(m)| && File(m)[at..at + |f.data|] == f.data
  {
    hide Serialize, Wf, BasesAre, FragmentsBytes, FragmentsAfter, Low64, FragmentOk, BoxHeader, MuxOk, LayoutOk, Since;
    Known(m, i);
    var f, before := m.fragments[i], FragmentsBytes(m.fragments[..i]);
    var after := FragmentsAfter(m.fragments, i + 1);
    Split(m.fragments, i);
    ChildBytes(f.moof);
    var head := BoxHeader(Low64(8 + |f.data|), MDAT);
    HeadLength(f, AudioFirst(m));
    DataAt(m.header, before, Serialize(f.moof), head, f.data, after);
  }

  lemma Known(m: Mux, i: nat)
    requires MuxOk(m) && LayoutOk(m) && i < |m.fragments|
    ensures PositionedAt(m.header, m.fragments, i) && LaidFragment(m.fragments, i, AudioFirst(m))
  {
    hide CacheOk, PositionedAt, LaidFragment, FragmentsBytes, Low64, Since;
  }

  lemma HeadLength(f: Fragment, audioFirst: bool)
    requires FragmentOk(f, audioFirst)
    ensures |BoxHeader(Low64(8 + |f.data|), MDAT)| == 8
  {
    Small(8 + |f.data|);
  }

  lemma DataAt(a: Bytes, b: Bytes, c: Bytes, h: Bytes, d: Bytes, rest: Bytes)
    ensures var s, at := a + (b + (c + ((h + d) + rest))), |a| + |b| + |c| + |h|;
            at + |d| <= |s| && s[at..at + |d|] == d
  {
    var s, at := a + (b + (c + ((h + d) + rest))), |a| + |b| + |c| + |h|;
    assert s == (a + b + c + h) + (d + rest);
  }

  /** Where the first and the second track's bytes are. */
  function VideoStart(m: Mux, i: nat): nat
    requires i < |m.fragments|
  {
    DataStart(m, i) + if AudioFirst(m) then |AudioBytes(m.fragments[i])| else 0
  }

  function AudioStart(m: Mux, i: nat): nat
    requires i < |m.fragments|
  {
    DataStart(m, i) + if AudioFirst(m) then 0 else |VideoBytes(m.fragments[i])|
  }

  /** What a fragment's boxes say, against where its data really starts. */
  lemma StartsIff(f: Fragment, audioFirst: bool, base: U64)
    requires FragmentOk(f, audioFirst) && BasesAre(f.moof, base)
    ensures Start(f.moof.children[1]) == base + f.moof.size + 8 <==> Low32(f.openedAt) == 0
    ensures Start(f.moof.children[2]) == base + f.moof.size + 8 + |FirstBytes(f, audioFirst)|
            <==> Low32(f.openedAt) == 0
  {
    hide Packed, Samples, Low32, Low64, Add64;
    OffsetIff(f.moof.size, f.openedAt, |FirstBytes(f, audioFirst)|);
  }

  lemma Placed(m: Mux, i: nat)
    requires MuxOk(m) && LayoutOk(m) && i < |m.fragments| && |File(m)| < 0x1_0000_0000_0000_0000
    ensures var f, at := m.fragments[i], |m.header| + |FragmentsBytes(m.fragments[..i])|;
            && FragmentOk(f, AudioFirst(m)) && f.openedAt == Low64(Since(m.fragments, i))
            && at < 0x1_0000_0000_0000_0000 && BasesAre(f.moof, at)
  {
    hide FragmentOk, BasesAre, File, FragmentsBytes, Wf, Since, MuxOk, LayoutOk, Low64;
    DataInFile(m, i);
    Known(m, i);
    Small64Bit(|m.header| + |FragmentsBytes(m.fragments[..i])|);
  }

  lemma Small64Bit(x: nat)
    requires x < 0x1_0000_0000_0000_0000
    ensures Low64(x) == x
  {
  }

  /** In the file of every run, what a fragment's boxes say about where its tracks start is true exactly when the media
      data written since its segment began is a multiple of 4 GiB: for the first fragment of a segment, that is. */
  lemma LaidOutIff(m: Mux, i: nat)
    requires MuxOk(m) && LayoutOk(m) && i < |m.fragments| && |File(m)| < 0x1_0000_0000_0000_0000
    ensures var f, af := m.fragments[i], AudioFirst(m);
            && TwoTrafs(f.moof)
            && (Start(VideoTraf(f, af)) == VideoStart(m, i) <==> Low32(Since(m.fragments, i)) == 0)
            && (Start(AudioTraf(f, af)) == AudioStart(m, i) <==> Low32(Since(m.fragments, i)) == 0)
  {
    hide FragmentOk, BasesAre, File, FragmentsBytes, Since, MuxOk, LayoutOk, Low64, Low32, Packed, Start;
    Placed(m, i);
    var f, af := m.fragments[i], AudioFirst(m);
    Trafs(f, af);
    LowOfLow(Since(m.fragments, i));
    StartsIff(f, af, |m.header| + |FragmentsBytes(m.fragments[..i])|);
  }

  lemma Trafs(f: Fragment, audioFirst: bool)
    requires FragmentOk(f, audioFirst)
    ensures TwoTrafs(f.moof)
    ensures VideoTraf(f, audioFirst).children[2].samples == Samples(f.video)
    ensures AudioTraf(f, audioFirst).children[2].samples == Samples(f.audio)
  {
  }

  function SamplesOf(t: Box): seq<Sample>
    requires IsTraf(t)
  {
    t.children[2].samples
  }

  /** Sample j of a run, `extra` bytes after the place its offsets and sizes give, is this frame. */
  predicate SampleIs(file: Bytes, t: Box, j: nat, extra: nat, frame: Bytes)
    requires IsTraf(t)
  {
    var samples := SamplesOf(t);
    && j < |samples| && samples[j].size == |frame|
    && var at := Start(t) + Total(samples[..j]) + extra;
    at + |frame| <= |file| && file[at..at + |frame|] == frame
  }

  /** Video: the sample table of a fragment laid out right names exactly the places of its frames in the file. */
  lemma VideoFramesInFile(m: Mux, i: nat, j: nat)
    requires MuxOk(m) && LayoutOk(m) && i < |m.fragments| && |File(m)| < 0x1_0000_0000_0000_0000
    requires Low32(Since(m.fragments, i)) == 0 && j < |m.fragments[i].video|
    ensures var f := m.fragments[i];
            TwoTrafs(f.moof) && SampleIs(File(m), VideoTraf(f, AudioFirst(m)), j, 0, f.video[j])
  {
    hide MuxOk, LayoutOk, File, Packed, Low32, Since, Start, DataStart, IsTraf, TwoTrafs, Samples;
    hide VideoTraf, AudioTraf, Total, SampleIs;
    var f, af := m.fragments[i], AudioFirst(m);
    TracksAt(m, i);
    VideoTiles(f.video, j);
    SampleAt(File(m), DataStart(m, i), f.data, if af then |AudioBytes(f)| else 0, VideoBytes(f),
             VideoTraf(f, af), j, 0, f.video[j]);
  }

  /** The two tracks of a fragment laid out right: their parts of the data, and what their boxes say. */
  lemma TracksAt(m: Mux, i: nat)
    requires MuxOk(m) && LayoutOk(m) && i < |m.fragments| && |File(m)| < 0x1_0000_0000_0000_0000
    requires Low32(Since(m.fragments, i)) == 0
    ensures var f, at := m.fragments[i], DataStart(m, i);
            at + |f.data| <= |File(m)| && File(m)[at..at + |f.data|] == f.data && TwoTrafs(m.fragments[i].moof)
    ensures var f, af, at := m.fragments[i], AudioFirst(m), DataStart(m, i);
            var v, a := |VideoBytes(f)|, |AudioBytes(f)|;
            var x, y := if af then a else 0, if af then 0 else v;
            && x + v <= |f.data| && f.data[x..x + v] == VideoBytes(f) && v < 0x1_0000_0000
            && y + a <= |f.data| && f.data[y..y + a] == AudioBytes(f) && a < 0x1_0000_0000
            && |Samples(f.video)| == |f.video| && |Samples(f.audio)| == |f.audio|
            && Start(VideoTraf(f, af)) == at + x && SamplesOf(VideoTraf(f, af)) == Samples(f.video)
            && Start(AudioTraf(f, af)) == at + y && SamplesOf(AudioTraf(f, af)) == Samples(f.audio)
  {
    hide MuxOk, LayoutOk, File, Packed, Low32, Low64, Since, Start, DataStart, TwoTrafs, FragmentOk, BasesAre, Samples;
    hide VideoTraf, AudioTraf;
    LaidOutIff(m, i);
    Placed(m, i);
    DataInFile(m, i);
    Trafs(m.fragments[i], AudioFirst(m));
    DataParts(m.fragments[i], AudioFirst(m));
  }

  /** Audio: the sample sizes leave out the length in front of each frame, so a frame is four bytes further on for every
      frame up to it that is not empty. */
  lemma AudioFramesInFile(m: Mux, i: nat, j: nat)
    requires MuxOk(m) && LayoutOk(m) && i < |m.fragments| && |File(m)| < 0x1_0000_0000_0000_0000
    requires Low32(Since(m.fragments, i)) == 0 && j < |m.fragments[i].audio|
    ensures var f := m.fragments[i];
            && TwoTrafs(f.moof)
            && SampleIs(File(m), AudioTraf(f, AudioFirst(m)), j, 4 * NonEmpty(f.audio[..j + 1]), f.audio[j])
  {
    hide MuxOk, LayoutOk, File, Packed, Low32, Since, Start, DataStart, IsTraf, TwoTrafs, Samples;
    hide VideoTraf, AudioTraf, Total, NonEmpty, SampleIs;
    var f, af := m.fragments[i], AudioFirst(m);
    TracksAt(m, i);
    AudioFrameAt(f.audio, j);
    SampleAt(File(m), DataStart(m, i), f.data, if af then 0 else |VideoBytes(f)|, AudioBytes(f),
             AudioTraf(f, af), j, 4 * NonEmpty(f.audio[..j + 1]), f.audio[j]);
  }

  /** From a part of the media data to the file. */
  lemma SampleAt(
    file: Bytes, at: nat, d: Bytes, skip: nat, part: Bytes, t: Box, j: nat, extra: nat, frame: Bytes)
    requires at + |d| <= |file| && file[at..at + |d|] == d && skip + |part| <= |d| && d[skip..skip + |part|] == part
    requires IsTraf(t) && Start(t) == at + skip && j < |SamplesOf(t)|
    requires var samples := SamplesOf(t);
             && samples[j].size == |frame|
             && var i := Total(samples[..j]) + extra; i + |frame| <= |part| && part[i..i + |frame|] == frame
    ensures SampleIs(file, t, j, extra, frame)
  {
    hide Start, Total, SamplesOf, IsTraf;
    SliceOfSlice(file, at, d, skip, part, Total(SamplesOf(t)[..j]) + extra, |frame|);
  }

  /** The two tracks' parts of a fragment's data. */
  lemma DataParts(f: Fragment, audioFirst: bool)
    requires FragmentOk(f, audioFirst)
    ensures var v, a := |VideoBytes(f)|, |AudioBytes(f)|;
            var at, at' := if audioFirst then a else 0, if audioFirst then 0 else v;
            && at + v <= |f.data| && f.data[at..at + v] == VideoBytes(f) && v < 0x1_0000_0000
            && at' + a <= |f.data| && f.data[at'..at' + a] == AudioBytes(f) && a < 0x1_0000_0000
            && |Samples(f.video)| == |f.video| && |Samples(f.audio)| == |f.audio|
  {
    hide Packed;
    if audioFirst {
      TwoParts(f.data, AudioBytes(f), VideoBytes(f));
    } else {
      TwoParts(f.data, VideoBytes(f), AudioBytes(f));
    }
  }

  lemma TwoParts(d: Bytes, x: Bytes, y: Bytes)
    requires d == x + y
    ensures d[0..0 + |x|] == x && d[|x|..|x| + |y|] == y && |d| == |x| + |y|
  {
  }

  lemma SliceOfSlice(s: Bytes, at: nat, d: Bytes, skip: nat, part: Bytes, i: nat, n: nat)
    requires at + |d| <= |s| && s[at..at + |d|] == d
    requires skip + |part| <= |d| && d[skip..skip + |part|] == part && i + n <= |part|
    ensures s[at + skip + i..at + skip + i + n] == part[i..i + n]
  {
    Inner(s, at, at + |d|, skip + i, skip + i + n);
    Inner(d, skip, skip + |part|, i, i + n);
  }

  lemma Inner(s: Bytes, a: nat, b: nat, i: nat, j: nat)
    requires i <= j && a + j <= b <= |s|
    ensures s[a..b][i..j] == s[a + i..a + j]
  {
    SliceOfDrop(s[..b], a, i, j);
    SliceOfTake(s, b, a + i, a + j);
  }

  // ---------------------------------------------------------------- fragments laid out wrong

  /** The track offset is not reset between the fragments of a segment: in the file of every run, the fragment after one
      that is laid out right is laid out wrong, unless a segment ended between them. */
  lemma NextFragmentIsMisplaced(m: Mux, i: nat)
    requires MuxOk(m) && LayoutOk(m) && i + 1 < |m.fragments| && |File(m)| < 0x1_0000_0000_0000_0000
    requires !m.fragments[i].ends && TwoTrafs(m.fragments[i].moof)
    requires Start(VideoTraf(m.fragments[i], AudioFirst(m))) == VideoStart(m, i)
    ensures var f := m.fragments[i + 1];
            && TwoTrafs(f.moof) && Start(VideoTraf(f, AudioFirst(m))) != VideoStart(m, i + 1)
            && Start(AudioTraf(f, AudioFirst(m))) != AudioStart(m, i + 1)
  {
    hide MuxOk, LayoutOk, File, Low32, Low64, Start, TwoTrafs, BasesAre, VideoStart, AudioStart;
    LaidOutIff(m, i);
    LaidOutIff(m, i + 1);
    Placed(m, i);
    var x, n := Since(m.fragments, i), |m.fragments[i].data|;
    NotMultiple(x, n);
  }

  lemma NotMultiple(x: nat, n: nat)
    requires Low32(x) == 0 && 0 < n < 0x1_0000_0000
    ensures Low32(x + n) != 0
  {
    Sum32(x, n);
    Small(n);
  }

  /** The first fragment of a segment is laid out right. */
  lemma FirstFragmentIsPlaced(m: Mux, i: nat)
    requires MuxOk(m) && LayoutOk(m) && i < |m.fragments| && |File(m)| < 0x1_0000_0000_0000_0000
    requires i == 0 || m.fragments[i - 1].ends
    ensures var f := m.fragments[i];
            && TwoTrafs(f.moof) && Start(VideoTraf(f, AudioFirst(m))) == VideoStart(m, i)
            && Start(AudioTraf(f, AudioFirst(m))) == AudioStart(m, i)
  {
    hide MuxOk, LayoutOk, File, Low64, Start, TwoTrafs, BasesAre, VideoStart, AudioStart;
    LaidOutIff(m, i);
    assert Low32(0) == 0;
  }

  // ---------------------------------------------------------------- such a run

  /** Three key frames with audio between them, close enough to stay in one segment. */
  function ThreeKeys(b: Byte): seq<Input> {
    [VideoIn([b], 0, true), AudioIn([b], 0), VideoIn([b], 10, true), AudioIn([b], 10), VideoIn([b], 20, true)]
  }

  /** A state that holds one video frame and perhaps one audio frame, with a fragment open. */
  ghost predicate Holding(m: Mux, b: Byte, audio: bool) {
    && MuxOk(m) && LayoutOk(m) && m.moof.Some? && m.v.trun.Some? && m.v.frames == [[b]]
    && m.v.firstTs == m.v.lastTs && (m.a.trun.Some? <==> audio) && (audio ==> m.a.frames == [[b]])
  }

  lemma HoldingSizes(m: Mux, b: Byte)
    requires Holding(m, b, true)
    ensures m.v.accOffset == 1 && Fits(m) && CachesTyped(m) && |m.a.buf| == 5 && |m.v.buf| == 1
  {
    Typed(m);
    assert Packed([[b]], false) == Packed([], false) + [b];
    assert Packed([[b]], true) == Packed([], true) + Unit([b], true);
    Small(1);
  }

  lemma FirstKey(m: Mux, b: Byte, ts: int)
    requires MuxOk(m) && LayoutOk(m) && m.v.accOffset == 0
    ensures CachesTyped(m) && Moderate(m, VideoIn([b], ts, true))
    ensures var o := Feed(m, VideoIn([b], ts, true));
            o.Done? && Holding(o.mux, b, false) && o.mux.fragments == m.fragments && o.mux.segDuration == m.segDuration
  {
    FeedOk(m, VideoIn([b], ts, true));
    FeedLays(m, VideoIn([b], ts, true));
    hide MuxOk, LayoutOk;
    assert [] + [[b]] == [[b]];
  }

  lemma AudioKept(m: Mux, b: Byte, ts: int)
    requires Holding(m, b, false)
    ensures CachesTyped(m) && Moderate(m, AudioIn([b], ts))
    ensures var o := Feed(m, AudioIn([b], ts));
            o.Done? && Holding(o.mux, b, true) && o.mux.fragments == m.fragments && o.mux.segDuration == m.segDuration
  {
    FeedOk(m, AudioIn([b], ts));
    FeedLays(m, AudioIn([b], ts));
    assert TwoTracks(m);
    hide MuxOk, LayoutOk;
    assert [] + [[b]] == [[b]];
  }

  lemma NextKey(m: Mux, b: Byte, ts: int)
    requires Holding(m, b, true) && m.segDuration >= 0
    ensures CachesTyped(m) && Moderate(m, VideoIn([b], ts, true))
    ensures var o := Feed(m, VideoIn([b], ts, true));
            && o.Done? && Holding(o.mux, b, false) && o.mux.segDuration == m.segDuration
            && |o.mux.fragments| == |m.fragments| + 1 && o.mux.fragments[..|m.fragments|] == m.fragments
            && !o.mux.fragments[|m.fragments|].ends && |o.mux.fragments[|m.fragments|].data| == 6
  {
    HoldingSizes(m, b);
    FeedOk(m, VideoIn([b], ts, true));
    FeedLays(m, VideoIn([b], ts, true));
    HeaderOk(m);
    HeaderKeeps(m);
    Small(1);
    var m1 := WithHeader(m);
    assert !CloseCrashes(m1);
    CloseIs(m1);
    BothSizes(m1);
    hide MuxOk, LayoutOk, CloseFragment, CloseCrashes, ClosedFragment, WithHeader, Fits;
    assert [] + [[b]] == [[b]];
  }

  lemma BothSizes(m: Mux)
    requires m.audioTrack > 0
    ensures |ClosedData(m)| == |m.v.buf| + |m.a.buf|
  {
  }

  lemma FragmentLength(f: Fragment, audioFirst: bool)
    requires Wf(f.moof) && FragmentOk(f, audioFirst)
    ensures |FragmentBytes(f)| < 0x1_0000_0000
  {
    hide FragmentOk, Wf, Serialize;
    ChildBytes(f.moof);
    HeadLength(f, audioFirst);
    Bounds(f, audioFirst);
  }

  lemma Bounds(f: Fragment, audioFirst: bool)
    requires FragmentOk(f, audioFirst)
    ensures f.moof.size + 8 + |f.data| < 0x1_0000_0000
  {
  }

  lemma TwoFragmentsFit(m: Mux)
    requires MuxOk(m) && LayoutOk(m) && |m.fragments| == 2 && |m.headerBytes| < 0x1_0000_0000
    ensures |File(m)| < 0x1_0000_0000_0000_0000
  {
    hide FragmentOk, Wf, BasesAre, FragmentBytes;
    var fs := m.fragments;
    Known(m, 0);
    Known(m, 1);
    FragmentLength(fs[0], AudioFirst(m));
    FragmentLength(fs[1], AudioFirst(m));
    assert fs[..1][..0] == [] && fs[..1][0] == fs[0];
    assert |FragmentsBytes(fs)| == |FragmentsBytes(fs[..1])| + |FragmentBytes(fs[1])|;
    assert |FragmentsBytes(fs[..1])| == |FragmentBytes(fs[0])|;
  }

  /** With any header: the second fragment of that run says its tracks start where they do not. */
  lemma MisplacedRun(header: Bytes, b: Byte)
    requires 0 < |header| < 0x1_0000_0000
    ensures var m0 := NewMux(header, 1, 2, 1000);
            && Runs(m0, ThreeKeys(b))
            && var m := FeedAll(m0, ThreeKeys(b));
            && |m.fragments| == 2 && TwoTrafs(m.fragments[0].moof) && TwoTrafs(m.fragments[1].moof)
            && Start(VideoTraf(m.fragments[0], AudioFirst(m))) == VideoStart(m, 0)
            && Start(VideoTraf(m.fragments[1], AudioFirst(m))) != VideoStart(m, 1)
            && Start(AudioTraf(m.fragments[1], AudioFirst(m))) != AudioStart(m, 1)
  {
    hide Feed, Holding, MuxOk, LayoutOk, File, VideoStart, AudioStart, Start, TwoTrafs, NewMux, CachesTyped, Moderate;
    var m0, ins := NewMux(header, 1, 2, 1000), ThreeKeys(b);
    NewMuxOk(header, 1, 2, 1000);
    NewMuxIs(header, 1, 2, 1000);
    FirstKey(m0, b, 0);
    var m1 := Feed(m0, ins[0]).mux;
    AudioKept(m1, b, 0);
    var m2 := Feed(m1, ins[1]).mux;
    NextKey(m2, b, 10);
    var m3 := Feed(m2, ins[2]).mux;
    AudioKept(m3, b, 10);
    var m4 := Feed(m3, ins[3]).mux;
    NextKey(m4, b, 20);
    var m5 := Feed(m4, ins[4]).mux;
    FiveSteps(m0, m1, m2, m3, m4, m5, ins);
    RunLays(m0, ins);
    FeedKeepsHeader(m0, ins);
    TwoFragmentsFit(m5);
    assert m5.fragments[0] == m5.fragments[..1][0];
    FirstFragmentIsPlaced(m5, 0);
    NextFragmentIsMisplaced(m5, 0);
  }

  lemma FiveSteps(m0: Mux, m1: Mux, m2: Mux, m3: Mux, m4: Mux, m5: Mux, ins: seq<Input>)
    requires |ins| == 5
    requires CachesTyped(m0) && Moderate(m0, ins[0]) && Feed(m0, ins[0]) == Done(m1)
    requires CachesTyped(m1) && Moderate(m1, ins[1]) && Feed(m1, ins[1]) == Done(m2)
    requires CachesTyped(m2) && Moderate(m2, ins[2]) && Feed(m2, ins[2]) == Done(m3)
    requires CachesTyped(m3) && Moderate(m3, ins[3]) && Feed(m3, ins[3]) == Done(m4)
    requires CachesTyped(m4) && Moderate(m4, ins[4]) && Feed(m4, ins[4]) == Done(m5)
    ensures Runs(m0, ins) && FeedAll(m0, ins) == m5
  {
    hide CachesTyped, Moderate, Feed;
    var i1, i2, i3, i4 := ins[1..], ins[2..], ins[3..], ins[4..];
    assert i4[1..] == [] && i3[1..] == i4 && i2[1..] == i3 && i1[1..] == i2;
    assert Runs(m4, i4) && FeedAll(m4, i4) == m5;
    assert Runs(m3, i3) && FeedAll(m3, i3) == m5;
    assert Runs(m2, i2) && FeedAll(m2, i2) == m5;
    assert Runs(m1, i1) && FeedAll(m1, i1) == m5;
  }

  lemma {:induction false} FeedKeepsHeader(m: Mux, ins: seq<Input>)
    requires Runs(m, ins)
    ensures FeedAll(m, ins).headerBytes == m.headerBytes
    decreases |ins|
  {
    if |ins| > 0 {
      FeedHeader(m, ins[0]);
      hide Feed;
      FeedKeepsHeader(Feed(m, ins[0]).mux, ins[1..]);
    }
  }

  lemma FeedHeader(m: Mux, i: Input)
    requires CachesTyped(m) && Feed(m, i).Done?
    ensures Feed(m, i).mux.headerBytes == m.headerBytes
  {
    hide ClosedMoof, ClosedData, CloseCrashes, AddFrame;
  }

  // ---------------------------------------------------------------- no video is lost

  /** The video fed so far: what the fragments hold, then what is cached. */
  function VideoOf(fs: seq<Fragment>): Bytes {
    if |fs| == 0 then [] else VideoOf(fs[..|fs| - 1]) + VideoBytes(fs[|fs| - 1])
  }

  function VideoSoFar(m: Mux): Bytes { VideoOf(m.fragments) + Cached(m.v) }

  function Cached(c: Cache): Bytes { if c.trun.Some? then c.buf else [] }

  function VideoFed(ins: seq<Input>): Bytes {
    if |ins| == 0 then [] else (if ins[0].VideoIn? then ins[0].frame else []) + VideoFed(ins[1..])
  }

  lemma CacheNext(c: Cache, frame: Bytes, ts: int)
    requires CacheOk(c, false)
    ensures Cached(AddFrame(c, frame, ts, 0)) == Cached(c) + frame
  {
    assert c.buf + [] == c.buf && [] + frame == frame && [] + [] + frame == frame;
  }

  lemma KeyFrameVideo(m: Mux, ts: int)
    requires MuxOk(m) && (m.v.accOffset > 0 ==> Fits(m)) && KeyFrame(m, ts).Done?
    requires |Cached(m.v)| < 0x1_0000_0000_0000_0000
    ensures var m1 := KeyFrame(m, ts).mux; VideoSoFar(m1) == VideoSoFar(m) && m1.v.trun.None?
  {
    hide MuxOk, CloseFragment, CloseCrashes, WithHeader, Fits, Packed, CacheOk, VideoOf, Low64;
    CachedIs(m);
    if m.v.accOffset > 0 {
      HeaderOk(m);
      HeaderKeeps(m);
      var m1 := WithHeader(m);
      CloseIs(m1);
      VideoNext(m.fragments, ClosedFragment(m1));
      assert VideoOf(m.fragments + [ClosedFragment(m1)]) + [] == VideoOf(m.fragments + [ClosedFragment(m1)]);
    } else {
      Small64Bit(|Cached(m.v)|);
    }
  }

  /** The cached video is the cached frames, and the running offset its length. */
  lemma CachedIs(m: Mux)
    requires MuxOk(m)
    ensures Low64(|Cached(m.v)|) == m.v.accOffset && TwoTracks(m)
    ensures m.v.accOffset > 0 ==> m.v.trun.Some? && Cached(m.v) == Packed(m.v.frames, false)
  {
    hide FileOk, Packed, Samples;
    Small(0);
  }

  lemma VideoNext(fs: seq<Fragment>, f: Fragment)
    ensures VideoOf(fs + [f]) == VideoOf(fs) + VideoBytes(f)
  {
    hide Packed;
    assert (fs + [f])[..|fs|] == fs;
  }

  lemma FeedVideo(m: Mux, i: Input)
    requires MuxOk(m) && Moderate(m, i) && |VideoSoFar(m)| < 0x1_0000_0000_0000_0000
    requires CachesTyped(m) && Feed(m, i).Done?
    ensures VideoSoFar(Feed(m, i).mux) == VideoSoFar(m) + if i.VideoIn? then i.frame else []
  {
    if i.VideoIn? && i.key {
      KeyFrameVideo(m, i.ts);
      KeyFrameOk(m, i.ts);
      var m1 := KeyFrame(m, i.ts).mux;
      Typed(m1);
      CacheNext(m1.v, i.frame, i.ts);
      hide KeyFrame, MuxOk, AddFrame;
      Assoc(VideoOf(m1.fragments), Cached(m1.v), i.frame);
    } else if i.VideoIn? {
      CacheNext(m.v, i.frame, i.ts);
      hide KeyFrame, MuxOk, AddFrame;
      Assoc(VideoOf(m.fragments), Cached(m.v), i.frame);
    } else {
      assert VideoSoFar(m) + [] == VideoSoFar(m);
    }
  }

  /** Every video byte fed to a run is in one of its fragments or still cached, once and in order. */
  lemma {:induction false} VideoConserved(m: Mux, ins: seq<Input>)
    requires MuxOk(m) && Runs(m, ins) && |VideoSoFar(m) + VideoFed(ins)| < 0x1_0000_0000_0000_0000
    ensures VideoSoFar(FeedAll(m, ins)) == VideoSoFar(m) + VideoFed(ins)
    decreases |ins|
  {
    hide MuxOk, Feed, VideoSoFar;
    if |ins| > 0 {
      FeedOk(m, ins[0]);
      FeedVideo(m, ins[0]);
      Assoc(VideoSoFar(m), if ins[0].VideoIn? then ins[0].frame else [], VideoFed(ins[1..]));
      VideoConserved(Feed(m, ins[0]).mux, ins[1..]);
    } else {
      assert VideoSoFar(m) + [] == VideoSoFar(m);
    }
  }
}
