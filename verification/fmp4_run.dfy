/** Whole muxing runs: file positions, and where runs go astray. */
module Fmp4Run {
  import opened ByteIO
  import opened Mp4Box
  import opened Fmp4
  import opened Fmp4Laws

  datatype Input = VideoIn(frame: Bytes, ts: int, key: bool) | AudioIn(frame: Bytes, ts: int)

  /** Both track fragments of a moof carry this base offset. */
  predicate BasesAre(moof: Box, base: U64) {
    && moof.Container? && |moof.children| == 3 && IsTraf(moof.children[1]) && IsTraf(moof.children[2])
    && moof.children[1].children[0].base == base && moof.children[2].children[0].base == base
  }

  /** A moof is well formed, and its track fragments name the position it is written at. */
  predicate PositionedAt(header: Bytes, fs: seq<Fragment>, i: nat)
    requires i < |fs|
  {
    Wf(fs[i].moof) && BasesAre(fs[i].moof, Low64(|header| + |FragmentsBytes(fs[..i])|))
  }

  ghost predicate Positioned(header: Bytes, fs: seq<Fragment>) {
    forall i :: 0 <= i < |fs| ==> PositionedAt(header, fs, i)
  }

  /** The running base offset is the length of the file written so far. */
  ghost predicate FileOk(headerBytes: Bytes, header: Bytes, fs: seq<Fragment>, baseOffset: U64) {
    && headerBytes != [] && Positioned(header, fs)
    && (header == [] ==> fs == [] && baseOffset == 0)
    && (header != [] ==> header == headerBytes && baseOffset == Low64(|header + FragmentsBytes(fs)|))
  }

  /** What every run keeps. */
  ghost predicate MuxOk(m: Mux) {
    && TwoTracks(m) && CacheOk(m.v, false) && CacheOk(m.a, true)
    && (m.moof.Some? ==> m.moof.value == Container(MOOF, 24, [Mfhd(16, 0, 0, m.sequence)]))
    && m.v.base == m.a.base == m.baseOffset
    && FileOk(m.headerBytes, m.header, m.fragments, m.baseOffset)
  }

  function Feed(m: Mux, i: Input): Outcome
    requires CachesTyped(m)
  {
    if i.AudioIn? then AddAudio(m, i.frame, i.ts) else AddVideo(m, i.frame, i.ts, i.key)
  }

  /** If this input closes a fragment, the fragment stays below 4 GiB. */
  predicate Moderate(m: Mux, i: Input) { i.VideoIn? && i.key && m.v.accOffset > 0 ==> Fits(m) }

  lemma HeaderOk(m: Mux)
    requires MuxOk(m)
    ensures var m1 := WithHeader(m);
            && MuxOk(m1) && m1.header != [] && m1.v.trun == m.v.trun && m1.a.trun == m.a.trun && m1.moof == m.moof
            && m1.v.frames == m.v.frames && m1.a.frames == m.a.frames && m1.v.buf == m.v.buf && m1.a.buf == m.a.buf
            && m1.curTrackOffset == m.curTrackOffset && m1.v.accOffset == m.v.accOffset
  {
    hide CacheOk;
    var m1 := WithHeader(m);
    BaseFree(m.v, false, m1.v.base);
    BaseFree(m.a, true, m1.a.base);
    if m.header == [] {
      assert m1.header + FragmentsBytes([]) == m1.header;
    }
  }

  lemma BaseFree(c: Cache, audio: bool, base: U64)
    requires CacheOk(c, audio)
    ensures CacheOk(c.(base := base), audio)
  {
  }

  /** A fragment that can be closed is ready to be. */
  lemma BecomesReady(m: Mux)
    requires MuxOk(m) && m.v.accOffset > 0 && !CloseCrashes(m) && Fits(m)
    ensures Ready(m)
  {
  }

  lemma CloseOk(m: Mux)
    requires MuxOk(m) && m.header != [] && Ready(m)
    ensures !CloseCrashes(m)
    ensures var m1 := CloseFragment(m);
            FileOk(m1.headerBytes, m1.header, m1.fragments, m1.baseOffset) && m1.header == m.header
  {
    ReadyCloses(m);
    CloseLength(m);
    CloseBases(m);
    hide CacheOk, ClosedMoof, ClosedData, CloseCrashes, Wf, Low64, Add64, Fits, BasesAre, FragmentsBytes, Ready;
    assert Wf(ClosedMoof(m)) by { ClosedMoofWf(m); }
    AppendPositioned(m.header, m.fragments, ClosedFragment(m));
  }

  lemma CloseLength(m: Mux)
    requires Ready(m) && m.baseOffset == Low64(|File(m)|)
    ensures !CloseCrashes(m) && CloseFragment(m).baseOffset == Low64(|File(CloseFragment(m))|)
  {
    ReadyCloses(m);
    hide CacheOk, ClosedMoof, ClosedData, CloseCrashes, Low64, Add64, Fits, File, Ready;
    FragmentInFile(m);
    Sum64(|File(m)|, ClosedMoof(m).size + (8 + |ClosedData(m)|));
  }

  lemma AppendPositioned(header: Bytes, fs: seq<Fragment>, f: Fragment)
    requires Positioned(header, fs) && Wf(f.moof) && BasesAre(f.moof, Low64(|header + FragmentsBytes(fs)|))
    ensures Positioned(header, fs + [f])
  {
    hide Wf, BasesAre, Low64, FragmentsBytes;
    var fs1 := fs + [f];
    forall i | 0 <= i < |fs1| ensures PositionedAt(header, fs1, i) {
      if i < |fs| {
        assert PositionedAt(header, fs, i) && fs1[i] == fs[i] && fs1[..i] == fs[..i];
      } else {
        assert fs1[..i] == fs;
      }
    }
  }

  /** The offset carried into the next fragment. */
  lemma CloseOffset(m: Mux)
    requires Ready(m)
    ensures !CloseCrashes(m) && CloseFragment(m).curTrackOffset == Low64(m.curTrackOffset + |ClosedData(m)|)
  {
    hide ClosedMoof, Low64, Add64, Packed, Samples;
    ReadyCloses(m);
    var c1, c2, o := First(m), Second(m), m.curTrackOffset;
    LowIs(o);
    AddLow(o, |c1.buf|);
    AddLow(o + |c1.buf|, |c2.buf|);
  }

  lemma LowIs(o: U64)
    ensures Low64(o) == o
  {
  }

  lemma AddLow(x: nat, n: nat)
    ensures Add64(Low64(x), Low64(n)) == Low64(x + n)
  {
  }

  lemma CloseBases(m: Mux)
    requires MuxOk(m) && Ready(m)
    ensures !CloseCrashes(m) && BasesAre(ClosedMoof(m), m.baseOffset)
  {
    hide Traf, Shift, ClosedMoof, Samples, Packed, FileOk, Low64, Low32;
    ClosedRuns(m);
    ClosedSize(m);
    TrafParts(First(m), m.curTrackOffset, !AudioFirst(m), ClosedMoof(m).size);
    TrafParts(Second(m), Add64(m.curTrackOffset, First(m).accOffset), AudioFirst(m), ClosedMoof(m).size);
  }

  lemma ResetOk(m: Mux, ts: int)
    requires TwoTracks(m) && FileOk(m.headerBytes, m.header, m.fragments, m.baseOffset)
    ensures MuxOk(ResetFrag(m, ts))
  {
    hide FileOk;
  }

  lemma KeyFrameOk(m: Mux, ts: int)
    requires MuxOk(m) && (m.v.accOffset > 0 ==> Fits(m))
    ensures var o := KeyFrame(m, ts); o.Done? ==> MuxOk(o.mux)
  {
    hide FileOk, CacheOk, Ready, WithHeader, CloseFragment, CloseCrashes, ResetFrag, Fits;
    if m.v.accOffset > 0 {
      HeaderOk(m);
      var m1 := WithHeader(m);
      assert Fits(m1) by { FitsSame(m, m1); }
      if !CloseCrashes(m1) {
        BecomesReady(m1);
        CloseOk(m1);
        var m2 := CloseFragment(m1);
        CloseKeeps(m1);
        ResetOk(m2, ts);
        ResetOk(m2.(curTrackOffset := 0, sequence := 1), ts);
      }
    } else {
      ResetOk(m, ts);
    }
  }

  lemma FitsSame(m: Mux, m1: Mux)
    requires Fits(m) && m1.v.frames == m.v.frames && m1.a.frames == m.a.frames
    requires m1.v.buf == m.v.buf && m1.a.buf == m.a.buf
    ensures Fits(m1)
  {
  }

  lemma CloseKeeps(m: Mux)
    requires !CloseCrashes(m)
    ensures var m1 := CloseFragment(m); m1.videoTrack == m.videoTrack && m1.audioTrack == m.audioTrack
  {
  }

  lemma FrameOk(m: Mux, i: Input)
    requires MuxOk(m)
    ensures i.VideoIn? ==> MuxOk(m.(v := AddFrame(m.v, i.frame, i.ts, 0)))
    ensures i.AudioIn? ==> MuxOk(m.(a := AddFrame(m.a, i.frame, i.ts, |i.frame|)))
  {
    hide FileOk, AddFrame, Packed, Samples;
    AddFrameOk(m.v, i.frame, i.ts, false);
    AddFrameOk(m.a, i.frame, i.ts, true);
  }

  lemma Typed(m: Mux)
    requires MuxOk(m)
    ensures CachesTyped(m)
  {
  }

  lemma FeedOk(m: Mux, i: Input)
    requires MuxOk(m) && Moderate(m, i)
    ensures CachesTyped(m)
    ensures var o := Feed(m, i); o != NoTrack && (o.Done? ==> MuxOk(o.mux))
  {
    Typed(m);
    if i.VideoIn? && i.key {
      KeyFrameOk(m, i.ts);
      hide KeyFrame, Fits;
      var o := KeyFrame(m, i.ts);
      if o.Done? {
        Typed(o.mux);
        FrameOk(o.mux, i);
      } else {
        NotNoTrack(m, i.ts);
      }
    } else {
      FrameOk(m, i);
    }
  }

  lemma NotNoTrack(m: Mux, ts: int)
    ensures KeyFrame(m, ts) != NoTrack
  {
  }

  /** Inputs that go through: no crash, no fragment of 4 GiB. */
  ghost predicate Runs(m: Mux, ins: seq<Input>)
    decreases |ins|
  {
    |ins| == 0 ||
    (CachesTyped(m) && Moderate(m, ins[0]) && Feed(m, ins[0]).Done? && Runs(Feed(m, ins[0]).mux, ins[1..]))
  }

  ghost function FeedAll(m: Mux, ins: seq<Input>): Mux
    requires Runs(m, ins)
    decreases |ins|
  {
    if |ins| == 0 then m else FeedAll(Feed(m, ins[0]).mux, ins[1..])
  }

  /** File offsets, over every run: the running base offset is the length of what `serialize` would have written so far,
      and every track fragment's base offset is the position its moof is written at. */
  lemma {:induction false} RunOk(m: Mux, ins: seq<Input>)
    requires MuxOk(m) && Runs(m, ins)
    ensures MuxOk(FeedAll(m, ins))
    decreases |ins|
  {
    hide MuxOk, Feed;
    if |ins| > 0 {
      FeedOk(m, ins[0]);
      RunOk(Feed(m, ins[0]).mux, ins[1..]);
    }
  }

  lemma BaseIsLength(m: Mux)
    requires MuxOk(m) && m.header != []
    ensures m.baseOffset == Low64(|File(m)|)
  {
    hide CacheOk, Positioned, FragmentsBytes, Low64;
  }

  /** The first input of a run, off the rest. */
  lemma RunsNext(m: Mux, ins: seq<Input>)
    requires Runs(m, ins) && |ins| > 0
    ensures CachesTyped(m) && Feed(m, ins[0]).Done?
    ensures Runs(Feed(m, ins[0]).mux, ins[1..]) && FeedAll(m, ins) == FeedAll(Feed(m, ins[0]).mux, ins[1..])
  {
    hide Feed, CachesTyped, Moderate;
  }

  lemma RunsDone(m: Mux)
    ensures Runs(m, []) && FeedAll(m, []) == m
  {
  }

  /** What that means for a moof in the finished file: it is there, whole, at the offset its fragments name, and reads
      back as the tree the muxer built. */
  lemma MoofAtItsBase(m: Mux, i: nat)
    requires MuxOk(m) && i < |m.fragments|
    ensures var moof := m.fragments[i].moof;
            var at := |m.header| + |FragmentsBytes(m.fragments[..i])|;
            && BasesAre(moof, Low64(at)) && at + moof.size <= |File(m)|
            && ParseBox(File(m)[at..]) == Got(moof, moof.size, File(m)[at + moof.size..])
  {
    hide Serialize, Mdat, ParseBox, Wf, BasesAre, FragmentsBytes, FragmentsAfter, CacheOk, Low64;
    assert PositionedAt(m.header, m.fragments, i);
    var moof, before := m.fragments[i].moof, FragmentsBytes(m.fragments[..i]);
    var rest := Mdat(m.fragments[i].data) + FragmentsAfter(m.fragments, i + 1);
    Split(m.fragments, i);
    RoundTrip(moof, rest);
    ChildBytes(moof);
    AtPlace(m.header, before, Serialize(moof), rest);
  }

  lemma AtPlace(a: Bytes, b: Bytes, c: Bytes, d: Bytes)
    ensures var s := a + (b + (c + d));
            |a| + |b| + |c| <= |s| && s[|a| + |b|..] == c + d && s[|a| + |b| + |c|..] == d
  {
  }

  function FragmentsAfter(fs: seq<Fragment>, i: nat): Bytes
    requires i <= |fs|
    decreases |fs| - i
  {
    if i == |fs| then [] else FragmentBytes(fs[i]) + FragmentsAfter(fs, i + 1)
  }

  lemma {:induction false} Split(fs: seq<Fragment>, i: nat)
    requires i < |fs|
    ensures FragmentsBytes(fs)
            == FragmentsBytes(fs[..i]) + (Serialize(fs[i].moof) + (Mdat(fs[i].data) + FragmentsAfter(fs, i + 1)))
  {
    hide Serialize, Mdat;
    Cut(fs, i);
    Assoc(Serialize(fs[i].moof), Mdat(fs[i].data), FragmentsAfter(fs, i + 1));
  }

  lemma {:induction false} Cut(fs: seq<Fragment>, i: nat)
    requires i <= |fs|
    ensures FragmentsBytes(fs) == FragmentsBytes(fs[..i]) + FragmentsAfter(fs, i)
    decreases |fs| - i
  {
    hide FragmentBytes;
    if i == |fs| {
      assert fs[..i] == fs;
    } else {
      Cut(fs, i + 1);
      assert fs[..i + 1][..i] == fs[..i];
      Assoc(FragmentsBytes(fs[..i]), FragmentBytes(fs[i]), FragmentsAfter(fs, i + 1));
    }
  }

  // ---------------------------------------------------------------- where a run fails

  /** A key frame crashes the muxer exactly when it closes a fragment that no key frame opened, or that holds no
      audio. */
  lemma CrashIff(m: Mux, frame: Bytes, ts: int)
    requires MuxOk(m) && Fits(m)
    ensures CachesTyped(m)
    ensures AddVideo(m, frame, ts, true).Crash? <==> m.v.accOffset > 0 && (m.moof.None? || m.a.trun.None?)
  {
    Typed(m);
    HeaderOk(m);
    Small(|m.v.frames|);
    hide CloseFragment, ResetFrag, AddFrame, FileOk;
  }
}
