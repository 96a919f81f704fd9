/** Which input each fragment of the finished file comes from, and what its boxes say about it. */
module Fmp4Segments {
  import opened ByteIO
  import opened Mp4Box
  import opened Fmp4
  import opened Fmp4Laws
  import opened Fmp4Run
  import opened Fmp4Layout

  // ---------------------------------------------------------------- the input, cut up at key frames

  datatype Stamped = Stamped(frame: Bytes, ts: int)

  /** Frames from one key frame up to the next; `key` is when that key frame came, if there was one yet. */
  datatype Stretch = Stretch(key: Option<int>, video: seq<Stamped>, audio: seq<Stamped>)

  /** The stretches that are over, the one that is not, and how many key frames came since the last was. */
  datatype Cutting = Cutting(closed: seq<Stretch>, current: Stretch, keys: nat)

  const NOTHING := Cutting([], Stretch(None, [], []), 0)

  function Length(xs: seq<Stamped>): nat {
    if |xs| == 0 then 0 else Length(xs[..|xs| - 1]) + |xs[|xs| - 1].frame|
  }

  /** A key frame ends the stretch before it if that holds video, not counting multiples of 2^64 bytes; otherwise that
      stretch is forgotten, audio and all. */
  function CutAt(c: Cutting, i: Input): Cutting {
    if i.AudioIn? then c.(current := c.current.(audio := c.current.audio + [Stamped(i.frame, i.ts)]))
    else if !i.key then c.(current := c.current.(video := c.current.video + [Stamped(i.frame, i.ts)]))
    else
      var next := Stretch(Some(i.ts), [Stamped(i.frame, i.ts)], []);
      if Length(c.current.video) % 0x1_0000_0000_0000_0000 > 0 then Cutting(c.closed + [c.current], next, 1)
      else Cutting(c.closed, next, c.keys + 1)
  }

  function CutAll(c: Cutting, ins: seq<Input>): Cutting
    decreases |ins|
  {
    if |ins| == 0 then c else CutAll(CutAt(c, ins[0]), ins[1..])
  }

  function Frames(xs: seq<Stamped>): seq<Bytes> { seq(|xs|, i requires 0 <= i < |xs| => xs[i].frame) }

  // ---------------------------------------------------------------- what a fragment says about its stretch

  /** The time from the first frame to the last, shared out among the frames, rounded towards zero, as a uint32. */
  function FrameDuration(xs: seq<Stamped>): U32
    requires |xs| > 0
  {
    var d := xs[|xs| - 1].ts - xs[0].ts;
    (if d >= 0 then d / |xs| else -((-d) / |xs|)) % 0x1_0000_0000
  }

  /** A track fragment's header, decode time and run. */
  predicate TrackIs(t: Box, track: U32, key: int, duration: U32, sampleFlags: U32, runFlags: U24)
    requires IsTraf(t)
  {
    && t.children[0].version == 0 && t.children[0].flags == 0x39 && t.children[0].track == track
    && t.children[0].description == 0 && t.children[0].duration == duration && t.children[0].sampleSize == 0
    && t.children[0].sampleFlags == sampleFlags
    && t.children[1].version == 1 && t.children[1].flags == 0
    && t.children[1].time == key % 0x1_0000_0000_0000_0000
    && t.children[2].version == 0 && t.children[2].flags == runFlags
  }

  datatype Setup = Setup(video: U32, audio: U32, segDuration: int)

  /** The fragment is that stretch: its frames, its tracks, when it began and how long its frames last. The sequence
      number is 1 in every one. */
  predicate Describes(f: Fragment, g: Stretch, u: Setup) {
    && g.key.Some? && |g.video| > 0 && |g.audio| > 0
    && f.video == Frames(g.video) && f.audio == Frames(g.audio)
    && (f.ends <==> g.video[|g.video| - 1].ts - g.video[0].ts > u.segDuration)
    && TwoTrafs(f.moof) && f.moof.kind == MOOF && f.moof.children[0] == Mfhd(16, 0, 0, 1)
    && var af := u.audio <= u.video;
    && TrackIs(VideoTraf(f, af), u.video, g.key.value, FrameDuration(g.video), 0x0101_0000, 0x205)
    && VideoTraf(f, af).children[2].firstFlags == 0x0200_0000
    && TrackIs(AudioTraf(f, af), u.audio, g.key.value, 1024, 0x0200_0000, 0x201)
  }

  // ---------------------------------------------------------------- what every run keeps

  predicate Caches(c: Cache, xs: seq<Stamped>) {
    && (c.trun.Some? <==> |xs| > 0)
    && (|xs| > 0 ==> c.frames == Frames(xs) && c.firstTs == xs[0].ts && c.lastTs == xs[|xs| - 1].ts)
  }

  ghost predicate FollowsInput(m: Mux, c: Cutting, u: Setup) {
    && m.videoTrack == u.video == m.v.track && m.audioTrack == u.audio == m.a.track
    && m.segDuration == u.segDuration && m.sequence == 1 && m.keyFrames == c.keys
    && |m.fragments| == |c.closed| && (forall i :: 0 <= i < |c.closed| ==> Describes(m.fragments[i], c.closed[i], u))
    && Caches(m.v, c.current.video) && Caches(m.a, c.current.audio)
    && (m.moof.Some? <==> c.current.key.Some?)
    && (c.current.key.Some? ==>
          m.v.decodeTime == m.a.decodeTime == c.current.key.value % 0x1_0000_0000_0000_0000)
  }

  lemma {:induction false} LengthIs(xs: seq<Stamped>)
    ensures |Packed(Frames(xs), false)| == Length(xs)
    decreases |xs|
  {
    if |xs| > 0 {
      assert Frames(xs)[..|xs| - 1] == Frames(xs[..|xs| - 1]);
      LengthIs(xs[..|xs| - 1]);
    }
  }

  lemma CachesNext(c: Cache, xs: seq<Stamped>, frame: Bytes, ts: int, audio: bool)
    requires CacheOk(c, audio) && Caches(c, xs)
    ensures var c1 := AddFrame(c, frame, ts, if audio then |frame| else 0);
            && Caches(c1, xs + [Stamped(frame, ts)]) && c1.track == c.track && c1.decodeTime == c.decodeTime
  {
    var ys := xs + [Stamped(frame, ts)];
    assert Frames(ys) == Frames(xs) + [frame];
    assert |xs| == 0 ==> Frames(xs) == [];
  }

  /** The boxes of one track fragment. */
  lemma TrafSays(c: Cache, offset: U64, video: bool, n: nat, xs: seq<Stamped>, key: int)
    requires CacheOk(c, !video) && Caches(c, xs) && 0 < |xs| < 0x1_0000_0000
    requires c.decodeTime == key % 0x1_0000_0000_0000_0000
    ensures var t := Shift(Traf(c, offset, video), n);
            && IsTraf(t)
            && TrackIs(t, c.track, key, if video then FrameDuration(xs) else 1024,
                       if video then 0x0101_0000 else 0x0200_0000, if video then 0x205 else 0x201)
            && (video ==> t.children[2].firstFlags == 0x0200_0000)
  {
    hide Packed, Samples, Low64, Add64;
    Small(|xs|);
  }

  /** A fragment that is closed describes the stretch that was current. */
  lemma ClosedDescribes(m: Mux, c: Cutting, u: Setup)
    requires Ready(m) && FollowsInput(m, c, u) && c.current.key.Some?
    ensures !CloseCrashes(m) && Describes(ClosedFragment(m), c.current, u)
  {
    hide Traf, Shift, ClosedMoof, CloseCrashes, Samples, Packed, Low32, Low64, Add64, TrackIs, FrameDuration, CacheOk;
    hide Describes;
    ReadyCloses(m);
    ClosedRuns(m);
    CloseIs(m);
    var g, key, size := c.current, c.current.key.value, ClosedMoof(m).size;
    var o := Add64(m.curTrackOffset, First(m).accOffset);
    FewFrames(m, c, u);
    if AudioFirst(m) {
      TrafSays(m.a, m.curTrackOffset, false, size, g.audio, key);
      TrafSays(m.v, o, true, size, g.video, key);
    } else {
      TrafSays(m.v, m.curTrackOffset, true, size, g.video, key);
      TrafSays(m.a, o, false, size, g.audio, key);
    }
    PutTogether(m, c, u);
  }

  lemma FewFrames(m: Mux, c: Cutting, u: Setup)
    requires Ready(m) && FollowsInput(m, c, u)
    ensures 0 < |c.current.video| < 0x1_0000_0000 && 0 < |c.current.audio| < 0x1_0000_0000
    ensures CacheOk(m.v, false) && CacheOk(m.a, true)
  {
    hide Describes, CacheOk;
    assert |Frames(c.current.video)| == |c.current.video| && |Frames(c.current.audio)| == |c.current.audio|;
  }

  lemma PutTogether(m: Mux, c: Cutting, u: Setup)
    requires !CloseCrashes(m) && FollowsInput(m, c, u) && c.current.key.Some?
    requires |c.current.video| > 0 && |c.current.audio| > 0
    requires var moof := ClosedMoof(m);
             && TwoTrafs(moof) && moof.kind == MOOF && moof.children[0] == Mfhd(16, 0, 0, 1)
             && var v, a := if AudioFirst(m) then moof.children[2] else moof.children[1],
                            if AudioFirst(m) then moof.children[1] else moof.children[2];
             && TrackIs(v, m.v.track, c.current.key.value, FrameDuration(c.current.video), 0x0101_0000, 0x205)
             && v.children[2].firstFlags == 0x0200_0000
             && TrackIs(a, m.a.track, c.current.key.value, 1024, 0x0200_0000, 0x201)
    ensures Describes(ClosedFragment(m), c.current, u)
  {
    hide ClosedMoof, ClosedData, CloseCrashes, TrackIs, FrameDuration, Frames;
  }

  /** What a key frame leaves when it does not close anything, and after it has. */
  lemma ResetFollows(m: Mux, c: Cutting, u: Setup, ts: int)
    requires TwoTracks(m) && m.videoTrack == u.video == m.v.track && m.audioTrack == u.audio == m.a.track
    requires m.segDuration == u.segDuration && m.sequence == 1
    requires |m.fragments| == |c.closed|
    requires forall i :: 0 <= i < |c.closed| ==> Describes(m.fragments[i], c.closed[i], u)
    ensures FollowsInput(ResetFrag(m, ts).(keyFrames := c.keys), c.(current := Stretch(Some(ts), [], [])), u)
  {
    hide Describes;
  }

  lemma KeyFrameFollows(m: Mux, c: Cutting, u: Setup, i: Input)
    requires MuxOk(m) && FollowsInput(m, c, u) && i.VideoIn? && i.key && (m.v.accOffset > 0 ==> Fits(m))
    ensures var o, c1 := KeyFrame(m, i.ts), CutAt(c, i);
            o.Done? ==> FollowsInput(o.mux, c1.(current := Stretch(Some(i.ts), [], [])), u)
  {
    LengthIs(c.current.video);
    OffsetIsLength(m, c, u);
    if m.v.accOffset > 0 {
      HeaderOk(m);
      HeaderKeeps(m);
      var m1 := WithHeader(m);
      HeaderFollows(m, c, u);
      if !CloseCrashes(m1) {
        FitsSame(m, m1);
        BecomesReady(m1);
        OpenHasKey(m1, c, u);
        ClosedDescribes(m1, c, u);
        CloseIs(m1);
        CloseKeepsRest(m1);
        hide MuxOk, FollowsInput, Describes, CloseFragment, ClosedFragment, CloseCrashes, WithHeader, Fits, Ready;
        var m2 := CloseFragment(m1);
        var m3 := if EndsSegment(m) then m2.(curTrackOffset := 0, sequence := 1) else m2;
        var c2 := Cutting(c.closed + [c.current], c.current, 1);
        Appended(m1, c, u);
        ResetFollows(m3, c2, u, i.ts);
      }
    } else {
      ForgetFollows(m, c, u, i.ts);
    }
  }

  lemma ForgetFollows(m: Mux, c: Cutting, u: Setup, ts: int)
    requires MuxOk(m) && FollowsInput(m, c, u)
    ensures FollowsInput(ResetFrag(m, ts).(keyFrames := m.keyFrames + 1),
                         Cutting(c.closed, Stretch(Some(ts), [], []), c.keys + 1), u)
  {
    hide Describes, CacheOk, FileOk;
  }

  lemma Appended(m: Mux, c: Cutting, u: Setup)
    requires !CloseCrashes(m) && FollowsInput(m, c, u) && Describes(ClosedFragment(m), c.current, u)
    ensures var fs, gs := m.fragments + [ClosedFragment(m)], c.closed + [c.current];
            |fs| == |gs| && forall i :: 0 <= i < |gs| ==> Describes(fs[i], gs[i], u)
  {
    hide Describes, ClosedFragment, CloseCrashes;
  }

  lemma CloseKeepsRest(m: Mux)
    requires !CloseCrashes(m)
    ensures var m1 := CloseFragment(m);
            && m1.v == m.v && m1.a == m.a && m1.segDuration == m.segDuration && m1.sequence == m.sequence
  {
    hide ClosedMoof, ClosedData, CloseCrashes;
  }

  lemma OpenHasKey(m: Mux, c: Cutting, u: Setup)
    requires Ready(m) && FollowsInput(m, c, u)
    ensures c.current.key.Some?
  {
  }

  lemma HeaderFollows(m: Mux, c: Cutting, u: Setup)
    requires FollowsInput(m, c, u)
    ensures FollowsInput(WithHeader(m), c, u)
  {
    hide Describes;
  }

  /** The running offset is the length of the current video, modulo 2^64. */
  lemma OffsetIsLength(m: Mux, c: Cutting, u: Setup)
    requires MuxOk(m) && FollowsInput(m, c, u)
    ensures m.v.accOffset == Length(c.current.video) % 0x1_0000_0000_0000_0000
  {
    hide Describes, FileOk, Samples, Packed;
    LengthIs(c.current.video);
  }

  lemma FeedFollows(m: Mux, c: Cutting, u: Setup, i: Input)
    requires MuxOk(m) && FollowsInput(m, c, u) && Moderate(m, i)
    ensures CachesTyped(m)
    ensures var o := Feed(m, i); o.Done? ==> FollowsInput(o.mux, CutAt(c, i), u)
  {
    hide MuxOk, FollowsInput, AddFrame, KeyFrame, Fits;
    Typed(m);
    CachesAreOk(m);
    if i.VideoIn? && i.key {
      KeyFrameFollows(m, c, u, i);
      KeyFrameOk(m, i.ts);
      var o := KeyFrame(m, i.ts);
      if o.Done? {
        Typed(o.mux);
        CachesAreOk(o.mux);
        VideoAdded(o.mux, CutAt(c, i).(current := Stretch(Some(i.ts), [], [])), u, i.frame, i.ts);
        assert [] + [Stamped(i.frame, i.ts)] == [Stamped(i.frame, i.ts)];
      }
    } else if i.VideoIn? {
      VideoAdded(m, c, u, i.frame, i.ts);
    } else {
      AudioAdded(m, c, u, i.frame, i.ts);
    }
  }

  lemma VideoAdded(m: Mux, c: Cutting, u: Setup, frame: Bytes, ts: int)
    requires FollowsInput(m, c, u) && CacheOk(m.v, false)
    ensures FollowsInput(m.(v := AddFrame(m.v, frame, ts, 0)),
                         c.(current := c.current.(video := c.current.video + [Stamped(frame, ts)])), u)
  {
    CachesNext(m.v, c.current.video, frame, ts, false);
    hide AddFrame, Describes, Caches, CacheOk;
  }

  lemma AudioAdded(m: Mux, c: Cutting, u: Setup, frame: Bytes, ts: int)
    requires FollowsInput(m, c, u) && CacheOk(m.a, true)
    ensures FollowsInput(m.(a := AddFrame(m.a, frame, ts, |frame|)),
                         c.(current := c.current.(audio := c.current.audio + [Stamped(frame, ts)])), u)
  {
    CachesNext(m.a, c.current.audio, frame, ts, true);
    hide AddFrame, Describes, Caches, CacheOk;
  }

  lemma CachesAreOk(m: Mux)
    requires MuxOk(m)
    ensures CacheOk(m.v, false) && CacheOk(m.a, true)
  {
    hide CacheOk, FileOk;
  }

  lemma {:induction false} RunFollowsFrom(m: Mux, c: Cutting, u: Setup, ins: seq<Input>)
    requires MuxOk(m) && FollowsInput(m, c, u) && Runs(m, ins)
    ensures FollowsInput(FeedAll(m, ins), CutAll(c, ins), u)
    decreases |ins|
  {
    hide MuxOk, FollowsInput, Feed, CutAt;
    if |ins| > 0 {
      FeedOk(m, ins[0]);
      FeedFollows(m, c, u, ins[0]);
      RunFollowsFrom(Feed(m, ins[0]).mux, CutAt(c, ins[0]), u, ins[1..]);
    }
  }

  /** The finished file of every run: one fragment for each stretch of input between key frames that held video, in
      order, each describing its stretch. */
  lemma FragmentsAreStretches(headerBytes: Bytes, u: Setup, ins: seq<Input>)
    requires headerBytes != [] && u.video > 0 && u.audio > 0 && u.video != u.audio
    requires Runs(NewMux(headerBytes, u.video, u.audio, u.segDuration), ins)
    ensures var fs := FeedAll(NewMux(headerBytes, u.video, u.audio, u.segDuration), ins).fragments;
            var gs := CutAll(NOTHING, ins).closed;
            |fs| == |gs| && forall i :: 0 <= i < |gs| ==> Describes(fs[i], gs[i], u)
  {
    NewMuxOk(headerBytes, u.video, u.audio, u.segDuration);
    NewFollows(headerBytes, u);
    hide MuxOk, Describes, NewMux, CutAll;
    RunFollowsFrom(NewMux(headerBytes, u.video, u.audio, u.segDuration), NOTHING, u, ins);
  }

  lemma NewFollows(headerBytes: Bytes, u: Setup)
    ensures FollowsInput(NewMux(headerBytes, u.video, u.audio, u.segDuration), NOTHING, u)
  {
  }
}
