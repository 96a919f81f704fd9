/** The fragmented MP4 muxer (container/mp4/fmp4.go) on values: frames go into two caches, a key frame closes the
    fragment before it. The bytes of the file header are opaque. */
module Fmp4 {
  import opened ByteIO
  import opened Mp4Box

  function Add64(a: U64, n: nat): U64 { (a + n) % 0x1_0000_0000_0000_0000 }
  function Low32(n: nat): U32 { n % 0x1_0000_0000 }

  /** One track's frames since the last key frame. `frames` is the history of what was added. */
  datatype Cache = Cache(
    trun: Option<Box>, buf: Bytes, frames: seq<Bytes>, firstTs: int, lastTs: int, accOffset: U64, base: U64, track: U32,
    decodeTime: U64)

  /** A moof and the media data after it. The rest is history: the track offset it was opened with, whether it ended its
      segment, and the frames it holds. */
  datatype Fragment = Fragment(
    moof: Box, data: Bytes, openedAt: U64, ends: bool, video: seq<Bytes>, audio: seq<Bytes>)

  /** `headerBytes` is what the ftyp and moov boxes serialize to; `header` is empty until they have been. */
  datatype Mux = Mux(
    headerBytes: Bytes, header: Bytes, videoTrack: U32, audioTrack: U32, v: Cache, a: Cache, moof: Option<Box>,
    fragments: seq<Fragment>, curTrackOffset: U64, baseOffset: U64, keyFrames: nat, sequence: U32, segDuration: int)

  const EMPTY_CACHE := Cache(None, [], [], 0, 0, 0, 0, 0, 0)

  function NewMux(headerBytes: Bytes, videoTrack: U32, audioTrack: U32, segDuration: int): Mux {
    Mux(headerBytes, [], videoTrack, audioTrack, EMPTY_CACHE.(track := videoTrack), EMPTY_CACHE.(track := audioTrack),
        None, [], 0, 0, 0, 1, segDuration)
  }

  // ---------------------------------------------------------------- caching frames

  const NEW_TRUN: Box := Trun(16, 0, 0, 0, 0, 0, [])

  function SampleOf(n: nat): Sample { Sample(0, Low32(n), 0, 0, 0) }

  /** addFrame: with a positive length, a four-byte length goes in front. */
  function AddFrame(c: Cache, frame: Bytes, ts: int, frameLen: nat): Cache
    requires c.trun.Some? ==> c.trun.value.Trun?
  {
    var c1 := if c.trun.None? then c.(firstTs := ts, buf := [], frames := [], trun := Some(NEW_TRUN)) else c;
    var prefix := if frameLen > 0 then PutU32BE(frameLen) else [];
    var len := if frameLen > 0 then frameLen else |frame|;
    var t := c1.trun.value;
    c1.(lastTs := ts, buf := c1.buf + prefix + frame, frames := c1.frames + [frame],
        accOffset := Add64(Add64(c1.accOffset, |prefix|), |frame|),
        trun := Some(t.(samples := t.samples + [SampleOf(len)], size := Add64(t.size, 4), count := Low32(t.count + 1))))
  }

  function ResetCache(c: Cache, base: U64, ts: int): Cache {
    Cache(None, [], [], 0, 0, 0, base, c.track, ts % 0x1_0000_0000_0000_0000)
  }

  /** resetFrag(true, ts): empty caches and a moof holding only its header. */
  function ResetFrag(m: Mux, ts: int): Mux {
    m.(a := if m.audioTrack > 0 then ResetCache(m.a, m.baseOffset, ts) else m.a,
       v := if m.videoTrack > 0 then ResetCache(m.v, m.baseOffset, ts) else m.v,
       moof := Some(Container(MOOF, 24, [Mfhd(16, 0, 0, m.sequence)])))
  }

  // ---------------------------------------------------------------- closing a fragment

  function TruncDiv(a: int, b: int): int
    requires b > 0
  {
    if a >= 0 then a / b else -((-a) / b)
  }

  /** The track fragment for a cached run, whose data starts `offset` bytes into the media data. */
  function Traf(c: Cache, offset: U64, video: bool): Box
    requires c.trun.Some? && c.trun.value.Trun?
  {
    var t := c.trun.value;
    var duration :=
      if !video then 1024 else if t.count == 0 then 0 else TruncDiv(c.lastTs - c.firstTs, t.count) % 0x1_0000_0000;
    var tfhd := Tfhd(36, 0, 0x39, c.track, c.base, 0, duration, 0, if video then 0x01010000 else 0x02000000);
    var tfdt := Tfdt(20, 1, 0, c.decodeTime);
    var trun := t.(flags := if video then 0x205 else 0x201, size := Add64(t.size, if video then 8 else 4),
                   firstFlags := if video then 0x02000000 else t.firstFlags, dataOffset := Low32(8 + Low32(offset)));
    Container(TRAF, Add64(64, trun.size), [tfhd, tfdt, trun])
  }

  /** The run's data offset, counted from the moof, once the moof's size is known. */
  function Shift(b: Box, n: nat): Box {
    match b
    case Container(k, s, cs) =>
      Container(k, s, seq(|cs|, i requires 0 <= i < |cs| =>
        if cs[i].Trun? then cs[i].(dataOffset := Low32(cs[i].dataOffset + Low32(n))) else cs[i]))
    case _ => b
  }

  /** Which track comes first: the one with the smaller id. */
  predicate AudioFirst(m: Mux) { m.audioTrack <= m.videoTrack }

  function First(m: Mux): Cache { if AudioFirst(m) then m.a else m.v }
  function Second(m: Mux): Cache { if AudioFirst(m) then m.v else m.a }

  /** Where closing a fragment dereferences something that is not there. */
  predicate CloseCrashes(m: Mux) {
    || m.moof.None? || !m.moof.value.Container?
    || m.v.trun.None? || !m.v.trun.value.Trun?
    || (m.audioTrack > 0 && (m.v.trun.value.count == 0 || m.a.trun.None? || !m.a.trun.value.Trun?))
  }

  /** The moof a closing fragment gets. With a single track the program writes no track fragment at all. */
  function ClosedMoof(m: Mux): Box
    requires !CloseCrashes(m)
  {
    var moof := m.moof.value;
    if m.audioTrack == 0 then moof
    else
      var t1 := Traf(First(m), m.curTrackOffset, !AudioFirst(m));
      var t2 := Traf(Second(m), Add64(m.curTrackOffset, First(m).accOffset), AudioFirst(m));
      var size := Add64(Add64(moof.size, t1.size), t2.size);
      Container(moof.kind, size, moof.children + [Shift(t1, size), Shift(t2, size)])
  }

  function ClosedData(m: Mux): Bytes {
    if m.audioTrack == 0 then [] else First(m).buf + Second(m).buf
  }

  /** The fragment's video is longer than a segment lasts. */
  predicate EndsSegment(m: Mux) { m.v.lastTs - m.v.firstTs > m.segDuration }

  function ClosedFragment(m: Mux): Fragment
    requires !CloseCrashes(m)
  {
    Fragment(ClosedMoof(m), ClosedData(m), m.curTrackOffset, EndsSegment(m), m.v.frames, m.a.frames)
  }

  /** generateOneFrag. */
  function CloseFragment(m: Mux): Mux
    requires !CloseCrashes(m)
  {
    var moof, data := ClosedMoof(m), ClosedData(m);
    m.(moof := Some(moof), fragments := m.fragments + [ClosedFragment(m)],
       curTrackOffset := if m.audioTrack == 0 then m.curTrackOffset
                         else Add64(Add64(m.curTrackOffset, First(m).accOffset), Second(m).accOffset),
       baseOffset := Add64(m.baseOffset, moof.size + (8 + |data|)))
  }

  /** The file header is written just before the first fragment. */
  function WithHeader(m: Mux): Mux {
    if m.header != [] then m
    else
      var m1 := m.(header := m.headerBytes, baseOffset := |m.headerBytes| % 0x1_0000_0000_0000_0000);
      m1.(v := if m.v.base < 1 then m.v.(base := m1.baseOffset) else m.v,
          a := if m.a.base < 1 then m.a.(base := m1.baseOffset) else m.a)
  }

  // ---------------------------------------------------------------- the two entry points

  datatype Outcome = Done(mux: Mux) | NoTrack | Crash

  predicate CachesTyped(m: Mux) {
    (m.v.trun.Some? ==> m.v.trun.value.Trun?) && (m.a.trun.Some? ==> m.a.trun.value.Trun?)
  }

  /** A key frame: the fragment before it, if it holds anything, is closed, and a new one is opened. */
  function KeyFrame(m: Mux, ts: int): Outcome {
    if m.v.accOffset > 0 then
      var m1 := WithHeader(m);
      if CloseCrashes(m1) then Crash
      else
        var m2 := CloseFragment(m1);
        var m3 := if EndsSegment(m) then m2.(curTrackOffset := 0, sequence := 1) else m2;
        Done(ResetFrag(m3, ts).(keyFrames := 1))
    else Done(ResetFrag(m, ts).(keyFrames := m.keyFrames + 1))
  }

  function AddVideo(m: Mux, frame: Bytes, ts: int, key: bool): Outcome
    requires CachesTyped(m)
  {
    if m.videoTrack < 1 then NoTrack
    else if !key then Done(m.(v := AddFrame(m.v, frame, ts, 0)))
    else
      var o := KeyFrame(m, ts);
      if o.Done? && (o.mux.v.trun.Some? ==> o.mux.v.trun.value.Trun?) then
        Done(o.mux.(v := AddFrame(o.mux.v, frame, ts, 0)))
      else o
  }

  /** An audio frame is cached even before the first key frame: the error for that is set and then overwritten. */
  function AddAudio(m: Mux, frame: Bytes, ts: int): Outcome
    requires CachesTyped(m)
  {
    if m.audioTrack < 1 then NoTrack else Done(m.(a := AddFrame(m.a, frame, ts, |frame|)))
  }

  // ---------------------------------------------------------------- the file

  function Mdat(data: Bytes): Bytes { BoxHeader(Low64(8 + |data|), MDAT) + data }

  function Low64(n: nat): U64 { n % 0x1_0000_0000_0000_0000 }

  function FragmentBytes(f: Fragment): Bytes { Serialize(f.moof) + Mdat(f.data) }

  function FragmentsBytes(fs: seq<Fragment>): Bytes {
    if |fs| == 0 then [] else FragmentsBytes(fs[..|fs| - 1]) + FragmentBytes(fs[|fs| - 1])
  }

  /** serialize: the header, then each moof and its mdat. */
  function File(m: Mux): Bytes { m.header + FragmentsBytes(m.fragments) }
}
