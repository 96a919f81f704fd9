/** The muxer as an object whose methods update its fields, each proved to make the step Fmp4 describes. */
module Fmp4Object {
  import opened ByteIO
  import opened Mp4Box
  import F = Fmp4
  import R = Fmp4Run
  import L = Fmp4Layout

  /** Without an audio track nothing joins the moof or the media data. */
  lemma OneTrack(m: F.Mux)
    requires !F.CloseCrashes(m) && m.audioTrack == 0
    ensures F.ClosedMoof(m) == m.moof.value && F.ClosedData(m) == []
  {
  }

  class Fmp4 {
    const headerBytes: Bytes
    const videoTrackId: U32
    const audioTrackId: U32
    const segDuration: int
    var headerBox: Bytes
    var vCache: F.Cache
    var aCache: F.Cache
    var moofBox: Option<Box>
    var moofMdat: seq<F.Fragment>
    var mdatBuf: Bytes
    var curTrackOffset: U64
    var fmp4BaseDataOffset: U64
    var keyFrameCount: nat
    var moofMdatSeqNum: U32

    function State(): F.Mux
      reads this
    {
      F.Mux(headerBytes, headerBox, videoTrackId, audioTrackId, vCache, aCache, moofBox, moofMdat, curTrackOffset,
            fmp4BaseDataOffset, keyFrameCount, moofMdatSeqNum, segDuration)
    }

    /** Media data is gathered only while a fragment is being closed. */
    ghost predicate Valid()
      reads this
    {
      F.CachesTyped(State()) && mdatBuf == [] && (moofBox.Some? ==> moofBox.value.Container?)
    }

    constructor (headerBytes: Bytes, videoTrackId: U32, audioTrackId: U32, segDuration: int)
      ensures Valid() && State() == F.NewMux(headerBytes, videoTrackId, audioTrackId, segDuration)
    {
      this.headerBytes, this.videoTrackId, this.audioTrackId := headerBytes, videoTrackId, audioTrackId;
      this.segDuration := segDuration;
      headerBox, moofBox, moofMdat, mdatBuf := [], None, [], [];
      vCache, aCache := F.EMPTY_CACHE.(track := videoTrackId), F.EMPTY_CACHE.(track := audioTrackId);
      curTrackOffset, fmp4BaseDataOffset, keyFrameCount, moofMdatSeqNum := 0, 0, 0, 1;
    }

    /** addFrame, which both tracks share. */
    static method AddFrame(cache: F.Cache, frame: Bytes, ts: int, length: nat) returns (c: F.Cache)
      requires cache.trun.Some? ==> cache.trun.value.Trun?
      ensures c == F.AddFrame(cache, frame, ts, length) && c.trun.Some? && c.trun.value.Trun?
    {
      c := cache;
      if c.trun.None? {
        c := c.(firstTs := ts, buf := [], frames := [], trun := Some(F.NEW_TRUN));
      }
      c := c.(lastTs := ts);
      var frameLen := length;
      var before := c.buf;
      if frameLen > 0 {
        c := c.(buf := c.buf + PutU32BE(frameLen), accOffset := F.Add64(c.accOffset, 4));
      } else {
        assert before + [] == before;
        c := c.(accOffset := F.Add64(c.accOffset, 0));
        frameLen := |frame|;
      }
      c := c.(buf := c.buf + frame, frames := c.frames + [frame], accOffset := F.Add64(c.accOffset, |frame|));
      var t := c.trun.value;
      c := c.(trun := Some(t.(samples := t.samples + [F.SampleOf(frameLen)], size := F.Add64(t.size, 4),
                              count := F.Low32(t.count + 1))));
    }

    method AddAudioFrameWithoutLen(frame: Bytes, ts: int) returns (o: F.Outcome)
      requires Valid()
      modifies this`aCache
      ensures Valid() && o == F.AddAudio(old(State()), frame, ts)
      ensures State() == if o.Done? then o.mux else old(State())
    {
      if audioTrackId < 1 { return F.NoTrack; }
      aCache := AddFrame(aCache, frame, ts, |frame|);
      return F.Done(State());
    }

    method ResetFrag(ts: int)
      requires F.CachesTyped(State())
      modifies this`aCache, this`vCache, this`moofBox, this`mdatBuf
      ensures Valid() && State() == F.ResetFrag(old(State()), ts)
    {
      if audioTrackId > 0 {
        aCache := F.ResetCache(aCache, fmp4BaseDataOffset, ts);
      }
      if videoTrackId > 0 {
        vCache := F.ResetCache(vCache, fmp4BaseDataOffset, ts);
      }
      var mfhd := Mfhd(12 + 4, 0, 0, moofMdatSeqNum);
      moofBox := Some(Container(MOOF, 8 + mfhd.size, [mfhd]));
      mdatBuf := [];
    }

    /** One track's part of a fragment: its box joins the moof, its bytes join the media data, and the running offset
        moves past them. */
    method GenerateTrack(c: F.Cache, video: bool)
      requires moofBox.Some? && moofBox.value.Container? && c.trun.Some? && c.trun.value.Trun?
      modifies this`moofBox, this`mdatBuf, this`curTrackOffset
      ensures var t, m := F.Traf(c, old(curTrackOffset), video), old(moofBox).value;
              moofBox == Some(Container(m.kind, F.Add64(m.size, t.size), m.children + [t]))
      ensures mdatBuf == old(mdatBuf) + c.buf && curTrackOffset == F.Add64(old(curTrackOffset), c.accOffset)
    {
      var t := F.Traf(c, curTrackOffset, video);
      var m := moofBox.value;
      moofBox := Some(m.(children := m.children + [t], size := F.Add64(m.size, t.size)));
      mdatBuf := mdatBuf + c.buf;
      curTrackOffset := F.Add64(curTrackOffset, c.accOffset);
    }

    /** Both tracks' parts, the track with the smaller id first. */
    method GenerateTracks()
      requires Valid() && audioTrackId > 0 && !F.CloseCrashes(State())
      modifies this`moofBox, this`mdatBuf, this`curTrackOffset
      ensures var m := old(State());
              && moofBox == Some(F.ClosedMoof(m)) && mdatBuf == F.ClosedData(m)
              && curTrackOffset == F.Add64(F.Add64(m.curTrackOffset, F.First(m).accOffset), F.Second(m).accOffset)
    {
      hide F.Traf, F.Shift, F.Add64;
      ghost var m := State();
      var children := moofBox.value.children;
      ghost var t1 := F.Traf(F.First(m), m.curTrackOffset, !F.AudioFirst(m));
      ghost var t2 := F.Traf(F.Second(m), F.Add64(m.curTrackOffset, F.First(m).accOffset), F.AudioFirst(m));
      assert (children + [t1] + [t2])[..|children|] == children;
      if audioTrackId <= videoTrackId {
        GenerateTrack(aCache, false);
        GenerateTrack(vCache, true);
      } else {
        GenerateTrack(vCache, true);
        GenerateTrack(aCache, false);
      }
      assert moofBox.value.children == children + [t1] + [t2];
      assert [] + F.First(m).buf + F.Second(m).buf == F.First(m).buf + F.Second(m).buf;
      ApplyOffsets(|children|);
    }

    /** generateOneFrag: false where the program dereferences something that is not there. */
    method GenerateOneFrag() returns (ok: bool)
      requires Valid()
      modifies this
      ensures ok == !F.CloseCrashes(old(State())) && F.CachesTyped(State())
      ensures ok ==> State() == F.CloseFragment(old(State()))
      ensures !ok ==> State() == old(State())
    {
      hide F.ClosedMoof, F.ClosedData, F.Add64;
      if moofBox.None? || vCache.trun.None? { return false; }
      if audioTrackId > 0 && (vCache.trun.value.count == 0 || aCache.trun.None?) { return false; }
      ghost var m := State();
      var openedAt, ends := curTrackOffset, vCache.lastTs - vCache.firstTs > segDuration;
      if audioTrackId > 0 {
        GenerateTracks();
      } else {
        OneTrack(m);
      }
      var mdatSize := 8 + |mdatBuf|;
      moofMdat := moofMdat + [F.Fragment(moofBox.value, mdatBuf, openedAt, ends, vCache.frames, aCache.frames)];
      fmp4BaseDataOffset := F.Add64(fmp4BaseDataOffset, moofBox.value.size + mdatSize);
      return true;
    }

    /** The moof's size is now known: it is added to the offset of the two runs just appended. */
    method ApplyOffsets(k: nat)
      requires moofBox.Some? && moofBox.value.Container? && |moofBox.value.children| == k + 2
      modifies this`moofBox
      ensures var m := old(moofBox).value;
              var t1, t2 := F.Shift(m.children[k], m.size), F.Shift(m.children[k + 1], m.size);
              moofBox == Some(Container(m.kind, m.size, m.children[..k] + [t1, t2]))
    {
      var m := moofBox.value;
      var t1, t2 := F.Shift(m.children[k], m.size), F.Shift(m.children[k + 1], m.size);
      moofBox := Some(m.(children := m.children[..k] + [t1, t2]));
    }

    method AddVideoFrameWithLen(frame: Bytes, ts: int, isKeyFrame: bool) returns (o: F.Outcome)
      requires Valid()
      modifies this
      ensures o == F.AddVideo(old(State()), frame, ts, isKeyFrame)
      ensures o.Done? ==> Valid() && State() == o.mux
    {
      hide F.CloseCrashes, F.AddFrame, F.WithHeader, F.ClosedMoof, F.ClosedData;
      if videoTrackId < 1 { return F.NoTrack; }
      if isKeyFrame {
        if vCache.accOffset > 0 {
          var long := vCache.lastTs - vCache.firstTs > segDuration;
          WriteHeader();
          var ok := GenerateOneFrag();
          if !ok { return F.Crash; }
          keyFrameCount := 0;
          if long {
            curTrackOffset, moofMdatSeqNum := 0, 1;
          }
          ResetFrag(ts);
        } else {
          ResetFrag(ts);
        }
        keyFrameCount := keyFrameCount + 1;
      }
      vCache := AddFrame(vCache, frame, ts, 0);
      return F.Done(State());
    }

    method WriteHeader()
      requires Valid()
      modifies this`headerBox, this`fmp4BaseDataOffset, this`vCache, this`aCache
      ensures Valid() && State() == F.WithHeader(old(State()))
    {
      if |headerBox| == 0 {
        headerBox := headerBytes;
        fmp4BaseDataOffset := |headerBox| % 0x1_0000_0000_0000_0000;
        if vCache.base < 1 {
          vCache := vCache.(base := fmp4BaseDataOffset);
        }
        if aCache.base < 1 {
          aCache := aCache.(base := fmp4BaseDataOffset);
        }
      }
    }

    /** serialize's loop over the fragments. */
    method SerializeFile() returns (out: Bytes)
      ensures out == F.File(State())
    {
      hide Serialize, F.Mdat;
      out := headerBox;
      assert headerBox + [] == headerBox;
      for i := 0 to |moofMdat|
        invariant out == headerBox + F.FragmentsBytes(moofMdat[..i])
      {
        assert moofMdat[..i + 1][..i] == moofMdat[..i];
        var moof, mdat := Serialize(moofMdat[i].moof), F.Mdat(moofMdat[i].data);
        Assoc(out, moof, mdat);
        Assoc(headerBox, F.FragmentsBytes(moofMdat[..i]), moof + mdat);
        out := out + moof + mdat;
      }
      assert moofMdat[..|moofMdat|] == moofMdat;
    }
  }

  /** A whole run of the object: the file it ends with has every moof at the offset its track fragments name
      (R.MoofAtItsBase) and every frame where L.VideoFramesInFile and L.AudioFramesInFile say, and the running base
      offset is the file's length. */
  method MuxAll(mux: Fmp4, ins: seq<R.Input>) returns (file: Bytes)
    requires mux.Valid() && R.MuxOk(mux.State()) && L.LayoutOk(mux.State()) && R.Runs(mux.State(), ins)
    modifies mux
    ensures mux.Valid() && mux.State() == R.FeedAll(old(mux.State()), ins)
    ensures R.MuxOk(mux.State()) && L.LayoutOk(mux.State())
    ensures file == F.File(mux.State()) && (mux.headerBox != [] ==> mux.fmp4BaseDataOffset == F.Low64(|file|))
  {
    hide F.AddVideo, F.AddAudio, F.File, R.MuxOk, R.Runs, R.FeedAll, L.LayoutOk;
    ghost var m := mux.State();
    assert ins[0..] == ins;
    var i := 0;
    while i < |ins|
      invariant i <= |ins| && mux.Valid()
      invariant R.Runs(mux.State(), ins[i..]) && R.FeedAll(mux.State(), ins[i..]) == R.FeedAll(m, ins)
    {
      assert ins[i..][1..] == ins[i + 1..] && ins[i..][0] == ins[i];
      R.RunsNext(mux.State(), ins[i..]);
      match ins[i] {
        case VideoIn(frame, ts, key) => var o := mux.AddVideoFrameWithLen(frame, ts, key);
        case AudioIn(frame, ts) => var o := mux.AddAudioFrameWithoutLen(frame, ts);
      }
      i := i + 1;
    }
    assert ins[i..] == [];
    R.RunsDone(mux.State());
    L.RunLays(m, ins);
    file := mux.SerializeFile();
    if mux.headerBox != [] { R.BaseIsLength(mux.State()); }
  }

  /** The file of a run from a new muxer. */
  method MuxFile(headerBytes: Bytes, videoTrack: U32, audioTrack: U32, segDuration: int, ins: seq<R.Input>)
    returns (file: Bytes)
    requires headerBytes != [] && videoTrack > 0 && audioTrack > 0 && videoTrack != audioTrack
    requires R.Runs(F.NewMux(headerBytes, videoTrack, audioTrack, segDuration), ins)
    ensures file == F.File(R.FeedAll(F.NewMux(headerBytes, videoTrack, audioTrack, segDuration), ins))
  {
    hide F.File, F.NewMux, R.MuxOk, R.Runs, R.FeedAll, L.LayoutOk;
    L.NewMuxOk(headerBytes, videoTrack, audioTrack, segDuration);
    var mux := new Fmp4(headerBytes, videoTrack, audioTrack, segDuration);
    file := MuxAll(mux, ins);
  }
}
