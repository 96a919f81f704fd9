/** The client on the wire: its chunk size is the one its unpacker reads with. */
module RtmpClientWire {
  import opened ByteIO
  import C = RtmpClient
  import P = RtmpPack

  /** These messages, as the client takes them; its view of their contents does not matter here. */
  ghost predicate SameMessages(ms: seq<C.Received>, got: seq<P.Message>) {
    |ms| == |got| && forall i :: 0 <= i < |ms| ==> ms[i].kind == got[i].kind && ms[i].payload == got[i].payload
  }

  lemma {:induction false} DrainedSize(u: P.Unpacker, b: Bytes, ms: seq<C.Received>)
    requires P.Drain(u, b).failure == None && SameMessages(ms, P.Drain(u, b).messages)
    ensures P.Drain(u, b).unpacker.chunkSize == C.LastSize(u.chunkSize, ms)
    decreases |b|
  {
    hide P.GetMessage;
    if |b| > 0 {
      var g := P.GetMessage(u, b);
      var m := g.res.value;
      SizeStays(u, b);
      var u1 := if m.kind == 1 then g.unpacker.(chunkSize := U32BE(m.payload[..4])) else g.unpacker;
      assert ms[0].kind == m.kind && ms[0].payload == m.payload;
      DrainedSize(u1, g.rest, ms[1..]);
      FirstSize(u.chunkSize, ms);
    }
  }

  /** Reading a message leaves the chunk size alone. */
  lemma {:induction false} SizeStays(u: P.Unpacker, b: Bytes)
    ensures P.GetMessage(u, b).unpacker.chunkSize == u.chunkSize
    decreases |b|
  {
    StepKeeps(u, b);
    hide P.Step;
    var s := P.Step(u, b);
    if s.res.Ok? && s.res.value.None? { SizeStays(s.unpacker, s.rest); }
  }

  lemma StepKeeps(u: P.Unpacker, b: Bytes)
    ensures P.Step(u, b).unpacker.chunkSize == u.chunkSize
  {
    hide P.Collect;
  }

  lemma {:induction false} FirstSize(size: U32, ms: seq<C.Received>)
    requires |ms| > 0
    ensures C.LastSize(size, ms) == C.LastSize(C.ReadSizeAfter(size, ms[0]), ms[1..])
    decreases |ms|
  {
    hide C.ReadSizeAfter;
    if |ms| > 1 {
      assert ms[1..][..|ms| - 2] == ms[..|ms| - 1][1..];
      FirstSize(size, ms[..|ms| - 1]);
    } else {
      assert ms[..0] == [] && ms[1..] == [];
    }
  }

  /** A client that reads its messages off the wire and goes on: the chunk size its unpacker ends with is the
      client's. */
  lemma ClientAndUnpackerAgree(role: C.Role, hasPlayer: bool, b: Bytes, ms: seq<C.Received>)
    requires var d := P.Drain(P.Unpacker(map[], 128, map[]), b); d.failure == None && SameMessages(ms, d.messages)
    requires C.Run(C.Connecting(role, hasPlayer), ms).Going?
    ensures C.Run(C.Connecting(role, hasPlayer), ms).c.readSize
            == P.Drain(P.Unpacker(map[], 128, map[]), b).unpacker.chunkSize
  {
    hide P.Drain, C.Run, C.LastSize;
    DrainedSize(P.Unpacker(map[], 128, map[]), b, ms);
    C.ReadsWithLastSize(role, hasPlayer, ms);
  }
}
