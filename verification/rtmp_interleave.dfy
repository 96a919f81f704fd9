/** Interleaving: messages in flight on distinct chunk streams and message streams do not disturb
    one another, whatever the order their chunks arrive in. */
module RtmpInterleave {
  import opened ByteIO
  import opened RtmpChunk
  import opened RtmpPack
  import opened RtmpRoundTrip

  /** A message of which `sent` bytes, but not all, are on the wire. */
  datatype Flight = Flight(message: Message, sent: nat)

  /** A multiplexing sender's choices: open a message with a full header, or send another chunk of one. */
  datatype Turn = Start(csid: U32, message: Message) | Continue(csid: U32)

  type Flights = map<U32, Flight>

  /** The message as the receiver will see it: a type 0 header carries delta 0 as its timestamp. */
  function AsRead(m: Message): Message { m.(timestamp := 0) }

  predicate Known(fs: Flights, t: Turn) {
    t.Continue? ==> t.csid in fs && fs[t.csid].sent <= |fs[t.csid].message.payload|
  }

  ghost predicate Legal(fs: Flights, t: Turn) {
    Known(fs, t) &&
    match t
    case Start(c, m) =>
      && c !in fs && Deliverable(c, m) && m.timestamp <= 0xffffff
      && forall d :: d in fs ==> fs[d].message.streamId != m.streamId
    case Continue(c) => true
  }

  /** Which message the turn is about, how much of it was out before, and how much is after. */
  function Subject(fs: Flights, t: Turn): Message
    requires Known(fs, t)
  {
    if t.Start? then t.message else fs[t.csid].message
  }

  function From(fs: Flights, t: Turn): nat
    requires Known(fs, t)
  {
    if t.Start? then 0 else fs[t.csid].sent
  }

  function To(fs: Flights, t: Turn, size: U32): (k: nat)
    requires Known(fs, t)
    ensures From(fs, t) <= k <= |Subject(fs, t).payload|
  {
    From(fs, t) + Min(|Subject(fs, t).payload| - From(fs, t), size)
  }

  function TurnBytes(fs: Flights, t: Turn, size: U32): Bytes
    requires Known(fs, t)
  {
    var m := Subject(fs, t);
    (if t.Start? then SerializeHeader(0, t.csid, FreshHeader(m)) else ContHeader(t.csid, FreshHeader(m)))
    + m.payload[From(fs, t)..To(fs, t, size)]
  }

  function Landed(fs: Flights, t: Turn, size: U32): Option<Message>
    requires Known(fs, t)
  {
    if To(fs, t, size) == |Subject(fs, t).payload| then Some(AsRead(Subject(fs, t))) else None
  }

  function After(fs: Flights, t: Turn, size: U32): Flights
    requires Known(fs, t)
  {
    if Landed(fs, t, size).Some? then fs - {t.csid}
    else fs[t.csid := Flight(Subject(fs, t), To(fs, t, size))]
  }

  /** The receiver holds exactly the messages in flight; `Mid` makes its two counters of missing bytes agree. */
  ghost predicate Tracks(fs: Flights, u: Unpacker) {
    && (forall c :: c in fs ==> Mid(u, c, AsRead(fs[c].message), fs[c].sent) && fs[c].message.timestamp <= 0xffffff)
    && (forall c :: c in u.streams && c !in fs ==> u.streams[c].remain == 0)
    && (forall s :: s in u.collector && (forall c :: c in fs ==> fs[c].message.streamId != s) ==> Idle(u.collector[s]))
    && (forall c, d :: c in fs && d in fs && c != d ==> fs[c].message.streamId != fs[d].message.streamId)
  }

  /** A message in flight is untouched by changes to other chunk streams and message streams. */
  lemma MidFrame(u: Unpacker, u1: Unpacker, csid: U32, m: Message, k: nat)
    requires Mid(u, csid, m, k) && csid in u1.streams && m.streamId in u1.collector
    requires u1.streams[csid] == u.streams[csid] && u1.collector[m.streamId] == u.collector[m.streamId]
    ensures Mid(u1, csid, m, k)
  {
  }

  /** A turn moves the receiver only where it concerns chunk stream c and message stream s. */
  ghost predicate Moves(u: Unpacker, u1: Unpacker, c: U32, s: U32, left: nat) {
    && c in u1.streams && s in u1.collector
    && u1.streams == u.streams[c := u1.streams[c]] && u1.streams[c].remain == left
    && u1.collector == u.collector[s := u1.collector[s]] && (left == 0 ==> Idle(u1.collector[s]))
  }

  lemma TurnTracks(fs: Flights, u: Unpacker, t: Turn, u1: Unpacker)
    requires Tracks(fs, u) && u.chunkSize >= 1 && Legal(fs, t)
    requires var m, k := Subject(fs, t), To(fs, t, u.chunkSize);
             && m.timestamp <= 0xffffff && Moves(u, u1, t.csid, m.streamId, |m.payload| - k)
             && (k < |m.payload| ==> Mid(u1, t.csid, AsRead(m), k))
    ensures Tracks(After(fs, t, u.chunkSize), u1)
  {
    hide Mid;
    var m, k := Subject(fs, t), To(fs, t, u.chunkSize);
    var fs1 := After(fs, t, u.chunkSize);
    forall d | d in fs1 ensures Mid(u1, d, AsRead(fs1[d].message), fs1[d].sent) {
      if d != t.csid {
        MidKnows(u, d, AsRead(fs[d].message), fs[d].sent);
        MidFrame(u, u1, d, AsRead(fs[d].message), fs[d].sent);
      }
    }
    assert t.csid in fs1 ==> fs1[t.csid].message.streamId == m.streamId;
    forall s | s in u1.collector && (forall d :: d in fs1 ==> fs1[d].message.streamId != s)
      ensures Idle(u1.collector[s])
    {
      if s != m.streamId {
        forall d | d in fs ensures fs[d].message.streamId != s {
          if d != t.csid { assert d in fs1 && fs1[d] == fs[d]; }
        }
      }
    }
  }

  lemma MidKnows(u: Unpacker, csid: U32, m: Message, k: nat)
    requires Mid(u, csid, m, k)
    ensures csid in u.streams && m.streamId in u.collector
  {
  }

  lemma StartTurn(fs: Flights, u: Unpacker, t: Turn, rest: Bytes)
    requires t.Start? && Tracks(fs, u) && u.chunkSize >= 1 && Legal(fs, t)
    ensures var o := Step(u, TurnBytes(fs, t, u.chunkSize) + rest);
            && o.rest == rest && o.res == Ok(Landed(fs, t, u.chunkSize))
            && o.unpacker.chunkSize == u.chunkSize && Tracks(After(fs, t, u.chunkSize), o.unpacker)
  {
    hide Step, SerializeHeader, Mid, After;
    var c, m, h := t.csid, AsRead(t.message), FreshHeader(t.message);
    var n := Min(|m.payload|, u.chunkSize);
    assert m.payload[0..n] == m.payload[..n];
    FirstStep(u, c, 0, h, m, rest);
    TurnTracks(fs, u, t, Opened(u, c, 0, h, m, n));
  }

  lemma ContinueMoves(u: Unpacker, c: U32, sent: Message, k: nat, rest: Bytes)
    requires Mid(u, c, AsRead(sent), k) && sent.timestamp <= 0xffffff && u.chunkSize >= 1
    ensures var j := k + Min(|sent.payload| - k, u.chunkSize);
            var o := Step(u, ContHeader(c, FreshHeader(sent)) + sent.payload[k..j] + rest);
            && o.rest == rest && o.unpacker.chunkSize == u.chunkSize
            && o.res == Ok(if j == |sent.payload| then Some(AsRead(sent)) else None)
            && Moves(u, o.unpacker, c, sent.streamId, |sent.payload| - j)
            && (j < |sent.payload| ==> Mid(o.unpacker, c, AsRead(sent), j))
  {
    hide Step, ContHeader;
    ContStep(u, c, AsRead(sent), k, FreshHeader(sent), rest);
  }

  lemma ContinueTurn(fs: Flights, u: Unpacker, t: Turn, rest: Bytes)
    requires t.Continue? && Tracks(fs, u) && u.chunkSize >= 1 && Legal(fs, t)
    ensures var o := Step(u, TurnBytes(fs, t, u.chunkSize) + rest);
            && o.rest == rest && o.res == Ok(Landed(fs, t, u.chunkSize))
            && o.unpacker.chunkSize == u.chunkSize && Tracks(After(fs, t, u.chunkSize), o.unpacker)
  {
    hide Step, ContHeader, After, Mid, Moves;
    var f := fs[t.csid];
    ContinueMoves(u, t.csid, f.message, f.sent, rest);
    TurnTracks(fs, u, t, Step(u, TurnBytes(fs, t, u.chunkSize) + rest).unpacker);
  }

  // ---------------------------------------------------------------- runs

  ghost predicate LegalRun(fs: Flights, ts: seq<Turn>, size: U32)
    decreases |ts|
  {
    |ts| == 0 || (Legal(fs, ts[0]) && LegalRun(After(fs, ts[0], size), ts[1..], size))
  }

  ghost function WireBytes(fs: Flights, ts: seq<Turn>, size: U32): Bytes
    requires LegalRun(fs, ts, size)
    decreases |ts|
  {
    if |ts| == 0 then []
    else TurnBytes(fs, ts[0], size) + WireBytes(After(fs, ts[0], size), ts[1..], size)
  }

  /** The messages whose last byte is out, in the order that happens. */
  ghost function Finished(fs: Flights, ts: seq<Turn>, size: U32): seq<Message>
    requires LegalRun(fs, ts, size)
    decreases |ts|
  {
    if |ts| == 0 then []
    else
      var l := Landed(fs, ts[0], size);
      (if l.Some? then [l.value] else []) + Finished(After(fs, ts[0], size), ts[1..], size)
  }

  ghost function InFlight(fs: Flights, ts: seq<Turn>, size: U32): Flights
    requires LegalRun(fs, ts, size)
    decreases |ts|
  {
    if |ts| == 0 then fs else InFlight(After(fs, ts[0], size), ts[1..], size)
  }

  /** The receiving loop over everything that arrives, chunk by chunk. */
  function DrainChunks(u: Unpacker, b: Bytes): Drained
    decreases |b|
  {
    if |b| == 0 then Drained(u, [], None)
    else
      var s := Step(u, b);
      if s.res.Err? then Drained(s.unpacker, [], Some(s.res.failure))
      else
        var d := DrainChunks(s.unpacker, s.rest);
        if s.res.value.Some? then d.(messages := [s.res.value.value] + d.messages) else d
  }

  /** Any legal interleaving: the receiver delivers each message exactly when its last chunk arrives,
      reports nothing else, and holds exactly the unfinished ones. */
  lemma {:induction false} AnyInterleaving(fs: Flights, u: Unpacker, ts: seq<Turn>)
    requires Tracks(fs, u) && u.chunkSize >= 1 && LegalRun(fs, ts, u.chunkSize)
    ensures var d := DrainChunks(u, WireBytes(fs, ts, u.chunkSize));
            && d.messages == Finished(fs, ts, u.chunkSize) && d.failure == None
            && Tracks(InFlight(fs, ts, u.chunkSize), d.unpacker)
    decreases |ts|
  {
    hide Step, Tracks, Landed, TurnBytes, After;
    if |ts| > 0 {
      var t := ts[0];
      var rest := WireBytes(After(fs, t, u.chunkSize), ts[1..], u.chunkSize);
      if t.Start? { StartTurn(fs, u, t, rest); } else { ContinueTurn(fs, u, t, rest); }
      var u1 := Step(u, TurnBytes(fs, t, u.chunkSize) + rest).unpacker;
      AnyInterleaving(After(fs, t, u.chunkSize), u1, ts[1..]);
      var tail := Finished(After(fs, t, u.chunkSize), ts[1..], u.chunkSize);
      assert [] + tail == tail;
    }
  }

  // ---------------------------------------------------------------- nothing lost, nothing twice

  /** How often message x is in flight on the chunk streams below n. */
  function Flying(fs: Flights, n: nat, x: Message): nat {
    if n == 0 then 0 else Flying(fs, n - 1, x) + Slot(fs, n - 1, x)
  }

  function Slot(fs: Flights, c: nat, x: Message): nat {
    if c in fs && AsRead(fs[c].message) == x then 1 else 0
  }

  function Begun(ts: seq<Turn>, x: Message): nat {
    if |ts| == 0 then 0
    else (if ts[0].Start? && AsRead(ts[0].message) == x then 1 else 0) + Begun(ts[1..], x)
  }

  /** Changing one chunk stream changes one slot. */
  lemma {:induction false} FlyingChange(fs: Flights, fs1: Flights, c: nat, n: nat, x: Message)
    requires forall d :: d != c ==> Slot(fs, d, x) == Slot(fs1, d, x)
    ensures Flying(fs1, n, x) - Flying(fs, n, x) == if c < n then Slot(fs1, c, x) - Slot(fs, c, x) else 0
  {
    if n > 0 {
      FlyingChange(fs, fs1, c, n - 1, x);
      assert c != n - 1 ==> Slot(fs, n - 1, x) == Slot(fs1, n - 1, x);
    }
  }

  lemma TurnBalance(fs: Flights, t: Turn, size: U32, x: Message)
    requires Legal(fs, t) && forall c :: c in fs ==> c < 64
    ensures var fs1 := After(fs, t, size);
            && (forall c :: c in fs1 ==> c < 64)
            && Flying(fs1, 64, x) + (if Landed(fs, t, size) == Some(x) then 1 else 0)
               == Flying(fs, 64, x) + (if t.Start? && AsRead(t.message) == x then 1 else 0)
  {
    hide Flying;
    FlyingChange(fs, After(fs, t, size), t.csid, 64, x);
  }

  /** Every message started is delivered exactly once or still in flight. */
  lemma {:induction false} Conservation(fs: Flights, ts: seq<Turn>, size: U32, x: Message)
    requires LegalRun(fs, ts, size) && forall c :: c in fs ==> c < 64
    ensures multiset(Finished(fs, ts, size))[x] + Flying(InFlight(fs, ts, size), 64, x)
            == Flying(fs, 64, x) + Begun(ts, x)
    decreases |ts|
  {
    hide Flying, Landed, After;
    if |ts| > 0 {
      var fs1, l := After(fs, ts[0], size), Landed(fs, ts[0], size);
      TurnBalance(fs, ts[0], size, x);
      Conservation(fs1, ts[1..], size, x);
      var tail, done := Finished(fs1, ts[1..], size), if l.Some? then [l.value] else [];
      assert multiset(done + tail) == multiset(done) + multiset(tail);
    } else {
      assert multiset(Finished(fs, ts, size)) == multiset{};
    }
  }
}
