/** Exactly which received messages bring a player to play_start. */
module RtmpPlay {
  import opened ByteIO
  import opened RtmpClient

  /** Neither a command nor an event of the play negotiation, and nothing the client fails on. */
  predicate Quiet(hasPlayer: bool, m: Received) { !IsCommand(m) && Harmless(hasPlayer, m) }

  predicate IsEvent(m: Received, e: nat) { m.kind == 4 && |m.payload| >= 2 && EventType(m) == e }

  /** Where the milestones of a negotiation are: the answers to connect and createStream, perhaps StreamIsRecorded,
      StreamBegin, the first command after it and the start. Those not reached yet lie beyond the messages. */
  datatype Path = Path(connect: nat, create: nat, recorded: Option<nat>, begin: nat, first: nat, start: nat)

  predicate InOrder(p: Path) {
    && p.connect < p.create < p.begin < p.first <= p.start
    && (p.recorded.Some? ==> p.create < p.recorded.value < p.begin)
  }

  predicate PlayAnswer(m: Received) { IsCommand(m) && m.connect.Accept? && m.writes >= 3 }
  predicate StreamAnswer(m: Received) { IsCommand(m) && m.created.StreamId? && m.writes >= 3 }

  /** What may come i-th. */
  predicate Fits(hasPlayer: bool, m: Received, i: nat, p: Path) {
    if i == p.connect then PlayAnswer(m)
    else if i == p.create then StreamAnswer(m)
    else if p.recorded == Some(i) then IsEvent(m, 4)
    else if i == p.begin then IsEvent(m, 0)
    else if i == p.first then
      IsCommand(m) && !m.reset.Crash? && (if p.start == i then m.start.Started? else m.start.Other?)
    else if i == p.start then IsCommand(m) && m.start.Started?
    else
      || Quiet(hasPlayer, m)
      || (IsCommand(m) && ((p.connect < i < p.create && m.created.Undefined?) || p.create < i < p.begin
                           || (p.first < i < p.start && m.start.Other?) || p.start < i))
  }

  ghost predicate Negotiated(hasPlayer: bool, ms: seq<Received>, p: Path) {
    InOrder(p) && forall i :: 0 <= i < |ms| ==> Fits(hasPlayer, ms[i], i, p)
  }

  /** The status after n messages. */
  function StatusAt(p: Path, n: nat): nat {
    if n <= p.connect then CONNECT_SEND
    else if n <= p.create then CRTSTM_SEND
    else if n <= p.begin then if p.recorded.Some? && p.recorded.value < n then STREAM_IS_RECORD else PLAY_SEND
    else if n <= p.first then STREAM_BEGIN
    else if n <= p.start then PLAY_RESET
    else PLAY_START
  }

  // ---------------------------------------------------------------- a path leads there

  lemma StepAlong(c: Client, m: Received, i: nat, p: Path)
    requires Live(c) && c.role.PLAY? && InOrder(p) && c.status == StatusAt(p, i) && Fits(c.hasPlayer, m, i, p)
    ensures Step(c, m).Going? && Step(c, m).c.status == StatusAt(p, i + 1)
  {
    if c.status == CONNECT_SEND && IsCommand(m) {
      AfterConnectSends(c.(status := CONNECT_SUCCESS, writeSize := 1024));
    } else if c.status == CRTSTM_SEND && m.created.StreamId? {
      AfterCreateSends(c.(functionalStreamId := m.created.id, status := CRTSTRM_SUCCESS));
    }
  }

  lemma {:induction false} PathLeads(hasPlayer: bool, ms: seq<Received>, p: Path)
    requires Negotiated(hasPlayer, ms, p)
    ensures var o := Run(Connecting(PLAY, hasPlayer), ms);
            o.Going? && Live(o.c) && o.c.role.PLAY? && o.c.hasPlayer == hasPlayer && o.c.status == StatusAt(p, |ms|)
    ensures p.create < |ms| ==>
              Run(Connecting(PLAY, hasPlayer), ms).c.functionalStreamId == ms[p.create].created.id
    decreases |ms|
  {
    hide Step, Live, Fits;
    RunFollows(PLAY, hasPlayer, ms, |ms|);
    if |ms| > 0 {
      var k := |ms| - 1;
      PathLeads(hasPlayer, ms[..k], p);
      var c := Run(Connecting(PLAY, hasPlayer), ms[..k]).c;
      assert Fits(hasPlayer, ms[k], k, p);
      StepAlong(c, ms[k], k, p);
      StepFollows(c, ms[k]);
      CreateFits(hasPlayer, ms[k], k, p);
    }
  }

  lemma CreateFits(hasPlayer: bool, m: Received, i: nat, p: Path)
    requires InOrder(p) && Fits(hasPlayer, m, i, p)
    ensures i == p.create ==> StreamAnswer(m)
    ensures p.create < i ==> StatusAt(p, i) > CRTSTM_SEND
  {
  }

  // ---------------------------------------------------------------- every run is along a path

  /** The path through one more message, which is the k-th. */
  function Onward(p: Path, status: nat, k: nat, m: Received): Path {
    if status == CONNECT_SEND then
      if IsCommand(m) then Path(k, k + 1, None, k + 2, k + 3, k + 3) else Path(k + 1, k + 2, None, k + 3, k + 4, k + 4)
    else if status == CRTSTM_SEND then
      if IsCommand(m) && m.created.StreamId? then Path(p.connect, k, None, k + 1, k + 2, k + 2)
      else Path(p.connect, k + 1, None, k + 2, k + 3, k + 3)
    else if status == PLAY_SEND then
      if IsEvent(m, 4) then Path(p.connect, p.create, Some(k), k + 1, k + 2, k + 2)
      else if IsEvent(m, 0) then Path(p.connect, p.create, None, k, k + 1, k + 1)
      else Path(p.connect, p.create, None, k + 1, k + 2, k + 2)
    else if status == STREAM_IS_RECORD then
      if IsEvent(m, 0) then p.(begin := k, first := k + 1, start := k + 1)
      else p.(begin := k + 1, first := k + 2, start := k + 2)
    else if status == STREAM_BEGIN then
      if !IsCommand(m) then p.(first := k + 1, start := k + 1)
      else p.(first := k, start := if m.start.Started? then k else k + 1)
    else if status == PLAY_RESET then
      if IsCommand(m) && m.start.Started? then p.(start := k) else p.(start := k + 1)
    else p
  }

  /** Milestones before k are the same, the others are not before k. */
  predicate Agree(a: nat, b: nat, k: nat) { a == b || (a >= k && b >= k) }

  predicate PathsAgree(p: Path, q: Path, k: nat) {
    && Agree(p.connect, q.connect, k) && Agree(p.create, q.create, k) && Agree(p.begin, q.begin, k)
    && Agree(p.first, q.first, k) && Agree(p.start, q.start, k)
    && (p.recorded == q.recorded
        || ((p.recorded.Some? ==> p.recorded.value >= k) && (q.recorded.Some? ==> q.recorded.value >= k)))
  }

  lemma FitsAgree(hasPlayer: bool, m: Received, i: nat, p: Path, q: Path, k: nat)
    requires PathsAgree(p, q, k) && i < k && InOrder(p) && InOrder(q) && Fits(hasPlayer, m, i, p)
    ensures Fits(hasPlayer, m, i, q)
  {
  }

  lemma OnwardFits(c: Client, m: Received, k: nat, p: Path)
    requires Live(c) && c.role.PLAY? && InOrder(p) && c.status == StatusAt(p, k) && Step(c, m).Going?
    ensures var q := Onward(p, c.status, k, m);
            InOrder(q) && PathsAgree(p, q, k) && Fits(c.hasPlayer, m, k, q)
  {
    OnwardAgrees(p, k, m);
    hide PathsAgree;
  }

  lemma OnwardAgrees(p: Path, k: nat, m: Received)
    requires InOrder(p)
    ensures var q := Onward(p, StatusAt(p, k), k, m); InOrder(q) && PathsAgree(p, q, k)
  {
  }

  lemma {:induction false} FindPath(hasPlayer: bool, ms: seq<Received>) returns (p: Path)
    requires Run(Connecting(PLAY, hasPlayer), ms).Going?
    ensures Negotiated(hasPlayer, ms, p)
    decreases |ms|
  {
    if |ms| == 0 {
      p := Path(0, 1, None, 2, 3, 3);
    } else {
      hide Step, Live, Fits, PathsAgree, Onward;
      var k := |ms| - 1;
      var p0 := FindPath(hasPlayer, ms[..k]);
      PathLeads(hasPlayer, ms[..k], p0);
      var c := Run(Connecting(PLAY, hasPlayer), ms[..k]).c;
      OnwardFits(c, ms[k], k, p0);
      p := Onward(p0, c.status, k, ms[k]);
      forall i | 0 <= i < |ms|
        ensures Fits(hasPlayer, ms[i], i, p)
      {
        if i < k {
          assert ms[..k][i] == ms[i] && Fits(hasPlayer, ms[..k][i], i, p0);
          FitsAgree(hasPlayer, ms[i], i, p0, p, k);
        }
      }
    }
  }

  /** A player goes on exactly when what it received is along a path; the path tells its status and its stream id. */
  lemma PlayerGoesOnIff(hasPlayer: bool, ms: seq<Received>)
    ensures Run(Connecting(PLAY, hasPlayer), ms).Going? <==> exists p :: Negotiated(hasPlayer, ms, p)
    ensures forall p :: Negotiated(hasPlayer, ms, p) ==>
              Run(Connecting(PLAY, hasPlayer), ms).c.status == StatusAt(p, |ms|)
  {
    if Run(Connecting(PLAY, hasPlayer), ms).Going? { var p := FindPath(hasPlayer, ms); }
    forall p | Negotiated(hasPlayer, ms, p)
      ensures Run(Connecting(PLAY, hasPlayer), ms).Going?
      ensures Run(Connecting(PLAY, hasPlayer), ms).c.status == StatusAt(p, |ms|)
    {
      PathLeads(hasPlayer, ms, p);
    }
  }

  // ---------------------------------------------------------------- play_start

  /** The first n messages are along this path, past its end. */
  ghost predicate Playing(hasPlayer: bool, ms: seq<Received>, n: nat, p: Path) {
    n <= |ms| && Negotiated(hasPlayer, ms[..n], p) && p.start < n
  }

  lemma {:induction false} FindPlaying(hasPlayer: bool, ms: seq<Received>) returns (n: nat, p: Path)
    requires Run(Connecting(PLAY, hasPlayer), ms).c.status == PLAY_START
    ensures Playing(hasPlayer, ms, n, p)
    decreases |ms|
  {
    var k := |ms| - 1;
    var init := ms[..k];
    var o := Run(Connecting(PLAY, hasPlayer), init);
    if o.c.status == PLAY_START {
      n, p := FindPlaying(hasPlayer, init);
      assert init[..n] == ms[..n];
    } else {
      RunFollows(PLAY, hasPlayer, init, k);
      assert init[..k] == init;
      StepFollows(o.c, ms[k]);
      n := |ms|;
      assert ms[..n] == ms;
      p := FindPath(hasPlayer, ms);
      PathLeads(hasPlayer, ms, p);
    }
  }

  lemma PlayingHolds(hasPlayer: bool, ms: seq<Received>, n: nat, p: Path)
    requires Playing(hasPlayer, ms, n, p)
    ensures p.create < |ms|
    ensures var c := Run(Connecting(PLAY, hasPlayer), ms).c;
            c.status == PLAY_START && StreamAnswer(ms[p.create]) && c.functionalStreamId == ms[p.create].created.id
  {
    assert Fits(hasPlayer, ms[..n][p.create], p.create, p);
    PathLeads(hasPlayer, ms[..n], p);
    RunFollows(PLAY, hasPlayer, ms, n);
  }

  /** A player plays exactly when some start of what it received went along a path to its end: connect and createStream
      answered, StreamBegin, then a start, nothing harmful between them; its stream id is the one answered, for good. */
  lemma PlayStartIff(hasPlayer: bool, ms: seq<Received>)
    ensures Run(Connecting(PLAY, hasPlayer), ms).c.status == PLAY_START
            <==> exists n: nat, p: Path :: Playing(hasPlayer, ms, n, p)
    ensures forall n: nat, p: Path :: Playing(hasPlayer, ms, n, p) ==>
              && p.create < |ms| && StreamAnswer(ms[p.create])
              && Run(Connecting(PLAY, hasPlayer), ms).c.functionalStreamId == ms[p.create].created.id
  {
    if Run(Connecting(PLAY, hasPlayer), ms).c.status == PLAY_START {
      var n, p := FindPlaying(hasPlayer, ms);
    }
    forall n: nat, p: Path | Playing(hasPlayer, ms, n, p)
      ensures p.create < |ms| && StreamAnswer(ms[p.create])
      ensures var c := Run(Connecting(PLAY, hasPlayer), ms).c;
              c.status == PLAY_START && c.functionalStreamId == ms[p.create].created.id
    {
      PlayingHolds(hasPlayer, ms, n, p);
    }
  }
}
