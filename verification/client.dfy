/** The RTMP client's negotiation (protocol/rtmp/clientHandler.go) as a state machine over received messages. The
    checks of a response's AMF content are abstract verdicts, and a received message also carries how many of the
    writes its handling asks for succeed. */
module RtmpClient {
  import opened ByteIO

  datatype Role = PUBLISH | PLAY

  const CONNECT_SEND: nat := 10
  const CONNECT_SUCCESS: nat := 11
  const CRTSTM_SEND: nat := 20
  const CRTSTRM_SUCCESS: nat := 21
  const PUBLISH_SEND: nat := 30
  const PUBLISH_SUCCESS: nat := 31
  const PLAY_SEND: nat := 40
  const STREAM_IS_RECORD: nat := 41
  const STREAM_BEGIN: nat := 42
  const PLAY_RESET: nat := 43
  const PLAY_START: nat := 44

  /** What a check says of a response. It may also panic, on a status code that is not a string. */
  datatype Verdict = Accept | Reject | Crash
  datatype Created = StreamId(id: U32) | Undefined | Refused
  datatype Start = Started | Other | NotOnStatus | StartCrash

  datatype Received = Received(
    kind: Byte, payload: Bytes, connect: Verdict, created: Created, reset: Verdict, start: Start, publish: Verdict,
    writes: nat)

  /** What the client sends. */
  datatype Call =
    | SetChunkSize | WindowAck | ReleaseStream | FCPublish | CreateStream
    | GetStreamLength | Play | SetBufferLength | Publish
  {
    predicate Numbered() { this != SetChunkSize && this != WindowAck }
  }

  datatype Sent = Sent(call: Call, id: Option<U32>)

  datatype Client = Client(
    role: Role, hasPlayer: bool, status: nat, transactionId: U32, functionalStreamId: U32, readSize: U32,
    writeSize: U32, out: seq<Sent>)

  /** A client is refused that would play without something to play on. */
  predicate Creatable(role: Role, hasPlayer: bool) { role.PLAY? ==> hasPlayer }

  /** The state in which the first message is read: connect has been sent. */
  function Connecting(role: Role, hasPlayer: bool): Client {
    Client(role, hasPlayer, CONNECT_SEND, 1, 0, 128, 128, [])
  }

  datatype Outcome = Going(c: Client) | Failed(c: Client) | RoleMismatch(c: Client) | Panicked(c: Client)

  // ---------------------------------------------------------------- sending

  function Issue(c: Client, call: Call): Client {
    if call.Numbered() then
      c.(out := c.out + [Sent(call, Some(c.transactionId))], transactionId := Add32(c.transactionId, 1))
    else c.(out := c.out + [Sent(call, None)])
  }

  function IssueAll(c: Client, calls: seq<Call>): Client
    decreases |calls|
  {
    if |calls| == 0 then c else IssueAll(Issue(c, calls[0]), calls[1..])
  }

  function AfterConnect(role: Role): seq<Call> {
    if role.PLAY? then [SetChunkSize, WindowAck, CreateStream]
    else [SetChunkSize, ReleaseStream, FCPublish, CreateStream]
  }

  function AfterCreate(role: Role): seq<Call> {
    if role.PLAY? then [GetStreamLength, Play, SetBufferLength] else [Publish]
  }

  /** Send the calls in turn up to the first write that fails; the next status is reached only after them all. */
  function Proceed(c: Client, calls: seq<Call>, writes: nat, next: nat): Outcome {
    if writes < |calls| then Failed(IssueAll(c, calls[..writes])) else Going(IssueAll(c, calls).(status := next))
  }

  // ---------------------------------------------------------------- one message

  function OnControl(c: Client, m: Received): Outcome {
    if m.kind != 1 then Going(c)
    else if |m.payload| < 4 then Panicked(c)
    else Going(c.(readSize := U32BE(m.payload[..4])))
  }

  function EventType(m: Received): nat
    requires |m.payload| >= 2
  {
    m.payload[0] as int * 256 + m.payload[1]
  }

  function OnUserControl(c: Client, m: Received): Outcome {
    if |m.payload| < 2 then Panicked(c)
    else if EventType(m) == 0 then
      if c.status == STREAM_IS_RECORD || c.status == PLAY_SEND then Going(c.(status := STREAM_BEGIN)) else Failed(c)
    else if EventType(m) == 4 then
      if c.status == PLAY_SEND then Going(c.(status := STREAM_IS_RECORD)) else Failed(c)
    else Going(c)
  }

  function OnStart(c: Client, m: Received): Outcome {
    match m.start
    case Started => Going(c.(status := PLAY_START))
    case Other => Going(c)
    case NotOnStatus => Failed(c)
    case StartCrash => Panicked(c)
  }

  /** The stream id is stored whatever the response says: 0 unless it carries one. */
  function OnCreated(c: Client, m: Received): Outcome {
    match m.created
    case Undefined => Going(c.(functionalStreamId := 0))
    case Refused => Failed(c.(functionalStreamId := 0))
    case StreamId(id) =>
      Proceed(c.(functionalStreamId := id, status := CRTSTRM_SUCCESS), AfterCreate(c.role), m.writes,
              if c.role.PLAY? then PLAY_SEND else PUBLISH_SEND)
  }

  function OnCommand(c: Client, m: Received): Outcome {
    if c.status == CONNECT_SEND then
      match m.connect
      case Crash => Panicked(c)
      case Reject => Failed(c)
      case Accept =>
        Proceed(c.(status := CONNECT_SUCCESS, writeSize := 1024), AfterConnect(c.role), m.writes, CRTSTM_SEND)
    else if c.status == CRTSTM_SEND then OnCreated(c, m)
    else if c.status == STREAM_BEGIN then
      if !c.role.PLAY? then RoleMismatch(c)
      else if m.reset.Crash? then Panicked(c)
      else OnStart(c.(status := PLAY_RESET), m)
    else if c.status == PLAY_RESET then
      if !c.role.PLAY? then RoleMismatch(c) else OnStart(c, m)
    else if c.status == PUBLISH_SEND then
      if !c.role.PUBLISH? then RoleMismatch(c)
      else match m.publish
           case Crash => Panicked(c)
           case Reject => Failed(c)
           case Accept => Going(c.(status := PUBLISH_SUCCESS))
    else if c.status == PUBLISH_SUCCESS && !c.role.PUBLISH? then RoleMismatch(c)
    else Going(c)
  }

  predicate IsCommand(m: Received) { m.kind == 17 || m.kind == 20 }
  predicate IsMedia(m: Received) { m.kind == 8 || m.kind == 9 || m.kind == 15 || m.kind == 18 }

  /** handleReceiveMessage. Media goes to the player, which a publisher need not have. */
  function Step(c: Client, m: Received): Outcome {
    if m.kind in {1, 2, 3, 5, 6} then OnControl(c, m)
    else if m.kind == 4 then OnUserControl(c, m)
    else if IsCommand(m) then OnCommand(c, m)
    else if IsMedia(m) && !c.hasPlayer then Panicked(c)
    else Going(c)
  }

  /** Messages are read until one is not handled. */
  function Run(c: Client, ms: seq<Received>): Outcome {
    if |ms| == 0 then Going(c)
    else
      var o := Run(c, ms[..|ms| - 1]);
      if o.Going? then Step(o.c, ms[|ms| - 1]) else o
  }

  // ---------------------------------------------------------------- what is sent

  /** Everything a client of that role sends after connect, in order: the numbers run from 1 without a gap. */
  function Script(role: Role): seq<Sent> {
    if role.PLAY? then
      [Sent(SetChunkSize, None), Sent(WindowAck, None), Sent(CreateStream, Some(1)),
       Sent(GetStreamLength, Some(2)), Sent(Play, Some(3)), Sent(SetBufferLength, Some(4))]
    else
      [Sent(SetChunkSize, None), Sent(ReleaseStream, Some(1)), Sent(FCPublish, Some(2)), Sent(CreateStream, Some(3)),
       Sent(Publish, Some(4))]
  }

  /** Sending changes the transcript and the transaction id only. */
  lemma {:induction false} IssueFrame(c: Client, calls: seq<Call>)
    ensures var d := IssueAll(c, calls);
            && d == c.(out := d.out, transactionId := d.transactionId)
            && |d.out| == |c.out| + |calls| && d.out[..|c.out|] == c.out
    decreases |calls|
  {
    if |calls| > 0 {
      IssueFrame(Issue(c, calls[0]), calls[1..]);
    }
  }

  lemma {:induction false} IssueSplit(c: Client, calls: seq<Call>, n: nat)
    requires n <= |calls|
    ensures IssueAll(c, calls) == IssueAll(IssueAll(c, calls[..n]), calls[n..])
    decreases n
  {
    if n == 0 {
      assert calls[0..] == calls;
    } else {
      assert calls[..n][1..] == calls[1..][..n - 1] && calls[1..][n - 1..] == calls[n..];
      IssueSplit(Issue(c, calls[0]), calls[1..], n - 1);
    }
  }

  lemma IssueNext(c: Client, calls: seq<Call>, n: nat)
    requires n < |calls|
    ensures IssueAll(c, calls[..n + 1]) == Issue(IssueAll(c, calls[..n]), calls[n])
    ensures calls[..0] == [] && calls[..|calls|] == calls
  {
    IssueSplit(c, calls[..n + 1], n);
    assert calls[..n + 1][..n] == calls[..n] && calls[..n + 1][n..] == [calls[n]];
    IssueOne(IssueAll(c, calls[..n]), calls[n]);
  }

  /** What was sent before a write failed is a prefix of what would have been sent. */
  lemma SentPrefix(c: Client, calls: seq<Call>, n: nat)
    requires n <= |calls|
    ensures var d, e := IssueAll(c, calls[..n]).out, IssueAll(c, calls).out;
            |d| <= |e| && d == e[..|d|]
  {
    IssueSplit(c, calls, n);
    IssueFrame(IssueAll(c, calls[..n]), calls[n..]);
  }

  lemma AfterConnectSends(c: Client)
    requires c.out == [] && c.transactionId == 1
    ensures var d, k := IssueAll(c, AfterConnect(c.role)), if c.role.PLAY? then 3 else 4;
            d == c.(out := Script(c.role)[..k], transactionId := if c.role.PLAY? then 2 else 4)
  {
    if c.role.PLAY? {
      IssueThree(c, SetChunkSize, WindowAck, CreateStream);
    } else {
      IssueThree(c, SetChunkSize, ReleaseStream, FCPublish);
      var calls := AfterConnect(c.role);
      assert calls[..3] == [SetChunkSize, ReleaseStream, FCPublish] && calls[3..] == [CreateStream];
      IssueSplit(c, calls, 3);
      IssueOne(IssueAll(c, calls[..3]), CreateStream);
    }
  }

  lemma AfterCreateSends(c: Client)
    requires var k := if c.role.PLAY? then 3 else 4; c.out == Script(c.role)[..k]
    requires c.transactionId == if c.role.PLAY? then 2 else 4
    ensures IssueAll(c, AfterCreate(c.role)) == c.(out := Script(c.role), transactionId := 5)
  {
    if c.role.PLAY? {
      IssueThree(c, GetStreamLength, Play, SetBufferLength);
    } else {
      IssueOne(c, Publish);
    }
  }

  lemma IssueOne(c: Client, x: Call)
    ensures IssueAll(c, [x]) == Issue(c, x)
  {
    assert [x][1..] == [];
    assert IssueAll(Issue(c, x), []) == Issue(c, x);
  }

  lemma IssueThree(c: Client, x: Call, y: Call, z: Call)
    ensures IssueAll(c, [x, y, z]) == Issue(Issue(Issue(c, x), y), z)
  {
    assert [x, y, z][1..] == [y, z] && [y, z][1..] == [z];
    IssueOne(Issue(Issue(c, x), y), z);
    assert IssueAll(Issue(c, x), [y, z]) == IssueAll(Issue(Issue(c, x), y), [z]);
  }

  // ---------------------------------------------------------------- whole runs: status and roles

  predicate StatusFits(role: Role, status: nat) {
    || status == CONNECT_SEND || status == CONNECT_SUCCESS || status == CRTSTM_SEND || status == CRTSTRM_SUCCESS
    || (role.PUBLISH? && PUBLISH_SEND <= status <= PUBLISH_SUCCESS)
    || (role.PLAY? && PLAY_SEND <= status <= PLAY_START)
  }

  /** How much of the script a client that still goes on has sent, and the number its next call gets. */
  function Done(role: Role, status: nat): nat {
    if status < CRTSTM_SEND then 0 else if status < PUBLISH_SEND then (if role.PLAY? then 3 else 4) else |Script(role)|
  }

  function NextId(role: Role, status: nat): U32 {
    if status < CRTSTM_SEND then 1 else if status < PUBLISH_SEND then (if role.PLAY? then 2 else 4) else 5
  }

  /** A client that still goes on. */
  predicate Live(c: Client) {
    && StatusFits(c.role, c.status) && c.status != CONNECT_SUCCESS && c.status != CRTSTRM_SUCCESS
    && c.out == Script(c.role)[..Done(c.role, c.status)] && c.transactionId == NextId(c.role, c.status)
    && c.writeSize == (if c.status == CONNECT_SEND then 128 else 1024)
  }

  /** Any client of a run, stopped or not. */
  predicate Sane(c: Client) {
    && StatusFits(c.role, c.status)
    && |c.out| <= |Script(c.role)| && c.out == Script(c.role)[..|c.out|]
  }

  predicate Follows(c: Client, o: Outcome) {
    && c.role == o.c.role && c.hasPlayer == o.c.hasPlayer && c.status <= o.c.status
    && Sane(o.c) && (o.Going? ==> Live(o.c)) && !o.RoleMismatch?
    && (c.status != CRTSTM_SEND ==> o.c.functionalStreamId == c.functionalStreamId)
    && (!o.Going? ==> o.c.status in {c.status, CONNECT_SUCCESS, CRTSTRM_SUCCESS, PLAY_RESET})
  }

  lemma ProceedFollows(c: Client, calls: seq<Call>, writes: nat, next: nat)
    requires var d := IssueAll(c, calls); Sane(d) && Live(d.(status := next))
    requires next >= c.status
    ensures var o := Proceed(c, calls, writes, next);
            && c.role == o.c.role && c.hasPlayer == o.c.hasPlayer && c.status <= o.c.status
            && Sane(o.c) && (o.Going? ==> Live(o.c)) && !o.RoleMismatch?
            && o.c.functionalStreamId == c.functionalStreamId && (!o.Going? ==> o.c.status == c.status)
  {
    IssueFrame(c, calls);
    if writes < |calls| {
      SentPrefix(c, calls, writes);
      IssueFrame(c, calls[..writes]);
    }
  }

  /** The stream id after a message: a createStream response sets it, to 0 when it carries none; nothing else does. */
  function StreamIdAfter(c: Client, m: Received): U32 {
    if c.status == CRTSTM_SEND && IsCommand(m) then if m.created.StreamId? then m.created.id else 0
    else c.functionalStreamId
  }

  /** The size the client reads chunks with after a message: a set-chunk-size message that is long enough sets it, and
      nothing else does. */
  function ReadSizeAfter(size: U32, m: Received): U32 {
    if m.kind == 1 && |m.payload| >= 4 then
      ((m.payload[0] as int * 0x100 + m.payload[1]) * 0x100 + m.payload[2]) * 0x100 + m.payload[3]
    else size
  }

  /** What the client panics on: a control message cut short, media without a player, and, while a response is awaited,
      one whose check panics. */
  predicate PanicsOn(c: Client, m: Received) {
    || (m.kind == 1 && |m.payload| < 4) || (m.kind == 4 && |m.payload| < 2)
    || (m.kind in {8, 9, 15, 18} && !c.hasPlayer)
    || (m.kind in {17, 20}
        && ((c.status == CONNECT_SEND && m.connect.Crash?) || (c.status == PUBLISH_SEND && m.publish.Crash?)
            || (c.status == STREAM_BEGIN && (m.reset.Crash? || m.start.StartCrash?))
            || (c.status == PLAY_RESET && m.start.StartCrash?)))
  }

  /** Each message, read size and panics. */
  lemma StepReads(c: Client, m: Received)
    requires Live(c)
    ensures Step(c, m).c.readSize == ReadSizeAfter(c.readSize, m)
    ensures Step(c, m).Panicked? <==> PanicsOn(c, m)
  {
    if IsCommand(m) && c.status == CONNECT_SEND && m.connect.Accept? {
      ProceedReads(c.(status := CONNECT_SUCCESS, writeSize := 1024), AfterConnect(c.role), m.writes, CRTSTM_SEND);
    } else if IsCommand(m) && c.status == CRTSTM_SEND && m.created.StreamId? {
      ProceedReads(c.(functionalStreamId := m.created.id, status := CRTSTRM_SUCCESS), AfterCreate(c.role), m.writes,
                   if c.role.PLAY? then PLAY_SEND else PUBLISH_SEND);
    }
    if m.kind == 1 && |m.payload| >= 4 { assert U32BE(m.payload[..4]) == ReadSizeAfter(c.readSize, m); }
  }

  lemma ProceedReads(c: Client, calls: seq<Call>, writes: nat, next: nat)
    ensures Proceed(c, calls, writes, next).c.readSize == c.readSize && !Proceed(c, calls, writes, next).Panicked?
  {
    IssueFrame(c, calls);
    if writes < |calls| { IssueFrame(c, calls[..writes]); }
  }

  /** The last size announced, or the one it began with. */
  function LastSize(size: U32, ms: seq<Received>): U32 {
    if |ms| == 0 then size else ReadSizeAfter(LastSize(size, ms[..|ms| - 1]), ms[|ms| - 1])
  }

  /** In every run the client reads with the last size announced to it, or 128. */
  lemma {:induction false} ReadsWithLastSize(role: Role, hasPlayer: bool, ms: seq<Received>)
    ensures var o := Run(Connecting(role, hasPlayer), ms); o.Going? ==> o.c.readSize == LastSize(128, ms)
    decreases |ms|
  {
    if |ms| > 0 {
      var init := ms[..|ms| - 1];
      ReadsWithLastSize(role, hasPlayer, init);
      RunFollows(role, hasPlayer, init, |init|);
      var o := Run(Connecting(role, hasPlayer), init);
      if o.Going? { StepReads(o.c, ms[|ms| - 1]); }
    }
  }

  lemma CommandFollows(c: Client, m: Received)
    requires Live(c)
    ensures Follows(c, OnCommand(c, m))
    ensures IsCommand(m) ==> OnCommand(c, m).c.functionalStreamId == StreamIdAfter(c, m)
  {
    if c.status == CONNECT_SEND && m.connect.Accept? {
      var c1 := c.(status := CONNECT_SUCCESS, writeSize := 1024);
      AfterConnectSends(c1);
      ProceedFollows(c1, AfterConnect(c.role), m.writes, CRTSTM_SEND);
    } else if c.status == CRTSTM_SEND && m.created.StreamId? {
      var c1 := c.(functionalStreamId := m.created.id, status := CRTSTRM_SUCCESS);
      AfterCreateSends(c1);
      ProceedFollows(c1, AfterCreate(c.role), m.writes, if c.role.PLAY? then PLAY_SEND else PUBLISH_SEND);
    }
  }

  /** Every message: the status does not go back, it stays one the role has, what has been sent is a prefix of the
      role's script, and the stream id changes only while createStream is answered. */
  lemma StepFollows(c: Client, m: Received)
    requires Live(c)
    ensures Follows(c, Step(c, m)) && Step(c, m).c.functionalStreamId == StreamIdAfter(c, m)
    ensures Step(c, m).c.readSize == ReadSizeAfter(c.readSize, m) && (Step(c, m).Panicked? <==> PanicsOn(c, m))
  {
    StepReads(c, m);
    CommandFollows(c, m);
  }

  /** Every run, from any point of it to any later one. */
  lemma {:induction false} RunFollows(role: Role, hasPlayer: bool, ms: seq<Received>, i: nat)
    requires i <= |ms|
    ensures var o, o' := Run(Connecting(role, hasPlayer), ms[..i]), Run(Connecting(role, hasPlayer), ms);
            && o'.c.role == role && o'.c.hasPlayer == hasPlayer && Sane(o'.c) && !o'.RoleMismatch?
            && o.c.status <= o'.c.status
            && (o'.Going? ==> o.Going? && Live(o'.c))
            && (!o.Going? ==> o' == o)
            && (o.c.status > CRTSTM_SEND ==> o'.c.functionalStreamId == o.c.functionalStreamId)
    decreases |ms|
  {
    var c := Connecting(role, hasPlayer);
    var n := |ms|;
    if n > 0 {
      var init := ms[..n - 1];
      if i < n {
        assert init[..i] == ms[..i];
        RunFollows(role, hasPlayer, init, i);
      } else {
        assert ms[..i] == ms;
        RunFollows(role, hasPlayer, init, n - 1);
        assert init[..n - 1] == init;
      }
      var o := Run(c, init);
      if o.Going? {
        StepFollows(o.c, ms[n - 1]);
      }
    }
  }

  // ---------------------------------------------------------------- which runs reach publish_success

  /** The command messages of a run, in order. */
  function Commands(ms: seq<Received>): seq<Received> {
    if |ms| == 0 then []
    else
      var init, m := Commands(ms[..|ms| - 1]), ms[|ms| - 1];
      if IsCommand(m) then init + [m] else init
  }

  /** A message that a publisher can take at any time: it is not a truncated control message, not an event of the
      play negotiation, and not media unless there is a player. */
  predicate Harmless(hasPlayer: bool, m: Received) {
    && (m.kind == 1 ==> |m.payload| >= 4)
    && (m.kind == 4 ==> |m.payload| >= 2 && EventType(m) != 0 && EventType(m) != 4)
    && (IsMedia(m) ==> hasPlayer)
  }

  predicate AllHarmless(hasPlayer: bool, ms: seq<Received>) {
    forall m <- ms :: IsCommand(m) || Harmless(hasPlayer, m)
  }

  predicate ConnectAnswer(m: Received) { m.connect.Accept? && m.writes >= 4 }
  predicate CreateAnswer(m: Received) { m.created.StreamId? && m.writes >= 1 }

  predicate Pending(cs: seq<Received>, n: nat)
    requires n < |cs|
  {
    ConnectAnswer(cs[0]) && forall i :: 1 <= i <= n ==> cs[i].created.Undefined?
  }

  /** The answers to connect and createStream, n undefined ones before the latter, then the one to publish. */
  predicate CreatedAt(cs: seq<Received>, n: nat) {
    n + 1 < |cs| && Pending(cs, n) && CreateAnswer(cs[n + 1])
  }

  predicate PublishedAt(cs: seq<Received>, n: nat) {
    CreatedAt(cs, n) && n + 2 < |cs| && cs[n + 2].publish.Accept?
  }

  /** What the commands seen so far say of a publisher that still goes on. */
  ghost predicate Matches(cs: seq<Received>, c: Client) {
    if c.status == CONNECT_SEND then cs == []
    else if c.status == CRTSTM_SEND then |cs| > 0 && Pending(cs, |cs| - 1)
    else if c.status == PUBLISH_SEND then
      |cs| >= 2 && CreatedAt(cs, |cs| - 2) && c.functionalStreamId == cs[|cs| - 1].created.id
    else
      c.status == PUBLISH_SUCCESS && exists n: nat :: PublishedAt(cs, n) && c.functionalStreamId == cs[n + 1].created.id
  }

  /** The commands a publisher can have taken. */
  ghost predicate Answered(cs: seq<Received>) {
    || cs == [] || Pending(cs, |cs| - 1) || (|cs| >= 2 && CreatedAt(cs, |cs| - 2))
    || exists n: nat :: PublishedAt(cs, n)
  }

  /** After a command, a matching publisher goes on exactly when the commands are still in order. */
  lemma CommandMatches(c: Client, cs: seq<Received>, m: Received)
    requires Live(c) && c.role.PUBLISH? && Matches(cs, c)
    ensures var o := OnCommand(c, m);
            && (o.Going? <==> Answered(cs + [m]))
            && (o.Going? ==> Matches(cs + [m], o.c))
  {
    var cs' := cs + [m];
    if c.status == CONNECT_SEND {
      AfterConnectSends(c.(status := CONNECT_SUCCESS, writeSize := 1024));
    } else if c.status == CRTSTM_SEND {
      if m.created.StreamId? {
        AfterCreateSends(c.(functionalStreamId := m.created.id, status := CRTSTRM_SUCCESS));
      }
      PendingNext(cs, m);
    } else if c.status == PUBLISH_SEND {
      CreatedNext(cs, m);
    } else {
      var n: nat :| PublishedAt(cs, n) && c.functionalStreamId == cs[n + 1].created.id;
      assert PublishedAt(cs', n);
    }
  }

  lemma PendingExtends(cs: seq<Received>, m: Received, n: nat)
    requires n < |cs|
    ensures Pending(cs + [m], n) <==> Pending(cs, n)
  {
    var cs' := cs + [m];
    assert forall i :: 0 <= i <= n ==> cs'[i] == cs[i];
    if Pending(cs', n) {
      forall i | 1 <= i <= n
        ensures cs[i].created.Undefined?
      {
        assert cs'[i].created.Undefined?;
      }
    }
  }

  lemma PendingNext(cs: seq<Received>, m: Received)
    requires |cs| > 0 && Pending(cs, |cs| - 1)
    ensures Pending(cs + [m], |cs|) <==> m.created.Undefined?
    ensures CreatedAt(cs + [m], |cs| - 1) <==> CreateAnswer(m)
    ensures forall n: nat :: !PublishedAt(cs + [m], n)
  {
    var cs' := cs + [m];
    PendingExtends(cs, m, |cs| - 1);
    assert cs'[|cs|] == m;
    assert forall i :: 1 <= i < |cs| ==> cs'[i] == cs[i];
  }

  lemma CreatedNext(cs: seq<Received>, m: Received)
    requires |cs| >= 2 && CreatedAt(cs, |cs| - 2)
    ensures !Pending(cs + [m], |cs|) && !CreatedAt(cs + [m], |cs| - 1)
    ensures PublishedAt(cs + [m], |cs| - 2) <==> m.publish.Accept?
    ensures forall n: nat :: PublishedAt(cs + [m], n) ==> n == |cs| - 2
  {
    var cs' := cs + [m];
    var k := |cs| - 1;
    assert cs'[k] == cs[k] && cs[k].created.StreamId?;
    assert forall i :: 1 <= i < k ==> cs'[i] == cs[i];
  }

  lemma AnsweredPrefix(cs: seq<Received>, m: Received)
    requires Answered(cs + [m])
    ensures Answered(cs)
  {
    var cs' := cs + [m];
    if cs != [] && (Pending(cs', |cs|) || CreatedAt(cs', |cs| - 1)) {
      PendingExtends(cs, m, |cs| - 1);
      assert Pending(cs', |cs| - 1);
    } else if cs != [] {
      var n: nat :| PublishedAt(cs', n);
      PendingExtends(cs, m, n);
      assert cs'[n + 1] == cs[n + 1];
      if n + 2 < |cs| {
        assert cs'[n + 2] == cs[n + 2];
        assert PublishedAt(cs, n);
      }
    }
  }

  /** A publisher goes on exactly when no message is harmful and its commands are the answers to connect,
      createStream (perhaps after undefined ones) and publish, in that order, or the start of that. */
  lemma {:induction false} PublisherGoesOnIff(hasPlayer: bool, ms: seq<Received>)
    ensures var o := Run(Connecting(PUBLISH, hasPlayer), ms);
            && (o.Going? <==> AllHarmless(hasPlayer, ms) && Answered(Commands(ms)))
            && (o.Going? ==> Live(o.c) && o.c.role.PUBLISH? && o.c.hasPlayer == hasPlayer && Matches(Commands(ms), o.c))
    decreases |ms|
  {
    if |ms| > 0 {
      var k := |ms| - 1;
      var init, m := ms[..k], ms[k];
      assert ms == init + [m];
      PublisherGoesOnIff(hasPlayer, init);
      RunFollows(PUBLISH, hasPlayer, ms, k);
      var o := Run(Connecting(PUBLISH, hasPlayer), init);
      if o.Going? {
        PublisherStep(o.c, Commands(init), m);
      } else if IsCommand(m) && Answered(Commands(ms)) {
        AnsweredPrefix(Commands(init), m);
      }
    }
  }

  lemma PublisherStep(c: Client, cs: seq<Received>, m: Received)
    requires Live(c) && c.role.PUBLISH? && Matches(cs, c) && Answered(cs)
    ensures var o, cs' := Step(c, m), if IsCommand(m) then cs + [m] else cs;
            && (o.Going? <==> (IsCommand(m) || Harmless(c.hasPlayer, m)) && Answered(cs'))
            && (o.Going? ==> Matches(cs', o.c))
  {
    if IsCommand(m) {
      CommandMatches(c, cs, m);
    }
  }

  /** A publisher is publishing exactly when some start of what it received brought the three answers in order and
      nothing harmful; its stream id is then the one in the createStream answer, for good. */
  lemma PublishSuccessIff(hasPlayer: bool, ms: seq<Received>)
    ensures var c := Run(Connecting(PUBLISH, hasPlayer), ms).c;
            c.status == PUBLISH_SUCCESS <==> exists p: nat, n: nat :: Publishing(hasPlayer, ms, p, n)
    ensures forall p: nat, n: nat :: Publishing(hasPlayer, ms, p, n) ==>
              Run(Connecting(PUBLISH, hasPlayer), ms).c.functionalStreamId == Commands(ms[..p])[n + 1].created.id
  {
    if Run(Connecting(PUBLISH, hasPlayer), ms).c.status == PUBLISH_SUCCESS {
      var p, n := FindPublishing(hasPlayer, ms);
    }
    forall p: nat, n: nat | Publishing(hasPlayer, ms, p, n)
      ensures var c := Run(Connecting(PUBLISH, hasPlayer), ms).c;
              c.status == PUBLISH_SUCCESS && c.functionalStreamId == Commands(ms[..p])[n + 1].created.id
    {
      PublishingHolds(hasPlayer, ms, p, n);
    }
  }

  predicate Publishing(hasPlayer: bool, ms: seq<Received>, p: nat, n: nat) {
    p <= |ms| && AllHarmless(hasPlayer, ms[..p]) && PublishedAt(Commands(ms[..p]), n)
  }

  lemma PublishedOnce(cs: seq<Received>, n: nat, k: nat)
    requires PublishedAt(cs, n) && PublishedAt(cs, k)
    ensures n == k
  {
    assert cs[n + 1].created.StreamId? && cs[k + 1].created.StreamId?;
  }

  lemma PublishingHolds(hasPlayer: bool, ms: seq<Received>, p: nat, n: nat)
    requires Publishing(hasPlayer, ms, p, n)
    ensures var c := Run(Connecting(PUBLISH, hasPlayer), ms).c;
            c.status == PUBLISH_SUCCESS && c.functionalStreamId == Commands(ms[..p])[n + 1].created.id
  {
    var cs := Commands(ms[..p]);
    PublisherGoesOnIff(hasPlayer, ms[..p]);
    RunFollows(PUBLISH, hasPlayer, ms, p);
    var c := Run(Connecting(PUBLISH, hasPlayer), ms[..p]).c;
    assert cs[n + 1].created.StreamId?;
    assert c.status == PUBLISH_SUCCESS;
    var k: nat :| PublishedAt(cs, k) && c.functionalStreamId == cs[k + 1].created.id;
    PublishedOnce(cs, n, k);
  }

  lemma {:induction false} FindPublishing(hasPlayer: bool, ms: seq<Received>) returns (p: nat, n: nat)
    requires Run(Connecting(PUBLISH, hasPlayer), ms).c.status == PUBLISH_SUCCESS
    ensures Publishing(hasPlayer, ms, p, n)
    decreases |ms|
  {
    var k := |ms| - 1;
    var init := ms[..k];
    var o := Run(Connecting(PUBLISH, hasPlayer), init);
    if o.c.status == PUBLISH_SUCCESS {
      p, n := FindPublishing(hasPlayer, init);
      assert init[..p] == ms[..p];
    } else {
      RunFollows(PUBLISH, hasPlayer, init, k);
      assert init[..k] == init;
      StepFollows(o.c, ms[k]);
      PublisherGoesOnIff(hasPlayer, ms);
      p := |ms|;
      assert ms[..p] == ms;
      n :| PublishedAt(Commands(ms), n);
    }
  }

  // ---------------------------------------------------------------- what a status tells of the messages before

  ghost predicate ConnectedBy(ms: seq<Received>, i: nat) {
    i < |ms| && IsCommand(ms[i]) && ms[i].connect.Accept?
  }

  ghost predicate CreatedBy(ms: seq<Received>, j: nat, id: U32) {
    j < |ms| && IsCommand(ms[j]) && ms[j].created == StreamId(id) && exists i :: 0 <= i < j && ConnectedBy(ms, i)
  }

  ghost predicate BegunBy(ms: seq<Received>, b: nat, id: U32) {
    && b < |ms| && ms[b].kind == 4 && |ms[b].payload| >= 2 && EventType(ms[b]) == 0
    && exists j :: 0 <= j < b && CreatedBy(ms, j, id)
  }

  ghost predicate StartedBy(ms: seq<Received>, k: nat, id: U32) {
    k < |ms| && IsCommand(ms[k]) && ms[k].start.Started? && exists b :: 0 <= b < k && BegunBy(ms, b, id)
  }

  ghost predicate PublishedBy(ms: seq<Received>, k: nat, id: U32) {
    k < |ms| && IsCommand(ms[k]) && ms[k].publish.Accept? && exists j :: 0 <= j < k && CreatedBy(ms, j, id)
  }

  /** A status is reached only through the responses before it, in their order. */
  ghost predicate History(ms: seq<Received>, c: Client) {
    && (c.status > CONNECT_SEND ==> exists i: nat :: ConnectedBy(ms, i))
    && (c.status > CRTSTM_SEND ==> exists j: nat :: CreatedBy(ms, j, c.functionalStreamId))
    && (c.status == PUBLISH_SUCCESS ==> exists k: nat :: PublishedBy(ms, k, c.functionalStreamId))
    && (c.status >= STREAM_BEGIN ==> exists b: nat :: BegunBy(ms, b, c.functionalStreamId))
    && (c.status == PLAY_START ==> exists k: nat :: StartedBy(ms, k, c.functionalStreamId))
  }

  lemma HistoryExtends(ms: seq<Received>, m: Received, i: nat, id: U32)
    ensures ConnectedBy(ms, i) ==> ConnectedBy(ms + [m], i)
    ensures CreatedBy(ms, i, id) ==> CreatedBy(ms + [m], i, id)
    ensures BegunBy(ms, i, id) ==> BegunBy(ms + [m], i, id)
    ensures StartedBy(ms, i, id) ==> StartedBy(ms + [m], i, id)
    ensures PublishedBy(ms, i, id) ==> PublishedBy(ms + [m], i, id)
  {
    var ms' := ms + [m];
    assert forall j :: 0 <= j < |ms| ==> ms'[j] == ms[j];
    assert forall j: nat :: ConnectedBy(ms, j) ==> ConnectedBy(ms', j);
    assert forall j: nat :: CreatedBy(ms, j, id) ==> CreatedBy(ms', j, id);
    assert forall j: nat :: BegunBy(ms, j, id) ==> BegunBy(ms', j, id);
  }

  lemma HistoryKept(ms: seq<Received>, m: Received, c: Client)
    requires History(ms, c)
    ensures History(ms + [m], c)
  {
    forall i: nat
      ensures ConnectedBy(ms, i) ==> ConnectedBy(ms + [m], i)
      ensures CreatedBy(ms, i, c.functionalStreamId) ==> CreatedBy(ms + [m], i, c.functionalStreamId)
      ensures BegunBy(ms, i, c.functionalStreamId) ==> BegunBy(ms + [m], i, c.functionalStreamId)
      ensures StartedBy(ms, i, c.functionalStreamId) ==> StartedBy(ms + [m], i, c.functionalStreamId)
      ensures PublishedBy(ms, i, c.functionalStreamId) ==> PublishedBy(ms + [m], i, c.functionalStreamId)
    {
      HistoryExtends(ms, m, i, c.functionalStreamId);
    }
  }

  /** Which message moves the status, and where to. */
  lemma StepMoves(c: Client, m: Received)
    requires Live(c)
    ensures var d := Step(c, m).c;
            || (d.status == c.status && (c.status != CRTSTM_SEND ==> d.functionalStreamId == c.functionalStreamId))
            || (c.status == CONNECT_SEND && CONNECT_SUCCESS <= d.status <= CRTSTM_SEND && IsCommand(m)
                && m.connect.Accept?)
            || (c.status == CRTSTM_SEND && d.status in {CRTSTRM_SUCCESS, PUBLISH_SEND, PLAY_SEND} && IsCommand(m)
                && m.created == StreamId(d.functionalStreamId))
            || (c.status == PUBLISH_SEND && d == c.(status := PUBLISH_SUCCESS) && IsCommand(m) && m.publish.Accept?)
            || (c.status == PLAY_SEND && d == c.(status := STREAM_IS_RECORD))
            || (c.status >= PLAY_SEND && d == c.(status := STREAM_BEGIN) && m.kind == 4 && |m.payload| >= 2
                && EventType(m) == 0)
            || (c.status >= STREAM_BEGIN && d == c.(status := PLAY_RESET))
            || (c.status >= STREAM_BEGIN && d == c.(status := PLAY_START) && IsCommand(m) && m.start.Started?)
  {
    if IsCommand(m) && c.status == CONNECT_SEND {
      var calls := AfterConnect(c.role);
      IssueFrame(c.(status := CONNECT_SUCCESS, writeSize := 1024), calls[..Min(m.writes, |calls|)]);
    } else if IsCommand(m) && c.status == CRTSTM_SEND && m.created.StreamId? {
      var c1 := c.(functionalStreamId := m.created.id, status := CRTSTRM_SUCCESS);
      IssueFrame(c1, AfterCreate(c.role)[..Min(m.writes, |AfterCreate(c.role)|)]);
      IssueFrame(c1, AfterCreate(c.role));
    }
  }

  lemma StepHistory(ms: seq<Received>, c: Client, m: Received)
    requires Live(c) && History(ms, c)
    ensures History(ms + [m], Step(c, m).c)
  {
    StepMoves(c, m);
    HistoryKept(ms, m, c);
    hide Step, Live;
    var ms', d := ms + [m], Step(c, m).c;
    var n, id := |ms|, d.functionalStreamId;
    assert ms'[n] == m;
    if d.status != c.status {
      if c.status == CONNECT_SEND {
        assert ConnectedBy(ms', n);
      } else if c.status == CRTSTM_SEND {
        var i: nat :| ConnectedBy(ms, i);
        HistoryExtends(ms, m, i, id);
        assert CreatedBy(ms', n, id);
      } else if d.status == PUBLISH_SUCCESS {
        var j: nat :| CreatedBy(ms, j, id);
        HistoryExtends(ms, m, j, id);
        assert PublishedBy(ms', n, id);
      } else if d.status == STREAM_BEGIN {
        var j: nat :| CreatedBy(ms, j, id);
        HistoryExtends(ms, m, j, id);
        assert BegunBy(ms', n, id);
      } else if d.status == PLAY_START {
        var b: nat :| BegunBy(ms, b, id);
        HistoryExtends(ms, m, b, id);
        assert StartedBy(ms', n, id);
      }
    }
  }

  /** Every run of either role: being past a stage means that its responses came, in order, and the stream id is the
      one in the createStream response. */
  lemma {:induction false} StatusTellsHistory(role: Role, hasPlayer: bool, ms: seq<Received>)
    ensures History(ms, Run(Connecting(role, hasPlayer), ms).c)
    decreases |ms|
  {
    if |ms| > 0 {
      var k := |ms| - 1;
      var init := ms[..k];
      StatusTellsHistory(role, hasPlayer, init);
      RunFollows(role, hasPlayer, init, k);
      assert ms == init + [ms[k]];
      var o := Run(Connecting(role, hasPlayer), init);
      if o.Going? {
        StepHistory(init, o.c, ms[k]);
      } else {
        HistoryKept(init, ms[k], o.c);
      }
    }
  }
}
