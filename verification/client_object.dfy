/** The client handler as an object, each method proved to make the step RtmpClient describes. */
module RtmpClientObject {
  import opened ByteIO
  import opened RtmpClient

  /** How a handler's method ends. */
  datatype End = Ok | Error | Mismatch | Panic

  function Ending(o: Outcome): End {
    match o
    case Going(_) => Ok
    case Failed(_) => Error
    case RoleMismatch(_) => Mismatch
    case Panicked(_) => Panic
  }

  lemma NoneIssued(c: Client, calls: seq<Call>)
    ensures calls[..0] == [] && IssueAll(c, calls[..0]) == c
  {
  }

  /** A client that stops on an unhandled message stops short of publishing, and stays there. */
  lemma StopsForGood(role: Role, hasPlayer: bool, ms: seq<Received>, i: nat)
    requires 0 < i <= |ms|
    requires var o := Run(Connecting(role, hasPlayer), ms[..i - 1]); o.Going? && o.c.status != PUBLISH_SUCCESS
    requires !Run(Connecting(role, hasPlayer), ms[..i]).Going?
    ensures forall k :: i <= k <= |ms| ==> Run(Connecting(role, hasPlayer), ms[..k]).c.status != PUBLISH_SUCCESS
  {
    var c := Connecting(role, hasPlayer);
    var o := Run(c, ms[..i - 1]);
    RunFollows(role, hasPlayer, ms[..i - 1], i - 1);
    StepFollows(o.c, ms[i - 1]);
    assert ms[..i][..i - 1] == ms[..i - 1];
    forall k | i <= k <= |ms|
      ensures Run(c, ms[..k]).c.status != PUBLISH_SUCCESS
    {
      assert ms[..k][..i] == ms[..i];
      RunFollows(role, hasPlayer, ms[..k], i);
    }
  }

  class RtmpClientHandler {
    const role: Role
    const hasPlayer: bool
    var status: nat
    var transactionId: U32
    var functionalStreamId: U32
    var readSize: U32
    var writeSize: U32
    var out: seq<Sent>

    function State(): Client
      reads this
    {
      Client(role, hasPlayer, status, transactionId, functionalStreamId, readSize, writeSize, out)
    }

    /** A handler that has sent connect. */
    constructor (role: Role, hasPlayer: bool)
      requires Creatable(role, hasPlayer)
      ensures State() == Connecting(role, hasPlayer)
    {
      this.role, this.hasPlayer := role, hasPlayer;
      status, transactionId, functionalStreamId, readSize, writeSize, out := CONNECT_SEND, 1, 0, 128, 128, [];
    }

    /** One write: it goes into the transcript when it succeeds. */
    method Send(call: Call, succeeds: bool) returns (ok: bool)
      modifies this`out, this`transactionId
      ensures ok == succeeds && State() == if ok then Issue(old(State()), call) else old(State())
    {
      if !succeeds { return false; }
      if call.Numbered() {
        out := out + [Sent(call, Some(transactionId))];
        transactionId := Add32(transactionId, 1);
      } else {
        out := out + [Sent(call, None)];
      }
      return true;
    }

    method HandleProtocolControl(m: Received) returns (end: End)
      modifies this`readSize
      ensures var o := OnControl(old(State()), m); State() == o.c && end == Ending(o)
      ensures readSize == ReadSizeAfter(old(readSize), m) && (end == Panic <==> m.kind == 1 && |m.payload| < 4)
    {
      if m.kind == 1 {
        if |m.payload| < 4 { return Panic; }
        readSize := U32BE(m.payload[..4]);
      }
      return Ok;
    }

    method HandleUserControl(m: Received) returns (end: End)
      modifies this`status
      ensures var o := OnUserControl(old(State()), m); State() == o.c && end == Ending(o)
    {
      if |m.payload| < 2 { return Panic; }
      var eventType := m.payload[0] as int * 256 + m.payload[1];
      if eventType == 0 {
        if status != STREAM_IS_RECORD && status != PLAY_SEND { return Error; }
        status := STREAM_BEGIN;
      } else if eventType == 4 {
        if status != PLAY_SEND { return Error; }
        status := STREAM_IS_RECORD;
      }
      return Ok;
    }

    /** The calls after an accepted connect, in their order. */
    method AnswerConnect(m: Received) returns (end: End)
      requires status == CONNECT_SEND && m.connect.Accept?
      modifies this
      ensures var o := OnCommand(old(State()), m); State() == o.c && end == Ending(o)
    {
      hide Issue, IssueAll;
      status := CONNECT_SUCCESS;
      writeSize := 1024;
      ghost var c := State();
      NoneIssued(c, AfterConnect(role));
      var ok := Send(SetChunkSize, m.writes > 0);
      if !ok { return Error; }
      IssueNext(c, AfterConnect(role), 0);
      if role.PLAY? {
        ok := Send(WindowAck, m.writes > 1);
        if !ok { return Error; }
        IssueNext(c, AfterConnect(role), 1);
        ok := Send(CreateStream, m.writes > 2);
        if !ok { return Error; }
        IssueNext(c, AfterConnect(role), 2);
      } else {
        ok := Send(ReleaseStream, m.writes > 1);
        if !ok { return Error; }
        IssueNext(c, AfterConnect(role), 1);
        ok := Send(FCPublish, m.writes > 2);
        if !ok { return Error; }
        IssueNext(c, AfterConnect(role), 2);
        ok := Send(CreateStream, m.writes > 3);
        if !ok { return Error; }
        IssueNext(c, AfterConnect(role), 3);
      }
      status := CRTSTM_SEND;
      return Ok;
    }

    method AnswerCreate(m: Received) returns (end: End)
      requires status == CRTSTM_SEND
      modifies this
      ensures var o := OnCommand(old(State()), m); State() == o.c && end == Ending(o)
    {
      hide Issue, IssueAll;
      functionalStreamId := if m.created.StreamId? then m.created.id else 0;
      if m.created.Undefined? { return Ok; }
      if m.created.Refused? { return Error; }
      status := CRTSTRM_SUCCESS;
      ghost var c := State();
      NoneIssued(c, AfterCreate(role));
      if role.PLAY? {
        var ok := Send(GetStreamLength, m.writes > 0);
        if !ok { return Error; }
        IssueNext(c, AfterCreate(role), 0);
        ok := Send(Play, m.writes > 1);
        if !ok { return Error; }
        IssueNext(c, AfterCreate(role), 1);
        ok := Send(SetBufferLength, m.writes > 2);
        if !ok { return Error; }
        IssueNext(c, AfterCreate(role), 2);
        status := PLAY_SEND;
      } else {
        var ok := Send(Publish, m.writes > 0);
        if !ok { return Error; }
        IssueNext(c, AfterCreate(role), 0);
        status := PUBLISH_SEND;
      }
      return Ok;
    }

    /** A response to play: a reset, and then, in the same message or a later one, a start. */
    method AnswerPlay(m: Received) returns (end: End)
      requires status == STREAM_BEGIN || status == PLAY_RESET
      modifies this`status
      ensures var o := OnCommand(old(State()), m); State() == o.c && end == Ending(o)
    {
      if !role.PLAY? { return Mismatch; }
      if status == STREAM_BEGIN {
        if m.reset.Crash? { return Panic; }
        status := PLAY_RESET;
      }
      match m.start
      case StartCrash => return Panic;
      case NotOnStatus => return Error;
      case Other => return Ok;
      case Started =>
        status := PLAY_START;
        return Ok;
    }

    method HandleCommand(m: Received) returns (end: End)
      modifies this
      ensures var o := OnCommand(old(State()), m); State() == o.c && end == Ending(o)
    {
      hide Proceed, OnStart, OnCreated;
      if status == CONNECT_SEND {
        match m.connect
        case Crash => return Panic;
        case Reject => return Error;
        case Accept => end := AnswerConnect(m);
      } else if status == CRTSTM_SEND {
        end := AnswerCreate(m);
      } else if status == STREAM_BEGIN || status == PLAY_RESET {
        end := AnswerPlay(m);
      } else if status == PUBLISH_SEND {
        if !role.PUBLISH? { return Mismatch; }
        match m.publish
        case Crash => return Panic;
        case Reject => return Error;
        case Accept => status := PUBLISH_SUCCESS;
        end := Ok;
      } else if status == PUBLISH_SUCCESS {
        end := if role.PUBLISH? then Ok else Mismatch;
      } else {
        end := Ok;
      }
    }

    method HandleReceiveMessage(m: Received) returns (end: End)
      modifies this
      ensures var o := Step(old(State()), m); State() == o.c && end == Ending(o)
    {
      hide OnControl, OnUserControl, OnCommand;
      if m.kind in {1, 2, 3, 5, 6} {
        end := HandleProtocolControl(m);
      } else if m.kind == 4 {
        end := HandleUserControl(m);
      } else if IsCommand(m) {
        end := HandleCommand(m);
      } else if IsMedia(m) && !hasPlayer {
        end := Panic;
      } else {
        end := Ok;
      }
    }

    /** The reading loop of Start: it ends with a message that is not handled, when the stream is published, or with
        the input. `taken` messages were read. */
    method Negotiate(ms: seq<Received>) returns (published: bool, taken: nat)
      requires State() == Connecting(role, hasPlayer)
      modifies this
      ensures taken <= |ms| && State() == Run(Connecting(role, hasPlayer), ms[..taken]).c
      ensures published ==> Run(Connecting(role, hasPlayer), ms[..taken]).Going? && status == PUBLISH_SUCCESS
      ensures published <==>
              exists k :: 0 <= k <= |ms| && Run(Connecting(role, hasPlayer), ms[..k]).c.status == PUBLISH_SUCCESS
    {
      hide Step;
      ghost var c := State();
      var i, end := 0, Ok;
      while i < |ms|
        invariant i <= |ms| && end == Ok
        invariant Run(c, ms[..i]) == Going(State())
        invariant forall k :: 0 <= k <= i ==> Run(c, ms[..k]).c.status != PUBLISH_SUCCESS
      {
        assert ms[..i + 1][..i] == ms[..i];
        end := HandleReceiveMessage(ms[i]);
        i := i + 1;
        if end != Ok {
          StopsForGood(role, hasPlayer, ms, i);
          return false, i;
        }
        if status == PUBLISH_SUCCESS { return true, i; }
      }
      return false, i;
    }
  }
}
