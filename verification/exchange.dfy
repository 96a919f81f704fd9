/** The source/sink exchange (exchange/expair.go) as a transition system: the pairing goroutine, one goroutine
    per source, one per sink, and the channels between them. */
module Exchange {
  import opened ByteIO
  import AmfIO
  import Amf0
  import Amf3

  type Key = string
  type SrcId = nat
  type SinkId = nat

  const SOURCE_CAP := 100
  const PIPE_CAP := 100
  const SINK_CAP := 50

  // ---------------------------------------------------------------- data

  datatype Kind = Audio | AudioConfig | Video | VideoNonKey | VideoKey | VideoConfig | Data | DataAmf0 | DataAmf3
  datatype ExData = ExData(kind: Kind, timestamp: U64, payload: Bytes)

  /** "@setDataFrame" */
  const SET_DATA_FRAME: Bytes := [0x40, 0x73, 0x65, 0x74, 0x44, 0x61, 0x74, 0x61, 0x46, 0x72, 0x61, 0x6d, 0x65]

  predicate IsWrapped(payload: Bytes) {
    var r := Amf0.ReadValue(payload);
    r.Got? && (r.value == Amf0.VStr(SET_DATA_FRAME) || r.value == Amf0.VAmf3(Amf3.VStr(SET_DATA_FRAME)))
  }

  /** The 16 bytes a wrapped payload loses are there. */
  lemma WrappedIsLong(payload: Bytes)
    requires IsWrapped(payload)
    ensures |payload| >= 16
  {
    var s := SET_DATA_FRAME;
    assert |s| == 13 && s[12] != 0;
    var body := payload[1..];
    if payload[0] == 0x02 {
      assert Amf0.GetName(body).value == s;
    } else if payload[0] == 0x11 {
      Amf3.StringRead(body);
    } else {
      assert Amf0.GetLong(body).value == s;
    }
  }

  /** handleDataMessage: metadata loses its "@setDataFrame" wrapping. */
  function Unwrap(m: ExData): ExData {
    if (m.kind.DataAmf0? || m.kind.DataAmf3?) && IsWrapped(m.payload) then
      WrappedIsLong(m.payload);
      m.(payload := m.payload[16..])
    else m
  }

  /** Undecodable metadata, other than a bare end of input, poisons the source. */
  predicate Poisons(m: ExData) {
    (m.kind.DataAmf0? || m.kind.DataAmf3?) && Amf0.ReadValue(m.payload) == AmfIO.Fail(AmfIO.Bad)
  }

  /** What a sink's channel is given: a decoder configuration when it joins, or a message as it passes. */
  datatype Entry = Config(kind: Kind, payload: Bytes) | Live(message: ExData)

  // ---------------------------------------------------------------- state

  /** Where a sink's registration is. */
  datatype Where = AtPipe | AtWaiting | AtSending | AtQueue(src: SrcId) | AtMap(src: SrcId) | Gone

  datatype SinkPhase = Asked | Registered | Leaving

  /** `log` is everything ever put in the sink's channel; the sink's goroutine has taken `consumed` of it. */
  datatype Sink = Sink(key: Key, phase: SinkPhase, at: Where, log: seq<Entry>, consumed: nat, cancelled: bool)

  datatype SrcPhase = Requested | Accepted | Rejected | Departing | Departed

  datatype SrcMsg = RegSink(sink: SinkId) | UnregSink(sink: SinkId) | DataMsg(data: ExData)

  /** `handled` is everything the source has passed on; `sinks` says since when each sink is connected. */
  datatype Source = Source(
    key: Key, phase: SrcPhase, running: bool, poisoned: bool, queue: seq<SrcMsg>, sinks: map<SinkId, nat>,
    video: Option<Bytes>, audio: Option<Bytes>, handled: seq<ExData>)

  datatype PipeMsg = RegSource(src: SrcId) | UnregSource(src: SrcId) | RegSinkP(sink: SinkId) | UnregSinkP(sink: SinkId)

  /** The pairing goroutine is between messages, or has messages to put in a source's channel. */
  datatype Pairing = Idle | Sending(src: SrcId, todo: set<SrcMsg>)

  datatype State = State(
    pipe: seq<PipeMsg>, pairing: Pairing, receivers: map<Key, SrcId>, waiting: map<Key, set<SinkId>>,
    sources: map<SrcId, Source>, sinks: map<SinkId, Sink>, panicked: bool)

  const INIT := State([], Idle, map[], map[], map[], map[], false)

  // ---------------------------------------------------------------- a source handling one message

  function Prelude(video: Option<Bytes>, audio: Option<Bytes>): seq<Entry> {
    (if video.Some? then [Config(Video, video.value)] else []) +
    (if audio.Some? then [Config(Audio, audio.value)] else [])
  }

  predicate HasRoom(k: Sink) { |k.log| - k.consumed < SINK_CAP }

  /** A non-blocking put; a sink with a full channel is cancelled and dropped. */
  function Offer(k: Sink, m: ExData): Sink {
    if HasRoom(k) then k.(log := k.log + [Live(m)]) else k.(cancelled := true, at := Gone)
  }

  function Note(s: Source, m: ExData): Source {
    var s1 := s.(handled := s.handled + [m]);
    match m.kind
    case AudioConfig => s1.(audio := Some(m.payload))
    case VideoConfig => s1.(video := Some(m.payload))
    case _ => s1
  }

  /** writeData over all connected sinks. */
  function OfferAll(sinks: map<SinkId, Sink>, joined: map<SinkId, nat>, m: ExData): map<SinkId, Sink> {
    map h | h in sinks :: if h in joined then Offer(sinks[h], m) else sinks[h]
  }

  function Keep(sinks: map<SinkId, Sink>, joined: map<SinkId, nat>): map<SinkId, nat> {
    map h | h in joined && h in sinks && HasRoom(sinks[h]) :: joined[h]
  }

  function CancelAll(sinks: map<SinkId, Sink>, joined: map<SinkId, nat>): map<SinkId, Sink> {
    map h | h in sinks :: if h in joined then sinks[h].(cancelled := true) else sinks[h]
  }

  // ---------------------------------------------------------------- actions

  datatype Action =
    | AskSource(src: SrcId, key: Key) | AskSink(sink: SinkId, key: Key)
    | DropSource(src: SrcId) | DropSink(sink: SinkId)
    | Pair | Forward(msg: SrcMsg) | Work(src: SrcId) | Put(src: SrcId, data: ExData)
    | Consume(sink: SinkId) | Quit(src: SrcId)

  /** What can happen next. A handler registers once; only an accepted source and a sink whose registration
      has returned are dropped; a blocking channel operation waits for room. */
  predicate Enabled(st: State, a: Action) {
    !st.panicked &&
    match a
    case AskSource(s, _) => s !in st.sources && |st.pipe| < PIPE_CAP
    case AskSink(h, _) => h !in st.sinks && |st.pipe| < PIPE_CAP
    case DropSource(s) => s in st.sources && st.sources[s].phase.Accepted? && |st.pipe| < PIPE_CAP
    case DropSink(h) => h in st.sinks && st.sinks[h].phase.Registered? && |st.pipe| < PIPE_CAP
    case Pair => st.pairing.Idle? && |st.pipe| > 0
    case Forward(m) =>
      st.pairing.Sending? && m in st.pairing.todo && st.pairing.src in st.sources
      && |st.sources[st.pairing.src].queue| < SOURCE_CAP
    case Work(s) => s in st.sources && st.sources[s].running && |st.sources[s].queue| > 0
    case Put(s, _) =>
      s in st.sources && !st.sources[s].phase.Requested? && !st.sources[s].poisoned
      && |st.sources[s].queue| < SOURCE_CAP
    case Consume(h) => h in st.sinks && st.sinks[h].consumed < |st.sinks[h].log|
    case Quit(s) => s in st.sources && st.sources[s].running
  }

  function SetSource(st: State, s: SrcId, v: Source): State { st.(sources := st.sources[s := v]) }
  function SetSink(st: State, h: SinkId, k: Sink): State { st.(sinks := st.sinks[h := k]) }

  function Panic(st: State): State { st.(panicked := true) }

  function HandleRegisterSource(st: State, s: SrcId): State
    requires s in st.sources
  {
    var src := st.sources[s];
    if src.key in st.receivers then SetSource(st, s, src.(phase := Rejected))
    else
      var st1 := SetSource(st, s, src.(phase := Accepted, running := true)).(receivers := st.receivers[src.key := s]);
      if src.key in st.waiting then
        var hs := st.waiting[src.key];
        st1.(waiting := st.waiting - {src.key},
             pairing := if hs == {} then Idle else Sending(s, set h | h in hs :: RegSink(h)),
             sinks := map h | h in st.sinks :: if h in hs then st.sinks[h].(at := AtSending) else st.sinks[h])
      else st1
  }

  function HandleUnregisterSource(st: State, s: SrcId): State
    requires s in st.sources
  {
    var src := st.sources[s];
    if src.key in st.receivers then
      SetSource(st, s, src.(phase := Departed)).(receivers := st.receivers - {src.key})
    else Panic(st)
  }

  function HandleRegisterSink(st: State, h: SinkId): State
    requires h in st.sinks
  {
    var k := st.sinks[h];
    if k.key in st.receivers then
      SetSink(st, h, k.(phase := Registered, at := AtSending)).(pairing := Sending(st.receivers[k.key], {RegSink(h)}))
    else if k.key in st.waiting && h in st.waiting[k.key] then Panic(st)
    else
      var list := if k.key in st.waiting then st.waiting[k.key] else {};
      SetSink(st, h, k.(phase := Registered, at := AtWaiting)).(waiting := st.waiting[k.key := list + {h}])
  }

  function HandleUnregisterSink(st: State, h: SinkId): State
    requires h in st.sinks
  {
    var k := st.sinks[h];
    if k.key in st.receivers then st.(pairing := Sending(st.receivers[k.key], {UnregSink(h)}))
    else if k.key in st.waiting then
      var list := st.waiting[k.key] - {h};
      SetSink(st, h, if k.at.AtWaiting? then k.(at := Gone) else k)
        .(waiting := if list == {} then st.waiting - {k.key} else st.waiting[k.key := list])
    else st
  }

  function PairStep(st: State): State
    requires |st.pipe| > 0
  {
    var st1 := st.(pipe := st.pipe[1..]);
    match st.pipe[0]
    case RegSource(s) => if s in st.sources then HandleRegisterSource(st1, s) else st1
    case UnregSource(s) => if s in st.sources then HandleUnregisterSource(st1, s) else st1
    case RegSinkP(h) => if h in st.sinks then HandleRegisterSink(st1, h) else st1
    case UnregSinkP(h) => if h in st.sinks then HandleUnregisterSink(st1, h) else st1
  }

  function ForwardStep(st: State, m: SrcMsg): State
    requires Enabled(st, Forward(m))
  {
    var s := st.pairing.src;
    var todo := st.pairing.todo - {m};
    var src := st.sources[s];
    var next := if todo == {} then Idle else Sending(s, todo);
    var st1 := SetSource(st, s, src.(queue := src.queue + [m])).(pairing := next);
    if m.RegSink? && m.sink in st.sinks then SetSink(st1, m.sink, st.sinks[m.sink].(at := AtQueue(s))) else st1
  }

  function WorkStep(st: State, s: SrcId): State
    requires Enabled(st, Work(s))
  {
    var src := st.sources[s];
    var src1 := src.(queue := src.queue[1..]);
    match src.queue[0]
    case RegSink(h) =>
      if h in src.sinks then Panic(st)
      else if h !in st.sinks then SetSource(st, s, src1)
      else
        var k := st.sinks[h];
        SetSink(SetSource(st, s, src1.(sinks := src.sinks[h := |src.handled|])), h,
                k.(at := AtMap(s), log := k.log + Prelude(src.video, src.audio)))
    case UnregSink(h) =>
      if h in src.sinks && h in st.sinks then
        SetSink(SetSource(st, s, src1.(sinks := src.sinks - {h})), h, st.sinks[h].(at := Gone, cancelled := true))
      else SetSource(st, s, src1)
    case DataMsg(m) =>
      var src2 := Note(src1, Unwrap(m)).(sinks := Keep(st.sinks, src.sinks), poisoned := src.poisoned || Poisons(m));
      SetSource(st, s, src2).(sinks := OfferAll(st.sinks, src.sinks, Unwrap(m)))
  }

  function Step(st: State, a: Action): State
    requires Enabled(st, a)
  {
    match a
    case AskSource(s, key) =>
      SetSource(st, s, Source(key, Requested, false, false, [], map[], None, None, []))
        .(pipe := st.pipe + [RegSource(s)])
    case AskSink(h, key) =>
      SetSink(st, h, Sink(key, Asked, AtPipe, [], 0, false)).(pipe := st.pipe + [RegSinkP(h)])
    case DropSource(s) =>
      SetSource(st, s, st.sources[s].(phase := Departing)).(pipe := st.pipe + [UnregSource(s)])
    case DropSink(h) =>
      SetSink(st, h, st.sinks[h].(phase := Leaving)).(pipe := st.pipe + [UnregSinkP(h)])
    case Pair => PairStep(st)
    case Forward(m) => ForwardStep(st, m)
    case Work(s) => WorkStep(st, s)
    case Put(s, m) =>
      var src := st.sources[s];
      SetSource(st, s, src.(queue := src.queue + [DataMsg(m)]))
    case Consume(h) =>
      var k := st.sinks[h];
      SetSink(st, h, k.(consumed := k.consumed + 1))
    case Quit(s) =>
      SetSource(st, s, st.sources[s].(running := false)).(sinks := CancelAll(st.sinks, st.sources[s].sinks))
  }

  ghost predicate CanRun(st: State, acts: seq<Action>)
    decreases |acts|
  {
    |acts| == 0 || (Enabled(st, acts[0]) && CanRun(Step(st, acts[0]), acts[1..]))
  }

  ghost function Run(st: State, acts: seq<Action>): State
    requires CanRun(st, acts)
    decreases |acts|
  {
    if |acts| == 0 then st else Run(Step(st, acts[0]), acts[1..])
  }
}
