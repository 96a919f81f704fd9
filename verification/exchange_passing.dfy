/** What a source passes on, over whole runs, and what each handler does to the sinks: told in terms of messages, queues
    and lists. */
module ExchangePassing {
  import opened ByteIO
  import AmfIO
  import Amf0
  import Amf3
  import opened Exchange
  import opened ExchangeSafety
  import opened ExchangeLaws

  // ---------------------------------------------------------------- one message

  predicate IsData(m: ExData) { m.kind.DataAmf0? || m.kind.DataAmf3? }

  /** The payload begins with the string "@setDataFrame", in AMF0 or AMF3. */
  predicate Carries(payload: Bytes) {
    var r := Amf0.ReadValue(payload);
    r.Got? && (r.value == Amf0.VStr(SET_DATA_FRAME) || r.value == Amf0.VAmf3(Amf3.VStr(SET_DATA_FRAME)))
  }

  lemma SetDataFrameSpells()
    ensures |SET_DATA_FRAME| == 13 && forall i :: 0 <= i < 13 ==> SET_DATA_FRAME[i] == "@setDataFrame"[i] as int
  {
  }

  /** What is passed on for a message taken: the same, but for data that carries the string, which loses 16 bytes. */
  predicate PassesOn(taken: ExData, passed: ExData) {
    && passed.kind == taken.kind && passed.timestamp == taken.timestamp
    && if IsData(taken) && Carries(taken.payload) then
         |taken.payload| >= 16 && passed.payload == taken.payload[16..]
       else passed.payload == taken.payload
  }

  lemma UnwrapPasses(m: ExData)
    ensures PassesOn(m, Unwrap(m))
  {
    if IsData(m) && Carries(m.payload) { WrappedIsLong(m.payload); }
  }

  /** Wrapped in the short AMF0 form, what follows the string is passed on. */
  lemma WrappedPasses(m: ExData, rest: Bytes, passed: ExData)
    requires IsData(m) && PassesOn(m, passed) && m.payload == Amf0.Encode(Amf0.Str(SET_DATA_FRAME)) + rest
    ensures Amf0.Encode(Amf0.Str(SET_DATA_FRAME)) == [0x02, 0x00, 0x0d] + SET_DATA_FRAME
    ensures passed.payload == rest
  {
    hide Amf0.ReadValue;
    Amf0.RoundTrip(Amf0.Str(SET_DATA_FRAME), rest);
    Seam([0x02, 0x00, 0x0d] + SET_DATA_FRAME, rest);
  }

  /** In the AMF3 form, too. */
  lemma Wrapped3Passes(m: ExData, rest: Bytes, passed: ExData)
    requires IsData(m) && PassesOn(m, passed)
    requires m.payload == [0x11] + (Amf3.Encode(Amf3.Str(SET_DATA_FRAME)) + rest)
    ensures Amf3.Encode(Amf3.Str(SET_DATA_FRAME)) == [0x06, 0x1b] + SET_DATA_FRAME
    ensures passed.payload == rest
  {
    hide Amf3.ReadValue;
    var b := [0x06, 0x1b] + SET_DATA_FRAME;
    assert Amf3.Encode(Amf3.Str(SET_DATA_FRAME)) == b;
    Amf3.RoundTrip(Amf3.Str(SET_DATA_FRAME), rest);
    assert m.payload[1..] == b + rest;
    Seam(b, rest);
    SliceOfDrop(m.payload, 1, 15, 15);
  }

  /** In the long AMF0 form the string takes 18 bytes, and its last two are passed on too. */
  lemma LongFormLeavesTwo(m: ExData, rest: Bytes, passed: ExData)
    requires IsData(m) && PassesOn(m, passed)
    requires m.payload == [0x0c, 0x00, 0x00, 0x00, 0x0d] + SET_DATA_FRAME + rest
    ensures passed.payload == [0x6d, 0x65] + rest
  {
    hide PutU32BE, U32BE;
    var tail := SET_DATA_FRAME + rest;
    assert m.payload[1..] == [0x00, 0x00, 0x00, 0x0d] + tail;
    LongLength(tail);
    Seam(SET_DATA_FRAME, rest);
    assert Carries(m.payload);
    TwoLeft(rest);
  }

  lemma LongLength(tail: Bytes)
    ensures var b := [0x00, 0x00, 0x00, 0x0d] + tail; b[..4] == [0, 0, 0, 13] && b[4..] == tail && U32BE(b[..4]) == 13
  {
  }

  lemma TwoLeft(rest: Bytes)
    ensures ([0x0c, 0x00, 0x00, 0x00, 0x0d] + SET_DATA_FRAME + rest)[16..] == [0x6d, 0x65] + rest
  {
    var b := [0x0c, 0x00, 0x00, 0x00, 0x0d] + SET_DATA_FRAME;
    assert b[16..] == [0x6d, 0x65];
  }

  // ---------------------------------------------------------------- every message of every run

  function HandledOf(st: State, s: SrcId): seq<ExData> { if s in st.sources then st.sources[s].handled else [] }
  function QueueOf(st: State, s: SrcId): seq<SrcMsg> { if s in st.sources then st.sources[s].queue else [] }
  predicate PoisonedOf(st: State, s: SrcId) { s in st.sources && st.sources[s].poisoned }

  /** The messages in a queue. */
  function DataIn(q: seq<SrcMsg>): seq<ExData> {
    if |q| == 0 then [] else (if q[0].DataMsg? then [q[0].data] else []) + DataIn(q[1..])
  }

  /** What a step takes out of a source's queue, or puts into it. */
  function TakenAt(st: State, a: Action, s: SrcId): seq<ExData> {
    if a == Work(s) && s in st.sources && |st.sources[s].queue| > 0 && st.sources[s].queue[0].DataMsg?
    then [st.sources[s].queue[0].data] else []
  }

  function PutAt(a: Action, s: SrcId): seq<ExData> { if a.Put? && a.src == s then [a.data] else [] }

  ghost function TakenBy(st: State, acts: seq<Action>, s: SrcId): seq<ExData>
    requires CanRun(st, acts)
    decreases |acts|
  {
    if |acts| == 0 then [] else TakenAt(st, acts[0], s) + TakenBy(Step(st, acts[0]), acts[1..], s)
  }

  function PutBy(acts: seq<Action>, s: SrcId): seq<ExData> {
    if |acts| == 0 then [] else PutAt(acts[0], s) + PutBy(acts[1..], s)
  }

  /** Metadata that cannot be decoded, other than by running out of bytes at once. */
  predicate Undecodable(m: ExData) { IsData(m) && Amf0.ReadValue(m.payload) == AmfIO.Fail(AmfIO.Bad) }

  /** The messages handled have grown by what is passed on for the messages taken. */
  ghost predicate Grown(before: seq<ExData>, after: seq<ExData>, taken: seq<ExData>) {
    && |after| == |before| + |taken| && after[..|before|] == before
    && forall i :: 0 <= i < |taken| ==> PassesOn(taken[i], after[|before| + i])
  }

  lemma GrownTwice(a: seq<ExData>, b: seq<ExData>, c: seq<ExData>, x: seq<ExData>, y: seq<ExData>)
    requires Grown(a, b, x) && Grown(b, c, y)
    ensures Grown(a, c, x + y)
  {
    hide PassesOn;
    assert c[..|a|] == c[..|b|][..|a|];
    forall i | 0 <= i < |x + y|
      ensures PassesOn((x + y)[i], c[|a| + i])
    {
      if i < |x| {
        assert c[|a| + i] == c[..|b|][|a| + i];
      } else {
        assert PassesOn(y[i - |x|], c[|b| + (i - |x|)]);
      }
    }
  }

  lemma {:induction false} DataInAppend(q: seq<SrcMsg>, m: SrcMsg)
    ensures DataIn(q + [m]) == DataIn(q) + if m.DataMsg? then [m.data] else []
    decreases |q|
  {
    if |q| == 0 {
      assert [m][1..] == [] && [] + [m] == [m] && DataIn([]) == [];
    } else {
      assert (q + [m])[1..] == q[1..] + [m];
      DataInAppend(q[1..], m);
    }
  }

  /** Source s takes no part. */
  predicate Still(st: State, st1: State, s: SrcId) {
    && HandledOf(st1, s) == HandledOf(st, s) && QueueOf(st1, s) == QueueOf(st, s)
    && (PoisonedOf(st1, s) <==> PoisonedOf(st, s))
  }

  /** One step, for any source. */
  lemma StepPasses(st: State, a: Action, s: SrcId)
    requires Inv(st) && Enabled(st, a)
    ensures var st1, taken := Step(st, a), TakenAt(st, a, s);
            && Grown(HandledOf(st, s), HandledOf(st1, s), taken)
            && (PoisonedOf(st1, s) <==> PoisonedOf(st, s) || exists m :: m in taken && Undecodable(m))
            && DataIn(QueueOf(st, s)) + PutAt(a, s) == taken + DataIn(QueueOf(st1, s))
  {
    hide Inv, WorkStep, PairStep, ForwardStep, CancelAll, PassesOn, Undecodable, DataIn;
    StepInv(st, a);
    Calm(Step(st, a));
    if a.Work? && s in st.sources && s == a.src {
      WorkPasses(st, s);
    } else if a.Put? && s == a.src {
      DataInAppend(QueueOf(st, s), DataMsg(a.data));
    } else if a.Forward? && s == st.pairing.src {
      ForwardStepIs(st, a.msg);
      DataInAppend(QueueOf(st, s), a.msg);
    } else {
      StandsStill(st, a, s);
    }
  }

  lemma StandsStill(st: State, a: Action, s: SrcId)
    requires Enabled(st, a) && !(a.Work? && s == a.src) && !(a.Put? && s == a.src)
    requires !(a.Forward? && s == st.pairing.src)
    ensures Still(st, Step(st, a), s)
  {
    hide WorkStep, PairStep, CancelAll;
    if a.Work? { WorkBeside(st, a.src, s); }
    if a.Pair? { PairKeeps(st, s); }
  }

  lemma WorkBeside(st: State, t: SrcId, s: SrcId)
    requires Enabled(st, Work(t)) && s != t
    ensures Still(st, WorkStep(st, t), s)
  {
    hide Note, Unwrap, OfferAll, Keep, Prelude, Poisons;
  }

  lemma PairKeeps(st: State, s: SrcId)
    requires Enabled(st, Pair)
    ensures Still(st, PairStep(st), s)
  {
    match st.pipe[0]
    case RegSource(_) => hide HandleUnregisterSource, HandleRegisterSink, HandleUnregisterSink;
    case UnregSource(_) => hide HandleRegisterSource, HandleRegisterSink, HandleUnregisterSink;
    case _ => hide HandleRegisterSource, HandleUnregisterSource;
  }

  lemma WorkPasses(st: State, s: SrcId)
    requires Enabled(st, Work(s)) && !WorkStep(st, s).panicked
    ensures var st1, taken := WorkStep(st, s), TakenAt(st, Work(s), s);
            && Grown(HandledOf(st, s), HandledOf(st1, s), taken)
            && (PoisonedOf(st1, s) <==> PoisonedOf(st, s) || exists m :: m in taken && Undecodable(m))
            && DataIn(QueueOf(st, s)) == taken + DataIn(QueueOf(st1, s))
  {
    hide PassesOn, WorkStep, Undecodable, Unwrap;
    var m := st.sources[s].queue[0];
    if m.DataMsg? {
      UnwrapPasses(m.data);
      DataDoes(st, s);
      assert m.data in [m.data];
    } else {
      ControlDoes(st, s);
    }
  }

  lemma DataDoes(st: State, s: SrcId)
    requires Enabled(st, Work(s)) && st.sources[s].queue[0].DataMsg?
    ensures var st1, src, m := WorkStep(st, s), st.sources[s], st.sources[s].queue[0].data;
            && HandledOf(st1, s) == src.handled + [Unwrap(m)] && QueueOf(st1, s) == src.queue[1..]
            && (PoisonedOf(st1, s) <==> src.poisoned || Undecodable(m))
  {
    hide Unwrap, OfferAll, Keep, Note;
    NoteAdds(st.sources[s].(queue := st.sources[s].queue[1..]), Unwrap(st.sources[s].queue[0].data));
  }

  lemma ControlDoes(st: State, s: SrcId)
    requires Enabled(st, Work(s)) && !st.sources[s].queue[0].DataMsg? && !WorkStep(st, s).panicked
    ensures var st1, src := WorkStep(st, s), st.sources[s];
            && HandledOf(st1, s) == src.handled && QueueOf(st1, s) == src.queue[1..]
            && (PoisonedOf(st1, s) <==> src.poisoned)
  {
    hide Prelude, Note, Unwrap, OfferAll, Keep, Poisons;
    match st.sources[s].queue[0]
    case RegSink(h) =>
    case UnregSink(h) =>
  }

  lemma NoteAdds(src: Source, m: ExData)
    ensures Note(src, m).handled == src.handled + [m] && Note(src, m).queue == src.queue
    ensures Note(src, m).poisoned == src.poisoned
  {
  }

  lemma {:induction false} RunPassesFrom(st: State, acts: seq<Action>, s: SrcId)
    requires Inv(st) && CanRun(st, acts)
    ensures var st1, taken := Run(st, acts), TakenBy(st, acts, s);
            && Grown(HandledOf(st, s), HandledOf(st1, s), taken)
            && (PoisonedOf(st1, s) <==> PoisonedOf(st, s) || exists m :: m in taken && Undecodable(m))
            && DataIn(QueueOf(st, s)) + PutBy(acts, s) == taken + DataIn(QueueOf(st1, s))
    decreases |acts|
  {
    hide Inv, Step, Enabled, PassesOn, Undecodable, DataIn, TakenAt, PutAt, HandledOf, QueueOf, PoisonedOf;
    if |acts| > 0 {
      var a, st1 := acts[0], Step(st, acts[0]);
      StepPasses(st, a, s);
      StepInv(st, a);
      RunPassesFrom(st1, acts[1..], s);
      var st2, rest := Run(st1, acts[1..]), TakenBy(st1, acts[1..], s);
      GrownTwice(HandledOf(st, s), HandledOf(st1, s), HandledOf(st2, s), TakenAt(st, a, s), rest);
      Shuffle(DataIn(QueueOf(st, s)), PutAt(a, s), PutBy(acts[1..], s), TakenAt(st, a, s), DataIn(QueueOf(st1, s)),
              rest, DataIn(QueueOf(st2, s)));
    }
  }

  lemma Shuffle(q: seq<ExData>, p: seq<ExData>, ps: seq<ExData>, t: seq<ExData>, q1: seq<ExData>, ts: seq<ExData>,
                q2: seq<ExData>)
    requires q + p == t + q1 && q1 + ps == ts + q2
    ensures q + (p + ps) == (t + ts) + q2
  {
    assert q + (p + ps) == (q + p) + ps;
    assert (t + q1) + ps == t + (q1 + ps);
    assert t + (ts + q2) == (t + ts) + q2;
  }

  /** Every run: a source has handled exactly the messages it took from its queue, each as PassesOn says; it took the
      messages put there, in order, and the others are still queued; and it is poisoned exactly when one of those taken
      was undecodable metadata. */
  lemma RunPasses(acts: seq<Action>, s: SrcId)
    requires CanRun(INIT, acts) && s in Run(INIT, acts).sources
    ensures var src, taken := Run(INIT, acts).sources[s], TakenBy(INIT, acts, s);
            && |src.handled| == |taken| && (forall i :: 0 <= i < |taken| ==> PassesOn(taken[i], src.handled[i]))
            && PutBy(acts, s) == taken + DataIn(src.queue)
            && (src.poisoned <==> exists m :: m in taken && Undecodable(m))
  {
    InitInv();
    hide Inv, PassesOn, Undecodable, PutBy, TakenBy, Run, CanRun;
    RunPassesFrom(INIT, acts, s);
    assert DataIn([]) == [] && [] + PutBy(acts, s) == PutBy(acts, s);
    hide DataIn;
  }

  // ---------------------------------------------------------------- requests, first come first served

  /** Requests join the pipe at its end, and the pairing goroutine takes the first. */
  lemma PipeInOrder(st: State, a: Action)
    requires Inv(st) && Enabled(st, a)
    ensures Step(st, a).pipe == match a
                                case AskSource(s, _) => st.pipe + [RegSource(s)]
                                case AskSink(h, _) => st.pipe + [RegSinkP(h)]
                                case DropSource(s) => st.pipe + [UnregSource(s)]
                                case DropSink(h) => st.pipe + [UnregSinkP(h)]
                                case Pair => st.pipe[1..]
                                case _ => st.pipe
  {
    hide WorkStep, PairStep, CancelAll, Inv;
    if a.Work? { WorkPipe(st, a.src); }
    if a.Pair? { PairPipe(st); }
  }

  lemma WorkPipe(st: State, s: SrcId)
    requires Enabled(st, Work(s))
    ensures WorkStep(st, s).pipe == st.pipe
  {
    hide Note, Unwrap, OfferAll, Keep, Prelude, Poisons;
  }

  lemma PairPipe(st: State)
    requires Enabled(st, Pair)
    ensures PairStep(st).pipe == st.pipe[1..]
  {
  }

  // ---------------------------------------------------------------- what the pairing goroutine does with each request

  /** Only this key's waiting list changes, and to this: no list when it is empty. */
  ghost predicate ListBecomes(st: State, st1: State, key: Key, list: set<SinkId>) {
    && (forall k :: k != key ==> (k in st1.waiting <==> k in st.waiting))
    && (forall k :: k != key && k in st.waiting ==> st1.waiting[k] == st.waiting[k])
    && (key in st1.waiting <==> list != {}) && (key in st1.waiting ==> st1.waiting[key] == list)
  }

  function WaitingFor(st: State, key: Key): set<SinkId> { if key in st.waiting then st.waiting[key] else {} }

  /** A source is accepted exactly when its key is free; then the key is its own, its goroutine runs, and it is to be
      sent the registration of every sink waiting for it. */
  lemma SourceRegistered(st: State, s: SrcId)
    requires Inv(st) && Taking(st, RegSource(s))
    ensures s in st.sources && s in PairStep(st).sources
    ensures var st1, key := PairStep(st), st.sources[s].key;
            if key in st.receivers then
              && st1.sources[s].phase.Rejected? && st1.receivers == st.receivers && st1.waiting == st.waiting
              && st1.pairing.Idle? && st1.sources[s].running == st.sources[s].running
            else
              && st1.sources[s].phase.Accepted? && st1.sources[s].running && st1.receivers == st.receivers[key := s]
              && ListBecomes(st, st1, key, {})
              && (st1.pairing.Idle? <==> WaitingFor(st, key) == {})
              && (st1.pairing.Sending? ==>
                    && st1.pairing.src == s
                    && forall m :: m in st1.pairing.todo <==> m.RegSink? && m.sink in WaitingFor(st, key))
  {
    hide PairingOk, SourcesOk, SinksOk, ReceiversOk;
    assert PipeMsgOk(st, st.pipe[0]);
  }

  /** A source that leaves frees its key, and nothing else. */
  lemma SourceUnregistered(st: State, s: SrcId)
    requires Inv(st) && Taking(st, UnregSource(s))
    ensures s in st.sources && s in PairStep(st).sources
    ensures var st1, key := PairStep(st), st.sources[s].key;
            && !st1.panicked && st1.sources[s].phase.Departed?
            && key !in st1.receivers && st1.receivers == st.receivers - {key}
            && st1.waiting == st.waiting && st1.sinks == st.sinks && st1.pairing.Idle?
  {
    hide WaitOk, PairingOk, QueueOk, MapOk, LastOf, SinksOk;
    assert PipeMsgOk(st, st.pipe[0]) && SourceOk(st, s);
  }

  /** A sink is sent on to the source that has its key, or waits. */
  lemma SinkRegistered(st: State, h: SinkId)
    requires Inv(st) && Taking(st, RegSinkP(h))
    ensures h in st.sinks && h in PairStep(st).sinks
    ensures var st1, key := PairStep(st), st.sinks[h].key;
            && !st1.panicked && st1.receivers == st.receivers && st1.sources == st.sources
            && if key in st.receivers then
                 st1.pairing == Sending(st.receivers[key], {RegSink(h)}) && st1.waiting == st.waiting
               else
                 st1.pairing.Idle? && ListBecomes(st, st1, key, WaitingFor(st, key) + {h})
  {
    hide PairingOk, SourcesOk, SinksOk, ReceiversOk;
    assert PipeMsgOk(st, st.pipe[0]);
  }

  /** A sink that leaves is told off at the source that has its key, or taken off the waiting list. */
  lemma SinkUnregistered(st: State, h: SinkId)
    requires Inv(st) && Taking(st, UnregSinkP(h))
    ensures h in st.sinks
    ensures var st1, key := PairStep(st), st.sinks[h].key;
            && st1.receivers == st.receivers && st1.sources == st.sources
            && if key in st.receivers then
                 st1.pairing == Sending(st.receivers[key], {UnregSink(h)}) && st1.waiting == st.waiting
               else
                 st1.pairing.Idle? && ListBecomes(st, st1, key, WaitingFor(st, key) - {h})
  {
    hide PairingOk, SourcesOk, SinksOk, ReceiversOk;
    assert PipeMsgOk(st, st.pipe[0]);
  }

  // ---------------------------------------------------------------- what a source does with each message

  /** No sink but these is touched. */
  predicate OthersKept(st: State, st1: State, hs: set<SinkId>) {
    st1.sinks.Keys == st.sinks.Keys && forall h :: h in st.sinks && h !in hs ==> st1.sinks[h] == st.sinks[h]
  }

  /** Connecting: the sink joins, and is given the video configuration and then the audio configuration, if known. */
  lemma SinkConnected(st: State, s: SrcId, h: SinkId)
    requires Inv(st) && Enabled(st, Work(s)) && st.sources[s].queue[0] == RegSink(h)
    ensures h in st.sinks && h in WorkStep(st, s).sinks && s in WorkStep(st, s).sources
    ensures var st1, src := WorkStep(st, s), st.sources[s];
            && h !in src.sinks && st1.sources[s].sinks == src.sinks[h := |src.handled|]
            && st1.sinks[h].cancelled == st.sinks[h].cancelled && OthersKept(st, st1, {h})
            && st1.sinks[h].log == match (src.video, src.audio)
                                   case (None, None) => []
                                   case (Some(v), None) => [Config(Video, v)]
                                   case (None, Some(a)) => [Config(Audio, a)]
                                   case (Some(v), Some(a)) => [Config(Video, v), Config(Audio, a)]
  {
    hide WaitOk, PairingOk, LastOf, ReceiversOk, PipeOk, Expected, Ordered;
    assert SourceOk(st, s) && SrcMsgOk(st, s, st.sources[s].queue[0], AtQueue(s)) && SinkOk(st, h);
  }

  /** Disconnecting: a connected sink is cancelled and removed; one that is not is left alone. */
  lemma SinkDisconnected(st: State, s: SrcId, h: SinkId)
    requires Inv(st) && Enabled(st, Work(s)) && st.sources[s].queue[0] == UnregSink(h)
    ensures h in st.sinks && h in WorkStep(st, s).sinks && s in WorkStep(st, s).sources
    ensures var st1, src := WorkStep(st, s), st.sources[s];
            && st1.sources[s].sinks == src.sinks - {h} && OthersKept(st, st1, {h})
            && st1.sinks[h].log == st.sinks[h].log
            && if h in src.sinks then st1.sinks[h].cancelled else st1.sinks[h] == st.sinks[h]
  {
    hide Inv, WorkStep;
    Queued1(st, s);
    DisconnectDoes(st, s, h);
  }

  lemma Queued1(st: State, s: SrcId)
    requires Inv(st) && s in st.sources && |st.sources[s].queue| > 0
    ensures SrcMsgOk(st, s, st.sources[s].queue[0], AtQueue(s))
    ensures forall h :: h in st.sources[s].sinks ==> h in st.sinks
  {
    hide WaitOk, PairingOk, LastOf, ReceiversOk, PipeOk, Expected, Ordered, SinksOk, SrcMsgOk;
    assert SourceOk(st, s);
    forall h | h in st.sources[s].sinks ensures h in st.sinks { assert SinkIs(st, h, AtMap(s)); }
  }

  lemma DisconnectDoes(st: State, s: SrcId, h: SinkId)
    requires Enabled(st, Work(s)) && st.sources[s].queue[0] == UnregSink(h) && h in st.sinks
    ensures h in WorkStep(st, s).sinks && s in WorkStep(st, s).sources
    ensures var st1, src := WorkStep(st, s), st.sources[s];
            && st1.sources[s].sinks == src.sinks - {h} && OthersKept(st, st1, {h})
            && st1.sinks[h].log == st.sinks[h].log
            && if h in src.sinks then st1.sinks[h].cancelled else st1.sinks[h] == st.sinks[h]
  {
  }

  /** A message: each connected sink with room gets what is passed on, once; each without is cancelled and removed. */
  lemma MessageOffered(st: State, s: SrcId, taken: ExData)
    requires Inv(st) && Enabled(st, Work(s)) && st.sources[s].queue[0] == DataMsg(taken)
    ensures s in WorkStep(st, s).sources
    ensures var st1, src := WorkStep(st, s), st.sources[s];
            && OthersKept(st, st1, src.sinks.Keys)
            && |st1.sources[s].handled| == |src.handled| + 1 && PassesOn(taken, st1.sources[s].handled[|src.handled|])
            && (forall h :: h in src.sinks ==> h in st.sinks && h in st1.sinks)
            && (forall h :: h in src.sinks ==>
                  var k, room := st.sinks[h], |st.sinks[h].log| - st.sinks[h].consumed < 50;
                  && (h in st1.sources[s].sinks <==> room)
                  && st1.sinks[h].log == (if room then k.log + [Live(st1.sources[s].handled[|src.handled|])] else k.log)
                  && st1.sinks[h].cancelled == (k.cancelled || !room))
  {
    hide WaitOk, PairingOk, LastOf, ReceiversOk, PipeOk, Expected, Ordered, PassesOn, Unwrap, Note, Poisons;
    UnwrapPasses(taken);
    NoteAdds(st.sources[s].(queue := st.sources[s].queue[1..]), Unwrap(taken));
    assert SourceOk(st, s);
    forall h | h in st.sources[s].sinks ensures h in st.sinks { assert SinkIs(st, h, AtMap(s)); }
  }

  /** Quitting: every connected sink is cancelled. */
  lemma SourceQuits(st: State, s: SrcId)
    requires Enabled(st, Quit(s))
    ensures s in Step(st, Quit(s)).sources
    ensures var st1, src := Step(st, Quit(s)), st.sources[s];
            && !st1.sources[s].running && st1.sources[s].queue == src.queue && st1.sources[s].sinks == src.sinks
            && OthersKept(st, st1, src.sinks.Keys)
            && forall h :: h in src.sinks && h in st.sinks ==> st1.sinks[h] == st.sinks[h].(cancelled := true)
  {
  }
}
