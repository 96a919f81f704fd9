/** The exchange's promises, over every run from the start. */
module ExchangeLaws {
  import opened ByteIO
  import opened Exchange
  import opened ExchangeSafety

  /** No panic: no sink waits or connects twice, no unregistered source is removed. */
  lemma NeverPanics(acts: seq<Action>)
    requires CanRun(INIT, acts)
    ensures !Run(INIT, acts).panicked
  {
    InitInv();
    RunInv(INIT, acts);
  }

  /** Gap-free fan-out: a connected sink's channel was given the configurations known when it joined, then every
      message the source has passed on since, in order; its goroutine has delivered a prefix of that. */
  lemma GapFree(acts: seq<Action>, s: SrcId, h: SinkId)
    requires CanRun(INIT, acts)
    requires var st := Run(INIT, acts); s in st.sources && h in st.sources[s].sinks
    ensures var st := Run(INIT, acts);
            var src := st.sources[s];
            && h in st.sinks && src.sinks[h] <= |src.handled|
            && st.sinks[h].log == Expected(src.handled, src.sinks[h])
            && st.sinks[h].consumed <= |st.sinks[h].log|
  {
    hide Expected;
    InitInv();
    RunInv(INIT, acts);
    var st := Run(INIT, acts);
    assert SourceOk(st, s) && SinkOk(st, h);
  }

  // ---------------------------------------------------------------- decoder configurations

  predicate IsConfig(e: Entry, whole: Kind, config: Kind) {
    match e
    case Config(k, _) => k == whole
    case Live(m) => m.kind == config
  }

  /** The last configuration in a sink's log. */
  function LastConfig(log: seq<Entry>, whole: Kind, config: Kind): Option<Bytes> {
    if |log| == 0 then None
    else
      var e := log[|log| - 1];
      if IsConfig(e, whole, config) then Some(if e.Config? then e.payload else e.message.payload)
      else LastConfig(log[..|log| - 1], whole, config)
  }

  lemma {:induction false} ConfigOfExpected(handled: seq<ExData>, joined: nat, whole: Kind, config: Kind)
    requires joined <= |handled|
    requires (whole == Video && config == VideoConfig) || (whole == Audio && config == AudioConfig)
    ensures LastConfig(Expected(handled, joined), whole, config) == LastOf(handled, config)
    decreases |handled| - joined
  {
    var n := |handled|;
    if joined == n {
      PreludeNow(handled);
      var v, a := LastOf(handled, VideoConfig), LastOf(handled, AudioConfig);
      var p := Prelude(v, a);
      if a.Some? && v.Some? { assert p[..1] == [Config(Video, v.value)]; assert p[..1][..0] == []; }
      else if |p| == 1 { assert p[..0] == []; }
    } else {
      var init := handled[..n - 1];
      assert handled == init + [handled[n - 1]];
      ExpectedGrows(init, joined, handled[n - 1]);
      var log := Expected(handled, joined);
      assert log[..|log| - 1] == Expected(init, joined);
      ConfigOfExpected(init, joined, whole, config);
    }
  }

  /** Freshness: whether it joined before or after, the last configuration a connected sink was given is the source's
      current one. */
  lemma ConfigIsFresh(acts: seq<Action>, s: SrcId, h: SinkId)
    requires CanRun(INIT, acts)
    requires var st := Run(INIT, acts); s in st.sources && h in st.sources[s].sinks
    ensures var st := Run(INIT, acts);
            && h in st.sinks
            && LastConfig(st.sinks[h].log, Video, VideoConfig) == st.sources[s].video
            && LastConfig(st.sinks[h].log, Audio, AudioConfig) == st.sources[s].audio
  {
    hide Expected, LastConfig, LastOf;
    GapFree(acts, s, h);
    InitInv();
    RunInv(INIT, acts);
    var src := Run(INIT, acts).sources[s];
    assert SourceOk(Run(INIT, acts), s);
    ConfigOfExpected(src.handled, src.sinks[h], Video, VideoConfig);
    ConfigOfExpected(src.handled, src.sinks[h], Audio, AudioConfig);
  }

  // ---------------------------------------------------------------- one place at a time

  datatype Place = InPipe(i: nat) | InWaiting(key: Key) | InHand | InQueue(src: SrcId, i: nat) | InMap(src: SrcId)

  /** Where the data structures themselves hold sink h's registration. */
  predicate Sits(st: State, h: SinkId, p: Place) {
    match p
    case InPipe(i) => i < |st.pipe| && st.pipe[i] == RegSinkP(h)
    case InWaiting(k) => k in st.waiting && h in st.waiting[k]
    case InHand => st.pairing.Sending? && RegSink(h) in st.pairing.todo
    case InQueue(s, i) => s in st.sources && i < |st.sources[s].queue| && st.sources[s].queue[i] == RegSink(h)
    case InMap(s) => s in st.sources && h in st.sources[s].sinks
  }

  function WhereOf(p: Place): Where {
    match p
    case InPipe(_) => AtPipe
    case InWaiting(_) => AtWaiting
    case InHand => AtSending
    case InQueue(s, _) => AtQueue(s)
    case InMap(s) => AtMap(s)
  }

  lemma SitsWhere(st: State, h: SinkId, p: Place)
    requires Inv(st) && Sits(st, h, p)
    ensures h in st.sinks && st.sinks[h].at == WhereOf(p) && (p.InWaiting? ==> p.key == st.sinks[h].key)
  {
    match p
    case InPipe(i) => assert PipeMsgOk(st, st.pipe[i]);
    case InWaiting(_) =>
    case InHand => assert SrcMsgOk(st, st.pairing.src, RegSink(h), AtSending);
    case InQueue(s, i) => assert SourceOk(st, s) && SrcMsgOk(st, s, st.sources[s].queue[i], AtQueue(s));
    case InMap(s) => assert SourceOk(st, s);
  }

  /** Conservation: in every run each registration sits in at most one place, counting positions in queues. */
  lemma OnePlace(acts: seq<Action>, h: SinkId, p: Place, q: Place)
    requires CanRun(INIT, acts)
    requires Sits(Run(INIT, acts), h, p) && Sits(Run(INIT, acts), h, q)
    ensures p == q
  {
    InitInv();
    RunInv(INIT, acts);
    var st := Run(INIT, acts);
    SitsWhere(st, h, p);
    SitsWhere(st, h, q);
    if p.InQueue? { assert SourceOk(st, p.src); }
  }

  /** ... and until it is gone for good, in exactly one. */
  lemma SomePlace(acts: seq<Action>, h: SinkId) returns (p: Place)
    requires CanRun(INIT, acts)
    requires h in Run(INIT, acts).sinks && !Run(INIT, acts).sinks[h].at.Gone?
    ensures Sits(Run(INIT, acts), h, p)
  {
    InitInv();
    RunInv(INIT, acts);
    var st := Run(INIT, acts);
    assert SinkOk(st, h);
    match st.sinks[h].at
    case AtPipe => var i :| 0 <= i < |st.pipe| && st.pipe[i] == RegSinkP(h); p := InPipe(i);
    case AtWaiting => p := InWaiting(st.sinks[h].key);
    case AtSending => p := InHand;
    case AtQueue(s) =>
      var q := st.sources[s].queue;
      var i :| 0 <= i < |q| && q[i] == RegSink(h);
      p := InQueue(s, i);
    case AtMap(s) => p := InMap(s);
  }

  /** A key is registered or waited for, never both; a waiting list is non-empty and holds its own key's sinks; a
      registered key belongs to a source with that key. */
  lemma RegistryExclusive(acts: seq<Action>)
    requires CanRun(INIT, acts)
    ensures var st := Run(INIT, acts);
            && (forall k :: k in st.waiting ==> k !in st.receivers && st.waiting[k] != {})
            && (forall k, h :: k in st.waiting && h in st.waiting[k] ==> h in st.sinks && st.sinks[h].key == k)
            && (forall k :: k in st.receivers ==> st.receivers[k] in st.sources && st.sources[st.receivers[k]].key == k)
  {
    InitInv();
    RunInv(INIT, acts);
  }

  /** In a source's queue an unregister never precedes the register it undoes. */
  lemma UnregisterComesAfter(acts: seq<Action>, s: SrcId, h: SinkId, i: nat, j: nat)
    requires CanRun(INIT, acts) && s in Run(INIT, acts).sources
    requires var q := Run(INIT, acts).sources[s].queue;
             i < |q| && j < |q| && q[i] == RegSink(h) && q[j] == UnregSink(h)
    ensures i < j
  {
    InitInv();
    RunInv(INIT, acts);
    assert SourceOk(Run(INIT, acts), s);
  }

  /** While the source a sink was sent to stays registered, the sink's unregistration goes to that same source. */
  lemma UnregisterFollows(st: State, h: SinkId, s: SrcId)
    requires Inv(st) && Taking(st, UnregSinkP(h)) && h in st.sinks
    requires (st.sinks[h].at == AtQueue(s) || st.sinks[h].at == AtMap(s)) && s in st.sources
    requires st.sources[s].key in st.receivers && st.receivers[st.sources[s].key] == s
    ensures PairStep(st).pairing == Sending(s, {UnregSink(h)})
  {
    hide PairStep;
    UnregisterSinkIs(st, h);
    assert SinkOk(st, h) && SourceOk(st, s);
    if st.sinks[h].at == AtQueue(s) {
      var i :| 0 <= i < |st.sources[s].queue| && st.sources[s].queue[i] == RegSink(h);
      assert SrcMsgOk(st, s, st.sources[s].queue[i], AtQueue(s));
    }
  }

  // ---------------------------------------------------------------- registrations only move forward

  predicate Forwards(st: State, a: Where, b: Where) {
    a == b ||
    match a
    case AtPipe => b.AtWaiting? || b.AtSending?
    case AtWaiting => b.AtSending? || b.Gone?
    case AtSending => st.pairing.Sending? && b == AtQueue(st.pairing.src)
    case AtQueue(s) => b == AtMap(s)
    case AtMap(_) => b.Gone?
    case Gone => false
  }

  /** One step of a sink's life. Once dropped it stays dropped, and gets nothing more. */
  lemma LifeStep(st: State, a: Action, h: SinkId)
    requires Inv(st) && Enabled(st, a) && h in st.sinks
    ensures var st1 := Step(st, a);
            && h in st1.sinks && Forwards(st, st.sinks[h].at, st1.sinks[h].at)
            && (st.sinks[h].at.Gone? ==> st1.sinks[h].log == st.sinks[h].log)
            && st1.sinks[h].key == st.sinks[h].key && st.sinks[h].log <= st1.sinks[h].log
  {
    hide Inv, PairStep, ForwardStep, WorkStep, LastOf, Unwrap, Expected, PairMoves, SrcStep, Subject, Prelude;
    if a.Pair? {
      match st.pipe[0]
      case RegSource(s) => LifeRegisterSource(st, s, h);
      case UnregSource(s) => UnregisterSourceMoves(st, s); UnregisterSourceSinks(st, s);
      case RegSinkP(g) => RegisterSinkIs(st, g);
      case UnregSinkP(g) => UnregisterSinkIs(st, g);
    } else if a.Forward? {
      ForwardStepIs(st, a.msg);
      ForwardMoves(st, a.msg, h);
    } else if a.Work? {
      LifeWork(st, a.src, h);
    }
  }

  lemma UnregisterSourceSinks(st: State, s: SrcId)
    requires Inv(st) && Taking(st, UnregSource(s))
    ensures PairStep(st).sinks == st.sinks
  {
    hide PairStep, PairMoves, Subject;
    UnregisterSourceMoves(st, s);
  }

  lemma LifeRegisterSource(st: State, s: SrcId, h: SinkId)
    requires Inv(st) && Taking(st, RegSource(s)) && h in st.sinks
    ensures var st1 := PairStep(st);
            h in st1.sinks && (st1.sinks[h] == st.sinks[h] ||
              (st.sinks[h].at.AtWaiting? && st1.sinks[h] == st.sinks[h].(at := AtSending)))
  {
    hide PairStep;
    RegisterSourceIs(st, s);
    if st.sources[s].key !in st.receivers { RegisterSourceWaiters(st, s); }
  }

  lemma ForwardMoves(st: State, m: SrcMsg, h: SinkId)
    requires Inv(st) && Enabled(st, Forward(m)) && h in st.sinks
    ensures var st1 := ForwardStep(st, m);
            h in st1.sinks && (st1.sinks[h] == st.sinks[h] ||
              (st.sinks[h].at.AtSending? && st1.sinks[h] == st.sinks[h].(at := AtQueue(st.pairing.src))))
  {
    hide ForwardStep;
    ForwardStepIs(st, m);
  }

  lemma LifeWork(st: State, s: SrcId, h: SinkId)
    requires Inv(st) && Enabled(st, Work(s)) && h in st.sinks
    ensures var st1 := WorkStep(st, s);
            && h in st1.sinks && st1.sinks[h].key == st.sinks[h].key && st.sinks[h].log <= st1.sinks[h].log
            && (st1.sinks[h].at == st.sinks[h].at
                || (st.sinks[h].at == AtQueue(s) && st1.sinks[h].at == AtMap(s))
                || (st.sinks[h].at == AtMap(s) && st1.sinks[h].at.Gone?))
            && (st.sinks[h].at.Gone? ==> st1.sinks[h].log == st.sinks[h].log)
  {
    hide WorkStep, LastOf, Unwrap, Expected;
    assert SinkOk(st, h);
    match st.sources[s].queue[0]
    case RegSink(_) => ConnectIs(st, s);
    case UnregSink(_) => DisconnectIs(st, s);
    case DataMsg(_) => DataIs(st, s);
  }

  /** The first failed put cancels and removes the sink. */
  lemma FullSinkIsDropped(st: State, s: SrcId, h: SinkId)
    requires Inv(st) && Enabled(st, Work(s)) && st.sources[s].queue[0].DataMsg?
    requires h in st.sources[s].sinks && h in st.sinks && !HasRoom(st.sinks[h])
    ensures var st1 := WorkStep(st, s);
            && h in st1.sinks && st1.sinks[h] == st.sinks[h].(cancelled := true, at := Gone)
            && forall t :: t in st1.sources ==> h !in st1.sources[t].sinks
  {
    hide WorkStep, LastOf, Unwrap, Expected;
    DataIs(st, s);
    DataInv(st, s);
    var st1 := WorkStep(st, s);
    forall t | t in st1.sources ensures h !in st1.sources[t].sinks { assert SourceOk(st1, t); }
  }

  /** A dropped sink is connected to nothing and gets nothing, for the rest of every run. */
  lemma {:induction false} GoneForGood(st: State, acts: seq<Action>, h: SinkId)
    requires Inv(st) && CanRun(st, acts) && h in st.sinks && st.sinks[h].at.Gone?
    ensures var st1 := Run(st, acts);
            && h in st1.sinks && st1.sinks[h].at.Gone? && st1.sinks[h].log == st.sinks[h].log
            && forall s :: s in st1.sources ==> h !in st1.sources[s].sinks
    decreases |acts|
  {
    hide Step, Enabled;
    if |acts| > 0 {
      LifeStep(st, acts[0], h);
      StepInv(st, acts[0]);
      GoneForGood(Step(st, acts[0]), acts[1..], h);
    } else {
      forall s | s in st.sources ensures h !in st.sources[s].sinks { assert SourceOk(st, s); }
    }
  }

  // ---------------------------------------------------------------- waiting sinks are forwarded

  /** This step puts the sink's registration in the source's queue. */
  predicate Enters(st: State, a: Action, s: SrcId, h: SinkId)
    requires Enabled(st, a)
  {
    s in st.sources && s in Step(st, a).sources && Step(st, a).sources[s].queue == st.sources[s].queue + [RegSink(h)]
  }

  /** How often that happens in a run. */
  ghost function Entries(st: State, acts: seq<Action>, s: SrcId, h: SinkId): nat
    requires CanRun(st, acts)
    decreases |acts|
  {
    if |acts| == 0 then 0
    else (if Enters(st, acts[0], s, h) then 1 else 0) + Entries(Step(st, acts[0]), acts[1..], s, h)
  }

  /** Only the pairing goroutine does it. */
  lemma EntersIff(st: State, a: Action, s: SrcId, h: SinkId)
    requires Inv(st) && Enabled(st, a)
    ensures Enters(st, a, s, h) <==> a == Forward(RegSink(h)) && st.pairing.src == s
  {
    hide Inv, ForwardStep, PairStep, WorkStep;
    if s in st.sources {
      var q := st.sources[s].queue;
      Longer(q, RegSink(h));
      match a
      case Forward(m) =>
        ForwardStepIs(st, m);
        if s != st.pairing.src { ForwardElsewhere(st, m, s); }
        LastDiffers(q, m, RegSink(h));
      case Pair => PairQueues(st, s);
      case Work(t) => WorkQueue(st, t, s);
      case Put(t, m) => LastDiffers(q, DataMsg(m), RegSink(h));
      case _ =>
    } else if a.Forward? {
      ForwardStepIs(st, a.msg);
    }
  }

  lemma Longer(q: seq<SrcMsg>, m: SrcMsg)
    ensures q != q + [m] && |q + [m]| == |q| + 1
  {
  }

  lemma LastDiffers(q: seq<SrcMsg>, m: SrcMsg, m': SrcMsg)
    ensures q + [m] == q + [m'] <==> m == m'
  {
    assert (q + [m])[|q|] == m && (q + [m'])[|q|] == m';
  }

  lemma ForwardElsewhere(st: State, m: SrcMsg, s: SrcId)
    requires Enabled(st, Forward(m)) && s in st.sources && s != st.pairing.src
    ensures s in ForwardStep(st, m).sources && ForwardStep(st, m).sources[s] == st.sources[s]
  {
  }

  lemma PairQueues(st: State, s: SrcId)
    requires Enabled(st, Pair) && s in st.sources
    ensures s in PairStep(st).sources && PairStep(st).sources[s].queue == st.sources[s].queue
  {
    var st1 := st.(pipe := st.pipe[1..]);
    match st.pipe[0]
    case RegSource(t) =>
      hide HandleUnregisterSource, HandleRegisterSink, HandleUnregisterSink;
      if t in st.sources { assert HandleRegisterSource(st1, t).sources[s].queue == st.sources[s].queue; }
    case UnregSource(t) =>
      hide HandleRegisterSource, HandleRegisterSink, HandleUnregisterSink;
    case _ =>
      hide HandleRegisterSource, HandleUnregisterSource;
  }

  lemma WorkQueue(st: State, t: SrcId, s: SrcId)
    requires Enabled(st, Work(t)) && s in st.sources
    ensures s in WorkStep(st, t).sources && |WorkStep(st, t).sources[s].queue| <= |st.sources[s].queue|
  {
    hide Note, Unwrap, OfferAll, Keep, Prelude, Poisons;
    NoteQueue(st.sources[t].(queue := st.sources[t].queue[1..]), st.sources[t].queue[0]);
  }

  lemma NoteQueue(src: Source, m: SrcMsg)
    ensures m.DataMsg? ==> Note(src, Unwrap(m.data)).queue == src.queue
  {
    hide Unwrap;
  }

  /** The registration of a sink that no longer waits. */
  predicate Taken(st: State, h: SinkId)
    requires h in st.sinks
  {
    !st.sinks[h].at.AtPipe? && !st.sinks[h].at.AtWaiting?
  }

  /** It enters a queue when it leaves the pairing goroutine's hands, then and only then. */
  lemma EntersLeaves(st: State, a: Action, s: SrcId, h: SinkId)
    requires Inv(st) && Enabled(st, a) && h in st.sinks && Taken(st, h)
    ensures h in Step(st, a).sinks && Taken(Step(st, a), h)
    ensures st.sinks[h].at.AtSending? ==> st.pairing.Sending?
    ensures Enters(st, a, s, h)
            <==> st.sinks[h].at.AtSending? && !Step(st, a).sinks[h].at.AtSending? && st.pairing.src == s
    ensures Step(st, a).sinks[h].at.AtSending? ==>
              st.sinks[h].at.AtSending? && Step(st, a).pairing.Sending? && Step(st, a).pairing.src == st.pairing.src
  {
    hide Inv, PairStep, ForwardStep, WorkStep, Enters;
    LifeStep(st, a, h);
    EntersIff(st, a, s, h);
    StepInv(st, a);
    if st.sinks[h].at.AtSending? { TakenIsSending(st, h); }
    if Step(st, a).sinks[h].at.AtSending? {
      TakenIsSending(Step(st, a), h);
      PairingSource(st, a);
    }
    if a.Forward? {
      ForwardStepIs(st, a.msg);
    } else if st.sinks[h].at.AtSending? {
      OthersWait(st, a, h);
    }
  }

  /** No other step takes it out of those hands. */
  lemma OthersWait(st: State, a: Action, h: SinkId)
    requires Inv(st) && Enabled(st, a) && h in st.sinks && st.sinks[h].at.AtSending? && !a.Forward?
    ensures h in Step(st, a).sinks && Step(st, a).sinks[h].at.AtSending?
  {
    hide Inv, PairStep, ForwardStep, WorkStep;
    TakenIsSending(st, h);
    if a.Work? { LifeWork(st, a.src, h); }
  }

  lemma {:induction false} EntriesAre(st: State, acts: seq<Action>, s: SrcId, h: SinkId)
    requires Inv(st) && CanRun(st, acts) && h in st.sinks && Taken(st, h)
    ensures var st1 := Run(st, acts);
            && h in st1.sinks && Taken(st1, h)
            && Entries(st, acts, s, h) ==
               if st.sinks[h].at.AtSending? && !st1.sinks[h].at.AtSending? && st.pairing == Sending(s, st.pairing.todo)
               then 1 else 0
    ensures st.sinks[h].at.AtSending? ==> st.pairing.Sending?
    decreases |acts|
  {
    hide Step, Enabled, Inv, Enters;
    if st.sinks[h].at.AtSending? { TakenIsSending(st, h); }
    if |acts| > 0 {
      EntersLeaves(st, acts[0], s, h);
      StepInv(st, acts[0]);
      EntriesAre(Step(st, acts[0]), acts[1..], s, h);
      if !Step(st, acts[0]).sinks[h].at.AtSending? { StaysOut(Step(st, acts[0]), acts[1..], h); }
    }
  }

  lemma {:induction false} StaysOut(st: State, acts: seq<Action>, h: SinkId)
    requires Inv(st) && CanRun(st, acts) && h in st.sinks && Taken(st, h) && !st.sinks[h].at.AtSending?
    ensures h in Run(st, acts).sinks && !Run(st, acts).sinks[h].at.AtSending?
    decreases |acts|
  {
    hide Step, Enabled, Inv;
    if |acts| > 0 {
      LifeStep(st, acts[0], h);
      StepInv(st, acts[0]);
      StaysOut(Step(st, acts[0]), acts[1..], h);
    }
  }

  lemma HandedOver(st: State, s: SrcId, h: SinkId)
    requires Inv(st) && Taking(st, RegSource(s)) && s in st.sources
    requires st.sources[s].key in st.waiting && h in st.waiting[st.sources[s].key]
    ensures var st1 := PairStep(st);
            && Inv(st1) && h in st1.sinks && st1.sinks[h].at.AtSending?
            && st1.pairing == Sending(s, st1.pairing.todo)
  {
    hide PairStep, PipeOk, PairingOk, SourcesOk, SinksOk, ReceiversOk;
    RegisterSourceWaiters(st, s);
    StepInv(st, Pair);
  }

  /** Registering a source hands over every sink waiting for its key: in every run from there, the sink's registration
      enters that source's queue at most once and no other queue ever, and has entered it once the pairing goroutine is
      idle again. */
  lemma WaitersAreForwarded(st: State, acts: seq<Action>, s: SrcId, h: SinkId, t: SrcId)
    requires Inv(st) && Taking(st, RegSource(s)) && s in st.sources
    requires st.sources[s].key in st.waiting && h in st.waiting[st.sources[s].key]
    requires CanRun(PairStep(st), acts)
    ensures t != s ==> Entries(PairStep(st), acts, t, h) == 0
    ensures Entries(PairStep(st), acts, s, h) <= 1
    ensures Run(PairStep(st), acts).pairing.Idle? ==> Entries(PairStep(st), acts, s, h) == 1
  {
    hide PairStep, Inv, CanRun, Run, Entries;
    HandedOver(st, s, h);
    var st1 := PairStep(st);
    EntriesAre(st1, acts, s, h);
    EntriesAre(st1, acts, t, h);
    RunInv(st1, acts);
    if Run(st1, acts).sinks[h].at.AtSending? { TakenIsSending(Run(st1, acts), h); }
  }

  lemma TakenIsSending(st: State, h: SinkId)
    requires Inv(st) && h in st.sinks && st.sinks[h].at.AtSending?
    ensures st.pairing.Sending?
  {
    assert SinkOk(st, h);
  }

  lemma PairingSource(st: State, a: Action)
    requires Enabled(st, a) && st.pairing.Sending?
    ensures var st1 := Step(st, a); st1.pairing.Sending? ==> st1.pairing.src == st.pairing.src
  {
    hide Note, Unwrap, OfferAll, Keep, CancelAll, PairStep;
  }
}
