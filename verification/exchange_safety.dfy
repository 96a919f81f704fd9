/** What every run of the exchange keeps. */
module ExchangeSafety {
  import opened ByteIO
  import opened Exchange

  // ---------------------------------------------------------------- histories

  /** The payload of the last message of this kind. */
  function LastOf(ms: seq<ExData>, kind: Kind): Option<Bytes> {
    if |ms| == 0 then None
    else if ms[|ms| - 1].kind == kind then Some(ms[|ms| - 1].payload)
    else LastOf(ms[..|ms| - 1], kind)
  }

  function Lives(ms: seq<ExData>): (es: seq<Entry>)
    ensures |es| == |ms|
  {
    seq(|ms|, i requires 0 <= i < |ms| => Live(ms[i]))
  }

  /** What a sink that joined after `joined` messages must have been given: the configurations known then, and every
      message since. */
  function Expected(handled: seq<ExData>, joined: nat): seq<Entry>
    requires joined <= |handled|
  {
    Prelude(LastOf(handled[..joined], VideoConfig), LastOf(handled[..joined], AudioConfig)) + Lives(handled[joined..])
  }

  // ---------------------------------------------------------------- the invariant

  predicate SinkIs(st: State, h: SinkId, at: Where) {
    h in st.sinks && st.sinks[h].at == at
  }

  /** An unregistration under way: its registration has left the pairing goroutine's hands. */
  predicate Outgoing(st: State, h: SinkId) {
    h in st.sinks && st.sinks[h].phase.Leaving?
    && !st.sinks[h].at.AtPipe? && !st.sinks[h].at.AtWaiting? && !st.sinks[h].at.AtSending?
  }

  predicate PipeMsgOk(st: State, m: PipeMsg) {
    match m
    case RegSource(s) => s in st.sources && st.sources[s].phase.Requested?
    case UnregSource(s) => s in st.sources && st.sources[s].phase.Departing?
    case RegSinkP(h) => SinkIs(st, h, AtPipe)
    case UnregSinkP(h) => h in st.sinks && st.sinks[h].phase.Leaving? && !st.sinks[h].at.AtPipe?
  }

  ghost predicate PipeOk(st: State) {
    && (forall i :: 0 <= i < |st.pipe| ==> PipeMsgOk(st, st.pipe[i]))
    && (forall i, j :: 0 <= i < j < |st.pipe| ==> st.pipe[i] != st.pipe[j])
  }

  /** Exclusivity: a key is registered or waited for, never both. */
  ghost predicate WaitOk(st: State) {
    forall k :: k in st.waiting ==>
      && k !in st.receivers && st.waiting[k] != {}
      && forall h :: h in st.waiting[k] ==> SinkIs(st, h, AtWaiting) && st.sinks[h].key == k
  }

  ghost predicate ReceiversOk(st: State) {
    forall k :: k in st.receivers ==>
      && st.receivers[k] in st.sources
      && var s := st.sources[st.receivers[k]]; s.key == k && (s.phase.Accepted? || s.phase.Departing?)
  }

  predicate SrcMsgOk(st: State, s: SrcId, m: SrcMsg, at: Where)
    requires s in st.sources
  {
    match m
    case RegSink(h) => SinkIs(st, h, at) && st.sinks[h].key == st.sources[s].key
    case UnregSink(h) => Outgoing(st, h)
    case DataMsg(_) => true
  }

  ghost predicate PairingOk(st: State) {
    st.pairing.Sending? ==>
      var s := st.pairing.src;
      && st.pairing.todo != {} && s in st.sources
      && st.sources[s].key in st.receivers && st.receivers[st.sources[s].key] == s
      && forall m :: m in st.pairing.todo ==> SrcMsgOk(st, s, m, AtSending) && !m.DataMsg?
  }

  /** A sink's register is in the queue once, and no unregister of it comes first. */
  ghost predicate Ordered(q: seq<SrcMsg>) {
    forall i, j :: 0 <= i < j < |q| && q[j].RegSink? ==> q[i] != q[j] && q[i] != UnregSink(q[j].sink)
  }

  ghost predicate QueueOk(st: State, s: SrcId)
    requires s in st.sources
  {
    && (forall i :: 0 <= i < |st.sources[s].queue| ==> SrcMsgOk(st, s, st.sources[s].queue[i], AtQueue(s)))
    && Ordered(st.sources[s].queue)
  }

  /** Connected sinks are where the source thinks they are, and have been given everything. */
  ghost predicate MapOk(st: State, s: SrcId)
    requires s in st.sources
  {
    var src := st.sources[s];
    forall h :: h in src.sinks ==>
      && SinkIs(st, h, AtMap(s)) && st.sinks[h].key == src.key
      && src.sinks[h] <= |src.handled| && st.sinks[h].log == Expected(src.handled, src.sinks[h])
  }

  ghost predicate SourceOk(st: State, s: SrcId)
    requires s in st.sources
  {
    var src := st.sources[s];
    && QueueOk(st, s) && MapOk(st, s)
    && src.video == LastOf(src.handled, VideoConfig) && src.audio == LastOf(src.handled, AudioConfig)
    && (src.phase.Accepted? || src.phase.Departing? ==> src.key in st.receivers && st.receivers[src.key] == s)
  }

  /** A registration is in the one place it is said to be, and nothing reaches a sink before it is connected. */
  ghost predicate SinkOk(st: State, h: SinkId)
    requires h in st.sinks
  {
    var k := st.sinks[h];
    && k.consumed <= |k.log| <= k.consumed + SINK_CAP
    && (k.phase.Asked? <==> k.at.AtPipe?)
    && (!k.at.AtMap? && !k.at.Gone? ==> k.log == [])
    && match k.at
       case AtPipe => RegSinkP(h) in st.pipe
       case AtWaiting => k.key in st.waiting && h in st.waiting[k.key]
       case AtSending => st.pairing.Sending? && RegSink(h) in st.pairing.todo
       case AtQueue(s) => s in st.sources && RegSink(h) in st.sources[s].queue
       case AtMap(s) => s in st.sources && h in st.sources[s].sinks
       case Gone => true
  }

  ghost predicate SourcesOk(st: State) { forall s :: s in st.sources ==> SourceOk(st, s) }
  ghost predicate SinksOk(st: State) { forall h :: h in st.sinks ==> SinkOk(st, h) }

  ghost predicate Inv(st: State) {
    && !st.panicked && PipeOk(st) && WaitOk(st) && ReceiversOk(st) && PairingOk(st)
    && SourcesOk(st) && SinksOk(st)
  }

  lemma InitInv()
    ensures Inv(INIT)
  {
  }

  // ---------------------------------------------------------------- frames

  predicate Alike(k: Sink, k1: Sink) {
    && k1.key == k.key && k1.at == k.at && k1.log == k.log && k.consumed <= k1.consumed <= |k1.log|
    && (k.phase.Leaving? ==> k1.phase.Leaving?) && (k.phase.Asked? <==> k1.phase.Asked?)
  }

  /** As far as source t is concerned, no sink has moved. */
  ghost predicate KeptFor(st: State, st1: State, t: SrcId) {
    forall h :: h in st.sinks ==>
      && h in st1.sinks && st1.sinks[h].key == st.sinks[h].key
      && (Outgoing(st, h) ==> Outgoing(st1, h))
      && (st.sinks[h].at == AtQueue(t) || st.sinks[h].at == AtMap(t) ==>
            st1.sinks[h].at == st.sinks[h].at && st1.sinks[h].log == st.sinks[h].log)
  }

  predicate SameWork(s: Source, s1: Source) {
    s1.key == s.key && s1.queue == s.queue && s1.sinks == s.sinks && s1.video == s.video && s1.audio == s.audio
    && s1.handled == s.handled
  }

  predicate Announced(st: State, s: SrcId)
    requires s in st.sources
  {
    var src := st.sources[s];
    src.phase.Accepted? || src.phase.Departing? ==> src.key in st.receivers && st.receivers[src.key] == s
  }

  lemma SourceKept(st: State, st1: State, t: SrcId)
    requires t in st.sources && SourceOk(st, t) && KeptFor(st, st1, t)
    requires t in st1.sources && SameWork(st.sources[t], st1.sources[t]) && Announced(st1, t)
    ensures SourceOk(st1, t)
  {
    hide Expected, LastOf;
    forall i | 0 <= i < |st1.sources[t].queue| ensures SrcMsgOk(st1, t, st1.sources[t].queue[i], AtQueue(t)) {
      assert SrcMsgOk(st, t, st.sources[t].queue[i], AtQueue(t));
    }
  }

  ghost predicate SourceGrows(s: Source, s1: Source) {
    && s1.key == s.key && (SameWork(s, s1) || exists m :: SameWork(Queued(s, m), s1))
    && (s1.phase == s.phase || (s.phase.Accepted? && s1.phase.Departing?))
  }

  predicate NewSource(s: Source) {
    SameWork(Source(s.key, Requested, false, false, [], map[], None, None, []), s) && s.phase.Requested?
  }

  predicate NewSink(st: State, h: SinkId)
    requires h in st.sinks
  {
    var k := st.sinks[h];
    k.at.AtPipe? && k.phase.Asked? && k.log == [] && k.consumed == 0 && RegSinkP(h) in st.pipe
  }

  /** What a step that moves no registration may do: anything may be appended or newly created. */
  ghost predicate Grows(st: State, st1: State) {
    && st1.receivers == st.receivers && st1.waiting == st.waiting && st1.pairing == st.pairing
    && st.pipe <= st1.pipe && !st1.panicked
    && (forall s :: s in st.sources ==> s in st1.sources && SourceGrows(st.sources[s], st1.sources[s]))
    && (forall s :: s in st1.sources && s !in st.sources ==> NewSource(st1.sources[s]))
    && (forall h :: h in st.sinks ==> h in st1.sinks && Alike(st.sinks[h], st1.sinks[h]))
    && (forall h :: h in st1.sinks && h !in st.sinks ==> NewSink(st1, h))
  }

  function Queued(s: Source, m: ExData): Source { s.(queue := s.queue + [DataMsg(m)]) }

  lemma QueuedOk(st: State, s: SrcId, m: ExData)
    requires s in st.sources && SourceOk(st, s)
    ensures SourceOk(SetSource(st, s, Queued(st.sources[s], m)), s)
  {
    hide Expected, LastOf;
    var st1 := SetSource(st, s, Queued(st.sources[s], m));
    var q, q1 := st.sources[s].queue, st1.sources[s].queue;
    forall i | 0 <= i < |q1| ensures SrcMsgOk(st1, s, q1[i], AtQueue(s)) {
      assert i < |q| ==> SrcMsgOk(st, s, q[i], AtQueue(s)) && q1[i] == q[i];
    }
  }

  lemma GrowsSources(st: State, st1: State)
    requires Inv(st) && Grows(st, st1)
    ensures SourcesOk(st1)
  {
    hide PipeOk, WaitOk, PairingOk, SinksOk, SourceOk;
    forall t | t in st1.sources ensures SourceOk(st1, t) {
      if t in st.sources {
        assert SourceOk(st, t);
        GrowsSource(st, st1, t);
      } else {
        NewSourceOk(st1, t);
      }
    }
  }

  lemma NewSourceOk(st1: State, t: SrcId)
    requires t in st1.sources && NewSource(st1.sources[t])
    ensures SourceOk(st1, t)
  {
  }

  lemma GrowsSource(st: State, st1: State, t: SrcId)
    requires t in st.sources && SourceOk(st, t) && Grows(st, st1)
    ensures SourceOk(st1, t)
  {
    hide Expected, LastOf, QueueOk, MapOk, Outgoing;
    assert KeptFor(st, st1, t) by { GrowsKeeps(st, st1, t); }
    assert Announced(st1, t);
    if !SameWork(st.sources[t], st1.sources[t]) {
      var m :| SameWork(Queued(st.sources[t], m), st1.sources[t]);
      var st0 := SetSource(st, t, Queued(st.sources[t], m));
      QueuedOk(st, t, m);
      assert KeptFor(st0, st1, t) by { GrowsKeeps(st, st1, t); KeptForSinks(st, st0, st1, t); }
      SourceKept(st0, st1, t);
    } else {
      SourceKept(st, st1, t);
    }
  }

  lemma KeptForSinks(st: State, st0: State, st1: State, t: SrcId)
    requires KeptFor(st, st1, t) && st0.sinks == st.sinks
    ensures KeptFor(st0, st1, t)
  {
    forall h | h in st0.sinks ensures Outgoing(st0, h) ==> Outgoing(st1, h) {
      assert Outgoing(st0, h) ==> Outgoing(st, h);
    }
  }

  lemma GrowsKeeps(st: State, st1: State, t: SrcId)
    requires Grows(st, st1)
    ensures KeptFor(st, st1, t)
  {
  }

  lemma GrowsSinks(st: State, st1: State)
    requires Inv(st) && Grows(st, st1)
    ensures SinksOk(st1)
  {
    hide PipeOk, WaitOk, PairingOk, SourcesOk;
    forall h | h in st1.sinks ensures SinkOk(st1, h) {
      if h in st.sinks {
        assert SinkOk(st, h);
        var k := st.sinks[h];
        if k.at.AtQueue? {
          assert k.at.src in st1.sources;
        }
      }
    }
  }

  lemma GrowsPool(st: State, st1: State)
    requires Inv(st) && Grows(st, st1)
    ensures WaitOk(st1) && ReceiversOk(st1) && PairingOk(st1)
  {
    hide PipeOk, SourcesOk, SinksOk, SameWork;
    if st1.pairing.Sending? {
      var s := st1.pairing.src;
      forall m | m in st1.pairing.todo ensures SrcMsgOk(st1, s, m, AtSending) && !m.DataMsg? {
        assert SrcMsgOk(st, s, m, AtSending);
      }
    }
  }

  lemma GrowsInv(st: State, st1: State)
    requires Inv(st) && Grows(st, st1) && PipeOk(st1)
    ensures Inv(st1)
  {
    hide Grows, PipeOk, WaitOk, ReceiversOk, PairingOk, SourcesOk, SinksOk;
    GrowsSources(st, st1);
    GrowsSinks(st, st1);
    GrowsPool(st, st1);
    assert !st1.panicked by { GrowsNotPanicked(st, st1); }
  }

  lemma GrowsNotPanicked(st: State, st1: State)
    requires Grows(st, st1)
    ensures !st1.panicked
  {
  }

  /** The actions that move no registration. */
  predicate Quiet(a: Action) {
    a.AskSource? || a.AskSink? || a.DropSource? || a.DropSink? || a.Put? || a.Consume? || a.Quit?
  }

  lemma QuietGrows(st: State, a: Action)
    requires Quiet(a) && Enabled(st, a) && SinksOk(st)
    ensures Grows(st, Step(st, a))
  {
    hide Prelude, Note, Unwrap, PairStep, ForwardStep, WorkStep, OfferAll, Keep, SinksOk, SinkOk, Alike;
    var st1 := Step(st, a);
    QuietSinks(st, a);
    forall s | s in st.sources ensures s in st1.sources && SourceGrows(st.sources[s], st1.sources[s]) {
      if a.Put? && s == a.src { assert SameWork(Queued(st.sources[s], a.data), st1.sources[s]); }
    }
  }

  lemma QuietSinks(st: State, a: Action)
    requires Quiet(a) && Enabled(st, a) && SinksOk(st)
    ensures forall h :: h in st.sinks ==> h in Step(st, a).sinks && Alike(st.sinks[h], Step(st, a).sinks[h])
  {
    hide Prelude, Note, Unwrap, PairStep, ForwardStep, WorkStep, OfferAll, Keep;
    var st1 := Step(st, a);
    forall h | h in st.sinks ensures h in st1.sinks && Alike(st.sinks[h], st1.sinks[h]) {
      assert SinkOk(st, h);
    }
  }

  lemma QuietPipe(st: State, a: Action)
    requires Quiet(a) && Enabled(st, a) && Inv(st)
    ensures PipeOk(Step(st, a))
  {
    hide SourceOk, PairingOk, WaitOk, PairStep, ForwardStep, WorkStep;
    var st1 := Step(st, a);
    assert a.DropSink? ==> SinkOk(st, a.sink);
    forall i | 0 <= i < |st1.pipe| ensures PipeMsgOk(st1, st1.pipe[i]) {
      assert i < |st.pipe| ==> PipeMsgOk(st, st.pipe[i]) && st1.pipe[i] == st.pipe[i];
    }
  }

  lemma QuietInv(st: State, a: Action)
    requires Quiet(a) && Enabled(st, a) && Inv(st)
    ensures Inv(Step(st, a))
  {
    hide Step, Grows, PipeOk;
    QuietGrows(st, a);
    QuietPipe(st, a);
    GrowsInv(st, Step(st, a));
  }

  // ---------------------------------------------------------------- a source's goroutine, and its queue

  /** A step at source s: registrations move only into s, within s or out of it. */
  predicate Local(s: SrcId, k: Sink, k1: Sink) {
    && k1.key == k.key && k1.phase == k.phase && k1.consumed == k.consumed
    && (k1 == k || k.at.AtSending? || k.at == AtQueue(s) || k.at == AtMap(s))
    && (k1.at == k.at || k1.at == AtQueue(s) || k1.at == AtMap(s) || k1.at.Gone?)
  }

  ghost predicate SrcStep(st: State, st1: State, s: SrcId) {
    && !st1.panicked && st1.pipe == st.pipe && st1.receivers == st.receivers && st1.waiting == st.waiting
    && s in st.sources && s in st1.sources && st1.sources == st.sources[s := st1.sources[s]]
    && st1.sources[s].key == st.sources[s].key && st1.sources[s].phase == st.sources[s].phase
    && st1.sinks.Keys == st.sinks.Keys
    && forall h :: h in st.sinks ==> Local(s, st.sinks[h], st1.sinks[h])
  }

  lemma SrcStepPool(st: State, st1: State, s: SrcId)
    requires Inv(st) && SrcStep(st, st1, s)
    ensures PipeOk(st1) && WaitOk(st1) && ReceiversOk(st1)
  {
    hide PairingOk, SourcesOk, SinksOk;
    forall i | 0 <= i < |st1.pipe| ensures PipeMsgOk(st1, st1.pipe[i]) { assert PipeMsgOk(st, st.pipe[i]); }
  }

  lemma SrcStepOthers(st: State, st1: State, s: SrcId)
    requires Inv(st) && SrcStep(st, st1, s) && SourceOk(st1, s)
    ensures SourcesOk(st1)
  {
    hide PairingOk, PipeOk, WaitOk, SinksOk, SourceOk;
    forall t | t in st1.sources ensures SourceOk(st1, t) {
      if t != s {
        assert SourceOk(st, t);
        OtherAnnounced(st, st1, t);
        SourceKept(st, st1, t);
      }
    }
  }

  lemma OtherAnnounced(st: State, st1: State, t: SrcId)
    requires t in st.sources && SourceOk(st, t) && t in st1.sources && st1.sources[t] == st.sources[t]
    requires st1.receivers == st.receivers
    ensures Announced(st1, t)
  {
  }

  /** A source's own step leaves what the pairing goroutine holds alone. */
  lemma SrcStepPairing(st: State, st1: State, s: SrcId)
    requires Inv(st) && SrcStep(st, st1, s) && st1.pairing == st.pairing
    requires forall h :: h in st.sinks && st.sinks[h].at.AtSending? ==> st1.sinks[h] == st.sinks[h]
    ensures PairingOk(st1)
  {
    hide PipeOk, WaitOk, SourcesOk, SinksOk;
    if st1.pairing.Sending? {
      forall m | m in st1.pairing.todo ensures SrcMsgOk(st1, st1.pairing.src, m, AtSending) && !m.DataMsg? {
        assert SrcMsgOk(st, st.pairing.src, m, AtSending);
      }
    }
  }

  /** Sinks that stay put stay right, as long as the source still holds them. */
  lemma SinkStays(st: State, st1: State, s: SrcId, h: SinkId)
    requires SrcStep(st, st1, s) && h in st.sinks && SinkOk(st, h) && st1.sinks[h].at == st.sinks[h].at
    requires |st1.sinks[h].log| <= st.sinks[h].consumed + SINK_CAP && |st.sinks[h].log| <= |st1.sinks[h].log|
    requires st1.sinks[h].log == st.sinks[h].log || st.sinks[h].at.AtMap?
    requires st.sinks[h].at == AtQueue(s) ==> RegSink(h) in st1.sources[s].queue
    requires st.sinks[h].at == AtMap(s) ==> h in st1.sources[s].sinks
    requires st.sinks[h].at.AtSending? ==> st1.pairing.Sending? && RegSink(h) in st1.pairing.todo
    ensures SinkOk(st1, h)
  {
  }

  lemma SrcStepInv(st: State, st1: State, s: SrcId)
    requires Inv(st) && SrcStep(st, st1, s) && SourceOk(st1, s) && PairingOk(st1) && SinksOk(st1)
    ensures Inv(st1)
  {
    hide SourceOk, PairingOk, SinksOk, SourcesOk, PipeOk, WaitOk, ReceiversOk;
    SrcStepPool(st, st1, s);
    SrcStepOthers(st, st1, s);
  }

  // ---- forwarding

  lemma ForwardStepIs(st: State, m: SrcMsg)
    requires Inv(st) && Enabled(st, Forward(m))
    ensures var st1, s := ForwardStep(st, m), st.pairing.src;
            && SrcStep(st, st1, s) && s in st1.sources && SrcMsgOk(st, s, m, AtSending) && !m.DataMsg?
            && st1.sources[s] == st.sources[s].(queue := st.sources[s].queue + [m])
            && (forall h :: h in st.sinks && m != RegSink(h) ==> st1.sinks[h] == st.sinks[h])
            && (m.RegSink? ==> st1.sinks[m.sink] == st.sinks[m.sink].(at := AtQueue(s)))
  {
    hide PipeOk, WaitOk, SourcesOk, SinksOk;
    assert SrcMsgOk(st, st.pairing.src, m, AtSending);
  }

  lemma ForwardSource(st: State, m: SrcMsg)
    requires Inv(st) && Enabled(st, Forward(m))
    ensures st.pairing.src in ForwardStep(st, m).sources && SourceOk(ForwardStep(st, m), st.pairing.src)
  {
    hide PipeOk, WaitOk, PairingOk, SinksOk, ForwardStep, Expected, LastOf, SrcStep;
    var st1, s := ForwardStep(st, m), st.pairing.src;
    assert s in st.sources && SourceOk(st, s);
    ForwardStepIs(st, m);
    ForwardKeeps(st, m);
    var q, q1 := st.sources[s].queue, st1.sources[s].queue;
    forall i | 0 <= i < |q1| ensures SrcMsgOk(st1, s, q1[i], AtQueue(s)) {
      if i < |q| { assert SrcMsgOk(st, s, q[i], AtQueue(s)); }
    }
    forall i | 0 <= i < |q| ensures m.RegSink? ==> q[i] != m && q[i] != UnregSink(m.sink) {
      assert SrcMsgOk(st, s, q[i], AtQueue(s));
    }
  }

  lemma ForwardKeeps(st: State, m: SrcMsg)
    requires Inv(st) && Enabled(st, Forward(m))
    ensures var st1, s := ForwardStep(st, m), st.pairing.src;
            && (forall h :: Outgoing(st, h) ==> Outgoing(st1, h))
            && (forall h :: SinkIs(st, h, AtQueue(s)) ==> SinkIs(st1, h, AtQueue(s)))
            && st1.sources[s].key in st1.receivers && st1.receivers[st1.sources[s].key] == s
            && (forall h :: SinkIs(st, h, AtMap(s)) ==> st1.sinks[h] == st.sinks[h])
            && (forall h :: h in st.sinks ==> h in st1.sinks && st1.sinks[h].key == st.sinks[h].key)
  {
    hide PipeOk, WaitOk, SourcesOk, SinksOk, ForwardStep;
    ForwardStepIs(st, m);
  }

  lemma ForwardSinks(st: State, m: SrcMsg)
    requires Inv(st) && Enabled(st, Forward(m))
    ensures SinksOk(ForwardStep(st, m))
  {
    hide PipeOk, WaitOk, PairingOk, SourcesOk, SrcStep;
    var st1, s := ForwardStep(st, m), st.pairing.src;
    ForwardStepIs(st, m);
    forall g | g in st1.sinks ensures SinkOk(st1, g) {
      assert SinkOk(st, g);
      if m == RegSink(g) {
        assert st1.sources[s].queue[|st.sources[s].queue|] == m;
      } else {
        assert st.sinks[g].at == AtQueue(s) ==> RegSink(g) in st1.sources[s].queue;
        assert st.sinks[g].at.AtSending? ==> RegSink(g) in st.pairing.todo - {m};
        SinkStays(st, st1, s, g);
      }
    }
  }

  lemma ForwardPairing(st: State, m: SrcMsg)
    requires Inv(st) && Enabled(st, Forward(m))
    ensures PairingOk(ForwardStep(st, m))
  {
    hide PipeOk, WaitOk, SourcesOk, SinksOk;
    var st1, s := ForwardStep(st, m), st.pairing.src;
    ForwardStepIs(st, m);
    if st1.pairing.Sending? {
      forall n | n in st1.pairing.todo ensures SrcMsgOk(st1, s, n, AtSending) && !n.DataMsg? {
        assert SrcMsgOk(st, s, n, AtSending) && n != m;
      }
    }
  }

  lemma ForwardInv(st: State, m: SrcMsg)
    requires Inv(st) && Enabled(st, Forward(m))
    ensures Inv(ForwardStep(st, m))
  {
    hide ForwardStep, SourceOk, PairingOk, SinksOk, SrcStep, SrcMsgOk;
    ForwardStepIs(st, m);
    ForwardSource(st, m);
    ForwardPairing(st, m);
    ForwardSinks(st, m);
    SrcStepInv(st, ForwardStep(st, m), st.pairing.src);
  }

  // ---- connecting a sink

  lemma PreludeNow(handled: seq<ExData>)
    ensures Expected(handled, |handled|) == Prelude(LastOf(handled, VideoConfig), LastOf(handled, AudioConfig))
  {
    assert handled[..|handled|] == handled && handled[|handled|..] == [];
  }

  lemma ConnectIs(st: State, s: SrcId)
    requires Inv(st) && Enabled(st, Work(s)) && st.sources[s].queue[0].RegSink?
    ensures var st1, src := WorkStep(st, s), st.sources[s];
            var h := src.queue[0].sink;
            && SrcStep(st, st1, s) && s in st1.sources && st1.pairing == st.pairing
            && h in st.sinks && h !in src.sinks && st.sinks[h].at == AtQueue(s) && st.sinks[h].key == src.key
            && st1.sources[s] == src.(queue := src.queue[1..], sinks := src.sinks[h := |src.handled|])
            && (forall g :: g in st.sinks && g != h ==> st1.sinks[g] == st.sinks[g])
            && st1.sinks[h] == st.sinks[h].(at := AtMap(s), log := Expected(src.handled, |src.handled|))
  {
    hide PipeOk, WaitOk, PairingOk, Expected, LastOf, Prelude;
    var src := st.sources[s];
    var h := src.queue[0].sink;
    assert SourceOk(st, s) && SrcMsgOk(st, s, src.queue[0], AtQueue(s)) && SinkOk(st, h);
    PreludeNow(src.handled);
    assert [] + Prelude(src.video, src.audio) == Prelude(src.video, src.audio);
  }

  lemma ConnectSource(st: State, s: SrcId)
    requires Inv(st) && Enabled(st, Work(s)) && st.sources[s].queue[0].RegSink?
    ensures SourceOk(WorkStep(st, s), s)
  {
    hide PipeOk, WaitOk, PairingOk, SinksOk, WorkStep, Expected, LastOf;
    var st1, src := WorkStep(st, s), st.sources[s];
    assert SourceOk(st, s);
    ConnectIs(st, s);
    var q, q1 := src.queue, st1.sources[s].queue;
    forall i | 0 <= i < |q1| ensures SrcMsgOk(st1, s, q1[i], AtQueue(s)) {
      assert q1[i] == q[i + 1] && SrcMsgOk(st, s, q[i + 1], AtQueue(s)) && (q[i + 1].RegSink? ==> q[0] != q[i + 1]);
    }
  }

  lemma ConnectSinks(st: State, s: SrcId)
    requires Inv(st) && Enabled(st, Work(s)) && st.sources[s].queue[0].RegSink?
    ensures SinksOk(WorkStep(st, s))
  {
    hide PipeOk, WaitOk, PairingOk, SourcesOk, WorkStep, LastOf;
    var st1, src := WorkStep(st, s), st.sources[s];
    var h := src.queue[0].sink;
    ConnectIs(st, s);
    forall g | g in st1.sinks ensures SinkOk(st1, g) {
      assert SinkOk(st, g);
      if g == h {
        assert |st1.sinks[h].log| <= 2 by { PreludeNow(src.handled); }
      } else {
        if RegSink(g) in src.queue { StillQueued(src.queue, g); }
        SinkStays(st, st1, s, g);
      }
    }
  }

  lemma StillQueued(q: seq<SrcMsg>, g: SinkId)
    requires |q| > 0 && q[0] != RegSink(g) && RegSink(g) in q
    ensures RegSink(g) in q[1..]
  {
    var i :| 0 <= i < |q| && q[i] == RegSink(g);
    assert q[1..][i - 1] == q[i];
  }

  lemma ConnectInv(st: State, s: SrcId)
    requires Inv(st) && Enabled(st, Work(s)) && st.sources[s].queue[0].RegSink?
    ensures Inv(WorkStep(st, s))
  {
    hide WorkStep, SourceOk, PairingOk, SinksOk, SrcStep, Expected;
    ConnectIs(st, s);
    ConnectSource(st, s);
    ConnectSinks(st, s);
    SrcStepPairing(st, WorkStep(st, s), s);
    SrcStepInv(st, WorkStep(st, s), s);
  }

  // ---- disconnecting a sink

  lemma DisconnectIs(st: State, s: SrcId)
    requires Inv(st) && Enabled(st, Work(s)) && st.sources[s].queue[0].UnregSink?
    ensures var st1, src := WorkStep(st, s), st.sources[s];
            var h := src.queue[0].sink;
            && SrcStep(st, st1, s) && s in st1.sources && st1.pairing == st.pairing && h in st.sinks
            && st1.sources[s] == src.(queue := src.queue[1..], sinks := src.sinks - {h})
            && (forall g :: g in st.sinks && !(g == h && h in src.sinks) ==> st1.sinks[g] == st.sinks[g])
            && (h in src.sinks ==> st.sinks[h].at == AtMap(s)
                                   && st1.sinks[h] == st.sinks[h].(at := Gone, cancelled := true))
  {
    hide PipeOk, WaitOk, PairingOk, SinksOk, Expected, LastOf;
    var src := st.sources[s];
    var h := src.queue[0].sink;
    assert SourceOk(st, s) && SrcMsgOk(st, s, src.queue[0], AtQueue(s));
    assert h !in src.sinks ==> src.sinks - {h} == src.sinks;
  }

  lemma DisconnectSource(st: State, s: SrcId)
    requires Inv(st) && Enabled(st, Work(s)) && st.sources[s].queue[0].UnregSink?
    ensures SourceOk(WorkStep(st, s), s)
  {
    hide PipeOk, WaitOk, PairingOk, SinksOk, WorkStep, Expected, LastOf;
    var st1, src := WorkStep(st, s), st.sources[s];
    assert SourceOk(st, s);
    DisconnectIs(st, s);
    var q, q1 := src.queue, st1.sources[s].queue;
    forall i | 0 <= i < |q1| ensures SrcMsgOk(st1, s, q1[i], AtQueue(s)) {
      assert q1[i] == q[i + 1] && SrcMsgOk(st, s, q[i + 1], AtQueue(s));
    }
  }

  lemma DisconnectSinks(st: State, s: SrcId)
    requires Inv(st) && Enabled(st, Work(s)) && st.sources[s].queue[0].UnregSink?
    ensures SinksOk(WorkStep(st, s))
  {
    hide PipeOk, WaitOk, PairingOk, SourcesOk, WorkStep, LastOf;
    var st1, src := WorkStep(st, s), st.sources[s];
    DisconnectIs(st, s);
    forall g | g in st1.sinks ensures SinkOk(st1, g) {
      assert SinkOk(st, g);
      if !(g == src.queue[0].sink && g in src.sinks) {
        if RegSink(g) in src.queue { StillQueued(src.queue, g); }
        SinkStays(st, st1, s, g);
      }
    }
  }

  lemma DisconnectInv(st: State, s: SrcId)
    requires Inv(st) && Enabled(st, Work(s)) && st.sources[s].queue[0].UnregSink?
    ensures Inv(WorkStep(st, s))
  {
    hide WorkStep, SourceOk, PairingOk, SinksOk, SrcStep;
    DisconnectIs(st, s);
    DisconnectSource(st, s);
    DisconnectSinks(st, s);
    SrcStepPairing(st, WorkStep(st, s), s);
    SrcStepInv(st, WorkStep(st, s), s);
  }

  // ---- passing a message on

  lemma ExpectedGrows(handled: seq<ExData>, joined: nat, m: ExData)
    requires joined <= |handled|
    ensures Expected(handled + [m], joined) == Expected(handled, joined) + [Live(m)]
  {
    hide LastOf, Prelude;
    var all := handled + [m];
    assert all[..joined] == handled[..joined];
    assert all[joined..] == handled[joined..] + [m];
    assert Lives(all[joined..]) == Lives(handled[joined..]) + [Live(m)];
  }

  lemma NoteIs(s: Source, m: ExData)
    requires s.video == LastOf(s.handled, VideoConfig) && s.audio == LastOf(s.handled, AudioConfig)
    ensures var s1 := Note(s, m);
            && s1.handled == s.handled + [m]
            && s1.video == LastOf(s1.handled, VideoConfig) && s1.audio == LastOf(s1.handled, AudioConfig)
  {
    LastOfNext(s.handled, m, VideoConfig);
    LastOfNext(s.handled, m, AudioConfig);
    hide LastOf;
  }

  lemma LastOfNext(handled: seq<ExData>, m: ExData, kind: Kind)
    ensures LastOf(handled + [m], kind) == if m.kind == kind then Some(m.payload) else LastOf(handled, kind)
  {
    assert (handled + [m])[..|handled|] == handled;
  }

  lemma DataIs(st: State, s: SrcId)
    requires Inv(st) && Enabled(st, Work(s)) && st.sources[s].queue[0].DataMsg?
    ensures var st1, src := WorkStep(st, s), st.sources[s];
            var m := Unwrap(src.queue[0].data);
            && s in st1.sources && st1.sources == st.sources[s := st1.sources[s]] && st1.sinks.Keys == st.sinks.Keys
            && st1 == st.(sources := st1.sources, sinks := st1.sinks)
            && st1.sources[s].queue == src.queue[1..] && st1.sources[s].sinks == Keep(st.sinks, src.sinks)
            && st1.sources[s].key == src.key && st1.sources[s].phase == src.phase
            && st1.sources[s].handled == src.handled + [m]
            && st1.sources[s].video == LastOf(src.handled + [m], VideoConfig)
            && st1.sources[s].audio == LastOf(src.handled + [m], AudioConfig)
            && (forall g :: g in st.sinks && g !in src.sinks ==> st1.sinks[g] == st.sinks[g])
            && (forall g :: g in src.sinks ==>
                  g in st.sinks && st1.sinks[g] == Offer(st.sinks[g], m) && st.sinks[g].at == AtMap(s))
  {
    hide PipeOk, WaitOk, PairingOk, SinksOk, Expected, LastOf, Unwrap, QueueOk, Poisons, ReceiversOk, Offer;
    var src := st.sources[s];
    assert SourceOk(st, s);
    NoteIs(src.(queue := src.queue[1..]), Unwrap(src.queue[0].data));
  }

  lemma DataSrcStep(st: State, s: SrcId)
    requires Inv(st) && Enabled(st, Work(s)) && st.sources[s].queue[0].DataMsg?
    ensures SrcStep(st, WorkStep(st, s), s)
  {
    hide PipeOk, WaitOk, PairingOk, SinksOk, SourcesOk, ReceiversOk, LastOf, Unwrap, WorkStep, Keep;
    DataIs(st, s);
  }

  lemma DataSource(st: State, s: SrcId)
    requires Inv(st) && Enabled(st, Work(s)) && st.sources[s].queue[0].DataMsg?
    ensures SourceOk(WorkStep(st, s), s)
  {
    hide PipeOk, WaitOk, PairingOk, SinksOk, WorkStep, Expected, LastOf, Unwrap;
    var st1, src := WorkStep(st, s), st.sources[s];
    assert SourceOk(st, s);
    DataIs(st, s);
    var m := Unwrap(src.queue[0].data);
    var q, q1 := src.queue, st1.sources[s].queue;
    forall i | 0 <= i < |q1| ensures SrcMsgOk(st1, s, q1[i], AtQueue(s)) {
      assert q1[i] == q[i + 1] && SrcMsgOk(st, s, q[i + 1], AtQueue(s));
    }
    forall h | h in st1.sources[s].sinks
      ensures st1.sinks[h].log == Expected(st1.sources[s].handled, st1.sources[s].sinks[h])
    {
      ExpectedGrows(src.handled, src.sinks[h], m);
    }
  }

  lemma DataSinks(st: State, s: SrcId)
    requires Inv(st) && Enabled(st, Work(s)) && st.sources[s].queue[0].DataMsg?
    ensures SinksOk(WorkStep(st, s))
  {
    hide PipeOk, WaitOk, PairingOk, SourcesOk, WorkStep, LastOf, Unwrap;
    var st1, src := WorkStep(st, s), st.sources[s];
    DataIs(st, s);
    DataSrcStep(st, s);
    forall g | g in st1.sinks ensures SinkOk(st1, g) {
      assert SinkOk(st, g);
      if g !in src.sinks || HasRoom(st.sinks[g]) {
        if RegSink(g) in src.queue { StillQueued(src.queue, g); }
        SinkStays(st, st1, s, g);
      }
    }
  }

  lemma DataInv(st: State, s: SrcId)
    requires Inv(st) && Enabled(st, Work(s)) && st.sources[s].queue[0].DataMsg?
    ensures Inv(WorkStep(st, s))
  {
    hide WorkStep, SourceOk, PairingOk, SinksOk, SrcStep, LastOf, Unwrap;
    DataIs(st, s);
    DataSrcStep(st, s);
    DataSource(st, s);
    DataSinks(st, s);
    SrcStepPairing(st, WorkStep(st, s), s);
    SrcStepInv(st, WorkStep(st, s), s);
  }

  // ---------------------------------------------------------------- the pairing goroutine

  /** A step of the pairing goroutine: one message leaves the pipe, registrations move only between its hands, and
      no source's work changes. */
  predicate Handed(k: Sink, k1: Sink) {
    && k1.key == k.key && k1.log == k.log && k1.consumed == k.consumed
    && (k1 == k || k.at.AtPipe? || k.at.AtWaiting?)
    && (k.phase.Leaving? ==> k1.phase.Leaving?) && (k1.at.AtPipe? ==> k1 == k)
  }

  ghost predicate PairMoves(st: State, st1: State) {
    && |st.pipe| > 0 && st1.pipe == st.pipe[1..] && !st1.panicked
    && st1.sources.Keys == st.sources.Keys && st1.sinks.Keys == st.sinks.Keys
    && (forall s :: s in st.sources ==> SameWork(st.sources[s], st1.sources[s]))
    && (forall h :: h in st.sinks ==> Handed(st.sinks[h], st1.sinks[h]))
  }

  /** Only the subject of the message taken may change phase or leave the pipe. */
  ghost predicate Subject(st: State, st1: State, m: PipeMsg) {
    && (forall s :: s in st.sources && m != RegSource(s) && m != UnregSource(s) ==>
          s in st1.sources && st1.sources[s].phase == st.sources[s].phase)
    && (forall h :: h in st.sinks && m != RegSinkP(h) && st.sinks[h].at.AtPipe? ==>
          h in st1.sinks && st1.sinks[h] == st.sinks[h])
  }

  lemma PairPipe(st: State, st1: State)
    requires Inv(st) && PairMoves(st, st1) && Subject(st, st1, st.pipe[0])
    ensures PipeOk(st1)
  {
    hide WaitOk, PairingOk, SourcesOk, SinksOk, SameWork;
    forall i | 0 <= i < |st1.pipe| ensures PipeMsgOk(st1, st1.pipe[i]) {
      assert st1.pipe[i] == st.pipe[i + 1] && PipeMsgOk(st, st.pipe[i + 1]) && st.pipe[0] != st.pipe[i + 1];
      NotTwice(st, i + 1);
    }
  }

  /** A source or sink is the subject of at most one message in the pipe. */
  lemma NotTwice(st: State, j: nat)
    requires PipeOk(st) && 0 < j < |st.pipe|
    ensures match st.pipe[j]
            case RegSource(s) => st.pipe[0] != UnregSource(s) && st.pipe[0] != RegSource(s)
            case UnregSource(s) => st.pipe[0] != UnregSource(s) && st.pipe[0] != RegSource(s)
            case RegSinkP(h) => st.pipe[0] != RegSinkP(h)
            case UnregSinkP(h) => st.pipe[0] != RegSinkP(h)
  {
    assert PipeMsgOk(st, st.pipe[0]) && PipeMsgOk(st, st.pipe[j]) && st.pipe[0] != st.pipe[j];
  }

  lemma PairSources(st: State, st1: State)
    requires Inv(st) && PairMoves(st, st1) && forall s :: s in st1.sources ==> Announced(st1, s)
    ensures SourcesOk(st1)
  {
    hide WaitOk, PairingOk, PipeOk, SinksOk, SourceOk, Announced;
    forall t | t in st1.sources ensures SourceOk(st1, t) {
      assert SourceOk(st, t);
      PairKeeps(st, st1, t);
      SourceKept(st, st1, t);
    }
  }

  lemma PairKeeps(st: State, st1: State, t: SrcId)
    requires PairMoves(st, st1)
    ensures KeptFor(st, st1, t)
  {
  }

  lemma PairInv(st: State, st1: State)
    requires Inv(st) && PairMoves(st, st1) && Subject(st, st1, st.pipe[0])
    requires forall s :: s in st1.sources ==> Announced(st1, s)
    requires WaitOk(st1) && ReceiversOk(st1) && PairingOk(st1) && SinksOk(st1)
    ensures Inv(st1)
  {
    hide WaitOk, ReceiversOk, PairingOk, SinksOk, SourcesOk, PipeOk, Subject, Announced, SameWork, Handed;
    PairPipe(st, st1);
    PairSources(st, st1);
  }

  predicate Taking(st: State, m: PipeMsg) { st.pairing.Idle? && |st.pipe| > 0 && st.pipe[0] == m }

  /** A sink that stays where it is stays right when a message other than its own leaves the pipe. */
  lemma SinkWaits(st: State, st1: State, h: SinkId)
    requires h in st.sinks && SinkOk(st, h) && PairMoves(st, st1) && st1.sinks[h] == st.sinks[h]
    requires st.pairing.Idle? && (st.sinks[h].at.AtPipe? ==> st.pipe[0] != RegSinkP(h))
    requires st.sinks[h].at.AtWaiting? ==> st.sinks[h].key in st1.waiting && h in st1.waiting[st.sinks[h].key]
    ensures SinkOk(st1, h)
  {
    if st.sinks[h].at.AtPipe? {
      var i :| 0 <= i < |st.pipe| && st.pipe[i] == RegSinkP(h);
      assert st1.pipe[i - 1] == st.pipe[i];
    }
  }

  // ---- a source registers

  /** The new state, field by field. */
  lemma RegisterSourceIs(st: State, s: SrcId)
    requires Inv(st) && Taking(st, RegSource(s))
    ensures s in st.sources && st.sources[s].phase.Requested?
    ensures var st1, src := PairStep(st), st.sources[s];
            && st1.pipe == st.pipe[1..] && !st1.panicked
            && (src.key in st.receivers ==>
                  && st1.receivers == st.receivers && st1.waiting == st.waiting && st1.pairing.Idle?
                  && st1.sinks == st.sinks && st1.sources == st.sources[s := src.(phase := Rejected)])
            && (src.key !in st.receivers ==>
                  && st1.receivers == st.receivers[src.key := s] && st1.waiting == st.waiting - {src.key}
                  && st1.sources == st.sources[s := src.(phase := Accepted, running := true)])
  {
    hide PairingOk, SourcesOk, SinksOk, ReceiversOk, WaitOk;
    hide HandleUnregisterSource, HandleRegisterSink, HandleUnregisterSink;
    assert PipeMsgOk(st, st.pipe[0]);
    assert st.sources[s].key !in st.waiting ==> st.waiting - {st.sources[s].key} == st.waiting;
  }

  lemma RegisterSourceWaiters(st: State, s: SrcId)
    requires Inv(st) && Taking(st, RegSource(s)) && s in st.sources && st.sources[s].key !in st.receivers
    ensures var st1, key := PairStep(st), st.sources[s].key;
            var hs := if key in st.waiting then st.waiting[key] else {};
            && st1.sinks.Keys == st.sinks.Keys
            && (forall h :: h in st.sinks && h !in hs ==> st1.sinks[h] == st.sinks[h])
            && (forall h :: h in hs ==>
                  && h in st.sinks && st.sinks[h].at.AtWaiting? && st.sinks[h].key == key
                  && st1.sinks[h] == st.sinks[h].(at := AtSending))
            && (if hs == {} then st1.pairing.Idle?
                else st1.pairing == Sending(s, set h | h in hs :: RegSink(h)))
  {
    hide PairingOk, SourcesOk, SinksOk, ReceiversOk, PipeOk;
    hide HandleUnregisterSource, HandleRegisterSink, HandleUnregisterSink;
  }

  lemma RegisterSourceMoves(st: State, s: SrcId)
    requires Inv(st) && Taking(st, RegSource(s))
    ensures PairMoves(st, PairStep(st)) && Subject(st, PairStep(st), RegSource(s))
  {
    hide PairingOk, SourcesOk, SinksOk, ReceiversOk, PairStep, PipeOk, WaitOk;
    RegisterSourceIs(st, s);
    if st.sources[s].key !in st.receivers { RegisterSourceWaiters(st, s); }
  }

  lemma RegisterSourceAnnounced(st: State, s: SrcId)
    requires Inv(st) && Taking(st, RegSource(s))
    ensures var st1 := PairStep(st);
            ReceiversOk(st1) && WaitOk(st1) && forall t :: t in st1.sources ==> Announced(st1, t)
  {
    hide PairingOk, SinksOk, QueueOk, MapOk, LastOf, PairStep, PipeOk;
    RegisterSourceIs(st, s);
    if st.sources[s].key !in st.receivers { RegisterSourceWaiters(st, s); }
    var st1 := PairStep(st);
    forall t | t in st1.sources ensures Announced(st1, t) { assert SourceOk(st, t); }
    forall k | k in st1.waiting
      ensures forall h :: h in st1.waiting[k] ==> SinkIs(st1, h, AtWaiting) && st1.sinks[h].key == k
    {
      assert k in st.waiting && (k != st.sources[s].key || st1.waiting == st.waiting);
    }
  }

  lemma RegisterSourcePairing(st: State, s: SrcId)
    requires Inv(st) && Taking(st, RegSource(s))
    ensures PairingOk(PairStep(st))
  {
    hide SourcesOk, SinksOk, ReceiversOk, PairStep, PipeOk, WaitOk;
    RegisterSourceIs(st, s);
    var st1 := PairStep(st);
    if st1.pairing.Sending? {
      RegisterSourceWaiters(st, s);
      var h :| h in st.waiting[st.sources[s].key];
      assert RegSink(h) in st1.pairing.todo;
    }
  }

  lemma RegisterSourceSinks(st: State, s: SrcId)
    requires Inv(st) && Taking(st, RegSource(s))
    ensures SinksOk(PairStep(st))
  {
    hide PairingOk, SourcesOk, ReceiversOk, PairMoves, PairStep, PipeOk, WaitOk, Subject;
    RegisterSourceMoves(st, s);
    RegisterSourceIs(st, s);
    var st1 := PairStep(st);
    if st.sources[s].key !in st.receivers { RegisterSourceWaiters(st, s); }
    forall h | h in st1.sinks ensures SinkOk(st1, h) {
      assert SinkOk(st, h);
      if st1.sinks[h] == st.sinks[h] { SinkWaits(st, st1, h); }
    }
  }

  lemma RegisterSourceInv(st: State, s: SrcId)
    requires Inv(st) && Taking(st, RegSource(s))
    ensures Inv(PairStep(st))
  {
    hide PairStep, Subject, PairMoves, PairingOk, WaitOk, ReceiversOk, SinksOk, Announced;
    RegisterSourceMoves(st, s);
    RegisterSourceAnnounced(st, s);
    RegisterSourcePairing(st, s);
    RegisterSourceSinks(st, s);
    PairInv(st, PairStep(st));
  }

  // ---- a source unregisters

  lemma UnregisterSourceIs(st: State, s: SrcId)
    requires Inv(st) && Taking(st, UnregSource(s))
    ensures s in st.sources && st.sources[s].phase.Departing?
    ensures var st1, src := PairStep(st), st.sources[s];
            && src.key in st.receivers && st.receivers[src.key] == s
            && st1.pipe == st.pipe[1..] && !st1.panicked && st1.pairing.Idle? && st1.sinks == st.sinks
            && st1.waiting == st.waiting && st1.receivers == st.receivers - {src.key}
            && st1.sources == st.sources[s := src.(phase := Departed)]
  {
    hide PairingOk, SinksOk, ReceiversOk, WaitOk, QueueOk, MapOk, LastOf;
    hide HandleRegisterSource, HandleRegisterSink, HandleUnregisterSink;
    assert PipeMsgOk(st, st.pipe[0]);
    assert SourceOk(st, s);
  }

  lemma UnregisterSourceMoves(st: State, s: SrcId)
    requires Inv(st) && Taking(st, UnregSource(s))
    ensures var st1 := PairStep(st);
            && PairMoves(st, st1) && Subject(st, st1, UnregSource(s)) && st1.pairing.Idle?
            && st1.sinks == st.sinks && st1.waiting == st.waiting
            && (forall t :: t in st1.sources ==> Announced(st1, t))
            && WaitOk(st1) && ReceiversOk(st1)
  {
    hide PairingOk, SinksOk, QueueOk, MapOk, LastOf, PairStep, PipeOk;
    UnregisterSourceIs(st, s);
    var st1 := PairStep(st);
    forall t | t in st1.sources ensures Announced(st1, t) { assert SourceOk(st, t); }
  }

  lemma UnregisterSourceInv(st: State, s: SrcId)
    requires Inv(st) && Taking(st, UnregSource(s))
    ensures Inv(PairStep(st))
  {
    hide PairStep, Subject, PairMoves, WaitOk, ReceiversOk, Announced, SinkOk;
    UnregisterSourceMoves(st, s);
    var st1 := PairStep(st);
    assert st1.sinks.Keys == st.sinks.Keys;
    forall h | h in st1.sinks ensures SinkOk(st1, h) {
      assert SinkOk(st, h);
      SinkUntouched(st, st1, h);
    }
    PairInv(st, st1);
  }

  lemma SinkUntouched(st: State, st1: State, h: SinkId)
    requires h in st.sinks && SinkOk(st, h) && PairMoves(st, st1) && st1.sinks == st.sinks && st1.waiting == st.waiting
    requires st.pairing.Idle? && !st.pipe[0].RegSinkP?
    ensures SinkOk(st1, h)
  {
    hide PairMoves;
    SinkWaits(st, st1, h);
  }

  // ---- a sink registers

  lemma RegisterSinkIs(st: State, h: SinkId)
    requires Inv(st) && Taking(st, RegSinkP(h))
    ensures h in st.sinks && st.sinks[h].at.AtPipe? && st.sinks[h].phase.Asked?
    ensures var st1, k := PairStep(st), st.sinks[h];
            && st1.pipe == st.pipe[1..] && !st1.panicked && st1.sources == st.sources && st1.receivers == st.receivers
            && (k.key in st.receivers ==>
                  && st1.sinks == st.sinks[h := k.(phase := Registered, at := AtSending)]
                  && st1.pairing == Sending(st.receivers[k.key], {RegSink(h)}) && st1.waiting == st.waiting)
            && (k.key !in st.receivers ==>
                  && st1.sinks == st.sinks[h := k.(phase := Registered, at := AtWaiting)] && st1.pairing.Idle?
                  && k.key in st1.waiting && st1.waiting == st.waiting[k.key := st1.waiting[k.key]]
                  && st1.waiting[k.key] == (if k.key in st.waiting then st.waiting[k.key] else {}) + {h})
  {
    hide PairingOk, SourcesOk, ReceiversOk, HandleRegisterSource, HandleUnregisterSource, HandleUnregisterSink;
    assert PipeMsgOk(st, st.pipe[0]);
    assert SinkOk(st, h);
  }

  lemma RegisterSinkMoves(st: State, h: SinkId)
    requires Inv(st) && Taking(st, RegSinkP(h))
    ensures PairMoves(st, PairStep(st)) && Subject(st, PairStep(st), RegSinkP(h))
  {
    hide PairingOk, SourcesOk, SinksOk, ReceiversOk, PairStep, PipeOk, WaitOk;
    RegisterSinkIs(st, h);
  }

  lemma RegisterSinkPool(st: State, h: SinkId)
    requires Inv(st) && Taking(st, RegSinkP(h))
    ensures var st1 := PairStep(st);
            && WaitOk(st1) && ReceiversOk(st1) && PairingOk(st1)
            && forall t :: t in st1.sources ==> Announced(st1, t)
  {
    hide SinksOk, QueueOk, MapOk, LastOf, PairStep, PipeOk;
    RegisterSinkIs(st, h);
    var st1 := PairStep(st);
    forall k | k in st1.waiting
      ensures forall g :: g in st1.waiting[k] ==> SinkIs(st1, g, AtWaiting) && st1.sinks[g].key == k
    {
      assert k in st.waiting || k == st.sinks[h].key;
    }
    forall t | t in st1.sources ensures Announced(st1, t) { assert SourceOk(st, t); }
  }

  lemma RegisterSinkSinks(st: State, h: SinkId)
    requires Inv(st) && Taking(st, RegSinkP(h))
    ensures SinksOk(PairStep(st))
  {
    hide PairingOk, SourcesOk, ReceiversOk, PairMoves, PairStep, PipeOk, WaitOk, Subject;
    RegisterSinkMoves(st, h);
    RegisterSinkIs(st, h);
    var st1 := PairStep(st);
    assert SinkOk(st, h);
    forall g | g in st1.sinks ensures SinkOk(st1, g) {
      assert SinkOk(st, g);
      if g != h { SinkWaits(st, st1, g); }
    }
  }

  lemma RegisterSinkInv(st: State, h: SinkId)
    requires Inv(st) && Taking(st, RegSinkP(h))
    ensures Inv(PairStep(st))
  {
    hide PairStep, Subject, PairMoves, PairingOk, WaitOk, ReceiversOk, SinksOk, Announced;
    RegisterSinkMoves(st, h);
    RegisterSinkPool(st, h);
    RegisterSinkSinks(st, h);
    PairInv(st, PairStep(st));
  }

  // ---- a sink unregisters

  lemma UnregisterSinkIs(st: State, h: SinkId)
    requires Inv(st) && Taking(st, UnregSinkP(h))
    ensures h in st.sinks && st.sinks[h].phase.Leaving? && !st.sinks[h].at.AtPipe? && !st.sinks[h].at.AtSending?
    ensures st.sinks[h].at.AtWaiting? ==> st.sinks[h].key in st.waiting && st.sinks[h].key !in st.receivers
    ensures var st1, k := PairStep(st), st.sinks[h];
            && st1.pipe == st.pipe[1..] && !st1.panicked && st1.sources == st.sources && st1.receivers == st.receivers
            && (k.key in st.receivers ==>
                  && st1.sinks == st.sinks && st1.waiting == st.waiting
                  && st1.pairing == Sending(st.receivers[k.key], {UnregSink(h)}))
            && (k.key !in st.receivers ==>
                  && st1.pairing.Idle?
                  && st1.sinks == st.sinks[h := if k.at.AtWaiting? then k.(at := Gone) else k])
  {
    hide PairingOk, SourcesOk, ReceiversOk, HandleRegisterSource, HandleUnregisterSource, HandleRegisterSink;
    assert PipeMsgOk(st, st.pipe[0]);
    assert SinkOk(st, h);
    assert st.sinks[h := st.sinks[h]] == st.sinks;
  }

  lemma UnregisterSinkList(st: State, h: SinkId)
    requires Inv(st) && Taking(st, UnregSinkP(h)) && h in st.sinks && st.sinks[h].key !in st.receivers
    ensures var st1, key := PairStep(st), st.sinks[h].key;
            && (forall k :: k in st1.waiting ==> k in st.waiting && st1.waiting[k] != {})
            && (forall k :: k in st.waiting && k != key ==> k in st1.waiting && st1.waiting[k] == st.waiting[k])
            && (key in st1.waiting ==> st1.waiting[key] == st.waiting[key] - {h})
            && (key in st.waiting && key !in st1.waiting ==> st.waiting[key] <= {h})
  {
    hide PairingOk, SourcesOk, ReceiversOk, SinksOk, PipeOk;
    hide HandleRegisterSource, HandleUnregisterSource, HandleRegisterSink;
  }

  lemma UnregisterSinkMoves(st: State, h: SinkId)
    requires Inv(st) && Taking(st, UnregSinkP(h))
    ensures PairMoves(st, PairStep(st)) && Subject(st, PairStep(st), UnregSinkP(h))
  {
    hide PairingOk, SourcesOk, SinksOk, ReceiversOk, PairStep, PipeOk, WaitOk;
    UnregisterSinkIs(st, h);
  }

  lemma UnregisterSinkPool(st: State, h: SinkId)
    requires Inv(st) && Taking(st, UnregSinkP(h))
    ensures var st1 := PairStep(st);
            && WaitOk(st1) && ReceiversOk(st1) && PairingOk(st1)
            && forall t :: t in st1.sources ==> Announced(st1, t)
  {
    hide SinksOk, QueueOk, MapOk, LastOf, PairStep, PipeOk;
    UnregisterSinkIs(st, h);
    if st.sinks[h].key !in st.receivers { UnregisterSinkList(st, h); }
    var st1 := PairStep(st);
    forall t | t in st1.sources ensures Announced(st1, t) { assert SourceOk(st, t); }
  }

  lemma UnregisterSinkSinks(st: State, h: SinkId)
    requires Inv(st) && Taking(st, UnregSinkP(h))
    ensures SinksOk(PairStep(st))
  {
    hide PairingOk, SourcesOk, ReceiversOk, PairMoves, PairStep, PipeOk, WaitOk, Subject;
    UnregisterSinkMoves(st, h);
    UnregisterSinkIs(st, h);
    if st.sinks[h].key !in st.receivers { UnregisterSinkList(st, h); }
    var st1 := PairStep(st);
    forall g | g in st1.sinks ensures SinkOk(st1, g) {
      assert SinkOk(st, g);
      if st1.sinks[g] == st.sinks[g] { SinkWaits(st, st1, g); }
    }
  }

  lemma UnregisterSinkInv(st: State, h: SinkId)
    requires Inv(st) && Taking(st, UnregSinkP(h))
    ensures Inv(PairStep(st))
  {
    hide PairStep, Subject, PairMoves, PairingOk, WaitOk, ReceiversOk, SinksOk, Announced;
    UnregisterSinkMoves(st, h);
    UnregisterSinkPool(st, h);
    UnregisterSinkSinks(st, h);
    PairInv(st, PairStep(st));
  }

  // ---------------------------------------------------------------- every step, every run

  lemma StepInv(st: State, a: Action)
    requires Inv(st) && Enabled(st, a)
    ensures Inv(Step(st, a))
  {
    hide Inv, PairStep, ForwardStep, WorkStep, Note, Unwrap, OfferAll, Keep, CancelAll;
    if Quiet(a) {
      QuietInv(st, a);
    } else if a.Pair? {
      match st.pipe[0]
      case RegSource(s) => RegisterSourceInv(st, s);
      case UnregSource(s) => UnregisterSourceInv(st, s);
      case RegSinkP(h) => RegisterSinkInv(st, h);
      case UnregSinkP(h) => UnregisterSinkInv(st, h);
    } else if a.Forward? {
      ForwardInv(st, a.msg);
    } else {
      match st.sources[a.src].queue[0]
      case RegSink(_) => ConnectInv(st, a.src);
      case UnregSink(_) => DisconnectInv(st, a.src);
      case DataMsg(_) => DataInv(st, a.src);
    }
  }

  lemma {:induction false} RunInv(st: State, acts: seq<Action>)
    requires Inv(st) && CanRun(st, acts)
    ensures Inv(Run(st, acts))
    decreases |acts|
  {
    hide Inv, Step, Enabled;
    if |acts| > 0 {
      StepInv(st, acts[0]);
      RunInv(Step(st, acts[0]), acts[1..]);
    }
  }

  lemma Calm(st: State)
    requires Inv(st)
    ensures !st.panicked
  {
  }
}
