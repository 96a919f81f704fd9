/** When the pairing goroutine can go on. It puts registrations in a source's queue with a blocking send, and a source
    whose goroutine has quit no longer takes anything out. */
module ExchangeStuck {
  import opened ByteIO
  import opened Exchange
  import opened ExchangeSafety
  import opened ExchangeLaws

  // ---------------------------------------------------------------- runs put together

  lemma {:induction false} RunThen(st: State, a: seq<Action>, b: seq<Action>)
    requires CanRun(st, a) && CanRun(Run(st, a), b)
    ensures CanRun(st, a + b) && Run(st, a + b) == Run(Run(st, a), b)
    decreases |a|
  {
    hide Step, Enabled;
    if |a| == 0 {
      assert a + b == b;
    } else {
      assert (a + b)[0] == a[0] && (a + b)[1..] == a[1..] + b;
      RunThen(Step(st, a[0]), a[1..], b);
    }
  }

  lemma RunOne(st: State, a: Action)
    requires Enabled(st, a)
    ensures CanRun(st, [a]) && Run(st, [a]) == Step(st, a)
  {
    hide Step, Enabled;
    assert [a][1..] == [];
    assert CanRun(Step(st, a), []) && Run(Step(st, a), []) == Step(st, a);
  }

  // ---------------------------------------------------------------- stuck

  /** The source being sent to, as long as there is one. */
  predicate Serving(st: State, s: SrcId) { st.pairing.Sending? && st.pairing.src == s && s in st.sources }

  /** A queue nobody takes from has less room than there is to put in it. */
  predicate Doomed(st: State, s: SrcId) {
    Serving(st, s) && !st.sources[s].running && |st.sources[s].queue| + |st.pairing.todo| > SOURCE_CAP
  }

  lemma WorkElsewhere(st: State, t: SrcId, s: SrcId)
    requires Enabled(st, Work(t)) && s != t && s in st.sources
    ensures var st1 := WorkStep(st, t);
            && s in st1.sources && st1.sources[s] == st.sources[s] && st1.pairing == st.pairing
            && st1.receivers == st.receivers && st1.waiting == st.waiting
  {
    hide Note, Unwrap, OfferAll, Keep, Prelude, Poisons;
  }

  /** A step past a source that has quit: its queue only grows, and only a forward changes the pairing goroutine. */
  lemma QuietSource(st: State, a: Action, s: SrcId)
    requires Serving(st, s) && !st.sources[s].running && Enabled(st, a)
    ensures var st1 := Step(st, a);
            && s in st1.sources && !st1.sources[s].running && |st1.sources[s].queue| >= |st.sources[s].queue|
            && st1.receivers == st.receivers && st1.waiting == st.waiting
            && (!a.Forward? ==> st1.pairing == st.pairing)
            && (a.Forward? ==>
                  var todo := st.pairing.todo - {a.msg};
                  && a.msg in st.pairing.todo && |st.sources[s].queue| < SOURCE_CAP
                  && |st1.sources[s].queue| == |st.sources[s].queue| + 1
                  && st1.pairing == if todo == {} then Idle else Sending(s, todo))
  {
    hide WorkStep, PairStep, CancelAll;
    if a.Work? { WorkElsewhere(st, a.src, s); }
  }

  lemma DoomedStep(st: State, a: Action, s: SrcId)
    requires Doomed(st, s) && Enabled(st, a)
    ensures var st1 := Step(st, a); Doomed(st1, s) && st1.receivers == st.receivers && st1.waiting == st.waiting
    ensures |Step(st, a).sources[s].queue| >= |st.sources[s].queue|
    ensures |st.sources[s].queue| >= SOURCE_CAP ==> Step(st, a).pairing == st.pairing
  {
    hide Step, Enabled;
    QuietSource(st, a, s);
    if a.Forward? { Fewer(st.pairing.todo, a.msg); }
  }

  lemma Fewer<T>(s: set<T>, x: T)
    requires x in s
    ensures |s - {x}| == |s| - 1
  {
    assert s == (s - {x}) + {x};
  }

  /** Once there is no room for it all, the pairing goroutine is never idle again: no later source or sink is ever
      paired, in any run. */
  lemma {:induction false} DoomedForGood(st: State, acts: seq<Action>, s: SrcId)
    requires Doomed(st, s) && CanRun(st, acts)
    ensures var st1 := Run(st, acts); Doomed(st1, s) && st1.receivers == st.receivers && st1.waiting == st.waiting
    ensures |st.sources[s].queue| >= SOURCE_CAP ==> Run(st, acts).pairing == st.pairing
    decreases |acts|
  {
    hide Step, Enabled;
    if |acts| > 0 {
      DoomedStep(st, acts[0], s);
      DoomedForGood(Step(st, acts[0]), acts[1..], s);
    }
  }

  // ---------------------------------------------------------------- not stuck

  /** One message less to send: a full queue first loses one to its source's goroutine. */
  lemma SendOne(st: State, s: SrcId) returns (acts: seq<Action>)
    requires Inv(st) && Serving(st, s) && (st.sources[s].running || |st.sources[s].queue| < SOURCE_CAP)
    ensures CanRun(st, acts)
    ensures var st1 := Run(st, acts);
            && Inv(st1) && s in st1.sources && st1.sources[s].running == st.sources[s].running
            && (st1.pairing.Idle? || (Serving(st1, s) && |st1.pairing.todo| == |st.pairing.todo| - 1))
            && (!st.sources[s].running ==> |st1.sources[s].queue| == |st.sources[s].queue| + 1)
  {
    hide Inv, CanRun, Run;
    if |st.sources[s].queue| < SOURCE_CAP {
      acts := ForwardOne(st, s);
    } else {
      var room := MakeRoom(st, s);
      var more := ForwardOne(Run(st, room), s);
      RunThen(st, room, more);
      acts := room + more;
    }
  }

  /** A running source takes messages out of its queue. */
  lemma MakeRoom(st: State, s: SrcId) returns (acts: seq<Action>)
    requires Inv(st) && Serving(st, s) && st.sources[s].running
    ensures CanRun(st, acts)
    ensures var st1 := Run(st, acts);
            && Inv(st1) && Serving(st1, s) && st1.pairing == st.pairing && st1.sources[s].running
            && |st1.sources[s].queue| < SOURCE_CAP
    decreases |st.sources[s].queue|
  {
    hide Inv;
    if |st.sources[s].queue| < SOURCE_CAP {
      acts := [];
    } else {
      WorkNext(st, s);
      hide Step, Enabled, CanRun, Run;
      RunOne(st, Work(s));
      var more := MakeRoom(Step(st, Work(s)), s);
      RunThen(st, [Work(s)], more);
      acts := [Work(s)] + more;
    }
  }

  lemma WorkNext(st: State, s: SrcId)
    requires Inv(st) && Serving(st, s) && st.sources[s].running && |st.sources[s].queue| > 0
    ensures Enabled(st, Work(s))
    ensures var st1 := Step(st, Work(s));
            && Inv(st1) && Serving(st1, s) && st1.pairing == st.pairing && st1.sources[s].running
            && |st1.sources[s].queue| == |st.sources[s].queue| - 1
  {
    hide Inv, WorkStep, PairStep, ForwardStep, CancelAll;
    Calm(st);
    StepInv(st, Work(s));
    Calm(Step(st, Work(s)));
    WorkTakesOne(st, s);
  }

  lemma WorkTakesOne(st: State, s: SrcId)
    requires Enabled(st, Work(s)) && !WorkStep(st, s).panicked
    ensures var st1 := WorkStep(st, s);
            && st1.pairing == st.pairing && s in st1.sources && st1.sources[s].running
            && |st1.sources[s].queue| == |st.sources[s].queue| - 1
  {
    hide Unwrap, OfferAll, Keep, Prelude, Poisons, Note;
    var src := st.sources[s].(queue := st.sources[s].queue[1..]);
    if st.sources[s].queue[0].DataMsg? { NoteKeeps(src, Unwrap(st.sources[s].queue[0].data)); }
  }

  lemma NoteKeeps(src: Source, m: ExData)
    ensures Note(src, m).queue == src.queue && Note(src, m).running == src.running
  {
  }

  lemma ForwardOne(st: State, s: SrcId) returns (acts: seq<Action>)
    requires Inv(st) && Serving(st, s) && |st.sources[s].queue| < SOURCE_CAP
    ensures CanRun(st, acts)
    ensures var st1 := Run(st, acts);
            && Inv(st1) && s in st1.sources && st1.sources[s].running == st.sources[s].running
            && (st1.pairing.Idle? || (Serving(st1, s) && |st1.pairing.todo| == |st.pairing.todo| - 1))
            && |st1.sources[s].queue| == |st.sources[s].queue| + 1
  {
    NothingEmpty(st);
    Calm(st);
    hide Inv;
    var m :| m in st.pairing.todo;
    assert Enabled(st, Forward(m));
    StepInv(st, Forward(m));
    Fewer(st.pairing.todo, m);
    ForwardSends(st, m);
    hide Step, Enabled;
    RunOne(st, Forward(m));
    acts := [Forward(m)];
  }

  lemma ForwardSends(st: State, m: SrcMsg)
    requires Enabled(st, Forward(m))
    ensures var st1, s, todo := Step(st, Forward(m)), st.pairing.src, st.pairing.todo - {m};
            && s in st1.sources && st1.sources[s].running == st.sources[s].running
            && |st1.sources[s].queue| == |st.sources[s].queue| + 1
            && st1.pairing == if todo == {} then Idle else Sending(s, todo)
  {
  }

  /** All of it. */
  lemma SendAll(st: State, s: SrcId) returns (acts: seq<Action>)
    requires Inv(st) && Serving(st, s)
    requires st.sources[s].running || |st.sources[s].queue| + |st.pairing.todo| <= SOURCE_CAP
    ensures CanRun(st, acts) && Run(st, acts).pairing.Idle?
    decreases |st.pairing.todo|
  {
    NothingEmpty(st);
    hide Inv, CanRun, Run;
    acts := SendOne(st, s);
    var st1 := Run(st, acts);
    if !st1.pairing.Idle? {
      var more := SendAll(st1, s);
      RunThen(st, acts, more);
      acts := acts + more;
    }
  }

  lemma NothingEmpty(st: State)
    requires Inv(st) && st.pairing.Sending?
    ensures st.pairing.src in st.sources && |st.pairing.todo| > 0
  {
  }

  /** The pairing goroutine, when it has something to send, can be idle again in some run exactly when its source still
      runs or the source's queue has room for all of it. */
  lemma IdleAgainIff(st: State)
    requires Inv(st) && st.pairing.Sending?
    ensures st.pairing.src in st.sources
    ensures (exists acts :: CanRun(st, acts) && Run(st, acts).pairing.Idle?)
            <==> var src := st.sources[st.pairing.src];
                 src.running || |src.queue| + |st.pairing.todo| <= SOURCE_CAP
  {
    NothingEmpty(st);
    hide Inv, CanRun, Run;
    var s := st.pairing.src;
    if st.sources[s].running || |st.sources[s].queue| + |st.pairing.todo| <= SOURCE_CAP {
      var acts := SendAll(st, s);
    } else {
      forall acts | CanRun(st, acts)
        ensures !Run(st, acts).pairing.Idle?
      {
        DoomedForGood(st, acts, s);
      }
    }
  }

  /** It can make any progress at all exactly when its source still runs or the queue has room for one. */
  lemma ProceedsIff(st: State)
    requires Inv(st) && st.pairing.Sending?
    ensures st.pairing.src in st.sources
    ensures (exists acts :: CanRun(st, acts) && Run(st, acts).pairing != st.pairing)
            <==> var src := st.sources[st.pairing.src]; src.running || |src.queue| < SOURCE_CAP
  {
    NothingEmpty(st);
    hide Inv, CanRun, Run;
    var s := st.pairing.src;
    if st.sources[s].running || |st.sources[s].queue| < SOURCE_CAP {
      var acts := SendOne(st, s);
      assert Run(st, acts).pairing != st.pairing;
    } else {
      forall acts | CanRun(st, acts)
        ensures Run(st, acts).pairing == st.pairing
      {
        DoomedForGood(st, acts, s);
      }
    }
  }

  // ---------------------------------------------------------------- a run that gets stuck

  function Puts(d: ExData, n: nat): seq<Action> { seq(n, i => Put(0, d)) }

  /** A source is accepted, its queue is filled, its goroutine quits, and then a sink asks for its key. */
  function StuckRun(key: Key, d: ExData): seq<Action> {
    [AskSource(0, key), Pair] + (Puts(d, SOURCE_CAP) + [Quit(0), AskSink(0, key), Pair])
  }

  /** Source 0, accepted and running, with n messages in its queue and nothing else going on. */
  predicate Filling(st: State, key: Key, n: nat) {
    && st.pipe == [] && st.pairing.Idle? && st.receivers == map[key := 0] && !st.panicked && st.sinks == map[]
    && 0 in st.sources && st.sources[0].key == key && st.sources[0].phase.Accepted? && st.sources[0].running
    && !st.sources[0].poisoned && |st.sources[0].queue| == n
  }

  lemma Starts(key: Key)
    ensures CanRun(INIT, [AskSource(0, key), Pair]) && Filling(Run(INIT, [AskSource(0, key), Pair]), key, 0)
  {
    var st := Step(INIT, AskSource(0, key));
    assert Enabled(INIT, AskSource(0, key)) && st.pipe == [RegSource(0)];
    RunOne(INIT, AskSource(0, key));
    RunOne(st, Pair);
    assert Filling(Step(st, Pair), key, 0);
    hide Step, Enabled;
    RunThen(INIT, [AskSource(0, key)], [Pair]);
    assert [AskSource(0, key)] + [Pair] == [AskSource(0, key), Pair];
  }

  lemma {:induction false} Fills(st: State, key: Key, d: ExData, n: nat, more: nat)
    requires Filling(st, key, n) && n + more <= SOURCE_CAP
    ensures CanRun(st, Puts(d, more)) && Filling(Run(st, Puts(d, more)), key, n + more)
    decreases more
  {
    if more > 0 {
      assert Puts(d, more)[1..] == Puts(d, more - 1);
      assert Enabled(st, Put(0, d)) && Filling(Step(st, Put(0, d)), key, n + 1);
      hide Step, Enabled, Filling;
      Fills(Step(st, Put(0, d)), key, d, n + 1, more - 1);
    }
  }

  lemma Sticks(st: State, key: Key)
    requires Filling(st, key, SOURCE_CAP)
    ensures var acts := [Quit(0), AskSink(0, key), Pair];
            && CanRun(st, acts) && Doomed(Run(st, acts), 0) && |Run(st, acts).sources[0].queue| == SOURCE_CAP
            && Run(st, acts).pairing == Sending(0, {RegSink(0)})
  {
    var st1 := Step(st, Quit(0));
    var st2 := Step(st1, AskSink(0, key));
    assert st2.pipe == [RegSinkP(0)];
    var st3 := Step(st2, Pair);
    assert Doomed(st3, 0) && |st3.sources[0].queue| == SOURCE_CAP;
    RunOne(st, Quit(0));
    RunOne(st1, AskSink(0, key));
    RunOne(st2, Pair);
    hide Step, Enabled;
    RunThen(st1, [AskSink(0, key)], [Pair]);
    RunThen(st, [Quit(0)], [AskSink(0, key)] + [Pair]);
    assert [Quit(0)] + ([AskSink(0, key)] + [Pair]) == [Quit(0), AskSink(0, key), Pair];
  }

  /** That run is possible, and from its end on the pairing goroutine is blocked in every run. */
  lemma StuckRunSticks(key: Key, d: ExData, acts: seq<Action>)
    ensures CanRun(INIT, StuckRun(key, d)) && Run(INIT, StuckRun(key, d)).pairing == Sending(0, {RegSink(0)})
    ensures CanRun(Run(INIT, StuckRun(key, d)), acts) ==>
              Run(Run(INIT, StuckRun(key, d)), acts).pairing == Sending(0, {RegSink(0)})
  {
    hide Step, Enabled, Filling;
    var a, b, c := [AskSource(0, key), Pair], Puts(d, SOURCE_CAP), [Quit(0), AskSink(0, key), Pair];
    Starts(key);
    var st1 := Run(INIT, a);
    Fills(st1, key, d, 0, SOURCE_CAP);
    var st2 := Run(st1, b);
    Sticks(st2, key);
    RunThen(st1, b, c);
    RunThen(INIT, a, b + c);
    var st := Run(INIT, StuckRun(key, d));
    if CanRun(st, acts) { DoomedForGood(st, acts, 0); }
  }
}
