/** The handlers of exchange/expair.go as the program runs them, with the loops over Go maps in arbitrary order, each
    proved to do what the transition system says. */
module ExchangeObjects {
  import opened ByteIO
  import opened Exchange
  import P = ExchangePassing

  /** A source's goroutine state, and the sinks it can reach. */
  class SourceObject {
    var reach: map<SinkId, Sink>
    var sinks: map<SinkId, nat>
    var video: Option<Bytes>
    var audio: Option<Bytes>
    var poisoned: bool
    var handled: seq<ExData>

    ghost predicate Valid()
      reads this
    {
      sinks.Keys <= reach.Keys
    }

    constructor ()
      ensures Valid() && sinks == map[] && video == None && audio == None && !poisoned && handled == []
    {
      reach, sinks, video, audio, poisoned, handled := map[], map[], None, None, false, [];
    }

    /** Every connected sink is offered the message once; those whose channel is full are cancelled and deleted from
        the map while it is being ranged over. */
    method WriteData(m: ExData)
      requires Valid()
      modifies this`reach, this`sinks
      ensures Valid()
      ensures reach == OfferAll(old(reach), old(sinks), m)
      ensures sinks == Keep(old(reach), old(sinks))
    {
      hide Offer, HasRoom;
      var todo := sinks.Keys;
      while todo != {}
        invariant todo <= old(sinks).Keys && reach.Keys == old(reach).Keys
        invariant forall h :: h in reach ==>
                    reach[h] == if h in old(sinks) && h !in todo then Offer(old(reach)[h], m) else old(reach)[h]
        invariant forall h :: h in sinks <==> h in old(sinks) && (h in todo || HasRoom(old(reach)[h]))
        invariant forall h :: h in sinks ==> sinks[h] == old(sinks)[h]
      {
        var h :| h in todo;
        todo := todo - {h};
        OfferTo(h, m);
      }
    }

    method OfferTo(h: SinkId, m: ExData)
      requires h in reach
      modifies this`reach, this`sinks
      ensures reach == old(reach)[h := Offer(old(reach)[h], m)]
      ensures sinks == if HasRoom(old(reach)[h]) then old(sinks) else old(sinks) - {h}
    {
      var k, ok := OfferOne(reach[h], m);
      reach := reach[h := k];
      if !ok {
        sinks := sinks - {h};
      }
    }

    /** One sink's turn: a non-blocking put, and cancellation when its channel is full. */
    static method OfferOne(sink: Sink, m: ExData) returns (k: Sink, ok: bool)
      ensures k == Offer(sink, m) && ok == HasRoom(sink)
    {
      if |sink.log| - sink.consumed < SINK_CAP {
        k, ok := sink.(log := sink.log + [Live(m)]), true;
      } else {
        k, ok := sink.(cancelled := true, at := Gone), false;
      }
    }

    method HandleRtmpMessage(data: ExData)
      requires Valid()
      modifies this
      ensures Valid()
      ensures reach == OfferAll(old(reach), old(sinks), Unwrap(data)) && sinks == Keep(old(reach), old(sinks))
      ensures poisoned == (old(poisoned) || Poisons(data))
      ensures var s := Source("", Accepted, true, false, [], map[], old(video), old(audio), old(handled));
              var s1 := Note(s, Unwrap(data));
              video == s1.video && audio == s1.audio && handled == s1.handled
      ensures |handled| == |old(handled)| + 1 && P.PassesOn(data, handled[|old(handled)|])
    {
      P.UnwrapPasses(data);
      hide P.PassesOn;
      var m := data;
      match data.kind {
        case AudioConfig => audio := Some(m.payload);
        case VideoConfig => video := Some(m.payload);
        case DataAmf0 | DataAmf3 =>
          poisoned := poisoned || Poisons(m);
          m := Unwrap(m);
        case _ =>
      }
      WriteData(m);
      handled := handled + [m];
    }

    /** False when the sink is already connected, where the program panics. */
    method ConnectSink(s: SrcId, h: SinkId) returns (ok: bool)
      requires Valid() && h in reach
      modifies this`reach, this`sinks
      ensures Valid() && ok == (h !in old(sinks))
      ensures !ok ==> reach == old(reach) && sinks == old(sinks)
      ensures ok ==> sinks == old(sinks)[h := |handled|]
                     && var k := old(reach)[h];
                     reach == old(reach)[h := k.(at := AtMap(s), log := k.log + Prelude(video, audio))]
    {
      if h in sinks { return false; }
      sinks := sinks[h := |handled|];
      var k := reach[h].(at := AtMap(s));
      if video.Some? {
        k := k.(log := k.log + [Config(Video, video.value)]);
      }
      if audio.Some? {
        k := k.(log := k.log + [Config(Audio, audio.value)]);
      }
      assert k.log == old(reach)[h].log + Prelude(video, audio);
      reach := reach[h := k];
      return true;
    }

    method DeleteSink(h: SinkId)
      requires Valid()
      modifies this`reach, this`sinks
      ensures Valid() && sinks == old(sinks) - {h}
      ensures reach == if h in old(sinks) then old(reach)[h := old(reach)[h].(cancelled := true, at := Gone)]
                       else old(reach)
    {
      if h in sinks {
        sinks := sinks - {h};
        reach := reach[h := reach[h].(cancelled := true, at := Gone)];
      }
    }

    method CancelSinks()
      requires Valid()
      modifies this`reach
      ensures Valid() && reach == CancelAll(old(reach), sinks)
    {
      var todo := sinks.Keys;
      while todo != {}
        invariant todo <= sinks.Keys && reach.Keys == old(reach).Keys
        invariant forall h :: h in reach ==>
                    reach[h] == if h in sinks && h !in todo then old(reach)[h].(cancelled := true) else old(reach)[h]
      {
        var h :| h in todo;
        todo := todo - {h};
        reach := reach[h := reach[h].(cancelled := true)];
      }
    }
  }

  /** The pool's two maps. */
  class ConnPool {
    var receivers: map<Key, SrcId>
    var waitingSenders: map<Key, set<SinkId>>

    constructor ()
      ensures receivers == map[] && waitingSenders == map[]
    {
      receivers, waitingSenders := map[], map[];
    }

    /** Registering a source: refused when the key is taken; otherwise the sinks to notify, each exactly once, in
        whatever order the map yields them. */
    method HandleRegisterSource(s: SrcId, key: Key) returns (accepted: bool, notify: seq<SinkId>)
      modifies this
      ensures accepted == (key !in old(receivers))
      ensures !accepted ==> receivers == old(receivers) && waitingSenders == old(waitingSenders) && notify == []
      ensures accepted ==> receivers == old(receivers)[key := s] && waitingSenders == old(waitingSenders) - {key}
      ensures accepted ==> forall h :: h in notify <==> key in old(waitingSenders) && h in old(waitingSenders)[key]
      ensures forall i, j :: 0 <= i < j < |notify| ==> notify[i] != notify[j]
    {
      if key in receivers { return false, []; }
      receivers := receivers[key := s];
      accepted, notify := true, [];
      if key in waitingSenders {
        var todo := waitingSenders[key];
        while todo != {}
          invariant todo <= waitingSenders[key]
          invariant forall h :: h in notify <==> h in waitingSenders[key] && h !in todo
          invariant forall i, j :: 0 <= i < j < |notify| ==> notify[i] != notify[j]
        {
          var h :| h in todo;
          todo := todo - {h};
          notify := notify + [h];
        }
        waitingSenders := waitingSenders - {key};
      }
    }

    /** False when the sink already waits, where the program panics. */
    method AddObserver(h: SinkId, key: Key) returns (ok: bool)
      modifies this`waitingSenders
      ensures var list := if key in old(waitingSenders) then old(waitingSenders)[key] else {};
              && ok == (h !in list)
              && waitingSenders == if ok then old(waitingSenders)[key := list + {h}] else old(waitingSenders)
    {
      if key in waitingSenders {
        if h in waitingSenders[key] { return false; }
        waitingSenders := waitingSenders[key := waitingSenders[key] + {h}];
      } else {
        assert {} + {h} == {h};
        waitingSenders := waitingSenders[key := {h}];
      }
      return true;
    }

    /** Removes the sink from its key's list, and the list with it when it was the last. */
    method DeleteObserver(h: SinkId, key: Key) returns (found: bool)
      modifies this`waitingSenders
      ensures found == (key in old(waitingSenders))
      ensures forall k :: k in waitingSenders <==>
                k in old(waitingSenders) && (k != key || old(waitingSenders)[k] - {h} != {})
      ensures forall k :: k in waitingSenders ==>
                waitingSenders[k] == if k == key then old(waitingSenders)[k] - {h} else old(waitingSenders)[k]
    {
      if key !in waitingSenders { return false; }
      var list := waitingSenders[key] - {h};
      if list == {} {
        waitingSenders := waitingSenders - {key};
      } else {
        waitingSenders := waitingSenders[key := list];
      }
      return true;
    }
  }
}
