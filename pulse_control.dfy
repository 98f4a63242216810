/**
 * The GUI side: `PulseState` keeps one id-keyed map per supported kind, and
 * the `PulseCommunication` controller applies each `PulseMessage` it receives
 * to those maps. The widgets themselves are not modelled.
 */
module PulseControl {
  import opened Wrappers
  import opened Sequences
  import opened Introspect
  import opened Channel
  import opened FuturisticPulse

  /** The four maps of `PulseState`, as a value. */
  datatype Maps = Maps(
    sinks: map<uint32, SinkInfo>,
    sources: map<uint32, SourceInfo>,
    sourceOutputs: map<uint32, SourceOutputInfo>,
    sinkInputs: map<uint32, SinkInputInfo>)

  const EmptyMaps := Maps(map[], map[], map[], map[])

  /** The entity facility `f` keeps under `id`, as the add message that stored it. */
  function Lookup(s: Maps, f: Facility, id: uint32): Option<PulseAddMessage> {
    match f
    case Sink => if id in s.sinks then Some(MsgSink(s.sinks[id])) else None
    case Source => if id in s.sources then Some(MsgSource(s.sources[id])) else None
    case SinkInput => if id in s.sinkInputs then Some(MsgSinkInput(s.sinkInputs[id])) else None
    case SourceOutput => if id in s.sourceOutputs then Some(MsgSourceOutput(s.sourceOutputs[id])) else None
    case _ => None
  }

  /** How many entities facility `f` keeps. */
  function Size(s: Maps, f: Facility): nat {
    match f
    case Sink => |s.sinks|
    case Source => |s.sources|
    case SinkInput => |s.sinkInputs|
    case SourceOutput => |s.sourceOutputs|
    case _ => 0
  }

  /** Message `m` is about the entry `id` of facility `f`: a delete of `id`, or an add of `id` of kind `f`. */
  predicate Touches(m: PulseMessage, f: Facility, id: uint32) {
    m.id == id && (m.MsgDel? || KindOf(m.msg) == f)
  }

  /** What a message leaves in the entries it touches. */
  function Written(m: PulseMessage): Option<PulseAddMessage> {
    if m.MsgDel? then None else Some(m.msg)
  }

  /**
   * One message applied to the maps: an add upserts into its kind's map, a
   * delete removes the id from all four maps, and no other entry changes.
   */
  function Apply(s: Maps, m: PulseMessage): (r: Maps)
    ensures forall f, id :: Lookup(r, f, id) == if Touches(m, f, id) then Written(m) else Lookup(s, f, id)
  {
    match m
    case MsgAdd(id, msg) =>
      (match msg
       case MsgSink(x) => s.(sinks := s.sinks[id := x])
       case MsgSource(x) => s.(sources := s.sources[id := x])
       case MsgSinkInput(x) => s.(sinkInputs := s.sinkInputs[id := x])
       case MsgSourceOutput(x) => s.(sourceOutputs := s.sourceOutputs[id := x]))
    case MsgDel(id) =>
      s.(sinks := s.sinks - {id},
         sources := s.sources - {id},
         sourceOutputs := s.sourceOutputs - {id},
         sinkInputs := s.sinkInputs - {id})
  }

  /** The maps after applying `msgs` in order. */
  function Replay(s: Maps, msgs: seq<PulseMessage>): Maps
    decreases |msgs|
  {
    if msgs == [] then s else Replay(Apply(s, msgs[0]), msgs[1..])
  }

  /** `PulseState`: the GUI's data, changed in place by the controller. */
  class PulseState {
    var sinks: map<uint32, SinkInfo>
    var sources: map<uint32, SourceInfo>
    var sourceOutputs: map<uint32, SourceOutputInfo>
    var sinkInputs: map<uint32, SinkInputInfo>

    function View(): Maps
      reads this
    {
      Maps(sinks, sources, sourceOutputs, sinkInputs)
    }

    /** `PulseState::default()`: four empty maps. */
    constructor Default()
      ensures View() == EmptyMaps
      ensures forall f, id :: Lookup(View(), f, id) == None
    {
      sinks, sources, sourceOutputs, sinkInputs := map[], map[], map[], map[];
    }
  }

  /** The events the controller sees: a `PULSE_CHANGES` command carrying a message, or anything else. */
  datatype UiEvent = PulseChanges(message: PulseMessage) | OtherEvent

  class PulseCommunication {

    constructor () {
    }

    /** `PulseCommunication::event`: applies a `PULSE_CHANGES` message; ignores every other event. */
    method Event(event: UiEvent, data: PulseState)
      modifies data
      ensures data.View() == if event.PulseChanges? then Apply(old(data.View()), event.message) else old(data.View())
    {
      match event {
        case PulseChanges(m) =>
          match m {
            case MsgAdd(id, msg) =>
              match msg {
                case MsgSink(x) => data.sinks := data.sinks[id := x];
                case MsgSource(x) => data.sources := data.sources[id := x];
                case MsgSinkInput(x) => data.sinkInputs := data.sinkInputs[id := x];
                case MsgSourceOutput(x) => data.sourceOutputs := data.sourceOutputs[id := x];
              }
            case MsgDel(id) =>
              data.sinks := data.sinks - {id};
              data.sources := data.sources - {id};
              data.sourceOutputs := data.sourceOutputs - {id};
              data.sinkInputs := data.sinkInputs - {id};
          }
        case OtherEvent =>
      }
    }
  }

  // -------------------------------------------------------------- properties

  /** The maps are determined by their entries. */
  lemma MapsExtensional(a: Maps, b: Maps)
    requires forall f, id :: Lookup(a, f, id) == Lookup(b, f, id)
    ensures a == b
  {
    forall id: uint32 ensures (id in a.sinks) == (id in b.sinks) && (id in a.sinks ==> a.sinks[id] == b.sinks[id]) {
      assert Lookup(a, Sink, id) == Lookup(b, Sink, id);
    }
    forall id: uint32 ensures (id in a.sources) == (id in b.sources) && (id in a.sources ==> a.sources[id] == b.sources[id]) {
      assert Lookup(a, Source, id) == Lookup(b, Source, id);
    }
    forall id: uint32 ensures (id in a.sinkInputs) == (id in b.sinkInputs) && (id in a.sinkInputs ==> a.sinkInputs[id] == b.sinkInputs[id]) {
      assert Lookup(a, SinkInput, id) == Lookup(b, SinkInput, id);
    }
    forall id: uint32 ensures (id in a.sourceOutputs) == (id in b.sourceOutputs) && (id in a.sourceOutputs ==> a.sourceOutputs[id] == b.sourceOutputs[id]) {
      assert Lookup(a, SourceOutput, id) == Lookup(b, SourceOutput, id);
    }
  }

  /**
   * A duplicate add is an upsert: the later value wins, as if the earlier add
   * had not happened, and re-adding a present id leaves every map's size alone.
   */
  lemma DuplicateAddIsUpsert(s: Maps, id: uint32, first: PulseAddMessage, second: PulseAddMessage)
    requires KindOf(first) == KindOf(second)
    ensures Apply(Apply(s, MsgAdd(id, first)), MsgAdd(id, second)) == Apply(s, MsgAdd(id, second))
    ensures Lookup(s, KindOf(second), id).Some? ==>
      forall f :: Size(Apply(s, MsgAdd(id, second)), f) == Size(s, f)
  {
    MapsExtensional(Apply(Apply(s, MsgAdd(id, first)), MsgAdd(id, second)), Apply(s, MsgAdd(id, second)));
    if Lookup(s, KindOf(second), id).Some? {
      var r := Apply(s, MsgAdd(id, second));
      match second
      case MsgSink(_) => assert r.sinks.Keys == s.sinks.Keys;
      case MsgSource(_) => assert r.sources.Keys == s.sources.Keys;
      case MsgSinkInput(_) => assert r.sinkInputs.Keys == s.sinkInputs.Keys;
      case MsgSourceOutput(_) => assert r.sourceOutputs.Keys == s.sourceOutputs.Keys;
    }
  }

  /** Deleting an id no map holds changes nothing. */
  lemma DeleteAbsentIsNoOp(s: Maps, id: uint32)
    requires forall f :: Lookup(s, f, id) == None
    ensures Apply(s, MsgDel(id)) == s
  {
    MapsExtensional(Apply(s, MsgDel(id)), s);
  }

  /** An add after a delete of the same id restores the entry. */
  lemma AddAfterDeleteRestores(s: Maps, id: uint32, msg: PulseAddMessage)
    ensures Lookup(Replay(s, [MsgDel(id), MsgAdd(id, msg)]), KindOf(msg), id) == Some(msg)
  {
    var del, add := MsgDel(id), MsgAdd(id, msg);
    assert [del, add][1..] == [add] && [add][1..] == [];
    assert Replay(s, [del, add]) == Replay(Apply(s, del), [add]);
    assert Replay(Apply(s, del), [add]) == Replay(Apply(Apply(s, del), add), []);
  }

  lemma {:induction false} ReplayAppend(s: Maps, a: seq<PulseMessage>, b: seq<PulseMessage>)
    ensures Replay(s, a + b) == Replay(Replay(s, a), b)
    decreases |a|
  {
    if a == [] {
      assert a + b == b;
    } else {
      assert (a + b)[1..] == a[1..] + b;
      ReplayAppend(Apply(s, a[0]), a[1..], b);
    }
  }

  /** Messages that do not touch an entry leave it as it was. */
  lemma {:induction false} ReplayUntouched(s: Maps, msgs: seq<PulseMessage>, f: Facility, id: uint32)
    requires forall j :: 0 <= j < |msgs| ==> !Touches(msgs[j], f, id)
    ensures Lookup(Replay(s, msgs), f, id) == Lookup(s, f, id)
    decreases |msgs|
  {
    if msgs != [] {
      var rest := msgs[1..];
      forall j | 0 <= j < |rest| ensures !Touches(rest[j], f, id) {
        assert rest[j] == msgs[j + 1];
      }
      ReplayUntouched(Apply(s, msgs[0]), rest, f, id);
    }
  }

  /** The last message that touches an entry decides what the entry holds. */
  lemma ReplayLastTouch(s: Maps, msgs: seq<PulseMessage>, f: Facility, id: uint32, i: nat)
    requires i < |msgs| && Touches(msgs[i], f, id)
    requires forall j :: i < j < |msgs| ==> !Touches(msgs[j], f, id)
    ensures Lookup(Replay(s, msgs), f, id) == Written(msgs[i])
  {
    var before, pre, post := msgs[..i], msgs[..i + 1], msgs[i + 1..];
    assert msgs == pre + post;
    ReplayAppend(s, pre, post);
    forall j | 0 <= j < |post| ensures !Touches(post[j], f, id) {
      assert post[j] == msgs[i + 1 + j];
    }
    ReplayUntouched(Replay(s, pre), post, f, id);
    assert pre == before + [msgs[i]];
    ReplayAppend(s, before, [msgs[i]]);
    assert [msgs[i]][1..] == [];
  }

  /**
   * Replay agrees with the last-write-wins reference: an entry no message
   * touches keeps its initial value, and otherwise the last message touching
   * it decides (present with the added entity, or absent after a delete).
   */
  lemma ReplayLastWriteWins(s: Maps, msgs: seq<PulseMessage>, f: Facility, id: uint32)
    ensures (forall j :: 0 <= j < |msgs| ==> !Touches(msgs[j], f, id)) ==>
      Lookup(Replay(s, msgs), f, id) == Lookup(s, f, id)
    ensures forall i :: 0 <= i < |msgs| && Touches(msgs[i], f, id)
                        && (forall j :: i < j < |msgs| ==> !Touches(msgs[j], f, id)) ==>
      Lookup(Replay(s, msgs), f, id) == Written(msgs[i])
  {
    if forall j :: 0 <= j < |msgs| ==> !Touches(msgs[j], f, id) {
      ReplayUntouched(s, msgs, f, id);
    }
    forall i | 0 <= i < |msgs| && Touches(msgs[i], f, id) && (forall j :: i < j < |msgs| ==> !Touches(msgs[j], f, id))
      ensures Lookup(Replay(s, msgs), f, id) == Written(msgs[i])
    {
      ReplayLastTouch(s, msgs, f, id, i);
    }
  }

  /** The assembled stream for one more notification ends with that notification's messages. */
  lemma ReplayPulseStreamStep(s: Maps, intro: Introspector, raws: seq<RawPulseMessage>, last: RawPulseMessage)
    ensures Replay(s, PulseStream(intro, raws + [last]))
         == Replay(Replay(s, PulseStream(intro, raws)), Demux(intro, last))
  {
    PulseStreamAppend(intro, raws, last);
    ReplayAppend(s, PulseStream(intro, raws), Demux(intro, last));
  }

  /**
   * Applying one notification's messages: a `Removed` leaves the index in no
   * map; a `New`/`Changed` whose fetch reports something leaves the last
   * fetched entity under the index in its facility's map; a notification that
   * yields nothing changes nothing; entries under every other index are
   * left as they were.
   */
  lemma ReplayDemux(s: Maps, intro: Introspector, raw: RawPulseMessage)
    ensures raw.operation == Removed ==> forall f :: Lookup(Replay(s, Demux(intro, raw)), f, raw.index) == None
    ensures raw.operation != Removed && Demux(intro, raw) != [] ==>
      var out := Demux(intro, raw);
      Supported(raw.facility) && Lookup(Replay(s, out), raw.facility, raw.index) == Some(out[|out| - 1].msg)
    ensures Demux(intro, raw) == [] ==> Replay(s, Demux(intro, raw)) == s
    ensures forall f, id :: id != raw.index ==> Lookup(Replay(s, Demux(intro, raw)), f, id) == Lookup(s, f, id)
  {
    var out := Demux(intro, raw);
    forall f, id | id != raw.index
      ensures Lookup(Replay(s, out), f, id) == Lookup(s, f, id)
    {
      forall j | 0 <= j < |out| ensures !Touches(out[j], f, id) {
        assert out[j].id == raw.index;
      }
      ReplayUntouched(s, out, f, id);
    }
    if raw.operation == Removed {
      forall f ensures Lookup(Replay(s, out), f, raw.index) == None {
        ReplayLastWriteWins(s, out, f, raw.index);
        assert Touches(out[0], f, raw.index);
      }
    } else if out != [] {
      ReplayLastWriteWins(s, out, raw.facility, raw.index);
      assert Touches(out[|out| - 1], raw.facility, raw.index);
    }
  }

  /**
   * End to end: replaying the assembled stream for `raws` followed by `last`
   * from the default state, `last` decides its index as `ReplayDemux` says,
   * and every entry under another index is what it was before `last`.
   */
  lemma ReplayLastNotification(intro: Introspector, raws: seq<RawPulseMessage>, last: RawPulseMessage)
    ensures var before := Replay(EmptyMaps, PulseStream(intro, raws));
      var after := Replay(EmptyMaps, PulseStream(intro, raws + [last]));
      var out := Demux(intro, last);
      && (last.operation == Removed ==> forall f :: Lookup(after, f, last.index) == None)
      && (last.operation != Removed && out != [] ==>
            Supported(last.facility) && Lookup(after, last.facility, last.index) == Some(out[|out| - 1].msg))
      && (out == [] ==> after == before)
      && (forall f, id :: id != last.index ==> Lookup(after, f, id) == Lookup(before, f, id))
  {
    ReplayPulseStreamStep(EmptyMaps, intro, raws, last);
    ReplayDemux(Replay(EmptyMaps, PulseStream(intro, raws)), intro, last);
  }

  /**
   * Replaying new, removed, new for sink 1 (with a fetch reporting `s1`) on
   * any state leaves the normalised `s1` under id 1 in the sink map.
   */
  lemma NewRemovedNewReplay(s: Maps, intro: Introspector, s1: SinkInfo)
    requires intro.sinkByIndex(1) == [s1]
    ensures var raws := [RawPulseMessage(Sink, New, 1), RawPulseMessage(Sink, Removed, 1), RawPulseMessage(Sink, New, 1)];
      Lookup(Replay(s, LiveStream(intro, raws)), Sink, 1) == Some(MsgSink(CallbackFuture.SinkMakeOwned(s1)))
  {
    var raws := [RawPulseMessage(Sink, New, 1), RawPulseMessage(Sink, Removed, 1), RawPulseMessage(Sink, New, 1)];
    NewRemovedNewScenario(intro, s1);
    var msgs := LiveStream(intro, raws);
    ReplayLastWriteWins(s, msgs, Sink, 1);
    assert Touches(msgs[2], Sink, 1);
  }
}
