/**
 * The bridge proper: the subscription callback that queues raw
 * notifications, the demultiplexer that turns each into messages, and the
 * assembly of the four snapshot streams and the live stream into the one
 * stream of `PulseMessage`s the GUI consumes.
 *
 * Streams are modelled by the finite sequence of items they yield.
 * libpulse's answers to introspection requests are an `Introspector` value:
 * the entities each list request enumerates and, per index, what a by-index
 * request reports.
 */
module FuturisticPulse {
  import opened Wrappers
  import opened Sequences
  import opened Introspect
  import opened ToStatic
  import opened Channel
  import opened CallbackFuture

  /** libpulse's subscription facilities. */
  datatype Facility = Sink | Source | SinkInput | SourceOutput | Module | Client | SampleCache | Server | Card

  datatype Operation = New | Changed | Removed

  /** One complete subscription notification, as queued by the subscribe callback. */
  datatype RawPulseMessage = RawPulseMessage(facility: Facility, operation: Operation, index: uint32)

  datatype PulseAddMessage =
    | MsgSink(sink: SinkInfo)
    | MsgSource(source: SourceInfo)
    | MsgSourceOutput(sourceOutput: SourceOutputInfo)
    | MsgSinkInput(sinkInput: SinkInputInfo)

  /** Add or update the entity `id`, or delete `id`. */
  datatype PulseMessage = MsgAdd(id: uint32, msg: PulseAddMessage) | MsgDel(id: uint32)

  /** The facility an add message belongs to. */
  function KindOf(m: PulseAddMessage): Facility {
    match m
    case MsgSink(_) => Sink
    case MsgSource(_) => Source
    case MsgSourceOutput(_) => SourceOutput
    case MsgSinkInput(_) => SinkInput
  }

  /** The four facilities that have a map in the GUI state. */
  predicate Supported(f: Facility) {
    f == Sink || f == Source || f == SinkInput || f == SourceOutput
  }

  /** libpulse's answers: list enumerations (in callback order) and by-index lookups. */
  datatype Introspector = Introspector(
    sinkList: seq<SinkInfo>,
    sourceList: seq<SourceInfo>,
    sinkInputList: seq<SinkInputInfo>,
    sourceOutputList: seq<SourceOutputInfo>,
    sinkByIndex: uint32 -> seq<SinkInfo>,
    sourceByIndex: uint32 -> seq<SourceInfo>,
    sinkInputByIndex: uint32 -> seq<SinkInputInfo>,
    sourceOutputByIndex: uint32 -> seq<SourceOutputInfo>)

  // ------------------------------------------------------ subscribe callback

  /** The arguments of one call of the subscribe callback. */
  datatype SubscribeEvent = SubscribeEvent(facility: Option<Facility>, operation: Option<Operation>, index: uint32)

  /** A call with both a facility and an operation gives a notification; any other is dropped. */
  function Complete(e: SubscribeEvent): (r: Option<RawPulseMessage>)
    ensures r.Some? <==> e.facility.Some? && e.operation.Some?
    ensures r.Some? ==> r.value == RawPulseMessage(e.facility.value, e.operation.value, e.index)
  {
    match (e.facility, e.operation)
    case (Some(facility), Some(operation)) => Some(RawPulseMessage(facility, operation, e.index))
    case _ => None
  }

  /** The channel queue after one call of the subscribe callback. */
  function SubscribeStep(q: seq<RawPulseMessage>, e: SubscribeEvent): seq<RawPulseMessage> {
    match Complete(e)
    case Some(m) => Offer(q, m)
    case None => q
  }

  /** The queue after a series of calls with no receive in between. */
  function SubscribeSteps(q: seq<RawPulseMessage>, es: seq<SubscribeEvent>): seq<RawPulseMessage>
    decreases |es|
  {
    if es == [] then q else SubscribeSteps(SubscribeStep(q, es[0]), es[1..])
  }

  /** The complete notifications among `es`, in order. */
  function CompleteNotifications(es: seq<SubscribeEvent>): (r: seq<RawPulseMessage>)
    ensures |r| <= |es|
    ensures (forall i :: 0 <= i < |es| ==> Complete(es[i]).None?) ==> r == []
    ensures (forall i :: 0 <= i < |es| ==> Complete(es[i]).Some?) ==>
      |r| == |es| && forall i :: 0 <= i < |es| ==> Some(r[i]) == Complete(es[i])
  {
    if es == [] then []
    else
      match Complete(es[0])
      case Some(m) => [m] + CompleteNotifications(es[1..])
      case None => CompleteNotifications(es[1..])
  }

  /** One call contributes its notification when it is complete, and nothing otherwise. */
  lemma CompleteNotificationsSingle(e: SubscribeEvent)
    ensures CompleteNotifications([e]) == if Complete(e).Some? then [Complete(e).value] else []
  {
    assert [e][1..] == [];
  }

  /**
   * The complete notifications of two runs back to back are those of the
   * first run followed by those of the second: every complete notification
   * is kept, in the order of its call.
   */
  lemma {:induction false} CompleteNotificationsAppend(a: seq<SubscribeEvent>, b: seq<SubscribeEvent>)
    ensures CompleteNotifications(a + b) == CompleteNotifications(a) + CompleteNotifications(b)
    decreases |a|
  {
    if a == [] {
      assert a + b == b;
    } else {
      assert (a + b)[1..] == a[1..] + b;
      CompleteNotificationsAppend(a[1..], b);
    }
  }

  /**
   * The subscribe callback installed by `init_pulse`: a complete
   * notification is offered to the channel unchanged (and lost when it is
   * full); one missing its facility or operation is only logged.
   */
  method SubscribeCallback(send: Channel<RawPulseMessage>, facility: Option<Facility>, operation: Option<Operation>, index: uint32)
    requires send.Valid()
    modifies send
    ensures send.Valid()
    ensures send.queue == SubscribeStep(old(send.queue), SubscribeEvent(facility, operation, index))
  {
    match (facility, operation)
    case (Some(f), Some(o)) =>
      var sent := send.TrySend(RawPulseMessage(f, o, index));
    case _ =>
  }

  lemma {:induction false} SubscribeStepsOffersComplete(q: seq<RawPulseMessage>, es: seq<SubscribeEvent>)
    ensures SubscribeSteps(q, es) == OfferAll(q, CompleteNotifications(es))
    decreases |es|
  {
    if es != [] {
      SubscribeStepsOffersComplete(SubscribeStep(q, es[0]), es[1..]);
      match Complete(es[0])
      case Some(m) =>
        assert ([m] + CompleteNotifications(es[1..]))[1..] == CompleteNotifications(es[1..]);
      case None =>
    }
  }

  /**
   * Starting from an empty channel, the queue holds the complete
   * notifications in arrival order, unchanged, up to the capacity; the rest
   * are dropped.
   */
  lemma SubscribeQueuesCompleteNotifications(es: seq<SubscribeEvent>)
    ensures SubscribeSteps([], es) == CompleteNotifications(es)[..Min(|CompleteNotifications(es)|, Capacity)]
  {
    SubscribeStepsOffersComplete([], es);
    OfferAllKeepsPrefix([], CompleteNotifications(es));
  }

  // ------------------------------------------------------------ the streams

  /** `stream_info_list` / `stream_info_by_index` for sinks: a list stream normalising with `make_owned`. */
  function SinkInfoStream(items: seq<SinkInfo>): seq<SinkInfo> {
    ListStreamOutput(items, SinkMakeOwned)
  }

  function SourceInfoStream(items: seq<SourceInfo>): seq<SourceInfo> {
    ListStreamOutput(items, SourceMakeOwned)
  }

  function SinkInputInfoStream(items: seq<SinkInputInfo>): seq<SinkInputInfo> {
    ListStreamOutput(items, SinkInputToStatic)
  }

  function SourceOutputInfoStream(items: seq<SourceOutputInfo>): seq<SourceOutputInfo> {
    ListStreamOutput(items, SourceOutputToStatic)
  }

  /** Every message of `s` adds an entity of facility `f`. */
  predicate AllAddsOf(s: seq<PulseMessage>, f: Facility) {
    forall k :: 0 <= k < |s| ==> s[k].MsgAdd? && KindOf(s[k].msg) == f
  }

  /** `init_sink_stream`: one add per enumerated sink, keyed by the sink's own index. */
  function InitSinkStream(intro: Introspector): (r: seq<PulseMessage>)
    ensures |r| == Min(|intro.sinkList|, Capacity)
    ensures AllAddsOf(r, Sink)
    ensures forall k :: 0 <= k < |r| ==>
      r[k] == MsgAdd(intro.sinkList[k].index, MsgSink(SinkMakeOwned(intro.sinkList[k])))
  {
    Map(SinkInfoStream(intro.sinkList), (info: SinkInfo) => MsgAdd(info.index, MsgSink(info)))
  }

  function InitSourceStream(intro: Introspector): (r: seq<PulseMessage>)
    ensures |r| == Min(|intro.sourceList|, Capacity)
    ensures AllAddsOf(r, Source)
    ensures forall k :: 0 <= k < |r| ==>
      r[k] == MsgAdd(intro.sourceList[k].index, MsgSource(SourceMakeOwned(intro.sourceList[k])))
  {
    Map(SourceInfoStream(intro.sourceList), (info: SourceInfo) => MsgAdd(info.index, MsgSource(info)))
  }

  function InitSinkInputStream(intro: Introspector): (r: seq<PulseMessage>)
    ensures |r| == Min(|intro.sinkInputList|, Capacity)
    ensures AllAddsOf(r, SinkInput)
    ensures forall k :: 0 <= k < |r| ==>
      r[k] == MsgAdd(intro.sinkInputList[k].index, MsgSinkInput(SinkInputToStatic(intro.sinkInputList[k])))
  {
    Map(SinkInputInfoStream(intro.sinkInputList), (info: SinkInputInfo) => MsgAdd(info.index, MsgSinkInput(info)))
  }

  function InitSourceOutputStream(intro: Introspector): (r: seq<PulseMessage>)
    ensures |r| == Min(|intro.sourceOutputList|, Capacity)
    ensures AllAddsOf(r, SourceOutput)
    ensures forall k :: 0 <= k < |r| ==>
      r[k] == MsgAdd(intro.sourceOutputList[k].index, MsgSourceOutput(SourceOutputToStatic(intro.sourceOutputList[k])))
  {
    Map(SourceOutputInfoStream(intro.sourceOutputList), (info: SourceOutputInfo) => MsgAdd(info.index, MsgSourceOutput(info)))
  }

  /** Every message of `s` adds an entity of facility `f` under `id`. */
  predicate AddsUnder(s: seq<PulseMessage>, f: Facility, id: uint32) {
    forall k :: 0 <= k < |s| ==> s[k].MsgAdd? && s[k].id == id && KindOf(s[k].msg) == f
  }

  /** The adds a by-index sink fetch turns into: each fetched sink under the notification's index. */
  function SinkAdds(id: uint32, infos: seq<SinkInfo>): (r: seq<PulseMessage>)
    ensures |r| == |infos| && AddsUnder(r, Sink, id)
    ensures forall k :: 0 <= k < |r| ==> r[k] == MsgAdd(id, MsgSink(infos[k]))
  {
    Map(infos, (info: SinkInfo) => MsgAdd(id, MsgSink(info)))
  }

  function SourceAdds(id: uint32, infos: seq<SourceInfo>): (r: seq<PulseMessage>)
    ensures |r| == |infos| && AddsUnder(r, Source, id)
    ensures forall k :: 0 <= k < |r| ==> r[k] == MsgAdd(id, MsgSource(infos[k]))
  {
    Map(infos, (info: SourceInfo) => MsgAdd(id, MsgSource(info)))
  }

  function SinkInputAdds(id: uint32, infos: seq<SinkInputInfo>): (r: seq<PulseMessage>)
    ensures |r| == |infos| && AddsUnder(r, SinkInput, id)
    ensures forall k :: 0 <= k < |r| ==> r[k] == MsgAdd(id, MsgSinkInput(infos[k]))
  {
    Map(infos, (info: SinkInputInfo) => MsgAdd(id, MsgSinkInput(info)))
  }

  function SourceOutputAdds(id: uint32, infos: seq<SourceOutputInfo>): (r: seq<PulseMessage>)
    ensures |r| == |infos| && AddsUnder(r, SourceOutput, id)
    ensures forall k :: 0 <= k < |r| ==> r[k] == MsgAdd(id, MsgSourceOutput(infos[k]))
  {
    Map(infos, (info: SourceOutputInfo) => MsgAdd(id, MsgSourceOutput(info)))
  }

  /**
   * The `flat_map` body of `live_stream`: `Removed` deletes the index,
   * whatever the facility; `New`/`Changed` on one of the four supported
   * facilities fetches that index and adds each fetched item under the
   * notification's index; any other facility yields nothing.
   */
  function Demux(intro: Introspector, raw: RawPulseMessage): (r: seq<PulseMessage>)
    ensures raw.operation == Removed ==> r == [MsgDel(raw.index)]
    ensures raw.operation != Removed && !Supported(raw.facility) ==> r == []
    ensures raw.operation != Removed ==> AddsUnder(r, raw.facility, raw.index)
  {
    if raw.operation == Removed then [MsgDel(raw.index)]
    else match raw.facility
      case Sink => SinkAdds(raw.index, SinkInfoStream(intro.sinkByIndex(raw.index)))
      case Source => SourceAdds(raw.index, SourceInfoStream(intro.sourceByIndex(raw.index)))
      case SinkInput => SinkInputAdds(raw.index, SinkInputInfoStream(intro.sinkInputByIndex(raw.index)))
      case SourceOutput => SourceOutputAdds(raw.index, SourceOutputInfoStream(intro.sourceOutputByIndex(raw.index)))
      case _ => []
  }

  /**
   * For a supported facility, `New`/`Changed` adds, in fetch order, each
   * item the by-index request reports (normalised, up to the channel
   * capacity), under the notification's index and with the facility's variant.
   */
  lemma DemuxFetched(intro: Introspector, raw: RawPulseMessage)
    requires raw.operation != Removed
    ensures raw.facility == Sink ==>
      var fetched, r := intro.sinkByIndex(raw.index), Demux(intro, raw);
      |r| == Min(|fetched|, Capacity) && forall k :: 0 <= k < |r| ==> r[k] == MsgAdd(raw.index, MsgSink(SinkMakeOwned(fetched[k])))
    ensures raw.facility == Source ==>
      var fetched, r := intro.sourceByIndex(raw.index), Demux(intro, raw);
      |r| == Min(|fetched|, Capacity) && forall k :: 0 <= k < |r| ==> r[k] == MsgAdd(raw.index, MsgSource(SourceMakeOwned(fetched[k])))
    ensures raw.facility == SinkInput ==>
      var fetched, r := intro.sinkInputByIndex(raw.index), Demux(intro, raw);
      |r| == Min(|fetched|, Capacity) && forall k :: 0 <= k < |r| ==> r[k] == MsgAdd(raw.index, MsgSinkInput(SinkInputToStatic(fetched[k])))
    ensures raw.facility == SourceOutput ==>
      var fetched, r := intro.sourceOutputByIndex(raw.index), Demux(intro, raw);
      |r| == Min(|fetched|, Capacity) && forall k :: 0 <= k < |r| ==> r[k] == MsgAdd(raw.index, MsgSourceOutput(SourceOutputToStatic(fetched[k])))
  {
  }

  /** The demultiplexer as the function given to `flat_map`. */
  function DemuxWith(intro: Introspector): RawPulseMessage -> seq<PulseMessage> {
    raw => Demux(intro, raw)
  }

  /** `live_stream`: the received notifications, demultiplexed one after another. */
  function LiveStream(intro: Introspector, raws: seq<RawPulseMessage>): seq<PulseMessage> {
    FlatMap(raws, DemuxWith(intro))
  }

  /** The four snapshot streams, chained in the order sinks, sources, sink inputs, source outputs. */
  function Snapshot(intro: Introspector): seq<PulseMessage> {
    InitSinkStream(intro) + InitSourceStream(intro) + InitSinkInputStream(intro) + InitSourceOutputStream(intro)
  }

  /** `pulse_stream`: the snapshot chained before the live stream. */
  function PulseStream(intro: Introspector, raws: seq<RawPulseMessage>): seq<PulseMessage> {
    Snapshot(intro) + LiveStream(intro, raws)
  }

  /**
   * The live stream keeps notification order: the messages of notification
   * `i` come after those of every earlier notification and before those of
   * every later one.
   */
  lemma LiveStreamAt(intro: Introspector, raws: seq<RawPulseMessage>, i: nat)
    requires i < |raws|
    ensures LiveStream(intro, raws)
         == LiveStream(intro, raws[..i]) + Demux(intro, raws[i]) + LiveStream(intro, raws[i + 1..])
  {
    var f := DemuxWith(intro);
    assert raws == raws[..i] + ([raws[i]] + raws[i + 1..]);
    FlatMapAppend(raws[..i], [raws[i]] + raws[i + 1..], f);
    FlatMapAppend([raws[i]], raws[i + 1..], f);
    FlatMapSingle(raws[i], f);
  }

  /** Notifications received later extend the live stream; nothing earlier changes. */
  lemma LiveStreamAppend(intro: Introspector, a: seq<RawPulseMessage>, b: seq<RawPulseMessage>)
    ensures LiveStream(intro, a + b) == LiveStream(intro, a) + LiveStream(intro, b)
  {
    FlatMapAppend(a, b, DemuxWith(intro));
  }

  /** One more received notification appends exactly its own messages to the assembled stream. */
  lemma PulseStreamAppend(intro: Introspector, raws: seq<RawPulseMessage>, last: RawPulseMessage)
    ensures PulseStream(intro, raws + [last]) == PulseStream(intro, raws) + Demux(intro, last)
  {
    var snap, live, d := Snapshot(intro), LiveStream(intro, raws), Demux(intro, last);
    LiveStreamAppend(intro, raws, [last]);
    FlatMapSingle(last, DemuxWith(intro));
    assert LiveStream(intro, raws + [last]) == live + d;
    AppendAssoc(snap, live, d);
  }

  /** Position of a facility in the snapshot order. */
  function SnapshotRank(f: Facility): nat {
    match f
    case Sink => 0
    case Source => 1
    case SinkInput => 2
    case SourceOutput => 3
    case _ => 4
  }

  /** The kind rank the snapshot has at position `i`, from the lengths of its four parts. */
  function RankAt(intro: Introspector, i: nat): nat {
    var a, b, c := |InitSinkStream(intro)|, |InitSourceStream(intro)|, |InitSinkInputStream(intro)|;
    if i < a then 0 else if i < a + b then 1 else if i < a + b + c then 2 else 3
  }

  lemma ChainedKinds(a: seq<PulseMessage>, b: seq<PulseMessage>, c: seq<PulseMessage>, d: seq<PulseMessage>, i: nat)
    requires AllAddsOf(a, Sink) && AllAddsOf(b, Source) && AllAddsOf(c, SinkInput) && AllAddsOf(d, SourceOutput)
    requires i < |a + b + c + d|
    ensures var m := (a + b + c + d)[i];
      && m.MsgAdd?
      && KindOf(m.msg) == (if i < |a| then Sink else if i < |a| + |b| then Source
                           else if i < |a| + |b| + |c| then SinkInput else SourceOutput)
  {
    var s := a + b + c + d;
    if i < |a| {
      assert s[i] == a[i];
    } else if i < |a| + |b| {
      assert s[i] == b[i - |a|];
    } else if i < |a| + |b| + |c| {
      assert s[i] == c[i - |a| - |b|];
    } else {
      assert s[i] == d[i - |a| - |b| - |c|];
    }
  }

  /** Four parts of one kind each, chained: every position holds an add whose rank is its part's. */
  lemma ChainedRanks(a: seq<PulseMessage>, b: seq<PulseMessage>, c: seq<PulseMessage>, d: seq<PulseMessage>)
    requires AllAddsOf(a, Sink) && AllAddsOf(b, Source) && AllAddsOf(c, SinkInput) && AllAddsOf(d, SourceOutput)
    ensures forall i :: 0 <= i < |a + b + c + d| ==>
      && (a + b + c + d)[i].MsgAdd?
      && Supported(KindOf((a + b + c + d)[i].msg))
      && SnapshotRank(KindOf((a + b + c + d)[i].msg))
         == (if i < |a| then 0 else if i < |a| + |b| then 1 else if i < |a| + |b| + |c| then 2 else 3)
  {
    forall i | 0 <= i < |a + b + c + d|
      ensures && (a + b + c + d)[i].MsgAdd?
              && Supported(KindOf((a + b + c + d)[i].msg))
              && SnapshotRank(KindOf((a + b + c + d)[i].msg))
                 == (if i < |a| then 0 else if i < |a| + |b| then 1 else if i < |a| + |b| + |c| then 2 else 3)
    {
      ChainedKinds(a, b, c, d, i);
    }
  }

  /** Every snapshot message is an add of a supported kind, of the kind its part stands for. */
  lemma SnapshotKinds(intro: Introspector)
    ensures forall i :: 0 <= i < |Snapshot(intro)| ==>
      && Snapshot(intro)[i].MsgAdd?
      && Supported(KindOf(Snapshot(intro)[i].msg))
      && SnapshotRank(KindOf(Snapshot(intro)[i].msg)) == RankAt(intro, i)
  {
    ChainedRanks(InitSinkStream(intro), InitSourceStream(intro), InitSinkInputStream(intro), InitSourceOutputStream(intro));
  }

  /**
   * Snapshot before live: the assembled stream starts with the whole
   * snapshot, which holds only adds grouped by kind in the order sinks,
   * sources, sink inputs, source outputs, and continues with the live stream
   * unchanged; every snapshot message precedes every live message.
   */
  lemma SnapshotBeforeLive(intro: Introspector, raws: seq<RawPulseMessage>)
    ensures var out, n := PulseStream(intro, raws), |Snapshot(intro)|;
      && n <= |out|
      && out[..n] == Snapshot(intro)
      && out[n..] == LiveStream(intro, raws)
      && (forall i :: 0 <= i < n ==> out[i].MsgAdd? && Supported(KindOf(out[i].msg)))
      && (forall i, j :: 0 <= i < j < n ==> SnapshotRank(KindOf(out[i].msg)) <= SnapshotRank(KindOf(out[j].msg)))
  {
    var snap, out := Snapshot(intro), PulseStream(intro, raws);
    SnapshotKinds(intro);
    assert out[..|snap|] == snap;
    assert out[|snap|..] == LiveStream(intro, raws);
    forall i, j | 0 <= i < j < |snap|
      ensures SnapshotRank(KindOf(out[i].msg)) <= SnapshotRank(KindOf(out[j].msg))
    {
      assert out[i] == snap[i] && out[j] == snap[j];
    }
  }

  /**
   * With a by-index fetch that reports `s1` for sink 1, the notifications
   * new, removed, new for sink 1 give add, delete, add, in that order.
   */
  lemma NewRemovedNewScenario(intro: Introspector, s1: SinkInfo)
    requires intro.sinkByIndex(1) == [s1]
    ensures LiveStream(intro, [RawPulseMessage(Sink, New, 1), RawPulseMessage(Sink, Removed, 1), RawPulseMessage(Sink, New, 1)])
         == [MsgAdd(1, MsgSink(SinkMakeOwned(s1))), MsgDel(1), MsgAdd(1, MsgSink(SinkMakeOwned(s1)))]
  {
    var raws := [RawPulseMessage(Sink, New, 1), RawPulseMessage(Sink, Removed, 1), RawPulseMessage(Sink, New, 1)];
    var add := Demux(intro, raws[0]);
    assert add == [MsgAdd(1, MsgSink(SinkMakeOwned(s1)))];
    LiveStreamAt(intro, raws, 1);
    assert raws[..1] == [raws[0]] && raws[2..] == [raws[2]];
    FlatMapSingle(raws[0], DemuxWith(intro));
    FlatMapSingle(raws[2], DemuxWith(intro));
  }
}
