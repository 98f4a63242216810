/**
 * The `ToStatic` normaliser: turns a record whose text may borrow from a
 * libpulse callback into one that owns all of its text. Containers
 * (`Option`, `Box`, `Vec`) convert their content, borrowed text becomes owned
 * text with the same characters, and value fields are copied unchanged.
 *
 * What "unchanged content" means is stated once per record as a relation
 * (`...ContentEq`), and what "owns all text" means as a predicate
 * (`...IsStatic`); every conversion is then the unique static value with the
 * input's content.
 */
module ToStatic {
  import opened Wrappers
  import opened Sequences
  import opened Introspect

  // ---------------------------------------------------------------- containers

  /** `Cow<str>::to_static`: an owned copy of the same text. */
  function TextToStatic(t: Text): (r: Text)
    ensures r.Owned? && r.content == t.content
  {
    Owned(t.content)
  }

  /** `Option<T>::to_static`: `None` stays `None`, `Some(x)` converts `x`. */
  function OptionToStatic<T, U>(o: Option<T>, convert: T -> U): (r: Option<U>)
    ensures r.Some? <==> o.Some?
    ensures o.Some? ==> r.value == convert(o.value)
  {
    o.Map(convert)
  }

  /** `Box<T>::to_static`: a new box around the converted content. */
  function BoxToStatic<T, U>(b: Box<T>, convert: T -> U): (r: Box<U>)
    ensures r.inner == convert(b.inner)
  {
    Box(convert(b.inner))
  }

  // `Vec<T>::to_static` is `Sequences.Map` (same length, element-wise, in order).

  /** The leaf impls (`u32`, `bool`, `Spec`, `Map`, `Proplist`, ...) clone their value. */
  function Clone<T>(x: T): T {
    x
  }

  // ---------------------------------------------------- what normalising means

  /** Optional text with no borrowed part. */
  predicate TextIsStatic(o: Option<Text>) {
    o.Some? ==> o.value.Owned?
  }

  /** Same presence and, when present, the same characters. */
  predicate TextContentEq(a: Option<Text>, b: Option<Text>) {
    a.Some? == b.Some? && (a.Some? ==> a.value.content == b.value.content)
  }

  predicate PortIsStatic(p: PortInfo) {
    TextIsStatic(p.name) && TextIsStatic(p.description)
  }

  predicate PortContentEq(a: PortInfo, b: PortInfo) {
    && TextContentEq(a.name, b.name)
    && TextContentEq(a.description, b.description)
    && a.priority == b.priority
    && a.available == b.available
  }

  predicate PortsAreStatic(ps: seq<PortInfo>) {
    forall i :: 0 <= i < |ps| ==> PortIsStatic(ps[i])
  }

  /** Same length, and each port content-equal to the one at the same position. */
  predicate PortsContentEq(a: seq<PortInfo>, b: seq<PortInfo>) {
    |a| == |b| && forall i :: 0 <= i < |a| ==> PortContentEq(a[i], b[i])
  }

  predicate ActivePortIsStatic(o: Option<Box<PortInfo>>) {
    o.Some? ==> PortIsStatic(o.value.inner)
  }

  predicate ActivePortContentEq(a: Option<Box<PortInfo>>, b: Option<Box<PortInfo>>) {
    a.Some? == b.Some? && (a.Some? ==> PortContentEq(a.value.inner, b.value.inner))
  }

  predicate SinkIsStatic(x: SinkInfo) {
    && TextIsStatic(x.name)
    && TextIsStatic(x.description)
    && TextIsStatic(x.monitorSourceName)
    && TextIsStatic(x.driver)
    && PortsAreStatic(x.ports)
    && ActivePortIsStatic(x.activePort)
  }

  /** Field by field: text by content, ports by `PortContentEq`, every value field equal. */
  predicate SinkContentEq(a: SinkInfo, b: SinkInfo) {
    && TextContentEq(a.name, b.name)
    && a.index == b.index
    && TextContentEq(a.description, b.description)
    && a.sampleSpec == b.sampleSpec
    && a.channelMap == b.channelMap
    && a.ownerModule == b.ownerModule
    && a.volume == b.volume
    && a.mute == b.mute
    && a.monitorSource == b.monitorSource
    && TextContentEq(a.monitorSourceName, b.monitorSourceName)
    && a.latency == b.latency
    && TextContentEq(a.driver, b.driver)
    && a.flags == b.flags
    && a.proplist == b.proplist
    && a.configuredLatency == b.configuredLatency
    && a.baseVolume == b.baseVolume
    && a.state == b.state
    && a.nVolumeSteps == b.nVolumeSteps
    && a.card == b.card
    && PortsContentEq(a.ports, b.ports)
    && ActivePortContentEq(a.activePort, b.activePort)
    && a.formats == b.formats
  }

  predicate SourceIsStatic(x: SourceInfo) {
    && TextIsStatic(x.name)
    && TextIsStatic(x.description)
    && TextIsStatic(x.monitorOfSinkName)
    && TextIsStatic(x.driver)
    && PortsAreStatic(x.ports)
    && ActivePortIsStatic(x.activePort)
  }

  predicate SourceContentEq(a: SourceInfo, b: SourceInfo) {
    && TextContentEq(a.name, b.name)
    && a.index == b.index
    && TextContentEq(a.description, b.description)
    && a.sampleSpec == b.sampleSpec
    && a.channelMap == b.channelMap
    && a.ownerModule == b.ownerModule
    && a.volume == b.volume
    && a.mute == b.mute
    && a.monitorOfSink == b.monitorOfSink
    && TextContentEq(a.monitorOfSinkName, b.monitorOfSinkName)
    && a.latency == b.latency
    && TextContentEq(a.driver, b.driver)
    && a.flags == b.flags
    && a.proplist == b.proplist
    && a.configuredLatency == b.configuredLatency
    && a.baseVolume == b.baseVolume
    && a.state == b.state
    && a.nVolumeSteps == b.nVolumeSteps
    && a.card == b.card
    && PortsContentEq(a.ports, b.ports)
    && ActivePortContentEq(a.activePort, b.activePort)
    && a.formats == b.formats
  }

  predicate SinkInputIsStatic(x: SinkInputInfo) {
    TextIsStatic(x.name) && TextIsStatic(x.resampleMethod) && TextIsStatic(x.driver)
  }

  predicate SinkInputContentEq(a: SinkInputInfo, b: SinkInputInfo) {
    && a.index == b.index
    && TextContentEq(a.name, b.name)
    && a.ownerModule == b.ownerModule
    && a.client == b.client
    && a.sink == b.sink
    && a.sampleSpec == b.sampleSpec
    && a.channelMap == b.channelMap
    && a.volume == b.volume
    && a.bufferUsec == b.bufferUsec
    && a.sinkUsec == b.sinkUsec
    && TextContentEq(a.resampleMethod, b.resampleMethod)
    && TextContentEq(a.driver, b.driver)
    && a.mute == b.mute
    && a.proplist == b.proplist
    && a.corked == b.corked
    && a.hasVolume == b.hasVolume
    && a.volumeWritable == b.volumeWritable
    && a.format == b.format
  }

  predicate SourceOutputIsStatic(x: SourceOutputInfo) {
    TextIsStatic(x.name) && TextIsStatic(x.resampleMethod) && TextIsStatic(x.driver)
  }

  predicate SourceOutputContentEq(a: SourceOutputInfo, b: SourceOutputInfo) {
    && a.index == b.index
    && TextContentEq(a.name, b.name)
    && a.ownerModule == b.ownerModule
    && a.client == b.client
    && a.source == b.source
    && a.sampleSpec == b.sampleSpec
    && a.channelMap == b.channelMap
    && a.bufferUsec == b.bufferUsec
    && a.sourceUsec == b.sourceUsec
    && TextContentEq(a.resampleMethod, b.resampleMethod)
    && TextContentEq(a.driver, b.driver)
    && a.proplist == b.proplist
    && a.corked == b.corked
    && a.volume == b.volume
    && a.mute == b.mute
    && a.hasVolume == b.hasVolume
    && a.volumeWritable == b.volumeWritable
    && a.format == b.format
  }

  // ------------------------------------------------------------- conversions

  /** Text inside an `Option`, converted with `as_ref().map(|s| Cow::Owned(s.to_string()))`. */
  function OwnText(o: Option<Text>): (r: Option<Text>)
    ensures TextIsStatic(r) && TextContentEq(o, r)
  {
    o.Map((t: Text) => Owned(t.content))
  }

  /** `SinkPortInfo::to_static` and `SourcePortInfo::to_static`. */
  function PortToStatic(p: PortInfo): (r: PortInfo)
    ensures PortIsStatic(r) && PortContentEq(p, r)
  {
    PortInfo(OwnText(p.name), OwnText(p.description), p.priority, p.available)
  }

  function SinkToStatic(x: SinkInfo): (r: SinkInfo)
    ensures SinkIsStatic(r) && SinkContentEq(x, r)
  {
    SinkInfo(
      name := OptionToStatic(x.name, TextToStatic),
      index := Clone(x.index),
      description := OptionToStatic(x.description, TextToStatic),
      sampleSpec := Clone(x.sampleSpec),
      channelMap := Clone(x.channelMap),
      ownerModule := OptionToStatic(x.ownerModule, Clone),
      volume := Clone(x.volume),
      mute := Clone(x.mute),
      monitorSource := Clone(x.monitorSource),
      monitorSourceName := OptionToStatic(x.monitorSourceName, TextToStatic),
      latency := Clone(x.latency),
      driver := OptionToStatic(x.driver, TextToStatic),
      flags := Clone(x.flags),
      proplist := Clone(x.proplist),
      configuredLatency := Clone(x.configuredLatency),
      baseVolume := Clone(x.baseVolume),
      state := Clone(x.state),
      nVolumeSteps := Clone(x.nVolumeSteps),
      card := OptionToStatic(x.card, Clone),
      ports := Map(x.ports, PortToStatic),
      activePort := OptionToStatic(x.activePort, (b: Box<PortInfo>) => BoxToStatic(b, PortToStatic)),
      formats := Map(x.formats, Clone))
  }

  function SourceToStatic(x: SourceInfo): (r: SourceInfo)
    ensures SourceIsStatic(r) && SourceContentEq(x, r)
  {
    SourceInfo(
      name := OptionToStatic(x.name, TextToStatic),
      index := Clone(x.index),
      description := OptionToStatic(x.description, TextToStatic),
      sampleSpec := Clone(x.sampleSpec),
      channelMap := Clone(x.channelMap),
      ownerModule := OptionToStatic(x.ownerModule, Clone),
      volume := Clone(x.volume),
      mute := Clone(x.mute),
      monitorOfSink := OptionToStatic(x.monitorOfSink, Clone),
      monitorOfSinkName := OptionToStatic(x.monitorOfSinkName, TextToStatic),
      latency := Clone(x.latency),
      driver := OptionToStatic(x.driver, TextToStatic),
      flags := Clone(x.flags),
      proplist := Clone(x.proplist),
      configuredLatency := Clone(x.configuredLatency),
      baseVolume := Clone(x.baseVolume),
      state := Clone(x.state),
      nVolumeSteps := Clone(x.nVolumeSteps),
      card := OptionToStatic(x.card, Clone),
      ports := Map(x.ports, PortToStatic),
      activePort := OptionToStatic(x.activePort, (b: Box<PortInfo>) => BoxToStatic(b, PortToStatic)),
      formats := Map(x.formats, Clone))
  }

  function SinkInputToStatic(x: SinkInputInfo): (r: SinkInputInfo)
    ensures SinkInputIsStatic(r) && SinkInputContentEq(x, r)
  {
    SinkInputInfo(
      index := x.index,
      name := OwnText(x.name),
      ownerModule := x.ownerModule,
      client := x.client,
      sink := x.sink,
      sampleSpec := x.sampleSpec,
      channelMap := x.channelMap,
      volume := x.volume,
      bufferUsec := x.bufferUsec,
      sinkUsec := x.sinkUsec,
      resampleMethod := OwnText(x.resampleMethod),
      driver := OwnText(x.driver),
      mute := x.mute,
      proplist := x.proplist,
      corked := x.corked,
      hasVolume := x.hasVolume,
      volumeWritable := x.volumeWritable,
      format := x.format)
  }

  function SourceOutputToStatic(x: SourceOutputInfo): (r: SourceOutputInfo)
    ensures SourceOutputIsStatic(r) && SourceOutputContentEq(x, r)
  {
    SourceOutputInfo(
      index := x.index,
      name := OwnText(x.name),
      ownerModule := x.ownerModule,
      client := x.client,
      source := x.source,
      sampleSpec := x.sampleSpec,
      channelMap := x.channelMap,
      bufferUsec := x.bufferUsec,
      sourceUsec := x.sourceUsec,
      resampleMethod := OwnText(x.resampleMethod),
      driver := OwnText(x.driver),
      proplist := x.proplist,
      corked := x.corked,
      volume := x.volume,
      mute := x.mute,
      hasVolume := x.hasVolume,
      volumeWritable := x.volumeWritable,
      format := x.format)
  }

  // ------------------------------------------- uniqueness and its consequences

  lemma TextUnique(a: Option<Text>, b: Option<Text>)
    requires TextIsStatic(b) && TextContentEq(a, b)
    ensures b == OwnText(a) && b == OptionToStatic(a, TextToStatic)
  {
  }

  lemma PortUnique(p: PortInfo, q: PortInfo)
    requires PortIsStatic(q) && PortContentEq(p, q)
    ensures q == PortToStatic(p)
  {
    TextUnique(p.name, q.name);
    TextUnique(p.description, q.description);
  }

  lemma PortsUnique(ps: seq<PortInfo>, qs: seq<PortInfo>)
    requires PortsAreStatic(qs) && PortsContentEq(ps, qs)
    ensures qs == Map(ps, PortToStatic)
  {
    forall i | 0 <= i < |ps|
      ensures qs[i] == Map(ps, PortToStatic)[i]
    {
      PortUnique(ps[i], qs[i]);
    }
  }

  lemma ActivePortUnique(a: Option<Box<PortInfo>>, b: Option<Box<PortInfo>>)
    requires ActivePortIsStatic(b) && ActivePortContentEq(a, b)
    ensures b == OptionToStatic(a, (x: Box<PortInfo>) => BoxToStatic(x, PortToStatic))
  {
    if a.Some? {
      PortUnique(a.value.inner, b.value.inner);
    }
  }

  /**
   * A static sink with the content of `x` is `SinkToStatic(x)`: the
   * conversion loses nothing and adds nothing.
   */
  lemma SinkToStaticUnique(x: SinkInfo, y: SinkInfo)
    requires SinkIsStatic(y) && SinkContentEq(x, y)
    ensures y == SinkToStatic(x)
  {
    TextUnique(x.name, y.name);
    TextUnique(x.description, y.description);
    TextUnique(x.monitorSourceName, y.monitorSourceName);
    TextUnique(x.driver, y.driver);
    PortsUnique(x.ports, y.ports);
    ActivePortUnique(x.activePort, y.activePort);
    assert y.formats == Map(x.formats, Clone);
  }

  /** Converting twice equals converting once; a static sink converts to itself. */
  lemma SinkToStaticIdempotent(x: SinkInfo)
    ensures SinkToStatic(SinkToStatic(x)) == SinkToStatic(x)
    ensures SinkIsStatic(x) ==> SinkToStatic(x) == x
  {
    var once := SinkToStatic(x);
    SinkToStaticUnique(once, once);
    if SinkIsStatic(x) {
      SinkToStaticUnique(x, x);
    }
  }

  lemma SourceToStaticUnique(x: SourceInfo, y: SourceInfo)
    requires SourceIsStatic(y) && SourceContentEq(x, y)
    ensures y == SourceToStatic(x)
  {
    TextUnique(x.name, y.name);
    TextUnique(x.description, y.description);
    TextUnique(x.monitorOfSinkName, y.monitorOfSinkName);
    TextUnique(x.driver, y.driver);
    PortsUnique(x.ports, y.ports);
    ActivePortUnique(x.activePort, y.activePort);
    assert y.formats == Map(x.formats, Clone);
  }

  lemma SourceToStaticIdempotent(x: SourceInfo)
    ensures SourceToStatic(SourceToStatic(x)) == SourceToStatic(x)
    ensures SourceIsStatic(x) ==> SourceToStatic(x) == x
  {
    var once := SourceToStatic(x);
    SourceToStaticUnique(once, once);
    if SourceIsStatic(x) {
      SourceToStaticUnique(x, x);
    }
  }

  lemma SinkInputToStaticUnique(x: SinkInputInfo, y: SinkInputInfo)
    requires SinkInputIsStatic(y) && SinkInputContentEq(x, y)
    ensures y == SinkInputToStatic(x)
  {
    TextUnique(x.name, y.name);
    TextUnique(x.resampleMethod, y.resampleMethod);
    TextUnique(x.driver, y.driver);
  }

  lemma SinkInputToStaticIdempotent(x: SinkInputInfo)
    ensures SinkInputToStatic(SinkInputToStatic(x)) == SinkInputToStatic(x)
    ensures SinkInputIsStatic(x) ==> SinkInputToStatic(x) == x
  {
    var once := SinkInputToStatic(x);
    SinkInputToStaticUnique(once, once);
    if SinkInputIsStatic(x) {
      SinkInputToStaticUnique(x, x);
    }
  }

  lemma SourceOutputToStaticUnique(x: SourceOutputInfo, y: SourceOutputInfo)
    requires SourceOutputIsStatic(y) && SourceOutputContentEq(x, y)
    ensures y == SourceOutputToStatic(x)
  {
    TextUnique(x.name, y.name);
    TextUnique(x.resampleMethod, y.resampleMethod);
    TextUnique(x.driver, y.driver);
  }

  lemma SourceOutputToStaticIdempotent(x: SourceOutputInfo)
    ensures SourceOutputToStatic(SourceOutputToStatic(x)) == SourceOutputToStatic(x)
    ensures SourceOutputIsStatic(x) ==> SourceOutputToStatic(x) == x
  {
    var once := SourceOutputToStatic(x);
    SourceOutputToStaticUnique(once, once);
    if SourceOutputIsStatic(x) {
      SourceOutputToStaticUnique(x, x);
    }
  }

  /** Two sinks with the same content normalise to the same value. */
  lemma SinkToStaticDeterminedByContent(a: SinkInfo, b: SinkInfo)
    requires SinkContentEq(a, b)
    ensures SinkToStatic(a) == SinkToStatic(b)
  {
    SinkToStaticUnique(a, SinkToStatic(b));
  }

  lemma SourceToStaticDeterminedByContent(a: SourceInfo, b: SourceInfo)
    requires SourceContentEq(a, b)
    ensures SourceToStatic(a) == SourceToStatic(b)
  {
    SourceToStaticUnique(a, SourceToStatic(b));
  }

  lemma SinkInputToStaticDeterminedByContent(a: SinkInputInfo, b: SinkInputInfo)
    requires SinkInputContentEq(a, b)
    ensures SinkInputToStatic(a) == SinkInputToStatic(b)
  {
    SinkInputToStaticUnique(a, SinkInputToStatic(b));
  }

  lemma SourceOutputToStaticDeterminedByContent(a: SourceOutputInfo, b: SourceOutputInfo)
    requires SourceOutputContentEq(a, b)
    ensures SourceOutputToStatic(a) == SourceOutputToStatic(b)
  {
    SourceOutputToStaticUnique(a, SourceOutputToStatic(b));
  }
}
