/**
 * The libpulse introspection records the bridge carries. Only their shape
 * matters here: text fields are `Cow<str>` (borrowed from the callback or
 * owned), containers are `Option`, `Vec` and `Box`, and every other field is a
 * libpulse value type treated as an opaque value with equality.
 */
module Introspect {
  import opened Wrappers

  /** Rust `u32`: indices, priorities, module and client numbers. */
  type uint32 = x: int | 0 <= x < 0x1_0000_0000

  /** Opaque libpulse value types (internal structure out of scope). */
  type Spec(==)            // sample::Spec
  type ChannelMap(==)      // channelmap::Map
  type ChannelVolumes(==)  // volume::ChannelVolumes
  type MicroSeconds(==)    // time::MicroSeconds
  type Proplist(==)        // proplist::Proplist
  type Volume(==)          // volume::Volume
  type SinkState(==)       // def::SinkState
  type SourceState(==)     // def::SourceState
  type FormatInfo(==)      // format::Info
  type SinkFlagSet(==)     // def::SinkFlagSet
  type SourceFlagSet(==)   // def::SourceFlagSet
  type PortAvailable(==)   // def::PortAvailable

  /** `Cow<str>`: text either borrowed from the callback's scope or owned. */
  datatype Text = Borrowed(content: string) | Owned(content: string)

  /**
   * `SinkPortInfo` and `SourcePortInfo`, which have the same fields and the
   * same conversions.
   */
  datatype PortInfo = PortInfo(
    name: Option<Text>,
    description: Option<Text>,
    priority: uint32,
    available: PortAvailable)

  datatype SinkInfo = SinkInfo(
    name: Option<Text>,
    index: uint32,
    description: Option<Text>,
    sampleSpec: Spec,
    channelMap: ChannelMap,
    ownerModule: Option<uint32>,
    volume: ChannelVolumes,
    mute: bool,
    monitorSource: uint32,
    monitorSourceName: Option<Text>,
    latency: MicroSeconds,
    driver: Option<Text>,
    flags: SinkFlagSet,
    proplist: Proplist,
    configuredLatency: MicroSeconds,
    baseVolume: Volume,
    state: SinkState,
    nVolumeSteps: uint32,
    card: Option<uint32>,
    ports: seq<PortInfo>,
    activePort: Option<Box<PortInfo>>,
    formats: seq<FormatInfo>)

  datatype SourceInfo = SourceInfo(
    name: Option<Text>,
    index: uint32,
    description: Option<Text>,
    sampleSpec: Spec,
    channelMap: ChannelMap,
    ownerModule: Option<uint32>,
    volume: ChannelVolumes,
    mute: bool,
    monitorOfSink: Option<uint32>,
    monitorOfSinkName: Option<Text>,
    latency: MicroSeconds,
    driver: Option<Text>,
    flags: SourceFlagSet,
    proplist: Proplist,
    configuredLatency: MicroSeconds,
    baseVolume: Volume,
    state: SourceState,
    nVolumeSteps: uint32,
    card: Option<uint32>,
    ports: seq<PortInfo>,
    activePort: Option<Box<PortInfo>>,
    formats: seq<FormatInfo>)

  datatype SinkInputInfo = SinkInputInfo(
    index: uint32,
    name: Option<Text>,
    ownerModule: Option<uint32>,
    client: Option<uint32>,
    sink: uint32,
    sampleSpec: Spec,
    channelMap: ChannelMap,
    volume: ChannelVolumes,
    bufferUsec: MicroSeconds,
    sinkUsec: MicroSeconds,
    resampleMethod: Option<Text>,
    driver: Option<Text>,
    mute: bool,
    proplist: Proplist,
    corked: bool,
    hasVolume: bool,
    volumeWritable: bool,
    format: FormatInfo)

  datatype SourceOutputInfo = SourceOutputInfo(
    index: uint32,
    name: Option<Text>,
    ownerModule: Option<uint32>,
    client: Option<uint32>,
    source: uint32,
    sampleSpec: Spec,
    channelMap: ChannelMap,
    bufferUsec: MicroSeconds,
    sourceUsec: MicroSeconds,
    resampleMethod: Option<Text>,
    driver: Option<Text>,
    proplist: Proplist,
    corked: bool,
    volume: ChannelVolumes,
    mute: bool,
    hasVolume: bool,
    volumeWritable: bool,
    format: FormatInfo)
}
