/** The host audio API as plain values: every answer the host could give to
    a query is part of the value, so the audio layer becomes a pure function
    of it. Only the queries the audio layer makes are represented. */
module Cpal {
  import opened Wrappers
  import opened Ints

  /** The buffer-size range a stream configuration advertises. */
  datatype SupportedBufferSize = Range(min: u32, max: u32) | Unknown

  /** One advertised stream configuration range. */
  datatype SupportedStreamConfigRange = SupportedStreamConfigRange(
    minSampleRate: u32,
    maxSampleRate: u32,
    bufferSize: SupportedBufferSize)

  /** A host device: the answers to its name query and to its two
      configuration queries. */
  datatype Device = Device(
    name: Result<string>,
    supportedInputConfigs: Result<seq<SupportedStreamConfigRange>>,
    supportedOutputConfigs: Result<seq<SupportedStreamConfigRange>>)

  /** The default host: its two device enumerations and two defaults. */
  datatype Host = Host(
    inputDevices: Result<seq<Device>>,
    outputDevices: Result<seq<Device>>,
    defaultInputDevice: Option<Device>,
    defaultOutputDevice: Option<Device>)
}
