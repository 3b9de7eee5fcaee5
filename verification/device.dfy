/** A named host device of a given role, and the capability list it reports
    (src/audio/device.rs). */
module Devices {
  import opened Wrappers
  import opened Ints
  import Cpal
  import Iterators

  datatype DeviceType = Input | Output

  /** A host device together with the name read from it at construction. */
  datatype AudioDevice = AudioDevice(device: Cpal.Device, name: string, deviceType: DeviceType)

  /** One capability entry as the application sees it; declared in
      src/audio/mod.rs. `bufferSize` is `None` when the host reports no bound. */
  datatype SupportedConfig = SupportedConfig(sampleRate: u32, bufferSize: Option<u32>)

  const NameError: string := "Failed to get device name"

  /** `AudioDevice::new`: reads the device's name once; fails exactly when
      that query fails. */
  function New(device: Cpal.Device, deviceType: DeviceType): (r: Result<AudioDevice>)
    ensures r.Ok? <==> device.name.Ok?
    ensures r.Ok? ==>
      && r.value.name == device.name.value
      && r.value.deviceType == deviceType
      && r.value.device == device
    ensures r.Err? ==> r.error == NameError
  {
    match device.name
    case Ok(n) => Ok(AudioDevice(device, n, deviceType))
    case Err(_) => Err(NameError)
  }

  /** `AudioDevice::name`. */
  function Name(d: AudioDevice): string
  {
    d.name
  }

  /** The `Display` implementation: the name and nothing around it. */
  function Display(d: AudioDevice): string
  {
    d.name
  }

  /** A constructed device answers `name()` and `Display` with exactly the
      name the host reported. */
  lemma NameAndDisplayAreHostName(device: Cpal.Device, deviceType: DeviceType)
    requires New(device, deviceType).Ok?
    ensures Name(New(device, deviceType).value) == device.name.value
    ensures Display(New(device, deviceType).value) == device.name.value
  {
  }

  /** `DeviceType::as_str`. */
  function AsStr(t: DeviceType): (s: string)
    ensures t == Input <==> s == "Input"
    ensures t == Output <==> s == "Output"
  {
    match t
    case Input => "Input"
    case Output => "Output"
  }

  /** The buffer bound a configuration reports: the range's maximum, with its
      minimum discarded, or nothing when the host does not know. */
  function BufferBound(b: Cpal.SupportedBufferSize): Option<u32>
  {
    match b
    case Range(_, max) => Some(max)
    case Unknown => None
  }

  /** The `filter_map` closure of `get_supported_configs`: it never answers
      `None`. */
  function ToSupportedConfig(c: Cpal.SupportedStreamConfigRange): (r: Option<SupportedConfig>)
    ensures r.Some?
  {
    Some(SupportedConfig(c.maxSampleRate, BufferBound(c.bufferSize)))
  }

  /** `AudioDevice::get_supported_configs`: the output configuration table
      (whatever the device's role), or nothing if the query fails. */
  function GetSupportedConfigs(d: AudioDevice): (r: seq<SupportedConfig>)
    ensures d.device.supportedOutputConfigs.Err? ==> r == []
    ensures d.device.supportedOutputConfigs.Ok? ==>
      var cs := d.device.supportedOutputConfigs.value;
      && |r| == |cs|
      && forall k :: 0 <= k < |cs| ==>
           && r[k].sampleRate == cs[k].maxSampleRate
           && (cs[k].bufferSize.Unknown? ==> r[k].bufferSize == None)
           && (cs[k].bufferSize.Range? ==> r[k].bufferSize == Some(cs[k].bufferSize.max))
  {
    match d.device.supportedOutputConfigs
    case Ok(cs) =>
      Iterators.FilterMapTotal(cs, ToSupportedConfig);
      Iterators.FilterMap(cs, ToSupportedConfig)
    case Err(_) => []
  }

  /** The capability list ignores the role tag, the name, and the input
      configuration table: only the output table is queried. */
  lemma {:induction false} SupportedConfigsIgnoreRole(a: AudioDevice, b: AudioDevice)
    requires a.device.supportedOutputConfigs == b.device.supportedOutputConfigs
    ensures GetSupportedConfigs(a) == GetSupportedConfigs(b)
  {
  }
}
