/** The device catalog: the input and output device lists, the host's
    defaults, and per-device capabilities (src/audio/mod.rs). Every failure
    of the host reduces to less data, never to an error. */
module Audio {
  import opened Wrappers
  import Cpal
  import Iterators
  import opened Devices

  /** `AudioSystem`: a handle on the default host. */
  datatype AudioSystem = AudioSystem(host: Cpal.Host)

  /** `AudioSystem::new`: takes the default host; it has no failure path. */
  function New(host: Cpal.Host): (r: Result<AudioSystem>)
    ensures r.Ok? && r.value.host == host
  {
    Ok(AudioSystem(host))
  }

  /** The `filter_map` closure of the enumerations: the device if its name
      can be read, as a device of role `t`. */
  function Named(t: DeviceType): Cpal.Device -> Option<AudioDevice>
  {
    d => Devices.New(d, t).ToOption()
  }

  /** One role's enumeration: the nameable devices, or nothing when the
      enumeration itself fails. */
  function Collect(devices: Result<seq<Cpal.Device>>, t: DeviceType): (r: seq<AudioDevice>)
    ensures devices.Err? ==> r == []
    ensures devices.Ok? ==> |r| <= |devices.value|
    ensures forall k :: 0 <= k < |r| ==> r[k].deviceType == t
  {
    match devices
    case Ok(ds) =>
      Iterators.FilterMapIsKept(ds, Named(t));
      Iterators.FilterMap(ds, Named(t))
    case Err(_) => []
  }

  /** A successful enumeration keeps exactly the devices whose name query
      succeeds, each tagged with the role and carrying the reported name, in
      host order: the kept positions are increasing, and a position is kept
      if and only if its name can be read. */
  lemma CollectKeepsNamedInOrder(ds: seq<Cpal.Device>, t: DeviceType)
    ensures var r := Collect(Ok(ds), t);
            var idx := Iterators.Kept(ds, Named(t));
            && |r| == |idx|
            && (forall k, l :: 0 <= k < l < |idx| ==> idx[k] < idx[l])
            && (forall k :: 0 <= k < |r| ==>
                  idx[k] < |ds| && ds[idx[k]].name.Ok? && r[k] == AudioDevice(ds[idx[k]], ds[idx[k]].name.value, t))
            && (forall j :: 0 <= j < |ds| ==> (j in idx <==> ds[j].name.Ok?))
  {
    var r := Collect(Ok(ds), t);
    var idx := Iterators.Kept(ds, Named(t));
    Iterators.FilterMapIsKept(ds, Named(t));
    Iterators.KeptSound(ds, Named(t));
    forall j | 0 <= j < |ds| && ds[j].name.Ok?
      ensures j in idx
    {
      assert Named(t)(ds[j]).Some?;
      var k := Iterators.KeptComplete(ds, Named(t), j);
    }
    forall j | 0 <= j < |ds| && j in idx
      ensures ds[j].name.Ok?
    {
      var k :| 0 <= k < |idx| && idx[k] == j;
      assert Named(t)(ds[idx[k]]).Some?;
    }
  }

  /** `get_available_devices`: the input list and the output list. */
  function GetAvailableDevices(sys: AudioSystem): (r: (seq<AudioDevice>, seq<AudioDevice>))
    ensures forall k :: 0 <= k < |r.0| ==> r.0[k].deviceType == Input
    ensures forall k :: 0 <= k < |r.1| ==> r.1[k].deviceType == Output
    ensures sys.host.inputDevices.Err? ==> r.0 == []
    ensures sys.host.outputDevices.Err? ==> r.1 == []
  {
    (Collect(sys.host.inputDevices, Input), Collect(sys.host.outputDevices, Output))
  }

  /** Each list depends on its own role's enumeration only, so a failure of
      one enumeration leaves the other list as it would otherwise be. */
  lemma RolesAreIndependent(a: AudioSystem, b: AudioSystem)
    ensures a.host.inputDevices == b.host.inputDevices ==>
      GetAvailableDevices(a).0 == GetAvailableDevices(b).0
    ensures a.host.outputDevices == b.host.outputDevices ==>
      GetAvailableDevices(a).1 == GetAvailableDevices(b).1
  {
  }

  /** `get_default_devices`: the host's default per role, when there is one
      and its name can be read. */
  function GetDefaultDevices(sys: AudioSystem): (r: (Option<AudioDevice>, Option<AudioDevice>))
    ensures r.0.Some? <==>
      sys.host.defaultInputDevice.Some? && sys.host.defaultInputDevice.value.name.Ok?
    ensures r.0.Some? ==>
      && r.0.value.deviceType == Input
      && r.0.value.name == sys.host.defaultInputDevice.value.name.value
    ensures r.1.Some? <==>
      sys.host.defaultOutputDevice.Some? && sys.host.defaultOutputDevice.value.name.Ok?
    ensures r.1.Some? ==>
      && r.1.value.deviceType == Output
      && r.1.value.name == sys.host.defaultOutputDevice.value.name.value
  {
    var input := match sys.host.defaultInputDevice
      case Some(d) => Devices.New(d, Input).ToOption()
      case None => None;
    var output := match sys.host.defaultOutputDevice
      case Some(d) => Devices.New(d, Output).ToOption()
      case None => None;
    (input, output)
  }

  /** `AudioSystem::get_supported_configs` delegates to the device. */
  function GetSupportedConfigs(sys: AudioSystem, device: AudioDevice): (r: seq<SupportedConfig>)
    ensures r == Devices.GetSupportedConfigs(device)
  {
    Devices.GetSupportedConfigs(device)
  }
}
