/** The settings dialog's state and its transitions
    (src/interface/settings/dialog.rs): default-device reconciliation at
    construction, the device combo-box text, the clicks that change the
    selection, Retry, the update check and Apply. Rendering is not modelled;
    each user action is an `Event`. */
module Dialog {
  import opened Wrappers
  import opened Ints
  import Cpal
  import opened Devices
  import Audio
  import Prefs
  import Semver
  import Update

  datatype SettingsDialog = SettingsDialog(
    settings: Prefs.Settings,
    updateChecker: Update.UpdateChecker,
    audioSystem: Option<Audio.AudioSystem>,
    inputDevices: seq<AudioDevice>,
    outputDevices: seq<AudioDevice>)

  /** The buffer sizes the dialog offers, in frames. */
  const BufferSizes: seq<u32> := [64, 128, 256, 512, 1024]

  /** The sample rates the dialog offers, in Hz. */
  const SampleRates: seq<u32> := [44100, 48000, 96000]

  /** The first position whose device is called `name`, as the
      reconciliation loop finds it before it breaks. */
  function FirstIndexNamed(devices: seq<AudioDevice>, name: string): (r: Option<nat>)
    ensures r.Some? ==> r.value < |devices| && Name(devices[r.value]) == name
    ensures r.Some? ==> forall j :: 0 <= j < r.value ==> Name(devices[j]) != name
    ensures r.None? ==> forall j :: 0 <= j < |devices| ==> Name(devices[j]) != name
    decreases |devices|
  {
    if |devices| == 0 then None
    else if Name(devices[0]) == name then Some(0)
    else
      match FirstIndexNamed(devices[1..], name)
      case None => None
      case Some(i) => Some(i + 1)
  }

  /** One role's reconciliation: an existing selection is kept; an unset one
      takes the first device named like the host default, and stays unset
      when there is no default or no device of that name. */
  function Reconcile(selected: Option<nat>, default: Option<AudioDevice>, devices: seq<AudioDevice>): (r: Option<nat>)
    ensures selected.Some? ==> r == selected
    ensures selected.None? && default.None? ==> r.None?
    ensures selected.None? && default.Some? ==>
      (r.Some? <==> exists j :: 0 <= j < |devices| && Name(devices[j]) == Name(default.value))
    ensures selected.None? && r.Some? ==>
      && default.Some?
      && r.value < |devices|
      && Name(devices[r.value]) == Name(default.value)
      && forall j :: 0 <= j < r.value ==> Name(devices[j]) != Name(default.value)
  {
    match selected
    case Some(_) => selected
    case None =>
      match default
      case None => None
      case Some(dev) => FirstIndexNamed(devices, Name(dev))
  }

  /** `SettingsDialog::new`, from the loaded settings and the default host:
      the device lists come from the audio system, unset selections are
      reconciled against the host defaults, set ones are never overwritten,
      and nothing else in the settings changes. */
  function New(loaded: Prefs.Settings, host: Cpal.Host): (d: SettingsDialog)
    ensures d.audioSystem == Some(Audio.AudioSystem(host))
    ensures (d.inputDevices, d.outputDevices) == Audio.GetAvailableDevices(Audio.AudioSystem(host))
    ensures d.updateChecker == Update.New()
    ensures d.settings == loaded.(selectedInputDevice := d.settings.selectedInputDevice,
                                  selectedOutputDevice := d.settings.selectedOutputDevice)
    ensures d.settings.selectedInputDevice == Reconcile(
      loaded.selectedInputDevice, Audio.GetDefaultDevices(Audio.AudioSystem(host)).0, d.inputDevices)
    ensures d.settings.selectedOutputDevice == Reconcile(
      loaded.selectedOutputDevice, Audio.GetDefaultDevices(Audio.AudioSystem(host)).1, d.outputDevices)
  {
    var audioSystem := Audio.New(host).ToOption();
    var (inputs, outputs) := match audioSystem
      case Some(sys) => Audio.GetAvailableDevices(sys)
      case None => ([], []);
    var settings :=
      if loaded.selectedInputDevice.None? || loaded.selectedOutputDevice.None? then
        match audioSystem
        case Some(sys) =>
          var (defaultInput, defaultOutput) := Audio.GetDefaultDevices(sys);
          loaded.(selectedInputDevice := Reconcile(loaded.selectedInputDevice, defaultInput, inputs),
                  selectedOutputDevice := Reconcile(loaded.selectedOutputDevice, defaultOutput, outputs))
        case None => loaded
      else loaded;
    SettingsDialog(settings, Update.New(), audioSystem, inputs, outputs)
  }

  /** A role's reconciled selection depends on that role's data alone: the
      stored selection, the host's list and the host's default for that role. */
  lemma NewReconcilesRolesIndependently(l1: Prefs.Settings, h1: Cpal.Host, l2: Prefs.Settings, h2: Cpal.Host)
    ensures l1.selectedInputDevice == l2.selectedInputDevice
         && h1.inputDevices == h2.inputDevices
         && h1.defaultInputDevice == h2.defaultInputDevice
         ==> New(l1, h1).settings.selectedInputDevice == New(l2, h2).settings.selectedInputDevice
    ensures l1.selectedOutputDevice == l2.selectedOutputDevice
         && h1.outputDevices == h2.outputDevices
         && h1.defaultOutputDevice == h2.defaultOutputDevice
         ==> New(l1, h1).settings.selectedOutputDevice == New(l2, h2).settings.selectedOutputDevice
  {
  }

  /** A named host device with no configuration tables. */
  function NamedDevice(name: string): Cpal.Device
  {
    Cpal.Device(Ok(name), Err("unsupported"), Err("unsupported"))
  }

  /** The catalog of the scenario below: both inputs survive, in order. */
  lemma MicCatalog()
    ensures var ds := [NamedDevice("Mic A"), NamedDevice("Mic B")];
            Audio.Collect(Ok(ds), Input)
              == [AudioDevice(NamedDevice("Mic A"), "Mic A", Input),
                  AudioDevice(NamedDevice("Mic B"), "Mic B", Input)]
  {
    var ds := [NamedDevice("Mic A"), NamedDevice("Mic B")];
    assert ds[1..] == [NamedDevice("Mic B")];
    assert ds[1..][1..] == [];
  }

  /** Inputs "Mic A" and "Mic B" with "Mic B" as the default: starting from
      the defaults, the input selection becomes position 1. */
  lemma MicBScenario()
    ensures var host := Cpal.Host(Ok([NamedDevice("Mic A"), NamedDevice("Mic B")]), Ok([]),
                                  Some(NamedDevice("Mic B")), None);
            New(Prefs.Default(), host).settings.selectedInputDevice == Some(1)
  {
    var host := Cpal.Host(Ok([NamedDevice("Mic A"), NamedDevice("Mic B")]), Ok([]),
                          Some(NamedDevice("Mic B")), None);
    var a := AudioDevice(NamedDevice("Mic A"), "Mic A", Input);
    var b := AudioDevice(NamedDevice("Mic B"), "Mic B", Input);
    MicCatalog();
    assert Audio.GetAvailableDevices(Audio.AudioSystem(host)).0 == [a, b];
    assert Audio.GetDefaultDevices(Audio.AudioSystem(host)).0 == Some(b);
    assert "Mic A" != "Mic B";
    assert [a, b][1..] == [b];
    assert FirstIndexNamed([b], "Mic B") == Some(0);
    assert FirstIndexNamed([a, b], "Mic B") == Some(1);
  }

  /** The combo-box text for a role: the selected device's name when the
      stored position is inside the list, a prompt when it is outside (the
      list is then not indexed), and a notice when nothing is selected. */
  function SelectedText(selected: Option<nat>, devices: seq<AudioDevice>, role: DeviceType): (text: string)
    ensures selected.Some? && selected.value < |devices| ==> text == Name(devices[selected.value])
    ensures selected.Some? && selected.value >= |devices| ==>
      text == (if role == Input then "Select Input Device" else "Select Output Device")
    ensures selected.None? ==>
      text == (if role == Input then "No Input Device Selected" else "No Output Device Selected")
  {
    match selected
    case Some(idx) =>
      if idx < |devices| then Name(devices[idx])
      else (match role case Input => "Select Input Device" case Output => "Select Output Device")
    case None =>
      match role
      case Input => "No Input Device Selected"
      case Output => "No Output Device Selected"
  }

  /** A user action in the dialog. Device clicks carry the clicked row; the
      buffer and rate clicks carry the position of the button pressed. */
  datatype Event =
    | ToggleAutoUpdate
    | CheckForUpdates(fetched: Result<Semver.Version>)
    | Retry(host: Cpal.Host)
    | ClickInputDevice(row: nat)
    | ClickOutputDevice(row: nat)
    | ClickBufferSize(button: nat)
    | ClickSampleRate(button: nat)

  /** An event the dialog can deliver: clicks hit a row or button that is
      shown, and Retry is offered only while there is no audio system. */
  predicate Enabled(d: SettingsDialog, e: Event)
  {
    match e
    case Retry(_) => d.audioSystem.None?
    case ClickInputDevice(i) => i < |d.inputDevices|
    case ClickOutputDevice(i) => i < |d.outputDevices|
    case ClickBufferSize(k) => k < |BufferSizes|
    case ClickSampleRate(k) => k < |SampleRates|
    case _ => true
  }

  /** The message the Updates panel stores after "Check for Updates". */
  function StatusMessage(checker: Update.UpdateChecker, fetched: Result<Semver.Version>): (msg: string)
    ensures fetched.Err? ==> msg == "Failed to check for updates: " + fetched.error
    ensures fetched.Ok? && Semver.Less(checker.currentVersion, fetched.value) ==>
      msg == "Update available! Current version: " + Semver.Format(checker.currentVersion)
             + ", Latest version: " + Semver.Format(fetched.value)
    ensures fetched.Ok? && !Semver.Less(checker.currentVersion, fetched.value) ==>
      msg == "You're running the latest version!"
  {
    match Update.CheckForUpdates(checker, fetched)
    case Ok(status) =>
      if status.updateAvailable then
        // the status of a successful check always names the latest version
        "Update available! Current version: " + Semver.Format(status.currentVersion)
        + ", Latest version: " + Semver.Format(status.latestVersion.value)
      else "You're running the latest version!"
    case Err(e) => "Failed to check for updates: " + e
  }

  /** Retry: a fresh audio system replaces both device lists wholesale; the
      stored selections are left as they are, whatever the new lists hold. */
  function RetryAudio(d: SettingsDialog, host: Cpal.Host): (r: SettingsDialog)
    ensures r.settings == d.settings && r.updateChecker == d.updateChecker
    ensures r.audioSystem == Some(Audio.AudioSystem(host))
    ensures (r.inputDevices, r.outputDevices) == Audio.GetAvailableDevices(Audio.AudioSystem(host))
  {
    var audioSystem := Audio.New(host).ToOption();
    match audioSystem
    case Some(sys) =>
      var (inputs, outputs) := Audio.GetAvailableDevices(sys);
      d.(audioSystem := audioSystem, inputDevices := inputs, outputDevices := outputs)
    case None => d.(audioSystem := audioSystem)
  }

  /** The dialog after one event. Device clicks store the clicked row; buffer
      and rate clicks store the pressed button's value; every other field is
      left alone. */
  function Step(d: SettingsDialog, e: Event): (r: SettingsDialog)
    requires Enabled(d, e)
    ensures e.ClickInputDevice? ==>
      && r.settings.selectedInputDevice == Some(e.row) && e.row < |r.inputDevices|
      && r == d.(settings := d.settings.(selectedInputDevice := Some(e.row)))
    ensures e.ClickOutputDevice? ==>
      && r.settings.selectedOutputDevice == Some(e.row) && e.row < |r.outputDevices|
      && r == d.(settings := d.settings.(selectedOutputDevice := Some(e.row)))
    ensures e.ClickBufferSize? ==>
      && r.settings.bufferSize in BufferSizes
      && r == d.(settings := d.settings.(bufferSize := BufferSizes[e.button]))
    ensures e.ClickSampleRate? ==>
      && r.settings.sampleRate in SampleRates
      && r == d.(settings := d.settings.(sampleRate := SampleRates[e.button]))
    ensures e.ToggleAutoUpdate? ==>
      r == d.(settings := d.settings.(autoUpdate := !d.settings.autoUpdate))
    ensures e.CheckForUpdates? ==>
      r == d.(settings := d.settings.(updateStatus := Some(StatusMessage(d.updateChecker, e.fetched))))
    ensures e.Retry? ==>
      && r.settings == d.settings && r.updateChecker == d.updateChecker
      && r.audioSystem == Some(Audio.AudioSystem(e.host))
      && (r.inputDevices, r.outputDevices) == Audio.GetAvailableDevices(Audio.AudioSystem(e.host))
  {
    match e
    case ToggleAutoUpdate => d.(settings := d.settings.(autoUpdate := !d.settings.autoUpdate))
    case CheckForUpdates(fetched) =>
      d.(settings := d.settings.(updateStatus := Some(StatusMessage(d.updateChecker, fetched))))
    case Retry(host) => RetryAudio(d, host)
    case ClickInputDevice(i) => d.(settings := d.settings.(selectedInputDevice := Some(i)))
    case ClickOutputDevice(i) => d.(settings := d.settings.(selectedOutputDevice := Some(i)))
    case ClickBufferSize(k) => d.(settings := d.settings.(bufferSize := BufferSizes[k]))
    case ClickSampleRate(k) => d.(settings := d.settings.(sampleRate := SampleRates[k]))
  }

  /** The audio system never fails to start, so a freshly built dialog never
      offers Retry. */
  lemma NewNeverOffersRetry(loaded: Prefs.Settings, host: Cpal.Host, other: Cpal.Host)
    ensures !Enabled(New(loaded, host), Retry(other))
  {
  }

  /** Clicking a device row makes the combo box show that device. */
  lemma ClickShowsDevice(d: SettingsDialog, i: nat)
    requires i < |d.inputDevices|
    ensures var r := Step(d, ClickInputDevice(i));
            SelectedText(r.settings.selectedInputDevice, r.inputDevices, Input) == Name(d.inputDevices[i])
  {
  }

  /** Both stored device positions point into the current lists (or are unset). */
  predicate SelectionsInRange(d: SettingsDialog)
  {
    && (d.settings.selectedInputDevice.Some? ==> d.settings.selectedInputDevice.value < |d.inputDevices|)
    && (d.settings.selectedOutputDevice.Some? ==> d.settings.selectedOutputDevice.value < |d.outputDevices|)
  }

  /** Both stored values are among the offered ones. */
  predicate Recommended(s: Prefs.Settings)
  {
    s.bufferSize in BufferSizes && s.sampleRate in SampleRates
  }

  /** A sequence of events each enabled in the state it meets. */
  predicate Runs(d: SettingsDialog, es: seq<Event>)
    decreases |es|
  {
    |es| == 0 || (Enabled(d, es[0]) && Runs(Step(d, es[0]), es[1..]))
  }

  /** The dialog after a run of events. */
  function Run(d: SettingsDialog, es: seq<Event>): SettingsDialog
    requires Runs(d, es)
    decreases |es|
  {
    if |es| == 0 then d else Run(Step(d, es[0]), es[1..])
  }

  /** Once the buffer size and sample rate are values the dialog offers, no
      run of events can move them outside those sets. */
  lemma {:induction false} RunKeepsRecommended(d: SettingsDialog, es: seq<Event>)
    requires Runs(d, es) && Recommended(d.settings)
    ensures Recommended(Run(d, es).settings)
    decreases |es|
  {
    if |es| > 0 {
      var d' := Step(d, es[0]);
      assert Recommended(d'.settings);
      RunKeepsRecommended(d', es[1..]);
    }
  }

  /** Without Retry, stored positions that point into the lists keep doing so:
      only clicks write a position, and they write a shown row. */
  lemma {:induction false} RunWithoutRetryKeepsSelectionsInRange(d: SettingsDialog, es: seq<Event>)
    requires Runs(d, es) && SelectionsInRange(d)
    requires forall k :: 0 <= k < |es| ==> !es[k].Retry?
    ensures SelectionsInRange(Run(d, es))
    decreases |es|
  {
    if |es| > 0 {
      var d' := Step(d, es[0]);
      assert !es[0].Retry?;
      assert SelectionsInRange(d');
      assert forall k :: 0 <= k < |es[1..]| ==> es[1..][k] == es[k + 1];
      RunWithoutRetryKeepsSelectionsInRange(d', es[1..]);
    }
  }

  /** Once the audio system exists it stays, so no run from such a state
      contains Retry: with `AudioSystem::new` unable to fail, the Retry path
      is dead for every dialog built by `New`. */
  lemma {:induction false} RunKeepsAudioSystem(d: SettingsDialog, es: seq<Event>)
    requires Runs(d, es) && d.audioSystem.Some?
    ensures Run(d, es).audioSystem.Some?
    ensures forall k :: 0 <= k < |es| ==> !es[k].Retry?
    decreases |es|
  {
    if |es| > 0 {
      var d' := Step(d, es[0]);
      assert !es[0].Retry? && d'.audioSystem.Some?;
      RunKeepsAudioSystem(d', es[1..]);
      forall k | 0 <= k < |es|
        ensures !es[k].Retry?
      {
        if k > 0 {
          assert es[k] == es[1..][k - 1];
        }
      }
    }
  }

  /** Every run from a freshly built dialog keeps in-range selections in
      range. */
  lemma RunFromNewKeepsSelectionsInRange(loaded: Prefs.Settings, host: Cpal.Host, es: seq<Event>)
    requires Runs(New(loaded, host), es) && SelectionsInRange(New(loaded, host))
    ensures SelectionsInRange(Run(New(loaded, host), es))
  {
    RunKeepsAudioSystem(New(loaded, host), es);
    RunWithoutRetryKeepsSelectionsInRange(New(loaded, host), es);
  }

  /** Retry does not re-check stored positions: a selection of row 1 survives
      a retry that finds a single input device, and the combo box then shows
      the prompt instead of a device. Reaching Retry needs a state without an
      audio system, which only a failing `AudioSystem::new` could produce. */
  lemma RetryCanStrandSelection()
    ensures var d := SettingsDialog(
                Prefs.Default().(selectedInputDevice := Some(1)), Update.New(), None,
                [AudioDevice(NamedDevice("Mic A"), "Mic A", Input),
                 AudioDevice(NamedDevice("Mic B"), "Mic B", Input)], []);
            var host := Cpal.Host(Ok([NamedDevice("Mic A")]), Ok([]), None, None);
            var r := Step(d, Retry(host));
            && SelectionsInRange(d)
            && !SelectionsInRange(r)
            && SelectedText(r.settings.selectedInputDevice, r.inputDevices, Input) == "Select Input Device"
  {
    var host := Cpal.Host(Ok([NamedDevice("Mic A")]), Ok([]), None, None);
    Audio.CollectKeepsNamedInOrder([NamedDevice("Mic A")], Input);
  }

  /** What Apply leaves behind: the message it shows and the files. */
  datatype Applied = Applied(message: string, files: Prefs.FileSystem)

  const SavedLabel: string := "Settings saved successfully. Restart may be required for some changes to take effect."
  const SaveFailedLabel: string := "Failed to save settings"

  /** "Apply Settings": saves the dialog's settings; a failure is reported in
      the label and leaves the files as they were. The dialog itself is not
      changed either way. */
  function Apply(d: SettingsDialog, fs: Prefs.FileSystem, configDir: Option<Prefs.Path>, codec: Prefs.Codec,
                 createDirs: Outcome, write: Outcome): (r: Applied)
    ensures r.message == SavedLabel <==> createDirs.Pass? && write.Pass?
    ensures r.message == SaveFailedLabel <==> !(createDirs.Pass? && write.Pass?)
    ensures !(createDirs.Pass? && write.Pass?) ==> r.files == fs
    ensures createDirs.Pass? && write.Pass? ==>
      r.files == fs[Prefs.ConfigPath(configDir) := codec.encode(Prefs.Persist(d.settings))]
  {
    match Prefs.Save(d.settings, fs, configDir, codec, createDirs, write)
    case Ok(files) => Applied(SavedLabel, files)
    case Err(_) => Applied(SaveFailedLabel, fs)
  }

  /** After a successful Apply, the next start loads back the dialog's
      settings with the update status cleared. */
  lemma ApplyThenLoad(d: SettingsDialog, fs: Prefs.FileSystem, configDir: Option<Prefs.Path>, codec: Prefs.Codec)
    requires Prefs.RoundTrips(codec)
    ensures var r := Apply(d, fs, configDir, codec, Pass, Pass);
            Prefs.Load(r.files, configDir, codec) == d.settings.(updateStatus := None)
  {
    Prefs.SaveThenLoad(d.settings, fs, configDir, codec, Pass, Pass);
  }
}
