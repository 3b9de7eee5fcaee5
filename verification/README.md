# Sonus settings core, modelled in Dafny

Sonus is the skeleton of a desktop audio workstation. Under its egui
windows sits a small amount of sequential logic, and this project models it
as pure functions over plain values:

- the **device catalog** (`Audio`, `Devices`): the input and output device
  lists built from the host's enumerations, the host defaults, and the
  capability list of a device;
- the **settings dialog** (`Dialog`): default-device reconciliation when the
  dialog is built, the combo-box text, the clicks that set a device, buffer
  size or sample rate, Retry, the update check, and Apply;
- the **settings record** (`Prefs`): defaults, `load` with its fallback,
  `save`, the persisted field set and the configuration path;
- the **update decision** (`Github`, `Update`, `Semver`): stripping the
  leading `v` from the release tag, parsing it, and comparing it with the
  running version 0.1.0.

Every answer from outside is a parameter. A host is a `Cpal.Host` value
that holds its enumeration results, its defaults, and for each device the
results of its name query and configuration queries. The file system is a
map from paths to contents. The JSON codec is a `Prefs.Codec` pair of
functions. `Prefs.RoundTrips` states the one thing the model needs of it:
decoding reads back what encoding wrote. This is a hypothesis of the
lemmas that use it, not an axiom. The release feed is the pair of outcomes
"request sent" and "body decoded". `Semver` models the part of the
`semver` crate used here: release versions `MAJOR.MINOR.PATCH`, their
precedence, their text form, and `Version::parse` on that form.

Modules follow the source files: `Devices` (src/audio/device.rs), `Audio`
(src/audio/mod.rs), `Prefs` (src/interface/settings/mod.rs), `Dialog`
(src/interface/settings/dialog.rs), `Github` (src/update/github.rs) and
`Update` (src/update/mod.rs). The helper modules are `Wrappers`, `Ints`,
`Iterators` (Rust's `filter_map(..).collect()`) and `Cpal`.

Two guarantees a reader might expect are not given by the code, so the
model does not promise them either:

- A device name is not required to be non-empty. The code stores whatever
  the host reports, so the model promises only that the stored name equals
  the reported one.
- A capability entry's buffer maximum is passed through unchanged, so it
  may be 0.

## Model

| member | source | states |
|---|---|---|
| `Devices.New` | src/audio/device.rs:20-27 | Construction succeeds exactly when the name query succeeds. The device keeps the queried name, the given role and the host device. A failure carries the "Failed to get device name" context. |
| `Devices.NameAndDisplayAreHostName` | src/audio/device.rs:29-31 | For a constructed device, both `name()` and `Display` give exactly the name the host reported. |
| `Devices.AsStr` | src/audio/device.rs:58-65 | Input is labelled "Input" and Output "Output", in both directions, so the two labels are distinct. |
| `Devices.ToSupportedConfig` | src/audio/device.rs:40-51 | The `filter_map` closure over host configurations never answers `None`. |
| `Devices.GetSupportedConfigs` | src/audio/device.rs:37-55 | A failed output-configuration query gives an empty list. Otherwise there is one entry per host configuration, in order. Each entry has the maximum sample rate, `Some(max)` for a buffer range (the minimum is dropped) and `None` for an unknown buffer size. |
| `Devices.SupportedConfigsIgnoreRole` | src/audio/device.rs:38 | Two devices with the same output-configuration table get the same list, whatever their role, name or input table. |
| `Iterators.FilterMapTotal` | src/audio/device.rs:39-52 | When the closure never answers `None`, `filter_map` then `collect` drops nothing: one output per input, position for position. |
| `Iterators.FilterMapIsKept` | src/audio/mod.rs:21-23 | The k-th collected element is the closure's payload at the k-th position the closure keeps. |
| `Audio.New` | src/audio/mod.rs:12-15 | Building the audio system never fails, and it holds the given host. |
| `Audio.Collect` | src/audio/mod.rs:18-25 | A failed enumeration gives an empty list. A successful one gives a list no longer than the host's. Every device in it has the requested role. |
| `Audio.CollectKeepsNamedInOrder` | src/audio/mod.rs:18-24 | The list is the host list with the devices whose name query fails removed. Kept positions increase, so order is preserved. A position is kept if and only if its name can be read. Each kept device carries its reported name and the role. |
| `Audio.GetAvailableDevices` | src/audio/mod.rs:17-37 | Every input-list device has role Input and every output-list device has role Output. A failed enumeration empties only its own list. |
| `Audio.RolesAreIndependent` | src/audio/mod.rs:17-36 | Each list depends only on its own role's enumeration. |
| `Audio.GetDefaultDevices` | src/audio/mod.rs:39-49 | A role's default is present exactly when the host has one and its name can be read. When present, it carries that name and the role's tag. |
| `Audio.GetSupportedConfigs` | src/audio/mod.rs:51-53 | Returns exactly the device's own capability list. |
| `Prefs.PersistRestore` | src/interface/settings/mod.rs:8-17 | The persisted field set is everything except `update_status`. Restoring a persisted record loses exactly that field. Persisting a restored record changes nothing. |
| `Prefs.ConfigPath` | src/interface/settings/mod.rs:40-45 | The path is the config directory, or `.` when there is none, followed by `sonus` and then `settings.json`. |
| `Prefs.ConfigPathParent` | src/interface/settings/mod.rs:31-34 | The directory `save` creates is the config directory (or `.`) followed by `sonus`. |
| `Prefs.Load` | src/interface/settings/mod.rs:20-28 | When the file is missing or does not parse, `load` returns the documented defaults (auto-update off, 512 frames, 44100 Hz, nothing selected). Otherwise it returns exactly the parsed fields. The status is always empty and there is no error path. |
| `Prefs.Save` | src/interface/settings/mod.rs:30-38 | Saving succeeds exactly when both the directory creation and the write succeed. Each failure is returned with its own error. On success only the configuration file changes, and it holds the encoded persisted fields. |
| `Prefs.SaveThenLoad` | src/interface/settings/mod.rs:8-38 | With a codec that reads back what it writes, a load after a successful save returns the saved record with `update_status` cleared. |
| `Semver.LessIsStrictTotalOrder` | src/update/mod.rs:31 | Version precedence is irreflexive, transitive, asymmetric and total on distinct versions. |
| `Semver.ParseIsInverseOfFormat` | src/update/github.rs:27 | `Parse` accepts a string exactly when it is the text form of a version, and then returns that version. |
| `Github.TrimLeadingV` | src/update/github.rs:26 | The result is a suffix of the tag. Only `v`s precede it, and it does not itself start with `v`. |
| `Github.TrimLeadingVFixpoint` | src/update/github.rs:26 | A tag that does not start with `v` is unchanged, and trimming is idempotent. |
| `Github.TrimLeadingVUnique` | src/update/github.rs:26 | For any run of `v`s that is followed by something other than `v`, the result is exactly the text after that run. |
| `Github.TrimLeadingVExample` | src/update/github.rs:26 | `"vv1.2.3"` trims to `"1.2.3"`. |
| `Github.FetchLatestVersion` | src/update/github.rs:12-29 | A failed request, a failed decode and a failed version parse each give an error with that step's context, and there is no partial result. On success the version's text form is the tag without its leading `v`s. |
| `Update.New` | src/update/mod.rs:19-23 | A new checker's version prints as `0.1.0`. |
| `Update.CheckForUpdates` | src/update/mod.rs:25-33 | A fetch error is passed on and no status is produced. On success the status carries the checker's version and `Some(latest)`, and an update is available exactly when the latest version is strictly newer. |
| `Update.StatusAlwaysHasLatest` | src/update/mod.rs:28-31 | Every successful status names its latest version, so the dialog's `unwrap` of it cannot fail. |
| `Update.NotNewerIsNoUpdate` | src/update/mod.rs:31 | An equal or older latest version is never reported as an update. |
| `Update.NewerTagScenario` | src/update/mod.rs:21-31 | With the tag `v0.2.0` and a new checker, the status has current version 0.1.0, latest version 0.2.0 and an update available. |
| `Update.FailedRequestScenario` | src/update/mod.rs:26 | When the request fails, the check returns the fetch error whatever the body would have been. |
| `Dialog.FirstIndexNamed` | src/interface/settings/dialog.rs:36-41 | Returns the smallest position whose device has the given name, or nothing when no device has it. |
| `Dialog.Reconcile` | src/interface/settings/dialog.rs:34-54 | A set selection is never overwritten. An unset one becomes the first position named like the host default. It stays unset when there is no default, or when no device has that name (both directions). |
| `Dialog.New` | src/interface/settings/dialog.rs:20-67 | The dialog holds the audio system and its two device lists. Each selection is the loaded one reconciled against that role's default. All other settings are the loaded ones, and the checker is a new one. |
| `Dialog.NewReconcilesRolesIndependently` | src/interface/settings/dialog.rs:30-56 | A role's reconciled selection depends only on that role's stored selection, host list and host default. |
| `Dialog.MicBScenario` | src/interface/settings/dialog.rs:36-41 | Inputs "Mic A" and "Mic B" with default "Mic B", starting from the defaults, give input selection 1. |
| `Dialog.SelectedText` | src/interface/settings/dialog.rs:198-231 | A stored position inside the list shows that device's name. A position outside it shows "Select Input/Output Device" without indexing the list. No selection shows "No Input/Output Device Selected". |
| `Dialog.StatusMessage` | src/interface/settings/dialog.rs:145-162 | The stored status is the failure message with the error's context, the "Update available!" message naming both versions when the latest is newer, or the up-to-date message otherwise. |
| `Dialog.RetryAudio` | src/interface/settings/dialog.rs:181-188 | Retry replaces both lists with a fresh enumeration and leaves every setting, including both selections, untouched. |
| `Dialog.NewNeverOffersRetry` | src/interface/settings/dialog.rs:177-181 | The audio system never fails to start, so a freshly built dialog never offers Retry. |
| `Dialog.Step` | src/interface/settings/dialog.rs:143-260 | A device click stores the clicked row, which is a shown row. A buffer click stores the pressed button's value from {64,128,256,512,1024}, and a rate click the pressed button's value from {44100,48000,96000}. The checkbox flips auto-update. The update check stores its message. Retry keeps the settings and the checker, installs a fresh audio system and replaces both lists with its enumeration. Every other event leaves all fields but the one it sets unchanged. |
| `Dialog.ClickShowsDevice` | src/interface/settings/dialog.rs:198-213 | After clicking input row i, the combo box shows device i's name. |
| `Dialog.RunKeepsRecommended` | src/interface/settings/dialog.rs:245-260 | Once the buffer size and sample rate are offered values, no sequence of events moves them outside the offered sets. |
| `Dialog.RunWithoutRetryKeepsSelectionsInRange` | src/interface/settings/dialog.rs:209-237 | Without Retry, selections that point into the lists keep doing so across any sequence of events. |
| `Dialog.RunKeepsAudioSystem` | src/interface/settings/dialog.rs:177-188 | Once the dialog has an audio system it keeps it, and no run from such a state contains Retry. |
| `Dialog.RunFromNewKeepsSelectionsInRange` | src/interface/settings/dialog.rs:20-67 | From a freshly built dialog whose selections are in range, every run keeps them in range. |
| `Dialog.RetryCanStrandSelection` | src/interface/settings/dialog.rs:181-207 | Retry does not re-check stored positions. Selection 1 survives a retry that finds one input device, and the combo box then shows the prompt. Reaching Retry needs a failing `AudioSystem::new`, which the code never produces. |
| `Dialog.Apply` | src/interface/settings/dialog.rs:265-271 | The success message is shown exactly when the save succeeds, and the failure message otherwise. A failure leaves the files unchanged. A success writes the dialog's persisted settings to the configuration path. |
| `Dialog.ApplyThenLoad` | src/interface/settings/dialog.rs:265-271 | After a successful Apply, the next load returns the dialog's settings with the status cleared. |

## Left out

- Rendering: egui windows, layout, scroll areas, the open flag, and sidebar category switching. Only the state changes are modelled. The dialog's `open` and `selected_category` fields are not modelled.
- In the audio panel, the `return` after the Retry button ends only the enclosing closure. The device, buffer and rate groups and Apply are still drawn when the audio system is missing. The model therefore enables those events in every state.
- cpal itself: host and device queries are values in `Cpal.Host` and `Cpal.Device`, and `default_host()` becomes the host parameter of `Audio.New`.
- The `Debug` implementation of `AudioDevice` and the `device_type()` getter: they only format or return a field.
- serde_json: the codec is an abstract `Prefs.Codec`. Its round trip is a hypothesis, and the failure of `to_string_pretty` is not modelled because it cannot fail for this record.
- Prefs.Load: a read error on a file that exists (permissions, invalid UTF-8) is represented as a missing file. Both lead to the defaults.
- Prefs.Save and Dialog.Apply: a failed write that leaves a partial file is modelled as leaving the files unchanged. Directory creation is an outcome parameter rather than a change to the map.
- reqwest, async and `futures_executor::block_on`: the request and the JSON decode are outcome parameters of `Github.FetchLatestVersion`. The URL and the User-Agent header are not modelled.
- Semver.Parse: only `MAJOR.MINOR.PATCH` with numeric identifiers that fit in a `u64` is accepted. Pre-release and build suffixes, which the crate accepts, are rejected, and their precedence rules are not modelled. The crate's own parse messages become one message, which the release-tag context hides anyway.
- Device positions are `nat`, not `usize`. The width does not matter for the logic: a stored position is never used in arithmetic, only compared with the list length (src/interface/settings/dialog.rs:200, 224). Positions created by clicks and by `FirstIndexNamed`'s `i + 1` stay below the list length. A loaded position can be any number. The abstract codec could decode a position of 2^64 or more, which serde would reject for `usize`.
- Logging of save failures (`log::error!`) is not modelled.
- src/interface/gui.rs, src/main.rs, src/lib.rs and index.js: the menu with no-op buttons, the application launch, the Electron window and module re-exports are not part of this model.
