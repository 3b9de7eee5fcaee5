/** The settings record and its persistence (src/interface/settings/mod.rs).
    The file system is a map from paths to file contents; the JSON codec is a
    pair of functions, and what the model needs of it is stated as the
    `RoundTrips` hypothesis rather than assumed. */
module Prefs {
  import opened Wrappers
  import opened Ints

  /** A path as its list of components. */
  type Path = seq<string>

  /** The files that exist and their contents. */
  type FileSystem = map<Path, string>

  datatype Settings = Settings(
    autoUpdate: bool,
    bufferSize: u32,
    sampleRate: u32,
    updateStatus: Option<string>,
    selectedInputDevice: Option<nat>,
    selectedOutputDevice: Option<nat>)

  /** The serialized field set: everything but the skipped `updateStatus`. */
  datatype Persisted = Persisted(
    autoUpdate: bool,
    bufferSize: u32,
    sampleRate: u32,
    selectedInputDevice: Option<nat>,
    selectedOutputDevice: Option<nat>)

  /** The JSON encoder and decoder, as functions over the persisted form. */
  datatype Codec = Codec(encode: Persisted -> string, decode: string -> Option<Persisted>)

  /** Decoding reads back whatever encoding wrote. */
  ghost predicate RoundTrips(c: Codec)
  {
    forall p :: c.decode(c.encode(p)) == Some(p)
  }

  const AppDir: string := "sonus"
  const FileName: string := "settings.json"

  /** `Settings::default()`. */
  function Default(): (s: Settings)
  {
    Settings(false, 512, 44100, None, None, None)
  }

  /** The field set that serialization writes. */
  function Persist(s: Settings): Persisted
  {
    Persisted(s.autoUpdate, s.bufferSize, s.sampleRate, s.selectedInputDevice, s.selectedOutputDevice)
  }

  /** Deserialization of the field set; the skipped field takes its default. */
  function Restore(p: Persisted): Settings
  {
    Settings(p.autoUpdate, p.bufferSize, p.sampleRate, None, p.selectedInputDevice, p.selectedOutputDevice)
  }

  /** Restoring what was persisted loses exactly the transient status, and
      persisting what was restored changes nothing. */
  lemma PersistRestore(s: Settings, p: Persisted)
    ensures Restore(Persist(s)) == s.(updateStatus := None)
    ensures Persist(Restore(p)) == p
  {
  }

  /** `config_path`: the configuration directory, or `.` when there is none,
      then the application folder, then the file name. */
  function ConfigPath(configDir: Option<Path>): (p: Path)
    ensures |p| >= 2 && p[|p| - 2] == AppDir && p[|p| - 1] == FileName
    ensures configDir.Some? ==> p[..|p| - 2] == configDir.value
    ensures configDir.None? ==> p[..|p| - 2] == ["."]
  {
    var base := match configDir case Some(d) => d case None => ["."];
    base + [AppDir] + [FileName]
  }

  /** `Path::parent`: the path without its last component, if it has one. */
  function Parent(p: Path): (r: Option<Path>)
    ensures r.Some? <==> |p| > 0
    ensures r.Some? ==> r.value + [p[|p| - 1]] == p
  {
    if |p| == 0 then None else Some(p[..|p| - 1])
  }

  /** The directory `save` creates is the application folder. */
  lemma ConfigPathParent(configDir: Option<Path>)
    ensures var base := match configDir case Some(d) => d case None => ["."];
            Parent(ConfigPath(configDir)) == Some(base + [AppDir])
  {
    var p := ConfigPath(configDir);
    assert p[..|p| - 1] == p[..|p| - 2] + [AppDir];
  }

  /** `Settings::load`: the parsed record when the file can be read and
      parsed, and the documented defaults otherwise; never an error. */
  function Load(fs: FileSystem, configDir: Option<Path>, codec: Codec): (s: Settings)
    ensures s.updateStatus == None
    ensures var path := ConfigPath(configDir);
      path !in fs || codec.decode(fs[path]).None? ==>
        s == Settings(false, 512, 44100, None, None, None)
    ensures var path := ConfigPath(configDir);
      path in fs && codec.decode(fs[path]).Some? ==>
        Persist(s) == codec.decode(fs[path]).value
  {
    var path := ConfigPath(configDir);
    if path in fs then
      match codec.decode(fs[path])
      case Some(p) => Restore(p)
      case None => Default()
    else Default()
  }

  /** `Settings::save`: creates the parent directory, then writes the encoded
      field set to the configuration path; either step's failure is returned
      and nothing is written. No other file changes. */
  function Save(s: Settings, fs: FileSystem, configDir: Option<Path>, codec: Codec,
                createDirs: Outcome, write: Outcome): (r: Result<FileSystem>)
    ensures r.Ok? <==> createDirs.Pass? && write.Pass?
    ensures createDirs.Fail? ==> r == Err(createDirs.error)
    ensures createDirs.Pass? && write.Fail? ==> r == Err(write.error)
    ensures r.Ok? ==>
      var path := ConfigPath(configDir);
      && r.value.Keys == fs.Keys + {path}
      && r.value[path] == codec.encode(Persist(s))
      && forall q :: q in fs && q != path ==> r.value[q] == fs[q]
  {
    var path := ConfigPath(configDir);
    // the parent directory is created only when the path has one
    var created := match Parent(path) case Some(_) => createDirs case None => Pass;
    match created
    case Fail(e) => Err(e)
    case Pass =>
      match write
      case Fail(e) => Err(e)
      case Pass => Ok(fs[path := codec.encode(Persist(s))])
  }

  /** With a codec that reads back what it writes, loading after a successful
      save gives the saved record minus its transient status: the five
      persisted fields survive and `updateStatus` comes back empty. */
  lemma SaveThenLoad(s: Settings, fs: FileSystem, configDir: Option<Path>, codec: Codec,
                     createDirs: Outcome, write: Outcome)
    requires RoundTrips(codec)
    requires Save(s, fs, configDir, codec, createDirs, write).Ok?
    ensures Load(Save(s, fs, configDir, codec, createDirs, write).value, configDir, codec)
              == s.(updateStatus := None)
  {
    var path := ConfigPath(configDir);
    assert codec.decode(codec.encode(Persist(s))) == Some(Persist(s));
  }
}
