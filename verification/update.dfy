/** The update decision: compare the latest released version with the
    running one (src/update/mod.rs). */
module Update {
  import opened Wrappers
  import Semver
  import Github

  /** The version of this build. */
  const RunningVersion: Semver.Version := Semver.Version(0, 1, 0)

  datatype UpdateChecker = UpdateChecker(currentVersion: Semver.Version)

  datatype UpdateStatus = UpdateStatus(
    currentVersion: Semver.Version,
    latestVersion: Option<Semver.Version>,
    updateAvailable: bool)

  /** `UpdateChecker::new`: the running version prints as `0.1.0`. */
  function New(): (c: UpdateChecker)
    ensures Semver.Format(c.currentVersion) == "0.1.0"
  {
    UpdateChecker(RunningVersion)
  }

  /** `check_for_updates`, given what `fetch_latest_version` returned: a fetch
      error is passed on unchanged and no status is produced; otherwise the
      status always carries the latest version, and an update is available
      exactly when it is strictly newer than the running one. */
  function CheckForUpdates(c: UpdateChecker, fetched: Result<Semver.Version>): (r: Result<UpdateStatus>)
    ensures fetched.Err? ==> r == Err(fetched.error)
    ensures fetched.Ok? ==>
      && r.Ok?
      && r.value.currentVersion == c.currentVersion
      && r.value.latestVersion == Some(fetched.value)
      && (r.value.updateAvailable <==> Semver.Less(c.currentVersion, fetched.value))
  {
    match fetched
    case Err(e) => Err(e)
    case Ok(latest) =>
      Ok(UpdateStatus(c.currentVersion, Some(latest), Semver.Less(c.currentVersion, latest)))
  }

  /** Whatever the fetch returns, a successful status names its latest
      version, so reading it out is always defined. */
  lemma StatusAlwaysHasLatest(c: UpdateChecker, fetched: Result<Semver.Version>)
    ensures CheckForUpdates(c, fetched).Ok? ==> CheckForUpdates(c, fetched).value.latestVersion.Some?
  {
  }

  /** The same version, or an older one, is never offered as an update. */
  lemma NotNewerIsNoUpdate(c: UpdateChecker, latest: Semver.Version)
    requires latest == c.currentVersion || Semver.Less(latest, c.currentVersion)
    ensures !CheckForUpdates(c, Ok(latest)).value.updateAvailable
  {
    Semver.LessIsStrictTotalOrder(latest, c.currentVersion, latest);
  }

  /** A feed tagged `v0.2.0` against the running 0.1.0 reports an update to
      0.2.0. */
  lemma NewerTagScenario()
    ensures var fetched := Github.FetchLatestVersion(Pass, Ok(Github.GitHubRelease("v0.2.0")));
            CheckForUpdates(New(), fetched)
              == Ok(UpdateStatus(Semver.Version(0, 1, 0), Some(Semver.Version(0, 2, 0)), true))
  {
    var v := Semver.Version(0, 2, 0);
    assert Semver.Format(v) == "0.2.0";
    Github.TrimLeadingVUnique("v0.2.0", 1);
    assert Github.TrimLeadingV("v0.2.0") == "0.2.0";
    Semver.ParseFormat(v);
  }

  /** A failed request reports the fetch error and produces no status. */
  lemma FailedRequestScenario(c: UpdateChecker, e: string, decoded: Result<Github.GitHubRelease>)
    ensures CheckForUpdates(c, Github.FetchLatestVersion(Fail(e), decoded)) == Err(Github.FetchError)
  {
  }
}
