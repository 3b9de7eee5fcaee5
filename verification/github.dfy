/** Reading the latest release version from the release feed
    (src/update/github.rs). The HTTP exchange is represented by its two
    outcomes: whether the request went through, and what the body decoded to. */
module Github {
  import opened Wrappers
  import Semver

  const FetchError: string := "Failed to fetch GitHub release info"
  const DecodeError: string := "Failed to parse GitHub response"
  const VersionError: string := "Failed to parse version from GitHub release tag"

  /** The one field read from the release metadata. */
  datatype GitHubRelease = GitHubRelease(tagName: string)

  /** `trim_start_matches('v')`: drops every leading `'v'`. The result is the
      suffix of `s` left after a run of `'v'`s, and does not itself start
      with `'v'`. */
  function TrimLeadingV(s: string): (r: string)
    ensures |r| <= |s| && r == s[|s| - |r|..]
    ensures forall i :: 0 <= i < |s| - |r| ==> s[i] == 'v'
    ensures |r| == 0 || r[0] != 'v'
  {
    if |s| > 0 && s[0] == 'v' then TrimLeadingV(s[1..]) else s
  }

  /** A tag that does not start with `'v'` is left as it is, and trimming
      twice is trimming once. */
  lemma TrimLeadingVFixpoint(s: string)
    ensures |s| == 0 || s[0] != 'v' ==> TrimLeadingV(s) == s
    ensures TrimLeadingV(TrimLeadingV(s)) == TrimLeadingV(s)
  {
  }

  /** The contract of `TrimLeadingV` pins its result down: any suffix that
      follows a run of `'v'`s and does not start with `'v'` is the trimmed tag. */
  lemma {:induction false} TrimLeadingVUnique(s: string, k: nat)
    requires k <= |s|
    requires forall i :: 0 <= i < k ==> s[i] == 'v'
    requires k == |s| || s[k] != 'v'
    ensures TrimLeadingV(s) == s[k..]
    decreases k
  {
    if k > 0 {
      assert forall i :: 0 <= i < k - 1 ==> s[1..][i] == s[i + 1];
      TrimLeadingVUnique(s[1..], k - 1);
      assert s[1..][k - 1..] == s[k..];
    }
  }

  /** `"vv1.2.3"` trims to `"1.2.3"`. */
  lemma TrimLeadingVExample()
    ensures TrimLeadingV("vv1.2.3") == "1.2.3"
  {
    TrimLeadingVUnique("vv1.2.3", 2);
  }

  /** `fetch_latest_version`: each stage's failure becomes an error with that
      stage's context; on success the version's text is the tag without its
      leading `'v'`s. */
  function FetchLatestVersion(sent: Outcome, decoded: Result<GitHubRelease>): (r: Result<Semver.Version>)
    ensures sent.Fail? ==> r == Err(FetchError)
    ensures sent.Pass? && decoded.Err? ==> r == Err(DecodeError)
    ensures sent.Pass? && decoded.Ok? ==>
      var text := TrimLeadingV(decoded.value.tagName);
      && (r.Ok? <==> Semver.Parse(text).Ok?)
      && (r.Ok? ==> Semver.Format(r.value) == text)
      && (r.Err? ==> r.error == VersionError)
  {
    match sent
    case Fail(_) => Err(FetchError)
    case Pass =>
      match decoded
      case Err(_) => Err(DecodeError)
      case Ok(release) =>
        var text := TrimLeadingV(release.tagName);
        match Semver.Parse(text)
        case Ok(v) =>
          Semver.FormatParse(text);
          Ok(v)
        case Err(_) => Err(VersionError)
  }
}
