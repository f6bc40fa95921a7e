/**
 * Which version of a component `tiup run` starts, and when it downloads one
 * (downloadIfMissing in cmd/run.go).  Version precedence is that of Semantic
 * Versioning 2.0.0 (section 11) as implemented by golang.org/x/mod/semver; it
 * is taken here as a comparator `cmp` returning a negative, zero or positive
 * number, with the laws such a comparison obeys stated in IsPrecedence.
 */
module RunVersion {
  import opened Common

  type Comparator = (string, string) -> int

  /** A total preorder given as a three-way comparison: antisymmetric in sign and transitive. */
  ghost predicate IsPrecedence(cmp: Comparator)
  {
    && (forall a, b :: cmp(a, b) < 0 <==> cmp(b, a) > 0)
    && (forall a, b, c :: cmp(a, b) < 0 && cmp(b, c) < 0 ==> cmp(a, c) < 0)
  }

  /** The version picked from the installed list: the first one that no later one exceeds. */
  function MaxVersion(vs: seq<string>, cmp: Comparator): string
    requires |vs| > 0
  {
    if |vs| == 1 then vs[0]
    else
      var m := MaxVersion(vs[..|vs| - 1], cmp);
      if cmp(m, vs[|vs| - 1]) < 0 then vs[|vs| - 1] else m
  }

  /** Under a precedence, the picked version is installed and no installed version ranks above it. */
  lemma {:induction false} MaxVersionIsMaximum(vs: seq<string>, cmp: Comparator)
    requires |vs| > 0 && IsPrecedence(cmp)
    ensures MaxVersion(vs, cmp) in vs
    ensures forall w :: w in vs ==> cmp(w, MaxVersion(vs, cmp)) <= 0
    decreases |vs|
  {
    if |vs| > 1 {
      var init := vs[..|vs| - 1];
      MaxVersionIsMaximum(init, cmp);
      assert vs == init + [vs[|vs| - 1]];
    }
  }

  /**
   * Sorting the installed versions by precedence and taking the last one:
   * only that last element is used, so the model keeps a running maximum.
   */
  method LatestInstalled(versions: seq<string>, cmp: Comparator) returns (latest: string)
    requires |versions| > 0
    ensures latest == MaxVersion(versions, cmp)
  {
    latest := versions[0];
    for i := 1 to |versions|
      invariant latest == MaxVersion(versions[..i], cmp)
    {
      assert versions[..i + 1][..i] == versions[..i];
      if cmp(latest, versions[i]) < 0 {
        latest := versions[i];
      }
    }
    assert versions[..|versions|] == versions;
  }

  /** The membership loop of downloadIfMissing, leaving at the first match. */
  method IsInstalled(version: string, versions: seq<string>) returns (installed: bool)
    ensures installed <==> version in versions
  {
    installed := false;
    for i := 0 to |versions|
      invariant !installed && version !in versions[..i]
    {
      if versions[i] == version {
        installed := true;
        return;
      }
    }
    assert versions[..|versions|] == versions;
  }

  /** The version settled on locally, and whether it still has to be downloaded. */
  datatype Resolution = Resolution(version: string, needDownload: bool)

  function Resolve(version: string, versions: seq<string>, cmp: Comparator): Resolution
  {
    var v := if version == "" && |versions| > 0 then MaxVersion(versions, cmp) else version;
    Resolution(v, v == "" || v !in versions)
  }

  /** The resolution steps of downloadIfMissing, as the code takes them. */
  method ResolveVersion(version: string, versions: seq<string>, cmp: Comparator)
    returns (resolved: string, needDownload: bool)
    ensures Resolution(resolved, needDownload) == Resolve(version, versions, cmp)
  {
    resolved := version;
    if resolved == "" && |versions| > 0 {
      resolved := LatestInstalled(versions, cmp);
    }
    needDownload := resolved == "";
    if resolved != "" {
      var installed := IsInstalled(resolved, versions);
      needDownload := !installed;
    }
  }

  /** No version asked for and some installed: the highest installed one runs, downloaded only if it is the empty string. */
  lemma ResolveLatestInstalled(versions: seq<string>, cmp: Comparator)
    requires |versions| > 0 && IsPrecedence(cmp)
    ensures var r := Resolve("", versions, cmp);
      r.version in versions && (forall w :: w in versions ==> cmp(w, r.version) <= 0)
      && (r.needDownload <==> r.version == "")
  {
    MaxVersionIsMaximum(versions, cmp);
  }

  /** A version asked for is kept as it is, and downloaded exactly when it is not installed. */
  lemma ResolveRequested(version: string, versions: seq<string>, cmp: Comparator)
    requires version != ""
    ensures Resolve(version, versions, cmp) == Resolution(version, version !in versions)
  {
  }

  /** Nothing asked for and nothing installed: the version stays open and a download is needed. */
  lemma ResolveNothingInstalled(cmp: Comparator)
    ensures Resolve("", [], cmp) == Resolution("", true)
  {
  }

  /** Whenever no download is needed, the resolved version is a non-empty installed one. */
  lemma ResolveNoDownloadIsInstalled(version: string, versions: seq<string>, cmp: Comparator)
    ensures !Resolve(version, versions, cmp).needDownload <==>
            Resolve(version, versions, cmp).version != "" && Resolve(version, versions, cmp).version in versions
  {
  }

  /** Installed v4.9.0, v5.0.0 and v5.1.0 in that order, each ranking above the one before: v5.1.0 runs, nothing is downloaded. */
  lemma ResolveExample(cmp: Comparator)
    requires cmp("v4.9.0", "v5.0.0") < 0 && cmp("v5.0.0", "v5.1.0") < 0
    ensures Resolve("", ["v4.9.0", "v5.0.0", "v5.1.0"], cmp) == Resolution("v5.1.0", false)
  {
    var vs := ["v4.9.0", "v5.0.0", "v5.1.0"];
    assert vs[..2][..1] == ["v4.9.0"];
    assert vs[..2] == ["v4.9.0", "v5.0.0"];
    assert MaxVersion(vs[..2], cmp) == "v5.0.0";
  }

  /** The per-component version list the repository publishes, with its designated latest version. */
  datatype Manifest = Manifest(versions: seq<string>, latest: string)

  datatype FetchError = InstalledVersionsFailed | ManifestFailed | SaveFailed | DownloadFailed | BinaryPathFailed

  /** The local profile: its root directory, installed versions, the saved version lists and where binaries live. */
  class Profile {
    const installed: string -> Option<seq<string>>
    const saveSucceeds: (string, Manifest) -> bool
    const binaryPath: (string, string) -> Option<string>
    const componentsDir: string
    const root: string
    var saved: seq<(string, Manifest)>

    constructor (installed: string -> Option<seq<string>>, saveSucceeds: (string, Manifest) -> bool,
                 binaryPath: (string, string) -> Option<string>, componentsDir: string, root: string)
      ensures this.installed == installed && this.saveSucceeds == saveSucceeds
      ensures this.binaryPath == binaryPath && this.componentsDir == componentsDir && this.root == root && saved == []
    {
      this.root := root;
      this.installed := installed;
      this.saveSucceeds := saveSucceeds;
      this.binaryPath := binaryPath;
      this.componentsDir := componentsDir;
      saved := [];
    }

    /** SaveVersions: the attempt is recorded whether or not it succeeds. */
    method SaveVersions(component: string, m: Manifest) returns (ok: bool)
      modifies this
      ensures ok == saveSucceeds(component, m) && saved == old(saved) + [(component, m)]
    {
      ok := saveSucceeds(component, m);
      saved := saved + [(component, m)];
    }
  }

  /** The remote repository: the manifests it serves and the downloads asked of it, in order. */
  class Repository {
    const manifests: string -> Option<Manifest>
    const downloadSucceeds: (string, string) -> bool
    var fetches: seq<string>
    var downloads: seq<(string, string)>

    constructor (manifests: string -> Option<Manifest>, downloadSucceeds: (string, string) -> bool)
      ensures this.manifests == manifests && this.downloadSucceeds == downloadSucceeds
      ensures fetches == [] && downloads == []
    {
      this.manifests := manifests;
      this.downloadSucceeds := downloadSucceeds;
      fetches := [];
      downloads := [];
    }

    method ComponentVersions(component: string) returns (m: Option<Manifest>)
      modifies this
      ensures m == manifests(component) && fetches == old(fetches) + [component] && downloads == old(downloads)
    {
      m := manifests(component);
      fetches := fetches + [component];
    }

    method DownloadComponent(dir: string, spec: string) returns (ok: bool)
      modifies this
      ensures ok == downloadSucceeds(dir, spec) && downloads == old(downloads) + [(dir, spec)] && fetches == old(fetches)
    {
      ok := downloadSucceeds(dir, spec);
      downloads := downloads + [(dir, spec)];
    }
  }

  /** The artifact a download asks for: component and version joined by a colon. */
  function DownloadSpec(component: string, version: string): string
  {
    component + ":" + version
  }

  /** The version downloaded: the resolved one, or the manifest's latest if none was settled on. */
  function DownloadVersion(r: Resolution, m: Manifest): string
  {
    if r.version == "" then m.latest else r.version
  }

  function PathResult(p: Option<string>): Result<string, FetchError>
  {
    match p
    case Some(path) => Success(path)
    case None => Failure(BinaryPathFailed)
  }

  /** What downloadIfMissing returns, given what the profile and the repository answer. */
  function FetchOutcome(component: string, version: string, cmp: Comparator, profile: Profile, repo: Repository)
    : Result<string, FetchError>
  {
    match profile.installed(component)
    case None => Failure(InstalledVersionsFailed)
    case Some(vs) =>
      var res := Resolve(version, vs, cmp);
      if !res.needDownload then PathResult(profile.binaryPath(component, res.version))
      else match repo.manifests(component)
        case None => Failure(ManifestFailed)
        case Some(m) =>
          var v := DownloadVersion(res, m);
          if !profile.saveSucceeds(component, m) then Failure(SaveFailed)
          else if !repo.downloadSucceeds(profile.componentsDir, DownloadSpec(component, v)) then Failure(DownloadFailed)
          else PathResult(profile.binaryPath(component, v))
  }

  /**
   * A successful fetch returns the binary path of a version that was either
   * installed already or just downloaded under the spec "component:version".
   */
  lemma FetchOutcomeSuccess(component: string, version: string, cmp: Comparator, profile: Profile, repo: Repository)
    requires FetchOutcome(component, version, cmp, profile, repo).Success?
    ensures exists v :: (Some(FetchOutcome(component, version, cmp, profile, repo).value) == profile.binaryPath(component, v)
                         && ((v != "" && v in profile.installed(component).value)
                             || (repo.manifests(component).Some? && profile.saveSucceeds(component, repo.manifests(component).value)
                                 && repo.downloadSucceeds(profile.componentsDir, DownloadSpec(component, v)))))
  {
    var vs := profile.installed(component).value;
    var res := Resolve(version, vs, cmp);
    if res.needDownload {
      var v := DownloadVersion(res, repo.manifests(component).value);
      assert Some(FetchOutcome(component, version, cmp, profile, repo).value) == profile.binaryPath(component, v);
    } else {
      ResolveNoDownloadIsInstalled(version, vs, cmp);
      assert Some(FetchOutcome(component, version, cmp, profile, repo).value) == profile.binaryPath(component, res.version);
    }
  }

  /**
   * With nothing installed and no version asked for, the manifest's latest
   * version is the one downloaded and then looked up; a failed download
   * ends the fetch with that error.
   */
  lemma FetchNothingInstalled(component: string, cmp: Comparator, profile: Profile, repo: Repository, m: Manifest)
    requires profile.installed(component) == Some([]) && repo.manifests(component) == Some(m)
    requires profile.saveSucceeds(component, m)
    ensures repo.downloadSucceeds(profile.componentsDir, DownloadSpec(component, m.latest)) ==>
      FetchOutcome(component, "", cmp, profile, repo) == PathResult(profile.binaryPath(component, m.latest))
    ensures !repo.downloadSucceeds(profile.componentsDir, DownloadSpec(component, m.latest)) ==>
      FetchOutcome(component, "", cmp, profile, repo) == Failure(DownloadFailed)
  {
    ResolveNothingInstalled(cmp);
  }

  /**
   * downloadIfMissing: resolves the version; when it is missing locally,
   * fetches and saves the manifest, adopts its latest version if none was
   * settled on, and asks for exactly one download; any failure ends the call
   * before the binary path is looked up.
   */
  method DownloadIfMissing(component: string, version: string, cmp: Comparator, profile: Profile, repo: Repository)
    returns (r: Result<string, FetchError>)
    modifies profile, repo
    ensures r == FetchOutcome(component, version, cmp, profile, repo)
    ensures profile.installed(component).None? ==>
      profile.saved == old(profile.saved) && repo.fetches == old(repo.fetches) && repo.downloads == old(repo.downloads)
    ensures profile.installed(component).Some? && !Resolve(version, profile.installed(component).value, cmp).needDownload ==>
      profile.saved == old(profile.saved) && repo.fetches == old(repo.fetches) && repo.downloads == old(repo.downloads)
    ensures profile.installed(component).Some? && Resolve(version, profile.installed(component).value, cmp).needDownload ==>
      var res := Resolve(version, profile.installed(component).value, cmp);
      repo.fetches == old(repo.fetches) + [component]
      && match repo.manifests(component)
         case None => profile.saved == old(profile.saved) && repo.downloads == old(repo.downloads)
         case Some(m) =>
           profile.saved == old(profile.saved) + [(component, m)]
           && repo.downloads == old(repo.downloads)
              + (if profile.saveSucceeds(component, m)
                 then [(profile.componentsDir, DownloadSpec(component, DownloadVersion(res, m)))] else [])
  {
    var installed := profile.installed(component);
    if installed.None? {
      return Failure(InstalledVersionsFailed);
    }
    var versions := installed.value;
    var resolved, needDownload := ResolveVersion(version, versions, cmp);
    if needDownload {
      var manifest := repo.ComponentVersions(component);
      if manifest.None? {
        return Failure(ManifestFailed);
      }
      var saveOk := profile.SaveVersions(component, manifest.value);
      if !saveOk {
        return Failure(SaveFailed);
      }
      if resolved == "" {
        resolved := manifest.value.latest;
      }
      var spec := component + ":" + resolved;
      var downloaded := repo.DownloadComponent(profile.componentsDir, spec);
      if !downloaded {
        return Failure(DownloadFailed);
      }
    }
    r := PathResult(profile.binaryPath(component, resolved));
  }
}
