/** The image factory client: the PXE URL it builds for a schematic, and its
    choice of the latest stable Talos version among the versions the factory
    lists. Schematic creation itself is a network call and appears here only
    as the abstract capability of module Ipxe. */
module ImageFactory {
  import opened Wrappers

  /** The state of a client that matters to URL building. */
  datatype Client = Client(pxeBaseURL: string, secureBootEnabled: bool)

  const SecureBootSuffix := "-secureboot"

  const ErrSchematicIDRequired := "schematic ID is required"
  const ErrTalosVersionRequired := "talos version is required"
  const ErrArchRequired := "arch is required"
  const ErrNoStableVersions := "no stable versions found"

  /** `<pxeBase>/pxe/<schematic>/<version>/metal-<arch>`, the URL shape
      without the secure-boot suffix. */
  function BaseIPXEURL(c: Client, schematicID: string, talosVersion: string, arch: string): string {
    c.pxeBaseURL + "/pxe/" + schematicID + "/" + talosVersion + "/metal-" + arch
  }

  predicate HasSuffix(s: string, t: string) {
    |t| <= |s| && s[|s| - |t|..] == t
  }

  /** The iPXE URL of a schematic: it fails exactly when one of the three
      inputs is empty, reporting the schematic first, then the version, then
      the architecture; otherwise it is the base shape, followed by the
      secure-boot suffix when the client is in secure-boot mode. */
  function GetIPXEURL(c: Client, schematicID: string, talosVersion: string, arch: string): (r: Result<string, string>)
    ensures r.Failure? <==> schematicID == "" || talosVersion == "" || arch == ""
    ensures schematicID == "" ==> r == Failure(ErrSchematicIDRequired)
    ensures schematicID != "" && talosVersion == "" ==> r == Failure(ErrTalosVersionRequired)
    ensures schematicID != "" && talosVersion != "" && arch == "" ==> r == Failure(ErrArchRequired)
    ensures r.Success? && !c.secureBootEnabled ==> r.value == BaseIPXEURL(c, schematicID, talosVersion, arch)
    ensures r.Success? && c.secureBootEnabled ==> r.value == BaseIPXEURL(c, schematicID, talosVersion, arch) + SecureBootSuffix
  {
    if schematicID == "" then Failure(ErrSchematicIDRequired)
    else if talosVersion == "" then Failure(ErrTalosVersionRequired)
    else if arch == "" then Failure(ErrArchRequired)
    else
      var url := BaseIPXEURL(c, schematicID, talosVersion, arch);
      Success(if c.secureBootEnabled then url + SecureBootSuffix else url)
  }

  /** For the two architectures the handler ever asks for, a URL ends in
      "-secureboot" exactly when secure-boot mode is on. (For an arbitrary
      arch the "if" direction fails: "metal-" + arch may itself end in
      "-secureboot".) */
  lemma SecureBootSuffixIff(c: Client, schematicID: string, talosVersion: string, arch: string)
    requires schematicID != "" && talosVersion != ""
    requires arch == "amd64" || arch == "arm64"
    ensures GetIPXEURL(c, schematicID, talosVersion, arch).Success?
    ensures HasSuffix(GetIPXEURL(c, schematicID, talosVersion, arch).value, SecureBootSuffix) <==> c.secureBootEnabled
  {
    var base := BaseIPXEURL(c, schematicID, talosVersion, arch);
    var head := c.pxeBaseURL + "/pxe/" + schematicID + "/" + talosVersion + "/";
    assert base == head + ("metal-" + arch);
    var url := GetIPXEURL(c, schematicID, talosVersion, arch).value;
    if c.secureBootEnabled {
      assert url[|url| - |SecureBootSuffix|..] == SecureBootSuffix;
    } else {
      assert url == base;
      assert url[|url| - |SecureBootSuffix|..] == ("metal-" + arch)[|"metal-" + arch| - |SecureBootSuffix|..];
      assert ("metal-" + arch)[|"metal-" + arch| - |SecureBootSuffix|..][0] != SecureBootSuffix[0];
    }
  }

  /** A parsed semantic version (Semantic Versioning 2.0.0): the release
      triple, the pre-release identifiers and the build metadata. */
  datatype Version = Version(major: nat, minor: nat, patch: nat, pre: seq<string>, build: seq<string>) {
    /** A stable version is one without pre-release identifiers. */
    predicate IsStable() {
      pre == []
    }
  }

  /** Precedence of release versions (section 11 of Semantic Versioning
      2.0.0): lexicographic on major, minor and patch. Build metadata does
      not take part. */
  predicate Greater(a: Version, b: Version) {
    a.major > b.major
    || (a.major == b.major && a.minor > b.minor)
    || (a.major == b.major && a.minor == b.minor && a.patch > b.patch)
  }

  /** Greater is a strict total order on release triples. */
  lemma GreaterIsStrictOrder(a: Version, b: Version, c: Version)
    ensures !Greater(a, a)
    ensures Greater(a, b) ==> !Greater(b, a)
    ensures Greater(a, b) && Greater(b, c) ==> Greater(a, c)
    ensures !Greater(a, b) && !Greater(b, a) ==> (a.major, a.minor, a.patch) == (b.major, b.minor, b.patch)
  {
  }

  /** versions[i] parses to a stable version. */
  predicate StableAt(versions: seq<string>, parse: string -> Option<Version>, i: int)
    requires 0 <= i < |versions|
  {
    parse(versions[i]).Some? && parse(versions[i]).value.IsStable()
  }

  /** Among the first n version strings, the one at i is the one the client
      keeps: it is stable, no stable version among them exceeds it, and it
      strictly exceeds every stable version seen before it (ties keep the
      first). */
  predicate IsLatestStableAmong(versions: seq<string>, parse: string -> Option<Version>, i: int, n: int)
    requires 0 <= i < n <= |versions|
  {
    StableAt(versions, parse, i)
    && (forall j :: 0 <= j < n && StableAt(versions, parse, j) ==>
          !Greater(parse(versions[j]).value, parse(versions[i]).value))
    && (forall j :: 0 <= j < i && StableAt(versions, parse, j) ==>
          Greater(parse(versions[i]).value, parse(versions[j]).value))
  }

  /** The latest stable version among those the factory lists. A failure to
      list is passed on unchanged; strings that do not parse and pre-releases
      are skipped; the result is the first maximal stable version, and the
      call fails exactly when no listed string is a stable version. */
  method GetLatestStableVersion(fetched: Result<seq<string>, string>, parse: string -> Option<Version>)
    returns (r: Result<Version, string>)
    ensures fetched.Failure? ==> r == Failure(fetched.error)
    ensures fetched.Success? ==>
      (r.Success? <==> exists i :: 0 <= i < |fetched.value| && StableAt(fetched.value, parse, i))
    ensures fetched.Success? && r.Failure? ==> r.error == ErrNoStableVersions
    ensures fetched.Success? && r.Success? ==>
      exists i :: 0 <= i < |fetched.value| && IsLatestStableAmong(fetched.value, parse, i, |fetched.value|)
        && parse(fetched.value[i]) == Some(r.value)
    ensures r.Success? ==> r.value.IsStable()
  {
    if fetched.Failure? {
      return Failure(fetched.error);
    }
    var versions := fetched.value;
    var latestStable: Option<Version> := None;
    ghost var at := 0;
    for k := 0 to |versions|
      invariant latestStable.None? <==> forall j :: 0 <= j < k ==> !StableAt(versions, parse, j)
      invariant latestStable.Some? ==>
        0 <= at < k && parse(versions[at]) == latestStable && IsLatestStableAmong(versions, parse, at, k)
    {
      var sv := parse(versions[k]);
      if sv.None? {
        // a string that does not parse is skipped, not an error
        assert !StableAt(versions, parse, k);
        continue;
      }
      if !sv.value.IsStable() {
        assert !StableAt(versions, parse, k);
        continue;
      }
      assert StableAt(versions, parse, k);
      if latestStable.None? || Greater(sv.value, latestStable.value) {
        latestStable := sv;
        at := k;
      }
    }
    if latestStable.None? {
      return Failure(ErrNoStableVersions);
    }
    return Success(latestStable.value);
  }

  /** The choice is determined: at most one index is the first maximal
      stable version. */
  lemma LatestStableIsUnique(versions: seq<string>, parse: string -> Option<Version>, i: int, i': int)
    requires 0 <= i < |versions| && 0 <= i' < |versions|
    requires IsLatestStableAmong(versions, parse, i, |versions|)
    requires IsLatestStableAmong(versions, parse, i', |versions|)
    ensures i == i'
  {
  }
}
