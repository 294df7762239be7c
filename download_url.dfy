/**
  The platform-to-URL resolution of the setup-fargate-cli action: a raw Node
  OS token and CPU-architecture token are normalised into the names the
  fargatecli release assets use, the pair is run through an allow-list gate,
  and the release download URL is built from a fixed template.

  Every `throw` of the source becomes an `Err`/`Fail` value carrying the
  values its message mentions.
 */
module DownloadUrl {

  /** The three errors the resolution can throw. */
  datatype Error =
    | UnsupportedOS(os: string)
    | UnsupportedArch(arch: string)
    | UnsupportedCombination(os: string, arch: string)

  /** A value, or the error thrown instead of returning it. */
  datatype Result<T> = Ok(value: T) | Err(error: Error)

  /** A check that returns nothing when it passes and throws otherwise. */
  datatype Outcome = Pass | Fail(error: Error)

  /** The fixed part of every download URL. */
  const ReleasesPrefix: string := "https://github.com/awslabs/fargatecli/releases/download/"

  /** The object literal `allowedArch`: canonical OS to published architectures. */
  const AllowedArch: map<string, seq<string>> :=
    map[
      "darwin" := ["amd64"],
      "linux" := ["386", "amd64", "arm"],
      "windows" := ["386", "amd64"]
    ]

  /** The raw OS tokens the normaliser accepts, with their canonical names. */
  const OSNames: map<string, string> :=
    map["darwin" := "darwin", "linux" := "linux", "win32" := "windows"]

  /** The raw architecture tokens the normaliser accepts, with their canonical names. */
  const ArchNames: map<string, string> :=
    map["arm64" := "arm64", "arm" := "arm", "x32" := "386", "x64" := "amd64"]

  /** `formatOSForUrl`: the canonical OS token for a raw Node platform token. */
  function FormatOSForUrl(os: string): (r: Result<string>)
    ensures r.Ok? ==> r.value in AllowedArch
    ensures r.Ok? <==> os in OSNames
    ensures r.Ok? ==> r.value == OSNames[os]
    ensures r.Err? ==> r.error == UnsupportedOS(os)
  {
    if os == "darwin" then Ok(os)
    else if os == "linux" then Ok(os)
    else if os == "win32" then Ok("windows")
    else Err(UnsupportedOS(os))
  }

  /** `formatArchForUrl`: the canonical architecture token for a raw Node arch token. */
  function FormatArchForUrl(arch: string): (r: Result<string>)
    ensures r.Ok? <==> arch in ArchNames
    ensures r.Ok? ==> r.value == ArchNames[arch]
    ensures r.Err? ==> r.error == UnsupportedArch(arch)
  {
    if arch == "arm64" then Ok(arch)
    else if arch == "arm" then Ok(arch)
    else if arch == "x32" then Ok("386")
    else if arch == "x64" then Ok("amd64")
    else Err(UnsupportedArch(arch))
  }

  /** `Array.prototype.some`: whether some element of `xs` satisfies `p`. */
  function ArraySome(xs: seq<string>, p: string -> bool): (r: bool)
    ensures r <==> exists i :: 0 <= i < |xs| && p(xs[i])
  {
    if xs == [] then false
    else if p(xs[0]) then true
    else
      var rest := ArraySome(xs[1..], p);
      assert forall i :: 1 <= i < |xs| ==> xs[i] == xs[1..][i - 1];
      rest
  }

  /**
    `ensureArchCompatibleWithOS` as written. The callback given to `some`
    names its parameter `arch`, which shadows the requested architecture,
    so the callback compares each listed architecture with itself: the
    check passes exactly when the OS is a key of the table.
   */
  function EnsureArchCompatibleWithOS(os: string, arch: string): (r: Outcome)
    ensures r.Pass? <==> os in AllowedArch
    ensures r.Fail? ==> r.error == UnsupportedCombination(os, arch)
  {
    if os !in AllowedArch || !ArraySome(AllowedArch[os], a => a == a) then
      Fail(UnsupportedCombination(os, arch))
    else
      Pass
  }

  /** The published (OS, architecture) pairs of the release table, one by one. */
  predicate IntendedCompatible(os: string, arch: string) {
    || (os == "darwin" && arch == "amd64")
    || (os == "linux" && (arch == "386" || arch == "amd64" || arch == "arm"))
    || (os == "windows" && (arch == "386" || arch == "amd64"))
  }

  /**
    The gate the table evidently means: the callback compares each listed
    architecture with the requested one.
   */
  function EnsureArchCompatibleWithOSIntended(os: string, arch: string): (r: Outcome)
    ensures r.Pass? <==> IntendedCompatible(os, arch)
    ensures r.Pass? <==> os in AllowedArch && arch in AllowedArch[os]
    ensures r.Fail? ==> r.error == UnsupportedCombination(os, arch)
  {
    if os !in AllowedArch || !ArraySome(AllowedArch[os], a => a == arch) then
      Fail(UnsupportedCombination(os, arch))
    else
      Pass
  }

  /** The template string of `generateDownloadUrl`. */
  function ReleaseUrl(version: string, os: string, arch: string): string {
    ReleasesPrefix + version + "/fargate-" + version + "-" + os + "-" + arch + ".zip"
  }

  /**
    `generateDownloadUrl`: normalise the OS, then the architecture, run the
    gate as written, and fill in the template. The version is used verbatim.
   */
  function GenerateDownloadUrl(os: string, arch: string, version: string): (r: Result<string>)
    ensures r.Ok? <==> os in OSNames && arch in ArchNames
    ensures r.Ok? ==> r.value == ReleaseUrl(version, OSNames[os], ArchNames[arch])
    ensures os !in OSNames ==> r == Err(UnsupportedOS(os))
    ensures os in OSNames && arch !in ArchNames ==> r == Err(UnsupportedArch(arch))
  {
    match FormatOSForUrl(os)
    case Err(e) => Err(e)
    case Ok(os') =>
      match FormatArchForUrl(arch)
      case Err(e) => Err(e)
      case Ok(arch') =>
        match EnsureArchCompatibleWithOS(os', arch')
        case Fail(e) => Err(e)
        case Pass => Ok(ReleaseUrl(version, os', arch'))
  }

  /** `generateDownloadUrl` with the intended gate in place of the written one. */
  function GenerateDownloadUrlIntended(os: string, arch: string, version: string): (r: Result<string>)
    ensures r.Ok? <==>
      os in OSNames && arch in ArchNames && IntendedCompatible(OSNames[os], ArchNames[arch])
    ensures r.Ok? ==> r.value == ReleaseUrl(version, OSNames[os], ArchNames[arch])
    ensures os !in OSNames ==> r == Err(UnsupportedOS(os))
    ensures os in OSNames && arch !in ArchNames ==> r == Err(UnsupportedArch(arch))
    ensures os in OSNames && arch in ArchNames && !IntendedCompatible(OSNames[os], ArchNames[arch]) ==>
      r == Err(UnsupportedCombination(OSNames[os], ArchNames[arch]))
  {
    match FormatOSForUrl(os)
    case Err(e) => Err(e)
    case Ok(os') =>
      match FormatArchForUrl(arch)
      case Err(e) => Err(e)
      case Ok(arch') =>
        match EnsureArchCompatibleWithOSIntended(os', arch')
        case Fail(e) => Err(e)
        case Pass => Ok(ReleaseUrl(version, os', arch'))
  }

  /** Whether `s` occurs in `m` starting at index `i`. */
  predicate MentionsAt(m: string, s: string, i: nat) {
    i + |s| <= |m| && m[i..i + |s|] == s
  }

  /** Whether `s` occurs as a contiguous piece of `m`. */
  ghost predicate Mentions(m: string, s: string) {
    exists i: nat :: MentionsAt(m, s, i)
  }

  /** The text of the `Error` each failure throws. */
  function Message(e: Error): (m: string)
    ensures e.UnsupportedOS? ==> Mentions(m, e.os)
    ensures e.UnsupportedArch? ==> Mentions(m, e.arch)
    ensures e.UnsupportedCombination? ==> Mentions(m, e.os) && Mentions(m, e.arch)
  {
    match e
    case UnsupportedOS(os) =>
      var m := "os value '" + os + "' is not supported";
      assert MentionsAt(m, os, 10);
      m
    case UnsupportedArch(arch) =>
      var m := "arch value '" + arch + "' is not supported";
      assert MentionsAt(m, arch, 12);
      m
    case UnsupportedCombination(os, arch) =>
      var m := "'os " + os + "' does not support arch '" + arch + "'";
      assert MentionsAt(m, os, 4);
      assert MentionsAt(m, arch, |os| + 29);
      m
  }
}
