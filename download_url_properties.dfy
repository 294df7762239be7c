/**
  Properties of the platform-to-URL resolution: what the written gate lets
  through, how it differs from the release table, which error wins, and
  that a download URL names exactly one (version, platform) pair.
 */
module DownloadUrlProperties {
  import opened DownloadUrl

  /** The canonical OS tokens: the keys of the release table. */
  const CanonicalOSes: set<string> := {"darwin", "linux", "windows"}

  /** The canonical architecture tokens the normaliser produces. */
  const CanonicalArches: set<string> := {"386", "amd64", "arm", "arm64"}

  /** Every normalised token is canonical. */
  lemma NormalisedTokensAreCanonical(os: string, arch: string)
    ensures FormatOSForUrl(os).Ok? ==> FormatOSForUrl(os).value in CanonicalOSes
    ensures FormatArchForUrl(arch).Ok? ==> FormatArchForUrl(arch).value in CanonicalArches
  {
  }

  /** Distinct accepted raw tokens never collapse onto one canonical token. */
  lemma NormalisationInjective(os1: string, os2: string, arch1: string, arch2: string)
    ensures FormatOSForUrl(os1).Ok? && FormatOSForUrl(os1) == FormatOSForUrl(os2) ==> os1 == os2
    ensures FormatArchForUrl(arch1).Ok? && FormatArchForUrl(arch1) == FormatArchForUrl(arch2) ==> arch1 == arch2
  {
  }

  /** As written, the gate's verdict does not depend on the architecture at all. */
  lemma GateIgnoresArch(os: string, arch1: string, arch2: string)
    ensures EnsureArchCompatibleWithOS(os, arch1).Pass? == EnsureArchCompatibleWithOS(os, arch2).Pass?
  {
  }

  /** Whatever the OS normaliser returns passes the written gate, with any architecture. */
  lemma GateNeverFailsAfterNormalisation(os: string, arch: string)
    requires FormatOSForUrl(os).Ok?
    ensures EnsureArchCompatibleWithOS(FormatOSForUrl(os).value, arch) == Pass
  {
  }

  /** `generateDownloadUrl` can report an unsupported OS or arch, never an unsupported combination. */
  lemma GenerateNeverReportsCombination(os: string, arch: string, version: string)
    ensures GenerateDownloadUrl(os, arch, version).Err? ==>
      !GenerateDownloadUrl(os, arch, version).error.UnsupportedCombination?
  {
  }

  /** The OS is normalised first: with both tokens unsupported, the OS error is the one thrown. */
  lemma OSErrorReportedFirst(os: string, arch: string, version: string)
    requires os !in OSNames && arch !in ArchNames
    ensures GenerateDownloadUrl(os, arch, version) == Err(UnsupportedOS(os))
  {
  }

  /**
    The written gate and the release table disagree exactly on the pairs
    whose OS is in the table but whose architecture is not listed for it.
   */
  lemma GateDivergence(os: string, arch: string)
    ensures (EnsureArchCompatibleWithOS(os, arch).Pass? && EnsureArchCompatibleWithOSIntended(os, arch).Fail?)
      <==> os in AllowedArch && arch !in AllowedArch[os]
    ensures EnsureArchCompatibleWithOSIntended(os, arch).Pass? ==> EnsureArchCompatibleWithOS(os, arch).Pass?
  {
  }

  /** (darwin, arm64) passes the written gate, although the table lists only amd64 for darwin. */
  lemma DarwinArm64Divergence(version: string)
    ensures EnsureArchCompatibleWithOS("darwin", "arm64") == Pass
    ensures !IntendedCompatible("darwin", "arm64")
    ensures EnsureArchCompatibleWithOSIntended("darwin", "arm64") ==
      Fail(UnsupportedCombination("darwin", "arm64"))
    ensures GenerateDownloadUrl("darwin", "arm64", version) ==
      Ok(ReleaseUrl(version, "darwin", "arm64"))
    ensures GenerateDownloadUrlIntended("darwin", "arm64", version) ==
      Err(UnsupportedCombination("darwin", "arm64"))
  {
  }

  /** Where the intended pipeline succeeds, the written one returns the same URL. */
  lemma IntendedAgreesWhereItSucceeds(os: string, arch: string, version: string)
    ensures GenerateDownloadUrlIntended(os, arch, version).Ok? ==>
      GenerateDownloadUrl(os, arch, version) == GenerateDownloadUrlIntended(os, arch, version)
    ensures GenerateDownloadUrl(os, arch, version).Err? ==>
      GenerateDownloadUrlIntended(os, arch, version) == GenerateDownloadUrl(os, arch, version)
  {
  }

  /** The release URL for Linux on x64, version v1.2.3. */
  lemma LinuxX64Example()
    ensures GenerateDownloadUrl("linux", "x64", "v1.2.3") ==
      Ok(ReleasesPrefix + "v1.2.3/fargate-v1.2.3-linux-amd64.zip")
  {
    var rest := "v1.2.3" + "/fargate-" + "v1.2.3" + "-" + "linux" + "-" + "amd64" + ".zip";
    assert rest == "v1.2.3/fargate-v1.2.3-linux-amd64.zip";
    assert ReleaseUrl("v1.2.3", "linux", "amd64") == ReleasesPrefix + rest;
  }

  /** The release URL for Windows on x64, version v2.0.0. */
  lemma Win32X64Example()
    ensures GenerateDownloadUrl("win32", "x64", "v2.0.0") ==
      Ok(ReleasesPrefix + "v2.0.0/fargate-v2.0.0-windows-amd64.zip")
  {
    var rest := "v2.0.0" + "/fargate-" + "v2.0.0" + "-" + "windows" + "-" + "amd64" + ".zip";
    assert rest == "v2.0.0/fargate-v2.0.0-windows-amd64.zip";
    assert ReleaseUrl("v2.0.0", "windows", "amd64") == ReleasesPrefix + rest;
  }

  /** The part of the URL after the second copy of the version. */
  function Tail(os: string, arch: string): string {
    "-" + os + "-" + arch + ".zip"
  }

  /** The URL as prefix-and-version followed by the rest, and its length. */
  lemma {:induction false} ReleaseUrlSplit(version: string, os: string, arch: string)
    ensures ReleaseUrl(version, os, arch) ==
      (ReleasesPrefix + version) + ("/fargate-" + version + Tail(os, arch))
    ensures |ReleaseUrl(version, os, arch)| ==
      |ReleasesPrefix| + 2 * |version| + 15 + |os| + |arch|
  {
    var s := "/fargate-" + version + Tail(os, arch);
    assert ReleaseUrl(version, os, arch) == (ReleasesPrefix + version) + s;
  }

  /** A URL built with a shorter version never equals one built with a longer one. */
  lemma {:induction false} ShorterVersionDiffers(
    v1: string, os1: string, arch1: string, v2: string, os2: string, arch2: string)
    requires os1 in CanonicalOSes && os2 in CanonicalOSes
    requires arch1 in CanonicalArches && arch2 in CanonicalArches
    requires |v1| < |v2|
    ensures ReleaseUrl(v1, os1, arch1) != ReleaseUrl(v2, os2, arch2)
  {
    ReleaseUrlSplit(v1, os1, arch1);
    ReleaseUrlSplit(v2, os2, arch2);
    var u1, u2 := ReleaseUrl(v1, os1, arch1), ReleaseUrl(v2, os2, arch2);
    if |u1| == |u2| {
      // The lengths of the canonical tokens bound the difference of the versions.
      var k := |v2| - |v1|;
      assert 5 <= |os1| <= 7 && 5 <= |os2| <= 7;
      assert 3 <= |arch1| <= 5 && 3 <= |arch2| <= 5;
      assert k == 1 || k == 2;
      // At this index the longer URL has the '/' that ends its version, while
      // the shorter one is already inside "/fargate-".
      var i := |ReleasesPrefix| + |v2|;
      var s1 := "/fargate-" + v1 + Tail(os1, arch1);
      var s2 := "/fargate-" + v2 + Tail(os2, arch2);
      assert u1[i] == s1[k] == "/fargate-"[k] != '/';
      assert u2[i] == s2[0] == '/';
    }
  }

  /** Two equal URLs whose versions have one length share the version and the tail. */
  lemma {:induction false} SameLengthVersionsAgree(
    v1: string, os1: string, arch1: string, v2: string, os2: string, arch2: string)
    requires |v1| == |v2|
    requires ReleaseUrl(v1, os1, arch1) == ReleaseUrl(v2, os2, arch2)
    ensures v1 == v2 && Tail(os1, arch1) == Tail(os2, arch2)
  {
    var u := ReleaseUrl(v1, os1, arch1);
    var n := |ReleasesPrefix|;
    ReleaseUrlSplit(v1, os1, arch1);
    ReleaseUrlSplit(v2, os2, arch2);
    assert v1 == u[n..n + |v1|] == v2;
    var head := ReleasesPrefix + v1 + "/fargate-" + v1;
    assert u == head + Tail(os1, arch1) == head + Tail(os2, arch2);
    assert Tail(os1, arch1) == u[|head|..] == Tail(os2, arch2);
  }

  /** The tail of a URL names one canonical platform. */
  lemma {:induction false} TailInjective(os1: string, arch1: string, os2: string, arch2: string)
    requires os1 in CanonicalOSes && os2 in CanonicalOSes
    requires arch1 in CanonicalArches && arch2 in CanonicalArches
    requires Tail(os1, arch1) == Tail(os2, arch2)
    ensures os1 == os2 && arch1 == arch2
  {
    var t := Tail(os1, arch1);
    // The canonical OS tokens start with different letters.
    assert os1[0] == t[1] == os2[0];
    assert os1 == os2;
    assert t == ("-" + os1 + "-") + (arch1 + ".zip") == ("-" + os2 + "-") + (arch2 + ".zip");
    assert arch1 + ".zip" == t[|os1| + 2..] == arch2 + ".zip";
    assert arch1 == (arch1 + ".zip")[..|arch1|] == (arch2 + ".zip")[..|arch2|] == arch2;
  }

  /**
    A release URL names one version and one canonical platform: building it
    from two different (version, OS, architecture) triples gives two
    different URLs.
   */
  lemma {:induction false} ReleaseUrlInjective(
    v1: string, os1: string, arch1: string, v2: string, os2: string, arch2: string)
    requires os1 in CanonicalOSes && os2 in CanonicalOSes
    requires arch1 in CanonicalArches && arch2 in CanonicalArches
    requires ReleaseUrl(v1, os1, arch1) == ReleaseUrl(v2, os2, arch2)
    ensures v1 == v2 && os1 == os2 && arch1 == arch2
  {
    if |v1| < |v2| {
      ShorterVersionDiffers(v1, os1, arch1, v2, os2, arch2);
    } else if |v2| < |v1| {
      ShorterVersionDiffers(v2, os2, arch2, v1, os1, arch1);
    }
    SameLengthVersionsAgree(v1, os1, arch1, v2, os2, arch2);
    TailInjective(os1, arch1, os2, arch2);
  }

  /**
    Two successful calls of `generateDownloadUrl` that give the same URL
    were given the same raw OS, raw architecture and version.
   */
  lemma {:induction false} GenerateDownloadUrlInjective(
    os1: string, arch1: string, v1: string, os2: string, arch2: string, v2: string)
    requires GenerateDownloadUrl(os1, arch1, v1).Ok?
    requires GenerateDownloadUrl(os1, arch1, v1) == GenerateDownloadUrl(os2, arch2, v2)
    ensures os1 == os2 && arch1 == arch2 && v1 == v2
  {
    NormalisedTokensAreCanonical(os1, arch1);
    NormalisedTokensAreCanonical(os2, arch2);
    ReleaseUrlInjective(v1, OSNames[os1], ArchNames[arch1], v2, OSNames[os2], ArchNames[arch2]);
    NormalisationInjective(os1, os2, arch1, arch2);
  }
}
