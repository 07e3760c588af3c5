/**
 * The project's single source of version information: the version text,
 * its numeric components, optional pre-release and build tags, and the
 * formatting of the full version string.
 */
module Version {

  /** `__version__`, the one line a release bump edits. */
  const VersionText: string := "3.5.3"

  const BotName: string := "QuranBot"
  const Author: string := "John (Discord: Trippixn)"
  const BotAuthor: string := Author

  const VersionMajor: nat := 3
  const VersionMinor: nat := 5
  const VersionPatch: nat := 3

  /** Empty for a stable release. */
  const VersionPrerelease: string := ""
  /** Empty for a standard build. */
  const VersionBuild: string := ""

  /** The backward-compatible aliases of `__version__`. */
  const BotVersion: string := VersionText
  const VersionAlias: string := VersionText

  /**
   * The full version string built from a base version and the two
   * optional tags: a non-empty pre-release is appended as `-pre`, then a
   * non-empty build as `+build`.
   */
  function FormatVersion(base: string, prerelease: string, build: string): (r: string)
    ensures |r| == |base|
                   + (if prerelease == "" then 0 else 1 + |prerelease|)
                   + (if build == "" then 0 else 1 + |build|)
    ensures r[..|base|] == base
    ensures prerelease != "" ==>
              r[|base|] == '-' && r[|base| + 1..|base| + 1 + |prerelease|] == prerelease
    ensures build != "" ==> r[|r| - |build| - 1] == '+' && r[|r| - |build|..] == build
    ensures prerelease == "" && build == "" ==> r == base
  {
    var withPre := if prerelease != "" then base + "-" + prerelease else base;
    if build != "" then withPre + "+" + build else withPre
  }

  /** `get_version_string()` over the module's constants. */
  function GetVersionString(): (r: string)
    ensures r == VersionText
  {
    FormatVersion(VersionText, VersionPrerelease, VersionBuild)
  }

  datatype VersionTuple = VersionTuple(major: nat, minor: nat, patch: nat)

  /** `get_version_tuple()`. */
  function GetVersionTuple(): (t: VersionTuple)
    ensures t == VersionTuple(3, 5, 3)
  {
    VersionTuple(VersionMajor, VersionMinor, VersionPatch)
  }

  datatype VersionInfo = VersionInfo(
    version: string, versionString: string,
    major: nat, minor: nat, patch: nat,
    prerelease: string, build: string,
    tuple: VersionTuple, author: string, botName: string)

  /** `get_version_info()`: every entry agrees with the constants it reports. */
  function GetVersionInfo(): (info: VersionInfo)
    ensures info.version == info.versionString == VersionText
    ensures info.tuple == VersionTuple(info.major, info.minor, info.patch)
    ensures info.author == Author && info.botName == BotName
  {
    VersionInfo(VersionText, GetVersionString(), VersionMajor, VersionMinor, VersionPatch,
                VersionPrerelease, VersionBuild, GetVersionTuple(), Author, BotName)
  }

  /** The aliases are the version text itself. */
  lemma AliasesAgree()
    ensures BotVersion == VersionAlias == VersionText == GetVersionString()
  {
  }
}
