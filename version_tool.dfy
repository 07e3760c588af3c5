/**
 * The release helper that bumps the version: it validates a
 * MAJOR.MINOR.PATCH string, rewrites the version assignments of the
 * version file, and regenerates the README's version history from the
 * changelog's "Added" sections.
 */
module VersionTool {
  import opened Common
  import Version

  // ---------------------------------------------------------------------
  // validate_version
  // ---------------------------------------------------------------------

  /** Three non-empty runs of ASCII digits separated by dots. */
  predicate IsVersionTriple(s: string)
  {
    var parts := Split(s, '.');
    |parts| == 3 && forall i :: 0 <= i < 3 ==> parts[i] != [] && AllDigits(parts[i])
  }

  /**
   * `validate_version` as its authors meant it: the whole string is
   * `\d+\.\d+\.\d+` (the non-negativity test after `int` can never fail
   * on digit runs).
   */
  function ValidateVersion(s: string): (ok: bool)
    ensures ok ==> |s| >= 5 && DigitsAndDots(s)
  {
    if IsVersionTriple(s) then TripleSound(s); true else false
  }

  /**
   * `validate_version` as written: Python's `$` also matches just before
   * a final newline, and `int("3\n")` is 3, so a version followed by one
   * newline is accepted too.
   */
  function ValidateVersionAsWritten(s: string): (ok: bool)
    ensures ValidateVersion(s) ==> ok
    ensures ok && !ValidateVersion(s) ==> |s| >= 6 && s[|s| - 1] == '\n' && ValidateVersion(s[..|s| - 1])
  {
    ValidateVersion(s) || (s != [] && s[|s| - 1] == '\n' && ValidateVersion(s[..|s| - 1]))
  }

  predicate DigitsAndDots(s: string)
  {
    forall i :: 0 <= i < |s| ==> IsDigit(s[i]) || s[i] == '.'
  }

  lemma DigitsAndDotsConcat(x: string, y: string)
    requires DigitsAndDots(x) && DigitsAndDots(y)
    ensures DigitsAndDots(x + y)
  {
    forall i | 0 <= i < |x + y| ensures IsDigit((x + y)[i]) || (x + y)[i] == '.' {
      if i >= |x| { assert (x + y)[i] == y[i - |x|]; }
    }
  }

  /** Every accepted string is digits and dots, in the form a.b.c. */
  lemma ValidateVersionSound(s: string)
    requires ValidateVersion(s)
    ensures var p := Split(s, '.');
            s == p[0] + "." + p[1] + "." + p[2]
            && p[0] != [] && p[1] != [] && p[2] != []
            && AllDigits(p[0]) && AllDigits(p[1]) && AllDigits(p[2])
    ensures DigitsAndDots(s)
  {
    TripleSound(s);
  }

  lemma TripleSound(s: string)
    requires IsVersionTriple(s)
    ensures var p := Split(s, '.');
            s == p[0] + "." + p[1] + "." + p[2]
            && p[0] != [] && p[1] != [] && p[2] != []
            && AllDigits(p[0]) && AllDigits(p[1]) && AllDigits(p[2])
    ensures DigitsAndDots(s)
  {
    var p := Split(s, '.');
    JoinSplit(s, '.');
    assert p == [p[0], p[1], p[2]];
    JoinThree(p[0], p[1], p[2], '.');
    DigitsAndDotsConcat(p[0], ".");
    DigitsAndDotsConcat(p[0] + ".", p[1]);
    DigitsAndDotsConcat(p[0] + "." + p[1], ".");
    DigitsAndDotsConcat(p[0] + "." + p[1] + ".", p[2]);
  }

  /** Every string of the form a.b.c with digit runs a, b, c is accepted. */
  lemma ValidateVersionComplete(a: string, b: string, c: string)
    requires a != [] && b != [] && c != []
    requires AllDigits(a) && AllDigits(b) && AllDigits(c)
    ensures ValidateVersion(a + "." + b + "." + c)
    ensures Split(a + "." + b + "." + c, '.') == [a, b, c]
  {
    assert '.' !in a && '.' !in b && '.' !in c by {
      forall i | 0 <= i < |a| ensures a[i] != '.' { assert IsDigit(a[i]); }
      forall i | 0 <= i < |b| ensures b[i] != '.' { assert IsDigit(b[i]); }
      forall i | 0 <= i < |c| ensures c[i] != '.' { assert IsDigit(c[i]); }
    }
    JoinThree(a, b, c, '.');
    SplitJoin([a, b, c], '.');
  }

  /**
   * The as-written check accepts every valid version followed by a
   * newline, which the intended check rejects.
   */
  lemma AsWrittenAcceptsTrailingNewline(v: string)
    requires ValidateVersion(v)
    ensures ValidateVersionAsWritten(v + "\n")
    ensures !ValidateVersion(v + "\n")
  {
    var w := v + "\n";
    assert w[..|w| - 1] == v;
    TrailingNewlineRejected(v);
  }

  lemma TrailingNewlineRejected(v: string)
    requires ValidateVersion(v)
    ensures !IsVersionTriple(v + "\n")
  {
    SplitCoreNewline(v);
    var last := Split(v + "\n", '.')[2];
    assert !AllDigits(last) by { assert !IsDigit(last[|last| - 1]); }
  }

  /** The concrete input: "1.2.3" followed by a newline. */
  lemma AsWrittenAcceptsOneTwoThreeNewline()
    ensures ValidateVersionAsWritten("1.2.3\n") && !ValidateVersion("1.2.3\n")
  {
    var one, two, three := "1", "2", "3";
    ValidateVersionComplete(one, two, three);
    var v := one + "." + two + "." + three;
    AsWrittenAcceptsTrailingNewline(v);
    assert v + "\n" == "1.2.3\n";
  }

  /** A version the as-written check accepts, without its final newline. */
  function VersionCore(s: string): (c: string)
    requires ValidateVersionAsWritten(s)
    ensures IsVersionTriple(c) && (s == c || s == c + "\n")
  {
    if IsVersionTriple(s) then s else s[..|s| - 1]
  }

  /** A digit run followed by a newline is what `int` reads as the digits. */
  lemma ParseIntDigitsNewline(d: string)
    requires d != [] && AllDigits(d)
    ensures ParseInt(d + "\n") == Some(DigitsToNat(d))
  {
    var s := d + "\n";
    assert StripLeft(s) == s by { assert !IsSpace(s[0]); }
    assert s[..|s| - 1] == d;
    assert StripRight(d) == d by { assert !IsSpace(d[|d| - 1]); }
    assert StripRight(s) == d;
  }

  /** The three dot-separated parts of a version with a final newline. */
  lemma SplitCoreNewline(c: string)
    requires IsVersionTriple(c)
    ensures var p := Split(c, '.');
            Split(c + "\n", '.') == [p[0], p[1], p[2] + "\n"]
  {
    ValidateVersionSound(c);
    var p := Split(c, '.');
    var last := p[2] + "\n";
    assert c + "\n" == p[0] + "." + p[1] + "." + last;
    assert '.' !in last by {
      forall i | 0 <= i < |last| ensures last[i] != '.' {
        if i < |p[2]| { assert last[i] == p[2][i]; assert IsDigit(p[2][i]); }
      }
    }
    JoinThree(p[0], p[1], last, '.');
    SplitJoin([p[0], p[1], last], '.');
  }

  /**
   * `map(int, s.split("."))`: the three components are what `int` makes
   * of the three dot-separated parts, a final newline included.
   */
  function ParseVersion(s: string): (t: Version.VersionTuple)
    requires ValidateVersionAsWritten(s)
    ensures var p := Split(s, '.');
            |p| == 3 && ParseInt(p[0]) == Some(t.major as int)
            && ParseInt(p[1]) == Some(t.minor as int) && ParseInt(p[2]) == Some(t.patch as int)
  {
    var c := VersionCore(s);
    var p := Split(c, '.');
    var t := Version.VersionTuple(DigitsToNat(p[0]), DigitsToNat(p[1]), DigitsToNat(p[2]));
    ParseIntDigits(p[0]);
    ParseIntDigits(p[1]);
    ParseIntDigits(p[2]);
    if s == c then t
    else SplitCoreNewline(c); ParseIntDigitsNewline(p[2]); t
  }

  /** The rendering of a version tuple, `f"{major}.{minor}.{patch}"`. */
  function RenderVersion(t: Version.VersionTuple): (s: string)
    ensures ValidateVersion(s)
  {
    ValidateVersionComplete(NatToString(t.major), NatToString(t.minor), NatToString(t.patch));
    NatToString(t.major) + "." + NatToString(t.minor) + "." + NatToString(t.patch)
  }

  /** Rendering is accepted by the validator, and parsing undoes it. */
  lemma RenderParseRoundTrip(t: Version.VersionTuple)
    ensures ValidateVersion(RenderVersion(t))
    ensures ParseVersion(RenderVersion(t)) == t
  {
    ValidateVersionComplete(NatToString(t.major), NatToString(t.minor), NatToString(t.patch));
    NatToStringRoundTrip(t.major);
    NatToStringRoundTrip(t.minor);
    NatToStringRoundTrip(t.patch);
  }

  /** The shipped version text is valid and agrees with its tuple. */
  lemma ShippedVersionConsistent()
    ensures ValidateVersion(Version.VersionText)
    ensures ParseVersion(Version.VersionText) == Version.GetVersionTuple()
    ensures RenderVersion(Version.GetVersionTuple()) == Version.VersionText
  {
    var t := Version.GetVersionTuple();
    assert RenderVersion(t) == "3.5.3";
    RenderParseRoundTrip(t);
  }

  // ---------------------------------------------------------------------
  // extract_changelog_features
  // ---------------------------------------------------------------------

  /** The line that opens the section of `version`: it starts `## [version]`. */
  predicate IsVersionHeader(line: string, version: string)
  {
    StartsWith(line, "## [" + version + "]")
  }

  /** A line that ends the section: another `## [` heading. */
  predicate IsSectionEnd(line: string, version: string)
  {
    StartsWith(line, "## [") && !IsVersionHeader(line, version)
  }

  predicate IsAddedHeading(line: string) { StartsWith(line, "### Added") }

  /** A `### ` heading other than `### Added`: it closes the Added list. */
  predicate IsOtherHeading(line: string)
  {
    StartsWith(line, "### ") && !IsAddedHeading(line)
  }

  predicate IsBulletStart(line: string) { StartsWith(line, "- **") }

  /** The length of the run of characters other than `*` at the start of `s`. */
  function NonStarRun(s: string): (k: nat)
    ensures k <= |s| && '*' !in s[..k]
    ensures k < |s| ==> s[k] == '*'
  {
    if s != [] && s[0] != '*' then
      var k := 1 + NonStarRun(s[1..]);
      assert s[..k] == [s[0]] + s[1..][..k - 1];
      k
    else 0
  }

  /**
   * The match of `- \*\*([^*]+)\*\*[^:]*: (.+)` at the start of a
   * line, as "title - description". The title is the run of non-`*`
   * characters after `- **` and must be closed by `**`; the description
   * follows the first `:` after it, which must be followed by a space, and
   * runs to the end of the line.
   */
  function ParseFeature(line: string): (r: Option<string>)
    ensures r.Some? ==> IsBulletStart(line) && |r.value| >= 5
  {
    if !IsBulletStart(line) then None
    else
      var t := line[4..];
      var k := NonStarRun(t);
      if k == 0 || k + 2 > |t| || t[k + 1] != '*' then None
      else match Description(t[k + 2..])
        case None => None
        case Some(d) => Some(t[..k] + " - " + d)
  }

  /** The `[^:]*: (.+)` tail: the rest of the line after the first `: `. */
  function Description(u: string): (r: Option<string>)
    ensures r.Some? ==> ':' in u && r.value != [] && '\n' !in r.value
  {
    match IndexOf(u, ':')
    case None => None
    case Some(c) =>
      if c + 1 < |u| && u[c + 1] == ' ' then
        var rest := u[c + 2..];
        var d := match IndexOf(rest, '\n') case None => |rest| case Some(e) => e;
        if d == 0 then None else Some(rest[..d])
      else None
  }

  lemma DescriptionComplete(middle: string, desc: string)
    requires ':' !in middle
    requires desc != [] && '\n' !in desc
    ensures Description(middle + ": " + desc) == Some(desc)
  {
    var u := middle + ": " + desc;
    IndexOfAfterPrefix(middle, ':', ": " + desc);
    assert u == middle + (": " + desc);
    assert u[|middle| + 1] == ' ';
    assert u[|middle| + 2..] == desc;
    assert IndexOf(desc, '\n').None?;
    assert desc[..|desc|] == desc;
  }

  lemma {:induction false} NonStarRunAfterPrefix(x: string, rest: string)
    requires '*' !in x && rest != [] && rest[0] == '*'
    ensures NonStarRun(x + rest) == |x|
    decreases |x|
  {
    if x == [] {
      assert x + rest == rest;
    } else {
      assert (x + rest)[1..] == x[1..] + rest;
      NonStarRunAfterPrefix(x[1..], rest);
    }
  }

  /** Every well-formed bullet line is recognised, with its title and description. */
  lemma ParseFeatureComplete(title: string, middle: string, desc: string)
    requires title != [] && '*' !in title
    requires ':' !in middle
    requires desc != [] && '\n' !in desc
    ensures ParseFeature("- **" + title + "**" + middle + ": " + desc) == Some(title + " - " + desc)
  {
    var u := middle + ": " + desc;
    var t := title + ("**" + u);
    var line := "- **" + title + "**" + middle + ": " + desc;
    assert line == "- **" + t;
    assert IsBulletStart(line);
    assert line[4..] == t;
    NonStarRunAfterPrefix(title, "**" + u);
    assert t[..|title|] == title;
    assert t[|title| + 1] == '*';
    assert t[|title| + 2..] == u;
    DescriptionComplete(middle, desc);
  }

  /**
   * The scan of `extract_changelog_features` over the remaining lines,
   * given whether the version's section and an Added list are open.
   */
  function FeatureScan(lines: seq<string>, version: string, inVersion: bool, inAdded: bool)
    : (r: seq<string>)
    decreases |lines|
  {
    if lines == [] then []
    else
      var line := lines[0];
      if IsVersionHeader(line, version) then FeatureScan(lines[1..], version, true, inAdded)
      else if inVersion && StartsWith(line, "## [") then []
      else if inVersion then
        if IsAddedHeading(line) then FeatureScan(lines[1..], version, true, true)
        else if StartsWith(line, "### ") && inAdded then FeatureScan(lines[1..], version, true, false)
        else if inAdded && IsBulletStart(line) then
          (match ParseFeature(line) case Some(f) => [f] case None => [])
          + FeatureScan(lines[1..], version, true, inAdded)
        else FeatureScan(lines[1..], version, true, inAdded)
      else FeatureScan(lines[1..], version, false, inAdded)
  }

  /** `extract_changelog_features(changelog, version)`. */
  method ExtractChangelogFeatures(changelog: string, version: string) returns (features: seq<string>)
    ensures features == FeatureScan(Split(changelog, '\n'), version, false, false)
  {
    var lines := Split(changelog, '\n');
    var inVersion, inAdded := false, false;
    features := [];
    var i := 0;
    while i < |lines|
      invariant 0 <= i <= |lines|
      invariant features + FeatureScan(lines[i..], version, inVersion, inAdded)
                == FeatureScan(lines, version, false, false)
    {
      var line := lines[i];
      assert lines[i..][1..] == lines[i + 1..];
      if IsVersionHeader(line, version) {
        inVersion := true;
      } else if inVersion && StartsWith(line, "## [") {
        break;
      } else if inVersion {
        if IsAddedHeading(line) {
          inAdded := true;
        } else if StartsWith(line, "### ") && inAdded {
          inAdded := false;
        } else if inAdded && IsBulletStart(line) {
          var parsed := ParseFeature(line);
          if parsed.Some? {
            features := features + [parsed.value];
          }
        }
      }
      i := i + 1;
    }
    assert i < |lines| ==> FeatureScan(lines[i..], version, inVersion, inAdded) == [];
  }

  // A declarative reading of the same selection, line by line.

  /** The index of the first header line of `version`, if any. */
  function FirstHeader(lines: seq<string>, version: string): (r: Option<nat>)
    ensures r.Some? ==> r.value < |lines| && IsVersionHeader(lines[r.value], version)
    ensures forall k :: 0 <= k < |lines| && (r.None? || k < r.value) ==>
              !IsVersionHeader(lines[k], version)
  {
    if lines == [] then None
    else if IsVersionHeader(lines[0], version) then Some(0)
    else match FirstHeader(lines[1..], version) {
      case None => None
      case Some(h) => Some(h + 1)
    }
  }

  /** Line `j` lies under an open `### Added` list of the section starting at `h`. */
  ghost predicate UnderAdded(lines: seq<string>, h: nat, j: nat)
    requires j <= |lines|
  {
    exists a :: h < a < j && IsAddedHeading(lines[a])
      && forall b :: a < b < j ==> !IsOtherHeading(lines[b])
  }

  /**
   * Line `j` contributes a feature: it lies after the first header of the
   * version with no other `## [` heading in between, it is under an open
   * Added list, and it is a well-formed bullet.
   */
  ghost predicate Selected(lines: seq<string>, version: string, j: nat)
    requires j < |lines|
  {
    var h := FirstHeader(lines, version);
    h.Some? && h.value < j
    && (forall k :: h.value < k <= j ==> !IsSectionEnd(lines[k], version))
    && UnderAdded(lines, h.value, j)
    && ParseFeature(lines[j]).Some?
  }

  /** The features of the selected lines from index `j` on, in file order. */
  ghost function SelectedFrom(lines: seq<string>, version: string, j: nat): seq<string>
    requires j <= |lines|
    decreases |lines| - j
  {
    if j == |lines| then []
    else (if Selected(lines, version, j) then [ParseFeature(lines[j]).value] else [])
         + SelectedFrom(lines, version, j + 1)
  }

  lemma {:induction false} NothingSelectedAfterEnd(lines: seq<string>, version: string, e: nat, j: nat)
    requires FirstHeader(lines, version).Some? && FirstHeader(lines, version).value < e <= j <= |lines|
    requires e < |lines| && IsSectionEnd(lines[e], version)
    ensures SelectedFrom(lines, version, j) == []
    decreases |lines| - j
  {
    if j < |lines| {
      NothingSelectedAfterEnd(lines, version, e, j + 1);
    }
  }

  /** The leading characters that tell the kinds of line apart. */
  lemma LineKinds(line: string, version: string)
    ensures IsVersionHeader(line, version) ==> |line| >= 4 && line[0] == '#' && line[2] == ' '
    ensures StartsWith(line, "## [") ==> line[0] == '#' && line[2] == ' '
    ensures StartsWith(line, "### ") ==> line[0] == '#' && line[2] == '#'
    ensures IsBulletStart(line) ==> line[0] == '-'
  {
    var open := "## [";
    assert open[0] == '#' && open[2] == ' ';
    if IsVersionHeader(line, version) {
      var p := open + version + "]";
      assert p[0] == '#' && p[2] == ' ';
      assert line[..|p|] == p;
      assert line[0] == p[0] && line[2] == p[2];
    }
    if StartsWith(line, open) { assert line[0] == open[0] && line[2] == open[2]; }
    var third := "### ";
    assert third[0] == '#' && third[2] == '#';
    if StartsWith(line, third) { assert line[0] == third[0] && line[2] == third[2]; }
    var bullet := "- **";
    assert bullet[0] == '-';
    if IsBulletStart(line) { assert line[0] == bullet[0]; }
  }

  /** The flags of the scan describe the lines before index `i`. */
  ghost predicate FlagsDescribe(lines: seq<string>, version: string, i: nat, inVersion: bool, inAdded: bool)
    requires i <= |lines|
  {
    var h := FirstHeader(lines, version);
    (inVersion <==> (h.Some? && h.value < i))
    && (!inVersion ==> !inAdded)
    && (inVersion ==> (forall k :: h.value < k < i ==> !IsSectionEnd(lines[k], version))
                      && (inAdded <==> UnderAdded(lines, h.value, i)))
  }

  lemma SameAddedIfNotHeading(lines: seq<string>, h: nat, i: nat)
    requires i < |lines|
    requires !IsAddedHeading(lines[i]) && !IsOtherHeading(lines[i])
    ensures UnderAdded(lines, h, i + 1) <==> UnderAdded(lines, h, i)
  {
    if UnderAdded(lines, h, i + 1) {
      var a :| h < a < i + 1 && IsAddedHeading(lines[a])
               && forall b :: a < b < i + 1 ==> !IsOtherHeading(lines[b]);
      assert a < i;
    }
  }

  lemma AddedOpens(lines: seq<string>, h: nat, i: nat)
    requires h < i < |lines| && IsAddedHeading(lines[i])
    ensures UnderAdded(lines, h, i + 1)
  {
    assert h < i < i + 1 && IsAddedHeading(lines[i]);
  }

  lemma OtherCloses(lines: seq<string>, h: nat, i: nat)
    requires i < |lines| && IsOtherHeading(lines[i])
    ensures !UnderAdded(lines, h, i + 1)
  {
  }

  /**
   * The scan from line `i` agrees with the declarative selection, given
   * that its flags describe the lines before `i`.
   */
  lemma {:induction false} FeatureScanFrom(lines: seq<string>, version: string, i: nat, inVersion: bool, inAdded: bool)
    requires i <= |lines|
    requires FlagsDescribe(lines, version, i, inVersion, inAdded)
    ensures FeatureScan(lines[i..], version, inVersion, inAdded) == SelectedFrom(lines, version, i)
    decreases |lines| - i
  {
    if i < |lines| {
      var line := lines[i];
      var h := FirstHeader(lines, version);
      assert lines[i..][0] == line && lines[i..][1..] == lines[i + 1..];
      LineKinds(line, version);
      if IsVersionHeader(line, version) {
        ScanHeaderStep(lines, version, i, inVersion, inAdded);
        FeatureScanFrom(lines, version, i + 1, true, inAdded);
      } else if inVersion && StartsWith(line, "## [") {
        NothingSelectedAfterEnd(lines, version, i, i);
      } else if inVersion {
        ScanInsideStep(lines, version, i, inAdded);
        var next := if IsAddedHeading(line) then true
                    else if StartsWith(line, "### ") && inAdded then false
                    else inAdded;
        FeatureScanFrom(lines, version, i + 1, true, next);
      } else {
        assert !Selected(lines, version, i);
        FeatureScanFrom(lines, version, i + 1, false, inAdded);
      }
    }
  }

  lemma ScanHeaderStep(lines: seq<string>, version: string, i: nat, inVersion: bool, inAdded: bool)
    requires i < |lines| && IsVersionHeader(lines[i], version)
    requires FlagsDescribe(lines, version, i, inVersion, inAdded)
    ensures !Selected(lines, version, i)
    ensures FlagsDescribe(lines, version, i + 1, true, inAdded)
  {
    var h := FirstHeader(lines, version);
    LineKinds(lines[i], version);
    if !inVersion { assert h.value == i; }
    SameAddedIfNotHeading(lines, h.value, i);
    if inVersion {
      assert !IsSectionEnd(lines[i], version);
    } else {
      assert !UnderAdded(lines, h.value, i + 1);
    }
  }

  lemma ScanInsideStep(lines: seq<string>, version: string, i: nat, inAdded: bool)
    requires i < |lines| && !IsVersionHeader(lines[i], version) && !StartsWith(lines[i], "## [")
    requires FlagsDescribe(lines, version, i, true, inAdded)
    ensures var line := lines[i];
            var next := if IsAddedHeading(line) then true
                        else if StartsWith(line, "### ") && inAdded then false
                        else inAdded;
            FlagsDescribe(lines, version, i + 1, true, next)
            && (Selected(lines, version, i) <==>
                  (!IsAddedHeading(line) && !(StartsWith(line, "### ") && inAdded)
                   && inAdded && IsBulletStart(line) && ParseFeature(line).Some?))
  {
    var line := lines[i];
    var h := FirstHeader(lines, version).value;
    LineKinds(line, version);
    assert !IsSectionEnd(line, version);
    if IsAddedHeading(line) {
      AddedOpens(lines, h, i);
    } else if StartsWith(line, "### ") {
      assert IsOtherHeading(line);
      OtherCloses(lines, h, i);
    } else {
      SameAddedIfNotHeading(lines, h, i);
    }
    if ParseFeature(line).Some? { assert IsBulletStart(line); }
  }

  /**
   * The features `extract_changelog_features` reports are exactly the
   * well-formed bullets under an Added list of the version's section, in
   * file order: nothing before the header, nothing after the next
   * `## [` heading, nothing outside an Added list.
   */
  lemma FeatureScanIsSelection(lines: seq<string>, version: string)
    ensures FeatureScan(lines, version, false, false) == SelectedFrom(lines, version, 0)
  {
    assert lines[0..] == lines;
    FeatureScanFrom(lines, version, 0, false, false);
  }

  // ---------------------------------------------------------------------
  // update_readme_version_history: versions, blocks, lines
  // ---------------------------------------------------------------------

  /**
   * The match of `## \[(\d+\.\d+\.\d+)\]` at the start of `s`: the
   * version it captures and the length of the whole match. Each digit
   * run is maximal, since a shorter run would be followed by a digit.
   */
  function VersionRefAt(s: string): (r: Option<(string, nat)>)
    ensures r.Some? ==> 0 < r.value.1 <= |s| && ValidateVersion(r.value.0)
  {
    if !StartsWith(s, "## [") then None
    else
      var t := s[4..];
      var a := DigitRun(t);
      if a == 0 || a >= |t| || t[a] != '.' then None
      else
        var t2 := t[a + 1..];
        var b := DigitRun(t2);
        if b == 0 || b >= |t2| || t2[b] != '.' then None
        else
          var t3 := t2[b + 1..];
          var c := DigitRun(t3);
          if c == 0 || c >= |t3| || t3[c] != ']' then None
          else
            ValidateVersionComplete(t[..a], t2[..b], t3[..c]);
            Some((t[..a] + "." + t2[..b] + "." + t3[..c], 4 + a + 1 + b + 1 + c + 1))
  }

  /** `re.findall` of the version headings: left to right, without overlap. */
  function FindVersions(s: string): (vs: seq<string>)
    ensures forall i :: 0 <= i < |vs| ==> ValidateVersion(vs[i])
    decreases |s|
  {
    if s == [] then []
    else match VersionRefAt(s)
      case Some(m) => [m.0] + FindVersions(s[m.1..])
      case None => FindVersions(s[1..])
  }

  /** `feature.replace("**", "")`: pairs of stars removed left to right. */
  function RemoveDoubleStars(s: string): (r: string)
    ensures |r| <= |s|
    decreases |s|
  {
    if |s| >= 2 && s[0] == '*' && s[1] == '*' then RemoveDoubleStars(s[2..])
    else if s == [] then []
    else [s[0]] + RemoveDoubleStars(s[1..])
  }

  function HeaderLine(i: nat, version: string): (line: string)
  {
    if i == 0 then "### v" + version + " (Latest)" else "### v" + version
  }

  function BulletLine(feature: string): (line: string)
  {
    "- **" + Strip(RemoveDoubleStars(feature)) + "**"
  }

  function Bullets(features: seq<string>): (lines: seq<string>)
    ensures |lines| == |features|
    decreases |features|
  {
    if features == [] then []
    else Bullets(features[..|features| - 1]) + [BulletLine(features[|features| - 1])]
  }

  function Min(a: nat, b: nat): nat { if a < b then a else b }

  /** The features `extract_changelog_features` reports for `version`. */
  function ChangelogFeatures(changelog: string, version: string): (features: seq<string>)
    ensures features == SelectedFrom(Split(changelog, '\n'), version, 0)
  {
    FeatureScanIsSelection(Split(changelog, '\n'), version);
    FeatureScan(Split(changelog, '\n'), version, false, false)
  }

  /** The lines for the `i`-th listed version: heading, up to nine bullets, a blank. */
  function Block(i: nat, version: string, features: seq<string>): (lines: seq<string>)
  {
    [HeaderLine(i, version)] + Bullets(features[..Min(9, |features|)]) + [""]
  }

  /** The features of each listed version, in order. */
  function FeatureLists(changelog: string, versions: seq<string>): (r: seq<seq<string>>)
    ensures |r| == |versions|
    ensures forall j :: 0 <= j < |r| ==> r[j] == ChangelogFeatures(changelog, versions[j])
  {
    seq(|versions|, j requires 0 <= j < |versions| => ChangelogFeatures(changelog, versions[j]))
  }

  /** The blocks of the first `i` versions, in order, given each version's features. */
  function HistoryUpTo(versions: seq<string>, feats: seq<seq<string>>, i: nat): (lines: seq<string>)
    requires i <= |versions| && |feats| == |versions|
    decreases i
  {
    if i == 0 then []
    else HistoryUpTo(versions, feats, i - 1) + Block(i - 1, versions[i - 1], feats[i - 1])
  }

  function DropTrailingBlank(lines: seq<string>): (r: seq<string>)
  {
    if lines != [] && lines[|lines| - 1] == "" then lines[..|lines| - 1] else lines
  }

  /** The version history lines built from the changelog's first five versions. */
  function VersionHistory(changelog: string): (lines: seq<string>)
  {
    var vs := FindVersions(changelog);
    var shown := vs[..Min(5, |vs|)];
    DropTrailingBlank(HistoryUpTo(shown, FeatureLists(changelog, shown), |shown|))
  }

  /** The building loops of `update_readme_version_history`. */
  method BuildVersionHistory(changelog: string) returns (history: seq<string>)
    ensures history == VersionHistory(changelog)
  {
    var versions := FindVersions(changelog);
    var shown := versions[..Min(5, |versions|)];
    ghost var feats := FeatureLists(changelog, shown);
    history := [];
    var i := 0;
    while i < |shown|
      invariant 0 <= i <= |shown|
      invariant history == HistoryUpTo(shown, feats, i)
    {
      var block := VersionBlock(changelog, i, shown[i]);
      assert HistoryUpTo(shown, feats, i + 1) == HistoryUpTo(shown, feats, i) + block;
      history := history + block;
      i := i + 1;
    }
    assert VersionHistory(changelog) == DropTrailingBlank(HistoryUpTo(shown, feats, |shown|));
    history := DropLastBlank(history);
  }

  /** The lines one listed version contributes. */
  method VersionBlock(changelog: string, i: nat, version: string) returns (block: seq<string>)
    ensures block == Block(i, version, ChangelogFeatures(changelog, version))
  {
    var features := ExtractChangelogFeatures(changelog, version);
    block := [HeaderLine(i, version)];
    block := AppendBullets(block, features[..Min(9, |features|)]);
    block := block + [""];
  }

  /** Drop the blank line closing the last block. */
  method DropLastBlank(lines: seq<string>) returns (r: seq<string>)
    ensures r == DropTrailingBlank(lines)
  {
    r := lines;
    if r != [] && r[|r| - 1] == "" {
      r := r[..|r| - 1];
    }
  }

  lemma BulletsSnoc(lines: seq<string>, features: seq<string>, j: nat)
    requires j < |features|
    ensures lines + Bullets(features[..j + 1]) == (lines + Bullets(features[..j])) + [BulletLine(features[j])]
  {
    assert features[..j + 1][..j] == features[..j];
  }

  /** The inner loop: one bullet line per feature, in order. */
  method AppendBullets(lines: seq<string>, features: seq<string>) returns (r: seq<string>)
    ensures r == lines + Bullets(features)
  {
    r := lines;
    var j := 0;
    while j < |features|
      invariant 0 <= j <= |features|
      invariant r == lines + Bullets(features[..j])
    {
      BulletsSnoc(lines, features, j);
      r := r + [BulletLine(features[j])];
      j := j + 1;
    }
    assert features[..j] == features;
  }

  predicate IsHeaderLine(line: string) { StartsWith(line, "### v") }

  function CountHeaders(lines: seq<string>): (n: nat)
    ensures n <= |lines|
  {
    if lines == [] then 0
    else CountHeaders(lines[..|lines| - 1]) + (if IsHeaderLine(lines[|lines| - 1]) then 1 else 0)
  }

  lemma {:induction false} CountHeadersConcat(a: seq<string>, b: seq<string>)
    ensures CountHeaders(a + b) == CountHeaders(a) + CountHeaders(b)
    decreases |b|
  {
    if b == [] {
      assert a + b == a;
    } else {
      assert (a + b)[..|a + b| - 1] == a + b[..|b| - 1];
      CountHeadersConcat(a, b[..|b| - 1]);
    }
  }

  lemma BulletIsNotHeader(f: string)
    ensures !IsHeaderLine(BulletLine(f))
  {
    assert BulletLine(f)[0] == '-';
  }

  lemma HeaderIsHeader(i: nat, version: string)
    ensures IsHeaderLine(HeaderLine(i, version))
  {
    var h := HeaderLine(i, version);
    assert h == "### v" + (h[5..]);
  }

  lemma CountHeadersSingle(line: string)
    ensures CountHeaders([line]) == if IsHeaderLine(line) then 1 else 0
  {
    assert [line][..0] == [];
  }

  lemma {:induction false} BulletsHaveNoHeader(fs: seq<string>)
    ensures CountHeaders(Bullets(fs)) == 0
    decreases |fs|
  {
    if fs != [] {
      BulletsHaveNoHeader(fs[..|fs| - 1]);
      BulletIsNotHeader(fs[|fs| - 1]);
      CountHeadersConcat(Bullets(fs[..|fs| - 1]), [BulletLine(fs[|fs| - 1])]);
      CountHeadersSingle(BulletLine(fs[|fs| - 1]));
    }
  }

  /** One block holds one heading, at most nine bullets and a closing blank. */
  lemma BlockShape(i: nat, version: string, features: seq<string>)
    ensures var b := Block(i, version, features);
            2 <= |b| <= 11 && b[0] == HeaderLine(i, version) && b[|b| - 1] == ""
            && CountHeaders(b) == 1
  {
    var hd := [HeaderLine(i, version)];
    var bs := Bullets(features[..Min(9, |features|)]);
    BulletsHaveNoHeader(features[..Min(9, |features|)]);
    HeaderIsHeader(i, version);
    CountHeadersSingle(HeaderLine(i, version));
    CountHeadersSingle("");
    CountHeadersConcat(hd, bs);
    CountHeadersConcat(hd + bs, [""]);
  }

  /** Appending a block to the blocks before it. */
  lemma AppendBlock(prev: seq<string>, b: seq<string>, n: nat, first: string)
    requires 2 <= |b| && b[|b| - 1] == "" && CountHeaders(b) == 1
    requires CountHeaders(prev) == n && (n > 0 ==> prev != [] && prev[0] == first)
    requires n == 0 ==> prev == [] && b[0] == first
    ensures var h := prev + b;
            CountHeaders(h) == n + 1 && |h| >= 2 && h[|h| - 1] == "" && h[0] == first
  {
    CountHeadersConcat(prev, b);
    var h := prev + b;
    assert h[|h| - 1] == b[|b| - 1];
    if n == 0 {
      assert h == b;
    } else {
      assert h[0] == prev[0];
    }
  }

  /** Appending the block of the `n`-th version to the blocks of the versions before it. */
  lemma AppendVersionBlock(prev: seq<string>, n: nat, first: string, version: string, features: seq<string>)
    requires CountHeaders(prev) == n && (n > 0 ==> prev != [] && prev[0] == first)
    requires n == 0 ==> prev == [] && HeaderLine(n, version) == first
    ensures var h := prev + Block(n, version, features);
            CountHeaders(h) == n + 1 && |h| >= 2 && h[|h| - 1] == "" && h[0] == first
  {
    BlockShape(n, version, features);
    AppendBlock(prev, Block(n, version, features), n, first);
  }

  lemma {:induction false} HistoryUpToShape(versions: seq<string>, feats: seq<seq<string>>, i: nat)
    requires i <= |versions| && |feats| == |versions|
    ensures var h := HistoryUpTo(versions, feats, i);
            CountHeaders(h) == i && (i > 0 ==> |h| >= 2 && h[|h| - 1] == "")
            && (i > 0 ==> h[0] == HeaderLine(0, versions[0]))
            && (i == 0 ==> h == [])
    decreases i
  {
    if i > 0 {
      var prev := HistoryUpTo(versions, feats, i - 1);
      HistoryUpToShape(versions, feats, i - 1);
      AppendVersionBlock(prev, i - 1, HeaderLine(0, versions[0]), versions[i - 1], feats[i - 1]);
    }
  }

  /**
   * The history lists one heading per shown version, at most five, and
   * the first heading is the "(Latest)" one for the changelog's first
   * version.
   */
  lemma VersionHistoryShape(changelog: string)
    ensures var vs := FindVersions(changelog);
            var h := VersionHistory(changelog);
            CountHeaders(h) == Min(5, |vs|) <= 5
            && (vs != [] ==> h[0] == "### v" + vs[0] + " (Latest)")
  {
    var vs := FindVersions(changelog);
    var shown := vs[..Min(5, |vs|)];
    var full := HistoryUpTo(shown, FeatureLists(changelog, shown), |shown|);
    HistoryUpToShape(shown, FeatureLists(changelog, shown), |shown|);
    if full != [] && full[|full| - 1] == "" {
      assert full == full[..|full| - 1] + [""];
      CountHeadersConcat(full[..|full| - 1], [""]);
      CountHeadersSingle("");
    }
  }

  // ---------------------------------------------------------------------
  // The regular-expression substitutions (`re.sub`)
  // ---------------------------------------------------------------------

  /**
   * The patterns the tool substitutes: `NAME = "[^"]*"`, `NAME = \d+`,
   * and the README's version-history section
   * `## 📋 Version History\n\n.*?(?=\n## [^📋]|\n### 📁|\Z)` (DOTALL).
   */
  datatype Pattern = QuotedAssign(name: string) | DigitsAssign(name: string) | HistorySection

  const HistoryHeading: string := "## \U{1F4CB} Version History\n\n"

  /** The lookahead of the history pattern holds at position `k` of `t`. */
  predicate HistoryStopsAt(t: string, k: nat)
    requires k <= |t|
  {
    k == |t|
    || OccursAt(t, "\n### \U{1F4C1}", k)
    || (OccursAt(t, "\n## ", k) && k + 4 < |t| && t[k + 4] != '\U{1F4CB}')
  }

  /** The lazy `.*?`: the first position from `k` on where the lookahead holds. */
  function LazyEnd(t: string, k: nat): (e: nat)
    requires k <= |t|
    ensures k <= e <= |t| && HistoryStopsAt(t, e)
    ensures forall j :: k <= j < e ==> !HistoryStopsAt(t, j)
    decreases |t| - k
  {
    if HistoryStopsAt(t, k) then k else LazyEnd(t, k + 1)
  }

  /** The length of the pattern's match at the start of `s`, if it matches there. */
  function MatchLen(p: Pattern, s: string): (r: Option<nat>)
    ensures r.Some? ==> 0 < r.value <= |s|
  {
    match p
    case QuotedAssign(name) =>
      var lead := name + " = \"";
      if !StartsWith(s, lead) then None
      else (match IndexOf(s[|lead|..], '"')
            case None => None
            case Some(k) => Some(|lead| + k + 1))
    case DigitsAssign(name) =>
      var lead := name + " = ";
      if !StartsWith(s, lead) then None
      else
        var d := DigitRun(s[|lead|..]);
        if d == 0 then None else Some(|lead| + d)
    case HistorySection =>
      if !StartsWith(s, HistoryHeading) then None
      else Some(|HistoryHeading| + LazyEnd(s[|HistoryHeading|..], 0))
  }

  /**
   * `re.sub(pattern, replacement, s)`: scanning left to right, each match
   * is replaced and the scan resumes after it; other characters are kept.
   */
  function SubAll(p: Pattern, replacement: string, s: string): (r: string)
    decreases |s|
  {
    if s == [] then []
    else match MatchLen(p, s)
      case Some(n) => replacement + SubAll(p, replacement, s[n..])
      case None => [s[0]] + SubAll(p, replacement, s[1..])
  }

  /** No match starts at any position of `s`. */
  predicate NoMatchIn(p: Pattern, s: string)
  {
    forall i :: 0 <= i < |s| ==> MatchLen(p, s[i..]).None?
  }

  /** Text without a match is left alone. */
  lemma {:induction false} SubAllUnmatched(p: Pattern, replacement: string, s: string)
    requires NoMatchIn(p, s)
    ensures SubAll(p, replacement, s) == s
    decreases |s|
  {
    if s != [] {
      assert s[0..] == s;
      assert forall i :: 0 <= i < |s| - 1 ==> s[1..][i..] == s[i + 1..];
      SubAllUnmatched(p, replacement, s[1..]);
    }
  }

  /** A prefix in which no match starts is copied through. */
  lemma SubAllKeepsPrefix(p: Pattern, replacement: string, a: string, b: string)
    requires forall i :: 0 <= i < |a| ==> MatchLen(p, (a + b)[i..]).None?
    ensures SubAll(p, replacement, a + b) == a + SubAll(p, replacement, b)
  {
    var s := a + b;
    SubAllCopiesFrom(p, replacement, s, 0, |a|);
    assert s[0..] == s && s[0..|a|] == a && s[|a|..] == b;
  }

  /** From `k` up to `n`, where no match starts, the text is copied. */
  lemma {:induction false} SubAllCopiesFrom(p: Pattern, replacement: string, s: string, k: nat, n: nat)
    requires k <= n <= |s|
    requires forall i :: k <= i < n ==> MatchLen(p, s[i..]).None?
    ensures SubAll(p, replacement, s[k..]) == s[k..n] + SubAll(p, replacement, s[n..])
    decreases n - k
  {
    if k < n {
      var t := s[k..];
      assert MatchLen(p, t).None?;
      SubAllNoMatchStep(p, replacement, t);
      assert t[1..] == s[k + 1..];
      SubAllCopiesFrom(p, replacement, s, k + 1, n);
      PrependSlice(s, k, n, SubAll(p, replacement, s[n..]));
    } else {
      assert s[k..n] == [];
    }
  }

  lemma PrependSlice(s: string, k: nat, n: nat, rest: string)
    requires k < n <= |s|
    ensures [s[k]] + (s[k + 1..n] + rest) == s[k..n] + rest
  {
    assert s[k..n] == [s[k]] + s[k + 1..n];
  }

  /** Without a match at the start, the first character is copied. */
  lemma SubAllNoMatchStep(p: Pattern, replacement: string, t: string)
    requires t != [] && MatchLen(p, t).None?
    ensures SubAll(p, replacement, t) == [t[0]] + SubAll(p, replacement, t[1..])
  {
  }

  /**
   * When the text holds exactly one match, the substitution replaces that
   * match and leaves every other character where it was.
   */
  lemma SubAllSingle(p: Pattern, replacement: string, before: string, m: string, after: string)
    requires forall i :: 0 <= i < |before| ==> MatchLen(p, (before + m + after)[i..]).None?
    requires MatchLen(p, m + after) == Some(|m|)
    requires NoMatchIn(p, after)
    ensures SubAll(p, replacement, before + m + after) == before + replacement + after
  {
    var t := m + after;
    assert before + m + after == before + t;
    SubAllKeepsPrefix(p, replacement, before, t);
    SubAllAtMatch(p, replacement, t, |m|);
    assert t[|m|..] == after;
    SubAllUnmatched(p, replacement, after);
  }

  /** A match at the start is replaced and the scan resumes after it. */
  lemma SubAllAtMatch(p: Pattern, replacement: string, s: string, n: nat)
    requires MatchLen(p, s) == Some(n)
    ensures n <= |s| && SubAll(p, replacement, s) == replacement + SubAll(p, replacement, s[n..])
  {
  }

  /** The pattern `NAME = \d+` matches a whole assignment of digits. */
  lemma DigitsAssignMatches(name: string, digits: string, after: string)
    requires digits != [] && AllDigits(digits)
    requires after == [] || !IsDigit(after[0])
    ensures MatchLen(DigitsAssign(name), name + " = " + digits + after)
            == Some(|name + " = " + digits|)
  {
    var lead := name + " = ";
    var s := lead + digits + after;
    assert s[..|lead|] == lead;
    assert s[|lead|..] == digits + after;
    DigitRunOf(digits, after);
  }

  lemma {:induction false} DigitRunOf(digits: string, after: string)
    requires AllDigits(digits)
    requires after == [] || !IsDigit(after[0])
    ensures DigitRun(digits + after) == |digits|
    decreases |digits|
  {
    if digits == [] {
      assert digits + after == after;
    } else {
      assert (digits + after)[1..] == digits[1..] + after;
      DigitRunOf(digits[1..], after);
    }
  }

  /** The pattern `NAME = "[^"]*"` matches a whole quoted assignment. */
  lemma QuotedAssignMatches(name: string, value: string, after: string)
    requires '"' !in value
    ensures MatchLen(QuotedAssign(name), name + " = \"" + value + "\"" + after)
            == Some(|name + " = \"" + value + "\""|)
  {
    var lead := name + " = \"";
    var s := lead + value + "\"" + after;
    assert s[..|lead|] == lead;
    assert s[|lead|..] == value + ("\"" + after);
    IndexOfAfterPrefix(value, '"', "\"" + after);
  }

  // ---------------------------------------------------------------------
  // update_version_file
  // ---------------------------------------------------------------------

  /** The text a `NAME = "..."` or a `NAME = \d+` match starts with. */
  function Lead(p: Pattern): string
    requires !p.HistorySection?
  {
    match p
    case QuotedAssign(name) => name + " = \""
    case DigitsAssign(name) => name + " = "
  }

  lemma MatchNeedsLead(p: Pattern, s: string)
    requires !p.HistorySection?
    ensures MatchLen(p, s).Some? ==> StartsWith(s, Lead(p))
  {
  }

  /** `lead` starts nowhere in `s`. */
  predicate LeadFree(lead: string, s: string)
  {
    forall i :: 0 <= i < |s| ==> !StartsWith(s[i..], lead)
  }

  /** A pattern whose lead starts nowhere in `s` matches nowhere in it. */
  lemma NoMatchWhereLeadFree(p: Pattern, s: string)
    requires !p.HistorySection? && LeadFree(Lead(p), s)
    ensures NoMatchIn(p, s)
  {
    forall i | 0 <= i < |s| ensures MatchLen(p, s[i..]).None? {
      MatchNeedsLead(p, s[i..]);
    }
  }

  /**
   * A lead without a newline cannot start in `x` and run on into `y`
   * when a newline separates the two.
   */
  lemma NoLeadStraddles(lead: string, x: string, y: string)
    requires '\n' !in lead && LeadFree(lead, x)
    requires x == [] || y == [] || x[|x| - 1] == '\n' || y[0] == '\n'
    ensures forall i :: 0 <= i < |x| ==> !StartsWith((x + y)[i..], lead)
  {
    forall i | 0 <= i < |x| ensures !StartsWith((x + y)[i..], lead) {
      var s := (x + y)[i..];
      if i + |lead| <= |x| {
        assert s[..|lead|] == x[i..][..|lead|];
        assert !StartsWith(x[i..], lead);
      } else if y != [] && |lead| <= |s| {
        assert s[|x| - 1 - i] == x[|x| - 1] && s[|x| - i] == y[0];
        assert s[..|lead|] != lead by {
          var k := if x[|x| - 1] == '\n' then |x| - 1 - i else |x| - i;
          assert s[..|lead|][k] == '\n';
        }
      }
    }
  }

  lemma LeadFreeJoin(lead: string, x: string, y: string)
    requires '\n' !in lead && LeadFree(lead, x) && LeadFree(lead, y)
    requires x == [] || y == [] || x[|x| - 1] == '\n' || y[0] == '\n'
    ensures LeadFree(lead, x + y)
  {
    NoLeadStraddles(lead, x, y);
    forall i | |x| <= i < |x + y| ensures !StartsWith((x + y)[i..], lead) {
      assert (x + y)[i..] == y[i - |x|..];
    }
  }

  /** A piece opening and closing with a newline joins two lead-free texts. */
  lemma LeadFreeAround(lead: string, a: string, b: string, c: string)
    requires '\n' !in lead && LeadFree(lead, a) && LeadFree(lead, b) && LeadFree(lead, c)
    requires BetweenLines(b)
    ensures LeadFree(lead, a + b + c)
  {
    LeadFreeJoin(lead, a, b);
    LeadFreeJoin(lead, a + b, c);
  }

  /** `lead` starts nowhere in `s` when one of its characters is missing from `s`. */
  lemma LeadFreeWithout(lead: string, s: string, j: nat)
    requires j < |lead| && lead[j] !in s
    ensures LeadFree(lead, s)
  {
    forall i | 0 <= i < |s| ensures !StartsWith(s[i..], lead) {
      if |lead| <= |s| - i {
        assert s[i..][..|lead|][j] == s[i + j];
      }
    }
  }

  /**
   * One substitution on a text holding a single match `m`: its lead
   * starts nowhere before `m`, which begins a line, and nowhere after.
   */
  lemma RewriteOnly(p: Pattern, replacement: string, before: string, m: string, after: string)
    requires !p.HistorySection? && '\n' !in Lead(p)
    requires LeadFree(Lead(p), before) && EndsLine(before)
    requires MatchLen(p, m + after) == Some(|m|)
    requires LeadFree(Lead(p), after)
    ensures SubAll(p, replacement, before + m + after) == before + replacement + after
  {
    NoLeadStraddles(Lead(p), before, m + after);
    assert before + m + after == before + (m + after);
    forall i | 0 <= i < |before| ensures MatchLen(p, (before + m + after)[i..]).None? {
      MatchNeedsLead(p, (before + m + after)[i..]);
    }
    NoMatchWhereLeadFree(p, after);
    SubAllSingle(p, replacement, before, m, after);
  }

  /** The `__version__` assignment and the three component assignments. */
  function QuotedLine(value: string): string { "__version__" + " = \"" + value + "\"" }

  function ComponentLine(name: string, digits: string): string { name + " = " + digits }

  predicate IsComponentName(name: string)
  {
    name == "VERSION_MAJOR" || name == "VERSION_MINOR" || name == "VERSION_PATCH"
  }

  /** Text that holds none of the four assignments. */
  predicate NoAssignmentIn(b: string)
  {
    LeadFree(Lead(QuotedAssign("__version__")), b)
    && LeadFree(Lead(DigitsAssign("VERSION_MAJOR")), b)
    && LeadFree(Lead(DigitsAssign("VERSION_MINOR")), b)
    && LeadFree(Lead(DigitsAssign("VERSION_PATCH")), b)
  }

  /** Text that is empty or ends a line. */
  predicate EndsLine(b: string) { b == [] || b[|b| - 1] == '\n' }

  /** Text that is empty or starts with a line break. */
  predicate StartsLine(b: string) { b == [] || b[0] == '\n' }

  /** Text between two assignment lines: it opens and closes with a line break. */
  predicate BetweenLines(b: string) { b != [] && b[0] == '\n' && b[|b| - 1] == '\n' }

  /** The characters an accepted version may hold. */
  lemma VersionChars(v: string)
    requires ValidateVersionAsWritten(v)
    ensures forall i :: 0 <= i < |v| ==> IsDigit(v[i]) || v[i] == '.' || v[i] == '\n'
  {
    var c := VersionCore(v);
    ValidateVersionSound(c);
    forall i | 0 <= i < |v| ensures IsDigit(v[i]) || v[i] == '.' || v[i] == '\n' {
      if i < |c| { assert v[i] == c[i]; }
    }
  }

  /** No `__version__ = "` starts in a component line. */
  lemma ComponentLineHasNoQuoted(name: string, digits: string)
    requires IsComponentName(name) && AllDigits(digits)
    ensures LeadFree(Lead(QuotedAssign("__version__")), ComponentLine(name, digits))
  {
    var lead := Lead(QuotedAssign("__version__"));
    assert lead[14] == '"';
    assert '"' !in digits by {
      forall i | 0 <= i < |digits| ensures digits[i] != '"' { assert IsDigit(digits[i]); }
    }
    LeadFreeWithout(lead, ComponentLine(name, digits), 14);
  }

  /** No `VERSION_* = ` starts in the `__version__` line of an accepted version. */
  lemma QuotedLineHasNoComponent(name: string, v: string)
    requires IsComponentName(name) && ValidateVersionAsWritten(v)
    ensures LeadFree(Lead(DigitsAssign(name)), QuotedLine(v))
  {
    var lead := Lead(DigitsAssign(name));
    assert lead[0] == 'V';
    VersionChars(v);
    assert 'V' !in v by {
      forall i | 0 <= i < |v| ensures v[i] != 'V' { assert IsDigit(v[i]) || v[i] == '.' || v[i] == '\n'; }
    }
    LeadFreeWithout(lead, QuotedLine(v), 0);
  }

  /** No `VERSION_A = ` starts in the line of another component B. */
  lemma OtherComponentLine(name: string, other: string, digits: string)
    requires IsComponentName(name) && IsComponentName(other) && name != other && AllDigits(digits)
    ensures LeadFree(Lead(DigitsAssign(name)), ComponentLine(other, digits))
  {
    var lead := Lead(DigitsAssign(name));
    var s := ComponentLine(other, digits);
    assert |lead| == 16 && lead[0] == 'V' && lead[..13] == name;
    assert |other| == 13 && s[..13] == other;
    assert forall i :: 0 < i < 13 ==> other[i] != 'V';
    forall i | 0 <= i < |s| ensures !StartsWith(s[i..], lead) {
      if |lead| <= |s| - i {
        var w := s[i..][..|lead|];
        assert w[0] == s[i];
        if i == 0 {
          assert w[..13] == other;
        } else if i < 13 {
          assert s[i] == other[i];
        } else if i >= 16 {
          assert s[i] == digits[i - 16] && IsDigit(digits[i - 16]);
        }
      }
    }
  }

  /** The four substitutions of `update_version_file`, in order. */
  function RewriteVersionText(content: string, version: string): (r: string)
    requires ValidateVersionAsWritten(version)
    ensures NoAssignmentIn(content) ==> r == content
  {
    var t := ParseVersion(version);
    var c1 := SubAll(QuotedAssign("__version__"), QuotedLine(version), content);
    var c2 := SubAll(DigitsAssign("VERSION_MAJOR"), ComponentLine("VERSION_MAJOR", NatToString(t.major)), c1);
    var c3 := SubAll(DigitsAssign("VERSION_MINOR"), ComponentLine("VERSION_MINOR", NatToString(t.minor)), c2);
    var r := SubAll(DigitsAssign("VERSION_PATCH"), ComponentLine("VERSION_PATCH", NatToString(t.patch)), c3);
    if !NoAssignmentIn(content) then r
    else
      NoMatchWhereLeadFree(QuotedAssign("__version__"), content);
      SubAllUnmatched(QuotedAssign("__version__"), QuotedLine(version), content);
      NoMatchWhereLeadFree(DigitsAssign("VERSION_MAJOR"), content);
      SubAllUnmatched(DigitsAssign("VERSION_MAJOR"), ComponentLine("VERSION_MAJOR", NatToString(t.major)), content);
      NoMatchWhereLeadFree(DigitsAssign("VERSION_MINOR"), content);
      SubAllUnmatched(DigitsAssign("VERSION_MINOR"), ComponentLine("VERSION_MINOR", NatToString(t.minor)), content);
      NoMatchWhereLeadFree(DigitsAssign("VERSION_PATCH"), content);
      SubAllUnmatched(DigitsAssign("VERSION_PATCH"), ComponentLine("VERSION_PATCH", NatToString(t.patch)), content);
      r
  }

  /**
   * The text around the four assignment lines of a version file:
   * `head`, the `__version__` line, `afterVersion`, the `VERSION_MAJOR`
   * line, `afterMajor`, the `VERSION_MINOR` line, `afterMinor`, the
   * `VERSION_PATCH` line and `tail`.
   */
  datatype Layout = Layout(head: string, afterVersion: string, afterMajor: string,
                           afterMinor: string, tail: string)
  {
    /** Each assignment stands on a line of its own and none occurs elsewhere. */
    predicate Valid()
    {
      EndsLine(head) && BetweenLines(afterVersion) && BetweenLines(afterMajor)
      && BetweenLines(afterMinor) && StartsLine(tail)
      && NoAssignmentIn(head) && NoAssignmentIn(afterVersion) && NoAssignmentIn(afterMajor)
      && NoAssignmentIn(afterMinor) && NoAssignmentIn(tail)
    }

    /** The file text with the given four assignment lines. */
    function Text(version: string, major: string, minor: string, patch: string): string
    {
      head + version + afterVersion + major + afterMajor + minor + afterMinor + patch + tail
    }
  }

  /** A non-empty run of digits, the value of a `VERSION_*` assignment. */
  predicate IsDigitRun(d: string) { d != [] && AllDigits(d) }

  /** A line with lead-free text on either side, joined at line breaks. */
  lemma LeadFreeLine(lead: string, a: string, l: string, b: string)
    requires '\n' !in lead && LeadFree(lead, a) && LeadFree(lead, l) && LeadFree(lead, b)
    requires EndsLine(a) && StartsLine(b)
    ensures LeadFree(lead, a + l + b) && (EndsLine(b) && b != [] ==> EndsLine(a + l + b))
  {
    LeadFreeJoin(lead, a, l);
    LeadFreeJoin(lead, a + l, b);
  }

  /** The `__version__` substitution on a text holding that assignment once. */
  lemma RewriteVersionOnly(previous: string, value: string, before: string, after: string)
    requires '"' !in previous
    requires LeadFree(Lead(QuotedAssign("__version__")), before) && EndsLine(before)
    requires LeadFree(Lead(QuotedAssign("__version__")), after)
    ensures SubAll(QuotedAssign("__version__"), QuotedLine(value), before + QuotedLine(previous) + after)
            == before + QuotedLine(value) + after
  {
    QuotedAssignMatches("__version__", previous, after);
    RewriteOnly(QuotedAssign("__version__"), QuotedLine(value), before, QuotedLine(previous), after);
  }

  /** A `VERSION_*` substitution on a text holding that assignment once. */
  lemma RewriteComponentOnly(name: string, d: string, e: string, before: string, after: string)
    requires IsComponentName(name) && IsDigitRun(d)
    requires LeadFree(Lead(DigitsAssign(name)), before) && EndsLine(before)
    requires LeadFree(Lead(DigitsAssign(name)), after) && StartsLine(after)
    ensures SubAll(DigitsAssign(name), ComponentLine(name, e), before + ComponentLine(name, d) + after)
            == before + ComponentLine(name, e) + after
  {
    DigitsAssignMatches(name, d, after);
    RewriteOnly(DigitsAssign(name), ComponentLine(name, e), before, ComponentLine(name, d), after);
  }

  /** The file text split around each of its four assignment lines. */
  lemma TextAround(f: Layout, q: string, l1: string, l2: string, l3: string)
    ensures f.Text(q, l1, l2, l3)
            == f.head + q + (f.afterVersion + l1 + f.afterMajor + l2 + f.afterMinor + l3 + f.tail)
    ensures f.Text(q, l1, l2, l3)
            == (f.head + q + f.afterVersion) + l1 + (f.afterMajor + l2 + f.afterMinor + l3 + f.tail)
    ensures f.Text(q, l1, l2, l3)
            == (f.head + q + f.afterVersion + l1 + f.afterMajor) + l2 + (f.afterMinor + l3 + f.tail)
  {
  }

  /** The `__version__` substitution rewrites the one `__version__` line. */
  lemma VersionStage(f: Layout, previous: string, version: string, d1: string, d2: string, d3: string)
    requires f.Valid() && '"' !in previous
    requires AllDigits(d1) && AllDigits(d2) && AllDigits(d3)
    ensures var l1, l2, l3 := ComponentLine("VERSION_MAJOR", d1), ComponentLine("VERSION_MINOR", d2),
                              ComponentLine("VERSION_PATCH", d3);
            SubAll(QuotedAssign("__version__"), QuotedLine(version), f.Text(QuotedLine(previous), l1, l2, l3))
            == f.Text(QuotedLine(version), l1, l2, l3)
  {
    var lead := Lead(QuotedAssign("__version__"));
    var l1, l2, l3 := ComponentLine("VERSION_MAJOR", d1), ComponentLine("VERSION_MINOR", d2),
                      ComponentLine("VERSION_PATCH", d3);
    ComponentLineHasNoQuoted("VERSION_MAJOR", d1);
    ComponentLineHasNoQuoted("VERSION_MINOR", d2);
    ComponentLineHasNoQuoted("VERSION_PATCH", d3);
    LeadFreeLine(lead, f.afterVersion, l1, f.afterMajor);
    LeadFreeLine(lead, f.afterVersion + l1 + f.afterMajor, l2, f.afterMinor);
    LeadFreeLine(lead, f.afterVersion + l1 + f.afterMajor + l2 + f.afterMinor, l3, f.tail);
    var after := f.afterVersion + l1 + f.afterMajor + l2 + f.afterMinor + l3 + f.tail;
    TextAround(f, QuotedLine(previous), l1, l2, l3);
    TextAround(f, QuotedLine(version), l1, l2, l3);
    RewriteVersionOnly(previous, version, f.head, after);
  }

  /** The `VERSION_MAJOR` substitution rewrites the one `VERSION_MAJOR` line. */
  lemma MajorStage(f: Layout, version: string, d1: string, e1: string, d2: string, d3: string)
    requires f.Valid() && ValidateVersionAsWritten(version)
    requires IsDigitRun(d1) && AllDigits(d2) && AllDigits(d3)
    ensures var q, l2, l3 := QuotedLine(version), ComponentLine("VERSION_MINOR", d2),
                             ComponentLine("VERSION_PATCH", d3);
            SubAll(DigitsAssign("VERSION_MAJOR"), ComponentLine("VERSION_MAJOR", e1),
                   f.Text(q, ComponentLine("VERSION_MAJOR", d1), l2, l3))
            == f.Text(q, ComponentLine("VERSION_MAJOR", e1), l2, l3)
  {
    var lead := Lead(DigitsAssign("VERSION_MAJOR"));
    var q, l2, l3 := QuotedLine(version), ComponentLine("VERSION_MINOR", d2),
                     ComponentLine("VERSION_PATCH", d3);
    QuotedLineHasNoComponent("VERSION_MAJOR", version);
    OtherComponentLine("VERSION_MAJOR", "VERSION_MINOR", d2);
    OtherComponentLine("VERSION_MAJOR", "VERSION_PATCH", d3);
    LeadFreeLine(lead, f.head, q, f.afterVersion);
    LeadFreeLine(lead, f.afterMajor, l2, f.afterMinor);
    LeadFreeLine(lead, f.afterMajor + l2 + f.afterMinor, l3, f.tail);
    var before := f.head + q + f.afterVersion;
    var after := f.afterMajor + l2 + f.afterMinor + l3 + f.tail;
    TextAround(f, q, ComponentLine("VERSION_MAJOR", d1), l2, l3);
    TextAround(f, q, ComponentLine("VERSION_MAJOR", e1), l2, l3);
    RewriteComponentOnly("VERSION_MAJOR", d1, e1, before, after);
  }

  /** The `VERSION_MINOR` substitution rewrites the one `VERSION_MINOR` line. */
  lemma MinorStage(f: Layout, version: string, e1: string, d2: string, e2: string, d3: string)
    requires f.Valid() && ValidateVersionAsWritten(version)
    requires AllDigits(e1) && IsDigitRun(d2) && AllDigits(d3)
    ensures var q, n1, l3 := QuotedLine(version), ComponentLine("VERSION_MAJOR", e1),
                             ComponentLine("VERSION_PATCH", d3);
            SubAll(DigitsAssign("VERSION_MINOR"), ComponentLine("VERSION_MINOR", e2),
                   f.Text(q, n1, ComponentLine("VERSION_MINOR", d2), l3))
            == f.Text(q, n1, ComponentLine("VERSION_MINOR", e2), l3)
  {
    var lead := Lead(DigitsAssign("VERSION_MINOR"));
    var q, n1, l3 := QuotedLine(version), ComponentLine("VERSION_MAJOR", e1),
                     ComponentLine("VERSION_PATCH", d3);
    QuotedLineHasNoComponent("VERSION_MINOR", version);
    OtherComponentLine("VERSION_MINOR", "VERSION_MAJOR", e1);
    OtherComponentLine("VERSION_MINOR", "VERSION_PATCH", d3);
    LeadFreeLine(lead, f.head, q, f.afterVersion);
    LeadFreeLine(lead, f.head + q + f.afterVersion, n1, f.afterMajor);
    LeadFreeLine(lead, f.afterMinor, l3, f.tail);
    var before := f.head + q + f.afterVersion + n1 + f.afterMajor;
    var after := f.afterMinor + l3 + f.tail;
    TextAround(f, q, n1, ComponentLine("VERSION_MINOR", d2), l3);
    TextAround(f, q, n1, ComponentLine("VERSION_MINOR", e2), l3);
    RewriteComponentOnly("VERSION_MINOR", d2, e2, before, after);
  }

  /** The `VERSION_PATCH` substitution rewrites the one `VERSION_PATCH` line. */
  lemma PatchStage(f: Layout, version: string, e1: string, e2: string, d3: string, e3: string)
    requires f.Valid() && ValidateVersionAsWritten(version)
    requires AllDigits(e1) && AllDigits(e2) && IsDigitRun(d3)
    ensures var q, n1, n2 := QuotedLine(version), ComponentLine("VERSION_MAJOR", e1),
                             ComponentLine("VERSION_MINOR", e2);
            SubAll(DigitsAssign("VERSION_PATCH"), ComponentLine("VERSION_PATCH", e3),
                   f.Text(q, n1, n2, ComponentLine("VERSION_PATCH", d3)))
            == f.Text(q, n1, n2, ComponentLine("VERSION_PATCH", e3))
  {
    var lead := Lead(DigitsAssign("VERSION_PATCH"));
    var q, n1, n2 := QuotedLine(version), ComponentLine("VERSION_MAJOR", e1),
                     ComponentLine("VERSION_MINOR", e2);
    QuotedLineHasNoComponent("VERSION_PATCH", version);
    OtherComponentLine("VERSION_PATCH", "VERSION_MAJOR", e1);
    OtherComponentLine("VERSION_PATCH", "VERSION_MINOR", e2);
    LeadFreeLine(lead, f.head, q, f.afterVersion);
    LeadFreeLine(lead, f.head + q + f.afterVersion, n1, f.afterMajor);
    LeadFreeLine(lead, f.head + q + f.afterVersion + n1 + f.afterMajor, n2, f.afterMinor);
    var before := f.head + q + f.afterVersion + n1 + f.afterMajor + n2 + f.afterMinor;
    RewriteComponentOnly("VERSION_PATCH", d3, e3, before, f.tail);
  }

  /**
   * A version file whose four assignments stand on lines of their own,
   * each held once, gets the new `__version__` string and the three
   * parsed components, and every other character stays where it was.
   */
  lemma VersionFileRewritten(f: Layout, previous: string, d1: string, d2: string, d3: string,
                             version: string)
    requires f.Valid() && ValidateVersionAsWritten(version)
    requires '"' !in previous && IsDigitRun(d1) && IsDigitRun(d2) && IsDigitRun(d3)
    ensures var t := ParseVersion(version);
            RewriteVersionText(f.Text(QuotedLine(previous), ComponentLine("VERSION_MAJOR", d1),
                                      ComponentLine("VERSION_MINOR", d2), ComponentLine("VERSION_PATCH", d3)),
                               version)
            == f.Text(QuotedLine(version), ComponentLine("VERSION_MAJOR", NatToString(t.major)),
                      ComponentLine("VERSION_MINOR", NatToString(t.minor)),
                      ComponentLine("VERSION_PATCH", NatToString(t.patch)))
  {
    var t := ParseVersion(version);
    var e1, e2, e3 := NatToString(t.major), NatToString(t.minor), NatToString(t.patch);
    VersionStage(f, previous, version, d1, d2, d3);
    MajorStage(f, version, d1, e1, d2, d3);
    MinorStage(f, version, e1, d2, e2, d3);
    PatchStage(f, version, e1, e2, d3, e3);
  }

  /**
   * `update_version_file(version)`: false and nothing written when the
   * version file is missing, else true with the rewritten text written.
   */
  function UpdateVersionFile(fileExists: bool, content: string, version: string)
    : (r: (bool, Option<string>))
    requires ValidateVersionAsWritten(version)
    ensures r.0 <==> fileExists
    ensures r.1.Some? <==> fileExists
    ensures fileExists ==> r.1.value == RewriteVersionText(content, version)
  {
    if !fileExists then (false, None) else (true, Some(RewriteVersionText(content, version)))
  }

  /**
   * Each assignment the file holds once is rewritten to the new value,
   * with the text around it unchanged: the `__version__` line to the new
   * string and a `VERSION_*` line to the parsed component.
   */
  lemma RewriteOneAssignment(name: string, previous: string, newValue: string, before: string, after: string)
    requires forall i :: 0 <= i < |before| ==>
               MatchLen(DigitsAssign(name), (before + (name + " = " + previous) + after)[i..]).None?
    requires previous != [] && AllDigits(previous) && (after == [] || !IsDigit(after[0]))
    requires NoMatchIn(DigitsAssign(name), after)
    ensures SubAll(DigitsAssign(name), name + " = " + newValue, before + (name + " = " + previous) + after)
            == before + (name + " = " + newValue) + after
  {
    DigitsAssignMatches(name, previous, after);
    assert name + " = " + previous + after == (name + " = " + previous) + after;
    SubAllSingle(DigitsAssign(name), name + " = " + newValue, before, name + " = " + previous, after);
  }

  lemma RewriteQuotedAssignment(name: string, previous: string, value: string, before: string, after: string)
    requires '"' !in previous
    requires forall i :: 0 <= i < |before| ==>
               MatchLen(QuotedAssign(name), (before + (name + " = \"" + previous + "\"") + after)[i..]).None?
    requires NoMatchIn(QuotedAssign(name), after)
    ensures SubAll(QuotedAssign(name), name + " = \"" + value + "\"",
                   before + (name + " = \"" + previous + "\"") + after)
            == before + (name + " = \"" + value + "\"") + after
  {
    var m := name + " = \"" + previous + "\"";
    QuotedAssignMatches(name, previous, after);
    assert name + " = \"" + previous + "\"" + after == m + after;
    SubAllSingle(QuotedAssign(name), name + " = \"" + value + "\"", before, m, after);
  }

  /**
   * What the as-written check lets through: given "v\n", the components
   * are those of v, but the `__version__` line becomes `__version__ = "v`
   * and its closing quote lands on the next line, so the string literal
   * no longer ends on its line.
   */
  lemma AsWrittenVersionLineBroken(f: Layout, previous: string, d1: string, d2: string, d3: string,
                                   v: string)
    requires f.Valid() && ValidateVersion(v)
    requires '"' !in previous && IsDigitRun(d1) && IsDigitRun(d2) && IsDigitRun(d3)
    ensures ValidateVersionAsWritten(v + "\n") && ParseVersion(v + "\n") == ParseVersion(v)
    ensures '"' !in v && '\n' !in v
    ensures QuotedLine(v + "\n") == ("__version__ = \"" + v) + "\n" + "\""
    ensures var t := ParseVersion(v + "\n");
            RewriteVersionText(f.Text(QuotedLine(previous), ComponentLine("VERSION_MAJOR", d1),
                                      ComponentLine("VERSION_MINOR", d2), ComponentLine("VERSION_PATCH", d3)),
                               v + "\n")
            == f.Text(QuotedLine(v + "\n"),
                      ComponentLine("VERSION_MAJOR", NatToString(t.major)),
                      ComponentLine("VERSION_MINOR", NatToString(t.minor)),
                      ComponentLine("VERSION_PATCH", NatToString(t.patch)))
  {
    NewlineVersionParse(v);
    VersionFileRewritten(f, previous, d1, d2, d3, v + "\n");
  }

  /** "v\n" passes the as-written check and parses as v does. */
  lemma NewlineVersionParse(v: string)
    requires ValidateVersion(v)
    ensures ValidateVersionAsWritten(v + "\n") && ParseVersion(v + "\n") == ParseVersion(v)
    ensures '"' !in v && '\n' !in v
    ensures QuotedLine(v + "\n") == ("__version__ = \"" + v) + "\n" + "\""
  {
    NewlineSameCore(v);
    ValidateVersionSound(v);
    assert '"' !in v && '\n' !in v by {
      forall i | 0 <= i < |v| ensures v[i] != '"' && v[i] != '\n' { assert IsDigit(v[i]) || v[i] == '.'; }
    }
    NewlineQuotedLine(v);
  }

  lemma NewlineSameCore(v: string)
    requires ValidateVersion(v)
    ensures ValidateVersionAsWritten(v + "\n") && VersionCore(v + "\n") == v
    ensures ParseVersion(v + "\n") == ParseVersion(v)
  {
    AsWrittenAcceptsTrailingNewline(v);
    var w := v + "\n";
    assert w[..|w| - 1] == v;
  }

  lemma NewlineQuotedLine(v: string)
    ensures QuotedLine(v + "\n") == ("__version__ = \"" + v) + "\n" + "\""
  {
  }

  /**
   * The concrete case: bumped with "1.2.3\n", a version file gets
   * `__version__ = "1.2.3` on one line and a lone `"` on the next.
   */
  lemma AsWrittenOneTwoThreeNewlineFile(f: Layout, previous: string, d1: string, d2: string, d3: string)
    requires f.Valid()
    requires '"' !in previous && IsDigitRun(d1) && IsDigitRun(d2) && IsDigitRun(d3)
    ensures ValidateVersionAsWritten("1.2.3\n")
    ensures RewriteVersionText(f.Text(QuotedLine(previous), ComponentLine("VERSION_MAJOR", d1),
                                      ComponentLine("VERSION_MINOR", d2), ComponentLine("VERSION_PATCH", d3)),
                               "1.2.3\n")
            == f.Text("__version__ = \"1.2.3\n\"", "VERSION_MAJOR = 1", "VERSION_MINOR = 2", "VERSION_PATCH = 3")
  {
    OneTwoThreeLines();
    AsWrittenVersionLineBroken(f, previous, d1, d2, d3, "1.2.3");
  }

  /** The lines the version "1.2.3\n" produces. */
  lemma OneTwoThreeLines()
    ensures ValidateVersion("1.2.3") && "1.2.3" + "\n" == "1.2.3\n"
    ensures ParseVersion("1.2.3" + "\n") == Version.VersionTuple(1, 2, 3)
    ensures QuotedLine("1.2.3" + "\n") == "__version__ = \"1.2.3\n\""
    ensures ComponentLine("VERSION_MAJOR", NatToString(1)) == "VERSION_MAJOR = 1"
    ensures ComponentLine("VERSION_MINOR", NatToString(2)) == "VERSION_MINOR = 2"
    ensures ComponentLine("VERSION_PATCH", NatToString(3)) == "VERSION_PATCH = 3"
  {
    OneTwoThreeParse();
    NewlineVersionParse("1.2.3");
    OneTwoThreeQuoted();
    OneTwoThreeComponents();
  }

  lemma OneTwoThreeQuoted()
    ensures "1.2.3" + "\n" == "1.2.3\n"
    ensures ("__version__ = \"" + "1.2.3") + "\n" + "\"" == "__version__ = \"1.2.3\n\""
  {
  }

  lemma OneTwoThreeComponents()
    ensures ComponentLine("VERSION_MAJOR", NatToString(1)) == "VERSION_MAJOR = 1"
    ensures ComponentLine("VERSION_MINOR", NatToString(2)) == "VERSION_MINOR = 2"
    ensures ComponentLine("VERSION_PATCH", NatToString(3)) == "VERSION_PATCH = 3"
  {
    assert NatToString(1) == "1" && NatToString(2) == "2" && NatToString(3) == "3";
  }

  lemma OneTwoThreeParse()
    ensures ValidateVersion("1.2.3") && ParseVersion("1.2.3") == Version.VersionTuple(1, 2, 3)
  {
    var t := Version.VersionTuple(1, 2, 3);
    assert RenderVersion(t) == "1.2.3";
    RenderParseRoundTrip(t);
  }

  // ---------------------------------------------------------------------
  // The replacement templates of `re.sub`
  // ---------------------------------------------------------------------

  predicate IsOctal(c: char) { '0' <= c <= '7' }

  function OctDigit(c: char): (d: nat)
    requires IsOctal(c)
    ensures d < 8
  {
    c as int - '0' as int
  }

  /**
   * The backslash escape at the start of a replacement template, as
   * Python's template parser reads it: the text it stands for and the
   * number of characters it takes, or None where the parser raises
   * `re.error`. The history pattern has no groups, so a digit escape is a
   * character code only as `\0`, `\0o`, `\0oo` or three octal digits up to
   * 0o377, and any other is a group reference that fails; the other ASCII
   * letters than the seven control-character names are bad escapes, and a
   * backslash before anything else is kept as it is.
   */
  function TemplateEscape(t: string): (r: Option<(string, nat)>)
    requires |t| >= 2 && t[0] == '\\'
    ensures r.Some? ==> 2 <= r.value.1 <= |t|
  {
    var c := t[1];
    if c == '0' then
      if |t| > 3 && IsOctal(t[2]) && IsOctal(t[3]) then
        Some(([(8 * OctDigit(t[2]) + OctDigit(t[3])) as char], 4))
      else if |t| > 2 && IsOctal(t[2]) then Some(([OctDigit(t[2]) as char], 3))
      else Some(([0 as char], 2))
    else if IsDigit(c) then
      if |t| > 3 && IsOctal(c) && IsOctal(t[2]) && IsOctal(t[3])
         && 64 * OctDigit(c) + 8 * OctDigit(t[2]) + OctDigit(t[3]) <= 255
      then Some(([(64 * OctDigit(c) + 8 * OctDigit(t[2]) + OctDigit(t[3])) as char], 4))
      else None
    else if c == '\\' then Some(("\\", 2))
    else if c == 'a' then Some(("\U{07}", 2))
    else if c == 'b' then Some(("\U{08}", 2))
    else if c == 'f' then Some(("\U{0C}", 2))
    else if c == 'n' then Some(("\n", 2))
    else if c == 'r' then Some(("\r", 2))
    else if c == 't' then Some(("\t", 2))
    else if c == 'v' then Some(("\U{0B}", 2))
    else if IsLetter(c) then None
    else Some((t[..2], 2))
  }

  /**
   * The text a replacement template stands for, or None where `re.sub`
   * raises `re.error` (a bad escape, a group reference, or a lone
   * backslash at the end). A template without a backslash stands for
   * itself.
   */
  function ExpandTemplate(t: string): (r: Option<string>)
    ensures '\\' !in t ==> r == Some(t)
    ensures r.None? ==> '\\' in t
    decreases |t|
  {
    if t == [] then Some([])
    else if t[0] != '\\' then
      assert t == [t[0]] + t[1..];
      match ExpandTemplate(t[1..])
      case None => None
      case Some(rest) => Some([t[0]] + rest)
    else if |t| == 1 then None
    else match TemplateEscape(t)
      case None => None
      case Some((text, n)) =>
        match ExpandTemplate(t[n..])
        case None => None
        case Some(rest) => Some(text + rest)
  }

  /** `x` in front of an expanded text; an error stays an error. */
  function Prefixed(x: string, r: Option<string>): Option<string>
  {
    match r
    case None => None
    case Some(rest) => Some(x + rest)
  }

  /** Text without a backslash in front of a template is copied through. */
  lemma {:induction false} ExpandAfterLiteral(x: string, z: string)
    requires '\\' !in x
    ensures ExpandTemplate(x + z) == Prefixed(x, ExpandTemplate(z))
    decreases |x|
  {
    if x == [] {
      assert x + z == z;
      PrefixedEmpty(ExpandTemplate(z));
    } else {
      var t := x + z;
      assert t[0] == x[0];
      assert t[1..] == x[1..] + z;
      ExpandLiteralStep(t);
      ExpandAfterLiteral(x[1..], z);
      assert [x[0]] + x[1..] == x;
      PrefixedConcat([x[0]], x[1..], ExpandTemplate(z));
    }
  }

  lemma PrefixedEmpty(r: Option<string>)
    ensures Prefixed([], r) == r
  {
    if r.Some? { assert [] + r.value == r.value; }
  }

  lemma PrefixedConcat(a: string, b: string, r: Option<string>)
    ensures Prefixed(a, Prefixed(b, r)) == Prefixed(a + b, r)
  {
    if r.Some? { assert a + (b + r.value) == (a + b) + r.value; }
  }

  /** A character other than a backslash stands for itself. */
  lemma ExpandLiteralStep(t: string)
    requires t != [] && t[0] != '\\'
    ensures ExpandTemplate(t) == Prefixed([t[0]], ExpandTemplate(t[1..]))
  {
  }

  /** A bad escape such as `\d` anywhere makes `re.sub` raise. */
  lemma BadEscapeRaises(x: string, c: char, z: string)
    requires '\\' !in x && IsLetter(c) && c !in "abfnrtv"
    ensures ExpandTemplate(x + ['\\', c] + z).None?
  {
    var t := ['\\', c] + z;
    assert x + ['\\', c] + z == x + t;
    ExpandAfterLiteral(x, t);
    assert TemplateEscape(t).None?;
  }

  /** `\n` in a template becomes a line break. */
  lemma NewlineEscapeRewritten(x: string, z: string)
    requires '\\' !in x && '\\' !in z
    ensures ExpandTemplate(x + ("\\n" + z)) == Some(x + ("\n" + z))
  {
    var t := "\\n" + z;
    assert TemplateEscape(t) == Some(("\n", 2));
    assert t[2..] == z;
    ExpandAfterLiteral(x, t);
  }

  /** `\\` in a template becomes one backslash. */
  lemma BackslashEscapeRewritten(x: string, z: string)
    requires '\\' !in x && '\\' !in z
    ensures ExpandTemplate(x + ("\\\\" + z)) == Some(x + ("\\" + z))
  {
    var t := "\\\\" + z;
    assert TemplateEscape(t) == Some(("\\", 2));
    assert t[2..] == z;
    ExpandAfterLiteral(x, t);
  }

  /** Every backslash doubled: the template that stands for `s` itself. */
  function EscapeBackslashes(s: string): (t: string)
    ensures ExpandTemplate(t) == Some(s)
    decreases |s|
  {
    if s == [] then []
    else
      var rest := EscapeBackslashes(s[1..]);
      if s[0] == '\\' then
        var t := "\\\\" + rest;
        assert t[2..] == rest;
        assert s == "\\" + s[1..];
        t
      else
        var t := [s[0]] + rest;
        assert t[1..] == rest;
        assert s == [s[0]] + s[1..];
        t
  }

  // ---------------------------------------------------------------------
  // update_readme_version_history
  // ---------------------------------------------------------------------

  /** The outcome of `update_readme_version_history`; `TemplateError` is the `re.error` it lets escape. */
  datatype ReadmeUpdate = ReadmeUpdate(ok: bool, written: Option<string>) | TemplateError

  /** The replacement text handed to `re.sub`. */
  function HistoryTemplate(history: seq<string>): string
    requires |history| >= 1
  {
    HistoryHeading + Join(history, '\n') + "\n"
  }

  /**
   * The README text with each version-history section replaced by the
   * expanded template, or None when the template makes `re.sub` raise.
   */
  function RewriteReadme(readme: string, history: seq<string>): (r: Option<string>)
    requires |history| >= 1
    ensures r.Some? <==> ExpandTemplate(HistoryTemplate(history)).Some?
    ensures '\\' !in Join(history, '\n') ==>
              r == Some(SubAll(HistorySection, HistoryTemplate(history), readme))
  {
    match ExpandTemplate(HistoryTemplate(history))
    case None => None
    case Some(text) => Some(SubAll(HistorySection, text, readme))
  }

  /**
   * `update_readme_version_history`: false when either file is missing or
   * the changelog lists no version; `re.error` when the history makes a
   * bad template; otherwise true, writing the README only when the
   * substitution changed it.
   */
  method UpdateReadmeVersionHistory(readmeExists: bool, changelogExists: bool,
                                    readme: string, changelog: string)
    returns (r: ReadmeUpdate)
    ensures !readmeExists || !changelogExists ==> r == ReadmeUpdate(false, None)
    ensures readmeExists && changelogExists && FindVersions(changelog) == [] ==>
              r == ReadmeUpdate(false, None)
    ensures readmeExists && changelogExists && FindVersions(changelog) != [] ==>
              VersionHistory(changelog) != []
              && match RewriteReadme(readme, VersionHistory(changelog))
                 case None => r == TemplateError
                 case Some(updated) => r == ReadmeUpdate(true, if updated == readme then None else Some(updated))
  {
    if !readmeExists || !changelogExists {
      return ReadmeUpdate(false, None);
    }
    var versions := FindVersions(changelog);
    if versions == [] {
      return ReadmeUpdate(false, None);
    }
    var history := BuildVersionHistory(changelog);
    VersionHistoryShape(changelog);
    var replacement := ExpandTemplate(HistoryHeading + Join(history, '\n') + "\n");
    if replacement.None? {
      return TemplateError;
    }
    var updated := SubAll(HistorySection, replacement.value, readme);
    if updated == readme {
      return ReadmeUpdate(true, None);
    }
    return ReadmeUpdate(true, Some(updated));
  }
}
