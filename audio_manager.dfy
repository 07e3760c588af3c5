/**
 * The audio manager: which track of the current reciter's folder plays,
 * how the surah number follows the file, what happens after a track,
 * skipping and jumping, pausing and resuming against a clock, and the
 * missing-surah summary of a folder.
 *
 * Files are given by their base names, in the sorted order the folder
 * listing has; the clock, the track duration and random choices are
 * parameters of the operations that use them.
 */
module Audio {
  import opened Common

  const SurahCount: nat := 114

  /** `validate_surah_number`: surahs are numbered 1 to 114. */
  predicate ValidSurahNumber(n: int) { 1 <= n <= SurahCount }

  /** `f"{n:03d}.mp3"`, the file that holds surah `n`. */
  function SurahFileName(n: int): string
  {
    PadInt(n, 3) + ".mp3"
  }

  // ---------------------------------------------------------------------
  // The surah a file name stands for
  // ---------------------------------------------------------------------

  /** Where the first ASCII digit of `s` is. */
  function FirstDigitAt(s: string): (r: Option<nat>)
    ensures r.Some? ==> r.value < |s| && IsDigit(s[r.value])
                        && forall j :: 0 <= j < r.value ==> !IsDigit(s[j])
    ensures r.None? ==> forall j :: 0 <= j < |s| ==> !IsDigit(s[j])
  {
    if s == [] then None
    else if IsDigit(s[0]) then Some(0)
    else match FirstDigitAt(s[1..]) {
      case None => None
      case Some(k) => Some(k + 1)
    }
  }

  /** `re.search(r"(\d+)", s).group(1)`: the first maximal run of digits. */
  function FirstDigitRun(s: string): (r: Option<string>)
    ensures r.Some? ==> r.value != [] && AllDigits(r.value)
    ensures r.Some? ==> FirstDigitAt(s).Some?
                        && var k := FirstDigitAt(s).value;
                           k + |r.value| <= |s| && s[k..k + |r.value|] == r.value
                           && (k + |r.value| == |s| || !IsDigit(s[k + |r.value|]))
    ensures r.None? ==> forall j :: 0 <= j < |s| ==> !IsDigit(s[j])
  {
    match FirstDigitAt(s)
    case None => None
    case Some(k) =>
      var n := DigitRun(s[k..]);
      assert n >= 1 by { assert IsDigit(s[k..][0]); }
      assert s[k..][..n] == s[k..k + n];
      assert k + n < |s| ==> s[k + n] == s[k..][n];
      Some(s[k..][..n])
  }

  /**
   * `_update_current_surah` on one file: the first number in the name,
   * else the track position `index + 1`, and 1 whenever that is not a
   * surah number.
   */
  function SurahFromFilename(name: string, index: nat): (r: int)
    ensures ValidSurahNumber(r)
    ensures FirstDigitRun(name).Some? && ValidSurahNumber(DigitsToNat(FirstDigitRun(name).value))
            ==> r == DigitsToNat(FirstDigitRun(name).value)
    ensures FirstDigitRun(name).None? && ValidSurahNumber(index + 1) ==> r == index + 1
    ensures !(FirstDigitRun(name).Some? && ValidSurahNumber(DigitsToNat(FirstDigitRun(name).value)))
            && !(FirstDigitRun(name).None? && ValidSurahNumber(index + 1))
            ==> r == 1
  {
    var candidate := match FirstDigitRun(name) {
      case Some(d) => DigitsToNat(d) as int
      case None => index + 1
    };
    if ValidSurahNumber(candidate) then candidate else 1
  }

  /** A run of digits followed by a non-digit. */
  lemma {:induction false} DigitRunConcat(a: string, b: string)
    requires AllDigits(a)
    requires b == [] || !IsDigit(b[0])
    ensures DigitRun(a + b) == |a|
    decreases |a|
  {
    if a != [] {
      assert (a + b)[1..] == a[1..] + b;
      DigitRunConcat(a[1..], b);
    } else {
      assert a + b == b;
    }
  }

  /** The file of a surah is read back as that surah, at any position. */
  lemma SurahFileNameRoundTrip(n: int, index: nat)
    requires ValidSurahNumber(n)
    ensures SurahFromFilename(SurahFileName(n), index) == n
  {
    var digits := PadNat(n, 3);
    var name := SurahFileName(n);
    assert name == digits + ".mp3";
    assert IsDigit(name[0]) by { assert name[0] == digits[0]; }
    assert FirstDigitAt(name) == Some(0);
    assert name[0..] == name;
    DigitRunConcat(digits, ".mp3");
    assert name[..|digits|] == digits;
    PadNatRoundTrip(n, 3);
  }

  // ---------------------------------------------------------------------
  // The missing-surah summary
  // ---------------------------------------------------------------------

  /** `int(filename.split(".")[0])` when it is a surah number. */
  function FileSurahNumber(name: string): (r: Option<int>)
    ensures r.Some? ==> ValidSurahNumber(r.value)
  {
    match ParseInt(Split(name, '.')[0])
    case Some(v) => if ValidSurahNumber(v) then Some(v) else None
    case None => None
  }

  lemma FileSurahNumberOfSurahFile(n: int)
    requires ValidSurahNumber(n)
    ensures FileSurahNumber(SurahFileName(n)) == Some(n)
  {
    var digits := PadNat(n, 3);
    assert SurahFileName(n) == digits + ".mp3";
    NoNonDigitIn(digits, '.');
    IndexOfAfterPrefix(digits, '.', ".mp3");
    assert Split(SurahFileName(n), '.')[0] == digits;
    assert digits != [] by { assert |digits| >= 3; }
    ParseIntDigits(digits);
    PadNatRoundTrip(n, 3);
  }

  /** The set of surah numbers the files of a folder provide. */
  function AvailableIn(files: seq<string>): (s: set<int>)
    ensures forall v :: v in s ==> ValidSurahNumber(v)
    decreases |files|
  {
    if files == [] then {}
    else AvailableIn(files[..|files| - 1])
         + match FileSurahNumber(files[|files| - 1]) {
             case Some(v) => {v}
             case None => {}
           }
  }

  /** A number is available exactly when some file names it. */
  lemma {:induction false} AvailableInIff(files: seq<string>, v: int)
    ensures v in AvailableIn(files) <==> exists i :: 0 <= i < |files| && FileSurahNumber(files[i]) == Some(v)
    decreases |files|
  {
    if files != [] {
      var init := files[..|files| - 1];
      AvailableInIff(init, v);
      if v in AvailableIn(init) {
        var i :| 0 <= i < |init| && FileSurahNumber(init[i]) == Some(v);
        assert files[i] == init[i];
      }
      if exists i :: 0 <= i < |files| && FileSurahNumber(files[i]) == Some(v) {
        var i :| 0 <= i < |files| && FileSurahNumber(files[i]) == Some(v);
        if i < |files| - 1 { assert init[i] == files[i]; }
      }
    }
  }

  /** `sorted(set(range(k, 115)) - available)`. */
  function MissingFrom(available: set<int>, k: int): (r: seq<int>)
    ensures forall i :: 0 <= i < |r| ==> k <= r[i] <= SurahCount && r[i] !in available
    ensures forall i :: 0 <= i < |r| - 1 ==> r[i] < r[i + 1]
    decreases SurahCount + 1 - k
  {
    if k > SurahCount then []
    else if k in available then MissingFrom(available, k + 1)
    else [k] + MissingFrom(available, k + 1)
  }

  /** Every surah number from `k` on that is not available is listed. */
  lemma {:induction false} MissingFromComplete(available: set<int>, k: int, v: int)
    requires k <= v <= SurahCount && v !in available
    ensures v in MissingFrom(available, k)
    decreases SurahCount + 1 - k
  {
    if k < v {
      MissingFromComplete(available, k + 1, v);
    }
  }

  /** A maximal run of consecutive numbers, `first..last` inclusive. */
  datatype Run = Run(first: int, last: int)

  function Interval(a: int, b: int): (r: seq<int>)
    ensures |r| == if a <= b then b - a + 1 else 0
    decreases b - a
  {
    if a > b then [] else [a] + Interval(a + 1, b)
  }

  function Expand(runs: seq<Run>): seq<int>
  {
    if runs == [] then [] else Interval(runs[0].first, runs[0].last) + Expand(runs[1..])
  }

  /** Runs that are non-empty, ascending, and separated by a gap. */
  predicate Maximal(runs: seq<Run>)
  {
    (forall i :: 0 <= i < |runs| ==> runs[i].first <= runs[i].last)
    && (forall i :: 0 <= i < |runs| - 1 ==> runs[i].last + 1 < runs[i + 1].first)
  }

  predicate Increasing(xs: seq<int>)
  {
    forall i :: 0 <= i < |xs| - 1 ==> xs[i] < xs[i + 1]
  }

  /** The last run closes at the last number. */
  lemma {:induction false} GroupLast(first: int, last: int, rest: seq<int>)
    ensures var g := Group(first, last, rest);
            g[|g| - 1].last == if rest == [] then last else rest[|rest| - 1]
    decreases |rest|
  {
    if rest != [] {
      GroupLast(if rest[0] == last + 1 then first else rest[0], rest[0], rest[1..]);
      if rest[0] != last + 1 {
        var tail := Group(rest[0], rest[0], rest[1..]);
        assert Group(first, last, rest) == [Run(first, last)] + tail;
      }
    }
  }

  /** Close the open run `first..last` over the rest of the list. */
  function Group(first: int, last: int, rest: seq<int>): (r: seq<Run>)
    ensures |r| >= 1
    ensures r[0].first == first
    decreases |rest|
  {
    if rest == [] then [Run(first, last)]
    else if rest[0] == last + 1 then Group(first, rest[0], rest[1..])
    else [Run(first, last)] + Group(rest[0], rest[0], rest[1..])
  }

  /** The run decomposition `_check_missing_surahs` computes. */
  function Runs(xs: seq<int>): (r: seq<Run>)
    ensures r == [] <==> xs == []
    ensures xs != [] ==> r[0].first == xs[0] && r[|r| - 1].last == xs[|xs| - 1]
  {
    if xs == [] then [] else GroupLast(xs[0], xs[0], xs[1..]); Group(xs[0], xs[0], xs[1..])
  }

  lemma {:induction false} IntervalSnoc(a: int, b: int)
    requires a <= b + 1
    ensures Interval(a, b) + [b + 1] == Interval(a, b + 1)
    decreases b - a
  {
    if a <= b {
      IntervalSnoc(a + 1, b);
    }
  }

  lemma IncreasingTail(rest: seq<int>)
    requires Increasing(rest) && rest != []
    ensures Increasing(rest[1..])
    ensures |rest| > 1 ==> rest[0] < rest[1]
  {
  }

  /** Closing the open run covers the open run and then the rest, in order. */
  lemma {:induction false} GroupCovers(first: int, last: int, rest: seq<int>)
    requires first <= last && Increasing(rest)
    requires rest != [] ==> last < rest[0]
    ensures Expand(Group(first, last, rest)) == Interval(first, last) + rest
    decreases |rest|
  {
    if rest == [] {
      ExpandCons(Run(first, last), []);
    } else {
      IncreasingTail(rest);
      if rest[0] == last + 1 {
        GroupCovers(first, rest[0], rest[1..]);
        ExtendRun(first, last, rest);
      } else {
        GroupCovers(rest[0], rest[0], rest[1..]);
        ExpandCons(Run(first, last), Group(rest[0], rest[0], rest[1..]));
        StartRun(first, last, rest);
      }
    }
  }

  lemma ExpandCons(r: Run, runs: seq<Run>)
    ensures Expand([r] + runs) == Interval(r.first, r.last) + Expand(runs)
  {
    assert ([r] + runs)[1..] == runs;
  }

  /** The next number extends the open run. */
  lemma ExtendRun(first: int, last: int, rest: seq<int>)
    requires first <= last && rest != [] && rest[0] == last + 1
    ensures Interval(first, rest[0]) + rest[1..] == Interval(first, last) + rest
  {
    IntervalSnoc(first, last);
    assert rest == [rest[0]] + rest[1..];
  }

  /** A gap closes the open run and starts a one-number run. */
  lemma StartRun(first: int, last: int, rest: seq<int>)
    requires rest != []
    ensures Interval(first, last) + (Interval(rest[0], rest[0]) + rest[1..]) == Interval(first, last) + rest
  {
    assert Interval(rest[0], rest[0]) == [rest[0]];
    assert rest == [rest[0]] + rest[1..];
  }

  /** Closing the open run yields runs that are non-empty, ascending and separated. */
  lemma {:induction false} GroupMaximal(first: int, last: int, rest: seq<int>)
    requires first <= last && Increasing(rest)
    requires rest != [] ==> last < rest[0]
    ensures Maximal(Group(first, last, rest))
    decreases |rest|
  {
    if rest != [] {
      IncreasingTail(rest);
      if rest[0] == last + 1 {
        GroupMaximal(first, rest[0], rest[1..]);
      } else {
        var g := Group(first, last, rest);
        var tail := Group(rest[0], rest[0], rest[1..]);
        GroupMaximal(rest[0], rest[0], rest[1..]);
        assert g == [Run(first, last)] + tail;
        forall i | 0 <= i < |g| - 1 ensures g[i].last + 1 < g[i + 1].first {
          if i > 0 { assert g[i] == tail[i - 1] && g[i + 1] == tail[i]; }
        }
        forall i | 0 <= i < |g| ensures g[i].first <= g[i].last {
          if i > 0 { assert g[i] == tail[i - 1]; }
        }
      }
    }
  }

  /**
   * The runs cover exactly the listed numbers, in order, and no two of
   * them could be merged.
   */
  lemma RunsSound(xs: seq<int>)
    requires Increasing(xs)
    ensures Expand(Runs(xs)) == xs && Maximal(Runs(xs))
  {
    if xs != [] {
      IncreasingTail(xs);
      GroupCovers(xs[0], xs[0], xs[1..]);
      GroupMaximal(xs[0], xs[0], xs[1..]);
      assert Interval(xs[0], xs[0]) == [xs[0]];
      assert xs == [xs[0]] + xs[1..];
    }
  }

  /** How one run is written: `"a"` or `"a-b"`. */
  function RunText(r: Run): (text: string)
    // for surah numbers, the text splits at the dash into the numbers it names
    ensures 0 <= r.first && 0 <= r.last ==>
              var parts := Split(text, '-');
              |parts| == (if r.first == r.last then 1 else 2)
              && ParseInt(parts[0]) == Some(r.first) && ParseInt(parts[|parts| - 1]) == Some(r.last)
  {
    if r.first == r.last then
      var a := IntToString(r.first);
      if r.first >= 0 then RunTextSplits(r.first, r.first); a else a
    else
      var a := IntToString(r.first) + "-" + IntToString(r.last);
      if 0 <= r.first && 0 <= r.last then RunTextSplits(r.first, r.last); a else a
  }

  /** The decimal texts of two numbers split apart at a dash, and one alone splits to itself. */
  lemma RunTextSplits(a: nat, b: nat)
    ensures Split(NatToString(a), '-') == [NatToString(a)]
    ensures Split(NatToString(a) + "-" + NatToString(b), '-') == [NatToString(a), NatToString(b)]
    ensures ParseInt(NatToString(a)) == Some(a) && ParseInt(NatToString(b)) == Some(b)
  {
    var x := NatToString(a);
    var y := NatToString(b);
    NoNonDigitIn(x, '-');
    NoNonDigitIn(y, '-');
    assert Join([x], '-') == x;
    SplitJoin([x], '-');
    assert [x, y][1..] == [y];
    assert Join([x, y], '-') == x + "-" + y;
    SplitJoin([x, y], '-');
    ParseIntNatString(a);
    ParseIntNatString(b);
  }

  /** What the missing-surah check reports about a folder. */
  datatype MissingReport = MissingReport(availableCount: nat, missing: seq<int>, ranges: seq<string>)

  /** A surah is reported missing exactly when no file of the folder names it. */
  lemma MissingIff(files: seq<string>, v: int)
    ensures v in MissingFrom(AvailableIn(files), 1)
            <==> ValidSurahNumber(v) && forall i :: 0 <= i < |files| ==> FileSurahNumber(files[i]) != Some(v)
  {
    AvailableInIff(files, v);
    if ValidSurahNumber(v) && v !in AvailableIn(files) {
      MissingFromComplete(AvailableIn(files), 1, v);
    }
  }

  /** A folder holding every `NNN.mp3` has no gap to report. */
  lemma CompleteFolderHasNoGaps(files: seq<string>)
    requires forall n :: ValidSurahNumber(n) ==> SurahFileName(n) in files
    ensures MissingFrom(AvailableIn(files), 1) == []
  {
    var missing := MissingFrom(AvailableIn(files), 1);
    if missing != [] {
      var v := missing[0];
      assert ValidSurahNumber(v);
      var i :| 0 <= i < |files| && files[i] == SurahFileName(v);
      FileSurahNumberOfSurahFile(v);
      AvailableInIff(files, v);
      assert false;
    }
  }

  // ---------------------------------------------------------------------
  // Time display
  // ---------------------------------------------------------------------

  /** Python's `int(x)` on a float: truncation toward zero. */
  function TruncateToInt(x: real): (t: int)
    ensures x >= 0.0 ==> t >= 0 && t as real <= x < t as real + 1.0
    ensures x < 0.0 ==> t <= 0 && t as real - 1.0 < x <= t as real
  {
    if x >= 0.0 then x.Floor else -((-x).Floor)
  }

  /**
   * `_format_time`: `H:MM:SS` when there is at least one hour, else
   * `MM:SS`. Division is Python's floor division, so a negative time
   * shows as the minutes and seconds of its remainder modulo one hour.
   */
  function FormatTime(seconds: real): (r: string)
    // it reads back as the truncated time when that is at least an hour,
    // and otherwise as that time modulo one hour
    ensures var t := TruncateToInt(seconds);
            ParseClock(r) == Some(if t >= 3600 then t else t % 3600)
  {
    var t := TruncateToInt(seconds);
    if t >= 3600 then FormatSecondsWithHours(t); FormatSeconds(t)
    else FormatSecondsWithoutHours(t); FormatSeconds(t)
  }

  /**
   * `_format_time` once the seconds are a whole number: two-digit minutes
   * and seconds, after the hours and a colon from one hour on.
   */
  function FormatSeconds(total: int): (r: string)
    ensures total < 3600 ==> |r| == 5 && r[2] == ':'
    ensures total >= 3600 ==> |r| >= 7 && r[|r| - 3] == ':' && r[|r| - 6] == ':'
  {
    var hours := total / 3600;
    var minutes := (total % 3600) / 60;
    var secs := total % 60;
    PadTwo(minutes);
    PadTwo(secs);
    if hours > 0 then NatToString(hours) + ":" + PadNat(minutes, 2) + ":" + PadNat(secs, 2)
    else PadNat(minutes, 2) + ":" + PadNat(secs, 2)
  }

  /** A number below 100 pads to exactly two digits. */
  lemma PadTwo(n: nat)
    requires n < 100
    ensures |PadNat(n, 2)| == 2
  {
    if n >= 10 { assert NatToString(n) == NatToString(n / 10) + [DigitChar(n % 10)]; }
  }

  /** Every colon-separated field is a non-empty run of digits. */
  predicate ClockFields(parts: seq<string>)
  {
    forall i :: 0 <= i < |parts| ==> parts[i] != [] && AllDigits(parts[i])
  }

  /** Reads `H:MM:SS` or `MM:SS` back as a number of seconds. */
  function ParseClock(s: string): Option<int>
  {
    ClockValue(Split(s, ':'))
  }

  /** The seconds that two or three digit fields stand for. */
  function ClockValue(parts: seq<string>): Option<int>
  {
    if (|parts| == 2 || |parts| == 3) && ClockFields(parts) then
      if |parts| == 3 then
        Some(DigitsToNat(parts[0]) * 3600 + DigitsToNat(parts[1]) * 60 + DigitsToNat(parts[2]))
      else
        Some(DigitsToNat(parts[0]) * 60 + DigitsToNat(parts[1]))
    else None
  }

  lemma NoNonDigitIn(s: string, c: char)
    requires AllDigits(s) && !IsDigit(c)
    ensures c !in s
  {
  }

  /** Three colon-free pieces joined by colons split back into those pieces. */
  lemma SplitThree(h: string, m: string, s: string)
    requires ':' !in h && ':' !in m && ':' !in s
    ensures Split(h + ":" + m + ":" + s, ':') == [h, m, s]
  {
    JoinThree(h, m, s, ':');
    SplitJoin([h, m, s], ':');
  }

  /** Two colon-free pieces joined by a colon split back into those pieces. */
  lemma SplitTwo(m: string, s: string)
    requires ':' !in m && ':' !in s
    ensures Split(m + ":" + s, ':') == [m, s]
  {
    assert [m, s][1..] == [s];
    assert Join([m, s], ':') == m + ":" + s;
    SplitJoin([m, s], ':');
  }

  /** The value of two or three digit fields, one field at a time. */
  lemma FieldValues(parts: seq<string>)
    requires (|parts| == 2 || |parts| == 3) && ClockFields(parts)
    ensures |parts| == 3 ==>
              ClockValue(parts)
              == Some(DigitsToNat(parts[0]) * 3600 + DigitsToNat(parts[1]) * 60 + DigitsToNat(parts[2]))
    ensures |parts| == 2 ==> ClockValue(parts) == Some(DigitsToNat(parts[0]) * 60 + DigitsToNat(parts[1]))
  {
  }

  /** Three digit fields stand for hours, minutes and seconds. */
  lemma ClockValueThree(h: string, m: string, s: string)
    requires h != [] && m != [] && s != [] && AllDigits(h) && AllDigits(m) && AllDigits(s)
    ensures ClockValue([h, m, s])
            == Some(DigitsToNat(h) * 3600 + DigitsToNat(m) * 60 + DigitsToNat(s))
  {
    var parts := [h, m, s];
    assert ClockFields(parts);
    FieldValues(parts);
    assert parts[0] == h && parts[1] == m && parts[2] == s;
  }

  /** Two digit fields stand for minutes and seconds. */
  lemma ClockValueTwo(m: string, s: string)
    requires m != [] && s != [] && AllDigits(m) && AllDigits(s)
    ensures ClockValue([m, s]) == Some(DigitsToNat(m) * 60 + DigitsToNat(s))
  {
    var parts := [m, s];
    assert ClockFields(parts);
    FieldValues(parts);
    assert parts[0] == m && parts[1] == s;
  }

  lemma ParseClockThree(h: string, m: string, s: string)
    requires h != [] && m != [] && s != [] && AllDigits(h) && AllDigits(m) && AllDigits(s)
    ensures ParseClock(h + ":" + m + ":" + s)
            == Some(DigitsToNat(h) * 3600 + DigitsToNat(m) * 60 + DigitsToNat(s))
  {
    NoNonDigitIn(h, ':');
    NoNonDigitIn(m, ':');
    NoNonDigitIn(s, ':');
    SplitThree(h, m, s);
    ClockValueThree(h, m, s);
  }

  lemma ParseClockTwo(m: string, s: string)
    requires m != [] && s != [] && AllDigits(m) && AllDigits(s)
    ensures ParseClock(m + ":" + s) == Some(DigitsToNat(m) * 60 + DigitsToNat(s))
  {
    NoNonDigitIn(m, ':');
    NoNonDigitIn(s, ':');
    SplitTwo(m, s);
    ClockValueTwo(m, s);
  }

  lemma HourSplit(t: int)
    ensures (t % 3600) / 60 * 60 + t % 60 == t % 3600
    ensures t / 3600 * 3600 + t % 3600 == t
  {
    var u := t % 3600;
    var h := t / 3600;
    assert t == 3600 * h + u;
    assert u == 60 * (u / 60) + u % 60;
    assert t == 60 * (60 * h + u / 60) + u % 60;
    assert t % 60 == u % 60;
  }

  /** `H:MM:SS` with padded minute and second fields reads back field by field. */
  lemma PaddedThreeFields(hours: nat, minutes: nat, secs: nat)
    requires hours > 0
    ensures ParseClock(NatToString(hours) + ":" + PadNat(minutes, 2) + ":" + PadNat(secs, 2))
            == Some(hours * 3600 + minutes * 60 + secs)
  {
    var h := NatToString(hours);
    var m := PadNat(minutes, 2);
    var s := PadNat(secs, 2);
    NatToStringRoundTrip(hours);
    PadNatRoundTrip(minutes, 2);
    PadNatRoundTrip(secs, 2);
    assert DigitsToNat(h) == hours && DigitsToNat(m) == minutes && DigitsToNat(s) == secs;
    ParseClockThree(h, m, s);
  }

  /** `MM:SS` with padded fields reads back field by field. */
  lemma PaddedTwoFields(minutes: nat, secs: nat)
    ensures ParseClock(PadNat(minutes, 2) + ":" + PadNat(secs, 2)) == Some(minutes * 60 + secs)
  {
    var m := PadNat(minutes, 2);
    var s := PadNat(secs, 2);
    ParseClockTwo(m, s);
    PadNatRoundTrip(minutes, 2);
    PadNatRoundTrip(secs, 2);
  }

  lemma FormatSecondsWithHours(t: int)
    requires t >= 3600
    ensures ParseClock(FormatSeconds(t)) == Some(t)
  {
    var hours: nat := t / 3600;
    var minutes: nat := (t % 3600) / 60;
    var secs: nat := t % 60;
    HoursForm(t);
    assert hours * 3600 + minutes * 60 + secs == t by { HourSplit(t); }
    PaddedThreeFields(hours, minutes, secs);
  }

  lemma HoursForm(t: int)
    requires t >= 3600
    ensures FormatSeconds(t)
            == NatToString(t / 3600) + ":" + PadNat((t % 3600) / 60, 2) + ":" + PadNat(t % 60, 2)
  {
  }

  lemma FormatSecondsWithoutHours(t: int)
    requires t < 3600
    ensures ParseClock(FormatSeconds(t)) == Some(t % 3600)
  {
    var minutes: nat := (t % 3600) / 60;
    var secs: nat := t % 60;
    assert t / 3600 <= 0;
    assert FormatSeconds(t) == PadNat(minutes, 2) + ":" + PadNat(secs, 2);
    PaddedTwoFields(minutes, secs);
    HourSplit(t);
  }

  /** Whole minutes and seconds below an hour show as `MM:SS`. */
  lemma FormatTimeUnderAnHour(seconds: real)
    requires 0.0 <= seconds < 3600.0
    ensures var t := TruncateToInt(seconds);
            FormatTime(seconds) == PadNat(t / 60, 2) + ":" + PadNat(t % 60, 2)
  {
    var t := TruncateToInt(seconds);
    assert t < 3600;
    assert t / 3600 == 0 && t % 3600 == t;
  }

  // ---------------------------------------------------------------------
  // Track selection
  // ---------------------------------------------------------------------

  /** The next index of a cyclic list of `n` items. */
  lemma NextIndexWraps(index: nat, n: nat)
    requires n > 0
    ensures index < n ==> (index + 1) % n == if index + 1 == n then 0 else index + 1
  {
    if index + 1 < n {
      assert (index + 1) / n == 0;
    }
  }

  /**
   * The index after a finished track and the new jump flag: loop repeats
   * the track and keeps the flag, a pending jump is consumed in place,
   * shuffle takes the random pick, and otherwise the next index wraps
   * to 0 past the end.
   */
  function AdvanceAfterTrack(index: nat, n: nat, loop: bool, jumped: bool, shuffle: bool, pick: nat)
    : (r: (nat, bool))
    requires n > 0 && pick < n
    ensures loop ==> r == (index, jumped)
    ensures !loop && jumped ==> r == (index, false)
    ensures !loop && !jumped && shuffle ==> r == (pick, false)
    ensures !loop && !jumped && !shuffle && index < n ==> r == ((index + 1) % n, false)
  {
    NextIndexWraps(index, n);
    if loop then (index, jumped)
    else if jumped then (index, false)
    else if shuffle then (pick, jumped)
    else if index + 1 >= n then (0, jumped)
    else (index + 1, jumped)
  }

  /** A position inside the folder stays inside it after a track. */
  lemma AdvanceStaysInRange(index: nat, n: nat, loop: bool, jumped: bool, shuffle: bool, pick: nat)
    requires n > 0 && pick < n && index < n
    ensures AdvanceAfterTrack(index, n, loop, jumped, shuffle, pick).0 < n
  {
  }

  /** Unshuffled, playing on visits every track once before repeating. */
  function Rotation(index: nat, n: nat, steps: nat): (r: nat)
    requires n > 0 && index < n
    ensures r < n
    decreases steps
  {
    if steps == 0 then index
    else
      var next := AdvanceAfterTrack(index, n, false, false, false, 0).0;
      Rotation(next, n, steps - 1)
  }

  /** Playing on from `index` reaches later tracks in order. */
  lemma {:induction false} RotationCounts(index: nat, n: nat, steps: nat)
    requires n > 0 && index + steps < n
    ensures Rotation(index, n, steps) == index + steps
    decreases steps
  {
    if steps > 0 {
      assert AdvanceAfterTrack(index, n, false, false, false, 0).0 == index + 1;
      RotationCounts(index + 1, n, steps - 1);
    }
  }

  lemma {:induction false} RotationCompose(index: nat, n: nat, a: nat, b: nat)
    requires n > 0 && index < n
    ensures Rotation(index, n, a + b) == Rotation(Rotation(index, n, a), n, b)
    decreases a
  {
    if a > 0 {
      var next := AdvanceAfterTrack(index, n, false, false, false, 0).0;
      RotationCompose(next, n, a - 1, b);
      assert a + b - 1 == (a - 1) + b;
    }
  }

  /** After `n` tracks of normal progression the folder is back where it started. */
  lemma FullCycleReturns(index: nat, n: nat)
    requires n > 0 && index < n
    ensures Rotation(index, n, n) == index
  {
    var toEnd := n - 1 - index;
    RotationCounts(index, n, toEnd);
    RotationCompose(index, n, toEnd, 1);
    assert Rotation(n - 1, n, 1) == 0 by {
      assert AdvanceAfterTrack(n - 1, n, false, false, false, 0).0 == 0;
    }
    RotationCompose(index, n, toEnd + 1, index);
    if index > 0 { RotationCounts(0, n, index); }
    assert toEnd + 1 + index == n;
  }

  // ---------------------------------------------------------------------
  // The manager
  // ---------------------------------------------------------------------

  /** What the manager sees of Discord's voice client. */
  datatype Voice = Voice(connected: bool, playing: bool, paused: bool)

  /** The state loaded from the state store at start-up. */
  datatype StoredPlayback = StoredPlayback(surah: int, position: real)

  /** One `save_playback_state` call. */
  datatype SavedPlayback = SavedPlayback(surah: int, position: real, reciter: string,
                                         isPlaying: bool, loopEnabled: bool, shuffleEnabled: bool)

  /** `get_playback_status()`. */
  datatype PlaybackStatus = PlaybackStatus(
    isPlaying: bool, isPaused: bool, currentSurah: int, currentReciter: string,
    isLoopEnabled: bool, isShuffleEnabled: bool, currentTrack: nat, totalTracks: nat,
    availableReciters: seq<string>, currentTime: real, totalTime: real)

  /** Python truthiness of an optional clock reading: set and non-zero. */
  predicate IsSet(t: Option<real>) { t.Some? && t.value != 0.0 }

  /**
   * The resume step of one playback-loop iteration: a requested resume
   * with a positive position seeks there, unless the position is at or
   * past a known duration, in which case the track starts from 0.
   * Returns the seek target, if any, and the position afterwards.
   */
  function SeekStep(shouldResume: bool, position: real, duration: real): (r: (Option<real>, real))
    ensures r.0.Some? <==> shouldResume && position > 0.0 && !(duration > 0.0 && position >= duration)
    ensures r.0.Some? ==> r.0.value == position && r.1 == position
    ensures shouldResume && position > 0.0 && duration > 0.0 && position >= duration ==> r.1 == 0.0
    ensures !(shouldResume && position > 0.0) ==> r.1 == position
  {
    if shouldResume && position > 0.0 && duration > 0.0 && position >= duration then (None, 0.0)
    else if shouldResume && position > 0.0 then (Some(position), position)
    else (None, position)
  }

  class AudioManager {
    const defaultReciter: string
    const defaultLoop: bool
    const defaultShuffle: bool
    const availableReciters: seq<string>

    var currentSurah: int
    var currentReciter: string
    var currentPosition: real
    var isPlaying: bool
    var isPaused: bool
    var isLoopEnabled: bool
    var isShuffleEnabled: bool
    var currentAudioFiles: seq<string>
    var currentFileIndex: nat
    var jumpOccurred: bool
    var trackStartTime: Option<real>
    var trackPauseTime: Option<real>
    var voice: Option<Voice>
    var hasRichPresence: bool
    /** The playback task, when one runs, and the resume request it was started with. */
    var playbackTask: Option<bool>
    /** Every `save_playback_state` call the manager made, in order. */
    var savedStates: seq<SavedPlayback>

    /**
     * `__init__` followed by `_load_saved_state`: the saved surah and
     * position replace the initial ones (a failed load keeps them), while
     * reciter, loop and shuffle always come from the defaults.
     */
    constructor (reciter: string, shuffle: bool, loop: bool, reciters: seq<string>,
                 stored: Option<StoredPlayback>)
      ensures currentSurah == (if stored.Some? then stored.value.surah else 1)
      ensures currentPosition == (if stored.Some? then stored.value.position else 0.0)
      ensures currentReciter == reciter && isLoopEnabled == loop && isShuffleEnabled == shuffle
      ensures !isPlaying && !isPaused && currentAudioFiles == [] && currentFileIndex == 0 && !jumpOccurred
      ensures voice.None? && !hasRichPresence && playbackTask.None? && savedStates == []
      ensures trackStartTime.None? && trackPauseTime.None?
      ensures defaultReciter == reciter && availableReciters == reciters
    {
      defaultReciter := reciter;
      defaultLoop := loop;
      defaultShuffle := shuffle;
      availableReciters := reciters;
      currentSurah := 1;
      currentReciter := reciter;
      currentPosition := 0.0;
      isPlaying, isPaused := false, false;
      isLoopEnabled, isShuffleEnabled := loop, shuffle;
      currentAudioFiles, currentFileIndex := [], 0;
      jumpOccurred := false;
      trackStartTime, trackPauseTime := None, None;
      voice, hasRichPresence, playbackTask, savedStates := None, false, None, [];
      new;
      LoadSavedState(stored);
    }

    /** `_load_saved_state`; `None` stands for a state store that raised. */
    method LoadSavedState(stored: Option<StoredPlayback>)
      modifies this`currentSurah, this`currentReciter, this`currentPosition,
               this`isLoopEnabled, this`isShuffleEnabled
      ensures stored.None? ==> currentSurah == old(currentSurah) && currentPosition == old(currentPosition)
                               && currentReciter == old(currentReciter)
                               && isLoopEnabled == old(isLoopEnabled) && isShuffleEnabled == old(isShuffleEnabled)
      ensures stored.Some? ==> currentSurah == stored.value.surah && currentPosition == stored.value.position
                               && currentReciter == defaultReciter
                               && isLoopEnabled == defaultLoop && isShuffleEnabled == defaultShuffle
    {
      if stored.Some? {
        currentSurah := stored.value.surah;
        currentReciter := defaultReciter;
        currentPosition := stored.value.position;
        isLoopEnabled := defaultLoop;
        isShuffleEnabled := defaultShuffle;
      }
    }

    method SetVoiceClient(v: Voice)
      modifies this`voice
      ensures voice == Some(v)
    {
      voice := Some(v);
    }

    method SetRichPresence()
      modifies this`hasRichPresence
      ensures hasRichPresence
    {
      hasRichPresence := true;
    }

    /** The first position of `target` in `files`, by a linear search. */
    static method FindTrack(files: seq<string>, target: string) returns (idx: Option<nat>)
      ensures idx.Some? ==> idx.value < |files| && files[idx.value] == target
                            && forall j :: 0 <= j < idx.value ==> files[j] != target
      ensures idx.None? ==> target !in files
    {
      idx := None;
      var i := 0;
      while i < |files|
        invariant 0 <= i <= |files|
        invariant forall j :: 0 <= j < i ==> files[j] != target
      {
        if files[i] == target {
          return Some(i);
        }
        i := i + 1;
      }
    }

    /** `_update_file_index_for_surah`: move to the file of the current surah, if there is one. */
    method UpdateFileIndexForSurah()
      modifies this`currentFileIndex
      ensures SurahFileName(currentSurah) !in currentAudioFiles ==> currentFileIndex == old(currentFileIndex)
      ensures SurahFileName(currentSurah) in currentAudioFiles ==>
                currentFileIndex < |currentAudioFiles|
                && currentAudioFiles[currentFileIndex] == SurahFileName(currentSurah)
                && forall j :: 0 <= j < currentFileIndex ==> currentAudioFiles[j] != SurahFileName(currentSurah)
    {
      var idx := FindTrack(currentAudioFiles, SurahFileName(currentSurah));
      if idx.Some? {
        currentFileIndex := idx.value;
      }
    }

    /**
     * `_check_missing_surahs`: the surah numbers the file names provide,
     * the ascending list of the others, and that list written as maximal
     * runs.
     */
    method CheckMissingSurahs() returns (report: MissingReport)
      ensures report.availableCount == |AvailableIn(currentAudioFiles)|
      ensures report.missing == MissingFrom(AvailableIn(currentAudioFiles), 1)
      ensures |report.ranges| == |Runs(report.missing)|
      ensures forall k :: 0 <= k < |report.ranges| ==> report.ranges[k] == RunText(Runs(report.missing)[k])
    {
      var available := CollectAvailable(currentAudioFiles);
      var missing := MissingFrom(available, 1);
      var ranges := MissingRanges(missing);
      report := MissingReport(|available|, missing, ranges);
    }

    /** The first loop of `_check_missing_surahs`: the valid numbers the names start with. */
    static method CollectAvailable(files: seq<string>) returns (available: set<int>)
      ensures available == AvailableIn(files)
    {
      available := {};
      var i := 0;
      while i < |files|
        invariant 0 <= i <= |files|
        invariant available == AvailableIn(files[..i])
      {
        assert files[..i + 1][..i] == files[..i];
        var parsed := ParseInt(Split(files[i], '.')[0]);
        if parsed.Some? && 1 <= parsed.value <= 114 {
          available := available + {parsed.value};
        }
        i := i + 1;
      }
      assert files[..i] == files;
    }

    /** The second loop of `_check_missing_surahs`: the runs of the sorted list, as text. */
    static method MissingRanges(missing: seq<int>) returns (ranges: seq<string>)
      ensures |ranges| == |Runs(missing)|
      ensures forall k :: 0 <= k < |ranges| ==> ranges[k] == RunText(Runs(missing)[k])
    {
      ranges := [];
      if missing == [] {
        return;
      }
      var start := missing[0];
      var end := start;
      ghost var done: seq<Run> := [];
      var j := 1;
      while j < |missing|
        invariant 1 <= j <= |missing|
        invariant done + Group(start, end, missing[j..]) == Runs(missing)
        invariant |ranges| == |done| && forall k :: 0 <= k < |done| ==> ranges[k] == RunText(done[k])
      {
        assert missing[j..][1..] == missing[j + 1..];
        if missing[j] == end + 1 {
          end := missing[j];
        } else {
          ranges := ranges + [RunText(Run(start, end))];
          done := done + [Run(start, end)];
          start := missing[j];
          end := start;
        }
        j := j + 1;
      }
      assert missing[j..] == [];
      ranges := ranges + [RunText(Run(start, end))];
      done := done + [Run(start, end)];
    }

    /**
     * `load_audio_files`, given the sorted `*.mp3` listing of the
     * reciter's folder (`None` when the folder does not exist).
     */
    method LoadAudioFiles(listing: Option<seq<string>>) returns (ok: bool)
      modifies this`currentAudioFiles, this`currentFileIndex
      ensures ok <==> listing.Some? && listing.value != []
      ensures listing.None? ==> currentAudioFiles == old(currentAudioFiles)
                                && currentFileIndex == old(currentFileIndex)
      ensures listing.Some? ==> currentAudioFiles == listing.value
      ensures listing.Some? && listing.value == [] ==> currentFileIndex == old(currentFileIndex)
      ensures ok && SurahFileName(currentSurah) in currentAudioFiles ==>
                currentFileIndex < |currentAudioFiles| && currentAudioFiles[currentFileIndex] == SurahFileName(currentSurah)
      ensures ok && SurahFileName(currentSurah) !in currentAudioFiles ==> currentFileIndex == old(currentFileIndex)
    {
      if listing.None? {
        return false;
      }
      currentAudioFiles := listing.value;
      if currentAudioFiles == [] {
        return false;
      }
      UpdateFileIndexForSurah();
      var _ := CheckMissingSurahs();
      return true;
    }

    /**
     * `stop_playback`: save a final not-playing state when it was playing
     * with rich presence, cancel the playback task, stop the voice client
     * if it plays, and clear both flags.
     */
    method StopPlayback()
      modifies this`isPlaying, this`isPaused, this`playbackTask, this`savedStates, this`voice
      ensures !isPlaying && !isPaused && playbackTask.None?
      ensures savedStates == old(savedStates)
                + (if old(isPlaying) && hasRichPresence
                   then [SavedPlayback(currentSurah, currentPosition, currentReciter, false,
                                       isLoopEnabled, isShuffleEnabled)]
                   else [])
      ensures voice == if old(voice).Some? && old(voice).value.playing
                       then Some(old(voice).value.(playing := false, paused := false))
                       else old(voice)
    {
      if isPlaying && hasRichPresence {
        savedStates := savedStates + [SavedPlayback(currentSurah, currentPosition, currentReciter, false,
                                                    isLoopEnabled, isShuffleEnabled)];
      }
      playbackTask := None;
      if voice.Some? && voice.value.playing {
        voice := Some(voice.value.(playing := false, paused := false));
      }
      isPlaying := false;
      isPaused := false;
    }

    /**
     * `start_playback(resume_position)`: needs a connected voice client
     * and a non-empty folder; then it stops what plays and starts a new
     * playback task with the resume request.
     */
    method StartPlayback(resumePosition: bool, listing: Option<seq<string>>) returns (started: bool)
      modifies this`currentAudioFiles, this`currentFileIndex, this`isPlaying, this`isPaused,
               this`playbackTask, this`savedStates, this`voice
      ensures started <==> old(voice).Some? && old(voice).value.connected && listing.Some? && listing.value != []
      ensures !(old(voice).Some? && old(voice).value.connected) ==>
                currentAudioFiles == old(currentAudioFiles) && playbackTask == old(playbackTask)
      ensures started ==> playbackTask == Some(resumePosition) && !isPlaying && !isPaused
                          && currentAudioFiles == listing.value
      ensures !started ==> isPlaying == old(isPlaying) && isPaused == old(isPaused) && voice == old(voice)
                           && playbackTask == old(playbackTask) && savedStates == old(savedStates)
    {
      if voice.None? || !voice.value.connected {
        return false;
      }
      var loaded := LoadAudioFiles(listing);
      if !loaded {
        return false;
      }
      StopPlayback();
      playbackTask := Some(resumePosition);
      return true;
    }

    /**
     * `pause_playback(now)`: only a playing voice client is paused; the
     * position becomes the time played since the track started.
     */
    method PausePlayback(now: real)
      modifies this`voice, this`isPaused, this`trackPauseTime, this`currentPosition
      ensures !(old(voice).Some? && old(voice).value.playing) ==>
                voice == old(voice) && isPaused == old(isPaused)
                && trackPauseTime == old(trackPauseTime) && currentPosition == old(currentPosition)
      ensures old(voice).Some? && old(voice).value.playing ==>
                voice == Some(old(voice).value.(playing := false, paused := true))
                && isPaused && trackPauseTime == Some(now)
                && currentPosition == (if IsSet(trackStartTime) then now - trackStartTime.value
                                       else old(currentPosition))
    {
      if voice.Some? && voice.value.playing {
        voice := Some(voice.value.(playing := false, paused := true));
        isPaused := true;
        trackPauseTime := Some(now);
        if IsSet(trackStartTime) {
          currentPosition := now - trackStartTime.value;
        }
      }
    }

    /**
     * `resume_playback(now)`: only a paused voice client is resumed; the
     * track's start time moves forward by the length of the pause.
     */
    method ResumePlayback(now: real)
      modifies this`voice, this`isPaused, this`trackPauseTime, this`trackStartTime
      ensures !(old(voice).Some? && old(voice).value.paused) ==>
                voice == old(voice) && isPaused == old(isPaused)
                && trackPauseTime == old(trackPauseTime) && trackStartTime == old(trackStartTime)
      ensures old(voice).Some? && old(voice).value.paused ==>
                voice == Some(old(voice).value.(paused := false, playing := true)) && !isPaused
      ensures old(voice).Some? && old(voice).value.paused && IsSet(old(trackPauseTime)) && IsSet(old(trackStartTime)) ==>
                trackStartTime == Some(old(trackStartTime).value + (now - old(trackPauseTime).value))
                && trackPauseTime.None?
      ensures old(voice).Some? && old(voice).value.paused && !(IsSet(old(trackPauseTime)) && IsSet(old(trackStartTime))) ==>
                trackStartTime == old(trackStartTime) && trackPauseTime == old(trackPauseTime)
    {
      if voice.Some? && voice.value.paused {
        voice := Some(voice.value.(paused := false, playing := true));
        isPaused := false;
        if IsSet(trackPauseTime) && IsSet(trackStartTime) {
          var pauseDuration := now - trackPauseTime.value;
          trackStartTime := Some(trackStartTime.value + pauseDuration);
          trackPauseTime := None;
        }
      }
    }

    /**
     * A pause at `t1` followed by a resume at `t2`: the time played as
     * measured from the shifted start leaves the pause out.
     */
    method PauseThenResume(t1: real, t2: real)
      requires voice.Some? && voice.value.playing && IsSet(trackStartTime)
      requires t1 != 0.0
      modifies this`voice, this`isPaused, this`trackPauseTime, this`trackStartTime, this`currentPosition
      ensures trackStartTime.Some? && trackPauseTime.None? && !isPaused
      ensures currentPosition == t1 - old(trackStartTime).value
      ensures trackStartTime.value == old(trackStartTime).value + (t2 - t1)
    {
      PausePlayback(t1);
      ResumePlayback(t2);
    }

    /** `_update_current_surah`: follow the name of the current file. */
    method UpdateCurrentSurah()
      modifies this`currentSurah
      ensures currentFileIndex < |currentAudioFiles| ==>
                currentSurah == SurahFromFilename(currentAudioFiles[currentFileIndex], currentFileIndex)
      ensures currentFileIndex >= |currentAudioFiles| ==> currentSurah == old(currentSurah)
    {
      if currentAudioFiles != [] && currentFileIndex < |currentAudioFiles| {
        var filename := currentAudioFiles[currentFileIndex];
        var run := FirstDigitRun(filename);
        if run.Some? {
          currentSurah := DigitsToNat(run.value);
        } else {
          currentSurah := currentFileIndex + 1;
        }
        if !(1 <= currentSurah <= 114) {
          currentSurah := 1;
        }
      }
    }

    /**
     * `skip_to_next`: nothing without files; otherwise stop the voice
     * client, move one track on (or to the random `pick` when shuffling),
     * and follow the surah of the new file.
     */
    method SkipToNext(pick: nat)
      requires currentAudioFiles != [] ==> pick < |currentAudioFiles|
      modifies this`voice, this`currentFileIndex, this`currentSurah
      ensures old(currentAudioFiles) == [] ==>
                voice == old(voice) && currentFileIndex == old(currentFileIndex) && currentSurah == old(currentSurah)
      ensures currentAudioFiles != [] ==>
                currentFileIndex < |currentAudioFiles|
                && currentFileIndex == (if isShuffleEnabled then pick
                                        else (old(currentFileIndex) + 1) % |currentAudioFiles|)
                && currentSurah == SurahFromFilename(currentAudioFiles[currentFileIndex], currentFileIndex)
                && (voice.Some? ==> !voice.value.playing)
    {
      if currentAudioFiles == [] {
        return;
      }
      StopVoiceIfPlaying();
      if isShuffleEnabled {
        currentFileIndex := pick;
      } else {
        currentFileIndex := (currentFileIndex + 1) % |currentAudioFiles|;
      }
      UpdateCurrentSurah();
    }

    /** `skip_to_previous`: as `skip_to_next`, one track back with wrap-around. */
    method SkipToPrevious(pick: nat)
      requires currentAudioFiles != [] ==> pick < |currentAudioFiles|
      modifies this`voice, this`currentFileIndex, this`currentSurah
      ensures old(currentAudioFiles) == [] ==>
                voice == old(voice) && currentFileIndex == old(currentFileIndex) && currentSurah == old(currentSurah)
      ensures currentAudioFiles != [] ==>
                currentFileIndex < |currentAudioFiles|
                && currentFileIndex == (if isShuffleEnabled then pick
                                        else (old(currentFileIndex) - 1) % |currentAudioFiles|)
                && currentSurah == SurahFromFilename(currentAudioFiles[currentFileIndex], currentFileIndex)
                && (voice.Some? ==> !voice.value.playing)
    {
      if currentAudioFiles == [] {
        return;
      }
      StopVoiceIfPlaying();
      if isShuffleEnabled {
        currentFileIndex := pick;
      } else {
        currentFileIndex := (currentFileIndex - 1) % |currentAudioFiles|;
      }
      UpdateCurrentSurah();
    }

    /** `voice_client.stop()` when it plays. */
    method StopVoiceIfPlaying()
      modifies this`voice
      ensures voice == if old(voice).Some? && old(voice).value.playing
                       then Some(old(voice).value.(playing := false, paused := false))
                       else old(voice)
    {
      if voice.Some? && voice.value.playing {
        voice := Some(voice.value.(playing := false, paused := false));
      }
    }

    /**
     * `jump_to_surah(n)`: nothing for an invalid number or a folder
     * without `NNN.mp3`; otherwise play from that file's start, with the
     * jump flag set so the loop does not move past it.
     */
    method JumpToSurah(n: int)
      modifies this`voice, this`currentFileIndex, this`currentSurah, this`currentPosition, this`jumpOccurred
      ensures !ValidSurahNumber(n) || SurahFileName(n) !in currentAudioFiles ==>
                voice == old(voice) && currentFileIndex == old(currentFileIndex) && currentSurah == old(currentSurah)
                && currentPosition == old(currentPosition) && jumpOccurred == old(jumpOccurred)
      ensures ValidSurahNumber(n) && SurahFileName(n) in currentAudioFiles ==>
                currentFileIndex < |currentAudioFiles| && currentAudioFiles[currentFileIndex] == SurahFileName(n)
                && (forall j :: 0 <= j < currentFileIndex ==> currentAudioFiles[j] != SurahFileName(n))
                && currentSurah == n && currentPosition == 0.0 && jumpOccurred
                && (voice.Some? ==> !voice.value.playing)
    {
      if !(1 <= n <= 114) {
        return;
      }
      var target := FindTrack(currentAudioFiles, SurahFileName(n));
      if target.None? {
        return;
      }
      StopVoiceIfPlaying();
      currentFileIndex := target.value;
      currentSurah := n;
      currentPosition := 0.0;
      jumpOccurred := true;
    }

    /**
     * `switch_reciter(name)`: an unknown reciter changes nothing;
     * otherwise playback stops and the new folder is loaded and played, or,
     * when it has no files, the old reciter and its folder come back.
     */
    method SwitchReciter(name: string, newListing: Option<seq<string>>, oldListing: Option<seq<string>>)
      modifies this`currentReciter, this`currentAudioFiles, this`currentFileIndex, this`isPlaying,
               this`isPaused, this`playbackTask, this`savedStates, this`voice
      ensures name !in availableReciters ==>
                currentReciter == old(currentReciter) && currentAudioFiles == old(currentAudioFiles)
                && isPlaying == old(isPlaying) && playbackTask == old(playbackTask)
      ensures name in availableReciters ==> !isPlaying && !isPaused
      ensures name in availableReciters && newListing.Some? && newListing.value != [] ==>
                currentReciter == name && currentAudioFiles == newListing.value
                && (old(voice).Some? && old(voice).value.connected ==> playbackTask == Some(true))
      ensures name in availableReciters && !(newListing.Some? && newListing.value != []) ==>
                currentReciter == old(currentReciter) && playbackTask.None?
                && (oldListing.Some? ==> currentAudioFiles == oldListing.value)
    {
      if name !in availableReciters {
        return;
      }
      StopPlayback();
      var previous := currentReciter;
      currentReciter := name;
      var loaded := LoadAudioFiles(newListing);
      if loaded {
        var _ := StartPlayback(true, newListing);
      } else {
        currentReciter := previous;
        var _ := LoadAudioFiles(oldListing);
      }
    }

    method ToggleLoop()
      modifies this`isLoopEnabled
      ensures isLoopEnabled == !old(isLoopEnabled)
    {
      isLoopEnabled := !isLoopEnabled;
    }

    method ToggleShuffle()
      modifies this`isShuffleEnabled
      ensures isShuffleEnabled == !old(isShuffleEnabled)
    {
      isShuffleEnabled := !isShuffleEnabled;
    }

    /**
     * The start of `_playback_loop(resume_position)`: resume only a
     * positive position; with rich presence and a known duration, a track
     * within 10 s of its end is skipped (saved as not playing at position
     * 0) and otherwise the position is capped at the duration.
     */
    method StartPlaybackLoop(resumePosition: bool, duration: real) returns (shouldResume: bool)
      modifies this`currentPosition, this`currentFileIndex, this`savedStates
      ensures var checked := resumePosition && old(currentPosition) > 0.0 && hasRichPresence
                             && old(currentFileIndex) < |currentAudioFiles|
                             && currentAudioFiles[old(currentFileIndex)] != "" && duration > 0.0;
              (!checked ==> shouldResume == (resumePosition && old(currentPosition) > 0.0)
                            && currentPosition == old(currentPosition) && currentFileIndex == old(currentFileIndex)
                            && savedStates == old(savedStates))
              && (checked && old(currentPosition) >= duration - 10.0 ==>
                    !shouldResume && currentPosition == 0.0
                    && currentFileIndex == (if old(currentFileIndex) + 1 >= |currentAudioFiles| then 0
                                            else old(currentFileIndex) + 1)
                    && savedStates == old(savedStates)
                         + [SavedPlayback(currentSurah, 0.0, currentReciter, false, isLoopEnabled, isShuffleEnabled)])
              && (checked && old(currentPosition) < duration - 10.0 ==>
                    shouldResume && currentFileIndex == old(currentFileIndex) && savedStates == old(savedStates)
                    && currentPosition == (if old(currentPosition) < duration then old(currentPosition) else duration))
    {
      shouldResume := resumePosition && currentPosition > 0.0;
      if shouldResume && hasRichPresence && currentFileIndex < |currentAudioFiles|
         && currentAudioFiles[currentFileIndex] != "" && duration > 0.0 {
        if currentPosition >= duration - 10.0 {
          shouldResume := false;
          currentPosition := 0.0;
          currentFileIndex := currentFileIndex + 1;
          if currentFileIndex >= |currentAudioFiles| {
            currentFileIndex := 0;
          }
          savedStates := savedStates + [SavedPlayback(currentSurah, 0.0, currentReciter, false,
                                                      isLoopEnabled, isShuffleEnabled)];
        } else {
          currentPosition := if currentPosition < duration then currentPosition else duration;
        }
      }
    }

    /**
     * The head of a `_playback_loop` iteration: stop without a connected
     * voice client, without files, or past the last file when not
     * looping (looping starts over); then follow the surah of the file.
     */
    method PrepareTrack() returns (continues: bool)
      modifies this`currentFileIndex, this`currentSurah
      ensures !continues <==> (voice.None? || !voice.value.connected || currentAudioFiles == []
                               || (old(currentFileIndex) >= |currentAudioFiles| && !isLoopEnabled))
      ensures !continues ==> currentFileIndex == old(currentFileIndex)
      ensures continues ==>
                currentFileIndex == (if old(currentFileIndex) >= |currentAudioFiles| then 0 else old(currentFileIndex))
                && currentFileIndex < |currentAudioFiles|
                && currentSurah == SurahFromFilename(currentAudioFiles[currentFileIndex], currentFileIndex)
    {
      if voice.None? || !voice.value.connected || currentAudioFiles == [] {
        return false;
      }
      if currentFileIndex >= |currentAudioFiles| {
        if isLoopEnabled {
          currentFileIndex := 0;
        } else {
          return false;
        }
      }
      UpdateCurrentSurah();
      continues := true;
    }

    /**
     * The body of a `_playback_loop` iteration for the current file. A
     * successful rich-presence update for a valid surah clears the resume
     * request; a remaining request for a positive position seeks as
     * `SeekStep` says and is used up. When `played` (the voice client
     * accepted the source at clock `now`) the manager plays. Afterwards
     * the position and start time are reset and the index advances.
     */
    method PlayTrack(shouldResume: bool, duration: real, now: real, presenceUpdated: bool, played: bool, pick: nat)
      returns (resumeAfter: bool, seek: Option<real>)
      requires currentFileIndex < |currentAudioFiles| && pick < |currentAudioFiles|
      modifies this`currentFileIndex, this`currentPosition, this`jumpOccurred,
               this`isPlaying, this`isPaused, this`trackStartTime
      ensures var resume := shouldResume && !(ValidSurahNumber(currentSurah) && hasRichPresence && presenceUpdated);
              seek == SeekStep(resume, old(currentPosition), duration).0
              && resumeAfter == (resume && !(old(currentPosition) > 0.0))
      ensures (currentFileIndex, jumpOccurred)
              == AdvanceAfterTrack(old(currentFileIndex), |currentAudioFiles|, isLoopEnabled, old(jumpOccurred),
                                   isShuffleEnabled, pick)
      ensures currentFileIndex < |currentAudioFiles|
      ensures currentPosition == 0.0 && trackStartTime.None?
      ensures played ==> isPlaying && !isPaused
      ensures !played ==> isPlaying == old(isPlaying) && isPaused == old(isPaused)
    {
      resumeAfter, seek := ResumeStep(shouldResume, duration, presenceUpdated);
      if played {
        isPlaying := true;
        isPaused := false;
        trackStartTime := Some(now - currentPosition);
      }
      currentPosition := 0.0;
      trackStartTime := None;
      AdvanceIndex(pick);
    }

    /** The end of a `_playback_loop` iteration: stay, clear the jump flag, shuffle, or step on. */
    method AdvanceIndex(pick: nat)
      requires currentFileIndex < |currentAudioFiles| && pick < |currentAudioFiles|
      modifies this`currentFileIndex, this`jumpOccurred
      ensures (currentFileIndex, jumpOccurred)
              == AdvanceAfterTrack(old(currentFileIndex), |currentAudioFiles|, isLoopEnabled, old(jumpOccurred),
                                   isShuffleEnabled, pick)
      ensures currentFileIndex < |currentAudioFiles|
    {
      AdvanceStaysInRange(currentFileIndex, |currentAudioFiles|, isLoopEnabled, jumpOccurred, isShuffleEnabled, pick);
      var next := AdvanceAfterTrack(currentFileIndex, |currentAudioFiles|, isLoopEnabled, jumpOccurred,
                                    isShuffleEnabled, pick);
      currentFileIndex, jumpOccurred := next.0, next.1;
    }

    /**
     * The resume decision of a `_playback_loop` iteration: a successful
     * rich-presence update for a valid surah clears the request; a
     * remaining request for a positive position is used up by the seek
     * (or by the reset of a position past the track's end).
     */
    method ResumeStep(shouldResume: bool, duration: real, presenceUpdated: bool)
      returns (resumeAfter: bool, seek: Option<real>)
      modifies this`currentPosition
      ensures var resume := shouldResume && !(ValidSurahNumber(currentSurah) && hasRichPresence && presenceUpdated);
              seek == SeekStep(resume, old(currentPosition), duration).0
              && resumeAfter == (resume && !(old(currentPosition) > 0.0))
              && currentPosition == SeekStep(resume, old(currentPosition), duration).1
    {
      resumeAfter := shouldResume;
      if ValidSurahNumber(currentSurah) && hasRichPresence && presenceUpdated {
        resumeAfter := false;
      }
      if resumeAfter && currentPosition > 0.0 {
        var step := SeekStep(resumeAfter, currentPosition, duration);
        seek, currentPosition := step.0, step.1;
        resumeAfter := false;
      } else {
        seek := None;
      }
    }

    /** One iteration of `_playback_loop`: `continues` is false where the loop breaks. */
    method PlaybackIteration(shouldResume: bool, duration: real, now: real,
                             presenceUpdated: bool, played: bool, pick: nat)
      returns (continues: bool, resumeAfter: bool, seek: Option<real>)
      requires currentAudioFiles != [] ==> pick < |currentAudioFiles|
      modifies this`currentFileIndex, this`currentSurah, this`currentPosition, this`jumpOccurred,
               this`isPlaying, this`isPaused, this`trackStartTime
      ensures !continues <==> (voice.None? || !voice.value.connected || currentAudioFiles == []
                               || (old(currentFileIndex) >= |currentAudioFiles| && !isLoopEnabled))
      ensures !continues ==> currentFileIndex == old(currentFileIndex) && currentPosition == old(currentPosition)
                             && resumeAfter == shouldResume && seek.None?
      ensures continues ==>
                var start := if old(currentFileIndex) >= |currentAudioFiles| then 0 else old(currentFileIndex);
                var resume := shouldResume && !(hasRichPresence && presenceUpdated);
                currentSurah == SurahFromFilename(currentAudioFiles[start], start)
                && seek == SeekStep(resume, old(currentPosition), duration).0
                && resumeAfter == (resume && !(old(currentPosition) > 0.0))
                && (currentFileIndex, jumpOccurred)
                   == AdvanceAfterTrack(start, |currentAudioFiles|, isLoopEnabled, old(jumpOccurred),
                                        isShuffleEnabled, pick)
                && currentFileIndex < |currentAudioFiles|
                && currentPosition == 0.0 && trackStartTime.None?
                && (played ==> isPlaying && !isPaused)
    {
      continues := PrepareTrack();
      if !continues {
        return false, shouldResume, None;
      }
      resumeAfter, seek := PlayTrack(shouldResume, duration, now, presenceUpdated, played, pick);
    }

    /** `get_playback_status()` with the duration of the current file. */
    function GetPlaybackStatus(totalTime: real): (s: PlaybackStatus)
      reads this
      ensures s.currentTrack == 0 <==> currentAudioFiles == []
      ensures currentFileIndex < |currentAudioFiles| ==> 1 <= s.currentTrack <= s.totalTracks
      ensures s.totalTracks == |currentAudioFiles| && s.currentTime == currentPosition
    {
      PlaybackStatus(isPlaying, isPaused, currentSurah, currentReciter, isLoopEnabled, isShuffleEnabled,
                     if currentAudioFiles != [] then currentFileIndex + 1 else 0,
                     |currentAudioFiles|, availableReciters, currentPosition, totalTime)
    }
  }
}
