/**
 * Session file names of the recorder (`recording_drive-N.mp4`,
 * `actions_drive-N.json`, `audio_drive-N.wav`) and the scan of an existing
 * output folder that resumes the numbering. The folder listing is an input;
 * `os.path.exists` failing is a `None` listing.
 */
module RecordingNames {
  import opened Common

  const VideoPrefix := "recording_drive-"
  const VideoSuffix := ".mp4"
  const ActionsPrefix := "actions_drive-"
  const ActionsSuffix := ".json"
  const AudioPrefix := "audio_drive-"
  const AudioSuffix := ".wav"

  // ---------------------------------------------------------------------
  // Python's int(text) on ASCII text, and f'{n}' for an int
  // ---------------------------------------------------------------------

  /** The ASCII characters `str.strip()` and `int()` treat as white space. */
  predicate IsSpace(c: char) {
    9 <= c as int <= 13 || 28 <= c as int <= 32
  }

  predicate IsDigit(c: char) {
    '0' <= c <= '9'
  }

  function TrimStart(s: string): string {
    if |s| > 0 && IsSpace(s[0]) then TrimStart(s[1..]) else s
  }

  function TrimEnd(s: string): string {
    if |s| > 0 && IsSpace(s[|s| - 1]) then TrimEnd(s[..|s| - 1]) else s
  }

  /** `s.strip()` */
  function Strip(s: string): string {
    TrimEnd(TrimStart(s))
  }

  /** The digits of a decimal literal: digits, with single `_` only between two digits. */
  predicate IsDigitRun(s: string) {
    && |s| > 0 && IsDigit(s[0]) && IsDigit(s[|s| - 1])
    && (forall i :: 0 <= i < |s| ==> IsDigit(s[i]) || s[i] == '_')
    && (forall i :: 0 <= i < |s| - 1 && s[i] == '_' ==> s[i + 1] != '_')
  }

  /** A non-empty text of decimal digits only. */
  predicate AllDigits(s: string) {
    |s| > 0 && forall i :: 0 <= i < |s| ==> IsDigit(s[i])
  }

  function DigitValue(c: char): nat {
    if IsDigit(c) then c as int - '0' as int else 0
  }

  /** The value of a digit run, underscores skipped. */
  function DigitsValue(s: string): nat {
    if s == [] then 0
    else if s[|s| - 1] == '_' then DigitsValue(s[..|s| - 1])
    else 10 * DigitsValue(s[..|s| - 1]) + DigitValue(s[|s| - 1])
  }

  /**
   * `int(s)` for ASCII `s`; `None` where Python raises ValueError. Only
   * digits, signs and underscores are accepted once the white space around
   * the text is stripped, a negative value needs a leading `-`, and a plain
   * run of digits (with or without a `-`) reads as its decimal value.
   */
  function ParseInt(s: string): (r: Option<int>)
    ensures r.Some? ==> |Strip(s)| > 0
    ensures r.Some? ==> forall i :: 0 <= i < |Strip(s)| ==> IsDigit(Strip(s)[i]) || Strip(s)[i] in "+-_"
    ensures r.Some? && r.value < 0 ==> Strip(s)[0] == '-'
    ensures AllDigits(Strip(s)) ==> r == Some(DigitsValue(Strip(s)))
    ensures |Strip(s)| > 0 && Strip(s)[0] == '-' && AllDigits(Strip(s)[1..]) ==> r == Some(-(DigitsValue(Strip(s)[1..]) as int))
  {
    var t := Strip(s);
    if |t| > 0 && t[0] == '-' && IsDigitRun(t[1..]) then Some(-(DigitsValue(t[1..]) as int))
    else if |t| > 0 && t[0] == '+' && IsDigitRun(t[1..]) then Some(DigitsValue(t[1..]))
    else if IsDigitRun(t) then Some(DigitsValue(t))
    else None
  }

  function DigitChar(d: nat): char
    requires d < 10
  {
    ('0' as int + d) as char
  }

  function NatToString(n: nat): string {
    if n < 10 then [DigitChar(n)] else NatToString(n / 10) + [DigitChar(n % 10)]
  }

  /** `str(n)` */
  function IntToString(n: int): string {
    if n < 0 then "-" + NatToString(-n) else NatToString(n)
  }

  lemma {:induction false} NatToStringDigits(n: nat)
    ensures |NatToString(n)| > 0
    ensures forall i :: 0 <= i < |NatToString(n)| ==> IsDigit(NatToString(n)[i])
    ensures DigitsValue(NatToString(n)) == n
  {
    if n >= 10 {
      NatToStringDigits(n / 10);
      var s := NatToString(n);
      assert s[..|s| - 1] == NatToString(n / 10);
    }
  }

  /** Every character of `str(n)` is a digit or the minus sign. */
  lemma IntToStringChars(n: int)
    ensures |IntToString(n)| > 0
    ensures forall i :: 0 <= i < |IntToString(n)| ==> IsDigit(IntToString(n)[i]) || IntToString(n)[i] == '-'
  {
    NatToStringDigits(if n < 0 then -n else n);
  }

  /** `int(str(n)) == n` for every integer. */
  lemma ParseIntOfIntToString(n: int)
    ensures ParseInt(IntToString(n)) == Some(n)
  {
    var m := if n < 0 then -n else n;
    NatToStringDigits(m);
    var s := IntToString(n);
    assert TrimStart(s) == s;
    assert Strip(s) == s;
    if n < 0 {
      assert s[1..] == NatToString(m);
    }
  }

  /** What `int` accepts besides plain digits: white space around the text, a sign, and single underscores between digits. */
  lemma ParseIntAccepts()
    ensures ParseInt(" 7\n") == Some(7)
    ensures ParseInt("07") == Some(7)
    ensures ParseInt("0_1") == Some(1)
  {
    assert Strip(" 7\n") == "7" by {
      assert TrimStart(" 7\n") == "7\n" && "7\n"[..1] == "7";
    }
    assert Strip("07") == "07" && "07"[..1] == "0";
    assert Strip("0_1") == "0_1" && DigitsValue("0_1") == 1 by {
      assert "0_1"[..2] == "0_" && "0_"[..1] == "0";
    }
  }

  /** A leading sign is read as the sign of the value. */
  lemma ParseIntSigned()
    ensures ParseInt("+4") == Some(4)
    ensures ParseInt("-3") == Some(-3)
  {
    assert Strip("+4") == "+4" && "+4"[1..] == "4";
    assert Strip("-3") == "-3" && "-3"[1..] == "3";
  }

  /** Doubled or leading underscores, a decimal point, a letter and the empty text are errors. */
  lemma ParseIntRejects()
    ensures ParseInt("1__0") == None
    ensures ParseInt("1.5") == None
    ensures ParseInt("") == None && ParseInt("_1") == None && ParseInt("x") == None
  {
    assert Strip("x") == "x";
    assert Strip("1__0") == "1__0" && !IsDigitRun("1__0") by { assert "1__0"[1] == '_' && "1__0"[2] == '_'; }
    assert Strip("1.5") == "1.5" && !IsDigitRun("1.5") by { assert "1.5"[1] == '.'; }
    assert Strip("_1") == "_1";
  }

  // ---------------------------------------------------------------------
  // Session file names
  // ---------------------------------------------------------------------

  function VideoName(n: int): string { VideoPrefix + IntToString(n) + VideoSuffix }
  function ActionsName(n: int): string { ActionsPrefix + IntToString(n) + ActionsSuffix }
  function AudioName(n: int): string { AudioPrefix + IntToString(n) + AudioSuffix }

  /** The video prefix and suffix cannot overlap: no character of the prefix's tail is the suffix's `.`. */
  lemma PrefixAndSuffixApart(name: string)
    ensures StartsWith(name, VideoPrefix) && EndsWith(name, VideoSuffix) ==> |name| >= |VideoPrefix| + |VideoSuffix|
  {
    if StartsWith(name, VideoPrefix) && EndsWith(name, VideoSuffix) {
      assert name[|name| - |VideoSuffix|] == name[|name| - |VideoSuffix|..][0] == '.';
      assert forall k :: |VideoPrefix| - |VideoSuffix| <= k < |VideoPrefix| ==> name[k] == name[..|VideoPrefix|][k] != '.';
    }
  }

  /** The listing filter: names that start with the video prefix and end in `.mp4`. */
  predicate IsVideoName(name: string): (b: bool)
    ensures b ==> |name| >= |VideoPrefix| + |VideoSuffix|
  {
    PrefixAndSuffixApart(name);
    StartsWith(name, VideoPrefix) && EndsWith(name, VideoSuffix)
  }

  /**
   * `int(name.split('recording_drive-')[1].split('.mp4')[0])`; `None` where
   * the indexing or the conversion raises.
   */
  function NumberField(name: string): (r: Option<int>)
    ensures r.Some? ==> Contains(name, VideoPrefix)
  {
    match SecondField(name, VideoPrefix)
    case None => None
    case Some(middle) => ParseInt(FieldBefore(middle, VideoSuffix))
  }

  /** The session number of a listed name; `None` for a name the filter drops or one that does not parse. */
  function RecordingNumber(name: string): (r: Option<int>)
    ensures r.Some? ==> IsVideoName(name) && Contains(name, VideoPrefix)
  {
    if IsVideoName(name) then NumberField(name) else None
  }

  /** The number written into a video name is the number read back from it. */
  lemma RecordingNumberOfVideoName(n: int)
    ensures IsVideoName(VideoName(n))
    ensures RecordingNumber(VideoName(n)) == Some(n)
  {
    var d := IntToString(n);
    var name := VideoName(n);
    IntToStringChars(n);
    assert name[..|VideoPrefix|] == VideoPrefix;
    assert name[|name| - |VideoSuffix|..] == VideoSuffix;
    assert name[0..|VideoPrefix|] == VideoPrefix;
    FoundAt(name, VideoPrefix, 0);
    var rest := d + VideoSuffix;
    assert name[|VideoPrefix|..] == rest;
    assert forall i :: 0 <= i < |rest| ==> rest[i] != VideoPrefix[0];
    NotFoundWithout(rest, VideoPrefix, 0);
    assert rest[|d|..|d| + |VideoSuffix|] == VideoSuffix;
    FoundAt(rest, VideoSuffix, |d|);
    assert rest[..|d|] == d;
    ParseIntOfIntToString(n);
  }

  /**
   * The number field is the text between the prefix and the first `.mp4`,
   * whatever follows it, a second prefix included.
   */
  lemma NumberFieldBetween(d: string, rest: string)
    requires forall i :: 0 <= i < |d| ==> d[i] != 'r' && d[i] != '.'
    ensures NumberField(VideoPrefix + d + VideoSuffix + rest) == ParseInt(d)
  {
    var name := VideoPrefix + d + VideoSuffix + rest;
    assert name[0..|VideoPrefix|] == VideoPrefix;
    FoundAt(name, VideoPrefix, 0);
    var head := d + VideoSuffix;
    assert name[|VideoPrefix|..] == head + rest;
    assert forall i :: 0 <= i < |head| ==> head[i] != VideoPrefix[0];
    HeadBeforeSeparator(head, rest, VideoPrefix);
    FieldOfHead(d, FieldBefore(head + rest, VideoPrefix));
  }

  /** A text starting with `d` + `.mp4`, `d` without `.`, has `d` before its first `.mp4`. */
  lemma FieldOfHead(d: string, middle: string)
    requires forall i :: 0 <= i < |d| ==> d[i] != '.'
    requires |middle| >= |d| + |VideoSuffix| && middle[..|d| + |VideoSuffix|] == d + VideoSuffix
    ensures FieldBefore(middle, VideoSuffix) == d
  {
    var head := d + VideoSuffix;
    assert middle[|d|..|d| + |VideoSuffix|] == head[|d|..] == VideoSuffix;
    assert forall i :: 0 <= i < |d| ==> middle[i] == head[i] == d[i];
    FoundAt(middle, VideoSuffix, |d|);
    assert middle[..|d|] == head[..|d|] == d;
  }

  /**
   * Names the filter keeps but the writer never makes: the session number
   * is `int` of the text up to the first `.mp4`, so `recording_drive-07.mp4`
   * is session 7, `recording_drive-3.mp4.mp4` is session 3, and
   * `recording_drive-x.mp4` is skipped.
   */
  lemma RecordingNumberBetween(d: string, rest: string)
    requires forall i :: 0 <= i < |d| ==> d[i] != 'r' && d[i] != '.'
    requires rest == [] || EndsWith(rest, VideoSuffix)
    ensures IsVideoName(VideoPrefix + d + VideoSuffix + rest)
    ensures RecordingNumber(VideoPrefix + d + VideoSuffix + rest) == ParseInt(d)
  {
    var name := VideoPrefix + d + VideoSuffix + rest;
    assert name[..|VideoPrefix|] == VideoPrefix;
    if rest == [] {
      assert name[|name| - |VideoSuffix|..] == VideoSuffix;
    } else {
      assert name[|name| - |VideoSuffix|..] == rest[|rest| - |VideoSuffix|..];
    }
    NumberFieldBetween(d, rest);
  }

  /** `str` is injective, so a number is recovered from its file name. */
  lemma NameInjective(prefix: string, suffix: string, m: int, n: int)
    requires prefix + IntToString(m) + suffix == prefix + IntToString(n) + suffix
    ensures m == n
  {
    var a := prefix + IntToString(m) + suffix;
    var b := prefix + IntToString(n) + suffix;
    assert a[|prefix|..|a| - |suffix|] == IntToString(m);
    assert b[|prefix|..|b| - |suffix|] == IntToString(n);
    ParseIntOfIntToString(m);
    ParseIntOfIntToString(n);
  }

  /**
   * The three files of one session have different names, and no file of one
   * session has the name of any file of another session.
   */
  lemma {:induction false} SessionFileNamesNeverCollide(m: int, n: int)
    ensures VideoName(m) != ActionsName(n) && VideoName(m) != AudioName(n) && ActionsName(m) != AudioName(n)
    ensures m != n ==> VideoName(m) != VideoName(n) && ActionsName(m) != ActionsName(n) && AudioName(m) != AudioName(n)
  {
    assert VideoName(m)[0] == 'r' && ActionsName(n)[0] == 'a' && AudioName(n)[0] == 'a';
    assert ActionsName(m)[1] == 'c' && AudioName(n)[1] == 'u';
    if m != n {
      if VideoName(m) == VideoName(n) { NameInjective(VideoPrefix, VideoSuffix, m, n); }
      if ActionsName(m) == ActionsName(n) { NameInjective(ActionsPrefix, ActionsSuffix, m, n); }
      if AudioName(m) == AudioName(n) { NameInjective(AudioPrefix, AudioSuffix, m, n); }
    }
  }

  // ---------------------------------------------------------------------
  // Resuming the numbering from an existing folder
  // ---------------------------------------------------------------------

  /** No name of the listing carries a session number. */
  predicate NoRecordingNumber(names: seq<string>) {
    forall j :: 0 <= j < |names| ==> RecordingNumber(names[j]).None?
  }

  /** `m` is the largest session number carried by a name of the listing. */
  predicate IsLatestRecording(names: seq<string>, m: int) {
    && (exists j :: 0 <= j < |names| && RecordingNumber(names[j]) == Some(m))
    && (forall j :: 0 <= j < |names| && RecordingNumber(names[j]).Some? ==> RecordingNumber(names[j]).value <= m)
  }

  /** `max(numbers)` */
  function MaxOf(xs: seq<int>): (m: int)
    requires |xs| > 0
    ensures m in xs
    ensures forall x :: x in xs ==> x <= m
  {
    if |xs| == 1 then xs[0]
    else
      assert xs == [xs[0]] + xs[1..];
      var rest := MaxOf(xs[1..]);
      if xs[0] >= rest then xs[0] else rest
  }

  /** Every number collected from the listing is carried by one of its names, and every carried number was collected. */
  predicate CollectedFrom(listing: seq<string>, i: int, numbers: seq<int>)
    requires 0 <= i <= |listing|
  {
    && (forall x :: x in numbers ==> exists j :: 0 <= j < i && RecordingNumber(listing[j]) == Some(x))
    && (forall j :: 0 <= j < i && RecordingNumber(listing[j]).Some? ==> RecordingNumber(listing[j]).value in numbers)
  }

  lemma CollectedStep(listing: seq<string>, i: int, numbers: seq<int>, num: Option<int>)
    requires 0 <= i < |listing| && CollectedFrom(listing, i, numbers)
    requires RecordingNumber(listing[i]) == num
    ensures CollectedFrom(listing, i + 1, if num.Some? then numbers + [num.value] else numbers)
  {
    var next := if num.Some? then numbers + [num.value] else numbers;
    forall x | x in next
      ensures exists j :: 0 <= j < i + 1 && RecordingNumber(listing[j]) == Some(x)
    {
      if x !in numbers {
        assert RecordingNumber(listing[i]) == Some(x);
      }
    }
  }

  lemma LatestOfCollected(listing: seq<string>, numbers: seq<int>)
    requires CollectedFrom(listing, |listing|, numbers)
    ensures |numbers| == 0 <==> NoRecordingNumber(listing)
    ensures |numbers| > 0 ==> IsLatestRecording(listing, MaxOf(numbers))
  {
    if |numbers| > 0 {
      assert numbers[0] in numbers;
      var m := MaxOf(numbers);
      assert m in numbers;
    }
  }

  /**
   * The scan of `_load_existing_recordings`: the largest number parsed from
   * the video names of the listing, names whose number does not parse
   * skipped, and `None` when no name yields a number. The filter of the list
   * comprehension and the parsing loop are done in one pass.
   */
  method ScanRecordings(listing: seq<string>) returns (found: Option<int>)
    ensures found.None? <==> NoRecordingNumber(listing)
    ensures found.Some? ==> IsLatestRecording(listing, found.value)
  {
    var numbers: seq<int> := [];
    for i := 0 to |listing|
      invariant CollectedFrom(listing, i, numbers)
    {
      var filename := listing[i];
      var num: Option<int> := None;
      if StartsWith(filename, VideoPrefix) && EndsWith(filename, VideoSuffix) {
        num := NumberField(filename);
      }
      assert RecordingNumber(filename) == num;
      CollectedStep(listing, i, numbers, num);
      if num.Some? {
        numbers := numbers + [num.value];
      }
    }
    LatestOfCollected(listing, numbers);
    if |numbers| > 0 {
      found := Some(MaxOf(numbers));
    } else {
      found := None;
    }
  }

  /**
   * With the video files of the folder exactly `recording_drive-1.mp4` to
   * `recording_drive-k.mp4` (other files allowed), the scan resumes at `k`.
   */
  lemma ResumeAfterConsecutiveSessions(names: seq<string>, k: int)
    requires k >= 1 && VideoName(k) in names
    requires forall j :: 0 <= j < |names| && IsVideoName(names[j]) ==>
               exists i :: 1 <= i <= k && names[j] == VideoName(i)
    ensures !NoRecordingNumber(names)
    ensures IsLatestRecording(names, k)
  {
    RecordingNumberOfVideoName(k);
    var jk :| 0 <= jk < |names| && names[jk] == VideoName(k);
    assert RecordingNumber(names[jk]) == Some(k);
    forall j | 0 <= j < |names| && RecordingNumber(names[j]).Some?
      ensures RecordingNumber(names[j]).value <= k
    {
      var i :| 1 <= i <= k && names[j] == VideoName(i);
      RecordingNumberOfVideoName(i);
    }
  }
}
