/**
  Broken-down timestamps and the few Go time layouts the system prints:
  "2006", "01", "2006-01-02_15-04-05" (artifact names), "2006-01-02T15:04:05Z"
  (query parameters), and `time.Duration.String` for whole seconds.
  Instants are Unix seconds; calendar conversion is not modelled.
 */
module TimeFormat {
  import opened Decimal

  datatype Timestamp = Timestamp(year: int, month: int, day: int, hour: int, minute: int, second: int)

  /** The field ranges every broken-down `time.Time` satisfies. */
  predicate ValidTimestamp(t: Timestamp) {
    && 1 <= t.month <= 12
    && 1 <= t.day <= 31
    && 0 <= t.hour < 24
    && 0 <= t.minute < 60
    && 0 <= t.second < 60
  }

  /** Go's zero `time.Time`: January 1 of year 1, 00:00:00 UTC. */
  const ZeroTime: Timestamp := Timestamp(1, 1, 1, 0, 0, 0)

  /** The zero `time.Time` as Unix seconds. */
  const ZeroInstant: int := -62135596800

  predicate IsZero(t: Timestamp) {
    t == ZeroTime
  }

  /** Go's `appendInt(b, x, width)`: a minus sign for negative values, then the magnitude zero-padded to `width`. */
  function FormatInt(x: int, width: nat): string {
    if x < 0 then "-" + Pad(-x, width) else Pad(x, width)
  }

  /** Characters a layout field can produce: digits and the minus sign. */
  predicate NumericText(s: string) {
    forall i :: 0 <= i < |s| ==> IsDigit(s[i]) || s[i] == '-'
  }

  /** A formatted field is non-empty numeric text; a value that fits is exactly `width` digits and reads back. */
  lemma FormatIntSpec(x: int, width: nat)
    ensures |FormatInt(x, width)| >= 1
    ensures NumericText(FormatInt(x, width))
    ensures 0 <= x && width >= 1 && x < Pow10(width) ==>
              |FormatInt(x, width)| == width && AllDigits(FormatInt(x, width)) && DigitsValue(FormatInt(x, width)) == x
  {
    var n: nat := if x < 0 then -x else x;
    PadSpec(n, width);
    if 0 <= x && width >= 1 && x < Pow10(width) {
      NatToStringLength(n, width);
    }
  }

  /** Layout "2006". */
  function YearText(t: Timestamp): string {
    FormatInt(t.year, 4)
  }

  /** Layout "01". */
  function MonthText(t: Timestamp): string {
    FormatInt(t.month, 2)
  }

  /** Layout "2006-01-02_15-04-05", used in artifact file names. */
  function FileStamp(t: Timestamp): string {
    FormatInt(t.year, 4) + "-" + FormatInt(t.month, 2) + "-" + FormatInt(t.day, 2) + "_"
    + FormatInt(t.hour, 2) + "-" + FormatInt(t.minute, 2) + "-" + FormatInt(t.second, 2)
  }

  /** Layout "2006-01-02T15:04:05Z"; the trailing Z is a literal character of the layout. */
  function IsoStamp(t: Timestamp): string {
    FormatInt(t.year, 4) + "-" + FormatInt(t.month, 2) + "-" + FormatInt(t.day, 2) + "T"
    + FormatInt(t.hour, 2) + ":" + FormatInt(t.minute, 2) + ":" + FormatInt(t.second, 2) + "Z"
  }

  /** A non-negative value below 10^width is printed in exactly `width` characters. */
  lemma FieldWidth(x: int, width: nat)
    requires 0 <= x && width >= 1 && x < Pow10(width)
    ensures |FormatInt(x, width)| == width
  {
    NatToStringLength(x, width);
  }

  /** For a year in 0..9999 and valid fields, the file stamp is the fixed 19-character form yyyy-mm-dd_HH-MM-SS. */
  lemma FileStampShape(t: Timestamp)
    requires ValidTimestamp(t) && 0 <= t.year <= 9999
    ensures |FileStamp(t)| == 19
    ensures FileStamp(t)[..4] == YearText(t) && FileStamp(t)[5..7] == MonthText(t)
  {
    FieldWidths(t);
    var head := YearText(t) + "-" + MonthText(t);
    var s := head;
    PrefixAppend(head, s, "-");
    s := s + "-";
    PrefixAppend(head, s, FormatInt(t.day, 2));
    s := s + FormatInt(t.day, 2);
    PrefixAppend(head, s, "_");
    s := s + "_";
    PrefixAppend(head, s, FormatInt(t.hour, 2));
    s := s + FormatInt(t.hour, 2);
    PrefixAppend(head, s, "-");
    s := s + "-";
    PrefixAppend(head, s, FormatInt(t.minute, 2));
    s := s + FormatInt(t.minute, 2);
    PrefixAppend(head, s, "-");
    s := s + "-";
    PrefixAppend(head, s, FormatInt(t.second, 2));
    s := s + FormatInt(t.second, 2);
    assert s == FileStamp(t);
    PrefixSlices(head, s);
    assert head[..4] == YearText(t);
    assert head[5..7] == MonthText(t);
  }

  lemma FieldWidths(t: Timestamp)
    requires ValidTimestamp(t) && 0 <= t.year <= 9999
    ensures |FormatInt(t.year, 4)| == 4 && |FormatInt(t.month, 2)| == 2 && |FormatInt(t.day, 2)| == 2
    ensures |FormatInt(t.hour, 2)| == 2 && |FormatInt(t.minute, 2)| == 2 && |FormatInt(t.second, 2)| == 2
  {
    assert Pow10(4) == 10000 && Pow10(2) == 100;
    FieldWidth(t.year, 4);
    FieldWidth(t.month, 2);
    FieldWidth(t.day, 2);
    FieldWidth(t.hour, 2);
    FieldWidth(t.minute, 2);
    FieldWidth(t.second, 2);
  }

  lemma PrefixAppend(p: string, s: string, b: string)
    requires |p| <= |s| && s[..|p|] == p
    ensures |p| <= |s + b| && (s + b)[..|p|] == p
  {
    assert (s + b)[..|p|] == s[..|p|];
  }

  lemma PrefixSlices(p: string, s: string)
    requires |p| <= |s| && s[..|p|] == p
    ensures forall i, j :: 0 <= i <= j <= |p| ==> s[i..j] == p[i..j]
  {
    forall i, j | 0 <= i <= j <= |p|
      ensures s[i..j] == p[i..j]
    {
      forall k | 0 <= k < j - i
        ensures s[i..j][k] == p[i..j][k]
      {
        assert s[i + k] == s[..|p|][i + k];
      }
    }
  }

  /** Text without a path separator. */
  predicate SlashFree(s: string) {
    forall i :: 0 <= i < |s| ==> s[i] != '/'
  }

  lemma SlashFreeConcat(a: string, b: string)
    requires SlashFree(a) && SlashFree(b)
    ensures SlashFree(a + b)
  {
  }

  lemma FieldSlashFree(x: int, width: nat)
    ensures SlashFree(FormatInt(x, width))
  {
    FormatIntSpec(x, width);
  }

  /** The file stamp contains no path separator. */
  lemma FileStampNumeric(t: Timestamp)
    ensures forall i :: 0 <= i < |FileStamp(t)| ==> FileStamp(t)[i] != '/'
  {
    FieldSlashFree(t.year, 4);
    FieldSlashFree(t.month, 2);
    FieldSlashFree(t.day, 2);
    FieldSlashFree(t.hour, 2);
    FieldSlashFree(t.minute, 2);
    FieldSlashFree(t.second, 2);
    var s := FormatInt(t.year, 4) + "-";
    SlashFreeConcat(FormatInt(t.year, 4), "-");
    SlashFreeConcat(s, FormatInt(t.month, 2));
    s := s + FormatInt(t.month, 2);
    SlashFreeConcat(s, "-");
    s := s + "-";
    SlashFreeConcat(s, FormatInt(t.day, 2));
    s := s + FormatInt(t.day, 2);
    SlashFreeConcat(s, "_");
    s := s + "_";
    SlashFreeConcat(s, FormatInt(t.hour, 2));
    s := s + FormatInt(t.hour, 2);
    SlashFreeConcat(s, "-");
    s := s + "-";
    SlashFreeConcat(s, FormatInt(t.minute, 2));
    s := s + FormatInt(t.minute, 2);
    SlashFreeConcat(s, "-");
    s := s + "-";
    SlashFreeConcat(s, FormatInt(t.second, 2));
    s := s + FormatInt(t.second, 2);
    assert s == FileStamp(t);
  }

  /**
    `time.Duration.String` for a whole number of seconds: "0s", "45s", "1m30s",
    "2h0m5s"; negative durations get a leading minus sign.
   */
  function DurationString(secs: int): (s: string)
    ensures |s| >= 2 && s[|s| - 1] == 's'
  {
    if secs < 0 then "-" + PositiveDuration(-secs) else PositiveDuration(secs)
  }

  function PositiveDuration(u: nat): (s: string)
    ensures |s| >= 2 && s[|s| - 1] == 's'
  {
    var secText := NatToString(u % 60) + "s";
    var minutes := u / 60;
    if minutes == 0 then secText
    else
      var minText := NatToString(minutes % 60) + "m" + secText;
      var hours := minutes / 60;
      if hours == 0 then minText else NatToString(hours) + "h" + minText
  }

  /** The renderings the error-message tests rely on. */
  lemma DurationExamples()
    ensures DurationString(0) == "0s"
    ensures DurationString(30) == "30s"
    ensures DurationString(60) == "1m0s"
    ensures DurationString(3725) == "1h2m5s"
  {
    SecondsOnly(0);
    SecondsOnly(30);
    assert NatToString(3) == "3";
    OneMinute(60);
    HoursExample(3725);
  }

  lemma SecondsOnly(u: nat)
    requires u < 60
    ensures DurationString(u) == NatToString(u) + "s"
  {
  }

  lemma OneMinute(u: nat)
    requires u == 60
    ensures DurationString(u) == "1m0s"
  {
    assert u % 60 == 0 && u / 60 == 1;
    assert NatToString(1) == "1" && NatToString(0) == "0";
  }

  lemma HoursExample(u: nat)
    requires u == 3725
    ensures DurationString(u) == "1h2m5s"
  {
    assert u % 60 == 5 && u / 60 == 62 && 62 % 60 == 2 && 62 / 60 == 1;
    assert NatToString(5) == "5" && NatToString(2) == "2" && NatToString(1) == "1";
  }
}
