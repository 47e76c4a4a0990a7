/**
  Artifact path generation and path validation (pkg/utils): the output
  directory is `<base>/<yyyy>/<mm>` and the artifact is
  `<dir>/<yyyy-mm-dd_HH-MM-SS>_<country>_page<N>.json`, both built with
  `filepath.Join`. The clock is a provider: the real clock (an input here) or a
  mock holding a fixed, settable time.
 */
module FileUtils {
  import opened Wrappers
  import opened Decimal
  import opened TimeFormat
  import opened FilePath

  /** A time provider whose `Now` is a fixed time that tests can change. */
  class MockTimeProvider {
    var fixedTime: Timestamp

    constructor (t: Timestamp)
      ensures fixedTime == t
    {
      fixedTime := t;
    }

    function Now(): Timestamp
      reads this
    {
      fixedTime
    }

    method SetTime(t: Timestamp)
      modifies this
      ensures fixedTime == t
    {
      fixedTime := t;
    }
  }

  /** The two providers: the system clock, or a mock. */
  datatype TimeProvider = RealTime | MockTime(mock: MockTimeProvider)

  /** The artifact file name for a page fetched at time `t`. */
  function FileName(country: string, page: int, t: Timestamp): string {
    FileStamp(t) + "_" + country + "_page" + IntToString(page) + ".json"
  }

  /**
    `GenerateJSONFilePathWithTime`: the output directory joins the base with
    the year and the month; the artifact path joins that directory with the file name.
   */
  function GenerateJSONFilePathWithTime(base: string, country: string, page: int, t: Timestamp): (r: (string, string))
    ensures r.0 != "" && r.1 != ""
  {
    var dir := Join([base, YearText(t), MonthText(t)]);
    assert [base, YearText(t), MonthText(t)][1] != "" by { FormatIntSpec(t.year, 4); }
    var path := Join([dir, FileName(country, page, t)]);
    assert [dir, FileName(country, page, t)][0] != "";
    (dir, path)
  }

  /** Builds the generated paths from the time a provider reports. */
  class FilePathGenerator {
    const timeProvider: TimeProvider

    /** `NewFilePathGenerator`: a missing provider means the system clock. */
    constructor (provider: Option<TimeProvider>)
      ensures timeProvider == (if provider.None? then RealTime else provider.value)
    {
      timeProvider := if provider.None? then RealTime else provider.value;
    }

    /** The provider's current time; `systemNow` is what the system clock reads. */
    function Now(systemNow: Timestamp): Timestamp
      reads if timeProvider.MockTime? then {timeProvider.mock} else {}
    {
      match timeProvider
      case RealTime => systemNow
      case MockTime(mock) => mock.Now()
    }

    /** `GenerateJSONFilePath`: the same paths as `GenerateJSONFilePathWithTime` at the provider's current time. */
    method GenerateJSONFilePath(base: string, country: string, page: int, systemNow: Timestamp)
      returns (dir: string, path: string)
      ensures (dir, path) == GenerateJSONFilePathWithTime(base, country, page, Now(systemNow))
      ensures timeProvider.MockTime? ==>
        (dir, path) == GenerateJSONFilePathWithTime(base, country, page, timeProvider.mock.fixedTime)
    {
      var now := match timeProvider case RealTime => systemNow case MockTime(mock) => mock.fixedTime;
      var yearDir := YearText(now);
      var monthDir := MonthText(now);
      var filename := FileName(country, page, now);
      dir := Join([base, yearDir, monthDir]);
      path := Join([dir, filename]);
    }
  }

  /** `ValidateFilePath`: the empty path and any path that Clean would change are rejected. */
  function ValidateFilePath(p: string): (r: Option<string>)
    ensures r.None? <==> p != "" && Clean(p) == p
  {
    if p == "" then Some("file path cannot be empty")
    else if Clean(p) != p then Some("file path contains invalid characters or path traversal attempts")
    else None
  }

  // ---------------------------------------------------------------------
  // Properties of the generated paths

  /** A formatted numeric field is a plain path name. */
  lemma NumericName(x: int, width: nat)
    ensures Name(FormatInt(x, width))
  {
    FormatIntSpec(x, width);
    var s := FormatInt(x, width);
    assert s[0] != '.';
  }

  /** With a separator-free country the file name is a plain path name. */
  lemma FileNameIsName(country: string, page: int, t: Timestamp)
    requires NoSlash(country)
    ensures Name(FileName(country, page, t))
  {
    FileStampNumeric(t);
    var digits := IntToString(page);
    assert forall i :: 0 <= i < |digits| ==> IsDigit(digits[i]) || digits[i] == '-';
    var s := FileName(country, page, t);
    assert |s| >= 6;
  }

  /** The generated directory is clean and is neither "." nor "/". */
  lemma GeneratedDirIsClean(base: string, t: Timestamp)
    ensures var dir := Join([base, YearText(t), MonthText(t)]);
      Clean(dir) == dir && dir != "." && dir != "/"
  {
    var y, m := YearText(t), MonthText(t);
    NumericName(t.year, 4);
    NumericName(t.month, 2);
    var front := if base == "" then y else base + "/" + y;
    if base == "" {
      JoinSkipsEmpty(y, m);
    } else {
      JoinSmall(base, y, m);
    }
    assert Join([base, y, m]) == Clean(front + "/" + m);
    CleanEndsInName(front, m);
    CleanIdempotent(front + "/" + m);
  }

  /**
    For every base directory, the generated path is the generated directory, a
    separator and the file name: the directory is the artifact's parent, and
    both pass ValidateFilePath.
   */
  lemma GeneratedPathInDir(base: string, country: string, page: int, t: Timestamp)
    requires NoSlash(country)
    ensures var (dir, path) := GenerateJSONFilePathWithTime(base, country, page, t);
      && path == dir + "/" + FileName(country, page, t)
      && ValidateFilePath(dir).None?
      && ValidateFilePath(path).None?
  {
    var dir := Join([base, YearText(t), MonthText(t)]);
    GeneratedDirIsClean(base, t);
    CleanNonEmpty(dir);
    var name := FileName(country, page, t);
    FileNameIsName(country, page, t);
    CleanExtend(dir, name);
    JoinSmall(dir, name, "");
  }

  /** For a clean base other than "." and "/", the directory is exactly `<base>/<yyyy>/<mm>`. */
  lemma GeneratedDirShape(base: string, country: string, page: int, t: Timestamp)
    requires Clean(base) == base && base != "." && base != "/"
    ensures GenerateJSONFilePathWithTime(base, country, page, t).0 == base + "/" + YearText(t) + "/" + MonthText(t)
  {
    var y, m := YearText(t), MonthText(t);
    NumericName(t.year, 4);
    NumericName(t.month, 2);
    CleanNonEmpty(base);
    JoinSmall(base, y, m);
    CleanExtend(base, y);
    var front := base + "/" + y;
    assert |front| >= 2;
    CleanExtend(front, m);
  }

  /** Every path Clean returns passes ValidateFilePath. */
  lemma CleanedPathIsValid(p: string)
    ensures ValidateFilePath(Clean(p)).None?
  {
    CleanNonEmpty(p);
    CleanIdempotent(p);
  }

  /** A clean relative name followed by one more name is clean. */
  lemma CleanTwoNames(a: string, b: string)
    requires Name(a) && Name(b)
    ensures Clean(a + "/" + b) == a + "/" + b
  {
    CleanName(a);
    CleanExtend(a, b);
  }

  /** A rooted name followed by one more name is clean. */
  lemma CleanRootedTwoNames(a: string, b: string)
    requires Name(a) && Name(b)
    ensures Clean("/" + a + "/" + b) == "/" + a + "/" + b
  {
    CleanRootedName(a);
    assert |"/" + a| >= 2;
    CleanExtend("/" + a, b);
  }

  lemma SplitDoubleSlash()
    ensures Split("a//b") == ["a", "", "b"]
  {
    assert NoSlash("a") && NoSlash("b");
    SplitNoSlash("a");
    SplitSlash("a");
    assert "a" + "/" == "a/";
    SplitAppend("a/", "b");
    assert "a/" + "/" + "b" == "a//b";
  }

  /** An empty piece between two elements is dropped. */
  lemma ElementsAcrossGap(a: string, b: string)
    requires Element(a) && Element(b)
    ensures Elements([a, "", b]) == [a, b]
  {
    assert [a][..0] == [];
    assert Elements([a]) == [a];
    assert [a, ""][..1] == [a];
    assert Elements([a, ""]) == [a];
    ElementsSnoc([a, ""], b);
    assert [a, ""] + [b] == [a, "", b];
  }

  /** Clean collapses a doubled separator. */
  lemma CleanDoubleSlash()
    ensures Clean("a//b") == "a/b"
  {
    SplitDoubleSlash();
    assert Name("a") && Name("b");
    ElementsAcrossGap("a", "b");
    assert Resolved(false, ["a", "b"]);
    ResolveFixed(false, ["a", "b"]);
    JoinSlashPair("a", "b");
    assert "a//b"[0] != '/';
  }

  lemma ValidRelativeExample(p: string)
    requires p == "test/file.txt"
    ensures ValidateFilePath(p).None?
  {
    assert Name("test") && Name("file.txt") by {
      assert "file.txt"[0] != '.';
    }
    CleanTwoNames("test", "file.txt");
    assert "test" + "/" + "file.txt" == p;
  }

  lemma ValidRootedExample(p: string)
    requires p == "/tmp/test.txt"
    ensures ValidateFilePath(p).None?
  {
    assert Name("tmp") && Name("test.txt");
    CleanRootedTwoNames("tmp", "test.txt");
    assert "/" + "tmp" + "/" + "test.txt" == p;
  }

  /** The cases the path-validation tests name. */
  lemma ValidateFilePathExamples(relative: string, rooted: string, doubled: string)
    requires relative == "test/file.txt" && rooted == "/tmp/test.txt" && doubled == "a//b"
    ensures ValidateFilePath(relative).None?
    ensures ValidateFilePath(rooted).None?
    ensures ValidateFilePath("").Some?
    ensures ValidateFilePath(doubled).Some?
  {
    ValidRelativeExample(relative);
    ValidRootedExample(rooted);
    CleanDoubleSlash();
  }

  /**
    The generator test: a mock provider fixed at 2025-08-15 12:00:00, base
    "/tmp/test_news", country "us" and page 2 give the directory
    "/tmp/test_news/2025/08" and the artifact
    "/tmp/test_news/2025/08/2025-08-15_12-00-00_us_page2.json".
   */
  method GeneratorExample() returns (dir: string, path: string)
    ensures dir == "/tmp/test_news/2025/08"
    ensures path == "/tmp/test_news/2025/08/2025-08-15_12-00-00_us_page2.json"
  {
    var fixed := Timestamp(2025, 8, 15, 12, 0, 0);
    var mock := new MockTimeProvider(fixed);
    var generator := new FilePathGenerator(Some(MockTime(mock)));
    dir, path := generator.GenerateJSONFilePath("/tmp/test_news", "us", 2, ZeroTime);
    GeneratorExamplePaths("/tmp/test_news", fixed);
  }

  lemma ExampleDirShape(base: string, t: Timestamp)
    requires base == "/tmp/test_news"
    ensures GenerateJSONFilePathWithTime(base, "us", 2, t).0 == base + "/" + YearText(t) + "/" + MonthText(t)
  {
    assert Clean(base) == base by {
      assert Name("tmp") && Name("test_news");
      CleanRootedTwoNames("tmp", "test_news");
      assert "/" + "tmp" + "/" + "test_news" == base;
    }
    GeneratedDirShape(base, "us", 2, t);
  }

  lemma ExampleDir(base: string, t: Timestamp)
    requires base == "/tmp/test_news"
    requires YearText(t) == "2025" && MonthText(t) == "08"
    ensures GenerateJSONFilePathWithTime(base, "us", 2, t).0 == "/tmp/test_news/2025/08"
  {
    ExampleDirShape(base, t);
    var y, m := YearText(t), MonthText(t);
    assert base + "/" + y + "/" + m == "/tmp/test_news" + "/" + "2025" + "/" + "08";
    ExampleDirText();
  }

  lemma ExampleDirText()
    ensures "/tmp/test_news" + "/" + "2025" + "/" + "08" == "/tmp/test_news/2025/08"
  {
  }

  lemma ExamplePathText()
    ensures "/tmp/test_news/2025/08" + "/" + "2025-08-15_12-00-00_us_page2.json"
      == "/tmp/test_news/2025/08/2025-08-15_12-00-00_us_page2.json"
  {
  }

  lemma ExamplePath(base: string, country: string, t: Timestamp, dir: string, name: string)
    requires NoSlash(country)
    requires GenerateJSONFilePathWithTime(base, country, 2, t).0 == dir && name == FileName(country, 2, t)
    ensures GenerateJSONFilePathWithTime(base, country, 2, t).1 == dir + "/" + name
  {
    GeneratedPathInDir(base, country, 2, t);
  }

  lemma GeneratorExamplePaths(base: string, t: Timestamp)
    requires base == "/tmp/test_news" && t == Timestamp(2025, 8, 15, 12, 0, 0)
    ensures GenerateJSONFilePathWithTime(base, "us", 2, t)
      == ("/tmp/test_news/2025/08", "/tmp/test_news/2025/08/2025-08-15_12-00-00_us_page2.json")
  {
    ExampleTexts(t, "us");
    ExampleDir(base, t);
    var dir, name := "/tmp/test_news/2025/08", "2025-08-15_12-00-00_us_page2.json";
    ExamplePath(base, "us", t, dir, name);
    ExamplePathText();
  }

  lemma YearExample()
    ensures FormatInt(2025, 4) == "2025"
  {
    AppendDigit(2, 0);
    AppendDigit(20, 2);
    AppendDigit(202, 5);
  }

  lemma TwoDigitExample(x: int, a: nat, b: nat)
    requires 1 <= a < 10 && b < 10 && x == 10 * a + b
    ensures FormatInt(x, 2) == [DigitChar(a), DigitChar(b)]
  {
    AppendDigit(a, b);
  }

  lemma OneDigitExample(x: int)
    requires 0 <= x < 10
    ensures FormatInt(x, 2) == ['0', DigitChar(x)]
  {
    assert Zeros(1) == "0";
  }

  lemma StampFields(t: Timestamp)
    requires t == Timestamp(2025, 8, 15, 12, 0, 0)
    ensures FormatInt(t.year, 4) == "2025" && FormatInt(t.month, 2) == "08" && FormatInt(t.day, 2) == "15"
    ensures FormatInt(t.hour, 2) == "12" && FormatInt(t.minute, 2) == "00" && FormatInt(t.second, 2) == "00"
  {
    YearExample();
    OneDigitExample(t.month);
    TwoDigitExample(t.day, 1, 5);
    TwoDigitExample(t.hour, 1, 2);
    OneDigitExample(t.minute);
  }

  lemma StampExample(t: Timestamp)
    requires t == Timestamp(2025, 8, 15, 12, 0, 0)
    ensures FileStamp(t) == "2025-08-15_12-00-00"
  {
    StampFields(t);
  }

  lemma FileNameExample(country: string, t: Timestamp, stamp: string, digits: string)
    requires country == "us" && FileStamp(t) == stamp && stamp == "2025-08-15_12-00-00" && digits == "2"
    ensures FileName(country, 2, t) == "2025-08-15_12-00-00_us_page2.json"
  {
    assert IntToString(2) == digits;
    assert FileName(country, 2, t) == stamp + "_" + country + "_page" + digits + ".json";
    NameText(stamp, country, digits);
  }

  lemma NameText(stamp: string, country: string, digits: string)
    requires stamp == "2025-08-15_12-00-00" && country == "us" && digits == "2"
    ensures stamp + "_" + country + "_page" + digits + ".json" == "2025-08-15_12-00-00_us_page2.json"
  {
  }

  lemma ExampleTexts(t: Timestamp, country: string)
    requires t == Timestamp(2025, 8, 15, 12, 0, 0) && country == "us"
    ensures YearText(t) == "2025" && MonthText(t) == "08"
    ensures FileName(country, 2, t) == "2025-08-15_12-00-00_us_page2.json"
  {
    StampFields(t);
    StampExample(t);
    FileNameExample(country, t, FileStamp(t), "2");
  }
}
