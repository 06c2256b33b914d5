/** Run reports of the freeze crate: where a report goes and what it is
    called, the flattened run summary, the version string, and how
    `write_report` wires them to the file system. */
module Reports {
  import opened Wrappers
  import opened Decimal
  import opened Paths

  datatype CollectError = CollectError(msg: string)

  // ---------------------------------------------------------------------
  // The start timestamp, formatted as `%Y-%m-%d_%H-%M-%S`

  /** A local date and time to the second (chrono's `DateTime<Local>`). */
  datatype LocalTime = LocalTime(year: int, month: nat, day: nat, hour: nat, minute: nat, second: nat)

  predicate ValidTime(t: LocalTime) {
    1 <= t.month <= 12 && 1 <= t.day <= 31 && t.hour < 24 && t.minute < 60 && t.second <= 60
  }

  type ValidLocalTime = t: LocalTime | ValidTime(t) witness LocalTime(1970, 1, 1, 0, 0, 0)

  /** `%Y`: four digits, zero-padded, with a sign outside the years 0 to 9999. */
  function FormatYear(y: int): string {
    if 0 <= y <= 9999 then ZeroPad(y, 4)
    else if y > 9999 then "+" + ZeroPad(y, 4)
    else "-" + ZeroPad(-y, 4)
  }

  function TwoDigits(n: nat): (s: string)
    requires n < 100
    ensures |s| == 2 && AllDigits(s) && Value(s) == n
  {
    NatToStringShort(n);
    ZeroPadRoundTrip(n, 2);
    ZeroPad(n, 2)
  }

  /** One `<separator><two digits>` piece of the time format. */
  function Field(sep: char, n: nat): (s: string)
    requires n < 100
    ensures |s| == 3 && s[0] == sep && AllDigits(s[1..]) && Value(s[1..]) == n
  {
    assert ([sep] + TwoDigits(n))[1..] == TwoDigits(n);
    [sep] + TwoDigits(n)
  }

  /** `-%m-%d_%H-%M-%S`, always 15 characters. */
  function TimeTail(t: ValidLocalTime): (s: string)
    ensures |s| == 15
  {
    Field('-', t.month) + Field('-', t.day) + Field('_', t.hour) + Field('-', t.minute) + Field('-', t.second)
  }

  /** `%Y-%m-%d_%H-%M-%S` */
  function FormatTimestamp(t: ValidLocalTime): string {
    FormatYear(t.year) + TimeTail(t)
  }

  function ParseYear(s: string): Option<int> {
    if |s| >= 2 && s[0] == '+' && AllDigits(s[1..]) then Some(Value(s[1..]))
    else if |s| >= 2 && s[0] == '-' && AllDigits(s[1..]) then
      var magnitude: int := Value(s[1..]);
      Some(-magnitude)
    else if |s| >= 1 && AllDigits(s) then Some(Value(s))
    else None
  }

  function ParseField(sep: char, s: string): Option<nat> {
    if |s| == 3 && s[0] == sep && AllDigits(s[1..]) then Some(Value(s[1..])) else None
  }

  /** Reads the 15-character tail back into month, day, hour, minute and second. */
  function ParseTimeTail(tail: string): Option<(nat, nat, nat, nat, nat)>
    requires |tail| == 15
  {
    match (ParseField('-', tail[0..3]), ParseField('-', tail[3..6]), ParseField('_', tail[6..9]),
           ParseField('-', tail[9..12]), ParseField('-', tail[12..15]))
    case (Some(mo), Some(d), Some(h), Some(mi), Some(se)) => Some((mo, d, h, mi, se))
    case _ => None
  }

  /** Reads a timestamp back: a year, then the fixed 15-character tail. */
  function ParseTimestamp(s: string): Option<LocalTime> {
    if |s| < 16 then None
    else
      match (ParseYear(s[..|s| - 15]), ParseTimeTail(s[|s| - 15..]))
      case (Some(y), Some((mo, d, h, mi, se))) => Some(LocalTime(y, mo, d, h, mi, se))
      case _ => None
  }

  lemma YearRoundTrip(y: int)
    ensures |FormatYear(y)| >= 4
    ensures FormatYear(y)[0] in "+-" || IsDigit(FormatYear(y)[0])
    ensures ParseYear(FormatYear(y)) == Some(y)
  {
    var s := FormatYear(y);
    if 0 <= y <= 9999 {
      ZeroPadRoundTrip(y, 4);
    } else if y > 9999 {
      ZeroPadRoundTrip(y, 4);
      assert s[1..] == ZeroPad(y, 4);
    } else {
      ZeroPadRoundTrip(-y, 4);
      assert s[1..] == ZeroPad(-y, 4);
    }
  }

  lemma TimeTailRoundTrip(t: ValidLocalTime)
    ensures ParseTimeTail(TimeTail(t)) == Some((t.month, t.day, t.hour, t.minute, t.second))
  {
    var tail := TimeTail(t);
    assert tail[0..3] == Field('-', t.month);
    assert tail[3..6] == Field('-', t.day);
    assert tail[6..9] == Field('_', t.hour);
    assert tail[9..12] == Field('-', t.minute);
    assert tail[12..15] == Field('-', t.second);
  }

  /** The formatted timestamp determines the time: reading it back gives the time. */
  lemma TimestampRoundTrip(t: ValidLocalTime)
    ensures ParseTimestamp(FormatTimestamp(t)) == Some(t)
  {
    var s := FormatTimestamp(t);
    YearRoundTrip(t.year);
    TimeTailRoundTrip(t);
    assert s[..|s| - 15] == FormatYear(t.year);
    assert s[|s| - 15..] == TimeTail(t);
  }

  // ---------------------------------------------------------------------
  // The report path

  /** The execution environment of a run. */
  datatype ExecutionEnv = ExecutionEnv(
    tStart: ValidLocalTime,
    reportDir: Option<Path>,
    cliCommand: Option<seq<string>>,
    args: Option<string>)

  /** The output sink: its directory and the paths it writes for a partition
      of a query (the values of `get_paths`). */
  datatype FileOutput<!Q, !P> = FileOutput(outputDir: Path, getPaths: (Q, P) -> seq<Path>)

  /** The serialised summary and the report record as written to disk. */
  datatype SerializedFreezeSummary = SerializedFreezeSummary(
    completedPaths: seq<Path>,
    erroredPaths: seq<Path>,
    nSkipped: nat)

  datatype FreezeReport = FreezeReport(
    cryoVersion: string,
    cliCommand: Option<seq<string>>,
    results: Option<SerializedFreezeSummary>,
    args: Option<string>)

  /** The outcomes of the file-system and serialisation calls. */
  datatype Io = Io(
    createDirAll: Path -> bool,
    createFile: Path -> bool,
    writeAll: (Path, string) -> bool,
    toJson: FreezeReport -> Option<string>)

  const ReportsSubdir: Path := ".cryo/reports"

  /** The override when one is set, otherwise `.cryo/reports` inside the output directory. */
  function ReportDir<Q, P>(env: ExecutionEnv, sink: FileOutput<Q, P>): (r: Path)
    ensures env.reportDir.Some? ==> r == env.reportDir.value
    ensures env.reportDir.None? ==> |sink.outputDir| + |ReportsSubdir| <= |r|
    ensures env.reportDir.None? ==> r[..|sink.outputDir|] == sink.outputDir && r[|r| - |ReportsSubdir|..] == ReportsSubdir
    ensures env.reportDir.None? ==> |r| <= |sink.outputDir| + |ReportsSubdir| + 1
    ensures env.reportDir.None? && |r| > |sink.outputDir| + |ReportsSubdir| ==> r[|sink.outputDir|] == '/'
    ensures env.reportDir.None? ==>
              (|r| == |sink.outputDir| + |ReportsSubdir| + 1 <==> sink.outputDir != [] && sink.outputDir[|sink.outputDir| - 1] != '/')
  {
    match env.reportDir
    case Some(dir) => dir
    case None => Join(sink.outputDir, ReportsSubdir)
  }

  function ReportFilename(timestamp: string, isComplete: bool): string {
    if isComplete then timestamp + ".json" else "incomplete_" + (timestamp + ".json")
  }

  /** `get_report_path`: the report directory (created first) joined with the
      timestamped file name. A function of its arguments, so repeated calls
      with the same environment, sink and flag give the same path. */
  function GetReportPath<Q, P>(env: ExecutionEnv, sink: FileOutput<Q, P>, isComplete: bool, io: Io): (r: Result<Path, CollectError>)
    ensures r.Err? <==> !io.createDirAll(ReportDir(env, sink))
    ensures r.Err? ==> r.error == CollectError("could not create report dir")
    ensures r.Ok? ==> var dir, name := ReportDir(env, sink), ReportFilename(FormatTimestamp(env.tStart), isComplete);
      && |dir| + |name| <= |r.value|
      && r.value[..|dir|] == dir
      && r.value[|r.value| - |name|..] == name
      && |r.value| <= |dir| + |name| + 1
      && (|r.value| > |dir| + |name| ==> r.value[|dir|] == '/')
      && (|r.value| == |dir| + |name| + 1 <==> dir != [] && dir[|dir| - 1] != '/')
  {
    var dir := ReportDir(env, sink);
    if !io.createDirAll(dir) then Err(CollectError("could not create report dir"))
    else
      var filename := ReportFilename(FormatTimestamp(env.tStart), isComplete);
      YearRoundTrip(env.tStart.year);
      Ok(Join(dir, filename))
  }

  /** Reads a report file name back into its start time and completeness. */
  function ParseReportFilename(name: string): Option<(LocalTime, bool)> {
    if |name| < 5 || name[|name| - 5..] != ".json" then None
    else
      var stem := name[..|name| - 5];
      if |stem| >= 11 && stem[..11] == "incomplete_" then
        match ParseTimestamp(stem[11..])
        case Some(t) => Some((t, false))
        case None => None
      else
        match ParseTimestamp(stem)
        case Some(t) => Some((t, true))
        case None => None
  }

  /** The file name records the start time and whether the run completed. */
  lemma ReportFilenameRoundTrip(t: ValidLocalTime, isComplete: bool)
    ensures ParseReportFilename(ReportFilename(FormatTimestamp(t), isComplete)) == Some((t, isComplete))
  {
    var ts := FormatTimestamp(t);
    TimestampRoundTrip(t);
    YearRoundTrip(t.year);
    assert ts[..|FormatYear(t.year)|] == FormatYear(t.year);
    StemRoundTrip(ts, t, isComplete);
  }

  lemma StemRoundTrip(ts: string, t: LocalTime, isComplete: bool)
    requires ParseTimestamp(ts) == Some(t) && ts[0] != 'i'
    ensures ParseReportFilename(ReportFilename(ts, isComplete)) == Some((t, isComplete))
  {
    var name := ReportFilename(ts, isComplete);
    assert name[|name| - 5..] == ".json";
    if isComplete {
      assert name[..|name| - 5] == ts;
    } else {
      assert name[..|name| - 5] == "incomplete_" + ts;
      assert name[..|name| - 5][..11] == "incomplete_";
      assert name[..|name| - 5][11..] == ts;
    }
  }

  /** For one start time, the complete and the incomplete report are written to different paths. */
  lemma CompleteAndIncompleteDiffer<Q, P>(env: ExecutionEnv, sink: FileOutput<Q, P>, io: Io)
    requires io.createDirAll(ReportDir(env, sink))
    ensures GetReportPath(env, sink, true, io).Ok? && GetReportPath(env, sink, false, io).Ok?
    ensures GetReportPath(env, sink, true, io).value != GetReportPath(env, sink, false, io).value
  {
    var ts := FormatTimestamp(env.tStart);
    YearRoundTrip(env.tStart.year);
    JoinRelativeAppends(ReportDir(env, sink), ReportFilename(ts, true), ReportFilename(ts, false));
  }

  // ---------------------------------------------------------------------
  // The run summary

  /** The partitions of a run: completed, errored (with the partition when it
      is known), and skipped. */
  datatype FreezeSummary<P> = FreezeSummary(completed: seq<P>, errored: seq<Option<P>>, skipped: seq<P>)

  /** `flat_map` of `get_paths` over partitions, in order. */
  function PartitionPaths<Q, P>(sink: FileOutput<Q, P>, query: Q, partitions: seq<P>): seq<Path> {
    if partitions == [] then []
    else sink.getPaths(query, partitions[0]) + PartitionPaths(sink, query, partitions[1..])
  }

  /** `filter_map` then `flatten` of `get_paths` over the errored entries. */
  function ErroredPaths<Q, P>(sink: FileOutput<Q, P>, query: Q, errored: seq<Option<P>>): seq<Path> {
    if errored == [] then []
    else
      (match errored[0] case None => [] case Some(p) => sink.getPaths(query, p))
        + ErroredPaths(sink, query, errored[1..])
  }

  /** The known partitions among errored entries, in order. */
  function Known<P>(errored: seq<Option<P>>): (r: seq<P>)
    ensures |r| <= |errored|
  {
    if errored == [] then []
    else (match errored[0] case None => [] case Some(p) => [p]) + Known(errored[1..])
  }

  /** `serialize_summary` */
  function SerializeSummary<Q, P>(summary: FreezeSummary<P>, query: Q, sink: FileOutput<Q, P>): (r: SerializedFreezeSummary)
    ensures r.nSkipped == |summary.skipped|
    ensures r.completedPaths == PartitionPaths(sink, query, summary.completed)
    ensures r.erroredPaths == PartitionPaths(sink, query, Known(summary.errored))
  {
    ErroredPathsOfKnown(sink, query, summary.errored);
    SerializedFreezeSummary(
      PartitionPaths(sink, query, summary.completed),
      ErroredPaths(sink, query, summary.errored),
      |summary.skipped|)
  }

  /** Errored entries resolve like completed ones; an entry without a known
      partition contributes no path. */
  lemma {:induction false} ErroredPathsOfKnown<Q, P>(sink: FileOutput<Q, P>, query: Q, errored: seq<Option<P>>)
    ensures ErroredPaths(sink, query, errored) == PartitionPaths(sink, query, Known(errored))
  {
    if errored != [] {
      ErroredPathsOfKnown(sink, query, errored[1..]);
      match errored[0]
      case None =>
        assert Known(errored) == Known(errored[1..]);
      case Some(p) =>
        var rest := Known(errored[1..]);
        assert Known(errored) == [p] + rest;
        assert ([p] + rest)[1..] == rest;
    }
  }

  /** A path is listed iff some listed partition resolves to it. */
  lemma {:induction false} PartitionPathsMembership<Q, P>(sink: FileOutput<Q, P>, query: Q, partitions: seq<P>, path: Path)
    ensures path in PartitionPaths(sink, query, partitions)
        <==> exists i :: 0 <= i < |partitions| && path in sink.getPaths(query, partitions[i])
  {
    if partitions != [] {
      PartitionPathsMembership(sink, query, partitions[1..], path);
      if path in PartitionPaths(sink, query, partitions[1..]) {
        var i :| 0 <= i < |partitions[1..]| && path in sink.getPaths(query, partitions[1..][i]);
        assert path in sink.getPaths(query, partitions[i + 1]);
      }
      if exists i :: 0 <= i < |partitions| && path in sink.getPaths(query, partitions[i]) {
        var i :| 0 <= i < |partitions| && path in sink.getPaths(query, partitions[i]);
        if i > 0 {
          assert path in sink.getPaths(query, partitions[1..][i - 1]);
        }
      }
    }
  }

  /** Listing is in order: the paths of a concatenation are the concatenated paths. */
  lemma {:induction false} PartitionPathsConcat<Q, P>(sink: FileOutput<Q, P>, query: Q, a: seq<P>, b: seq<P>)
    ensures PartitionPaths(sink, query, a + b) == PartitionPaths(sink, query, a) + PartitionPaths(sink, query, b)
  {
    if a == [] {
      assert a + b == b;
    } else {
      assert (a + b)[1..] == a[1..] + b;
      PartitionPathsConcat(sink, query, a[1..], b);
    }
  }

  /** One completed partition, an errored entry without a partition, one with
      a partition, and two skipped partitions. */
  lemma SummaryExample<Q, P>(sink: FileOutput<Q, P>, query: Q, p1: P, p2: P, p3: P, p4: P)
    ensures var r := SerializeSummary(FreezeSummary([p1], [None, Some(p2)], [p3, p4]), query, sink);
      && r.completedPaths == sink.getPaths(query, p1)
      && r.erroredPaths == sink.getPaths(query, p2)
      && r.nSkipped == 2
  {
    var errored: seq<Option<P>> := [None, Some(p2)];
    assert errored[1..] == [Some(p2)];
    assert Known(errored) == [p2];
    assert PartitionPaths(sink, query, [p2]) == sink.getPaths(query, p2) + PartitionPaths(sink, query, []);
    assert PartitionPaths(sink, query, [p1]) == sink.getPaths(query, p1) + PartitionPaths(sink, query, []);
  }

  // ---------------------------------------------------------------------
  // The version string and the report

  /** The package version and the optional `GIT_DESCRIPTION`, both fixed at build time. */
  datatype BuildInfo = BuildInfo(pkgVersion: string, gitDescription: Option<string>)

  /** `get_cryo_version`: `<version>__<description or "unknown">` */
  function CryoVersion(build: BuildInfo): string {
    build.pkgVersion + "__" + build.gitDescription.GetOr("unknown")
  }

  /** Splits a string at its first `__`. */
  function SplitVersion(s: string): Option<(string, string)> {
    if |s| < 2 then None
    else if s[0] == '_' && s[1] == '_' then Some(([], s[2..]))
    else
      match SplitVersion(s[1..])
      case None => None
      case Some((a, b)) => Some(([s[0]] + a, b))
  }

  /** A package version has no underscore, so the version string splits back
      into the version and the build description. */
  lemma {:induction false} CryoVersionRoundTrip(build: BuildInfo)
    requires '_' !in build.pkgVersion
    ensures SplitVersion(CryoVersion(build)) == Some((build.pkgVersion, build.gitDescription.GetOr("unknown")))
    decreases |build.pkgVersion|
  {
    var v, g := build.pkgVersion, build.gitDescription.GetOr("unknown");
    if v == [] {
      assert CryoVersion(build) == "__" + g;
    } else {
      var rest := BuildInfo(v[1..], build.gitDescription);
      assert CryoVersion(build)[1..] == CryoVersion(rest);
      CryoVersionRoundTrip(rest);
      assert [v[0]] + v[1..] == v;
    }
  }

  /** The record `write_report` serialises: results present iff a summary is given. */
  function BuildReport<Q, P>(env: ExecutionEnv, query: Q, sink: FileOutput<Q, P>, summary: Option<FreezeSummary<P>>, build: BuildInfo): (r: FreezeReport)
    ensures r.results.Some? <==> summary.Some?
    ensures summary.Some? ==> r.results == Some(SerializeSummary(summary.value, query, sink))
    ensures r.cryoVersion == CryoVersion(build)
    ensures r.cliCommand == env.cliCommand && r.args == env.args
  {
    FreezeReport(
      CryoVersion(build),
      env.cliCommand,
      match summary case None => None case Some(s) => Some(SerializeSummary(s, query, sink)),
      env.args)
  }

  /** `write_report`: serialise the report, resolve its path (complete iff a
      summary is given), create the file and write the JSON into it. */
  function WriteReport<Q, P>(env: ExecutionEnv, query: Q, sink: FileOutput<Q, P>, summary: Option<FreezeSummary<P>>, build: BuildInfo, io: Io): (r: Result<Path, CollectError>)
    ensures io.toJson(BuildReport(env, query, sink, summary, build)).None? ==> r == Err(CollectError("could not serialize report"))
    ensures r.Ok? ==> GetReportPath(env, sink, summary.Some?, io) == Ok(r.value)
    ensures r.Ok? ==> io.createFile(r.value) && io.writeAll(r.value, io.toJson(BuildReport(env, query, sink, summary, build)).value)
    ensures r.Err? ==> r.error.msg in {"could not serialize report", "could not create report dir",
                                       "could not create report file", "could not write report data"}
    ensures var json, path := io.toJson(BuildReport(env, query, sink, summary, build)), GetReportPath(env, sink, summary.Some?, io);
      && (json.Some? && path.Err? ==> r == path)
      && (json.Some? && path.Ok? && !io.createFile(path.value) ==> r == Err(CollectError("could not create report file")))
      && (json.Some? && path.Ok? && io.createFile(path.value) && !io.writeAll(path.value, json.value) ==>
            r == Err(CollectError("could not write report data")))
      && (json.Some? && path.Ok? && io.createFile(path.value) && io.writeAll(path.value, json.value) ==> r == Ok(path.value))
  {
    var report := BuildReport(env, query, sink, summary, build);
    match io.toJson(report)
    case None => Err(CollectError("could not serialize report"))
    case Some(serialized) =>
      match GetReportPath(env, sink, summary.Some?, io)
      case Err(e) => Err(e)
      case Ok(path) =>
        if !io.createFile(path) then Err(CollectError("could not create report file"))
        else if !io.writeAll(path, serialized) then Err(CollectError("could not write report data"))
        else Ok(path)
  }

  /** A run without a summary writes an `incomplete_` report; a run with one does not. */
  lemma WriteReportNaming<Q, P>(env: ExecutionEnv, query: Q, sink: FileOutput<Q, P>, summary: Option<FreezeSummary<P>>, build: BuildInfo, io: Io)
    requires WriteReport(env, query, sink, summary, build, io).Ok?
    ensures var path := WriteReport(env, query, sink, summary, build, io).value;
      var name := ReportFilename(FormatTimestamp(env.tStart), summary.Some?);
      && path[|path| - |name|..] == name
      && ParseReportFilename(name) == Some((env.tStart, summary.Some?))
  {
    var path := WriteReport(env, query, sink, summary, build, io).value;
    assert GetReportPath(env, sink, summary.Some?, io) == Ok(path);
    ReportFilenameRoundTrip(env.tStart, summary.Some?);
  }
}
