/**
 * The backend's system service: reading xray's version, choosing the release
 * to download, tailing the logs, reading the connection counts, the xray
 * running flag, and the disk and network sums of the stats report. Processes,
 * files and the download itself are outside the model; what they produced
 * is a parameter.
 */
module SystemService {
  import opened Wrappers
  import opened Text
  import opened ApiErrors

  // ---------------------------------------------------------------- version and release

  /** A version or tag with a leading 'v', added only when missing. */
  function WithV(v: string): (t: string)
    ensures StartsWith(t, "v")
    ensures StartsWith(v, "v") ==> t == v
    ensures !StartsWith(v, "v") ==> t[1..] == v
  {
    if StartsWith(v, "v") then v else "v" + v
  }

  /** What running `xray -version` gave: no process, or an exit status and its stdout. */
  datatype ProcessOutput = SpawnFailed | Exited(success: bool, stdout: string)

  /** The version named on a line: its second whitespace-separated word. */
  function VersionInLine(line: string): (v: Option<string>)
    ensures v.Some? <==> |SplitWhitespace(line)| >= 2
    ensures v.Some? ==> StartsWith(v.value, "v")
  {
    var parts := SplitWhitespace(line);
    if |parts| >= 2 then Some(WithV(parts[1])) else None
  }

  /** `get_xray_version`: the version on the first line of a successful run. */
  function XrayVersion(out: ProcessOutput): (v: Option<string>)
    ensures !out.Exited? || !out.success ==> v.None?
    ensures v.Some? ==> StartsWith(v.value, "v")
  {
    match out
    case SpawnFailed => None
    case Exited(success, stdout) =>
      if !success then None
      else
        var lines := Lines(stdout);
        if lines == [] then None else VersionInLine(lines[0])
  }

  /** The version shown in the stats report. */
  function VersionLabel(out: ProcessOutput): (r: string)
    ensures r == "Unknown" <==> XrayVersion(out).None?
    ensures r != "Unknown" ==> XrayVersion(out) == Some(r) && StartsWith(r, "v")
  {
    match XrayVersion(out)
    case None => "Unknown"
    case Some(v) =>
      assert v[0] == 'v' != "Unknown"[0];
      v
  }

  lemma FirstLineOf(line: string, rest: string)
    requires '\n' !in line && !EndsWith(line, "\r")
    ensures Lines(line + "\n" + rest)[0] == line
  {
    IndexOfConcat(line, '\n', rest);
    var s := line + "\n" + rest;
    assert s[..|line|] == line;
    if line != [] {
      assert line[|line| - 1..] == [line[|line| - 1]];
    }
  }

  /**
   * xray's banner "Xray 1.8.4 (...)" gives "v1.8.4": the second word, with a
   * 'v' in front; a word already starting with 'v' is kept as it is.
   */
  lemma VersionOfBanner(words: seq<string>, rest: string)
    requires |words| >= 2 && forall i :: 0 <= i < |words| ==> IsWord(words[i])
    requires '\n' !in Join(words, " ") && !EndsWith(Join(words, " "), "\r")
    ensures XrayVersion(Exited(true, Join(words, " ") + "\n" + rest)) == Some(WithV(words[1]))
  {
    FirstLineOf(Join(words, " "), rest);
    SplitWhitespaceOfWords(words);
  }

  /** A first line of a single word names no version. */
  lemma OneWordNoVersion(word: string, rest: string)
    requires IsWord(word) && '\n' !in word && !EndsWith(word, "\r")
    ensures XrayVersion(Exited(true, word + "\n" + rest)).None?
  {
    FirstLineOf(word, rest);
    SplitWhitespaceOfWord(word);
  }

  /** The release asset name for the machine, or the error for an unsupported one. */
  function XrayArch(arch: string): (r: Result<string, ApiError>)
    ensures r.Ok? <==> arch == "x86_64" || arch == "aarch64"
    ensures arch == "x86_64" ==> r == Ok("64")
    ensures arch == "aarch64" ==> r == Ok("arm64-v8a")
    ensures r.Err? ==> r.error == SystemError("Unsupported architecture: " + arch)
  {
    if arch == "x86_64" then Ok("64")
    else if arch == "aarch64" then Ok("arm64-v8a")
    else Err(SystemError("Unsupported architecture: " + arch))
  }

  const ReleasesUrl: string := "https://github.com/XTLS/" + "Xray-core/releases/download/"

  function AssetName(xrayArch: string): string { "Xray-linux-" + xrayArch + ".zip" }

  /** Where `update_xray` downloads a version from, for a machine architecture. */
  function DownloadUrl(version: string, arch: string): (r: Result<string, ApiError>)
    ensures r.Err? <==> XrayArch(arch).Err?
    ensures r.Err? ==> r == Err(XrayArch(arch).error)
  {
    match XrayArch(arch)
    case Err(e) => Err(e)
    case Ok(xa) => Ok(ReleasesUrl + WithV(version) + "/" + AssetName(xa))
  }

  /**
   * The path after the releases prefix is the 'v'-tag and the asset: the
   * tag can be read back from the URL.
   */
  lemma DownloadUrlNamesTag(version: string, arch: string)
    requires '/' !in version && DownloadUrl(version, arch).Ok?
    ensures var url := DownloadUrl(version, arch).value;
      StartsWith(url, ReleasesUrl)
      && Split(url[|ReleasesUrl|..], "/") == [WithV(version), AssetName(XrayArch(arch).value)]
  {
    var tag := WithV(version);
    var asset := AssetName(XrayArch(arch).value);
    var url := DownloadUrl(version, arch).value;
    assert url == ReleasesUrl + (tag + ['/'] + asset);
    assert url[|ReleasesUrl|..] == tag + ['/'] + asset;
    assert '/' !in tag by {
      if !StartsWith(version, "v") {
        assert tag == "v" + version;
      }
    }
    assert '/' !in asset by {
      assert XrayArch(arch).value == "64" || XrayArch(arch).value == "arm64-v8a";
    }
    SplitAtChar(tag, '/', asset);
  }

  // ---------------------------------------------------------------- logs

  const ErrorLogTag: string := "[ErrorLog] "
  const AccessLogTag: string := "[AccessLog] "
  const AccessLinesKept: nat := 50
  const LogLinesKept: nat := 200

  /** Each line behind a tag. */
  function Tagged(tag: string, ls: seq<string>): (r: seq<string>)
    ensures |r| == |ls|
    ensures forall i :: 0 <= i < |ls| ==> r[i] == tag + ls[i]
    decreases |ls|
  {
    if ls == [] then [] else Tagged(tag, ls[..|ls| - 1]) + [tag + ls[|ls| - 1]]
  }

  /** The last `n` entries (all of them when there are fewer). */
  function Newest<T>(xs: seq<T>, n: nat): (r: seq<T>)
    ensures |r| == if |xs| > n then n else |xs|
    ensures r == xs[|xs| - |r|..]
  {
    xs[if |xs| > n then |xs| - n else 0..]
  }

  /** A log file's lines; a missing or unreadable file has none. */
  function FileLines(file: Option<string>): seq<string> {
    match file
    case None => []
    case Some(content) => Lines(content)
  }

  /** Both files' lines: every error line, then the newest access lines. */
  function FileLogs(errorLog: Option<string>, accessLog: Option<string>): seq<string> {
    ErrorPart(errorLog) + AccessPart(accessLog)
  }

  function ErrorPart(errorLog: Option<string>): seq<string> {
    Tagged(ErrorLogTag, FileLines(errorLog))
  }

  function AccessPart(accessLog: Option<string>): (part: seq<string>)
    ensures |part| <= AccessLinesKept
  {
    Tagged(AccessLogTag, Newest(FileLines(accessLog), AccessLinesKept))
  }

  /** What `get_logs` answers with; the fallback lines carry the clock and are not modelled. */
  datatype LogsAnswer = FromFiles(lines: seq<string>) | FromJournal(lines: seq<string>) | Fallback

  /** `journal` is the journal's stdout when `journalctl` ran and succeeded. */
  function LogsOutcome(errorLog: Option<string>, accessLog: Option<string>, journal: Option<string>): (r: LogsAnswer)
    ensures r.FromFiles? <==> FileLogs(errorLog, accessLog) != []
    ensures r.FromFiles? ==> var logs := FileLogs(errorLog, accessLog);
      |r.lines| == (if |logs| > LogLinesKept then LogLinesKept else |logs|) && r.lines == logs[|logs| - |r.lines|..]
    ensures !r.FromFiles? ==> r == JournalAnswer(journal)
    ensures r.FromJournal? ==> r.lines != []
  {
    var logs := FileLogs(errorLog, accessLog);
    if logs != [] then FromFiles(Newest(logs, LogLinesKept)) else JournalAnswer(journal)
  }

  /** `logs.extend(lines.map(tag + _))`. */
  method ExtendTagged(logs: seq<string>, tag: string, lines: seq<string>) returns (out: seq<string>)
    ensures out == logs + Tagged(tag, lines)
  {
    out := logs;
    var i := 0;
    while i < |lines|
      invariant 0 <= i <= |lines|
      invariant out == logs + Tagged(tag, lines[..i])
    {
      assert lines[..i + 1][..i] == lines[..i];
      out := out + [tag + lines[i]];
      i := i + 1;
    }
    assert lines[..i] == lines;
  }

  /** The journal's answer when neither file had a line. */
  function JournalAnswer(journal: Option<string>): (a: LogsAnswer)
    ensures a.FromJournal? ==> a.lines != []
  {
    match journal
    case None => Fallback
    case Some(text) =>
      var lines := Lines(text);
      if lines == [] || (|lines| == 1 && Contains(lines[0], "-- No entries --")) then Fallback
      else FromJournal(lines)
  }

  /** `get_logs`: collect both files' lines, then keep the newest ones or ask the journal. */
  method GetLogs(errorLog: Option<string>, accessLog: Option<string>, journal: Option<string>)
    returns (answer: LogsAnswer)
    ensures answer == LogsOutcome(errorLog, accessLog, journal)
  {
    var logs := ExtendTagged([], ErrorLogTag, FileLines(errorLog));
    var accessLines := FileLines(accessLog);
    var start := if |accessLines| > AccessLinesKept then |accessLines| - AccessLinesKept else 0;
    assert accessLines[start..] == Newest(accessLines, AccessLinesKept);
    logs := ExtendTagged(logs, AccessLogTag, accessLines[start..]);
    assert logs == FileLogs(errorLog, accessLog);
    if logs != [] {
      var from := if |logs| > LogLinesKept then |logs| - LogLinesKept else 0;
      assert logs[from..] == Newest(logs, LogLinesKept);
      return FromFiles(logs[from..]);
    }
    assert LogsOutcome(errorLog, accessLog, journal) == JournalAnswer(journal);
    answer := JournalAnswer(journal);
  }

  /** Keeping the newest `n` of a list whose tail is shorter than `n` keeps all of that tail. */
  lemma NewestOfAppend<T>(xs: seq<T>, ys: seq<T>, n: nat)
    requires |ys| <= n
    ensures Newest(xs + ys, n) == Newest(xs, n - |ys|) + ys
  {
    var kept := Newest(xs + ys, n);
    var tail := Newest(xs, n - |ys|);
    assert |kept| == |tail| + |ys|;
    forall k | 0 <= k < |kept| ensures kept[k] == (tail + ys)[k] {
      assert kept[k] == (xs + ys)[|xs + ys| - |kept| + k];
    }
  }

  /**
   * The file answer never cuts the access part (at most 50 lines, the newest
   * last); error lines fill what is left of the 200, the newest kept.
   */
  lemma FileLogsShape(errorLog: Option<string>, accessLog: Option<string>, journal: Option<string>)
    requires FileLogs(errorLog, accessLog) != []
    ensures LogsOutcome(errorLog, accessLog, journal)
      == FromFiles(Newest(ErrorPart(errorLog), LogLinesKept - |AccessPart(accessLog)|) + AccessPart(accessLog))
  {
    NewestOfAppend(ErrorPart(errorLog), AccessPart(accessLog), LogLinesKept);
  }

  /** The newest access line is always the last line of the file answer. */
  lemma NewestAccessLineLast(errorLog: Option<string>, content: string, journal: Option<string>)
    requires content != []
    ensures var ls := Lines(content);
      var answer := LogsOutcome(errorLog, Some(content), journal);
      answer.FromFiles? && answer.lines[|answer.lines| - 1] == AccessLogTag + ls[|ls| - 1]
  {
    var ls := Lines(content);
    var access := AccessPart(Some(content));
    assert access[|access| - 1] == AccessLogTag + ls[|ls| - 1];
    FileLogsShape(errorLog, Some(content), journal);
  }

  // ---------------------------------------------------------------- connection counts

  /** The first two lines of the socket-count command, each read as a count or 0. */
  function ConnectionCounts(stdout: Option<string>): (r: (nat, nat))
    ensures stdout.None? || |Lines(stdout.value)| < 2 ==> r == (0, 0)
  {
    match stdout
    case None => (0, 0)
    case Some(text) =>
      var lines := Lines(text);
      if |lines| >= 2 then
        (ParseU64(TrimRust(lines[0])).GetOr(0), ParseU64(TrimRust(lines[1])).GetOr(0))
      else (0, 0)
  }

  lemma DecimalCount(n: nat)
    requires n <= U64Max
    ensures ParseU64(TrimRust(NatToDecimal(n))) == Some(n)
  {
    var d := NatToDecimal(n);
    assert !IsRustWhitespace(d[0]) && !IsRustWhitespace(d[|d| - 1]);
    TrimOfTrimmed(d, IsRustWhitespace);
  }

  /** The counts `wc -l` prints are read back as they were printed. */
  lemma CountsRoundTrip(tcp: nat, udp: nat)
    requires tcp <= U64Max && udp <= U64Max
    ensures ConnectionCounts(Some(JoinLines([NatToDecimal(tcp), NatToDecimal(udp)]))) == (tcp, udp)
  {
    var a, b := NatToDecimal(tcp), NatToDecimal(udp);
    DecimalLineSafe(tcp);
    DecimalLineSafe(udp);
    LinesOfTwo(a, b);
    DecimalCount(tcp);
    DecimalCount(udp);
  }

  lemma LinesOfTwo(a: string, b: string)
    requires '\n' !in a && !EndsWith(a, "\r") && '\n' !in b && !EndsWith(b, "\r")
    ensures Lines(JoinLines([a, b])) == [a, b]
  {
    var ls := [a, b];
    assert ls[0] == a && ls[1] == b;
    LinesOfJoin(ls);
  }

  lemma DecimalLineSafe(n: nat)
    ensures var d := NatToDecimal(n); '\n' !in d && !EndsWith(d, "\r")
  {
    var d := NatToDecimal(n);
    assert forall k :: 0 <= k < |d| ==> IsDigit(d[k]);
    assert d[|d| - 1..] == [d[|d| - 1]];
  }

  /** A line that is not a count reads as 0 without disturbing the other one. */
  lemma GarbageCountIsZero(first: string, second: string, rest: seq<string>)
    requires ParseU64(TrimRust(first)).None?
    requires '\n' !in first && !EndsWith(first, "\r")
    ensures ConnectionCounts(Some(first + "\n" + JoinLines([second] + rest))).0 == 0
  {
    FirstLineOf(first, JoinLines([second] + rest));
    IndexOfConcat(first, '\n', JoinLines([second] + rest));
  }

  // ---------------------------------------------------------------- the xray running flag

  /** How launching xray went, step by step. */
  datatype Launch =
    | Launched
    | StdoutLogFailed(reason: string)
    | StderrLogFailed(reason: string)
    | ProcessFailed(reason: string)

  function LaunchResult(launch: Launch): (r: Result<(), ApiError>)
    ensures r.Ok? <==> launch.Launched?
  {
    match launch
    case Launched => Ok(())
    case StdoutLogFailed(e) => Err(SystemError("Failed to create stdout log: " + e))
    case StderrLogFailed(e) => Err(SystemError("Failed to create stderr log: " + e))
    case ProcessFailed(e) => Err(SystemError("Failed to start xray: " + e))
  }

  /** The monitor's xray flag; the sampled system counters are parameters of the sums below. */
  class SystemMonitor {
    var mockRunning: bool

    constructor()
      ensures mockRunning
    {
      mockRunning := true;
    }

    /** The state the stats report shows. */
    function XrayState(): (s: string)
      reads this
      ensures s == "running" <==> mockRunning
      ensures s == "running" || s == "stopped"
    {
      if mockRunning then "running" else "stopped"
    }

    method SetMockRunning(running: bool)
      modifies this
      ensures mockRunning == running
    {
      mockRunning := running;
    }

    /** `stop_xray`: the flag is cleared first; killing the process cannot fail the call. */
    method StopXray() returns (r: Result<(), ApiError>)
      modifies this
      ensures !mockRunning && XrayState() == "stopped"
      ensures r.Ok?
    {
      SetMockRunning(false);
      r := Ok(());
    }

    /** `start_xray`: the flag is set first, so the state reads "running" even when launching fails. */
    method StartXray(launch: Launch) returns (r: Result<(), ApiError>)
      modifies this
      ensures mockRunning && XrayState() == "running"
      ensures r == LaunchResult(launch)
    {
      SetMockRunning(true);
      match launch {
        case Launched => r := Ok(());
        case StdoutLogFailed(e) => r := Err(SystemError("Failed to create stdout log: " + e));
        case StderrLogFailed(e) => r := Err(SystemError("Failed to create stderr log: " + e));
        case ProcessFailed(e) => r := Err(SystemError("Failed to start xray: " + e));
      }
    }

    /** `restart_xray`: stop, then start; the answer is the start's. */
    method RestartXray(launch: Launch) returns (r: Result<(), ApiError>)
      modifies this
      ensures mockRunning
      ensures r == LaunchResult(launch)
    {
      var _ := StopXray();
      r := StartXray(launch);
    }
  }

  // ---------------------------------------------------------------- disk and network sums

  /** A disk's capacity and free space, in bytes. */
  datatype Disk = Disk(totalSpace: nat, availableSpace: nat)

  /** An interface's counters: since boot, and since the last refresh. */
  datatype NetData = NetData(totalTransmitted: nat, totalReceived: nat, transmitted: nat, received: nat)

  /** The sum of `f` over `xs`, from the front. */
  function SumOf<T>(xs: seq<T>, f: T -> int): int
    decreases |xs|
  {
    if xs == [] then 0 else SumOf(xs[..|xs| - 1], f) + f(xs[|xs| - 1])
  }

  /** A pointwise smaller summand gives a smaller sum. */
  lemma {:induction false} SumMonotone<T>(xs: seq<T>, f: T -> int, g: T -> int)
    requires forall i :: 0 <= i < |xs| ==> f(xs[i]) <= g(xs[i])
    ensures SumOf(xs, f) <= SumOf(xs, g)
    decreases |xs|
  {
    if xs != [] {
      SumMonotone(xs[..|xs| - 1], f, g);
    }
  }

  lemma {:induction false} SumNonNegative<T>(xs: seq<T>, f: T -> int)
    requires forall i :: 0 <= i < |xs| ==> 0 <= f(xs[i])
    ensures 0 <= SumOf(xs, f)
    decreases |xs|
  {
    if xs != [] {
      SumNonNegative(xs[..|xs| - 1], f);
    }
  }

  function Capacity(d: Disk): int { d.totalSpace }
  function Used(d: Disk): int { d.totalSpace - d.availableSpace }

  /** `disk.total` and `disk.current` of the stats report. */
  method DiskSums(disks: seq<Disk>) returns (current: int, total: int)
    ensures total == SumOf(disks, Capacity) && current == SumOf(disks, Used)
    ensures 0 <= total && current <= total
    ensures (forall i :: 0 <= i < |disks| ==> disks[i].availableSpace <= disks[i].totalSpace) ==> 0 <= current
  {
    current, total := 0, 0;
    var i := 0;
    while i < |disks|
      invariant 0 <= i <= |disks|
      invariant total == SumOf(disks[..i], Capacity) && current == SumOf(disks[..i], Used)
    {
      assert disks[..i + 1][..i] == disks[..i];
      total := total + disks[i].totalSpace;
      current := current + (disks[i].totalSpace - disks[i].availableSpace);
      i := i + 1;
    }
    assert disks[..i] == disks;
    SumMonotone(disks, Used, Capacity);
    SumNonNegative(disks, Capacity);
    if forall k :: 0 <= k < |disks| ==> disks[k].availableSpace <= disks[k].totalSpace {
      SumNonNegative(disks, Used);
    }
  }

  function Sent(n: NetData): int { n.totalTransmitted }
  function Received(n: NetData): int { n.totalReceived }
  function Up(n: NetData): int { n.transmitted }
  function Down(n: NetData): int { n.received }

  /** `net_traffic` and `net_io` of the stats report: four sums over the interfaces. */
  method NetworkSums(nets: seq<NetData>) returns (sent: int, recv: int, up: int, down: int)
    ensures sent == SumOf(nets, Sent) && recv == SumOf(nets, Received)
    ensures up == SumOf(nets, Up) && down == SumOf(nets, Down)
  {
    sent, recv, up, down := 0, 0, 0, 0;
    var i := 0;
    while i < |nets|
      invariant 0 <= i <= |nets|
      invariant sent == SumOf(nets[..i], Sent) && recv == SumOf(nets[..i], Received)
      invariant up == SumOf(nets[..i], Up) && down == SumOf(nets[..i], Down)
    {
      assert nets[..i + 1][..i] == nets[..i];
      sent := sent + nets[i].totalTransmitted;
      recv := recv + nets[i].totalReceived;
      up := up + nets[i].transmitted;
      down := down + nets[i].received;
      i := i + 1;
    }
    assert nets[..i] == nets;
  }

  /** Traffic since the last refresh never exceeds traffic since boot, summed over the interfaces. */
  lemma IntervalWithinTotals(nets: seq<NetData>)
    requires forall i :: 0 <= i < |nets| ==> nets[i].transmitted <= nets[i].totalTransmitted
    requires forall i :: 0 <= i < |nets| ==> nets[i].received <= nets[i].totalReceived
    ensures SumOf(nets, Up) <= SumOf(nets, Sent) && SumOf(nets, Down) <= SumOf(nets, Received)
  {
    SumMonotone(nets, Up, Sent);
    SumMonotone(nets, Down, Received);
  }
}
