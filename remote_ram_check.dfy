/**
 * `remote_ram_check`: the physical memory of the remote host, judged
 * against a threshold in megabytes. On Windows a PowerShell query prints
 * `TOTAL=<mb>;FREE=<mb>`; on Linux the `Mem:` line of `free -m` gives the
 * total (its second field) and the figure kept as free (its seventh).
 * Only the total decides the verdict.
 */
module RemoteRamCheck {
  import opened Wrappers
  import opened Text
  import opened Values
  import opened Sequences
  import opened RemoteExecutor
  import opened ToolResults
  import RemotePortCheck
  import RemoteDiskCheck

  const ToolName: string := "remote_ram_check"
  const DefaultThreshold: int := 2048

  /** The PowerShell query for the total and free physical memory. */
  const WindowsCommand: string :=
    "powershell -NoProfile -Command \""
    + "$cs = Get-CimInstance Win32_ComputerSystem;"
    + "$os = Get-CimInstance Win32_OperatingSystem;"
    + "$total = [math]::Round($cs.TotalPhysicalMemory/1MB,0);"
    + "$free = [math]::Round($os.FreePhysicalMemory/1KB,0);"
    + "Write-Output (\\\"TOTAL=$total;FREE=$free\\\");\""

  const LinuxCommand: string := "bash -lc \"free -m\""

  type Metrics = RemoteDiskCheck.Metrics
  type Outcome = RemoteDiskCheck.Outcome

  // ---------------------------------------------------------------------------
  // The threshold

  /** `int(min_mb if min_mb is not None else os_cfg.get("min_mb", 2048))`; `get` raises on a non-dictionary. */
  function Threshold(osCfg: Value, minMb: Value): (r: Result<int>)
    ensures !minMb.VNone? ==> (r.Success? <==> PyInt(minMb).Some?)
    ensures !minMb.VNone? && r.Success? ==> r.value == PyInt(minMb).value
    ensures minMb.VNone? && osCfg.VDict? && "min_mb" !in osCfg.fields ==> r == Success(DefaultThreshold)
    ensures minMb.VNone? && !osCfg.VDict? ==> r.Failure?
  {
    var chosen :=
      if !minMb.VNone? then Success(minMb)
      else if osCfg.VDict? then Success(GetOr(osCfg.fields, "min_mb", VInt(DefaultThreshold)))
      else Failure(NoGet(osCfg));
    match chosen
    case Failure(e) => Failure(e)
    case Success(v) =>
      match PyInt(v)
      case None => Failure(RemoteDiskCheck.IntFailure(v))
      case Some(n) => Success(n)
  }

  // ---------------------------------------------------------------------------
  // Results

  /** `_failure`. */
  function FailureResult(message: string, logs: seq<string>): ToolResult
  {
    ToolResult(ToolName, "Failed", ToolName, message, Join("\n", logs))
  }

  function Failed(message: string, logs: seq<string>, commands: seq<string>): Outcome
  {
    RemoteDiskCheck.Outcome(FailureResult(message, logs), None, commands)
  }

  /** `f"{x:.0f}"`: the value rounded to a whole number, a half going to the even neighbour. */
  function Fixed0(x: real): string
  {
    var m := if x < 0.0 then -x else x;
    var n: nat := m.Floor;
    var rounded: nat := if m - n as real > 0.5 || (m - n as real == 0.5 && n % 2 == 1) then n + 1 else n;
    (if x < 0.0 then "-" else "") + NatToString(rounded)
  }

  /** The verdict on the figures read: met exactly when the total megabytes reach the threshold. */
  function Verdict(threshold: int, command: string, metrics: Metrics, logs: seq<string>): (o: Outcome)
    requires "total_mb" in metrics
    ensures o.metrics == Some(metrics) && o.commands == [command]
    ensures o.result.status == "Success" <==> metrics["total_mb"] >= threshold as real
    ensures o.result.status == "Success" || o.result.status == "Failed"
    ensures o.result.name == ToolName && o.result.command == command && o.result.output == Join("\n", logs)
  {
    var total := metrics["total_mb"];
    var met := total >= threshold as real;
    var details := "Total RAM " + Fixed0(total) + " MB " + (if met then "meets" else "below") + " threshold " + IntToString(threshold) + " MB";
    RemoteDiskCheck.Outcome(ToolResult(ToolName, if met then "Success" else "Failed", command, details, Join("\n", logs)), Some(metrics), [command])
  }

  /** The free memory is never consulted: changing it leaves the verdict as it was. */
  lemma FreeNeverConsulted(threshold: int, command: string, metrics: Metrics, free: real, logs: seq<string>)
    requires "total_mb" in metrics
    ensures Verdict(threshold, command, metrics["free_mb" := free], logs).result.status
         == Verdict(threshold, command, metrics, logs).result.status
  {
    RemoteDiskCheck.KeysDistinct();
  }

  // ---------------------------------------------------------------------------
  // The Windows payload

  /** `_parse_metrics`: every figure the parts name, provided the total is among them. */
  function ParsedMetrics(payload: string): (r: Option<Metrics>)
    ensures r.Some? ==> "total_mb" in r.value
  {
    var m := RemoteDiskCheck.Recorded(RemoteDiskCheck.Parts(payload));
    if "total_mb" in m then Some(m) else None
  }

  /** The figures are there exactly when some part names the total, and the total is the number of the last such part. */
  lemma MetricsPresent(payload: string)
    ensures ParsedMetrics(payload).Some? <==>
      LastIndexWhere(RemoteDiskCheck.Parts(payload), RemoteDiskCheck.KeyedBy("total_mb")).Some?
    ensures ParsedMetrics(payload).Some? ==>
      var parts := RemoteDiskCheck.Parts(payload);
      ParsedMetrics(payload).value["total_mb"]
        == RemoteDiskCheck.Entry(parts[LastIndexWhere(parts, RemoteDiskCheck.KeyedBy("total_mb")).value]).value.1
  {
    RemoteDiskCheck.RecordedLastWins(RemoteDiskCheck.Parts(payload), "total_mb");
  }

  /** The line the PowerShell query prints for whole megabytes reads back as those two figures. */
  lemma MetricsReadBack(total: nat, free: nat)
    ensures ParsedMetrics("TOTAL=" + NatToString(total) + ";FREE=" + NatToString(free))
         == Some(map["total_mb" := total as real, "free_mb" := free as real])
  {
    RemoteDiskCheck.TotalPartClean(total);
    RemoteDiskCheck.FreePartClean(free);
    RemoteDiskCheck.TotalPart(total);
    RemoteDiskCheck.FreePart(free);
    RemoteDiskCheck.RecordedTexts(NatToString(total), NatToString(free), total as real, free as real);
  }

  /** `_parse_metrics`. */
  method ParseMetrics(payload: string) returns (r: Option<Metrics>)
    ensures r == ParsedMetrics(payload)
  {
    var metrics := RemoteDiskCheck.RecordParts(Split(Replace(payload, "\r", ""), ';'));
    if "total_mb" in metrics {
      return Some(metrics);
    }
    return None;
  }

  // ---------------------------------------------------------------------------
  // The `free -m` output

  /** A line `_parse_linux_free` reads: it starts with `mem:` once stripped and lower-cased, and has at least seven fields. */
  predicate IsMemLine(line: string)
  {
    StartsWith(Lower(Strip(line)), "mem:") && |SplitWhitespace(line)| >= 7
  }

  /** The figures of a `Mem:` line: the second field as the total, the seventh as the free memory. */
  function FreeFigures(fields: seq<string>): (r: Option<Metrics>)
    requires |fields| >= 7
    ensures r.Some? <==> ParseReal(fields[1]).Some? && ParseReal(fields[6]).Some?
    ensures r.Some? ==> r.value == map["total_mb" := ParseReal(fields[1]).value, "free_mb" := ParseReal(fields[6]).value]
  {
    match ParseReal(fields[1])
    case None => None
    case Some(total) =>
      match ParseReal(fields[6])
      case None => None
      case Some(free) => Some(map["total_mb" := total, "free_mb" := free])
  }

  /** `_parse_linux_free`: the figures of the first line that qualifies, if there is one. */
  function ParsedFree(output: string): (r: Option<Metrics>)
    ensures r.Some? ==> "total_mb" in r.value
  {
    match First(SplitLines(output), IsMemLine)
    case None => None
    case Some(line) => FreeFigures(SplitWhitespace(line))
  }

  /**
   * The first qualifying line decides: lines before it, including `mem:`
   * lines with fewer than seven fields, are passed over, and lines after
   * it are never looked at.
   */
  lemma FirstMemLineDecides(output: string, i: nat)
    requires i < |SplitLines(output)| && IsMemLine(SplitLines(output)[i])
    requires forall j :: 0 <= j < i ==> !IsMemLine(SplitLines(output)[j])
    ensures ParsedFree(output) == FreeFigures(SplitWhitespace(SplitLines(output)[i]))
  {
    FirstAt(SplitLines(output), IsMemLine, i);
  }

  /** `_parse_linux_free`: the search over the lines, then the two fields. */
  method ParseLinuxFree(output: string) returns (r: Option<Metrics>)
    ensures r == ParsedFree(output)
  {
    var line := FindFirst(SplitLines(output), IsMemLine);
    if line.None? {
      return None;
    }
    var parts := SplitWhitespace(line.value);
    var total := ParseReal(parts[1]);
    var free := ParseReal(parts[6]);
    if total.None? || free.None? {
      return None;
    }
    return Some(map["total_mb" := total.value, "free_mb" := free.value]);
  }

  // ---------------------------------------------------------------------------
  // The two systems

  /** The reply to the Windows query, judged; the payload, or `No output`, is logged first. */
  function WindowsJudged(payload: string, threshold: int, logged: seq<string>): (o: Outcome)
    ensures o.commands == [WindowsCommand]
    ensures o.metrics == ParsedMetrics(payload)
    ensures o.result.status == "Success" <==>
      ParsedMetrics(payload).Some? && ParsedMetrics(payload).value["total_mb"] >= threshold as real
  {
    var logs := logged + [if payload == "" then "No output" else payload];
    match ParsedMetrics(payload)
    case None => Failed("Unable to parse memory details", logs, [WindowsCommand])
    case Some(m) => Verdict(threshold, WindowsCommand, m, logs)
  }

  /** `_check_windows`, the commands `sent` having gone out. */
  function WindowsCheck(link: Link, sent: seq<string>, threshold: int, logs: seq<string>): Outcome
  {
    WindowsJudged(RemoteDiskCheck.Payload(link.respond(|sent|, WindowsCommand)), threshold, logs)
  }

  /** The standard output of `free -m`, judged; both streams are logged already. */
  function LinuxJudged(stdout: string, threshold: int, logged: seq<string>): (o: Outcome)
    ensures o.commands == [LinuxCommand]
    ensures o.metrics == ParsedFree(stdout)
    ensures o.result.status == "Success" <==>
      ParsedFree(stdout).Some? && ParsedFree(stdout).value["total_mb"] >= threshold as real
  {
    match ParsedFree(stdout)
    case None => Failed("Unable to parse free -m output", logged, [LinuxCommand])
    case Some(m) => Verdict(threshold, LinuxCommand, m, logged)
  }

  /** `_check_linux`, the commands `sent` having gone out. */
  function LinuxCheck(link: Link, sent: seq<string>, threshold: int, logs: seq<string>): Outcome
  {
    var reply := link.respond(|sent|, LinuxCommand);
    LinuxJudged(reply.stdout, threshold, logs + NonBlankStripped([reply.stdout, reply.stderr]))
  }

  // ---------------------------------------------------------------------------
  // The tool

  /** The branch of `run` for the detected system once the threshold is known. */
  function CheckSettled(link: Link, sent: seq<string>, os: string, threshold: int): Outcome
  {
    var logs := RemotePortCheck.OsLog(os);
    if os == "windows" then WindowsCheck(link, sent, threshold, logs)
    else if os == "linux" then LinuxCheck(link, sent, threshold, logs)
    else Failed(RemotePortCheck.UnsupportedMessage, logs, [])
  }

  /** Everything after the system is known to be `os`, the commands `sent` having gone out. */
  function CheckOn(link: Link, sent: seq<string>, os: string, config: Value, minMb: Value): Outcome
  {
    match Threshold(RemotePortCheck.OsConfig(config, os), minMb)
    case Failure(e) => Failed(e, RemotePortCheck.OsLog(os) + ["Exception: " + e], [])
    case Success(threshold) => CheckSettled(link, sent, os, threshold)
  }

  /** `run(executor, config, min_mb)` after the commands `sent`. */
  function RamCheck(link: Link, sent: seq<string>, config: Value, minMb: Value): Outcome
  {
    RemoteDiskCheck.After(OsProbes(link, |sent|),
      CheckOn(link, sent + OsProbes(link, |sent|), DetectedOs(link, |sent|), config, minMb))
  }

  /** How a settled check's verdict relates to the figures it reports. */
  predicate Consistent(o: Outcome, threshold: int)
  {
    && (o.metrics.Some? ==>
          "total_mb" in o.metrics.value && (o.result.status == "Success" <==> o.metrics.value["total_mb"] >= threshold as real))
    && (o.metrics.None? ==> o.result.status == "Failed")
  }

  lemma WindowsConsistent(link: Link, sent: seq<string>, threshold: int, logs: seq<string>)
    ensures Consistent(WindowsCheck(link, sent, threshold, logs), threshold)
  {
  }

  lemma LinuxConsistent(link: Link, sent: seq<string>, threshold: int, logs: seq<string>)
    ensures Consistent(LinuxCheck(link, sent, threshold, logs), threshold)
  {
  }

  /**
   * Once the threshold is known, one query goes out exactly when the system
   * is Windows or Linux, and it is that system's query; figures come back
   * only with a verdict on their total, and a run without figures fails.
   */
  lemma SettledQueries(link: Link, sent: seq<string>, os: string, threshold: int)
    ensures CheckSettled(link, sent, os, threshold).commands
         == (if os == "windows" then [WindowsCommand] else if os == "linux" then [LinuxCommand] else [])
    ensures Consistent(CheckSettled(link, sent, os, threshold), threshold)
  {
    var logs := RemotePortCheck.OsLog(os);
    if os == "windows" {
      WindowsConsistent(link, sent, threshold, logs);
    } else if os == "linux" {
      LinuxConsistent(link, sent, threshold, logs);
    }
  }

  /** No query goes out when the threshold cannot be worked out; the run fails with the exception's message. */
  lemma UnsettledSendsNothing(link: Link, sent: seq<string>, os: string, config: Value, minMb: Value)
    requires Threshold(RemotePortCheck.OsConfig(config, os), minMb).Failure?
    ensures CheckOn(link, sent, os, config, minMb).commands == []
    ensures CheckOn(link, sent, os, config, minMb).result.status == "Failed"
    ensures CheckOn(link, sent, os, config, minMb).result.details
         == Threshold(RemotePortCheck.OsConfig(config, os), minMb).error
  {
  }

  // ---------------------------------------------------------------------------
  // The tool over a connected executor

  /** The reply to the Windows query, judged. */
  method JudgeWindows(payload: string, threshold: int, logged: seq<string>) returns (o: Outcome)
    ensures o == WindowsJudged(payload, threshold, logged)
  {
    var logs := logged + [if payload == "" then "No output" else payload];
    var metrics := ParseMetrics(payload);
    if metrics.None? {
      return Failed("Unable to parse memory details", logs, [WindowsCommand]);
    }
    o := Verdict(threshold, WindowsCommand, metrics.value, logs);
  }

  /** `_check_windows`. */
  method CheckWindows(ex: Executor, threshold: int, logs: seq<string>) returns (o: Outcome)
    requires ex.connected
    modifies ex`issued
    ensures o == WindowsCheck(ex.link, old(ex.issued), threshold, logs)
    ensures ex.issued == old(ex.issued) + o.commands
  {
    var stdout, stderr := ex.Run(WindowsCommand);
    o := JudgeWindows(RemoteDiskCheck.Payload(Reply(stdout, stderr)), threshold, logs);
  }

  /** The output of `free -m`, judged. */
  method JudgeLinux(stdout: string, threshold: int, logged: seq<string>) returns (o: Outcome)
    ensures o == LinuxJudged(stdout, threshold, logged)
  {
    var metrics := ParseLinuxFree(stdout);
    if metrics.None? {
      return Failed("Unable to parse free -m output", logged, [LinuxCommand]);
    }
    o := Verdict(threshold, LinuxCommand, metrics.value, logged);
  }

  /** `_check_linux`. */
  method CheckLinux(ex: Executor, threshold: int, logs: seq<string>) returns (o: Outcome)
    requires ex.connected
    modifies ex`issued
    ensures o == LinuxCheck(ex.link, old(ex.issued), threshold, logs)
    ensures ex.issued == old(ex.issued) + o.commands
  {
    var stdout, stderr := ex.Run(LinuxCommand);
    o := JudgeLinux(stdout, threshold, logs + NonBlankStripped([stdout, stderr]));
  }

  /** The body of `run` once the system is known to be `os`. */
  method CheckDetected(ex: Executor, os: string, config: Value, minMb: Value) returns (o: Outcome)
    requires ex.connected
    modifies ex`issued
    ensures o == CheckOn(ex.link, old(ex.issued), os, config, minMb)
    ensures ex.issued == old(ex.issued) + o.commands
  {
    var logs := RemotePortCheck.OsLog(os);
    var threshold := Threshold(RemotePortCheck.OsConfig(config, os), minMb);
    if threshold.Failure? {
      return Failed(threshold.error, logs + ["Exception: " + threshold.error], []);
    }
    if os == "windows" {
      o := CheckWindows(ex, threshold.value, logs);
    } else if os == "linux" {
      o := CheckLinux(ex, threshold.value, logs);
    } else {
      o := Failed(RemotePortCheck.UnsupportedMessage, logs, []);
    }
  }

  /** `run(executor, config, min_mb)` on a connected executor. */
  method Run(ex: Executor, config: Value, minMb: Value) returns (o: Outcome)
    requires ex.connected
    modifies ex`issued
    ensures o == RamCheck(ex.link, old(ex.issued), config, minMb)
    ensures ex.issued == old(ex.issued) + o.commands
  {
    var before := ex.issued;
    var os := ex.DetectOs();
    var checked := CheckDetected(ex, os, config, minMb);
    AppendAssoc(before, OsProbes(ex.link, |before|), checked.commands);
    o := RemoteDiskCheck.After(OsProbes(ex.link, |before|), checked);
  }
}
