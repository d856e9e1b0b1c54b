/**
 * `remote_tomcat_uninstall`: removes a Tomcat directory, and optionally its
 * logs directory, from a remote Windows or Linux host. The home directory
 * and the logs choice come from the caller, else the section of the
 * configuration for the detected system, else the top level of the
 * configuration.
 */
module RemoteTomcatUninstall {
  import opened Wrappers
  import opened Text
  import opened Values
  import opened Sequences
  import opened RemoteExecutor
  import opened ToolResults
  import PosixShell
  import PowerShellQuoting
  import RemoteDiskCheck

  const ToolName: string := "remote_tomcat_uninstall"

  /** What the tool returns, and every command it sent, probes included. */
  datatype Removal = Removal(result: ToolResult, commands: seq<string>)

  function Then(before: seq<string>, r: Removal): Removal
  {
    r.(commands := before + r.commands)
  }

  /** `_failure(message, logs)`. */
  function Failed(message: string, logs: seq<string>): (r: Removal)
    ensures r.result.status == "Failed" && r.result.details == message && r.commands == []
  {
    Removal(ToolResult(ToolName, "Failed", ToolName, message, Join("\n", logs)), [])
  }

  /** The `except Exception` branch of `run`. */
  function ExceptionFailure(message: string, logs: seq<string>): (r: Removal)
    ensures r.result.status == "Failed" && r.result.details == message && r.commands == []
  {
    Failed(message, logs + ["Exception: " + message])
  }

  // ---------------------------------------------------------------------------
  // Settings

  /** `v.get(key)`, which raises unless `v` is a dictionary. */
  function Lookup(v: Value, key: string): (r: Result<Value>)
    ensures r.Success? <==> v.VDict?
  {
    if v.VDict? then Success(Get(v.fields, key)) else Failure(NoGet(v))
  }

  /** `config.get(os_type, {}) if isinstance(config, dict) else {}`. */
  function OsSection(config: Value, os: string): Value
  {
    if config.VDict? then GetOr(config.fields, os, VDict(map[])) else VDict(map[])
  }

  /** `tomcat_home or os_cfg.get("tomcat_home") or config.get("tomcat_home")`. */
  function HomeOf(config: Value, osCfg: Value, home: Value): Result<Value>
  {
    if Truthy(home) then Success(home)
    else
      var fromOs :- Lookup(osCfg, "tomcat_home");
      if Truthy(fromOs) then Success(fromOs) else Lookup(config, "tomcat_home")
  }

  /** The logs choice: the argument unless `None`, else the section's value unless `None`, else the top level's, `True` by default. */
  function CleanupOf(config: Value, osCfg: Value, cleanup: Value): Result<bool>
  {
    var fromOs :- Lookup(osCfg, "cleanup_logs");
    var default :- if fromOs.VNone? then
                     (if config.VDict? then Success(GetOr(config.fields, "cleanup_logs", VBool(true))) else Failure(NoGet(config)))
                   else Success(fromOs);
    Success(Truthy(if cleanup.VNone? then default else cleanup))
  }

  /** `os_cfg.get("logs_dir") or config.get("logs_dir")`. */
  function LogsDirOf(config: Value, osCfg: Value): Result<Value>
  {
    var fromOs :- Lookup(osCfg, "logs_dir");
    if Truthy(fromOs) then Success(fromOs) else Lookup(config, "logs_dir")
  }

  // ---------------------------------------------------------------------------
  // Commands

  const TestHead: string := "powershell -NoProfile -Command if (Test-Path -LiteralPath "
  const RemoveHead: string := ") { Remove-Item -LiteralPath "
  const RemoveTail: string := " -Recurse -Force }"

  /** The PowerShell command that removes `path` when it exists, the path quoted twice. */
  function WindowsRemoval(path: string): string
  {
    TestHead + PowerShellQuoting.Literal(path) + RemoveHead + PowerShellQuoting.Literal(path) + RemoveTail
  }

  /** `rm -rf <shlex.quote(path)>`. */
  function LinuxRemoval(path: string): string
  {
    "rm -rf " + PosixShell.Quote(path)
  }

  /** The removal command for the detected system. */
  function RemoveCommand(os: string, path: string): string
  {
    if os == "windows" then WindowsRemoval(path) else LinuxRemoval(path)
  }

  /** The logs directory goes too when cleanup is chosen and a logs directory is named. */
  predicate RemovesLogs(logsDir: Value, cleanup: bool)
  {
    cleanup && Truthy(logsDir)
  }

  /** `_uninstall_windows` / `_uninstall_linux` once the home is known: the commands sent. */
  function RemovalCommands(os: string, home: string, logsDir: Value, cleanup: bool): (cmds: seq<string>)
    ensures |cmds| == if RemovesLogs(logsDir, cleanup) then 2 else 1
    ensures cmds[0] == RemoveCommand(os, home)
    ensures RemovesLogs(logsDir, cleanup) ==> cmds[1] == RemoveCommand(os, PyStr(logsDir))
  {
    [RemoveCommand(os, home)] + (if RemovesLogs(logsDir, cleanup) then [RemoveCommand(os, PyStr(logsDir))] else [])
  }

  /** The logs after one removal: its announcement, then what the command printed. */
  function StepLogs(link: Link, n: nat, os: string, path: string, headline: string, logs: seq<string>): seq<string>
  {
    logs + [headline] + ReplyLogs(link.respond(n, RemoveCommand(os, path)))
  }

  /** The logs of the whole removal, given what each command printed. */
  function RemovalLogs(link: Link, n: nat, os: string, home: string, logsDir: Value, cleanup: bool, logs: seq<string>)
    : seq<string>
  {
    var first := StepLogs(link, n, os, home, "Removing directory " + home, logs);
    if RemovesLogs(logsDir, cleanup) then StepLogs(link, n + 1, os, PyStr(logsDir), "Removing logs directory " + PyStr(logsDir), first)
    else first
  }

  function Succeeded(home: string, logs: seq<string>): (t: ToolResult)
    ensures t.status == "Success" && t.details == "Removed Tomcat directory " + home
  {
    ToolResult(ToolName, "Success", "Remove Tomcat at " + home, "Removed Tomcat directory " + home, Join("\n", logs))
  }

  /** The removal on a supported system: whatever the commands print, it succeeds. */
  function Removed(link: Link, next: seq<string>, os: string, home: string, logsDir: Value, cleanup: bool, logs: seq<string>)
    : (r: Removal)
    ensures r.result.status == "Success" && r.result.details == "Removed Tomcat directory " + home
    ensures r.commands == RemovalCommands(os, home, logsDir, cleanup)
  {
    Removal(Succeeded(home, RemovalLogs(link, |next|, os, home, logsDir, cleanup, logs)),
            RemovalCommands(os, home, logsDir, cleanup))
  }

  /** `run` once the system is known. */
  function Resolved(link: Link, next: seq<string>, os: string, config: Value, home: Value, cleanup: Value, logs: seq<string>)
    : Removal
  {
    match HomeOf(config, OsSection(config, os), home)
    case Failure(e) => ExceptionFailure(e, logs)
    case Success(h) =>
      if !Truthy(h) then Failed("Tomcat home directory not supplied", logs)
      else HomeKnown(link, next, os, config, PyStr(h), cleanup, logs)
  }

  /** `run` once the home is known. */
  function HomeKnown(link: Link, next: seq<string>, os: string, config: Value, home: string, cleanup: Value, logs: seq<string>)
    : Removal
  {
    var osCfg := OsSection(config, os);
    match CleanupOf(config, osCfg, cleanup)
    case Failure(e) => ExceptionFailure(e, logs)
    case Success(c) =>
      if os == "windows" || os == "linux" then
        match LogsDirOf(config, osCfg)
        case Failure(e) => ExceptionFailure(e, logs)
        case Success(d) => Removed(link, next, os, home, d, c, logs)
      else Failed("Unsupported operating system", logs)
  }

  /** `run(executor, config, tomcat_home, cleanup_logs)` on a connected session that has sent `sent`. */
  function Uninstall(link: Link, sent: seq<string>, config: Value, home: Value, cleanup: Value): Removal
  {
    var os := DetectedOs(link, |sent|);
    var probes := OsProbes(link, |sent|);
    Then(probes, Resolved(link, sent + probes, os, config, home, cleanup, ["Detected OS: " + os]))
  }

  // ---------------------------------------------------------------------------
  // Properties

  /** The configuration is a dictionary, and so is its section for `os` (or it has none). */
  predicate DictConfig(config: Value, os: string)
  {
    config.VDict? && OsSection(config, os).VDict?
  }

  /** The home to remove: the argument, else the section's, else the top level's, whichever is first set. */
  function ChosenHome(config: Value, os: string, home: Value): Value
    requires DictConfig(config, os)
  {
    if Truthy(home) then home
    else if Truthy(Get(OsSection(config, os).fields, "tomcat_home")) then Get(OsSection(config, os).fields, "tomcat_home")
    else Get(config.fields, "tomcat_home")
  }

  /** Whether the logs directory is to go: the argument, else the section's, else the top level's setting, `True` when none is set. */
  predicate ChosenCleanup(config: Value, os: string, cleanup: Value)
    requires DictConfig(config, os)
  {
    if !cleanup.VNone? then Truthy(cleanup)
    else if !Get(OsSection(config, os).fields, "cleanup_logs").VNone? then Truthy(Get(OsSection(config, os).fields, "cleanup_logs"))
    else !("cleanup_logs" in config.fields) || Truthy(config.fields["cleanup_logs"])
  }

  function ChosenLogsDir(config: Value, os: string): Value
    requires DictConfig(config, os)
  {
    Or(Get(OsSection(config, os).fields, "logs_dir"), Get(config.fields, "logs_dir"))
  }

  lemma ResolvedSettings(config: Value, os: string, home: Value, cleanup: Value)
    requires DictConfig(config, os)
    ensures HomeOf(config, OsSection(config, os), home) == Success(ChosenHome(config, os, home))
    ensures CleanupOf(config, OsSection(config, os), cleanup) == Success(ChosenCleanup(config, os, cleanup))
    ensures LogsDirOf(config, OsSection(config, os)) == Success(ChosenLogsDir(config, os))
  {
  }

  /**
   * On Windows or Linux, with dictionaries for settings and a home named
   * somewhere, the tool removes the chosen home, then the logs directory
   * exactly when cleanup is chosen and one is named, and reports success
   * whatever the commands print.
   */
  lemma RemovesChosen(link: Link, sent: seq<string>, config: Value, home: Value, cleanup: Value)
    requires var os := DetectedOs(link, |sent|);
      (os == "windows" || os == "linux") && DictConfig(config, os) && Truthy(ChosenHome(config, os, home))
    ensures var os := DetectedOs(link, |sent|);
      var r := Uninstall(link, sent, config, home, cleanup);
      var h := PyStr(ChosenHome(config, os, home));
      && r.result.status == "Success" && r.result.details == "Removed Tomcat directory " + h
      && r.commands == OsProbes(link, |sent|) + RemovalCommands(os, h, ChosenLogsDir(config, os), ChosenCleanup(config, os, cleanup))
  {
    ResolvedSettings(config, DetectedOs(link, |sent|), home, cleanup);
  }

  /** The logs directory is removed exactly when cleanup is chosen and a logs directory is named. */
  lemma LogsRemovedIff(link: Link, sent: seq<string>, config: Value, home: Value, cleanup: Value)
    requires var os := DetectedOs(link, |sent|);
      (os == "windows" || os == "linux") && DictConfig(config, os) && Truthy(ChosenHome(config, os, home))
    ensures var os := DetectedOs(link, |sent|);
      var r := Uninstall(link, sent, config, home, cleanup);
      |r.commands| == |OsProbes(link, |sent|)| + 2
      <==> ChosenCleanup(config, os, cleanup) && Truthy(ChosenLogsDir(config, os))
  {
    RemovesChosen(link, sent, config, home, cleanup);
  }

  /** With no home in the argument or the settings, nothing is removed. */
  lemma HomeMissingFails(link: Link, sent: seq<string>, config: Value, home: Value, cleanup: Value)
    requires var os := DetectedOs(link, |sent|); DictConfig(config, os) && !Truthy(ChosenHome(config, os, home))
    ensures var r := Uninstall(link, sent, config, home, cleanup);
      r.result.status == "Failed" && r.result.details == "Tomcat home directory not supplied"
      && r.commands == OsProbes(link, |sent|)
  {
    ResolvedSettings(config, DetectedOs(link, |sent|), home, cleanup);
    assert OsProbes(link, |sent|) + [] == OsProbes(link, |sent|);
  }

  /** A system that is neither Windows nor Linux fails without removing anything. */
  lemma UnsupportedFails(link: Link, sent: seq<string>, config: Value, home: Value, cleanup: Value)
    requires var os := DetectedOs(link, |sent|);
      os != "windows" && os != "linux" && DictConfig(config, os) && Truthy(ChosenHome(config, os, home))
    ensures var r := Uninstall(link, sent, config, home, cleanup);
      r.result.status == "Failed" && r.result.details == "Unsupported operating system"
      && r.commands == OsProbes(link, |sent|)
  {
    ResolvedSettings(config, DetectedOs(link, |sent|), home, cleanup);
    assert OsProbes(link, |sent|) + [] == OsProbes(link, |sent|);
  }

  lemma RemoveHeadGlue()
    ensures RemoveHead[0] == ')' && RemoveTail[0] == ' '
  {
  }

  /** PowerShell reads both quoted paths of the Windows removal back as exactly `path`, whatever quotes it holds. */
  lemma WindowsRemovalReadsBack(path: string)
    ensures var afterTest := WindowsRemoval(path)[|TestHead|..];
      PowerShellQuoting.ReadLiteral(afterTest)
        == Some((path, RemoveHead + PowerShellQuoting.Literal(path) + RemoveTail))
    ensures PowerShellQuoting.ReadLiteral((RemoveHead + PowerShellQuoting.Literal(path) + RemoveTail)[|RemoveHead|..])
        == Some((path, RemoveTail))
  {
    var lit := PowerShellQuoting.Literal(path);
    RemoveHeadGlue();
    assert WindowsRemoval(path)[|TestHead|..] == lit + (RemoveHead + lit + RemoveTail);
    PowerShellQuoting.LiteralReadsBack(path, RemoveHead + lit + RemoveTail);
    assert (RemoveHead + lit + RemoveTail)[|RemoveHead|..] == lit + RemoveTail;
    PowerShellQuoting.LiteralReadsBack(path, RemoveTail);
  }

  lemma RmSafe()
    ensures "rm" != [] && PosixShell.AllSafe("rm") && "-rf" != [] && PosixShell.AllSafe("-rf")
    ensures "rm" + " " + ("-rf" + " ") == "rm -rf "
  {
  }

  /** The shell hands `rm` exactly the words `-rf` and `path`, whatever `path` holds. */
  lemma LinuxRemovalReadsBack(path: string, env: string -> string)
    ensures PosixShell.Tokens(LinuxRemoval(path), env)
         == Some([PosixShell.Word("rm"), PosixShell.Word("-rf"), PosixShell.Word(path)])
  {
    RmSafe();
    RemoteDiskCheck.QuoteSafe("rm");
    RemoteDiskCheck.QuoteSafe("-rf");
    RemoteDiskCheck.LineOfThree("rm", "-rf", path);
    AppendAssoc("rm" + " ", "-rf" + " ", PosixShell.Quote(path));
    assert PosixShell.QuotedLine(["rm", "-rf", path]) == LinuxRemoval(path);
    PosixShell.QuotedLineReadsBack(["rm", "-rf", path], env);
  }

  // ---------------------------------------------------------------------------
  // The tool on a connected executor

  /** Announces and sends one removal, and logs what it printed. */
  method RemoveOne(ex: Executor, os: string, path: string, headline: string, logs: seq<string>) returns (logs': seq<string>)
    requires ex.connected
    modifies ex`issued
    ensures logs' == StepLogs(ex.link, |old(ex.issued)|, os, path, headline, logs)
    ensures ex.issued == old(ex.issued) + [RemoveCommand(os, path)]
  {
    logs' := logs + [headline];
    var stdout, stderr := ex.Run(RemoveCommand(os, path));
    if !IsBlank(stdout) {
      logs' := logs' + [Strip(stdout)];
    }
    if !IsBlank(stderr) {
      logs' := logs' + ["stderr: " + Strip(stderr)];
    }
  }

  /** `_uninstall_windows` / `_uninstall_linux`. */
  method Remove(ex: Executor, os: string, home: string, logsDir: Value, cleanup: bool, logs: seq<string>)
    returns (r: Removal)
    requires ex.connected
    modifies ex`issued
    ensures r == Removed(ex.link, old(ex.issued), os, home, logsDir, cleanup, logs)
    ensures ex.issued == old(ex.issued) + r.commands
  {
    var logs' := RemoveOne(ex, os, home, "Removing directory " + home, logs);
    if RemovesLogs(logsDir, cleanup) {
      logs' := RemoveOne(ex, os, PyStr(logsDir), "Removing logs directory " + PyStr(logsDir), logs');
    }
    r := Removal(Succeeded(home, logs'), RemovalCommands(os, home, logsDir, cleanup));
  }

  /** `run` once the system is known. */
  method Resolve(ex: Executor, os: string, config: Value, home: Value, cleanup: Value, logs: seq<string>)
    returns (r: Removal)
    requires ex.connected
    modifies ex`issued
    ensures r == Resolved(ex.link, old(ex.issued), os, config, home, cleanup, logs)
    ensures ex.issued == old(ex.issued) + r.commands
  {
    var h := HomeOf(config, OsSection(config, os), home);
    if h.Failure? {
      return ExceptionFailure(h.error, logs);
    }
    if !Truthy(h.value) {
      return Failed("Tomcat home directory not supplied", logs);
    }
    r := RemoveKnownHome(ex, os, config, PyStr(h.value), cleanup, logs);
  }

  /** `run` once the home is known. */
  method RemoveKnownHome(ex: Executor, os: string, config: Value, home: string, cleanup: Value, logs: seq<string>)
    returns (r: Removal)
    requires ex.connected
    modifies ex`issued
    ensures r == HomeKnown(ex.link, old(ex.issued), os, config, home, cleanup, logs)
    ensures ex.issued == old(ex.issued) + r.commands
  {
    var osCfg := OsSection(config, os);
    var c := CleanupOf(config, osCfg, cleanup);
    if c.Failure? {
      return ExceptionFailure(c.error, logs);
    }
    if os != "windows" && os != "linux" {
      return Failed("Unsupported operating system", logs);
    }
    match LogsDirOf(config, osCfg) {
      case Failure(e) => r := ExceptionFailure(e, logs);
      case Success(d) => r := Remove(ex, os, home, d, c.value, logs);
    }
  }

  /** `run(executor, config, tomcat_home, cleanup_logs)`. */
  method Run(ex: Executor, config: Value, home: Value, cleanup: Value) returns (r: Removal)
    requires ex.connected
    modifies ex`issued
    ensures r == Uninstall(ex.link, old(ex.issued), config, home, cleanup)
    ensures ex.issued == old(ex.issued) + r.commands
  {
    var before := ex.issued;
    var os := ex.DetectOs();
    var rest := Resolve(ex, os, config, home, cleanup, ["Detected OS: " + os]);
    AppendAssoc(before, OsProbes(ex.link, |before|), rest.commands);
    r := Then(OsProbes(ex.link, |before|), rest);
  }
}
