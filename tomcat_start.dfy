/**
 * `remote_tomcat_start`: runs Tomcat's start command on a remote Windows or
 * Linux host, then waits for its port to listen. The start command and the
 * wait are each sent with a timeout in seconds; a command that overruns it
 * raises `TimeoutError` (the executor's `RunTimed`).
 *
 * As written, the tool passes `timeout=` to `RemoteExecutor.run`, which has
 * no such parameter: `TomcatStartAsWritten` models that code, the rest of
 * the module the intended behaviour.
 */
module TomcatStart {
  import opened Wrappers
  import opened Text
  import opened Values
  import opened Sequences
  import opened RemoteExecutor
  import opened ToolResults
  import PosixShell
  import PyFormat
  import RemoteDiskCheck
  import RemoteTomcatInstall

  const ToolName: string := "remote_tomcat_start"

  /** What the tool returns, the home it acted on, and every command it sent, probes included. */
  datatype Start = Start(result: ToolResult, tomcatHome: Option<string>, commands: seq<string>)

  function Then(before: seq<string>, r: Start): Start
  {
    r.(commands := before + r.commands)
  }

  /** `_failure(message, logs)`. */
  function Failed(message: string, logs: seq<string>): (r: Start)
    ensures r.result.status == "Failed" && r.result.details == message && r.tomcatHome.None? && r.commands == []
  {
    Start(ToolResult(ToolName, "Failed", ToolName, message, Join("\n", logs)), None, [])
  }

  // ---------------------------------------------------------------------------
  // Settings

  /** The configuration, or `{}` when it is not a dictionary. */
  function ConfigDict(config: Value): Dict
  {
    if config.VDict? then config.fields else map[]
  }

  /** The section for `os` when it is a dictionary, else `{}`. */
  function OsConfig(cfg: Dict, os: string): Dict
  {
    if Get(cfg, os).VDict? then Get(cfg, os).fields else map[]
  }

  /** `tomcat_home or os_cfg.get("tomcat_home") or config.get("tomcat_home")`. */
  function HomeValue(cfg: Dict, osCfg: Dict, home: Value): Value
  {
    Or(Or(home, Get(osCfg, "tomcat_home")), Get(cfg, "tomcat_home"))
  }

  /** `isinstance(v, (int, float)) and v > 0` (`True` is the integer 1). */
  predicate PositiveNumber(v: Value)
  {
    match v
    case VBool(b) => b
    case VInt(i) => i > 0
    case VReal(r) => r > 0.0
    case _ => false
  }

  /** `float(v)` for a number. */
  function AsReal(v: Value): (r: real)
    ensures PositiveNumber(v) ==> r > 0.0 && PyFloat(v) == Some(r)
  {
    match v
    case VBool(b) => if b then 1.0 else 0.0
    case VInt(i) => i as real
    case VReal(r) => r
    case _ => 0.0
  }

  /** `_resolve_timeout` / `_resolve_ready_timeout`: the first positive number among the section's and the top level's `key`, else 120. */
  function Seconds(osCfg: Dict, cfg: Dict, key: string): real
  {
    match First([Get(osCfg, key), Get(cfg, key)], PositiveNumber)
    case Some(v) => AsReal(v)
    case None => 120.0
  }

  /** `isinstance(v, int) and v > 0`, or `isinstance(v, str) and v.isdigit()`. */
  predicate PortCandidate(v: Value)
  {
    (v.VBool? && v.b) || (v.VInt? && v.i > 0) || (v.VStr? && IsDigitString(v.s))
  }

  /** `_resolve_port`: the first candidate, a digit string read as its number, else 8080. */
  function Port(osCfg: Dict, cfg: Dict): Value
  {
    match First([Get(osCfg, "port"), Get(cfg, "port")], PortCandidate)
    case Some(v) => if v.VStr? then VInt(DigitsValue(v.s)) else v
    case None => VInt(8080)
  }

  /** Everything `run` settles before sending the start command. */
  datatype Settings = Settings(home: string, execTimeout: real, readyTimeout: real, port: Value, template: Value)

  /** The settings, or `None` when no home is named anywhere. */
  function Prepare(config: Value, os: string, home: Value): Option<Settings>
  {
    var cfg := ConfigDict(config);
    var osCfg := OsConfig(cfg, os);
    var h := HomeValue(cfg, osCfg, home);
    if !Truthy(h) then None
    else Some(Settings(PyStr(h), Seconds(osCfg, cfg, "timeout"), Seconds(osCfg, cfg, "ready_timeout"), Port(osCfg, cfg),
                       Or(Get(osCfg, "start_command"), Get(cfg, "start_command"))))
  }

  /** `f"{x:.0f}"`: the nearest integer, ties to even. */
  function RoundHalfEven(r: real): (n: int)
    ensures n as real - 0.5 <= r <= n as real + 0.5
  {
    var f := r.Floor;
    if r - f as real < 0.5 then f
    else if r - f as real > 0.5 then f + 1
    else if f % 2 == 0 then f
    else f + 1
  }

  function Whole(r: real): string
  {
    IntToString(RoundHalfEven(r))
  }

  function SettingsLogs(s: Settings): seq<string>
  {
    ["Command timeout set to " + Whole(s.execTimeout) + "s",
     "Readiness timeout set to " + Whole(s.readyTimeout) + "s",
     "Target port: " + PyStr(s.port)]
  }

  // ---------------------------------------------------------------------------
  // Commands

  /** `template.format(tomcat_home=home)`: the home in place of each `{tomcat_home}`, or what the template raises. */
  function FormatHome(template: string, home: string): Result<string>
  {
    PyFormat.Format(template, "tomcat_home", home)
  }

  /** The built-in Windows start: `startup.bat` in the background, backslashes in the home doubled. */
  function WindowsDefault(home: string): string
  {
    var psHome := Replace(home, "\\", "\\\\");
    "powershell -NoProfile -Command \"if (-not (Test-Path '" + psHome + "')) { Write-Error 'Tomcat directory not found'; exit 1 }; "
    + "$bin = '" + psHome + WindowsStartTail
  }

  /** The part of the built-in Windows start after the home's last mention. */
  const WindowsStartTail: string :=
    "\\bin'; "
    + "$startup = Join-Path $bin 'startup.bat'; "
    + "if (-not (Test-Path $startup)) { Write-Error 'startup.bat not found'; exit 1 }; "
    + "Start-Process -FilePath 'cmd.exe' -ArgumentList '/c', $startup -WorkingDirectory $bin -WindowStyle Hidden; "
    + "Start-Sleep -Seconds 3; "
    + "if (Get-Process -Name java -ErrorAction SilentlyContinue) { Write-Output 'Tomcat process started' } else { Write-Warning 'Java process not detected yet' }\""

  /** The script the built-in Linux start hands to `bash -lc`. */
  function LinuxScript(home: string): string
  {
    var root := RemoteTomcatInstall.TrimSlashes(home);
    var quoted := PosixShell.Quote(root);
    "if [ ! -d " + quoted + " ]; then "
    + "echo 'Tomcat directory not found: " + root + "' >&2; exit 1; fi; "
    + "cd " + quoted + LinuxStartTail
  }

  /** The part of the built-in Linux start after the home's last mention. */
  const LinuxStartTail: string :=
    "/bin && "
    + "chmod +x startup.sh && "
    + "nohup ./startup.sh >/dev/null 2>&1 & "
    + "sleep 3; "
    + "if pgrep -f 'catalina|tomcat' >/dev/null; then "
    + "echo 'Tomcat process started'; else echo 'Warning: Tomcat process not detected yet' >&2; fi"

  /**
   * The start command: the configured template with the home put in, else
   * the built-in one for the system; a template that is not a string, or
   * that does not format, raises.
   */
  function StartCommand(os: string, s: Settings): Result<string>
  {
    if Truthy(s.template) then PyFormat.FormatValue(s.template, "tomcat_home", s.home)
    else if os == "windows" then Success(WindowsDefault(s.home))
    else Success(RemoteDiskCheck.LinuxCommandOf(LinuxScript(s.home)))
  }

  /** The part of the PowerShell wait that does not depend on the port or the timeout. */
  const WindowsWaitLoop: string :=
    "while ((Get-Date) -lt $deadline) {"
    + "  $listeners = [System.Net.NetworkInformation.IPGlobalProperties]::GetIPGlobalProperties().GetActiveTcpListeners();"
    + "  if ($listeners | Where-Object { $_.Port -eq $port }) {"
    + "    Write-Output \"Port $port is listening.\"; exit 0"
    + "  }"
    + "  Start-Sleep -Milliseconds 500"
    + "}"

  /** The PowerShell loop that waits for `port` to listen, for `int(timeout)` seconds. */
  function WindowsWait(port: string, seconds: string): string
  {
    "powershell -NoProfile -Command \"& { "
    + "$port = " + port + ";"
    + "$deadline = (Get-Date).AddSeconds(" + seconds + ");"
    + WindowsWaitLoop
    + "Write-Error \"Tomcat port " + port + " not listening after " + seconds + "s\"; exit 1"
    + " }\""
  }

  /** The shell loop that waits for `port` to listen, for `int(timeout)` seconds. */
  function LinuxWaitScript(port: string, seconds: string): string
  {
    "end=$((SECONDS+" + seconds + "));"
    + "while [ $SECONDS -lt $end ]; do "
    + "if ss -ltn '( sport = :" + port + " )' 2>/dev/null | grep -q " + port + "; then "
    + "echo 'Port " + port + " is listening.'; exit 0; fi; "
    + "sleep 0.5;"
    + "done;"
    + "echo 'Tomcat port " + port + " not listening after " + seconds + "s' 1>&2; exit 1"
  }

  /** The readiness command for the system. */
  function WaitCommand(os: string, port: Value, timeout: real): string
  {
    var seconds := IntToString(Truncate(timeout));
    if os == "windows" then WindowsWait(PyStr(port), seconds)
    else RemoteDiskCheck.LinuxCommandOf(LinuxWaitScript(PyStr(port), seconds))
  }

  /**
   * The two commands a run sends: the start command for a system and its
   * settings, and the readiness wait for a system, a port and a timeout.
   * The run's steps do not depend on their texts.
   */
  datatype Scripts = Scripts(start: (string, Settings) -> Result<string>, wait: (string, Value, real) -> string)

  /** The commands the tool builds. */
  const BuiltIn: Scripts := Scripts(StartCommand, WaitCommand)

  // ---------------------------------------------------------------------------
  // Readiness and the verdict

  /** What `_wait_for_ready_*` returns: output, error and whether the port listens. */
  datatype Readiness = Readiness(output: string, error: string, ok: bool)

  /** The wait command sent as the `n`-th command with `timeout` seconds; a timeout reads as an error. */
  function Ready(link: Link, n: nat, command: string, timeout: real): Readiness
  {
    match link.timesOut(n, command, timeout)
    case Some(message) => Readiness("", message, false)
    case None =>
      var reply := link.respond(n, command);
      Readiness(reply.stdout, reply.stderr, IsBlank(reply.stderr))
  }

  /** The status of a run whose start command answered `started` and whose wait reported `ready`. */
  function StartedStatus(ready: Readiness, started: Reply): (status: string)
    ensures status == "Failed" <==> !ready.ok
    ensures status == "Success" <==> ready.ok && IsBlank(started.stderr)
    ensures status == "Warning" <==> ready.ok && !IsBlank(started.stderr)
  {
    if !ready.ok then "Failed" else if IsBlank(started.stderr) then "Success" else "Warning"
  }

  /** The verdict once the start command `command` has answered `started`. */
  function Verdict(s: Settings, command: string, started: Reply, ready: Readiness, logs: seq<string>): (r: Start)
    ensures r.result.status == StartedStatus(ready, started)
    ensures r.tomcatHome == Some(s.home) && r.commands == []
  {
    var output := Join("\n", logs + ReplyLogs(Reply(ready.output, ready.error)));
    if !ready.ok then
      Start(ToolResult(ToolName, "Failed", command, "Timed out waiting for Tomcat port " + PyStr(s.port), output), Some(s.home), [])
    else
      Start(ToolResult(ToolName, StartedStatus(ready, started), command,
                       "Tomcat started and port " + PyStr(s.port) + " is listening", output), Some(s.home), [])
  }

  /** The executor's timeout for a wait of `timeout` seconds: five seconds more. */
  function WaitLimit(timeout: real): (r: real)
    ensures r > timeout
  {
    timeout + 5.0
  }

  /** What follows the start command's reply: the wait, sent after `next`, with five seconds of slack. */
  function AfterStart(link: Link, next: seq<string>, wait: string, s: Settings, command: string, started: Reply, logs: seq<string>)
    : Start
  {
    Then([wait], Verdict(s, command, started, Ready(link, |next|, wait, WaitLimit(s.readyTimeout)), logs + ReplyLogs(started)))
  }

  /** The start command `command` sent after `next` and, when it answers in time, the wait command `wait`. */
  function StartedWith(link: Link, next: seq<string>, command: string, wait: string, s: Settings, logs: seq<string>): Start
  {
    var logs' := logs + ["Executing start command: " + command];
    match link.timesOut(|next|, command, s.execTimeout)
    case Some(message) => Then([command], Failed(message, logs' + [message]))
    case None => Then([command], AfterStart(link, next + [command], wait, s, command, link.respond(|next|, command), logs'))
  }

  /** The `except Exception` branch of `run`. */
  function ExceptionFailure(message: string, logs: seq<string>): (r: Start)
    ensures r.result.status == "Failed" && r.result.details == message && r.commands == []
  {
    Failed(message, logs + ["Exception: " + message])
  }

  /** `_start_windows` / `_start_linux`, the start command sent after `next` once it is built. */
  function StartedOn(link: Link, next: seq<string>, os: string, s: Settings, logs: seq<string>, scripts: Scripts): Start
  {
    match scripts.start(os, s)
    case Failure(e) => ExceptionFailure(e, logs)
    case Success(command) => StartedWith(link, next, command, scripts.wait(os, s.port, s.readyTimeout), s, logs)
  }

  /** The message of the `TypeError` a call `run(command, timeout=...)` raises on `RemoteExecutor.run(self, command)`. */
  const TimeoutKeywordError: string := "RemoteExecutor.run() got an unexpected keyword argument 'timeout'"

  /** `_start_windows` / `_start_linux` as written: the call with `timeout=` raises before anything is sent. */
  function StartedOnAsWritten(os: string, s: Settings, logs: seq<string>, scripts: Scripts): Start
  {
    match scripts.start(os, s)
    case Failure(e) => ExceptionFailure(e, logs)
    case Success(command) => ExceptionFailure(TimeoutKeywordError, logs + ["Executing start command: " + command])
  }

  /** `run` once the system is known; `asWritten` selects the start as written. */
  function Resolved(link: Link, next: seq<string>, os: string, config: Value, home: Value, logs: seq<string>,
                    scripts: Scripts, asWritten: bool): Start
  {
    match Prepare(config, os, home)
    case None => Failed("Tomcat home directory not supplied", logs)
    case Some(s) =>
      var logs' := logs + SettingsLogs(s);
      if os == "windows" || os == "linux" then
        if asWritten then StartedOnAsWritten(os, s, logs', scripts) else StartedOn(link, next, os, s, logs', scripts)
      else Failed("Unsupported operating system", logs' + ["Unsupported operating system detected"])
  }

  /** A run after the commands `sent` with the command texts `scripts`; `asWritten` selects the start as written. */
  function StartRun(link: Link, sent: seq<string>, config: Value, home: Value, scripts: Scripts, asWritten: bool): Start
  {
    var os := DetectedOs(link, |sent|);
    var probes := OsProbes(link, |sent|);
    Then(probes, Resolved(link, sent + probes, os, config, home, ["Detected OS: " + os], scripts, asWritten))
  }

  /** `run(executor, config, tomcat_home)`, each command sent with its timeout. */
  function TomcatStart(link: Link, sent: seq<string>, config: Value, home: Value): Start
  {
    StartRun(link, sent, config, home, BuiltIn, false)
  }

  /** `run(executor, config, tomcat_home)` as written, against the executor's one-argument `run`. */
  function TomcatStartAsWritten(link: Link, sent: seq<string>, config: Value, home: Value): Start
  {
    StartRun(link, sent, config, home, BuiltIn, true)
  }

  // ---------------------------------------------------------------------------
  // Properties of the settings

  lemma FirstOfTwo<T>(a: T, b: T, p: T -> bool)
    ensures First([a, b], p) == if p(a) then Some(a) else if p(b) then Some(b) else None
  {
    assert [a, b][1..] == [b];
    assert [b][1..] == [];
  }

  /** A timeout is the section's value if a positive number, else the top level's if a positive number, else 120; always positive. */
  lemma SecondsChoice(osCfg: Dict, cfg: Dict, key: string)
    ensures var a := Get(osCfg, key); var b := Get(cfg, key);
      Seconds(osCfg, cfg, key) == (if PositiveNumber(a) then AsReal(a) else if PositiveNumber(b) then AsReal(b) else 120.0)
    ensures Seconds(osCfg, cfg, key) > 0.0
  {
    FirstOfTwo(Get(osCfg, key), Get(cfg, key), PositiveNumber);
  }

  /** The port is the section's, else the top level's, whichever is first a positive integer or a digit string, else 8080. */
  lemma PortChoice(osCfg: Dict, cfg: Dict)
    ensures var a := Get(osCfg, "port"); var b := Get(cfg, "port");
      var chosen := if PortCandidate(a) then a else if PortCandidate(b) then b else VInt(8080);
      Port(osCfg, cfg) == (if chosen.VStr? then VInt(DigitsValue(chosen.s)) else chosen)
  {
    FirstOfTwo(Get(osCfg, "port"), Get(cfg, "port"), PortCandidate);
  }

  /** A digit-string port is read as its decimal value: `"8081"` gives 8081. */
  lemma DigitPort(n: nat)
    ensures PortCandidate(VStr(NatToString(n)))
    ensures Port(map["port" := VStr(NatToString(n))], map[]) == VInt(n)
  {
    PortChoice(map["port" := VStr(NatToString(n))], map[]);
    NatToStringValue(n);
  }

  /**
   * With a template configured, the start command is that template with the
   * home put in: a template without braces is sent as it is, and one holding
   * the `{tomcat_home}` field between brace-free texts gets the home there; a template
   * that is not a string raises.
   */
  lemma TemplateWins(os: string, s: Settings, before: string, after: string)
    requires Truthy(s.template)
    ensures !s.template.VStr? ==> StartCommand(os, s) == Failure(PyFormat.NoFormat(s.template))
    ensures s.template.VStr? && PyFormat.BraceFree(s.template.s) ==> StartCommand(os, s) == Success(s.template.s)
    ensures s.template == VStr(before + PyFormat.Field("tomcat_home") + after)
         && PyFormat.BraceFree(before) && PyFormat.BraceFree(after)
      ==> StartCommand(os, s) == Success(before + s.home + after)
  {
    if s.template.VStr? && PyFormat.BraceFree(s.template.s) {
      PyFormat.FormatPlain(s.template.s, "tomcat_home", s.home);
    }
    if s.template == VStr(before + PyFormat.Field("tomcat_home") + after)
       && PyFormat.BraceFree(before) && PyFormat.BraceFree(after) {
      PyFormat.FormatOnlyField(before, "tomcat_home", s.home, after);
    }
  }

  /** Without a template, `bash -lc` receives the built-in Linux script as one word, whatever the home holds. */
  lemma LinuxDefaultReadsBack(s: Settings, env: string -> string)
    requires !Truthy(s.template)
    ensures StartCommand("linux", s).Success?
    ensures PosixShell.Tokens(StartCommand("linux", s).value, env)
         == Some([PosixShell.Word("bash"), PosixShell.Word("-lc"), PosixShell.Word(LinuxScript(s.home))])
  {
    var script := LinuxScript(s.home);
    RemoteDiskCheck.BashWords(script);
    PosixShell.QuotedLineReadsBack(["bash", "-lc", script], env);
    RemoteDiskCheck.LineOfThree("bash", "-lc", script);
  }

  /** The port is ready exactly when the wait finishes in time with a blank stderr; a timeout reports its message as the error. */
  lemma ReadyIff(link: Link, n: nat, command: string, timeout: real)
    ensures Ready(link, n, command, timeout).ok
        <==> link.timesOut(n, command, timeout).None? && IsBlank(link.respond(n, command).stderr)
    ensures link.timesOut(n, command, timeout).Some? ==>
      Ready(link, n, command, timeout) == Readiness("", link.timesOut(n, command, timeout).value, false)
  {
  }

  /** A start command that overruns its timeout: the run fails with the timeout's message. */
  lemma StartOverran(link: Link, next: seq<string>, command: string, wait: string, s: Settings, logs: seq<string>)
    requires link.timesOut(|next|, command, s.execTimeout).Some?
    ensures var r := StartedWith(link, next, command, wait, s, logs);
      r.result.status == "Failed" && r.result.details == link.timesOut(|next|, command, s.execTimeout).value
      && r.commands == [command]
  {
    assert [command] + [] == [command];
  }

  /** A start command that answers in time: the wait follows it, and the verdict combines both. */
  lemma StartAnswered(link: Link, next: seq<string>, command: string, wait: string, s: Settings, logs: seq<string>)
    requires link.timesOut(|next|, command, s.execTimeout).None?
    ensures var ready := Ready(link, |next| + 1, wait, WaitLimit(s.readyTimeout));
      var r := StartedWith(link, next, command, wait, s, logs);
      && r.commands == [command, wait] && r.tomcatHome == Some(s.home)
      && r.result.status == StartedStatus(ready, link.respond(|next|, command))
  {
    assert |next + [command]| == |next| + 1;
    assert [command] + ([wait] + []) == [command, wait];
  }

  // ---------------------------------------------------------------------------
  // Properties of the run

  /** With no home in the argument or the settings, nothing is started. */
  lemma HomeMissingFails(link: Link, sent: seq<string>, config: Value, home: Value, scripts: Scripts, asWritten: bool)
    requires Prepare(config, DetectedOs(link, |sent|), home).None?
    ensures var r := StartRun(link, sent, config, home, scripts, asWritten);
      r.result.status == "Failed" && r.result.details == "Tomcat home directory not supplied"
      && r.commands == OsProbes(link, |sent|)
  {
    assert OsProbes(link, |sent|) + [] == OsProbes(link, |sent|);
  }

  /** The home is the argument, else the section's, else the top level's, whichever is first set. */
  lemma HomeChosen(config: Value, os: string, home: Value)
    ensures var cfg := ConfigDict(config);
      var osCfg := OsConfig(cfg, os);
      var h := if Truthy(home) then home else if Truthy(Get(osCfg, "tomcat_home")) then Get(osCfg, "tomcat_home")
               else Get(cfg, "tomcat_home");
      && (Prepare(config, os, home).Some? <==> Truthy(h))
      && (Truthy(h) ==> Prepare(config, os, home).value.home == PyStr(h))
  {
  }

  /** A system that is neither Windows nor Linux fails without starting anything. */
  lemma UnsupportedFails(link: Link, sent: seq<string>, config: Value, home: Value, scripts: Scripts, asWritten: bool)
    requires var os := DetectedOs(link, |sent|); os != "windows" && os != "linux"
    ensures var r := StartRun(link, sent, config, home, scripts, asWritten);
      r.result.status == "Failed" && r.commands == OsProbes(link, |sent|)
      && r.result.details in {"Tomcat home directory not supplied", "Unsupported operating system"}
  {
    assert OsProbes(link, |sent|) + [] == OsProbes(link, |sent|);
  }

  /** On Windows or Linux with a home named, the run is the probes followed by the start. */
  lemma RunStarts(link: Link, sent: seq<string>, config: Value, home: Value, scripts: Scripts)
    requires var os := DetectedOs(link, |sent|); (os == "windows" || os == "linux") && Prepare(config, os, home).Some?
    ensures var os := DetectedOs(link, |sent|); var s := Prepare(config, os, home).value;
      StartRun(link, sent, config, home, scripts, false)
      == Then(OsProbes(link, |sent|), StartedOn(link, sent + OsProbes(link, |sent|), os, s,
                                                ["Detected OS: " + os] + SettingsLogs(s), scripts))
  {
  }

  /** A start command that cannot be built fails the run with what building it raised, after the probes only. */
  lemma StartCommandFails(link: Link, sent: seq<string>, config: Value, home: Value, scripts: Scripts, asWritten: bool)
    requires var os := DetectedOs(link, |sent|); var s := Prepare(config, os, home);
      (os == "windows" || os == "linux") && s.Some? && scripts.start(os, s.value).Failure?
    ensures var os := DetectedOs(link, |sent|); var s := Prepare(config, os, home).value;
      var r := StartRun(link, sent, config, home, scripts, asWritten);
      && r.result.status == "Failed" && r.result.details == scripts.start(os, s).error
      && r.commands == OsProbes(link, |sent|)
  {
    assert OsProbes(link, |sent|) + [] == OsProbes(link, |sent|);
  }

  /** A start command that overruns its timeout fails the run with the timeout's message, and nothing more is sent. */
  lemma StartTimeoutFails(link: Link, sent: seq<string>, config: Value, home: Value, scripts: Scripts)
    requires var os := DetectedOs(link, |sent|); var s := Prepare(config, os, home);
      (os == "windows" || os == "linux") && s.Some?
      && scripts.start(os, s.value).Success?
      && link.timesOut(|sent + OsProbes(link, |sent|)|, scripts.start(os, s.value).value, s.value.execTimeout).Some?
    ensures var os := DetectedOs(link, |sent|); var s := Prepare(config, os, home).value;
      var r := StartRun(link, sent, config, home, scripts, false);
      && r.result.status == "Failed"
      && r.result.details == link.timesOut(|sent + OsProbes(link, |sent|)|, scripts.start(os, s).value, s.execTimeout).value
      && r.commands == OsProbes(link, |sent|) + [scripts.start(os, s).value]
  {
    var os := DetectedOs(link, |sent|);
    var s := Prepare(config, os, home).value;
    var logs := ["Detected OS: " + os] + SettingsLogs(s);
    RunStarts(link, sent, config, home, scripts);
    StartOverran(link, sent + OsProbes(link, |sent|), scripts.start(os, s).value, scripts.wait(os, s.port, s.readyTimeout), s, logs);
  }

  /** Once the start command has answered in time, the wait follows it and the run reports the home. */
  lemma StartSendsWait(link: Link, sent: seq<string>, config: Value, home: Value, scripts: Scripts)
    requires var os := DetectedOs(link, |sent|); var s := Prepare(config, os, home);
      (os == "windows" || os == "linux") && s.Some?
      && scripts.start(os, s.value).Success?
      && link.timesOut(|sent + OsProbes(link, |sent|)|, scripts.start(os, s.value).value, s.value.execTimeout).None?
    ensures var os := DetectedOs(link, |sent|); var s := Prepare(config, os, home).value;
      var r := StartRun(link, sent, config, home, scripts, false);
      && r.commands == OsProbes(link, |sent|) + [scripts.start(os, s).value, scripts.wait(os, s.port, s.readyTimeout)]
      && r.tomcatHome == Some(s.home)
  {
    var os := DetectedOs(link, |sent|);
    var s := Prepare(config, os, home).value;
    var logs := ["Detected OS: " + os] + SettingsLogs(s);
    RunStarts(link, sent, config, home, scripts);
    StartAnswered(link, sent + OsProbes(link, |sent|), scripts.start(os, s).value, scripts.wait(os, s.port, s.readyTimeout), s, logs);
  }

  /**
   * Once the start command has answered in time, the wait is sent with five
   * seconds more than the readiness timeout, and the run fails unless the port
   * is ready, else warns when the start command wrote to stderr, else succeeds.
   */
  lemma StartStatus(link: Link, sent: seq<string>, config: Value, home: Value, scripts: Scripts)
    requires var os := DetectedOs(link, |sent|); var s := Prepare(config, os, home);
      (os == "windows" || os == "linux") && s.Some?
      && scripts.start(os, s.value).Success?
      && link.timesOut(|sent + OsProbes(link, |sent|)|, scripts.start(os, s.value).value, s.value.execTimeout).None?
    ensures var os := DetectedOs(link, |sent|); var s := Prepare(config, os, home).value;
      var n := |sent + OsProbes(link, |sent|)|;
      var start := scripts.start(os, s).value;
      var ready := Ready(link, n + 1, scripts.wait(os, s.port, s.readyTimeout), WaitLimit(s.readyTimeout));
      StartRun(link, sent, config, home, scripts, false).result.status == StartedStatus(ready, link.respond(n, start))
  {
    var os := DetectedOs(link, |sent|);
    var s := Prepare(config, os, home).value;
    var logs := ["Detected OS: " + os] + SettingsLogs(s);
    RunStarts(link, sent, config, home, scripts);
    StartAnswered(link, sent + OsProbes(link, |sent|), scripts.start(os, s).value, scripts.wait(os, s.port, s.readyTimeout), s, logs);
  }

  /**
   * As written, on Windows or Linux with a home named and a start command
   * built, every run fails with the `TypeError` of the `timeout=` keyword and
   * never sends the start command.
   */
  lemma AsWrittenNeverStarts(link: Link, sent: seq<string>, config: Value, home: Value, scripts: Scripts)
    requires var os := DetectedOs(link, |sent|); var s := Prepare(config, os, home);
      (os == "windows" || os == "linux") && s.Some? && scripts.start(os, s.value).Success?
    ensures var r := StartRun(link, sent, config, home, scripts, true);
      r.result.status == "Failed" && r.result.details == TimeoutKeywordError
      && r.commands == OsProbes(link, |sent|)
  {
    assert OsProbes(link, |sent|) + [] == OsProbes(link, |sent|);
  }

  // ---------------------------------------------------------------------------
  // The tool on a connected executor

  /** `_wait_for_ready_*`, the wait command `wait` sent with five seconds of slack. */
  method WaitForReady(ex: Executor, wait: string, timeout: real) returns (ready: Readiness)
    requires ex.connected
    modifies ex`issued
    ensures ready == Ready(ex.link, |old(ex.issued)|, wait, WaitLimit(timeout))
    ensures ex.issued == old(ex.issued) + [wait]
  {
    var outcome := ex.RunTimed(wait, WaitLimit(timeout));
    match outcome {
      case TimedOut(message) => ready := Readiness("", message, false);
      case Completed(reply) => ready := Readiness(reply.stdout, reply.stderr, IsBlank(reply.stderr));
    }
  }

  /** Waits for the port once the start command has answered `started`. */
  method ContinueAfterStart(ex: Executor, wait: string, s: Settings, command: string, started: Reply, logs: seq<string>)
    returns (r: Start)
    requires ex.connected
    modifies ex`issued
    ensures r == AfterStart(ex.link, old(ex.issued), wait, s, command, started, logs)
    ensures ex.issued == old(ex.issued) + r.commands
  {
    var ready := WaitForReady(ex, wait, s.readyTimeout);
    r := Then([wait], Verdict(s, command, started, ready, logs + ReplyLogs(started)));
  }

  /** Sends the start command, then the wait when the start answered in time. */
  method StartWith(ex: Executor, command: string, wait: string, s: Settings, logs: seq<string>) returns (r: Start)
    requires ex.connected
    modifies ex`issued
    ensures r == StartedWith(ex.link, old(ex.issued), command, wait, s, logs)
    ensures ex.issued == old(ex.issued) + r.commands
  {
    var before := ex.issued;
    var logs' := logs + ["Executing start command: " + command];
    var outcome := ex.RunTimed(command, s.execTimeout);
    if outcome.TimedOut? {
      r := Then([command], Failed(outcome.message, logs' + [outcome.message]));
    } else {
      var rest := ContinueAfterStart(ex, wait, s, command, outcome.reply, logs');
      AppendAssoc(before, [command], rest.commands);
      r := Then([command], rest);
    }
  }

  /** `_start_windows` / `_start_linux`. */
  method StartOn(ex: Executor, os: string, s: Settings, logs: seq<string>, scripts: Scripts) returns (r: Start)
    requires ex.connected
    modifies ex`issued
    ensures r == StartedOn(ex.link, old(ex.issued), os, s, logs, scripts)
    ensures ex.issued == old(ex.issued) + r.commands
  {
    var command := scripts.start(os, s);
    if command.Failure? {
      return ExceptionFailure(command.error, logs);
    }
    r := StartWith(ex, command.value, scripts.wait(os, s.port, s.readyTimeout), s, logs);
  }

  /** `run` once the system is known. */
  method Resolve(ex: Executor, os: string, config: Value, home: Value, logs: seq<string>, scripts: Scripts) returns (r: Start)
    requires ex.connected
    modifies ex`issued
    ensures r == Resolved(ex.link, old(ex.issued), os, config, home, logs, scripts, false)
    ensures ex.issued == old(ex.issued) + r.commands
  {
    var settings := Prepare(config, os, home);
    if settings.None? {
      return Failed("Tomcat home directory not supplied", logs);
    }
    var logs' := logs + SettingsLogs(settings.value);
    if os == "windows" || os == "linux" {
      r := StartOn(ex, os, settings.value, logs', scripts);
    } else {
      r := Failed("Unsupported operating system", logs' + ["Unsupported operating system detected"]);
    }
  }

  /** `run(executor, config, tomcat_home)` with the command texts `scripts`. */
  method RunWith(ex: Executor, config: Value, home: Value, scripts: Scripts) returns (r: Start)
    requires ex.connected
    modifies ex`issued
    ensures r == StartRun(ex.link, old(ex.issued), config, home, scripts, false)
    ensures ex.issued == old(ex.issued) + r.commands
  {
    var before := ex.issued;
    var os := ex.DetectOs();
    var rest := Resolve(ex, os, config, home, ["Detected OS: " + os], scripts);
    AppendAssoc(before, OsProbes(ex.link, |before|), rest.commands);
    r := Then(OsProbes(ex.link, |before|), rest);
  }

  /** `run(executor, config, tomcat_home)`. */
  method Run(ex: Executor, config: Value, home: Value) returns (r: Start)
    requires ex.connected
    modifies ex`issued
    ensures r == TomcatStart(ex.link, old(ex.issued), config, home)
    ensures ex.issued == old(ex.issued) + r.commands
  {
    r := RunWith(ex, config, home, BuiltIn);
  }
}
