/**
 * `remote_tomcat_stop`: runs the configured stop command on a remote host.
 * The home directory comes from the caller, else the section of the
 * configuration for the detected system, else its top level; the stop
 * command template from that section, else the top level. The tool does not
 * look at which system it found: any system runs the command.
 */
module TomcatStop {
  import opened Wrappers
  import opened Text
  import opened Values
  import opened Sequences
  import opened RemoteExecutor
  import opened ToolResults
  import RemoteTomcatUninstall
  import TomcatStart
  import PyFormat

  const ToolName: string := "remote_tomcat_stop"

  /** What the tool returns, the home it reports, and every command it sent, probes included. */
  datatype Stop = Stop(result: ToolResult, tomcatHome: Option<Value>, commands: seq<string>)

  function Then(before: seq<string>, r: Stop): Stop
  {
    r.(commands := before + r.commands)
  }

  /** `_failure(message, logs)`. */
  function Failed(message: string, logs: seq<string>): (r: Stop)
    ensures r.result.status == "Failed" && r.result.details == message && r.tomcatHome.None? && r.commands == []
  {
    Stop(ToolResult(ToolName, "Failed", ToolName, message, Join("\n", logs)), None, [])
  }

  /** The `except Exception` branch of `run`. */
  function ExceptionFailure(message: string, logs: seq<string>): (r: Stop)
    ensures r.result.status == "Failed" && r.result.details == message && r.commands == []
  {
    Failed(message, logs + ["Exception: " + message])
  }

  // ---------------------------------------------------------------------------
  // Settings

  /** `os_cfg.get("stop_command") or config.get("stop_command")`. */
  function TemplateOf(config: Value, osCfg: Value): Result<Value>
  {
    var fromOs :- RemoteTomcatUninstall.Lookup(osCfg, "stop_command");
    if Truthy(fromOs) then Success(fromOs) else RemoteTomcatUninstall.Lookup(config, "stop_command")
  }

  /** `template.format(tomcat_home=home)` with the home as `str` renders it. */
  function Format(template: Value, home: Value): (r: Result<string>)
    ensures !template.VStr? ==> r == Failure(PyFormat.NoFormat(template))
    ensures template.VStr? ==> r == TomcatStart.FormatHome(template.s, PyStr(home))
  {
    PyFormat.FormatValue(template, "tomcat_home", PyStr(home))
  }

  // ---------------------------------------------------------------------------
  // The run

  /** The verdict once the stop command `command` has answered `reply`. */
  function Stopped(command: string, home: Value, reply: Reply, logs: seq<string>): (r: Stop)
    ensures r.result.status == (if IsBlank(reply.stderr) then "Success" else "Warning")
    ensures r.result.details == if IsBlank(reply.stderr) then "Tomcat stop command executed"
                                else "Tomcat stop command completed with stderr: " + Strip(reply.stderr)
    ensures r.result.command == command && r.tomcatHome == Some(home) && r.commands == []
  {
    var output := Join("\n", logs + ReplyLogs(reply));
    if IsBlank(reply.stderr) then
      Stop(ToolResult(ToolName, "Success", command, "Tomcat stop command executed", output), Some(home), [])
    else
      Stop(ToolResult(ToolName, "Warning", command, "Tomcat stop command completed with stderr: " + Strip(reply.stderr), output),
           Some(home), [])
  }

  /** The stop command `command` sent after `next`. */
  function Sent(link: Link, next: seq<string>, command: string, home: Value, logs: seq<string>): Stop
  {
    Then([command], Stopped(command, home, link.respond(|next|, command), logs + ["Executing stop command: " + command]))
  }

  /** `run` once the home `home` is known to be set. */
  function HomeKnown(link: Link, next: seq<string>, config: Value, osCfg: Value, home: Value, logs: seq<string>): Stop
  {
    match TemplateOf(config, osCfg)
    case Failure(e) => ExceptionFailure(e, logs)
    case Success(t) =>
      if !Truthy(t) then Failed("stop_command not configured", logs)
      else
        match Format(t, home)
        case Failure(e) => ExceptionFailure(e, logs)
        case Success(command) => Sent(link, next, command, home, logs)
  }

  /** `run` once the system is known. */
  function Resolved(link: Link, next: seq<string>, os: string, config: Value, home: Value, logs: seq<string>): Stop
  {
    var osCfg := RemoteTomcatUninstall.OsSection(config, os);
    match RemoteTomcatUninstall.HomeOf(config, osCfg, home)
    case Failure(e) => ExceptionFailure(e, logs)
    case Success(h) =>
      if !Truthy(h) then Failed("Tomcat home directory not supplied", logs)
      else HomeKnown(link, next, config, osCfg, h, logs)
  }

  /** `run(executor, config, tomcat_home)` on a connected session that has sent `sent`. */
  function TomcatStop(link: Link, sent: seq<string>, config: Value, home: Value): Stop
  {
    var os := DetectedOs(link, |sent|);
    var probes := OsProbes(link, |sent|);
    Then(probes, Resolved(link, sent + probes, os, config, home, ["Detected OS: " + os]))
  }

  // ---------------------------------------------------------------------------
  // Properties

  /** The template: the section's stop command when set, else the top level's. */
  function ChosenTemplate(config: Value, os: string): Value
    requires RemoteTomcatUninstall.DictConfig(config, os)
  {
    Or(Get(RemoteTomcatUninstall.OsSection(config, os).fields, "stop_command"), Get(config.fields, "stop_command"))
  }

  lemma ResolvedSettings(config: Value, os: string, home: Value)
    requires RemoteTomcatUninstall.DictConfig(config, os)
    ensures var osCfg := RemoteTomcatUninstall.OsSection(config, os);
      && RemoteTomcatUninstall.HomeOf(config, osCfg, home) == Success(RemoteTomcatUninstall.ChosenHome(config, os, home))
      && TemplateOf(config, osCfg) == Success(ChosenTemplate(config, os))
  {
  }

  /**
   * With dictionaries for settings, a home named somewhere and a string
   * template that formats, the tool sends the formatted template on whatever
   * system it found, and succeeds exactly when the command wrote nothing to
   * stderr; otherwise it warns. The result names the command and the home.
   */
  lemma StopsWithTemplate(link: Link, sent: seq<string>, config: Value, home: Value)
    requires var os := DetectedOs(link, |sent|);
      && RemoteTomcatUninstall.DictConfig(config, os)
      && Truthy(RemoteTomcatUninstall.ChosenHome(config, os, home))
      && Truthy(ChosenTemplate(config, os)) && ChosenTemplate(config, os).VStr?
      && TomcatStart.FormatHome(ChosenTemplate(config, os).s, PyStr(RemoteTomcatUninstall.ChosenHome(config, os, home))).Success?
    ensures var os := DetectedOs(link, |sent|);
      var h := RemoteTomcatUninstall.ChosenHome(config, os, home);
      var command := TomcatStart.FormatHome(ChosenTemplate(config, os).s, PyStr(h)).value;
      var reply := link.respond(|sent + OsProbes(link, |sent|)|, command);
      var r := TomcatStop(link, sent, config, home);
      && r.commands == OsProbes(link, |sent|) + [command]
      && r.result.command == command && r.tomcatHome == Some(h)
      && (r.result.status == "Success" <==> IsBlank(reply.stderr))
      && (r.result.status == "Warning" <==> !IsBlank(reply.stderr))
  {
    ResolvedSettings(config, DetectedOs(link, |sent|), home);
  }

  /** A template that does not format (an unknown field, a lone brace) fails the run with Python's message; nothing is sent. */
  lemma MalformedTemplateFails(link: Link, sent: seq<string>, config: Value, home: Value)
    requires var os := DetectedOs(link, |sent|);
      && RemoteTomcatUninstall.DictConfig(config, os)
      && Truthy(RemoteTomcatUninstall.ChosenHome(config, os, home))
      && ChosenTemplate(config, os).VStr?
      && TomcatStart.FormatHome(ChosenTemplate(config, os).s, PyStr(RemoteTomcatUninstall.ChosenHome(config, os, home))).Failure?
    ensures var os := DetectedOs(link, |sent|);
      var r := TomcatStop(link, sent, config, home);
      && r.result.status == "Failed"
      && r.result.details
         == TomcatStart.FormatHome(ChosenTemplate(config, os).s, PyStr(RemoteTomcatUninstall.ChosenHome(config, os, home))).error
      && r.commands == OsProbes(link, |sent|)
  {
    var os := DetectedOs(link, |sent|);
    ResolvedSettings(config, os, home);
    assert ChosenTemplate(config, os).s != [];
    assert OsProbes(link, |sent|) + [] == OsProbes(link, |sent|);
  }

  /** With no home in the argument or the settings, nothing is sent after the probes. */
  lemma HomeMissingFails(link: Link, sent: seq<string>, config: Value, home: Value)
    requires var os := DetectedOs(link, |sent|);
      RemoteTomcatUninstall.DictConfig(config, os) && !Truthy(RemoteTomcatUninstall.ChosenHome(config, os, home))
    ensures var r := TomcatStop(link, sent, config, home);
      r.result.status == "Failed" && r.result.details == "Tomcat home directory not supplied"
      && r.commands == OsProbes(link, |sent|)
  {
    ResolvedSettings(config, DetectedOs(link, |sent|), home);
    assert OsProbes(link, |sent|) + [] == OsProbes(link, |sent|);
  }

  /** With a home but no stop command in the section or the top level, nothing is sent after the probes. */
  lemma TemplateMissingFails(link: Link, sent: seq<string>, config: Value, home: Value)
    requires var os := DetectedOs(link, |sent|);
      && RemoteTomcatUninstall.DictConfig(config, os)
      && Truthy(RemoteTomcatUninstall.ChosenHome(config, os, home))
      && !Truthy(ChosenTemplate(config, os))
    ensures var r := TomcatStop(link, sent, config, home);
      r.result.status == "Failed" && r.result.details == "stop_command not configured"
      && r.commands == OsProbes(link, |sent|)
  {
    ResolvedSettings(config, DetectedOs(link, |sent|), home);
    assert OsProbes(link, |sent|) + [] == OsProbes(link, |sent|);
  }

  /** A template that is set but is not a string has no `format`: the run fails and nothing is sent. */
  lemma NonStringTemplateFails(link: Link, sent: seq<string>, config: Value, home: Value)
    requires var os := DetectedOs(link, |sent|);
      && RemoteTomcatUninstall.DictConfig(config, os)
      && Truthy(RemoteTomcatUninstall.ChosenHome(config, os, home))
      && Truthy(ChosenTemplate(config, os)) && !ChosenTemplate(config, os).VStr?
    ensures var os := DetectedOs(link, |sent|);
      var r := TomcatStop(link, sent, config, home);
      && r.result.status == "Failed"
      && r.result.details == "'" + TypeName(ChosenTemplate(config, os)) + "' object has no attribute 'format'"
      && r.commands == OsProbes(link, |sent|)
  {
    ResolvedSettings(config, DetectedOs(link, |sent|), home);
    assert OsProbes(link, |sent|) + [] == OsProbes(link, |sent|);
  }

  // ---------------------------------------------------------------------------
  // The tool on a connected executor

  /** Appends what a command printed to the logs: its stripped output, then its stripped error output. */
  method Record(stdout: string, stderr: string, logs: seq<string>) returns (logs': seq<string>)
    ensures logs' == logs + ReplyLogs(Reply(stdout, stderr))
  {
    logs' := logs;
    if !IsBlank(stdout) {
      logs' := logs' + [Strip(stdout)];
    }
    if !IsBlank(stderr) {
      logs' := logs' + ["stderr: " + Strip(stderr)];
    }
  }

  /** The logs, status and details `run` builds once the stop command has printed `stdout` and `stderr`. */
  method Conclude(command: string, home: Value, stdout: string, stderr: string, logs: seq<string>) returns (r: Stop)
    ensures r == Stopped(command, home, Reply(stdout, stderr), logs)
  {
    var logs' := Record(stdout, stderr, logs);
    var status := if IsBlank(stderr) then "Success" else "Warning";
    var details := "Tomcat stop command executed";
    if status != "Success" {
      details := "Tomcat stop command completed with stderr: " + Strip(stderr);
    }
    r := Stop(ToolResult(ToolName, status, command, details, Join("\n", logs')), Some(home), []);
  }

  /** Sends the stop command and builds the verdict from what it printed. */
  method Send(ex: Executor, command: string, home: Value, logs: seq<string>) returns (r: Stop)
    requires ex.connected
    modifies ex`issued
    ensures r == Sent(ex.link, old(ex.issued), command, home, logs)
    ensures ex.issued == old(ex.issued) + r.commands
  {
    var stdout, stderr := ex.Run(command);
    var verdict := Conclude(command, home, stdout, stderr, logs + ["Executing stop command: " + command]);
    r := Then([command], verdict);
  }

  /** `run` once the home is known to be set. */
  method StopKnownHome(ex: Executor, config: Value, osCfg: Value, home: Value, logs: seq<string>) returns (r: Stop)
    requires ex.connected
    modifies ex`issued
    ensures r == HomeKnown(ex.link, old(ex.issued), config, osCfg, home, logs)
    ensures ex.issued == old(ex.issued) + r.commands
  {
    var t := TemplateOf(config, osCfg);
    if t.Failure? {
      return ExceptionFailure(t.error, logs);
    }
    if !Truthy(t.value) {
      return Failed("stop_command not configured", logs);
    }
    match Format(t.value, home) {
      case Failure(e) => r := ExceptionFailure(e, logs);
      case Success(command) => r := Send(ex, command, home, logs);
    }
  }

  /** `run` once the system is known. */
  method Resolve(ex: Executor, os: string, config: Value, home: Value, logs: seq<string>) returns (r: Stop)
    requires ex.connected
    modifies ex`issued
    ensures r == Resolved(ex.link, old(ex.issued), os, config, home, logs)
    ensures ex.issued == old(ex.issued) + r.commands
  {
    var osCfg := RemoteTomcatUninstall.OsSection(config, os);
    var h := RemoteTomcatUninstall.HomeOf(config, osCfg, home);
    if h.Failure? {
      return ExceptionFailure(h.error, logs);
    }
    if !Truthy(h.value) {
      return Failed("Tomcat home directory not supplied", logs);
    }
    r := StopKnownHome(ex, config, osCfg, h.value, logs);
  }

  /** `run(executor, config, tomcat_home)`. */
  method Run(ex: Executor, config: Value, home: Value) returns (r: Stop)
    requires ex.connected
    modifies ex`issued
    ensures r == TomcatStop(ex.link, old(ex.issued), config, home)
    ensures ex.issued == old(ex.issued) + r.commands
  {
    var before := ex.issued;
    var os := ex.DetectOs();
    var rest := Resolve(ex, os, config, home, ["Detected OS: " + os]);
    AppendAssoc(before, OsProbes(ex.link, |before|), rest.commands);
    r := Then(OsProbes(ex.link, |before|), rest);
  }
}
