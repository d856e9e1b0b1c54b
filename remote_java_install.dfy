/**
 * `remote_java_install`: installs a JDK on the remote host unless `java
 * -version` already answers. On Linux it installs the prerequisite
 * packages, fetches the archive with `wget` and unpacks it with `tar`; on
 * Windows it creates the folders, downloads the archive with the curl tool,
 * expands it with the ZIP tool, points `JAVA_HOME` and `PATH` at the folder
 * found, and asks the new `java.exe` for its version. Either way the last
 * version query decides the verdict.
 */
module RemoteJavaInstall {
  import opened Wrappers
  import opened Text
  import opened Values
  import opened Sequences
  import opened RemoteExecutor
  import opened ToolResults
  import RemoteDiskCheck
  import RemoteDownload
  import RemoteExtract
  import PyFormat

  const ToolName: string := "remote_java_install"

  /** An installation: the result dictionary and the commands sent, in order. */
  datatype Install = Install(result: ToolResult, commands: seq<string>)

  /** The commands of `i` after `pre`. */
  function Then(pre: seq<string>, i: Install): Install
  {
    Install(i.result, pre + i.commands)
  }

  // ---------------------------------------------------------------------------
  // Results

  /** `"version" in (out + err).lower()`: the reply names a Java version. */
  predicate NamesVersion(reply: Reply)
  {
    Contains(Lower(reply.stdout + reply.stderr), "version")
  }

  /** `_missing_config(path, logs)`. */
  function MissingConfig(path: string, logs: seq<string>): (r: ToolResult)
    ensures r.status == "Failed" && r.command == ToolName && r.output == ""
  {
    ToolResult(ToolName, "Failed", ToolName, Join("\n", logs + ["Missing required configuration: " + path]), "")
  }

  /** The result of a version query: passed exactly when it names a version. */
  function Verified(reply: Reply, logs: seq<string>): (r: ToolResult)
    ensures r.status == "Success" <==> NamesVersion(reply)
    ensures r.status == "Success" || r.status == "Failed"
    ensures r.output == reply.stdout + reply.stderr && r.details == Join("\n", logs)
  {
    ToolResult(ToolName, if NamesVersion(reply) then "Success" else "Failed", "java -version",
               Join("\n", logs), reply.stdout + reply.stderr)
  }

  /** The dictionary built in the `except` branch; it has no command and no output. */
  function ExceptionResult(message: string, logs: seq<string>): (r: ToolResult)
    ensures r.status == "Failed"
  {
    ToolResult(ToolName, "Failed", "", Join("\n", logs + ["Exception: " + message]), "")
  }

  /** A sub-tool's result handed back under this tool's name with the accumulated logs as details. */
  function Renamed(r: ToolResult, logs: seq<string>): (s: ToolResult)
    ensures s.name == ToolName && s.status == r.status && s.command == r.command && s.output == r.output
    ensures s.details == Join("\n", logs)
  {
    ToolResult(ToolName, r.status, r.command, Join("\n", logs), r.output)
  }

  // ---------------------------------------------------------------------------
  // Settings

  /** `config.get(key, {})` as the dictionary its `get` calls need; anything else raises. */
  function Section(config: Dict, key: string): (r: Result<Dict>)
    ensures key !in config ==> r == Success(map[])
    ensures r.Success? <==> key !in config || config[key].VDict?
  {
    match GetOr(config, key, VDict(map[]))
    case VDict(fields) => Success(fields)
    case other => Failure(NoGet(other))
  }

  /** `cfg.get(key, default)` as the text a command is formatted with. */
  function TextOr(cfg: Dict, key: string, default: string): string
  {
    PyStr(GetOr(cfg, key, VStr(default)))
  }

  // ---------------------------------------------------------------------------
  // Linux

  const LinuxProbe: string := "java -version"
  const DefaultVersionCheck: string := "bash -lc '$HOME/java/*/bin/java -version'"
  const InstallPrefix: string := "sudo apt install -y "
  const DefaultPackageCommand: string := InstallPrefix + PyFormat.Field("packages")

  /** What the Linux branch reads from `config["linux"]`. */
  datatype LinuxSettings = LinuxSettings(
    url: Value, archive: string, installDir: string, versionCheck: string,
    packages: Value, updateCommand: string, packageCommand: Value)

  function LinuxSettingsOf(cfg: Dict): LinuxSettings
  {
    LinuxSettings(
      Get(cfg, "download_url"),
      TextOr(cfg, "archive_path", "~/jdk.tar.gz"),
      TextOr(cfg, "install_dir", "~/java"),
      TextOr(cfg, "version_check", DefaultVersionCheck),
      GetOr(cfg, "packages", VList([VStr("wget"), VStr("tar")])),
      TextOr(cfg, "package_update_command", "sudo apt update -y"),
      GetOr(cfg, "package_install_command", VStr(DefaultPackageCommand)))
  }

  /** Every item is a string. */
  predicate AllStrings(items: seq<Value>)
  {
    forall i :: 0 <= i < |items| ==> items[i].VStr?
  }

  function Texts(items: seq<Value>): (r: seq<string>)
    ensures |r| == |items|
  {
    if items == [] then [] else [PyStr(items[0])] + Texts(items[1..])
  }

  /** `" ".join(packages)`: a list of strings, or the characters of one string; anything else raises. */
  function PackageList(packages: Value): Result<string>
  {
    match packages
    case VList(items) =>
      if AllStrings(items) then Success(Join(" ", Texts(items)))
      else Failure("sequence item: expected str instance")
    case VStr(s) => Success(Join(" ", Characters(s)))
    case other => Failure("can only join an iterable")
  }

  function Characters(s: string): (r: seq<string>)
    ensures |r| == |s|
  {
    if s == [] then [] else [[s[0]]] + Characters(s[1..])
  }

  /** The package stage: the commands it sent and, when it raised, what. */
  datatype PackageStep = PackageStep(commands: seq<string>, error: Option<string>)

  /**
   * The package stage: nothing when `packages` is falsy; else the list is
   * joined (which can raise before anything is sent), the update is sent,
   * and the install command is formatted with the list (which can raise
   * after the update went out) and sent.
   */
  function PackageCommands(s: LinuxSettings): (r: PackageStep)
    ensures !Truthy(s.packages) ==> r == PackageStep([], None)
    ensures Truthy(s.packages) && PackageList(s.packages).Failure? ==> r == PackageStep([], Some(PackageList(s.packages).error))
    ensures Truthy(s.packages) && PackageList(s.packages).Success? ==>
      var install := PyFormat.FormatValue(s.packageCommand, "packages", PackageList(s.packages).value);
      && |r.commands| >= 1 && r.commands[0] == s.updateCommand
      && (r.error.None? <==> install.Success?)
      && (install.Success? ==> r.commands == [s.updateCommand, install.value])
      && (install.Failure? ==> r == PackageStep([s.updateCommand], Some(install.error)))
  {
    if !Truthy(s.packages) then PackageStep([], None)
    else
      match PackageList(s.packages)
      case Failure(e) => PackageStep([], Some(e))
      case Success(list) =>
        match PyFormat.FormatValue(s.packageCommand, "packages", list)
        case Failure(e) => PackageStep([s.updateCommand], Some(e))
        case Success(install) => PackageStep([s.updateCommand, install], None)
  }

  /** Fetching, unpacking and querying the new Java. */
  function LinuxInstallCommands(s: LinuxSettings): seq<string>
  {
    ["wget -O " + s.archive + " " + PyStr(s.url), "mkdir -p " + s.installDir, "tar -xvf " + s.archive + " -C " + s.installDir]
  }

  /** The installation proper, once the probe found no Java. */
  function LinuxSetup(link: Link, sent: seq<string>, s: LinuxSettings, logs: seq<string>): (i: Install)
    ensures var p := PackageCommands(s);
      p.error.Some? ==> i == Install(ExceptionResult(p.error.value, logs), p.commands)
    ensures PackageCommands(s).error.None? ==>
      var cmds := PackageCommands(s).commands + LinuxInstallCommands(s);
      i.commands == cmds + [s.versionCheck]
      && i.result == Verified(link.respond(|sent + cmds|, s.versionCheck), logs)
  {
    var p := PackageCommands(s);
    if p.error.Some? then Install(ExceptionResult(p.error.value, logs), p.commands)
    else
      var cmds := p.commands + LinuxInstallCommands(s);
      Install(Verified(link.respond(|sent + cmds|, s.versionCheck), logs), cmds + [s.versionCheck])
  }

  /** The result when the probe already names a version. */
  function AlreadyInstalled(reply: Reply, logs: seq<string>): (r: ToolResult)
    ensures NamesVersion(reply) ==> r.status == "Success"
  {
    Verified(reply, logs + ["\U{2714} Java already installed."])
  }

  /** The Linux branch from the probe on. */
  function LinuxProbed(link: Link, sent: seq<string>, s: LinuxSettings, logs: seq<string>): (i: Install)
    ensures |i.commands| >= 1 && i.commands[0] == LinuxProbe
    ensures NamesVersion(link.respond(|sent|, LinuxProbe)) ==> i.commands == [LinuxProbe] && i.result.status == "Success"
  {
    var probe := link.respond(|sent|, LinuxProbe);
    if NamesVersion(probe) then Install(AlreadyInstalled(probe, logs), [LinuxProbe])
    else Then([LinuxProbe], LinuxSetup(link, sent + [LinuxProbe], s, logs + ["Installing Java on Linux..."]))
  }

  /** The Linux branch for the settings `cfg`. */
  function LinuxInstall(link: Link, sent: seq<string>, cfg: Dict, logs: seq<string>): (i: Install)
    ensures !Truthy(Get(cfg, "download_url")) ==> i == Install(MissingConfig("linux.download_url", logs), [])
    ensures Truthy(Get(cfg, "download_url")) ==> |i.commands| >= 1 && i.commands[0] == LinuxProbe
  {
    var s := LinuxSettingsOf(cfg);
    if !Truthy(s.url) then Install(MissingConfig("linux.download_url", logs), [])
    else LinuxProbed(link, sent, s, logs + ["Checking existing Java..."])
  }

  // ---------------------------------------------------------------------------
  // Windows

  const WindowsProbe: string := "powershell -Command \"java -version\""
  const DefaultPattern: string := "^(jdk|microsoft-jdk|msopenjdk)-"
  const DefaultMinSize: int := 50000

  /** What the Windows branch reads from `config["windows"]`. */
  datatype WindowsSettings = WindowsSettings(
    url: Value, archivePath: Value, installRoot: Value, pattern: Option<string>, minSize: int,
    setEnvironment: Value, archiveDir: Value, extraArgs: Option<string>, homeExpression: Value,
    scope: string, versionCommand: Option<Value>)

  /** `None` when the value is `None`, else its text. */
  function OptionalText(v: Value): Option<string>
  {
    if v.VNone? then None else Some(PyStr(v))
  }

  /** The Windows settings; `int(min_download_size)` is the one read that can raise. */
  function WindowsSettingsOf(cfg: Dict): (r: Result<WindowsSettings>)
    ensures r.Success? <==> PyInt(GetOr(cfg, "min_download_size", VInt(DefaultMinSize))).Some?
    ensures r.Success? && "folder_pattern" !in cfg ==> r.value.pattern == Some(DefaultPattern)
  {
    var minSize := GetOr(cfg, "min_download_size", VInt(DefaultMinSize));
    match PyInt(minSize)
    case None => Failure(RemoteDiskCheck.IntFailure(minSize))
    case Some(n) =>
      Success(WindowsSettings(
        Get(cfg, "download_url"), Get(cfg, "archive_path"), Get(cfg, "install_root"),
        OptionalText(GetOr(cfg, "folder_pattern", VStr(DefaultPattern))), n,
        GetOr(cfg, "set_environment", VBool(true)), Get(cfg, "archive_dir"),
        OptionalText(Get(cfg, "curl_extra_args")), Get(cfg, "java_home_expression"),
        TextOr(cfg, "environment_scope", "User"),
        if "version_command" in cfg then Some(cfg["version_command"]) else None))
  }

  /** `all([download_url, archive_path, install_root])`. */
  predicate Configured(s: WindowsSettings)
  {
    Truthy(s.url) && Truthy(s.archivePath) && Truthy(s.installRoot)
  }

  /** `win_cfg.get("archive_dir") or archive_path.rsplit("\\", 1)[0]`. */
  function ArchiveDir(s: WindowsSettings): string
  {
    if Truthy(s.archiveDir) then PyStr(s.archiveDir) else BeforeLast(PyStr(s.archivePath), '\\')
  }

  /** The expression for the new `JAVA_HOME`: the configured one formatted with the folder, else the folder under the root. */
  function JavaHome(s: WindowsSettings, folder: string): Result<string>
  {
    if Truthy(s.homeExpression) then PyFormat.FormatValue(s.homeExpression, "folder", folder)
    else Success("(Join-Path '" + PyStr(s.installRoot) + "' '" + folder + "')")
  }

  function SetHomeCommand(home: string, scope: string): string
  {
    "powershell -Command \"" + "$javaHome = " + home + ";"
    + "[Environment]::SetEnvironmentVariable('JAVA_HOME', $javaHome, '" + scope + "')" + "\""
  }

  function PathCommand(home: string, scope: string): string
  {
    "powershell -Command \"" + "$bin = Join-Path (" + home + ") 'bin';"
    + "$old=[Environment]::GetEnvironmentVariable('PATH','" + scope + "');"
    + "if ($old -notlike '*'+$bin+'*') {"
    + "    [Environment]::SetEnvironmentVariable('PATH',$bin+';'+$old,'" + scope + "');" + "}" + "\""
  }

  /** The default version query: the new `java.exe`. */
  function DefaultVersionCommand(home: string): string
  {
    VersionHead + home + VersionTail
  }

  /** The version query: the configured one, else the default, formatted with the folder. */
  function VersionCommand(s: WindowsSettings, home: string, folder: string): Result<string>
  {
    var template := match s.versionCommand
      case Some(c) => c
      case None => VStr(DefaultVersionCommand(home));
    PyFormat.FormatValue(template, "folder", folder)
  }

  /** The environment commands: both or neither. */
  function EnvironmentCommands(s: WindowsSettings, home: string): (cmds: seq<string>)
    ensures Truthy(s.setEnvironment) <==> |cmds| == 2
    ensures !Truthy(s.setEnvironment) <==> cmds == []
  {
    if Truthy(s.setEnvironment) then [SetHomeCommand(home, s.scope), PathCommand(home, s.scope)] else []
  }

  /** What the environment commands log: a heading, then whatever errors they printed. */
  function EnvironmentLogs(link: Link, sent: seq<string>, cmds: seq<string>): seq<string>
    requires |cmds| == 0 || |cmds| == 2
  {
    if cmds == [] then []
    else
      ["Setting JAVA_HOME and PATH..."]
      + NonBlankStripped([link.respond(|sent|, cmds[0]).stderr])
      + NonBlankStripped([link.respond(|sent| + 1, cmds[1]).stderr])
  }

  /** The last stage: the environment, then the version query that decides. */
  function WindowsConfigured(link: Link, sent: seq<string>, s: WindowsSettings, folder: string, logs: seq<string>)
    : (i: Install)
    ensures JavaHome(s, folder).Failure? ==> i == Install(ExceptionResult(JavaHome(s, folder).error, logs), [])
    ensures JavaHome(s, folder).Success? ==>
      var env := EnvironmentCommands(s, JavaHome(s, folder).value);
      var version := VersionCommand(s, JavaHome(s, folder).value, folder);
      && (version.Failure? ==> i.commands == env && i.result.status == "Failed")
      && (version.Success? ==>
            i.commands == env + [version.value]
            && (i.result.status == "Success" <==> NamesVersion(link.respond(|sent| + |env|, version.value))))
  {
    match JavaHome(s, folder)
    case Failure(e) => Install(ExceptionResult(e, logs), [])
    case Success(home) =>
      var env := EnvironmentCommands(s, home);
      var logs' := logs + EnvironmentLogs(link, sent, env) + ["Testing Java installation..."];
      match VersionCommand(s, home, folder)
      case Failure(e) => Install(ExceptionResult(e, logs'), env)
      case Success(version) =>
        var reply := link.respond(|sent| + |env|, version);
        Install(Verified(reply, logs' + [reply.stdout + reply.stderr]), env + [version])
  }

  /** What follows the extraction `x`, sent after `next`: a failure or an empty folder ends the run with its result. */
  function AfterExtraction(link: Link, next: seq<string>, s: WindowsSettings, x: RemoteExtract.Extraction, logs: seq<string>)
    : (i: Install)
    ensures x.result.status != "Success" || x.folderName == "" ==>
      i == Install(Renamed(x.result, logs + SplitLines(x.result.details)), [])
  {
    var logs' := logs + SplitLines(x.result.details);
    if x.result.status != "Success" || x.folderName == "" then Install(Renamed(x.result, logs'), [])
    else WindowsConfigured(link, next, s, x.folderName, logs' + ["\U{2714} Extraction complete. Folder: " + x.folderName])
  }

  /** The extraction of the archive into the install root, with the pattern configured. */
  function Extraction(link: Link, sent: seq<string>, s: WindowsSettings): RemoteExtract.Extraction
  {
    RemoteExtract.ExtractRun(link, sent, PyStr(s.archivePath), PyStr(s.installRoot), s.pattern)
  }

  /** The extraction stage and what follows it. */
  function Extracted(link: Link, sent: seq<string>, s: WindowsSettings, logs: seq<string>): Install
  {
    var x := Extraction(link, sent, s);
    Then(x.commands, AfterExtraction(link, sent + x.commands, s, x, logs))
  }

  /** What follows the download `d`, sent after `next`: a failed download ends the run with its result. */
  function AfterDownload(link: Link, next: seq<string>, s: WindowsSettings, d: RemoteDownload.Download, logs: seq<string>)
    : (i: Install)
    ensures d.result.status != "Success" ==> i == Install(Renamed(d.result, logs + SplitLines(d.result.details)), [])
  {
    var logs' := logs + SplitLines(d.result.details);
    if d.result.status != "Success" then Install(Renamed(d.result, logs'), [])
    else Extracted(link, next, s, logs' + ["\U{2714} JDK download successful.", "Extracting JDK archive..."])
  }

  /** The download of the archive to its configured path. */
  function Download(link: Link, sent: seq<string>, s: WindowsSettings): RemoteDownload.Download
  {
    RemoteDownload.DownloadRun(link, sent, PyStr(s.url), PyStr(s.archivePath), s.minSize, s.extraArgs)
  }

  /** The download stage and what follows it. */
  function Downloaded(link: Link, sent: seq<string>, s: WindowsSettings, logs: seq<string>): Install
  {
    var d := Download(link, sent, s);
    Then(d.commands, AfterDownload(link, sent + d.commands, s, d, logs))
  }

  /** The folders the archive and the JDK go to. */
  function FolderCommands(s: WindowsSettings): (cmds: seq<string>)
    ensures |cmds| == 2
  {
    [RemoteDownload.EnsureDirectoryCommand(ArchiveDir(s)), RemoteDownload.EnsureDirectoryCommand(PyStr(s.installRoot))]
  }

  /** The installation proper, once the probe found no Java. */
  function WindowsSetup(link: Link, sent: seq<string>, s: WindowsSettings, logs: seq<string>): (i: Install)
    ensures FolderCommands(s) <= i.commands
  {
    Then(FolderCommands(s), Downloaded(link, sent + FolderCommands(s), s, logs + ["Downloading JDK archive..."]))
  }

  /** The Windows branch from the probe on. */
  function WindowsProbed(link: Link, sent: seq<string>, s: WindowsSettings, logs: seq<string>): (i: Install)
    ensures |i.commands| >= 1 && i.commands[0] == WindowsProbe
    ensures NamesVersion(link.respond(|sent|, WindowsProbe)) ==> i.commands == [WindowsProbe] && i.result.status == "Success"
  {
    var probe := link.respond(|sent|, WindowsProbe);
    if NamesVersion(probe) then Install(AlreadyInstalled(probe, logs), [WindowsProbe])
    else
      Then([WindowsProbe], WindowsSetup(link, sent + [WindowsProbe], s,
                                        logs + ["Java not found \U{2192} Installing Java...", "Ensuring folders exist..."]))
  }

  const WindowsKeys: string := "windows.(download_url/archive_path/install_root)"

  /** The Windows branch for the settings `cfg`. */
  function WindowsInstall(link: Link, sent: seq<string>, cfg: Dict, logs: seq<string>): (i: Install)
    ensures WindowsSettingsOf(cfg).Failure? ==> i.commands == [] && i.result.status == "Failed"
    ensures WindowsSettingsOf(cfg).Success? && !Configured(WindowsSettingsOf(cfg).value) ==>
      i == Install(MissingConfig(WindowsKeys, logs), [])
    ensures WindowsSettingsOf(cfg).Success? && Configured(WindowsSettingsOf(cfg).value) ==>
      |i.commands| >= 1 && i.commands[0] == WindowsProbe
  {
    match WindowsSettingsOf(cfg)
    case Failure(e) => Install(ExceptionResult(e, logs), [])
    case Success(s) =>
      if !Configured(s) then Install(MissingConfig(WindowsKeys, logs), [])
      else WindowsProbed(link, sent, s, logs + ["Checking existing Java..."])
  }

  // ---------------------------------------------------------------------------
  // The whole run

  const UnknownOs: ToolResult := ToolResult(ToolName, "Failed", "", "Unknown OS", "")

  /** Everything after the system is known to be `os`. */
  function InstallOn(link: Link, sent: seq<string>, os: string, config: Dict): Install
  {
    var logs := DetectLogs(os);
    if os == "linux" then
      match Section(config, "linux")
      case Failure(e) => Install(ExceptionResult(e, logs), [])
      case Success(cfg) => LinuxInstall(link, sent, cfg, logs)
    else if os == "windows" then
      match Section(config, "windows")
      case Failure(e) => Install(ExceptionResult(e, logs), [])
      case Success(cfg) => WindowsInstall(link, sent, cfg, logs)
    else Install(UnknownOs, [])
  }

  /** `run(executor, config)` after the commands `sent`. */
  function JavaInstall(link: Link, sent: seq<string>, config: Dict): Install
  {
    Then(OsProbes(link, |sent|), InstallOn(link, sent + OsProbes(link, |sent|), DetectedOs(link, |sent|), config))
  }

  // ---------------------------------------------------------------------------
  // Properties

  /** On Linux a missing download URL fails, naming the setting, before the probe or any install command. */
  lemma LinuxNeedsUrl(link: Link, sent: seq<string>, config: Dict)
    requires DetectedOs(link, |sent|) == "linux" && Section(config, "linux").Success?
    requires !Truthy(Get(Section(config, "linux").value, "download_url"))
    ensures JavaInstall(link, sent, config)
         == Install(MissingConfig("linux.download_url", DetectLogs("linux")), OsProbes(link, |sent|))
  {
    assert OsProbes(link, |sent|) + [] == OsProbes(link, |sent|);
  }

  /** A Linux probe that names a version ends the run with Success, the probe being the only command. */
  lemma LinuxAlreadyInstalled(link: Link, sent: seq<string>, cfg: Dict, logs: seq<string>)
    requires Truthy(Get(cfg, "download_url"))
    requires NamesVersion(link.respond(|sent|, LinuxProbe))
    ensures LinuxInstall(link, sent, cfg, logs).commands == [LinuxProbe]
    ensures LinuxInstall(link, sent, cfg, logs).result.status == "Success"
  {
  }

  /** A Windows probe that names a version ends the run with Success, the probe being the only command. */
  lemma WindowsAlreadyInstalled(link: Link, sent: seq<string>, cfg: Dict, logs: seq<string>)
    requires WindowsSettingsOf(cfg).Success? && Configured(WindowsSettingsOf(cfg).value)
    requires NamesVersion(link.respond(|sent|, WindowsProbe))
    ensures WindowsInstall(link, sent, cfg, logs).commands == [WindowsProbe]
    ensures WindowsInstall(link, sent, cfg, logs).result.status == "Success"
  {
  }

  /** Once the packages are settled, the Linux verdict is the last version query's. */
  lemma LinuxVerdict(link: Link, sent: seq<string>, cfg: Dict, logs: seq<string>)
    requires Truthy(Get(cfg, "download_url"))
    requires !NamesVersion(link.respond(|sent|, LinuxProbe))
    requires PackageCommands(LinuxSettingsOf(cfg)).error.None?
    ensures var s := LinuxSettingsOf(cfg);
      var cmds := PackageCommands(s).commands + LinuxInstallCommands(s);
      var i := LinuxInstall(link, sent, cfg, logs);
      i.commands == [LinuxProbe] + cmds + [s.versionCheck]
      && (i.result.status == "Success" <==> NamesVersion(link.respond(|sent| + 1 + |cmds|, s.versionCheck)))
  {
    var s := LinuxSettingsOf(cfg);
    var cmds := PackageCommands(s).commands + LinuxInstallCommands(s);
    assert |sent + [LinuxProbe] + cmds| == |sent| + 1 + |cmds|;
  }

  /** The default install command is `sudo apt install -y` followed by the joined list, after the update. */
  lemma DefaultPackageInstall(s: LinuxSettings)
    requires s.packageCommand == VStr(DefaultPackageCommand)
    requires Truthy(s.packages) && PackageList(s.packages).Success?
    ensures PackageCommands(s)
         == PackageStep([s.updateCommand, InstallPrefix + PackageList(s.packages).value], None)
  {
    var list := PackageList(s.packages).value;
    InstallPrefixBraceFree();
    assert DefaultPackageCommand == InstallPrefix + PyFormat.Field("packages") + [];
    PyFormat.FormatOnlyField(InstallPrefix, "packages", list, []);
    assert InstallPrefix + list + [] == InstallPrefix + list;
  }

  /** An install command that does not format is raised after the update went out: the update is the only package command sent. */
  lemma PackageFormatFailsAfterUpdate(link: Link, sent: seq<string>, s: LinuxSettings, logs: seq<string>)
    requires Truthy(s.packages) && PackageList(s.packages).Success?
    requires PyFormat.FormatValue(s.packageCommand, "packages", PackageList(s.packages).value).Failure?
    ensures var i := LinuxSetup(link, sent, s, logs);
      && i.commands == [s.updateCommand]
      && i.result == ExceptionResult(PyFormat.FormatValue(s.packageCommand, "packages", PackageList(s.packages).value).error, logs)
  {
  }

  /**
   * The new `JAVA_HOME` is the folder under the install root without a
   * configured expression, and the configured expression with the folder in
   * place of `{folder}` when it holds that field between brace-free texts.
   */
  lemma JavaHomeOf(s: WindowsSettings, folder: string, before: string, after: string)
    ensures !Truthy(s.homeExpression) ==> JavaHome(s, folder) == Success("(Join-Path '" + PyStr(s.installRoot) + "' '" + folder + "')")
    ensures s.homeExpression == VStr(before + PyFormat.Field("folder") + after)
         && PyFormat.BraceFree(before) && PyFormat.BraceFree(after)
      ==> JavaHome(s, folder) == Success(before + folder + after)
  {
    if s.homeExpression == VStr(before + PyFormat.Field("folder") + after)
       && PyFormat.BraceFree(before) && PyFormat.BraceFree(after) {
      PyFormat.FormatOnlyField(before, "folder", folder, after);
    }
  }

  /** Without a configured query, a brace-free home gives the default query on the new `java.exe` as it is. */
  lemma DefaultVersionQuery(s: WindowsSettings, home: string, folder: string)
    requires s.versionCommand.None? && PyFormat.BraceFree(home)
    ensures VersionCommand(s, home, folder) == Success(DefaultVersionCommand(home))
  {
    DefaultVersionBraceFree(home);
    PyFormat.FormatPlain(DefaultVersionCommand(home), "folder", folder);
  }

  const VersionHead: string := "powershell -Command \"& (Join-Path ("
  const VersionTail: string := ") 'bin\\java.exe') -version\""

  lemma InstallPrefixBraceFree()
    ensures PyFormat.BraceFree(InstallPrefix)
  {
  }

  lemma VersionHeadBraceFree()
    ensures PyFormat.BraceFree(VersionHead)
  {
  }

  lemma VersionTailBraceFree()
    ensures PyFormat.BraceFree(VersionTail)
  {
  }

  lemma DefaultVersionBraceFree(home: string)
    requires PyFormat.BraceFree(home)
    ensures PyFormat.BraceFree(DefaultVersionCommand(home))
  {
    VersionHeadBraceFree();
    VersionTailBraceFree();
    assert DefaultVersionCommand(home) == VersionHead + home + VersionTail;
  }

  /** A configured version query that is not a string raises once the environment is set, and nothing more is sent. */
  lemma VersionQueryNotText(link: Link, sent: seq<string>, s: WindowsSettings, folder: string, logs: seq<string>)
    requires JavaHome(s, folder).Success?
    requires s.versionCommand.Some? && !s.versionCommand.value.VStr?
    ensures var i := WindowsConfigured(link, sent, s, folder, logs);
      && i.commands == EnvironmentCommands(s, JavaHome(s, folder).value)
      && i.result.status == "Failed"
      && i.result.details == Join("\n", logs + EnvironmentLogs(link, sent, i.commands)
                                    + ["Testing Java installation...", "Exception: " + PyFormat.NoFormat(s.versionCommand.value)])
  {
    var env := EnvironmentCommands(s, JavaHome(s, folder).value);
    var front := logs + EnvironmentLogs(link, sent, env);
    var e := "Exception: " + PyFormat.NoFormat(s.versionCommand.value);
    assert front + ["Testing Java installation..."] + [e] == front + ["Testing Java installation...", e];
  }

  /** Without `archive_dir`, the archive goes to the folder of `archive_path`: `dir\name` gives `dir`. */
  lemma ArchiveDirIsFolder(s: WindowsSettings, dir: string, name: string)
    requires !Truthy(s.archiveDir) && s.archivePath == VStr(dir + "\\" + name) && '\\' !in name
    ensures ArchiveDir(s) == dir
  {
    BeforeLastOf(dir, '\\', name);
  }

  /** A failed download ends the run: its result, renamed, and no command after it. */
  lemma DownloadFailureStops(link: Link, sent: seq<string>, s: WindowsSettings, logs: seq<string>)
    requires Download(link, sent + FolderCommands(s), s).result.status != "Success"
    ensures var d := Download(link, sent + FolderCommands(s), s);
      WindowsSetup(link, sent, s, logs)
      == Install(Renamed(d.result, logs + ["Downloading JDK archive..."] + SplitLines(d.result.details)),
                 FolderCommands(s) + d.commands)
  {
    var d := Download(link, sent + FolderCommands(s), s);
    assert d.commands + [] == d.commands;
    AppendAssoc(FolderCommands(s), d.commands, []);
  }

  /** A failed extraction, or one that found no folder, ends the run before any environment change. */
  lemma ExtractionFailureStops(link: Link, sent: seq<string>, s: WindowsSettings, logs: seq<string>)
    requires var x := Extraction(link, sent, s); x.result.status != "Success" || x.folderName == ""
    ensures var x := Extraction(link, sent, s);
      Extracted(link, sent, s, logs) == Install(Renamed(x.result, logs + SplitLines(x.result.details)), x.commands)
  {
    var x := Extraction(link, sent, s);
    assert x.commands + [] == x.commands;
  }

  /** With a folder pattern, an extraction that found no folder is reported as failed. */
  lemma NoFolderFails(link: Link, sent: seq<string>, s: WindowsSettings)
    requires s.pattern.Some?
    requires Extraction(link, sent, s).folderName == ""
    ensures Extraction(link, sent, s).result.status == "Failed"
  {
    var src := RemoteDownload.PsLiteral(PyStr(s.archivePath));
    var dest := RemoteDownload.PsLiteral(PyStr(s.installRoot));
    RemoteExtract.ExtractionRule(link, sent, src, dest, PyStr(s.installRoot), s.pattern);
  }

  /**
   * With the folder pattern set to `None`, the extraction never names a
   * folder, so the run ends after it with the extraction's own status:
   * neither the environment nor the version query is sent.
   */
  lemma NoPatternStopsAfterExtraction(link: Link, sent: seq<string>, s: WindowsSettings, logs: seq<string>)
    requires s.pattern.None?
    ensures Extracted(link, sent, s, logs).commands == Extraction(link, sent, s).commands
    ensures Extracted(link, sent, s, logs).result.status == Extraction(link, sent, s).result.status
  {
    var src := RemoteDownload.PsLiteral(PyStr(s.archivePath));
    var dest := RemoteDownload.PsLiteral(PyStr(s.installRoot));
    RemoteExtract.ExtractionRule(link, sent, src, dest, PyStr(s.installRoot), s.pattern);
    ExtractionFailureStops(link, sent, s, logs);
  }

  /** An operating system that is neither Linux nor Windows fails with "Unknown OS" after the probes. */
  lemma UnknownOsFails(link: Link, sent: seq<string>, config: Dict)
    requires DetectedOs(link, |sent|) != "linux" && DetectedOs(link, |sent|) != "windows"
    ensures JavaInstall(link, sent, config).result.status == "Failed"
    ensures JavaInstall(link, sent, config).result.details == "Unknown OS"
    ensures JavaInstall(link, sent, config).commands == OsProbes(link, |sent|)
  {
    assert OsProbes(link, |sent|) + [] == OsProbes(link, |sent|);
  }

  // ---------------------------------------------------------------------------
  // The tool on a connected executor

  /** The Linux installation proper. */
  method SetupLinux(ex: Executor, s: LinuxSettings, logs: seq<string>) returns (i: Install)
    requires ex.connected
    modifies ex`issued
    ensures i == LinuxSetup(ex.link, old(ex.issued), s, logs)
    ensures ex.issued == old(ex.issued) + i.commands
  {
    var packages := PackageCommands(s);
    var cmds := if packages.error.Some? then packages.commands else packages.commands + LinuxInstallCommands(s);
    for k := 0 to |cmds|
      invariant ex.issued == old(ex.issued) + cmds[..k]
    {
      var _, _ := ex.Run(cmds[k]);
      assert cmds[..k + 1] == cmds[..k] + [cmds[k]];
    }
    assert cmds[..|cmds|] == cmds;
    if packages.error.Some? {
      return Install(ExceptionResult(packages.error.value, logs), cmds);
    }
    var out, err := ex.Run(s.versionCheck);
    i := Install(Verified(Reply(out, err), logs), cmds + [s.versionCheck]);
  }

  /** The Linux branch. */
  method InstallLinux(ex: Executor, cfg: Dict, logs: seq<string>) returns (i: Install)
    requires ex.connected
    modifies ex`issued
    ensures i == LinuxInstall(ex.link, old(ex.issued), cfg, logs)
    ensures ex.issued == old(ex.issued) + i.commands
  {
    var s := LinuxSettingsOf(cfg);
    if !Truthy(s.url) {
      return Install(MissingConfig("linux.download_url", logs), []);
    }
    var logs' := logs + ["Checking existing Java..."];
    var before := ex.issued;
    var out, err := ex.Run(LinuxProbe);
    if NamesVersion(Reply(out, err)) {
      return Install(AlreadyInstalled(Reply(out, err), logs'), [LinuxProbe]);
    }
    var rest := SetupLinux(ex, s, logs' + ["Installing Java on Linux..."]);
    AppendAssoc(before, [LinuxProbe], rest.commands);
    i := Then([LinuxProbe], rest);
  }

  /** Sends the environment commands `env`, if any, and returns what they log. */
  method SetEnvironment(ex: Executor, env: seq<string>) returns (envLogs: seq<string>)
    requires ex.connected
    requires |env| == 0 || |env| == 2
    modifies ex`issued
    ensures envLogs == EnvironmentLogs(ex.link, old(ex.issued), env)
    ensures ex.issued == old(ex.issued) + env
  {
    envLogs := [];
    if env != [] {
      var _, homeErr := ex.Run(env[0]);
      var _, pathErr := ex.Run(env[1]);
      envLogs := ["Setting JAVA_HOME and PATH..."] + NonBlankStripped([homeErr]) + NonBlankStripped([pathErr]);
      assert ex.issued == old(ex.issued) + env;
    }
  }

  /** The environment and the version query, once the JDK folder is known. */
  method Configure(ex: Executor, s: WindowsSettings, folder: string, logs: seq<string>) returns (i: Install)
    requires ex.connected
    modifies ex`issued
    ensures i == WindowsConfigured(ex.link, old(ex.issued), s, folder, logs)
    ensures ex.issued == old(ex.issued) + i.commands
  {
    var home := JavaHome(s, folder);
    if home.Failure? {
      return Install(ExceptionResult(home.error, logs), []);
    }
    var env := EnvironmentCommands(s, home.value);
    var envLogs := SetEnvironment(ex, env);
    var logs' := logs + envLogs + ["Testing Java installation..."];
    var version := VersionCommand(s, home.value, folder);
    if version.Failure? {
      return Install(ExceptionResult(version.error, logs'), env);
    }
    var out, err := ex.Run(version.value);
    i := Install(Verified(Reply(out, err), logs' + [out + err]), env + [version.value]);
  }

  /** Judges the extraction `x` and, when a folder came out, configures it. */
  method ContinueAfterExtraction(ex: Executor, s: WindowsSettings, x: RemoteExtract.Extraction, logs: seq<string>)
    returns (i: Install)
    requires ex.connected
    modifies ex`issued
    ensures i == AfterExtraction(ex.link, old(ex.issued), s, x, logs)
    ensures ex.issued == old(ex.issued) + i.commands
  {
    var logs' := logs + SplitLines(x.result.details);
    if x.result.status != "Success" || x.folderName == "" {
      return Install(Renamed(x.result, logs'), []);
    }
    i := Configure(ex, s, x.folderName, logs' + ["\U{2714} Extraction complete. Folder: " + x.folderName]);
  }

  /** Expands the archive, then goes on. */
  method ExtractStage(ex: Executor, s: WindowsSettings, logs: seq<string>) returns (i: Install)
    requires ex.connected
    modifies ex`issued
    ensures i == Extracted(ex.link, old(ex.issued), s, logs)
    ensures ex.issued == old(ex.issued) + i.commands
  {
    var before := ex.issued;
    var x := RemoteExtract.Run(ex, PyStr(s.archivePath), PyStr(s.installRoot), s.pattern);
    var rest := ContinueAfterExtraction(ex, s, x, logs);
    AppendAssoc(before, x.commands, rest.commands);
    i := Then(x.commands, rest);
  }

  /** Judges the download `d` and, when it succeeded, goes on to the extraction. */
  method ContinueAfterDownload(ex: Executor, s: WindowsSettings, d: RemoteDownload.Download, logs: seq<string>)
    returns (i: Install)
    requires ex.connected
    modifies ex`issued
    ensures i == AfterDownload(ex.link, old(ex.issued), s, d, logs)
    ensures ex.issued == old(ex.issued) + i.commands
  {
    var logs' := logs + SplitLines(d.result.details);
    if d.result.status != "Success" {
      return Install(Renamed(d.result, logs'), []);
    }
    i := ExtractStage(ex, s, logs' + ["\U{2714} JDK download successful.", "Extracting JDK archive..."]);
  }

  /** Downloads the archive, then goes on. */
  method DownloadStage(ex: Executor, s: WindowsSettings, logs: seq<string>) returns (i: Install)
    requires ex.connected
    modifies ex`issued
    ensures i == Downloaded(ex.link, old(ex.issued), s, logs)
    ensures ex.issued == old(ex.issued) + i.commands
  {
    var before := ex.issued;
    var d := RemoteDownload.Run(ex, PyStr(s.url), PyStr(s.archivePath), s.minSize, s.extraArgs);
    var rest := ContinueAfterDownload(ex, s, d, logs);
    AppendAssoc(before, d.commands, rest.commands);
    i := Then(d.commands, rest);
  }

  /** The Windows installation proper: the folders, then the download. */
  method SetupWindows(ex: Executor, s: WindowsSettings, logs: seq<string>) returns (i: Install)
    requires ex.connected
    modifies ex`issued
    ensures i == WindowsSetup(ex.link, old(ex.issued), s, logs)
    ensures ex.issued == old(ex.issued) + i.commands
  {
    var before := ex.issued;
    var folders := FolderCommands(s);
    var _, _ := ex.Run(folders[0]);
    var _, _ := ex.Run(folders[1]);
    assert ex.issued == before + folders;
    var rest := DownloadStage(ex, s, logs + ["Downloading JDK archive..."]);
    AppendAssoc(before, folders, rest.commands);
    i := Then(folders, rest);
  }

  /** The Windows branch. */
  method InstallWindows(ex: Executor, cfg: Dict, logs: seq<string>) returns (i: Install)
    requires ex.connected
    modifies ex`issued
    ensures i == WindowsInstall(ex.link, old(ex.issued), cfg, logs)
    ensures ex.issued == old(ex.issued) + i.commands
  {
    var settings := WindowsSettingsOf(cfg);
    if settings.Failure? {
      return Install(ExceptionResult(settings.error, logs), []);
    }
    var s := settings.value;
    if !Configured(s) {
      return Install(MissingConfig(WindowsKeys, logs), []);
    }
    var logs' := logs + ["Checking existing Java..."];
    var before := ex.issued;
    var out, err := ex.Run(WindowsProbe);
    if NamesVersion(Reply(out, err)) {
      return Install(AlreadyInstalled(Reply(out, err), logs'), [WindowsProbe]);
    }
    var rest := SetupWindows(ex, s, logs' + ["Java not found \U{2192} Installing Java...", "Ensuring folders exist..."]);
    AppendAssoc(before, [WindowsProbe], rest.commands);
    i := Then([WindowsProbe], rest);
  }

  /** The branch for the detected system. */
  method InstallDetected(ex: Executor, os: string, config: Dict) returns (i: Install)
    requires ex.connected
    modifies ex`issued
    ensures i == InstallOn(ex.link, old(ex.issued), os, config)
    ensures ex.issued == old(ex.issued) + i.commands
  {
    var logs := DetectLogs(os);
    if os == "linux" {
      var cfg := Section(config, "linux");
      if cfg.Failure? {
        return Install(ExceptionResult(cfg.error, logs), []);
      }
      i := InstallLinux(ex, cfg.value, logs);
    } else if os == "windows" {
      var cfg := Section(config, "windows");
      if cfg.Failure? {
        return Install(ExceptionResult(cfg.error, logs), []);
      }
      i := InstallWindows(ex, cfg.value, logs);
    } else {
      i := Install(UnknownOs, []);
    }
  }

  /** `run(executor, config)` on a connected executor. */
  method Run(ex: Executor, config: Dict) returns (i: Install)
    requires ex.connected
    modifies ex`issued
    ensures i == JavaInstall(ex.link, old(ex.issued), config)
    ensures ex.issued == old(ex.issued) + i.commands
  {
    var before := ex.issued;
    var os := ex.DetectOs();
    var rest := InstallDetected(ex, os, config);
    AppendAssoc(before, OsProbes(ex.link, |before|), rest.commands);
    i := Then(OsProbes(ex.link, |before|), rest);
  }
}
