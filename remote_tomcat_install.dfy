/**
 * `remote_tomcat_install`: installs Apache Tomcat on the remote host. On
 * Windows it creates the folders, downloads the archive with the curl tool,
 * expands it with the ZIP tool, clears the attributes of the `.bat` scripts
 * and removes the archive; on Linux it sends `mkdir`, `wget`, `tar`, `rm` and
 * `chmod` without reading their replies. Paths joined on the agent's side
 * (`os.path`) follow POSIX rules here.
 */
module RemoteTomcatInstall {
  import opened Wrappers
  import opened Text
  import opened Values
  import opened Sequences
  import opened RemoteExecutor
  import opened ToolResults
  import RemoteDiskCheck
  import RemoteDownload
  import RemoteExtract
  import RemoteJavaInstall

  const ToolName: string := "remote_tomcat_install"

  /** The result dictionary, its `tomcat_home` and `payload` when present, and the commands sent. */
  datatype Installation = Installation(result: ToolResult, tomcatHome: Option<string>, payload: Option<ToolResult>,
                                       commands: seq<string>)

  /** The commands of `i` after `pre`. */
  function Then(pre: seq<string>, i: Installation): Installation
  {
    Installation(i.result, i.tomcatHome, i.payload, pre + i.commands)
  }

  /**
   * Every result is either a success that names the Tomcat home in its
   * details and carries no payload, or a failure without a home.
   */
  predicate Shaped(i: Installation)
  {
    || (i.result.status == "Success" && i.tomcatHome.Some? && i.payload.None?
        && i.result.details == "Tomcat extracted to " + i.tomcatHome.value)
    || (i.result.status == "Failed" && i.tomcatHome.None?)
  }

  // ---------------------------------------------------------------------------
  // Results

  /** `"\n".join(filter(None, logs))`. */
  function LogOutput(logs: seq<string>): string
  {
    Join("\n", Filter(logs, RemoteDownload.NonEmpty))
  }

  /** `_failure(message, logs, payload)`: the payload is attached only when one is given. */
  function Failed(message: string, logs: seq<string>, payload: Option<ToolResult>): (i: Installation)
    ensures i.result.status == "Failed" && i.result.details == message && i.result.command == ToolName
    ensures i.payload == payload && i.tomcatHome.None? && i.commands == []
    ensures Shaped(i)
  {
    Installation(ToolResult(ToolName, "Failed", ToolName, message, LogOutput(logs)), None, payload, [])
  }

  /** `_missing_config(section, logs)`. */
  function MissingConfig(section: string, logs: seq<string>): (i: Installation)
    ensures i.result.status == "Failed" && i.result.details == "Configuration missing for " + section
    ensures i.payload.None? && i.commands == []
  {
    Failed("Configuration missing for " + section, logs + ["Missing required configuration for " + section], None)
  }

  /** The `except` branch. */
  function ExceptionFailure(message: string, logs: seq<string>): (i: Installation)
    ensures i.result.status == "Failed" && i.commands == []
  {
    Failed(message, logs + ["Exception: " + message], None)
  }

  /** The result of an installation that reached its end, with Tomcat in `home`. */
  function Installed(url: Value, home: string, logs: seq<string>, commands: seq<string>): (i: Installation)
    ensures i.result.status == "Success" && i.tomcatHome == Some(home) && i.payload.None?
    ensures i.result.details == "Tomcat extracted to " + home && i.commands == commands
    ensures Shaped(i)
  {
    Installation(ToolResult(ToolName, "Success", "Install Tomcat -> " + PyStr(url), "Tomcat extracted to " + home, LogOutput(logs)),
                 Some(home), None, commands)
  }

  /** `all([download_url, archive_path, install_root])`. */
  predicate Configured(cfg: Dict)
  {
    Truthy(Get(cfg, "download_url")) && Truthy(Get(cfg, "archive_path")) && Truthy(Get(cfg, "install_root"))
  }

  /** `cfg.get("cleanup_archive", True)` is truthy. */
  predicate CleansUp(cfg: Dict)
  {
    Truthy(GetOr(cfg, "cleanup_archive", VBool(true)))
  }

  // ---------------------------------------------------------------------------
  // Paths

  /** `_join_path(base, leaf)`: the leaf after the base, with the base's own kind of separator. */
  function JoinPath(base: string, leaf: string): (r: string)
    ensures leaf == "" ==> r == base
    ensures leaf != "" ==> |r| >= |base| + |leaf| && r[..|base|] == base && r[|r| - |leaf|..] == leaf
  {
    if leaf == "" then base
    else if EndsWith(base, "\\") || EndsWith(base, "/") then base + leaf
    else base + (if '\\' in base then "\\" else "/") + leaf
  }

  /** A base holding a backslash, but not ending in a separator, is joined with a backslash and splits back at it. */
  lemma JoinPathBackslash(base: string, leaf: string)
    requires '\\' in base && !EndsWith(base, "\\") && !EndsWith(base, "/")
    requires leaf != "" && '\\' !in leaf
    ensures JoinPath(base, leaf) == base + "\\" + leaf
    ensures BeforeLast(JoinPath(base, leaf), '\\') == base
  {
    BeforeLastOf(base, '\\', leaf);
  }

  /** A base without a backslash, not ending in a separator, is joined with a slash and splits back at it. */
  lemma JoinPathSlash(base: string, leaf: string)
    requires base != "" && '\\' !in base && !EndsWith(base, "\\") && !EndsWith(base, "/")
    requires leaf != "" && '/' !in leaf
    ensures JoinPath(base, leaf) == base + "/" + leaf
    ensures PosixDirname(JoinPath(base, leaf)) == base
  {
    DirnameOf(base, leaf);
  }

  /** `p[:p.rfind("/") + 1]`. */
  function UpToLastSlash(p: string): (r: string)
    ensures |r| <= |p|
  {
    if '/' !in p then ""
    else if p[|p| - 1] == '/' then p
    else UpToLastSlash(p[..|p| - 1])
  }

  /** `h.rstrip("/")`. */
  function TrimSlashes(h: string): (r: string)
    ensures |r| <= |h|
  {
    if h != [] && h[|h| - 1] == '/' then TrimSlashes(h[..|h| - 1]) else h
  }

  /** `posixpath.dirname(p)`: up to the last slash, trailing slashes dropped unless that leaves nothing. */
  function PosixDirname(p: string): string
  {
    var head := UpToLastSlash(p);
    if head != "" && TrimSlashes(head) != "" then TrimSlashes(head) else head
  }

  /** A path without a slash, such as a Windows path written with backslashes, has no POSIX folder. */
  lemma NoSlashNoFolder(p: string)
    requires '/' !in p
    ensures PosixDirname(p) == ""
  {
  }

  lemma {:induction false} UpToLastSlashOf(dir: string, name: string)
    requires '/' !in name
    ensures UpToLastSlash(dir + "/" + name) == dir + "/"
    decreases |name|
  {
    var p := dir + "/" + name;
    assert p[|dir|] == '/';
    if name == [] {
      assert p == dir + "/";
    } else {
      var shorter := name[..|name| - 1];
      assert p[..|p| - 1] == dir + "/" + shorter;
      assert p[|p| - 1] == name[|name| - 1];
      assert '/' !in shorter by {
        forall k | 0 <= k < |shorter| ensures shorter[k] != '/' {
          assert shorter[k] == name[k];
        }
      }
      UpToLastSlashOf(dir, shorter);
    }
  }

  /** The POSIX folder of `dir/name` is `dir`, for a `dir` that does not end in a slash. */
  lemma DirnameOf(dir: string, name: string)
    requires dir != "" && dir[|dir| - 1] != '/' && '/' !in name
    ensures PosixDirname(dir + "/" + name) == dir
  {
    UpToLastSlashOf(dir, name);
    assert (dir + "/")[..|dir|] == dir;
    assert TrimSlashes(dir) == dir;
    assert TrimSlashes(dir + "/") == dir;
  }

  /** `posixpath.join(a, "bin")`. */
  function PosixJoinBin(a: string): string
  {
    if a == "" || EndsWith(a, "/") then a + "bin" else a + "/bin"
  }

  // ---------------------------------------------------------------------------
  // Linux

  /** The unpacking command: `-xzf` for a `.gz` archive, `-xf` otherwise. */
  function TarCommand(archive: string, root: string, strip: int): string
  {
    (if EndsWith(archive, ".gz") then "tar -xzf " else "tar -xf ") + TarArguments(archive, root, strip)
  }

  function TarArguments(archive: string, root: string, strip: int): string
  {
    archive + " -C " + root + " --strip-components=" + IntToString(strip)
  }

  lemma GzipFlag(rest: string)
    ensures StartsWith("tar -xzf " + rest, "tar -xzf ")
  {
    assert ("tar -xzf " + rest)[..9] == "tar -xzf ";
  }

  lemma PlainFlag(rest: string)
    ensures !StartsWith("tar -xf " + rest, "tar -xzf ")
  {
    assert ("tar -xf " + rest)[6] == 'f';
  }

  /** Tar is told the archive is gzipped exactly when its name ends in `.gz`. */
  lemma TarFlags(archive: string, root: string, strip: int)
    ensures StartsWith(TarCommand(archive, root, strip), "tar -xzf ") <==> EndsWith(archive, ".gz")
  {
    if EndsWith(archive, ".gz") {
      GzipFlag(TarArguments(archive, root, strip));
    } else {
      PlainFlag(TarArguments(archive, root, strip));
    }
  }

  /** `cfg.get("final_directory") or install_root`. */
  function LinuxHome(cfg: Dict): (home: string)
    ensures Truthy(Get(cfg, "final_directory")) ==> home == PyStr(Get(cfg, "final_directory"))
    ensures !Truthy(Get(cfg, "final_directory")) ==> home == PyStr(Get(cfg, "install_root"))
  {
    PyStr(Or(Get(cfg, "final_directory"), Get(cfg, "install_root")))
  }

  /** The Linux commands: the folder, the download, the unpacking, the removal unless disabled, the permissions. */
  function LinuxCommands(cfg: Dict, strip: int): (cmds: seq<string>)
    ensures |cmds| == if CleansUp(cfg) then 5 else 4
    ensures CleansUp(cfg) ==> cmds[3] == "rm -f " + PyStr(Get(cfg, "archive_path"))
    ensures cmds[|cmds| - 1] == "chmod +x " + LinuxHome(cfg) + "/bin/*.sh"
  {
    LinuxPrepare(cfg, strip) + ArchiveRemoval(cfg) + [ChmodCommand(cfg)]
  }

  /** The directory, the download and the expansion. */
  function LinuxPrepare(cfg: Dict, strip: int): (cmds: seq<string>)
    ensures |cmds| == 3
  {
    var archive := PyStr(Get(cfg, "archive_path"));
    var root := PyStr(Get(cfg, "install_root"));
    ["mkdir -p " + root, "wget -O " + archive + " " + PyStr(Get(cfg, "download_url")), TarCommand(archive, root, strip)]
  }

  /** `rm -f <archive>` unless `cleanup_archive` disables it. */
  function ArchiveRemoval(cfg: Dict): seq<string>
  {
    if CleansUp(cfg) then ["rm -f " + PyStr(Get(cfg, "archive_path"))] else []
  }

  function ChmodCommand(cfg: Dict): string
  {
    "chmod +x " + LinuxHome(cfg) + "/bin/*.sh"
  }

  const LinuxLogs: seq<string> := ["Preparing directories...", "Downloading Tomcat archive...", "Extracting archive...", "Adjusting permissions..."]

  /** `_install_linux(executor, cfg, logs)`: nothing it sends is read back. */
  function LinuxInstall(cfg: Dict, logs: seq<string>): (i: Installation)
    ensures !Configured(cfg) ==> i == MissingConfig("linux", logs)
    ensures Configured(cfg) && PyInt(GetOr(cfg, "strip_components", VInt(1))).Some? ==>
      i == Installed(Get(cfg, "download_url"), LinuxHome(cfg), logs + LinuxLogs,
                     LinuxCommands(cfg, PyInt(GetOr(cfg, "strip_components", VInt(1))).value))
    ensures Shaped(i)
  {
    if !Configured(cfg) then MissingConfig("linux", logs)
    else
      var strip := GetOr(cfg, "strip_components", VInt(1));
      match PyInt(strip)
      case None => ExceptionFailure(RemoteDiskCheck.IntFailure(strip), logs)
      case Some(n) => Installed(Get(cfg, "download_url"), LinuxHome(cfg), logs + LinuxLogs, LinuxCommands(cfg, n))
  }

  // ---------------------------------------------------------------------------
  // Windows

  const DefaultPattern: string := "^apache-tomcat-"
  const DefaultMinSize: int := 100000

  /** What the Windows branch reads from `config["windows"]`, `min_download_size` already converted. */
  datatype WindowsSettings = WindowsSettings(cfg: Dict, minSize: int)

  function WindowsSettingsOf(cfg: Dict): (r: Result<WindowsSettings>)
    ensures r.Success? <==> PyInt(GetOr(cfg, "min_download_size", VInt(DefaultMinSize))).Some?
    ensures r.Success? ==> r.value.cfg == cfg
  {
    var minSize := GetOr(cfg, "min_download_size", VInt(DefaultMinSize));
    match PyInt(minSize)
    case None => Wrappers.Failure(RemoteDiskCheck.IntFailure(minSize))
    case Some(n) => Success(WindowsSettings(cfg, n))
  }

  function Archive(s: WindowsSettings): string
  {
    PyStr(Get(s.cfg, "archive_path"))
  }

  function Root(s: WindowsSettings): string
  {
    PyStr(Get(s.cfg, "install_root"))
  }

  /** The folders the archive and Tomcat go to. */
  function FolderCommands(s: WindowsSettings): (cmds: seq<string>)
    ensures |cmds| == 2
  {
    [RemoteDownload.EnsureDirectoryCommand(PosixDirname(Archive(s))), RemoteDownload.EnsureDirectoryCommand(Root(s))]
  }

  /** `_set_permissions_windows(tomcat_dir)`: every `.bat` script under `bin` gets normal attributes. */
  function PermissionsCommand(dir: string): string
  {
    "powershell -Command \"" + "$bin = " + RemoteDownload.PsLiteral(PosixJoinBin(dir)) + ";"
    + "Get-ChildItem $bin -Filter '*.bat' | ForEach-Object { $_.Attributes='Normal' }" + "\""
  }

  function CleanupCommand(archive: string): string
  {
    "powershell -Command \"" + "$archive = " + RemoteDownload.PsLiteral(archive) + ";"
    + "if (Test-Path $archive) { Remove-Item -Force $archive }" + "\""
  }

  /** The archive removal, unless `cleanup_archive` disables it. */
  function CleanupCommands(s: WindowsSettings): seq<string>
  {
    if CleansUp(s.cfg) then [CleanupCommand(Archive(s))] else []
  }

  /** The end of the Windows branch, Tomcat being in `dir`. */
  function WindowsFinished(s: WindowsSettings, dir: string, logs: seq<string>): (i: Installation)
    ensures i.commands == [PermissionsCommand(dir)] + CleanupCommands(s)
    ensures i.result.status == "Success" && i.tomcatHome == Some(dir)
    ensures Shaped(i)
  {
    Installed(Get(s.cfg, "download_url"), dir,
              logs + ["Set executable attributes for Windows scripts"] + (if CleansUp(s.cfg) then ["Cleaning up archive..."] else []),
              [PermissionsCommand(dir)] + CleanupCommands(s))
  }

  /** What follows the extraction `x`, sent after `next`. */
  function AfterExtraction(s: WindowsSettings, x: RemoteExtract.Extraction, logs: seq<string>): (i: Installation)
    ensures x.result.status != "Success" ==>
      i == Failed("Extraction failed", logs + NonBlankStripped([x.result.details]), Some(x.result))
    ensures x.result.status == "Success" && IsBlank(JoinPath(Root(s), x.folderName)) ==>
      i == Failed("Unable to resolve Tomcat directory", logs + NonBlankStripped([x.result.details]), None)
    ensures i.result.status == "Success" ==> i.tomcatHome == Some(JoinPath(Root(s), x.folderName))
    ensures Shaped(i)
  {
    var logs' := logs + NonBlankStripped([x.result.details]);
    if x.result.status != "Success" then Failed("Extraction failed", logs', Some(x.result))
    else
      var dir := JoinPath(Root(s), x.folderName);
      if IsBlank(dir) then Failed("Unable to resolve Tomcat directory", logs', None)
      else WindowsFinished(s, dir, logs')
  }

  /** The extraction of the archive into the install root. */
  function Extraction(link: Link, sent: seq<string>, s: WindowsSettings): RemoteExtract.Extraction
  {
    RemoteExtract.ExtractRun(link, sent, Archive(s), Root(s),
                             RemoteJavaInstall.OptionalText(GetOr(s.cfg, "folder_pattern", VStr(DefaultPattern))))
  }

  function Extracted(link: Link, sent: seq<string>, s: WindowsSettings, logs: seq<string>): (i: Installation)
    ensures Shaped(i)
  {
    var x := Extraction(link, sent, s);
    Then(x.commands, AfterExtraction(s, x, logs))
  }

  /** What follows the download `d`, sent after `next`. */
  function AfterDownload(link: Link, next: seq<string>, s: WindowsSettings, d: RemoteDownload.Download, logs: seq<string>)
    : (i: Installation)
    ensures d.result.status != "Success" ==>
      i == Failed("Download failed", logs + NonBlankStripped([d.result.details]), Some(d.result))
    ensures Shaped(i)
  {
    var logs' := logs + NonBlankStripped([d.result.details]);
    if d.result.status != "Success" then Failed("Download failed", logs', Some(d.result))
    else Extracted(link, next, s, logs' + ["Extracting archive..."])
  }

  /** The download of the archive to its configured path. */
  function Download(link: Link, sent: seq<string>, s: WindowsSettings): RemoteDownload.Download
  {
    RemoteDownload.DownloadRun(link, sent, PyStr(Get(s.cfg, "download_url")), Archive(s), s.minSize,
                               RemoteJavaInstall.OptionalText(Get(s.cfg, "curl_extra_args")))
  }

  function Downloaded(link: Link, sent: seq<string>, s: WindowsSettings, logs: seq<string>): (i: Installation)
    ensures Shaped(i)
  {
    var d := Download(link, sent, s);
    Then(d.commands, AfterDownload(link, sent + d.commands, s, d, logs))
  }

  /** The Windows branch once configured: the folders, then the download. */
  function WindowsSetup(link: Link, sent: seq<string>, s: WindowsSettings, logs: seq<string>): (i: Installation)
    ensures FolderCommands(s) <= i.commands
    ensures Shaped(i)
  {
    Then(FolderCommands(s), Downloaded(link, sent + FolderCommands(s), s, logs + ["Downloading Tomcat archive..."]))
  }

  /** `_install_windows(executor, cfg, logs)`. */
  function WindowsInstall(link: Link, sent: seq<string>, cfg: Dict, logs: seq<string>): (i: Installation)
    ensures WindowsSettingsOf(cfg).Failure? ==> i.commands == [] && i.result.status == "Failed"
    ensures WindowsSettingsOf(cfg).Success? && !Configured(cfg) ==> i == MissingConfig("windows", logs)
    ensures Shaped(i)
  {
    match WindowsSettingsOf(cfg)
    case Failure(e) => ExceptionFailure(e, logs)
    case Success(s) =>
      if !Configured(cfg) then MissingConfig("windows", logs) else WindowsSetup(link, sent, s, logs)
  }

  // ---------------------------------------------------------------------------
  // The whole run

  /** Everything after the system is known to be `os`. */
  function InstallOn(link: Link, sent: seq<string>, os: string, config: Dict): (i: Installation)
    ensures Shaped(i)
  {
    var logs := DetectLogs(os);
    if os == "windows" then
      match RemoteJavaInstall.Section(config, "windows")
      case Failure(e) => ExceptionFailure(e, logs)
      case Success(cfg) => WindowsInstall(link, sent, cfg, logs)
    else if os == "linux" then
      match RemoteJavaInstall.Section(config, "linux")
      case Failure(e) => ExceptionFailure(e, logs)
      case Success(cfg) => LinuxInstall(cfg, logs)
    else Failed("Unsupported OS", logs + ["Unsupported operating system detected"], None)
  }

  /** `run(executor, config)` after the commands `sent`. */
  function TomcatInstall(link: Link, sent: seq<string>, config: Dict): Installation
  {
    Then(OsProbes(link, |sent|), InstallOn(link, sent + OsProbes(link, |sent|), DetectedOs(link, |sent|), config))
  }

  // ---------------------------------------------------------------------------
  // Properties

  /** Whatever the replies and the configuration, the result has the shape `Shaped` describes. */
  lemma RunShaped(link: Link, sent: seq<string>, config: Dict)
    ensures Shaped(TomcatInstall(link, sent, config))
  {
  }

  /** A missing download URL, archive path or install root fails with "Configuration missing for <os>" after the probes. */
  lemma MissingConfigFails(link: Link, sent: seq<string>, config: Dict)
    requires var os := DetectedOs(link, |sent|);
      && (os == "linux" || os == "windows")
      && RemoteJavaInstall.Section(config, os).Success?
      && !Configured(RemoteJavaInstall.Section(config, os).value)
      && (os == "windows" ==> WindowsSettingsOf(RemoteJavaInstall.Section(config, os).value).Success?)
    ensures var i := TomcatInstall(link, sent, config);
      i.result.status == "Failed" && i.result.details == "Configuration missing for " + DetectedOs(link, |sent|)
      && i.commands == OsProbes(link, |sent|)
  {
    assert OsProbes(link, |sent|) + [] == OsProbes(link, |sent|);
  }

  /** An operating system that is neither Windows nor Linux fails with "Unsupported OS" after the probes. */
  lemma UnsupportedFails(link: Link, sent: seq<string>, config: Dict)
    requires DetectedOs(link, |sent|) != "linux" && DetectedOs(link, |sent|) != "windows"
    ensures var i := TomcatInstall(link, sent, config);
      i.result.status == "Failed" && i.result.details == "Unsupported OS" && i.commands == OsProbes(link, |sent|)
  {
    assert OsProbes(link, |sent|) + [] == OsProbes(link, |sent|);
  }

  /** On Linux, Tomcat's home is `final_directory` when set, else the install root. */
  lemma LinuxHomeChosen(cfg: Dict, logs: seq<string>)
    requires Configured(cfg) && PyInt(GetOr(cfg, "strip_components", VInt(1))).Some?
    ensures var i := LinuxInstall(cfg, logs);
      i.result.status == "Success"
      && i.tomcatHome == Some(PyStr(if Truthy(Get(cfg, "final_directory")) then Get(cfg, "final_directory")
                                    else Get(cfg, "install_root")))
  {
  }

  lemma CommandHeads(archive: string, rest: string)
    ensures ("mkdir -p " + rest)[0] == 'm' && ("wget -O " + rest)[0] == 'w' && ("chmod +x " + rest)[0] == 'c'
    ensures ("tar -xzf " + rest)[0] == 't' && ("tar -xf " + rest)[0] == 't' && ("rm -f " + archive)[0] == 'r'
  {
  }

  /** On Linux the archive is removed exactly when `cleanup_archive` is not explicitly falsy. */
  lemma LinuxCleanup(cfg: Dict, strip: int)
    ensures var archive := PyStr(Get(cfg, "archive_path"));
      "rm -f " + archive in LinuxCommands(cfg, strip) <==> CleansUp(cfg)
  {
    var archive := PyStr(Get(cfg, "archive_path"));
    var root := PyStr(Get(cfg, "install_root"));
    var cmds := LinuxCommands(cfg, strip);
    if !CleansUp(cfg) {
      CommandHeads(archive, root);
      CommandHeads(archive, archive + " " + PyStr(Get(cfg, "download_url")));
      CommandHeads(archive, TarArguments(archive, root, strip));
      CommandHeads(archive, LinuxHome(cfg) + "/bin/*.sh");
      forall k | 0 <= k < |cmds| ensures cmds[k] != "rm -f " + archive {
        assert cmds[k][0] != 'r';
      }
    }
  }

  /** A failed download fails the run with the download's result as payload, and nothing is sent after it. */
  lemma DownloadFailureStops(link: Link, sent: seq<string>, s: WindowsSettings, logs: seq<string>)
    requires Download(link, sent + FolderCommands(s), s).result.status != "Success"
    ensures var d := Download(link, sent + FolderCommands(s), s);
      var i := WindowsSetup(link, sent, s, logs);
      i.result.status == "Failed" && i.result.details == "Download failed" && i.payload == Some(d.result)
      && i.commands == FolderCommands(s) + d.commands
  {
    var d := Download(link, sent + FolderCommands(s), s);
    assert d.commands + [] == d.commands;
  }

  /** A failed extraction fails the run with the extraction's result as payload, and nothing is sent after it. */
  lemma ExtractionFailureStops(link: Link, sent: seq<string>, s: WindowsSettings, logs: seq<string>)
    requires Extraction(link, sent, s).result.status != "Success"
    ensures var x := Extraction(link, sent, s);
      var i := Extracted(link, sent, s, logs);
      i.result.status == "Failed" && i.result.details == "Extraction failed" && i.payload == Some(x.result)
      && i.commands == x.commands
  {
    var x := Extraction(link, sent, s);
    assert x.commands + [] == x.commands;
  }

  /** After a successful extraction, Tomcat's home is the folder found joined to the install root, and the archive is removed unless disabled. */
  lemma ExtractionSucceeds(link: Link, sent: seq<string>, s: WindowsSettings, logs: seq<string>)
    requires var x := Extraction(link, sent, s); x.result.status == "Success" && !IsBlank(JoinPath(Root(s), x.folderName))
    ensures var x := Extraction(link, sent, s);
      var dir := JoinPath(Root(s), x.folderName);
      var i := Extracted(link, sent, s, logs);
      i.result.status == "Success" && i.tomcatHome == Some(dir)
      && i.commands == x.commands + [PermissionsCommand(dir)] + CleanupCommands(s)
  {
    var x := Extraction(link, sent, s);
    var dir := JoinPath(Root(s), x.folderName);
    AppendAssoc(x.commands, [PermissionsCommand(dir)], CleanupCommands(s));
  }

  // ---------------------------------------------------------------------------
  // The tool on a connected executor

  /** Removes the archive unless disabled, then makes the scripts executable. */
  method FinishLinux(ex: Executor, cfg: Dict)
    requires ex.connected
    modifies ex`issued
    ensures ex.issued == old(ex.issued) + ArchiveRemoval(cfg) + [ChmodCommand(cfg)]
  {
    if CleansUp(cfg) {
      var _, _ := ex.Run("rm -f " + PyStr(Get(cfg, "archive_path")));
    }
    assert ex.issued == old(ex.issued) + ArchiveRemoval(cfg);
    var _, _ := ex.Run(ChmodCommand(cfg));
  }

  /** `_install_linux`: sends its commands one after the other. */
  method InstallLinux(ex: Executor, cfg: Dict, logs: seq<string>) returns (i: Installation)
    requires ex.connected
    modifies ex`issued
    ensures i == LinuxInstall(cfg, logs)
    ensures ex.issued == old(ex.issued) + i.commands
  {
    if !Configured(cfg) {
      return MissingConfig("linux", logs);
    }
    var strip := GetOr(cfg, "strip_components", VInt(1));
    var n := PyInt(strip);
    if n.None? {
      return ExceptionFailure(RemoteDiskCheck.IntFailure(strip), logs);
    }
    var prepare := LinuxPrepare(cfg, n.value);
    var _, _ := ex.Run(prepare[0]);
    var _, _ := ex.Run(prepare[1]);
    var _, _ := ex.Run(prepare[2]);
    assert ex.issued == old(ex.issued) + prepare;
    FinishLinux(ex, cfg);
    AppendAssoc(old(ex.issued), prepare, ArchiveRemoval(cfg) + [ChmodCommand(cfg)]);
    AppendAssoc(prepare, ArchiveRemoval(cfg), [ChmodCommand(cfg)]);
    i := Installed(Get(cfg, "download_url"), LinuxHome(cfg), logs + LinuxLogs, LinuxCommands(cfg, n.value));
  }

  /** Clears the script attributes and removes the archive unless disabled. */
  method FinishWindows(ex: Executor, s: WindowsSettings, dir: string, logs: seq<string>) returns (i: Installation)
    requires ex.connected
    modifies ex`issued
    ensures i == WindowsFinished(s, dir, logs)
    ensures ex.issued == old(ex.issued) + i.commands
  {
    var _, _ := ex.Run(PermissionsCommand(dir));
    var before := ex.issued;
    if CleansUp(s.cfg) {
      var _, _ := ex.Run(CleanupCommand(Archive(s)));
    }
    assert ex.issued == before + CleanupCommands(s);
    AppendAssoc(old(ex.issued), [PermissionsCommand(dir)], CleanupCommands(s));
    i := WindowsFinished(s, dir, logs);
  }

  /** Judges the extraction `x` and, when it succeeded, finishes. */
  method ContinueAfterExtraction(ex: Executor, s: WindowsSettings, x: RemoteExtract.Extraction, logs: seq<string>)
    returns (i: Installation)
    requires ex.connected
    modifies ex`issued
    ensures i == AfterExtraction(s, x, logs)
    ensures ex.issued == old(ex.issued) + i.commands
  {
    var logs' := logs + NonBlankStripped([x.result.details]);
    if x.result.status != "Success" {
      return Failed("Extraction failed", logs', Some(x.result));
    }
    var dir := JoinPath(Root(s), x.folderName);
    if IsBlank(dir) {
      return Failed("Unable to resolve Tomcat directory", logs', None);
    }
    i := FinishWindows(ex, s, dir, logs');
  }

  /** Expands the archive, then goes on. */
  method ExtractStage(ex: Executor, s: WindowsSettings, logs: seq<string>) returns (i: Installation)
    requires ex.connected
    modifies ex`issued
    ensures i == Extracted(ex.link, old(ex.issued), s, logs)
    ensures ex.issued == old(ex.issued) + i.commands
  {
    var before := ex.issued;
    var x := RemoteExtract.Run(ex, Archive(s), Root(s),
                               RemoteJavaInstall.OptionalText(GetOr(s.cfg, "folder_pattern", VStr(DefaultPattern))));
    var rest := ContinueAfterExtraction(ex, s, x, logs);
    AppendAssoc(before, x.commands, rest.commands);
    i := Then(x.commands, rest);
  }

  /** Judges the download `d` and, when it succeeded, goes on to the extraction. */
  method ContinueAfterDownload(ex: Executor, s: WindowsSettings, d: RemoteDownload.Download, logs: seq<string>)
    returns (i: Installation)
    requires ex.connected
    modifies ex`issued
    ensures i == AfterDownload(ex.link, old(ex.issued), s, d, logs)
    ensures ex.issued == old(ex.issued) + i.commands
  {
    var logs' := logs + NonBlankStripped([d.result.details]);
    if d.result.status != "Success" {
      return Failed("Download failed", logs', Some(d.result));
    }
    i := ExtractStage(ex, s, logs' + ["Extracting archive..."]);
  }

  /** Downloads the archive, then goes on. */
  method DownloadStage(ex: Executor, s: WindowsSettings, logs: seq<string>) returns (i: Installation)
    requires ex.connected
    modifies ex`issued
    ensures i == Downloaded(ex.link, old(ex.issued), s, logs)
    ensures ex.issued == old(ex.issued) + i.commands
  {
    var before := ex.issued;
    var d := RemoteDownload.Run(ex, PyStr(Get(s.cfg, "download_url")), Archive(s), s.minSize,
                                RemoteJavaInstall.OptionalText(Get(s.cfg, "curl_extra_args")));
    var rest := ContinueAfterDownload(ex, s, d, logs);
    AppendAssoc(before, d.commands, rest.commands);
    i := Then(d.commands, rest);
  }

  /** `_install_windows` once configured: the folders, then the download. */
  method SetupWindows(ex: Executor, s: WindowsSettings, logs: seq<string>) returns (i: Installation)
    requires ex.connected
    modifies ex`issued
    ensures i == WindowsSetup(ex.link, old(ex.issued), s, logs)
    ensures ex.issued == old(ex.issued) + i.commands
  {
    var before := ex.issued;
    var folders := FolderCommands(s);
    var _, _ := ex.Run(folders[0]);
    var _, _ := ex.Run(folders[1]);
    assert ex.issued == before + folders;
    var rest := DownloadStage(ex, s, logs + ["Downloading Tomcat archive..."]);
    AppendAssoc(before, folders, rest.commands);
    i := Then(folders, rest);
  }

  /** `_install_windows`. */
  method InstallWindows(ex: Executor, cfg: Dict, logs: seq<string>) returns (i: Installation)
    requires ex.connected
    modifies ex`issued
    ensures i == WindowsInstall(ex.link, old(ex.issued), cfg, logs)
    ensures ex.issued == old(ex.issued) + i.commands
  {
    var settings := WindowsSettingsOf(cfg);
    if settings.Failure? {
      return ExceptionFailure(settings.error, logs);
    }
    if !Configured(cfg) {
      return MissingConfig("windows", logs);
    }
    i := SetupWindows(ex, settings.value, logs);
  }

  /** The branch for the detected system. */
  method InstallDetected(ex: Executor, os: string, config: Dict) returns (i: Installation)
    requires ex.connected
    modifies ex`issued
    ensures i == InstallOn(ex.link, old(ex.issued), os, config)
    ensures ex.issued == old(ex.issued) + i.commands
  {
    var logs := DetectLogs(os);
    if os == "windows" {
      var cfg := RemoteJavaInstall.Section(config, "windows");
      if cfg.Failure? {
        return ExceptionFailure(cfg.error, logs);
      }
      i := InstallWindows(ex, cfg.value, logs);
    } else if os == "linux" {
      var cfg := RemoteJavaInstall.Section(config, "linux");
      if cfg.Failure? {
        return ExceptionFailure(cfg.error, logs);
      }
      i := InstallLinux(ex, cfg.value, logs);
    } else {
      i := Failed("Unsupported OS", logs + ["Unsupported operating system detected"], None);
    }
  }

  /** `run(executor, config)` on a connected executor. */
  method Run(ex: Executor, config: Dict) returns (i: Installation)
    requires ex.connected
    modifies ex`issued
    ensures i == TomcatInstall(ex.link, old(ex.issued), config)
    ensures ex.issued == old(ex.issued) + i.commands
  {
    var before := ex.issued;
    var os := ex.DetectOs();
    var rest := InstallDetected(ex, os, config);
    AppendAssoc(before, OsProbes(ex.link, |before|), rest.commands);
    i := Then(OsProbes(ex.link, |before|), rest);
  }
}
