/**
 * `remote_zip_extract`: expands a ZIP archive on a Windows host with
 * `Expand-Archive` and, when a folder pattern is given, asks for the newest
 * extracted folder whose name matches it.
 */
module RemoteExtract {
  import opened Wrappers
  import opened Text
  import opened RemoteExecutor
  import opened ToolResults
  import PowerShellQuoting
  import RemoteDownload

  const ToolName: string := "remote_zip_extract"

  /** The expansion of the archive written as `src` into the directory written as `dest`. */
  function ExpandCommand(src: string, dest: string): string
  {
    "powershell -Command \"" + "$source = " + src + ";" + "$destination = " + dest + ";"
    + "Expand-Archive -LiteralPath $source -DestinationPath $destination -Force" + "\""
  }

  function DetectHead(dest: string): string
  {
    "powershell -Command \"" + "$destination = " + dest + ";" + "$pattern = "
  }

  const DetectTail: string :=
    ";" + "$dirs = Get-ChildItem -Path $destination -Directory;"
    + "if ($pattern) { $dirs = $dirs | Where-Object { $_.Name -match $pattern }; }"
    + "$match = $dirs | Sort-Object LastWriteTime -Descending | Select-Object -First 1;"
    + "if ($match) { $match.Name }" + "\""

  /** The folder query: the pattern as a verbatim literal, quotes doubled. */
  function DetectCommand(dest: string, pattern: string): string
  {
    DetectHead(dest) + PowerShellQuoting.Literal(pattern) + DetectTail
  }

  lemma DetectTailStart()
    ensures DetectTail[0] == ';'
  {
  }

  /** PowerShell reads the pattern in the folder query back exactly, whatever quotes it holds. */
  lemma PatternReadsBack(dest: string, pattern: string)
    ensures PowerShellQuoting.ReadLiteral(DetectCommand(dest, pattern)[|DetectHead(dest)|..]) == Some((pattern, DetectTail))
  {
    RemoteDownload.AfterHead(DetectHead(dest), PowerShellQuoting.Literal(pattern), DetectTail);
    DetectTailStart();
    PowerShellQuoting.LiteralReadsBack(pattern, DetectTail);
  }

  /** The result dictionary, the destination and folder it echoes, and the commands sent. */
  datatype Extraction = Extraction(result: ToolResult, destination: string, folderName: string, commands: seq<string>)

  /** What the folder query logs: its errors, then the folder found or that none matched. */
  function DetectLogs(found: Reply): seq<string>
  {
    var folder := Strip(found.stdout);
    NonBlankStripped([found.stderr])
    + [if folder != "" then "Detected extracted folder: " + folder else "No folder matched the supplied pattern."]
  }

  /** The result once the replies are in; `found` is the reply to the folder query, when one went out. */
  function Finished(destination: string, commands: seq<string>, expanded: Reply, found: Option<Reply>): (x: Extraction)
    ensures x.commands == commands && x.destination == destination
    ensures x.folderName == (if found.Some? then Strip(found.value.stdout) else "")
    ensures x.result.status == "Success" <==> Strip(expanded.stderr) == "" && (found.None? || x.folderName != "")
    ensures x.result.status == "Success" || x.result.status == "Failed"
  {
    var errorText := Strip(expanded.stderr);
    var folder := if found.Some? then Strip(found.value.stdout) else "";
    var logs := NonBlankStripped([expanded.stdout, expanded.stderr]) + (if found.Some? then DetectLogs(found.value) else []);
    var ok := errorText == "" && (found.None? || folder != "");
    Extraction(ToolResult(ToolName, if ok then "Success" else "Failed", "Expand-Archive", Join("\n", logs),
                          expanded.stdout + expanded.stderr),
               destination, folder, commands)
  }

  /** `run` without a folder pattern: the expansion alone, judged by its errors. */
  function ExtractPlain(link: Link, sent: seq<string>, src: string, dest: string, destination: string): (x: Extraction)
    ensures x.commands == [ExpandCommand(src, dest)] && x.destination == destination && x.folderName == ""
    ensures x.result.status == "Success" <==> Strip(link.respond(|sent|, ExpandCommand(src, dest)).stderr) == ""
  {
    Finished(destination, [ExpandCommand(src, dest)], link.respond(|sent|, ExpandCommand(src, dest)), None)
  }

  /** `run` with a folder pattern: the expansion and the folder query, judged by the errors and the folder found. */
  function ExtractMatched(link: Link, sent: seq<string>, src: string, dest: string, destination: string, pattern: string)
    : (x: Extraction)
    ensures x.commands == [ExpandCommand(src, dest), DetectCommand(dest, pattern)] && x.destination == destination
    ensures x.folderName == Strip(link.respond(|sent + [ExpandCommand(src, dest)]|, DetectCommand(dest, pattern)).stdout)
    ensures x.result.status == "Success" <==>
      Strip(link.respond(|sent|, ExpandCommand(src, dest)).stderr) == "" && x.folderName != ""
  {
    var expand := ExpandCommand(src, dest);
    var detect := DetectCommand(dest, pattern);
    Finished(destination, [expand, detect], link.respond(|sent|, expand), Some(link.respond(|sent + [expand]|, detect)))
  }

  /** `run` with the source and destination already written as `src` and `dest`, after the commands `sent`. */
  function ExtractWith(link: Link, sent: seq<string>, src: string, dest: string, destination: string, pattern: Option<string>)
    : Extraction
  {
    match pattern
    case None => ExtractPlain(link, sent, src, dest, destination)
    case Some(p) => ExtractMatched(link, sent, src, dest, destination, p)
  }

  /**
   * The folder query goes out exactly when a pattern is given; without one
   * the folder is empty; and the extraction succeeds exactly when the
   * expansion printed no error and, with a pattern, a folder was found.
   */
  lemma ExtractionRule(link: Link, sent: seq<string>, src: string, dest: string, destination: string, pattern: Option<string>)
    ensures var x := ExtractWith(link, sent, src, dest, destination, pattern);
      && |x.commands| == (if pattern.Some? then 2 else 1)
      && (pattern.None? ==> x.folderName == "")
      && (x.result.status == "Success" <==>
            Strip(link.respond(|sent|, ExpandCommand(src, dest)).stderr) == "" && (pattern.None? || x.folderName != ""))
  {
    match pattern {
      case None =>
        var x := ExtractPlain(link, sent, src, dest, destination);
      case Some(p) =>
        var x := ExtractMatched(link, sent, src, dest, destination, p);
    }
  }

  /** `run(executor, source, destination, folder_pattern)` after the commands `sent`. */
  function ExtractRun(link: Link, sent: seq<string>, source: string, destination: string, pattern: Option<string>): Extraction
  {
    ExtractWith(link, sent, RemoteDownload.PsLiteral(source), RemoteDownload.PsLiteral(destination), destination, pattern)
  }

  /** The expansion alone. */
  method ExpandOnly(ex: Executor, src: string, dest: string, destination: string) returns (x: Extraction)
    requires ex.connected
    modifies ex`issued
    ensures x == ExtractPlain(ex.link, old(ex.issued), src, dest, destination)
    ensures ex.issued == old(ex.issued) + x.commands
  {
    var expand := ExpandCommand(src, dest);
    var out, err := ex.Run(expand);
    x := Finished(destination, [expand], Reply(out, err), None);
  }

  /** The expansion, then the folder query for `pattern`. */
  method ExpandAndDetect(ex: Executor, src: string, dest: string, destination: string, pattern: string) returns (x: Extraction)
    requires ex.connected
    modifies ex`issued
    ensures x == ExtractMatched(ex.link, old(ex.issued), src, dest, destination, pattern)
    ensures ex.issued == old(ex.issued) + x.commands
  {
    var expand := ExpandCommand(src, dest);
    var out, err := ex.Run(expand);
    var detect := DetectCommand(dest, pattern);
    var folderOut, folderErr := ex.Run(detect);
    x := Finished(destination, [expand, detect], Reply(out, err), Some(Reply(folderOut, folderErr)));
  }

  /** The expansion, then the folder query when a pattern is given. */
  method Extract(ex: Executor, src: string, dest: string, destination: string, pattern: Option<string>) returns (x: Extraction)
    requires ex.connected
    modifies ex`issued
    ensures x == ExtractWith(ex.link, old(ex.issued), src, dest, destination, pattern)
    ensures ex.issued == old(ex.issued) + x.commands
  {
    if pattern.None? {
      x := ExpandOnly(ex, src, dest, destination);
    } else {
      x := ExpandAndDetect(ex, src, dest, destination, pattern.value);
    }
  }

  /** `run` on a connected executor. */
  method Run(ex: Executor, source: string, destination: string, pattern: Option<string>) returns (x: Extraction)
    requires ex.connected
    modifies ex`issued
    ensures x == ExtractRun(ex.link, old(ex.issued), source, destination, pattern)
    ensures ex.issued == old(ex.issued) + x.commands
  {
    var src := RemoteDownload.ToPsLiteral(source);
    var dest := RemoteDownload.ToPsLiteral(destination);
    x := Extract(ex, src, dest, destination, pattern);
  }
}
