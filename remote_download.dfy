/**
 * `remote_curl_download`: downloads a file on a Windows host with
 * `curl.exe` run through PowerShell, then asks for the size of the file
 * and accepts the download when the size reaches a minimum. The
 * destination is written as a PowerShell literal, or, for a path that
 * starts with a variable such as `$env:TEMP`, as nested `Join-Path` calls.
 */
module RemoteDownload {
  import opened Wrappers
  import opened Text
  import opened Sequences
  import opened RemoteExecutor
  import opened ToolResults
  import PowerShellQuoting

  const ToolName: string := "remote_curl_download"
  const JoinOpen: string := "(Join-Path "

  // ---------------------------------------------------------------------------
  // `_to_ps_literal`

  /** One step of the fold: `(Join-Path <expr> '<segment>')`, quotes in the segment doubled. */
  function JoinStep(expr: string, segment: string): string
  {
    JoinOpen + expr + " '" + PowerShellQuoting.Escape(segment) + "')"
  }

  /** The left fold of `_to_ps_literal` over the segments after the first. */
  function JoinPaths(first: string, segments: seq<string>): string
    decreases |segments|
  {
    if segments == [] then first
    else JoinStep(JoinPaths(first, segments[..|segments| - 1]), segments[|segments| - 1])
  }

  predicate NonEmpty(s: string)
  {
    s != []
  }

  /** The non-empty backslash-separated pieces of a path. */
  function DollarParts(trimmed: string): seq<string>
  {
    Filter(Split(trimmed, '\\'), NonEmpty)
  }

  /** `_to_ps_literal`: `''` for a blank path; nested `Join-Path` for a `$`-path; otherwise a verbatim literal. */
  function PsLiteral(path: string): string
  {
    var trimmed := Strip(path);
    if trimmed == [] then "''"
    else if trimmed[0] == '$' then
      var parts := DollarParts(trimmed);
      if parts == [] then trimmed else JoinPaths(parts[0], parts[1..])
    else PowerShellQuoting.Literal(trimmed)
  }

  /** `n` openings `(Join-Path `. */
  function Opens(n: nat): string
  {
    if n == 0 then "" else JoinOpen + Opens(n - 1)
  }

  /** The closing ` '<segment>')` of each segment, in order. */
  function Closes(segments: seq<string>): string
    decreases |segments|
  {
    if segments == [] then ""
    else Closes(segments[..|segments| - 1]) + (" '" + PowerShellQuoting.Escape(segments[|segments| - 1]) + "')")
  }

  lemma FlatStep<T>(o: seq<T>, b: seq<T>, f: seq<T>, c: seq<T>, s: seq<T>, l: seq<T>, r: seq<T>)
    ensures o + (b + f + c) + s + l + r == (o + b) + f + (c + (s + l + r))
  {
  }

  /**
   * The fold written out flat: one opening per segment, then the first
   * piece, then each segment's verbatim literal and closing parenthesis in
   * the order of the path.
   */
  lemma {:induction false} JoinPathsFlat(first: string, segments: seq<string>)
    ensures JoinPaths(first, segments) == Opens(|segments|) + first + Closes(segments)
    decreases |segments|
  {
    if segments != [] {
      var init := segments[..|segments| - 1];
      var last := segments[|segments| - 1];
      JoinPathsFlat(first, init);
      FlatStep(JoinOpen, Opens(|init|), first, Closes(init), " '", PowerShellQuoting.Escape(last), "')");
    }
  }

  /** A path without a leading `$` becomes a literal that reads back as the stripped path. */
  lemma PlainPathReadsBack(path: string)
    requires Strip(path) == [] || Strip(path)[0] != '$'
    ensures PowerShellQuoting.ReadLiteral(PsLiteral(path)) == Some((Strip(path), ""))
  {
    var trimmed := Strip(path);
    if trimmed != [] {
      PowerShellQuoting.LiteralReadsBack(trimmed, "");
      assert PowerShellQuoting.Literal(trimmed) + "" == PowerShellQuoting.Literal(trimmed);
    } else {
      assert PowerShellQuoting.ReadVerbatim("'") == Some(("", ""));
    }
  }

  /** A `$`-path keeps its first piece as written and wraps one `Join-Path` per later piece around it. */
  lemma DollarPathNests(path: string)
    requires Strip(path) != [] && Strip(path)[0] == '$' && DollarParts(Strip(path)) != []
    ensures var parts := DollarParts(Strip(path));
      PsLiteral(path) == Opens(|parts| - 1) + parts[0] + Closes(parts[1..])
  {
    var parts := DollarParts(Strip(path));
    JoinPathsFlat(parts[0], parts[1..]);
  }

  lemma JoinPathsSnoc(first: string, segments: seq<string>, i: nat)
    requires i < |segments|
    ensures JoinPaths(first, segments[..i + 1]) == JoinStep(JoinPaths(first, segments[..i]), segments[i])
  {
    assert segments[..i + 1][..i] == segments[..i];
  }

  /** `_to_ps_literal`, the fold as a loop. */
  method ToPsLiteral(path: string) returns (expr: string)
    ensures expr == PsLiteral(path)
  {
    var trimmed := Strip(path);
    if trimmed == [] {
      return "''";
    }
    if trimmed[0] == '$' {
      var parts := DollarParts(trimmed);
      if parts == [] {
        return trimmed;
      }
      expr := parts[0];
      var segments := parts[1..];
      for i := 0 to |segments|
        invariant expr == JoinPaths(parts[0], segments[..i])
      {
        JoinPathsSnoc(parts[0], segments, i);
        expr := JoinStep(expr, segments[i]);
      }
      assert segments[..|segments|] == segments;
      return expr;
    }
    return PowerShellQuoting.Literal(trimmed);
  }

  // ---------------------------------------------------------------------------
  // The commands

  /** ` <extra_args stripped>` when extra arguments are given and non-empty, else nothing. */
  function ArgsSegment(extraArgs: Option<string>): string
  {
    if extraArgs.Some? && extraArgs.value != "" then " " + Strip(extraArgs.value) else ""
  }

  function CurlHead(dest: string): string
  {
    "powershell -Command \"" + "$destination = " + dest + ";" + "$url = "
  }

  function CurlTail(extraArgs: Option<string>): string
  {
    ";" + "curl.exe -L $url -o $destination" + ArgsSegment(extraArgs) + ";" + "\""
  }

  /** The download command: the destination, the URL as a verbatim literal, and `curl.exe` with any extra arguments. */
  function CurlCommand(dest: string, url: string, extraArgs: Option<string>): string
  {
    CurlHead(dest) + PowerShellQuoting.Literal(url) + CurlTail(extraArgs)
  }

  /** The command that prints the size of the downloaded file. */
  function SizeCommand(dest: string): string
  {
    "powershell -Command \"" + "$destination = " + dest + ";" + "(Get-Item $destination -ErrorAction SilentlyContinue).Length" + "\""
  }

  lemma AfterHead<T>(h: seq<T>, l: seq<T>, t: seq<T>)
    ensures (h + l + t)[|h|..] == l + t
  {
  }

  lemma TailStartsWithSemicolon(extraArgs: Option<string>)
    ensures CurlTail(extraArgs)[0] == ';'
  {
  }

  /** PowerShell reads the URL in the download command back exactly, whatever quotes it holds. */
  lemma UrlReadsBack(dest: string, url: string, extraArgs: Option<string>)
    ensures PowerShellQuoting.ReadLiteral(CurlCommand(dest, url, extraArgs)[|CurlHead(dest)|..])
         == Some((url, CurlTail(extraArgs)))
  {
    AfterHead(CurlHead(dest), PowerShellQuoting.Literal(url), CurlTail(extraArgs));
    TailStartsWithSemicolon(extraArgs);
    PowerShellQuoting.LiteralReadsBack(url, CurlTail(extraArgs));
  }

  // ---------------------------------------------------------------------------
  // The size verdict

  /** `max(min_size, 0)`. */
  function Minimum(minSize: int): nat
  {
    if minSize > 0 then minSize else 0
  }

  /** `size_value.isdigit() and int(size_value) >= max(min_size, 0)`. */
  predicate SizeAccepted(size: string, minSize: int)
  {
    IsDigitString(size) && DigitsValue(size) >= Minimum(minSize)
  }

  /** A size printed as a number is accepted exactly when it reaches the minimum; a negative minimum accepts every size. */
  lemma SizeOfNumber(n: nat, minSize: int)
    ensures SizeAccepted(NatToString(n), minSize) <==> n >= minSize
  {
    NatToStringValue(n);
  }

  /** The line logged after the size check. */
  function SizeLine(size: string, minSize: int): string
  {
    if SizeAccepted(size, minSize) then "Download size verified: " + size + " bytes"
    else "Expected at least " + NatToString(Minimum(minSize)) + " bytes but got '" + size + "'."
  }

  // ---------------------------------------------------------------------------
  // The tool

  /** The result dictionary, the destination and size it echoes, and the commands sent. */
  datatype Download = Download(result: ToolResult, destination: string, size: string, commands: seq<string>)

  /** The result once both replies are in. */
  function Judged(destination: string, minSize: int, curl: string, sizeCmd: string, fetched: Reply, sized: Reply): (d: Download)
    ensures d.commands == [curl, sizeCmd]
    ensures d.size == Strip(sized.stdout) && d.destination == destination
    ensures d.result.status == "Success" <==> SizeAccepted(Strip(sized.stdout), minSize)
    ensures d.result.status == "Success" || d.result.status == "Failed"
    ensures d.result.output == fetched.stdout + fetched.stderr
  {
    var size := Strip(sized.stdout);
    var logs := NonBlankStripped([fetched.stdout, fetched.stderr]) + NonBlankStripped([sized.stderr]) + [SizeLine(size, minSize)];
    Download(ToolResult(ToolName, if SizeAccepted(size, minSize) then "Success" else "Failed", "curl.exe",
                        Join("\n", logs), fetched.stdout + fetched.stderr),
             destination, size, [curl, sizeCmd])
  }

  /** The two commands for the destination written as `dest`, and the result, after the commands `sent`. */
  function DownloadTo(link: Link, sent: seq<string>, dest: string, url: string, destination: string, minSize: int,
                      extraArgs: Option<string>): Download
  {
    var curl := CurlCommand(dest, url, extraArgs);
    var sizeCmd := SizeCommand(dest);
    Judged(destination, minSize, curl, sizeCmd, link.respond(|sent|, curl), link.respond(|sent + [curl]|, sizeCmd))
  }

  /** `run(executor, url, destination, min_size, extra_args)` after the commands `sent`. */
  function DownloadRun(link: Link, sent: seq<string>, url: string, destination: string, minSize: int, extraArgs: Option<string>): Download
  {
    DownloadTo(link, sent, PsLiteral(destination), url, destination, minSize, extraArgs)
  }

  /** Both commands go out, the download first, and the verdict is the size check on the second reply. */
  lemma DownloadVerdict(link: Link, sent: seq<string>, url: string, destination: string, minSize: int, extraArgs: Option<string>)
    ensures var dest := PsLiteral(destination);
      var d := DownloadRun(link, sent, url, destination, minSize, extraArgs);
      d.commands == [CurlCommand(dest, url, extraArgs), SizeCommand(dest)]
      && (d.result.status == "Success"
          <==> SizeAccepted(Strip(link.respond(|sent| + 1, SizeCommand(dest)).stdout), minSize))
  {
    var dest := PsLiteral(destination);
    assert |sent + [CurlCommand(dest, url, extraArgs)]| == |sent| + 1;
  }

  /** The download and the size query for the destination written as `dest`. */
  method Fetch(ex: Executor, dest: string, url: string, destination: string, minSize: int, extraArgs: Option<string>)
    returns (d: Download)
    requires ex.connected
    modifies ex`issued
    ensures d == DownloadTo(ex.link, old(ex.issued), dest, url, destination, minSize, extraArgs)
    ensures ex.issued == old(ex.issued) + d.commands
  {
    var curl := CurlCommand(dest, url, extraArgs);
    var out, err := ex.Run(curl);
    var sizeCmd := SizeCommand(dest);
    var sizeOut, sizeErr := ex.Run(sizeCmd);
    d := Judged(destination, minSize, curl, sizeCmd, Reply(out, err), Reply(sizeOut, sizeErr));
  }

  /** `run` on a connected executor. */
  method Run(ex: Executor, url: string, destination: string, minSize: int, extraArgs: Option<string>) returns (d: Download)
    requires ex.connected
    modifies ex`issued
    ensures d == DownloadRun(ex.link, old(ex.issued), url, destination, minSize, extraArgs)
    ensures ex.issued == old(ex.issued) + d.commands
  {
    var dest := ToPsLiteral(destination);
    d := Fetch(ex, dest, url, destination, minSize, extraArgs);
  }

  /** `_ensure_directory(path)`: creates the folder, written as a PowerShell literal, when it is missing. */
  function EnsureDirectoryCommand(path: string): string
  {
    "powershell -Command \"" + "$path = " + PsLiteral(path) + ";"
    + "if (!(Test-Path -Path $path)) {" + "    New-Item -ItemType Directory -Force -Path $path | Out-Null" + "}" + "\""
  }
}
