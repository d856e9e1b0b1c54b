/**
 * `remote_disk_check`: how much space is free under a path on the remote
 * host, judged against a threshold in megabytes. On Windows a PowerShell
 * query prints `TOTAL=<mb>;FREE=<mb>` for the path's drive; on Linux
 * `df -Pm` prints one line whose second to fourth fields are the total,
 * used and free megabytes.
 */
module RemoteDiskCheck {
  import opened Wrappers
  import opened Text
  import opened Values
  import opened Sequences
  import opened RemoteExecutor
  import opened ToolResults
  import PosixShell
  import RemotePortCheck

  const ToolName: string := "remote_disk_check"
  const DefaultThreshold: int := 2048
  const WindowsDefaultPath: string := "C:\\"
  const LinuxDefaultPath: string := "/"

  /** Megabyte figures by key (`total_mb`, `free_mb`, `used_mb`, ...). */
  type Metrics = map<string, real>

  /** A result dictionary, the `metrics` it carries when the figures were read, and the commands sent. */
  datatype Outcome = Outcome(result: ToolResult, metrics: Option<Metrics>, commands: seq<string>)

  // ---------------------------------------------------------------------------
  // Settings

  /** `path or os_cfg.get("path")`, then the system's root when that is falsy; `get` raises on a non-dictionary. */
  function TargetPath(osCfg: Value, os: string, path: Value): (r: Result<Value>)
    ensures r.Failure? <==> !Truthy(path) && !osCfg.VDict?
    ensures r.Success? ==> Truthy(r.value)
  {
    var chosen :=
      if Truthy(path) then Success(path)
      else if osCfg.VDict? then Success(Get(osCfg.fields, "path"))
      else Failure(NoGet(osCfg));
    match chosen
    case Failure(e) => Failure(e)
    case Success(v) =>
      if Truthy(v) then Success(v)
      else Success(VStr(if os == "windows" then WindowsDefaultPath else LinuxDefaultPath))
  }

  /** The message of the exception `int(v)` raises. */
  function IntFailure(v: Value): string
  {
    if v.VStr? then "invalid literal for int() with base 10: '" + v.s + "'"
    else "int() argument must be a string, a bytes-like object or a real number, not '" + TypeName(v) + "'"
  }

  /** `int(min_free_mb if min_free_mb is not None else os_cfg.get("min_free_mb", 2048))`. */
  function Threshold(osCfg: Value, minFree: Value): (r: Result<int>)
    ensures !minFree.VNone? ==> (r.Success? <==> PyInt(minFree).Some?)
    ensures !minFree.VNone? && r.Success? ==> r.value == PyInt(minFree).value
  {
    var chosen :=
      if !minFree.VNone? then Success(minFree)
      else if osCfg.VDict? then Success(GetOr(osCfg.fields, "min_free_mb", VInt(DefaultThreshold)))
      else Failure(NoGet(osCfg));
    match chosen
    case Failure(e) => Failure(e)
    case Success(v) =>
      match PyInt(v)
      case None => Failure(IntFailure(v))
      case Some(n) => Success(n)
  }

  /** The path and the threshold, worked out in that order; the first exception wins. */
  function Settings(osCfg: Value, os: string, path: Value, minFree: Value): Result<(Value, int)>
  {
    match TargetPath(osCfg, os, path)
    case Failure(e) => Failure(e)
    case Success(target) =>
      match Threshold(osCfg, minFree)
      case Failure(e) => Failure(e)
      case Success(threshold) => Success((target, threshold))
  }

  /** With nothing from the caller or the configuration, the system's root and 2048 MB. */
  lemma DefaultSettings(osCfg: Value, os: string)
    requires osCfg.VDict? && "path" !in osCfg.fields && "min_free_mb" !in osCfg.fields
    ensures Settings(osCfg, os, VNone, VNone)
         == Success((VStr(if os == "windows" then "C:\\" else "/"), 2048))
  {
  }

  /** What the caller passes overrides the configuration. */
  lemma CallerSettingsWin(osCfg: Value, other: Value, os: string, path: string, minFree: int)
    requires path != ""
    ensures Settings(osCfg, os, VStr(path), VInt(minFree)) == Success((VStr(path), minFree))
    ensures Settings(osCfg, os, VStr(path), VInt(minFree)) == Settings(other, os, VStr(path), VInt(minFree))
  {
  }

  // ---------------------------------------------------------------------------
  // Drives

  predicate IsAlpha(c: char)
  {
    ('a' <= c <= 'z') || ('A' <= c <= 'Z')
  }

  /** `_extract_drive`: the upper-cased first letter of what precedes the first `:`, else `C:`. */
  function ExtractDrive(path: string): (drive: string)
    ensures |drive| == 2 && drive[1] == ':' && 'A' <= drive[0] <= 'Z'
  {
    var trimmed := Strip(path);
    var candidate := trimmed[..IndexOf(trimmed, ':')];
    if candidate != [] && IsAlpha(candidate[0]) then [UpperChar(candidate[0])] + ":" else "C:"
  }

  /** A path that starts with a letter names that letter's drive, whatever follows the first colon. */
  lemma DriveOfLetterPath(c: char, rest: string)
    requires IsAlpha(c) && Trimmed([c] + ":" + rest)
    ensures ExtractDrive([c] + ":" + rest) == [UpperChar(c), ':']
  {
    var p := [c] + ":" + rest;
    assert Strip(p) == p;
    assert p[1] == ':' && p[0] != ':';
    assert IndexOf(p, ':') == 1;
  }

  /** A drive names itself: extracting twice changes nothing. */
  lemma ExtractDriveIdempotent(path: string)
    ensures ExtractDrive(ExtractDrive(path)) == ExtractDrive(path)
  {
    var d := ExtractDrive(path);
    assert d == [d[0]] + ":" + "";
    StripUntrimmed(d);
    DriveOfLetterPath(d[0], "");
  }

  // ---------------------------------------------------------------------------
  // The Windows payload

  /** What one `;`-separated part contributes: its key lower-cased with `_mb`, and the number after the first `=`. */
  function Entry(part: string): Option<(string, real)>
  {
    var eq := IndexOf(part, '=');
    if eq == |part| then None
    else
      match ParseReal(part[eq + 1..])
      case None => None
      case Some(v) => Some((Lower(part[..eq]) + "_mb", v))
  }

  function Record(m: Metrics, part: string): Metrics
  {
    match Entry(part)
    case None => m
    case Some((k, v)) => m[k := v]
  }

  /** The map the loop of `_parse_metrics` builds from `parts`, later parts overwriting earlier ones. */
  function Recorded(parts: seq<string>): Metrics
    decreases |parts|
  {
    if parts == [] then map[] else Record(Recorded(parts[..|parts| - 1]), parts[|parts| - 1])
  }

  /** The parts of the payload: carriage returns dropped, then split on `;`. */
  function Parts(payload: string): seq<string>
  {
    Split(Replace(payload, "\r", ""), ';')
  }

  /** `_parse_metrics`: the figures when both the total and the free space were read, `used_mb` filled in. */
  function ParsedMetrics(payload: string): (r: Option<Metrics>)
    ensures r.Some? ==> "total_mb" in r.value && "free_mb" in r.value && "used_mb" in r.value
  {
    var m := Recorded(Parts(payload));
    if "total_mb" in m && "free_mb" in m then
      Some(if "used_mb" in m then m else m["used_mb" := m["total_mb"] - m["free_mb"]])
    else None
  }

  function KeyedBy(k: string): string -> bool
  {
    part => Entry(part).Some? && Entry(part).value.0 == k
  }

  /** A key is in the map exactly when some part names it, and it holds the number of the last such part. */
  lemma {:induction false} RecordedLastWins(parts: seq<string>, k: string)
    ensures k in Recorded(parts) <==> LastIndexWhere(parts, KeyedBy(k)).Some?
    ensures k in Recorded(parts) ==> Recorded(parts)[k] == Entry(parts[LastIndexWhere(parts, KeyedBy(k)).value]).value.1
    decreases |parts|
  {
    if parts != [] {
      var init := parts[..|parts| - 1];
      RecordedLastWins(init, k);
      if !KeyedBy(k)(parts[|parts| - 1]) {
        assert LastIndexWhere(parts, KeyedBy(k)) == LastIndexWhere(init, KeyedBy(k));
        assert forall j :: 0 <= j < |init| ==> init[j] == parts[j];
      }
    }
  }

  /** The figures are there exactly when parts named both the total and the free space; the used space defaults to their difference. */
  lemma MetricsPresent(payload: string)
    ensures ParsedMetrics(payload).Some? <==>
      LastIndexWhere(Parts(payload), KeyedBy("total_mb")).Some? && LastIndexWhere(Parts(payload), KeyedBy("free_mb")).Some?
    ensures ParsedMetrics(payload).Some? ==>
      var m := ParsedMetrics(payload).value;
      "total_mb" in m && "free_mb" in m && "used_mb" in m &&
      (LastIndexWhere(Parts(payload), KeyedBy("used_mb")).None? ==> m["used_mb"] == m["total_mb"] - m["free_mb"])
  {
    RecordedLastWins(Parts(payload), "total_mb");
    RecordedLastWins(Parts(payload), "free_mb");
    RecordedLastWins(Parts(payload), "used_mb");
  }

  /** `x;y` splits into `x` and `y` when neither holds a `;`. */
  lemma SplitTwo(x: string, y: string)
    requires ';' !in x && ';' !in y
    ensures Split(x + ";" + y, ';') == [x, y]
  {
    IndexOfAfter(x, ';', y);
    var s := x + ";" + y;
    assert s[..|x|] == x && s[|x| + 1..] == y;
    assert IndexOf(y, ';') == |y|;
  }

  /** `KEY=<digits>` reads as the lower-cased key with `_mb` and the number. */
  lemma EntryOfNumber(key: string, n: nat)
    requires '=' !in key
    ensures Entry(key + "=" + NatToString(n)) == Some((Lower(key) + "_mb", n as real))
  {
    var d := NatToString(n);
    var p := key + "=" + d;
    IndexOfAfter(key, '=', d);
    assert p[..|key|] == key && p[|key| + 1..] == d;
    ParseIntOfNatString(n);
    ParseRealExtendsParseInt(d);
  }

  /** Two parts with a number each: the map holds both. */
  lemma RecordedTwo(x: string, y: string)
    ensures Recorded([x, y]) == Record(Record(map[], x), y)
  {
    var xy := [x, y];
    assert xy[..1] == [x];
    assert Recorded(xy) == Record(Recorded([x]), y);
    assert [x][..0] == [];
    assert Recorded([x]) == Record(Recorded([]), x);
  }

  /** Two parts joined by `;`, neither holding `;` or a carriage return, split back apart. */
  lemma PartsOfTwo(x: string, y: string)
    requires ';' !in x && ';' !in y && '\r' !in x && '\r' !in y
    ensures Parts(x + ";" + y) == [x, y]
  {
    var s := x + ";" + y;
    assert '\r' !in s;
    AbsentChar(s, '\r');
    ReplaceAbsent(s, "\r", "");
    SplitTwo(x, y);
  }

  lemma NumberPart(key: string, n: nat)
    requires '=' !in key && ';' !in key && '\r' !in key
    ensures ';' !in key + "=" + NatToString(n) && '\r' !in key + "=" + NatToString(n)
  {
    AbsentAfterNumber(key + "=", n, ';');
    AbsentAfterNumber(key + "=", n, '\r');
  }

  lemma TotalKey()
    ensures Lower("TOTAL") + "_mb" == "total_mb"
  {
  }

  lemma FreeKey()
    ensures Lower("FREE") + "_mb" == "free_mb"
  {
  }

  /** `TOTAL=<digits>` names the total. */
  lemma TotalPart(n: nat)
    ensures Entry("TOTAL" + "=" + NatToString(n)) == Some(("total_mb", n as real))
  {
    EntryOfNumber("TOTAL", n);
    TotalKey();
  }

  /** `FREE=<digits>` names the free space. */
  lemma FreePart(n: nat)
    ensures Entry("FREE" + "=" + NatToString(n)) == Some(("free_mb", n as real))
  {
    EntryOfNumber("FREE", n);
    FreeKey();
  }

  lemma LineShape(t: string, f: string)
    ensures "TOTAL=" + t + ";FREE=" + f == ("TOTAL" + "=" + t) + ";" + ("FREE" + "=" + f)
  {
  }

  lemma KeysDistinct()
    ensures "total_mb" != "free_mb" && "used_mb" != "total_mb" && "used_mb" != "free_mb"
  {
  }

  /** A total part then a free part record both figures. */
  lemma RecordTotalFree(x: string, y: string, t: real, f: real)
    requires Entry(x) == Some(("total_mb", t)) && Entry(y) == Some(("free_mb", f))
    ensures Record(Record(map[], x), y) == map["total_mb" := t, "free_mb" := f]
  {
  }

  /** With the total and the free space read and no used space, the used space is their difference. */
  lemma ParsedOfMap(s: string, t: real, f: real)
    requires Recorded(Parts(s)) == map["total_mb" := t, "free_mb" := f]
    ensures ParsedMetrics(s) == Some(map["total_mb" := t, "free_mb" := f, "used_mb" := t - f])
  {
    KeysDistinct();
  }

  lemma TotalPartClean(n: nat)
    ensures ';' !in "TOTAL" + "=" + NatToString(n) && '\r' !in "TOTAL" + "=" + NatToString(n)
  {
    NumberPart("TOTAL", n);
  }

  lemma FreePartClean(n: nat)
    ensures ';' !in "FREE" + "=" + NatToString(n) && '\r' !in "FREE" + "=" + NatToString(n)
  {
    NumberPart("FREE", n);
  }

  /** The query's line with any texts for the two figures that read as those figures records exactly those two. */
  lemma RecordedTexts(t: string, f: string, total: real, free: real)
    requires ';' !in "TOTAL" + "=" + t && '\r' !in "TOTAL" + "=" + t
    requires ';' !in "FREE" + "=" + f && '\r' !in "FREE" + "=" + f
    requires Entry("TOTAL" + "=" + t) == Some(("total_mb", total))
    requires Entry("FREE" + "=" + f) == Some(("free_mb", free))
    ensures Recorded(Parts("TOTAL=" + t + ";FREE=" + f)) == map["total_mb" := total, "free_mb" := free]
  {
    var x := "TOTAL" + "=" + t;
    var y := "FREE" + "=" + f;
    LineShape(t, f);
    PartsOfTwo(x, y);
    RecordedTwo(x, y);
    RecordTotalFree(x, y, total, free);
  }

  /** The same line read by `_parse_metrics`: both figures, the used space their difference. */
  lemma ReadBackTexts(t: string, f: string, total: real, free: real)
    requires ';' !in "TOTAL" + "=" + t && '\r' !in "TOTAL" + "=" + t
    requires ';' !in "FREE" + "=" + f && '\r' !in "FREE" + "=" + f
    requires Entry("TOTAL" + "=" + t) == Some(("total_mb", total))
    requires Entry("FREE" + "=" + f) == Some(("free_mb", free))
    ensures ParsedMetrics("TOTAL=" + t + ";FREE=" + f)
         == Some(map["total_mb" := total, "free_mb" := free, "used_mb" := total - free])
  {
    RecordedTexts(t, f, total, free);
    ParsedOfMap("TOTAL=" + t + ";FREE=" + f, total, free);
  }

  /** The line the PowerShell query prints for whole megabytes reads back as those figures, with the used space derived. */
  lemma MetricsReadBack(total: nat, free: nat)
    ensures ParsedMetrics("TOTAL=" + NatToString(total) + ";FREE=" + NatToString(free))
         == Some(map["total_mb" := total as real, "free_mb" := free as real, "used_mb" := total as real - free as real])
  {
    TotalPartClean(total);
    FreePartClean(free);
    TotalPart(total);
    FreePart(free);
    ReadBackTexts(NatToString(total), NatToString(free), total as real, free as real);
  }

  lemma RecordedSnoc(parts: seq<string>, i: nat)
    requires i < |parts|
    ensures Recorded(parts[..i + 1]) == Record(Recorded(parts[..i]), parts[i])
  {
    assert parts[..i + 1][..i] == parts[..i];
  }

  /** The loop of `_parse_metrics` over the parts. */
  method RecordParts(parts: seq<string>) returns (metrics: Metrics)
    ensures metrics == Recorded(parts)
  {
    metrics := map[];
    for i := 0 to |parts|
      invariant metrics == Recorded(parts[..i])
    {
      RecordedSnoc(parts, i);
      var entry := Entry(parts[i]);
      if entry.Some? {
        metrics := metrics[entry.value.0 := entry.value.1];
      }
    }
    assert parts[..|parts|] == parts;
  }

  /** `_parse_metrics`. */
  method ParseMetrics(payload: string) returns (r: Option<Metrics>)
    ensures r == ParsedMetrics(payload)
  {
    var metrics := RecordParts(Split(Replace(payload, "\r", ""), ';'));
    if "total_mb" in metrics && "free_mb" in metrics {
      if "used_mb" !in metrics {
        metrics := metrics["used_mb" := metrics["total_mb"] - metrics["free_mb"]];
      }
      return Some(metrics);
    }
    return None;
  }

  // ---------------------------------------------------------------------------
  // Results

  /** `_failure`. */
  function FailureResult(message: string, logs: seq<string>): ToolResult
  {
    ToolResult(ToolName, "Failed", ToolName, message, Join("\n", logs))
  }

  function Failed(message: string, logs: seq<string>, commands: seq<string>): Outcome
  {
    Outcome(FailureResult(message, logs), None, commands)
  }

  /** `f"{x:.2f}"`: the value rounded to hundredths, half away from zero. */
  function Fixed2(x: real): string
  {
    var cents: nat := if x < 0.0 then (-x * 100.0 + 0.5).Floor else (x * 100.0 + 0.5).Floor;
    var frac := cents % 100;
    (if x < 0.0 then "-" else "") + NatToString(cents / 100) + "." + [DigitChar(frac / 10), DigitChar(frac % 10)]
  }

  /** The verdict on the figures read: met exactly when the free megabytes reach the threshold. */
  function Verdict(threshold: int, command: string, metrics: Metrics, logs: seq<string>): (o: Outcome)
    requires "free_mb" in metrics
    ensures o.metrics == Some(metrics) && o.commands == [command]
    ensures o.result.status == "Success" <==> metrics["free_mb"] >= threshold as real
    ensures o.result.status == "Success" || o.result.status == "Failed"
    ensures o.result.name == ToolName && o.result.command == command && o.result.output == Join("\n", logs)
  {
    var free := metrics["free_mb"];
    var met := free >= threshold as real;
    var details := "Free space " + Fixed2(free) + " MB " + (if met then "meets" else "below") + " threshold " + IntToString(threshold) + " MB";
    Outcome(ToolResult(ToolName, if met then "Success" else "Failed", command, details, Join("\n", logs)), Some(metrics), [command])
  }

  // ---------------------------------------------------------------------------
  // Windows

  /** The PowerShell query for one drive. */
  function WindowsCommand(drive: string): string
  {
    "powershell -NoProfile -Command \""
    + "$disk = Get-CimInstance Win32_LogicalDisk -Filter \\\"DeviceID='" + drive + "'\\\";"
    + "if ($disk) {"
    + "  $totalMB = [math]::Round($disk.Size/1MB,2);"
    + "  $freeMB = [math]::Round($disk.FreeSpace/1MB,2);"
    + "  Write-Output (\\\"TOTAL=$totalMB;FREE=$freeMB\\\");"
    + "} else { Write-Output 'ERROR:DiskNotFound'; }\""
  }

  /** `path.strip()` on a value that is not a string raises this. */
  function NoStrip(v: Value): string
  {
    "'" + TypeName(v) + "' object has no attribute 'strip'"
  }

  /** What the query printed, both streams together, stripped. */
  function Payload(reply: Reply): string
  {
    Strip(reply.stdout + reply.stderr)
  }

  /** The figures read from the payload, judged; the payload itself is logged already. */
  function MetricsJudged(command: string, metrics: Option<Metrics>, threshold: int, logged: seq<string>): Outcome
  {
    match metrics
    case None => Failed("Unrecognized disk output", logged, [command])
    case Some(m) => if "free_mb" in m then Verdict(threshold, command, m, logged) else Failed("Unrecognized disk output", logged, [command])
  }

  /** The reply to the query, judged: an error, unreadable figures, or a verdict. */
  function WindowsJudged(command: string, payload: string, threshold: int, logged: seq<string>): (o: Outcome)
    ensures o.commands == [command]
    ensures o.result.status == "Success" <==>
      !Contains(Upper(payload), "ERROR") && ParsedMetrics(payload).Some? && ParsedMetrics(payload).value["free_mb"] >= threshold as real
    ensures o.metrics.Some? <==> !Contains(Upper(payload), "ERROR") && ParsedMetrics(payload).Some?
    ensures o.metrics.Some? ==> o.metrics == ParsedMetrics(payload)
  {
    if Contains(Upper(payload), "ERROR") then Failed("Unable to retrieve disk details", logged + [payload], [command])
    else MetricsJudged(command, ParsedMetrics(payload), threshold, logged + [payload])
  }

  /** `_check_windows` once the path is known to be a string, the commands `sent` having gone out. */
  function WindowsCheck(link: Link, sent: seq<string>, path: string, threshold: int, logs: seq<string>): Outcome
  {
    var drive := ExtractDrive(path);
    var command := WindowsCommand(drive);
    WindowsJudged(command, Payload(link.respond(|sent|, command)), threshold, logs + ["Inspecting drive " + drive + " on Windows host"])
  }

  // ---------------------------------------------------------------------------
  // Linux

  /** The `df` pipeline for one path: `df -Pm <path> | tail -1`. */
  function DfLine(path: string): string
  {
    "df -Pm " + PosixShell.Quote(path) + " | tail -1"
  }

  /** The command as the source builds it: the quoted path inside a double-quoted `bash -lc` argument. */
  function LinuxCommandAsWritten(path: string): string
  {
    "bash -lc \"" + DfLine(path) + "\""
  }

  /** `bash -lc <arg>` with the argument quoted for the shell that reads it first. */
  function LinuxCommandOf(arg: string): string
  {
    "bash -lc " + PosixShell.Quote(arg)
  }

  /** The command with the `df` pipeline quoted as one argument of `bash -lc`. */
  function LinuxCommand(path: string): string
  {
    LinuxCommandOf(DfLine(path))
  }

  /** No character the shell treats specially inside double quotes. */
  predicate PlainText(s: string)
  {
    '"' !in s && '\\' !in s && '$' !in s && '`' !in s
  }

  /** Plain text without a single quote either. */
  predicate Inert(s: string)
  {
    PlainText(s) && '\'' !in s
  }

  /** A shell variable name. */
  predicate IsName(name: string)
  {
    name != [] && PosixShell.NameStart(name[0]) && forall i :: 0 <= i < |name| ==> PosixShell.NameChar(name[i])
  }

  /** A path that needs quoting and holds no single quote is quoted by wrapping it in single quotes. */
  lemma QuoteWraps(p: string)
    requires !PosixShell.AllSafe(p) && '\'' !in p
    ensures PosixShell.Quote(p) == "'" + p + "'"
  {
    AbsentChar(p, '\'');
    ReplaceAbsent(p, "'", PosixShell.QuoteEscape);
  }

  lemma PlainDoubleQuotedText(p: string, rest: string, env: string -> string)
    requires PlainText(p)
    ensures PosixShell.DoubleQuoted(p + rest, env) == Prepend(p, PosixShell.DoubleQuoted(rest, env))
  {
    PosixShell.PlainDoubleQuoted(p, rest, env);
  }

  lemma Pieces<T>(x: T, a: seq<T>, b: seq<T>)
    ensures ([x] + a + b)[0] == x && ([x] + a + b)[1..] == a + b
    ensures ([x] + a + b)[1..1 + |a|] == a && ([x] + a + b)[1 + |a|..] == b
  {
  }

  /** Inside double quotes, `$name` expands to the variable's value. */
  lemma DollarNameExpands(name: string, rest: string, env: string -> string)
    requires IsName(name) && rest != [] && !PosixShell.NameChar(rest[0])
    ensures PosixShell.DoubleQuoted("$" + name + rest, env) == Prepend(env(name), PosixShell.DoubleQuoted(rest, env))
  {
    var s := "$" + name + rest;
    Pieces('$', name, rest);
    assert s[1] == name[0];
    RunLengthOf(name, rest, PosixShell.NameChar);
  }

  lemma Regroup<T>(a: seq<T>, q: seq<T>, pre: seq<T>, d: seq<T>, name: seq<T>, post: seq<T>, t: seq<T>, dq: seq<T>)
    ensures a + (q + (pre + d + name + post) + q) + t + dq == (a + q + pre) + (d + name + (post + (q + t) + dq))
  {
  }

  lemma Regroup2<T>(a: seq<T>, q: seq<T>, pre: seq<T>, e: seq<T>, post: seq<T>, t: seq<T>)
    ensures (a + q + pre) + (e + ((post + (q + t)) + [])) == a + q + (pre + e + post) + q + t
  {
  }

  /** A `$name` inside a path makes it one `shlex.quote` wraps in single quotes. */
  lemma DollarPathQuoted(pre: string, name: string, post: string)
    requires Inert(pre) && Inert(post) && IsName(name)
    ensures PosixShell.Quote(pre + "$" + name + post) == "'" + (pre + "$" + name + post) + "'"
  {
    var p := pre + "$" + name + post;
    assert p[|pre|] == '$';
    assert !PosixShell.SafeChar('$');
    assert '\'' !in name by {
      forall i | 0 <= i < |name|
        ensures name[i] != '\''
      {
        assert PosixShell.NameChar(name[i]);
      }
    }
    QuoteWraps(p);
  }

  /** What follows the variable name starts with no name character. */
  lemma AfterName(post: string, qt: string, dq: string)
    requires post == [] || !PosixShell.NameChar(post[0])
    requires qt != [] && qt[0] == '\''
    ensures post + qt + dq != [] && !PosixShell.NameChar((post + qt + dq)[0])
  {
  }

  /**
   * Inside double quotes, a single-quoted path holding `$name` between
   * plain text `a` and `t` is read with the variable expanded.
   */
  lemma QuotedArgument(a: string, t: string, pre: string, name: string, post: string, env: string -> string)
    requires PlainText(a) && PlainText(t) && Inert(pre) && Inert(post) && IsName(name)
    requires post == [] || !PosixShell.NameChar(post[0])
    ensures PosixShell.DoubleQuoted(a + PosixShell.Quote(pre + "$" + name + post) + t + "\"", env)
         == Some((a + "'" + (pre + env(name) + post) + "'" + t, ""))
  {
    var q, dq := "'", "\"";
    DollarPathQuoted(pre, name, post);
    Regroup(a, q, pre, "$", name, post, t, dq);
    var rest := post + (q + t) + dq;
    AfterName(post, q + t, dq);
    PlainDoubleQuotedText(a + q + pre, "$" + name + rest, env);
    DollarNameExpands(name, rest, env);
    PlainDoubleQuotedText(post + (q + t), dq, env);
    assert PosixShell.DoubleQuoted(dq, env) == Some(("", ""));
    PrependPrepend(env(name), post + (q + t), PosixShell.DoubleQuoted(dq, env));
    PrependPrepend(a + q + pre, env(name) + (post + (q + t)), PosixShell.DoubleQuoted(dq, env));
    Regroup2(a, q, pre, env(name), post, t);
  }

  lemma DropHead<T>(x: seq<T>, s: seq<T>)
    requires |x| == 1
    ensures (x + s)[0] == x[0] && (x + s)[1..] == s
  {
  }

  /** A safe word, a blank, then the rest: the word and then the rest's tokens. */
  lemma SafeWordThen(w: string, rest: string, env: string -> string)
    requires w != [] && PosixShell.AllSafe(w)
    ensures PosixShell.Tokens(w + (" " + rest), env) == PosixShell.PrependToken(PosixShell.Word(w), PosixShell.Tokens(rest, env))
  {
    DropHead(" ", rest);
    PosixShell.SafeWordTail(w, " " + rest, env);
    PosixShell.TokensOfWord(w + (" " + rest), w, " " + rest, env);
    PosixShell.TokensSkipBlank(" " + rest, env);
  }

  /** A double-quoted argument at the end of a line reads as one word, its value. */
  lemma DoubleQuotedWord(arg: string, v: string, env: string -> string)
    requires PosixShell.DoubleQuoted(arg + "\"", env) == Some((v, ""))
    ensures PosixShell.Tokens("\"" + (arg + "\""), env) == Some([PosixShell.Word(v)])
  {
    var quoted := "\"" + (arg + "\"");
    DropHead("\"", arg + "\"");
    assert PosixShell.WordTail("", env) == Some(("", ""));
    assert v + "" == v;
    assert PosixShell.WordTail(quoted, env) == Some((v, ""));
    PosixShell.TokensOfWord(quoted, v, "", env);
    assert PosixShell.Tokens("", env) == Some([]);
    assert [PosixShell.Word(v)] + [] == [PosixShell.Word(v)];
  }

  /** `<w1> <w2> "<arg>"` reads as three words, the last the value of the double-quoted `arg`. */
  lemma OuterDoubleQuoted(w1: string, w2: string, arg: string, v: string, env: string -> string)
    requires w1 != [] && PosixShell.AllSafe(w1) && w2 != [] && PosixShell.AllSafe(w2)
    requires PosixShell.DoubleQuoted(arg + "\"", env) == Some((v, ""))
    ensures PosixShell.Tokens(w1 + (" " + (w2 + (" " + ("\"" + (arg + "\""))))), env)
         == Some([PosixShell.Word(w1), PosixShell.Word(w2), PosixShell.Word(v)])
  {
    var quoted := "\"" + (arg + "\"");
    SafeWordThen(w1, w2 + (" " + quoted), env);
    SafeWordThen(w2, quoted, env);
    DoubleQuotedWord(arg, v, env);
    assert [PosixShell.Word(w1)] + ([PosixShell.Word(w2)] + [PosixShell.Word(v)])
        == [PosixShell.Word(w1), PosixShell.Word(w2), PosixShell.Word(v)];
  }

  lemma AsWrittenShape(arg: string)
    ensures "bash -lc \"" + arg + "\"" == "bash" + (" " + ("-lc" + (" " + ("\"" + (arg + "\"")))))
  {
  }

  lemma BashSafe()
    ensures PosixShell.AllSafe("bash") && PosixShell.AllSafe("-lc")
  {
  }

  /**
   * As written, the outer shell expands `$name` inside the double quotes
   * before `bash -lc` sees the single quotes `shlex.quote` added: the
   * pipeline `bash` runs names the path with the variable's value in place
   * of `$name`.
   */
  lemma AsWrittenExpands(pre: string, name: string, post: string, env: string -> string)
    requires Inert(pre) && Inert(post) && IsName(name) && (post == [] || !PosixShell.NameChar(post[0]))
    ensures PosixShell.Tokens(LinuxCommandAsWritten(pre + "$" + name + post), env)
         == Some([PosixShell.Word("bash"), PosixShell.Word("-lc"),
                  PosixShell.Word("df -Pm " + "'" + (pre + env(name) + post) + "'" + " | tail -1")])
  {
    assert PlainText("df -Pm ") && PlainText(" | tail -1");
    QuotedArgument("df -Pm ", " | tail -1", pre, name, post, env);
    AsWrittenShape(DfLine(pre + "$" + name + post));
    BashSafe();
    OuterDoubleQuoted("bash", "-lc", DfLine(pre + "$" + name + post),
      "df -Pm " + "'" + (pre + env(name) + post) + "'" + " | tail -1", env);
  }

  lemma DollarX()
    ensures IsName("X") && "" + "$" + "X" + "" == "$X" && Inert("")
  {
  }

  /** Asked about the path `$X`, the command as written has `df` inspect the value of `X` instead. */
  lemma AsWrittenExpandsPath(env: string -> string)
    ensures PosixShell.Tokens(LinuxCommandAsWritten("$X"), env)
         == Some([PosixShell.Word("bash"), PosixShell.Word("-lc"), PosixShell.Word("df -Pm " + "'" + env("X") + "'" + " | tail -1")])
  {
    DollarX();
    AsWrittenExpands("", "X", "", env);
    assert "" + env("X") + "" == env("X");
  }

  lemma QuoteSafe(w: string)
    requires w != [] && PosixShell.AllSafe(w)
    ensures PosixShell.Quote(w) == w
  {
  }

  lemma LineOfThree(a: string, b: string, c: string)
    ensures PosixShell.QuotedLine([a, b, c]) == PosixShell.Quote(a) + " " + (PosixShell.Quote(b) + " " + PosixShell.Quote(c))
    ensures PosixShell.WordTokens([a, b, c]) == [PosixShell.Word(a), PosixShell.Word(b), PosixShell.Word(c)]
  {
    assert [a, b, c] == [a] + [b, c] && [b, c] == [b] + [c] && [c] == [c] + [];
    PosixShell.QuotedLineCons(a, [b, c]);
    PosixShell.QuotedLineCons(b, [c]);
    PosixShell.QuotedLineCons(c, []);
    PosixShell.WordTokensCons(a, [b, c]);
    PosixShell.WordTokensCons(b, [c]);
    PosixShell.WordTokensCons(c, []);
  }

  lemma LineOfTwo(a: string, b: string)
    ensures PosixShell.QuotedLine([a, b]) == PosixShell.Quote(a) + " " + PosixShell.Quote(b)
    ensures PosixShell.WordTokens([a, b]) == [PosixShell.Word(a), PosixShell.Word(b)]
  {
    assert [a, b] == [a] + [b] && [b] == [b] + [];
    PosixShell.QuotedLineCons(a, [b]);
    PosixShell.QuotedLineCons(b, []);
    PosixShell.WordTokensCons(a, [b]);
    PosixShell.WordTokensCons(b, []);
  }

  lemma BashGlue(a: string, b: string, q: string)
    requires a == "bash" && b == "-lc"
    ensures a + " " + (b + " " + q) == "bash -lc " + q
  {
  }

  lemma BashWords(arg: string)
    ensures PosixShell.QuotedLine(["bash", "-lc", arg]) == LinuxCommandOf(arg)
  {
    BashSafe();
    QuoteSafe("bash");
    QuoteSafe("-lc");
    LineOfThree("bash", "-lc", arg);
    BashGlue("bash", "-lc", PosixShell.Quote(arg));
  }

  /** With the argument quoted, whatever the shell's variables, `bash -lc` receives the pipeline unchanged. */
  lemma LinuxCommandReadsBack(path: string, env: string -> string)
    ensures PosixShell.Tokens(LinuxCommand(path), env)
         == Some([PosixShell.Word("bash"), PosixShell.Word("-lc"), PosixShell.Word(DfLine(path))])
  {
    BashWords(DfLine(path));
    PosixShell.QuotedLineReadsBack(["bash", "-lc", DfLine(path)], env);
    LineOfThree("bash", "-lc", DfLine(path));
  }

  lemma DfSafe()
    ensures PosixShell.AllSafe("df") && PosixShell.AllSafe("-Pm") && PosixShell.AllSafe("tail") && PosixShell.AllSafe("-1")
  {
  }

  lemma DfGlue(a: string, b: string, c: string, d: string, q: string)
    requires a == "df" && b == "-Pm" && c == "tail" && d == "-1"
    ensures a + " " + (b + " " + q) + " | " + (c + " " + d) == "df -Pm " + q + " | tail -1"
  {
  }

  lemma DfWords(path: string)
    ensures PosixShell.QuotedLine(["df", "-Pm", path]) + " | " + PosixShell.QuotedLine(["tail", "-1"]) == DfLine(path)
  {
    DfSafe();
    QuoteSafe("df");
    QuoteSafe("-Pm");
    QuoteSafe("tail");
    QuoteSafe("-1");
    LineOfThree("df", "-Pm", path);
    LineOfTwo("tail", "-1");
    DfGlue("df", "-Pm", "tail", "-1", PosixShell.Quote(path));
  }

  /** The pipeline hands `df` exactly the requested path, whatever it holds. */
  lemma DfLineReadsBack(path: string, env: string -> string)
    ensures PosixShell.Tokens(DfLine(path), env)
         == Some([PosixShell.Word("df"), PosixShell.Word("-Pm"), PosixShell.Word(path), PosixShell.Pipe,
                  PosixShell.Word("tail"), PosixShell.Word("-1")])
  {
    DfWords(path);
    PosixShell.QuotedPipelineReadsBack(["df", "-Pm", path], ["tail", "-1"], env);
    LineOfThree("df", "-Pm", path);
    LineOfTwo("tail", "-1");
    FiveAroundPipe(PosixShell.Word("df"), PosixShell.Word("-Pm"), PosixShell.Word(path), PosixShell.Pipe,
      PosixShell.Word("tail"), PosixShell.Word("-1"));
  }

  lemma FiveAroundPipe<T>(a: T, b: T, c: T, p: T, d: T, e: T)
    ensures [a, b, c] + [p] + [d, e] == [a, b, c, p, d, e]
  {
  }

  /** `shlex.quote` on a value that is not a string raises this. */
  function NoQuote(v: Value): string
  {
    "expected string or bytes-like object, got '" + TypeName(v) + "'"
  }

  /** `float(s)` raises this where it cannot read `s`. */
  function NoFloat(s: string): string
  {
    "could not convert string to float: '" + s + "'"
  }

  /** The figures of one `df -Pm` line: its second, third and fourth fields, read in that order. */
  function DfFigures(fields: seq<string>): (r: Result<Metrics>)
    requires |fields| >= 4
    ensures r.Success? <==> ParseReal(fields[1]).Some? && ParseReal(fields[2]).Some? && ParseReal(fields[3]).Some?
    ensures r.Success? ==> r.value == map["total_mb" := ParseReal(fields[1]).value, "used_mb" := ParseReal(fields[2]).value,
                                          "free_mb" := ParseReal(fields[3]).value]
  {
    match ParseReal(fields[1])
    case None => Failure(NoFloat(fields[1]))
    case Some(total) =>
      match ParseReal(fields[2])
      case None => Failure(NoFloat(fields[2]))
      case Some(used) =>
        match ParseReal(fields[3])
        case None => Failure(NoFloat(fields[3]))
        case Some(free) => Success(map["total_mb" := total, "used_mb" := used, "free_mb" := free])
  }

  /** The fields of the last line `df` printed, if it printed any. */
  function LastFields(stdout: string): Option<seq<string>>
  {
    var lines := SplitLines(Strip(stdout));
    if lines == [] then None else Some(SplitWhitespace(lines[|lines| - 1]))
  }

  /** The figures of the fields, judged; a field `float()` cannot read raises. */
  function FiguresJudged(command: string, fields: seq<string>, threshold: int, logged: seq<string>): (o: Outcome)
    requires |fields| >= 4
    ensures o.commands == [command]
    ensures o.metrics.Some? <==> DfFigures(fields).Success?
    ensures o.metrics.Some? ==> o.metrics.value == DfFigures(fields).value
    ensures o.result.status == "Success" <==> DfFigures(fields).Success? && DfFigures(fields).value["free_mb"] >= threshold as real
  {
    match DfFigures(fields)
    case Failure(e) => Failed(e, logged + ["Exception: " + e], [command])
    case Success(m) => Verdict(threshold, command, m, logged)
  }

  /** The last line of the reply, judged: no output, too few fields, or its figures. */
  function FieldsJudged(command: string, fields: Option<seq<string>>, threshold: int, logged: seq<string>): (o: Outcome)
    ensures o.commands == [command]
    ensures o.metrics.Some? <==> fields.Some? && |fields.value| >= 4 && DfFigures(fields.value).Success?
    ensures o.metrics.Some? ==> o.metrics.value == DfFigures(fields.value).value
    ensures o.result.status == "Success" <==>
      fields.Some? && |fields.value| >= 4 && DfFigures(fields.value).Success? && DfFigures(fields.value).value["free_mb"] >= threshold as real
  {
    match fields
    case None => Failed("No output from df command", logged, [command])
    case Some(f) =>
      if |f| < 4 then Failed("Unexpected df output", logged, [command])
      else FiguresJudged(command, f, threshold, logged)
  }

  /** `_check_linux` once the path is known to be a string, the commands `sent` having gone out. */
  function LinuxCheck(link: Link, sent: seq<string>, path: string, threshold: int, logs: seq<string>): Outcome
  {
    var command := LinuxCommand(path);
    var reply := link.respond(|sent|, command);
    FieldsJudged(command, LastFields(reply.stdout), threshold,
      logs + ["Inspecting path " + path + " on Linux host"] + NonBlankStripped([reply.stdout, reply.stderr]))
  }

  // ---------------------------------------------------------------------------
  // The tool

  /** The branch of `run` for the detected system once the settings are known. */
  function CheckSettled(link: Link, sent: seq<string>, os: string, target: Value, threshold: int): Outcome
  {
    var logs := RemotePortCheck.OsLog(os);
    if os == "windows" then
      if target.VStr? then WindowsCheck(link, sent, target.s, threshold, logs)
      else Failed(NoStrip(target), logs + ["Exception: " + NoStrip(target)], [])
    else if os == "linux" then
      if target.VStr? then LinuxCheck(link, sent, target.s, threshold, logs)
      else Failed(NoQuote(target), logs + ["Inspecting path " + PyStr(target) + " on Linux host"] + ["Exception: " + NoQuote(target)], [])
    else Failed(RemotePortCheck.UnsupportedMessage, logs, [])
  }

  /** Everything after the system is known to be `os`, the commands `sent` having gone out. */
  function CheckOn(link: Link, sent: seq<string>, os: string, config: Value, path: Value, minFree: Value): Outcome
  {
    match Settings(RemotePortCheck.OsConfig(config, os), os, path, minFree)
    case Failure(e) => Failed(e, RemotePortCheck.OsLog(os) + ["Exception: " + e], [])
    case Success((target, threshold)) => CheckSettled(link, sent, os, target, threshold)
  }

  /** The commands of `o` after `pre`. */
  function After(pre: seq<string>, o: Outcome): Outcome
  {
    Outcome(o.result, o.metrics, pre + o.commands)
  }

  /** `run(executor, config, path, min_free_mb)` after the commands `sent`. */
  function DiskCheck(link: Link, sent: seq<string>, config: Value, path: Value, minFree: Value): Outcome
  {
    After(OsProbes(link, |sent|), CheckOn(link, sent + OsProbes(link, |sent|), DetectedOs(link, |sent|), config, path, minFree))
  }

  /** What a settled check sends and how its verdict relates to the figures it reports. */
  predicate Consistent(o: Outcome, threshold: int)
  {
    && (o.metrics.Some? ==>
          "free_mb" in o.metrics.value && (o.result.status == "Success" <==> o.metrics.value["free_mb"] >= threshold as real))
    && (o.metrics.None? ==> o.result.status == "Failed")
  }

  lemma WindowsConsistent(link: Link, sent: seq<string>, path: string, threshold: int, logs: seq<string>)
    ensures |WindowsCheck(link, sent, path, threshold, logs).commands| == 1
    ensures Consistent(WindowsCheck(link, sent, path, threshold, logs), threshold)
  {
  }

  lemma LinuxConsistent(link: Link, sent: seq<string>, path: string, threshold: int, logs: seq<string>)
    ensures |LinuxCheck(link, sent, path, threshold, logs).commands| == 1
    ensures Consistent(LinuxCheck(link, sent, path, threshold, logs), threshold)
  {
  }

  /**
   * Once the settings are known, one query goes out exactly when the path
   * is text and the system is Windows or Linux; figures come back only with
   * a verdict that compares their free space with the threshold, and a run
   * without figures fails.
   */
  lemma SettledQueries(link: Link, sent: seq<string>, os: string, target: Value, threshold: int)
    ensures |CheckSettled(link, sent, os, target, threshold).commands|
         == (if target.VStr? && (os == "windows" || os == "linux") then 1 else 0)
    ensures Consistent(CheckSettled(link, sent, os, target, threshold), threshold)
  {
    var logs := RemotePortCheck.OsLog(os);
    if target.VStr? && os == "windows" {
      WindowsConsistent(link, sent, target.s, threshold, logs);
    } else if target.VStr? && os == "linux" {
      LinuxConsistent(link, sent, target.s, threshold, logs);
    }
  }

  /** No query goes out when the settings cannot be worked out; the run fails with the exception's message. */
  lemma UnsettledSendsNothing(link: Link, sent: seq<string>, os: string, config: Value, path: Value, minFree: Value)
    requires Settings(RemotePortCheck.OsConfig(config, os), os, path, minFree).Failure?
    ensures CheckOn(link, sent, os, config, path, minFree).commands == []
    ensures CheckOn(link, sent, os, config, path, minFree).result.status == "Failed"
    ensures CheckOn(link, sent, os, config, path, minFree).result.details
         == Settings(RemotePortCheck.OsConfig(config, os), os, path, minFree).error
  {
  }

  // ---------------------------------------------------------------------------
  // The tool over a connected executor

  /** The reply to the Windows query, judged. */
  method JudgeWindows(command: string, payload: string, threshold: int, logged: seq<string>) returns (o: Outcome)
    ensures o == WindowsJudged(command, payload, threshold, logged)
  {
    var logs := logged + [payload];
    if Contains(Upper(payload), "ERROR") {
      return Failed("Unable to retrieve disk details", logs, [command]);
    }
    var metrics := ParseMetrics(payload);
    if metrics.None? {
      return Failed("Unrecognized disk output", logs, [command]);
    }
    o := Verdict(threshold, command, metrics.value, logs);
  }

  /** `_check_windows`. */
  method CheckWindows(ex: Executor, path: string, threshold: int, logs: seq<string>) returns (o: Outcome)
    requires ex.connected
    modifies ex`issued
    ensures o == WindowsCheck(ex.link, old(ex.issued), path, threshold, logs)
    ensures ex.issued == old(ex.issued) + o.commands
  {
    var drive := ExtractDrive(path);
    var logged := logs + ["Inspecting drive " + drive + " on Windows host"];
    var command := WindowsCommand(drive);
    var stdout, stderr := ex.Run(command);
    o := JudgeWindows(command, Payload(Reply(stdout, stderr)), threshold, logged);
  }

  /** The last line `df` printed, judged. */
  method JudgeFields(command: string, fields: Option<seq<string>>, threshold: int, logged: seq<string>) returns (o: Outcome)
    ensures o == FieldsJudged(command, fields, threshold, logged)
  {
    if fields.None? {
      return Failed("No output from df command", logged, [command]);
    }
    var parts := fields.value;
    if |parts| < 4 {
      return Failed("Unexpected df output", logged, [command]);
    }
    var figures := DfFigures(parts);
    if figures.Failure? {
      return Failed(figures.error, logged + ["Exception: " + figures.error], [command]);
    }
    o := Verdict(threshold, command, figures.value, logged);
  }

  /** `_check_linux`. */
  method CheckLinux(ex: Executor, path: string, threshold: int, logs: seq<string>) returns (o: Outcome)
    requires ex.connected
    modifies ex`issued
    ensures o == LinuxCheck(ex.link, old(ex.issued), path, threshold, logs)
    ensures ex.issued == old(ex.issued) + o.commands
  {
    var logged := logs + ["Inspecting path " + path + " on Linux host"];
    var command := LinuxCommand(path);
    var stdout, stderr := ex.Run(command);
    logged := logged + NonBlankStripped([stdout, stderr]);
    o := JudgeFields(command, LastFields(stdout), threshold, logged);
  }

  /** The branch of `run` for the detected system, once the path and threshold are known. */
  method CheckSettledOn(ex: Executor, os: string, target: Value, threshold: int) returns (o: Outcome)
    requires ex.connected
    modifies ex`issued
    ensures o == CheckSettled(ex.link, old(ex.issued), os, target, threshold)
    ensures ex.issued == old(ex.issued) + o.commands
  {
    var logs := RemotePortCheck.OsLog(os);
    if os == "windows" {
      if !target.VStr? {
        return Failed(NoStrip(target), logs + ["Exception: " + NoStrip(target)], []);
      }
      o := CheckWindows(ex, target.s, threshold, logs);
    } else if os == "linux" {
      if !target.VStr? {
        var logged := logs + ["Inspecting path " + PyStr(target) + " on Linux host"];
        return Failed(NoQuote(target), logged + ["Exception: " + NoQuote(target)], []);
      }
      o := CheckLinux(ex, target.s, threshold, logs);
    } else {
      o := Failed(RemotePortCheck.UnsupportedMessage, logs, []);
    }
  }

  /** The body of `run` once the system is known to be `os`. */
  method CheckDetected(ex: Executor, os: string, config: Value, path: Value, minFree: Value) returns (o: Outcome)
    requires ex.connected
    modifies ex`issued
    ensures o == CheckOn(ex.link, old(ex.issued), os, config, path, minFree)
    ensures ex.issued == old(ex.issued) + o.commands
  {
    var settings := Settings(RemotePortCheck.OsConfig(config, os), os, path, minFree);
    if settings.Failure? {
      return Failed(settings.error, RemotePortCheck.OsLog(os) + ["Exception: " + settings.error], []);
    }
    o := CheckSettledOn(ex, os, settings.value.0, settings.value.1);
  }

  /** `run(executor, config, path, min_free_mb)` on a connected executor. */
  method Run(ex: Executor, config: Value, path: Value, minFree: Value) returns (o: Outcome)
    requires ex.connected
    modifies ex`issued
    ensures o == DiskCheck(ex.link, old(ex.issued), config, path, minFree)
    ensures ex.issued == old(ex.issued) + o.commands
  {
    var before := ex.issued;
    var os := ex.DetectOs();
    var checked := CheckDetected(ex, os, config, path, minFree);
    AppendAssoc(before, OsProbes(ex.link, |before|), checked.commands);
    o := After(OsProbes(ex.link, |before|), checked);
  }
}
