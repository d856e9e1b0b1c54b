/**
 * The local Windows port check (Tools/pre_requisit_check/check_ports.py):
 * one `netstat -ano` listing, each line collapsed to single spaces, each
 * requested port looked up as `:port` followed by whitespace or the end,
 * and the owning process asked of `tasklist` when the line ends in a PID.
 */
module CheckPorts {
  import opened Wrappers
  import opened Text
  import opened Sequences
  import opened RemoteExecutor
  import opened ToolResults
  import RemotePortCheck

  const ToolName: string := "check_ports"
  const DefaultPorts: seq<int> := [8080, 8005, 8009]
  const NetstatCommand: string := "netstat -ano"
  const ReportedCommand: string := "netstat -ano ; tasklist /FI \"PID eq <pid>\""
  const NotWindowsMessage: string := "This tool targets Windows (netstat & tasklist required)."
  const NoPidLine: string := "  tasklist: PID not found in netstat line"
  const NoInfoLine: string := "  tasklist: (no info)"
  const TasklistLine: string := "  tasklist:"

  /**
   * The local processes the tool starts. What a command prints is fixed up
   * front by `respond`, given how many commands ran before it; every
   * command started is recorded in `ran`, oldest first.
   */
  class LocalShell {
    const respond: (nat, string) -> Reply
    var ran: seq<string>

    constructor (respond: (nat, string) -> Reply)
      ensures this.respond == respond && ran == []
    {
      this.respond := respond;
      ran := [];
    }

    /** `_run_cmd(cmd)`: the stripped standard output, or standard error when there is none. */
    method RunCmd(command: string) returns (out: string)
      modifies this`ran
      ensures ran == old(ran) + [command]
      ensures out == CmdOutput(respond(|old(ran)|, command))
    {
      out := CmdOutput(respond(|ran|, command));
      ran := ran + [command];
    }
  }

  /** `(proc.stdout or proc.stderr or "").strip()`. */
  function CmdOutput(r: Reply): string
  {
    Strip(if r.stdout != "" then r.stdout else r.stderr)
  }

  // ---------------------------------------------------------------------------
  // The listing lines

  /** `re.sub(r"\s+", " ", line).strip()`: the words of the line, one space apart. */
  function Collapsed(line: string): string
  {
    Join(" ", SplitWhitespace(line))
  }

  /** Words with no whitespace, one space apart: no whitespace at the ends, and each whitespace character is one space between two words. */
  predicate SingleSpaced(r: string)
  {
    (r == [] || (!IsSpace(r[0]) && !IsSpace(r[|r| - 1]))) &&
    forall i :: 0 <= i < |r| && IsSpace(r[i]) ==> r[i] == ' ' && 0 < i < |r| - 1 && !IsSpace(r[i + 1])
  }

  predicate IsWord(w: string)
  {
    w != [] && forall j :: 0 <= j < |w| ==> !IsSpace(w[j])
  }

  /** A word, a space and a single-spaced rest are single-spaced. */
  lemma SpacedCons(w: string, rest: string)
    requires IsWord(w) && rest != [] && SingleSpaced(rest)
    ensures SingleSpaced(w + " " + rest)
  {
    var r := w + " " + rest;
    assert r[0] == w[0];
    assert r[|r| - 1] == rest[|rest| - 1];
    assert forall j :: 0 <= j < |w| ==> r[j] == w[j];
    forall i | 0 <= i < |r| && IsSpace(r[i])
      ensures r[i] == ' ' && 0 < i < |r| - 1 && !IsSpace(r[i + 1])
    {
      if i == |w| {
        assert r[i + 1] == rest[0];
      } else {
        assert r[i] == rest[i - |w| - 1];
        if i + 1 < |r| {
          assert r[i + 1] == rest[i - |w|];
        }
      }
    }
  }

  lemma {:induction false} JoinWordsSpaced(words: seq<string>)
    requires forall k :: 0 <= k < |words| ==> IsWord(words[k])
    ensures SingleSpaced(Join(" ", words))
    ensures Join(" ", words) == [] <==> words == []
    decreases |words|
  {
    if |words| == 1 {
      assert Join(" ", words) == words[0];
    } else if |words| > 1 {
      JoinWordsSpaced(words[1..]);
      assert words[1..][0] == words[1];
      JoinCons(" ", words[0], words[1..]);
      assert words == [words[0]] + words[1..];
      SpacedCons(words[0], Join(" ", words[1..]));
    }
  }

  /** Every line the loop looks at is single-spaced and not blank. */
  lemma CollapsedSpaced(line: string)
    ensures SingleSpaced(Collapsed(line))
    ensures Collapsed(line) == [] <==> SplitWhitespace(line) == []
  {
    var words := SplitWhitespace(line);
    forall k | 0 <= k < |words|
      ensures IsWord(words[k])
    {
    }
    JoinWordsSpaced(words);
  }

  /** A collapsed line, or nothing for a blank one (which the loop skips). */
  function Entry(line: string): Option<string>
  {
    var s := Collapsed(line);
    if s == "" then None else Some(s)
  }

  /** The collapsed lines of the listing that `port` is found in, in order. */
  function Matches(lines: seq<string>, port: int): seq<string>
  {
    Filter(Collect(lines, Entry), RemotePortCheck.Mentions(port))
  }

  /** The last word of a collapsed line when it is all digits. */
  function NetstatPid(s: string): (pid: Option<string>)
    ensures pid.Some? ==> IsDigitString(pid.value)
    ensures pid.Some? <==> SplitWhitespace(s) != [] && IsDigitString(SplitWhitespace(s)[|SplitWhitespace(s)| - 1])
    ensures pid.Some? ==> pid.value == SplitWhitespace(s)[|SplitWhitespace(s)| - 1]
  {
    var words := SplitWhitespace(s);
    if words != [] && IsDigitString(words[|words| - 1]) then Some(words[|words| - 1]) else None
  }

  // ---------------------------------------------------------------------------
  // The summary

  function Indent(t: string): string
  {
    "    " + t
  }

  /** The lines `tasklist` printed. */
  function TaskLines(r: Reply): seq<string>
  {
    SplitLines(CmdOutput(r))
  }

  /** One matching line: the line, then what `tasklist` says of its PID; `n` commands ran before. */
  function LineReport(respond: (nat, string) -> Reply, n: nat, s: string): Report<string>
  {
    var shown := "  netstat: " + s;
    match NetstatPid(s)
    case None => Report([shown, NoPidLine], [])
    case Some(pid) =>
      var tasks := TaskLines(respond(n, RemotePortCheck.TaskQuery(pid)));
      Report([shown] + TaskSection(tasks), [RemotePortCheck.TaskQuery(pid)])
  }

  /** What `tasklist` printed, indented under a heading, or a note that it printed nothing. */
  function TaskSection(tasks: seq<string>): seq<string>
  {
    if tasks == [] then [NoInfoLine] else [TasklistLine] + Map(tasks, Indent)
  }

  function LineStep(respond: (nat, string) -> Reply): (nat, string) -> Report<string>
  {
    (n: nat, s) => LineReport(respond, n, s)
  }

  /** `Port p: free`, or `Port p: IN USE (k match(es))` for `k` matching lines. */
  function Header(port: int, count: nat): string
  {
    "Port " + IntToString(port) + (if count == 0 then ": free" else ": IN USE (" + NatToString(count) + " match(es))")
  }

  /** The header a port gets against a listing. */
  function HeaderIn(lines: seq<string>): int -> string
  {
    port => Header(port, |Matches(lines, port)|)
  }

  /** One port: its header, then every matching line. */
  function PortReport(respond: (nat, string) -> Reply, n: nat, port: int, lines: seq<string>): Report<string>
  {
    var m := Matches(lines, port);
    if m == [] then Report([Header(port, 0)], [])
    else
      var r := Fold(m, n, LineStep(respond));
      Report([Header(port, |m|)] + r.summary, r.commands)
  }

  function PortStep(respond: (nat, string) -> Reply, lines: seq<string>): (nat, int) -> Report<string>
  {
    (n: nat, port) => PortReport(respond, n, port, lines)
  }

  /** The loop over the requested ports. */
  function PortsReport(respond: (nat, string) -> Reply, n: nat, ports: seq<int>, lines: seq<string>): Report<string>
  {
    Fold(ports, n, PortStep(respond, lines))
  }

  /** No line of the listing holds any of the ports. */
  predicate AllFree(lines: seq<string>, ports: seq<int>)
  {
    forall port :: port in ports ==> Matches(lines, port) == []
  }

  lemma AllFreeNext(lines: seq<string>, ports: seq<int>, j: nat)
    requires j < |ports|
    ensures AllFree(lines, ports[..j + 1]) <==> AllFree(lines, ports[..j]) && Matches(lines, ports[j]) == []
  {
    InPrefixSnoc(ports, j);
  }

  function Details(ports: seq<int>): string
  {
    "Ports checked: " + Join(", ", Map(ports, IntToString))
  }

  /** The listing `netstat -ano` printed when it ran `n`-th. */
  function Listing(respond: (nat, string) -> Reply, n: nat): seq<string>
  {
    SplitLines(CmdOutput(respond(n, NetstatCommand)))
  }

  /** `run(ports)` as a value: the result and every command started, `n` commands having run before. */
  function Check(windows: bool, respond: (nat, string) -> Reply, n: nat, ports: seq<int>): RemotePortCheck.Outcome
  {
    if !windows then
      RemotePortCheck.Outcome(ToolResult(ToolName, "Failed", NetstatCommand, "", NotWindowsMessage), [])
    else
      var lines := Listing(respond, n);
      var r := PortsReport(respond, n + 1, ports, lines);
      RemotePortCheck.Outcome(
        ToolResult(ToolName, if AllFree(lines, ports) then "Success" else "Failed", ReportedCommand,
                   Details(ports), Join("\n", r.summary)),
        [NetstatCommand] + r.commands)
  }

  // ---------------------------------------------------------------------------
  // What the summary and the verdict say

  /** Off Windows the tool fails without starting anything. */
  lemma NotWindowsRunsNothing(respond: (nat, string) -> Reply, n: nat, ports: seq<int>)
    ensures Check(false, respond, n, ports).commands == []
    ensures Check(false, respond, n, ports).result.status == "Failed"
  {
  }

  /** The header for `k` matches names the port free exactly when there are none. */
  lemma HeaderSaysFree(port: int, count: nat)
    ensures Header(port, count) == Header(port, 0) <==> count == 0
  {
    var head := "Port " + IntToString(port);
    if count != 0 {
      var busy := ": IN USE (" + NatToString(count) + " match(es))";
      assert Header(port, count) == head + busy;
      assert Header(port, 0) == head + ": free";
      assert (head + busy)[|head| + 2] == 'I';
      assert (head + ": free")[|head| + 2] == 'f';
    }
  }

  lemma HeaderIsPortLine(port: int, count: nat)
    ensures RemotePortCheck.IsPortLine(Header(port, count))
  {
    var rest := IntToString(port) + (if count == 0 then ": free" else ": IN USE (" + NatToString(count) + " match(es))");
    RemotePortCheck.PrefixOf("Port ", rest);
    assert Header(port, count) == "Port " + rest;
  }

  lemma IndentedLines(tasks: seq<string>)
    ensures forall t :: t in Map(tasks, Indent) ==> RemotePortCheck.Indented(t)
  {
    forall t | t in Map(tasks, Indent)
      ensures RemotePortCheck.Indented(t)
    {
      MapAt(tasks, Indent);
      var k :| 0 <= k < |tasks| && Map(tasks, Indent)[k] == t;
      RemotePortCheck.SpacesFirst("    ", tasks[k]);
    }
  }

  /** Every line a matching line adds is indented. */
  lemma LineReportIndented(respond: (nat, string) -> Reply, n: nat, s: string)
    ensures forall t :: t in LineReport(respond, n, s).summary ==> RemotePortCheck.Indented(t)
  {
    RemotePortCheck.SpacesFirst("  ", "netstat: " + s);
    assert "  netstat: " + s == "  " + ("netstat: " + s);
    match NetstatPid(s)
    case None =>
    case Some(pid) =>
      var tasks := TaskLines(respond(n, RemotePortCheck.TaskQuery(pid)));
      IndentedLines(tasks);
  }

  /** A port's own lines hold exactly one header: its own. */
  lemma PortReportHeader(respond: (nat, string) -> Reply, n: nat, port: int, lines: seq<string>)
    ensures Filter(PortReport(respond, n, port, lines).summary, RemotePortCheck.IsPortLine) == [HeaderIn(lines)(port)]
  {
    var m := Matches(lines, port);
    var h := Header(port, |m|);
    HeaderIsPortLine(port, |m|);
    FilterSnoc([], h, RemotePortCheck.IsPortLine);
    assert [] + [h] == [h];
    if m != [] {
      var r := Fold(m, n, LineStep(respond));
      forall k: nat, s | s in m
        ensures forall t :: t in LineStep(respond)(k, s).summary ==> RemotePortCheck.Indented(t)
      {
        LineReportIndented(respond, k, s);
      }
      FoldKeeps(m, n, LineStep(respond), RemotePortCheck.Indented);
      forall t | t in r.summary
        ensures !RemotePortCheck.IsPortLine(t)
      {
        RemotePortCheck.IndentedIsNoPortLine(t);
      }
      FilterNone(r.summary, RemotePortCheck.IsPortLine);
      FilterAppend([h], r.summary, RemotePortCheck.IsPortLine);
    }
  }

  /** The summary holds one header per port, in the order the ports were given, and no other line starting with "Port". */
  lemma SummaryHeaders(respond: (nat, string) -> Reply, n: nat, ports: seq<int>, lines: seq<string>)
    ensures Filter(PortsReport(respond, n, ports, lines).summary, RemotePortCheck.IsPortLine) == Map(ports, HeaderIn(lines))
  {
    forall k: nat, port | port in ports
      ensures SelectsOne(PortStep(respond, lines)(k, port), RemotePortCheck.IsPortLine, HeaderIn(lines)(port))
    {
      PortReportHeader(respond, k, port, lines);
    }
    FoldSelects(ports, n, PortStep(respond, lines), RemotePortCheck.IsPortLine, HeaderIn(lines));
  }

  /** The verdict is Success exactly when every port's header reads `free`. */
  lemma VerdictIffHeadersFree(respond: (nat, string) -> Reply, n: nat, ports: seq<int>)
    ensures Check(true, respond, n, ports).result.status == "Success" <==>
      forall port :: port in ports ==> HeaderIn(Listing(respond, n))(port) == Header(port, 0)
  {
    var lines := Listing(respond, n);
    forall port | port in ports
      ensures HeaderIn(lines)(port) == Header(port, 0) <==> Matches(lines, port) == []
    {
      HeaderSaysFree(port, |Matches(lines, port)|);
    }
  }

  ghost predicate IsTaskQuery(c: string)
  {
    exists pid :: IsDigitString(pid) && c == RemotePortCheck.TaskQuery(pid)
  }

  /** After the listing, the only commands started are `tasklist` queries for a PID. */
  lemma OnlyTaskQueries(respond: (nat, string) -> Reply, n: nat, ports: seq<int>)
    ensures Check(true, respond, n, ports).commands[0] == NetstatCommand
    ensures forall c :: c in Check(true, respond, n, ports).commands[1..] ==> IsTaskQuery(c)
  {
    var lines := Listing(respond, n);
    forall k: nat, port | port in ports
      ensures forall c :: c in PortStep(respond, lines)(k, port).commands ==> IsTaskQuery(c)
    {
      var m := Matches(lines, port);
      if m != [] {
        forall j: nat, s | s in m
          ensures forall c :: c in LineStep(respond)(j, s).commands ==> IsTaskQuery(c)
        {
          match NetstatPid(s)
          case None =>
          case Some(pid) =>
            assert LineStep(respond)(j, s).commands == [RemotePortCheck.TaskQuery(pid)];
        }
        FoldSends(m, k, LineStep(respond), IsTaskQuery);
      }
    }
    FoldSends(ports, n + 1, PortStep(respond, lines), IsTaskQuery);
    var cmds := Check(true, respond, n, ports).commands;
    assert cmds[1..] == PortsReport(respond, n + 1, ports, lines).commands;
  }

  // ---------------------------------------------------------------------------
  // The tool

  /** The inner loop: collapse each line, skip blank ones, keep those naming the port. */
  method FindMatches(lines: seq<string>, port: int) returns (matches: seq<string>)
    ensures matches == Matches(lines, port)
  {
    matches := [];
    for j := 0 to |lines|
      invariant matches == Filter(Collect(lines[..j], Entry), RemotePortCheck.Mentions(port))
    {
      var s := Collapsed(lines[j]);
      CollectNext(lines, j, Entry);
      if s != "" {
        FilterSnoc(Collect(lines[..j], Entry), s, RemotePortCheck.Mentions(port));
        if RemotePortCheck.ContainsPort(s, port) {
          matches := matches + [s];
        }
      } else {
        assert Collect(lines[..j], Entry) + [] == Collect(lines[..j], Entry);
      }
    }
    assert lines[..|lines|] == lines;
  }

  /** The lines `tasklist` printed, each indented. */
  method ShowTasks(taskLines: seq<string>) returns (added: seq<string>)
    ensures added == TaskSection(taskLines)
  {
    if taskLines == [] {
      return [NoInfoLine];
    }
    added := [TasklistLine];
    for j := 0 to |taskLines|
      invariant added == [TasklistLine] + Map(taskLines[..j], Indent)
    {
      MapSnoc(taskLines[..j], taskLines[j], Indent);
      PrefixSnoc(taskLines, j);
      AppendAssoc([TasklistLine], Map(taskLines[..j], Indent), [Indent(taskLines[j])]);
      added := added + [Indent(taskLines[j])];
    }
    assert taskLines[..|taskLines|] == taskLines;
  }

  /** One matching line: show it, and ask `tasklist` about its PID. */
  method DescribeLine(shell: LocalShell, s: string) returns (added: seq<string>)
    modifies shell`ran
    ensures added == LineReport(shell.respond, |old(shell.ran)|, s).summary
    ensures shell.ran == old(shell.ran) + LineReport(shell.respond, |old(shell.ran)|, s).commands
  {
    var pid := NetstatPid(s);
    if pid.Some? {
      var taskOut := shell.RunCmd(RemotePortCheck.TaskQuery(pid.value));
      var shown := ShowTasks(SplitLines(taskOut));
      added := ["  netstat: " + s] + shown;
    } else {
      added := ["  netstat: " + s, NoPidLine];
    }
  }

  /** The loop over one port's matching lines. */
  method DescribeLines(shell: LocalShell, matches: seq<string>) returns (added: seq<string>)
    modifies shell`ran
    ensures added == Fold(matches, |old(shell.ran)|, LineStep(shell.respond)).summary
    ensures shell.ran == old(shell.ran) + Fold(matches, |old(shell.ran)|, LineStep(shell.respond)).commands
  {
    var n := |shell.ran|;
    added := [];
    for j := 0 to |matches|
      invariant added == Fold(matches[..j], n, LineStep(shell.respond)).summary
      invariant shell.ran == old(shell.ran) + Fold(matches[..j], n, LineStep(shell.respond)).commands
    {
      ghost var k := |shell.ran|;
      var more := DescribeLine(shell, matches[j]);
      FoldNext(matches, j, n, LineStep(shell.respond), k);
      AppendAssoc(old(shell.ran), Fold(matches[..j], n, LineStep(shell.respond)).commands,
                  LineStep(shell.respond)(k, matches[j]).commands);
      added := added + more;
    }
    assert matches[..|matches|] == matches;
  }

  /** One port: its header, then its matching lines. */
  method InspectPort(shell: LocalShell, port: int, lines: seq<string>) returns (added: seq<string>, free: bool)
    modifies shell`ran
    ensures free <==> Matches(lines, port) == []
    ensures added == PortReport(shell.respond, |old(shell.ran)|, port, lines).summary
    ensures shell.ran == old(shell.ran) + PortReport(shell.respond, |old(shell.ran)|, port, lines).commands
  {
    var matches := FindMatches(lines, port);
    free := matches == [];
    if free {
      added := [Header(port, 0)];
    } else {
      var described := DescribeLines(shell, matches);
      added := [Header(port, |matches|)] + described;
    }
  }

  /** The loop over the ports, keeping the overall verdict. */
  method InspectPorts(shell: LocalShell, ports: seq<int>, lines: seq<string>) returns (summary: seq<string>, overallOk: bool)
    modifies shell`ran
    ensures overallOk <==> AllFree(lines, ports)
    ensures summary == PortsReport(shell.respond, |old(shell.ran)|, ports, lines).summary
    ensures shell.ran == old(shell.ran) + PortsReport(shell.respond, |old(shell.ran)|, ports, lines).commands
  {
    var n := |shell.ran|;
    summary := [];
    overallOk := true;
    for j := 0 to |ports|
      invariant overallOk <==> AllFree(lines, ports[..j])
      invariant summary == Fold(ports[..j], n, PortStep(shell.respond, lines)).summary
      invariant shell.ran == old(shell.ran) + Fold(ports[..j], n, PortStep(shell.respond, lines)).commands
    {
      ghost var k := |shell.ran|;
      var more, free := InspectPort(shell, ports[j], lines);
      AllFreeNext(lines, ports, j);
      FoldNext(ports, j, n, PortStep(shell.respond, lines), k);
      AppendAssoc(old(shell.ran), Fold(ports[..j], n, PortStep(shell.respond, lines)).commands,
                  PortStep(shell.respond, lines)(k, ports[j]).commands);
      if !free {
        overallOk := false;
      }
      summary := summary + more;
    }
    assert ports[..|ports|] == ports;
  }

  /** `run(ports)`: off Windows nothing runs; otherwise the listing, then the ports. */
  method Run(windows: bool, shell: LocalShell, ports: seq<int>) returns (result: ToolResult)
    modifies shell`ran
    ensures result == Check(windows, shell.respond, |old(shell.ran)|, ports).result
    ensures shell.ran == old(shell.ran) + Check(windows, shell.respond, |old(shell.ran)|, ports).commands
  {
    if !windows {
      return ToolResult(ToolName, "Failed", NetstatCommand, "", NotWindowsMessage);
    }
    var netstatOut := shell.RunCmd(NetstatCommand);
    ghost var listed := shell.ran;
    var summary, overallOk := InspectPorts(shell, ports, SplitLines(netstatOut));
    AppendAssoc(old(shell.ran), [NetstatCommand], PortsReport(shell.respond, |listed|, ports, SplitLines(netstatOut)).commands);
    var status := if overallOk then "Success" else "Failed";
    result := ToolResult(ToolName, status, ReportedCommand, Details(ports), Join("\n", summary));
  }
}
