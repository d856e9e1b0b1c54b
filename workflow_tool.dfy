/**
 * The multi-server workflow tool (Tools/remote_workflow_tool.py): picks the
 * inventory records the requested targets name, runs the per-server workflow
 * on each in inventory order, and reports one result per server, an overall
 * verdict and a text summary.
 */
module WorkflowTool {
  import opened Wrappers
  import opened Text
  import opened Values
  import opened Sequences
  import opened ConfigLoader
  import opened RemoteExecutor
  import opened WorkflowRunner

  function ElementsOf(xs: seq<string>): set<string>
  {
    set t | t in xs
  }

  /** `[str(item) for item in items]`. */
  function Rendered(items: seq<Value>): (r: seq<string>)
    ensures |r| == |items| && forall i :: 0 <= i < |items| ==> r[i] == PyStr(items[i])
  {
    seq(|items|, i requires 0 <= i < |items| => PyStr(items[i]))
  }

  /**
   * `set(_normalize_targets(targets))`: a comma-separated string, a list or
   * the keys of a dictionary, each piece stripped and the blank ones dropped;
   * nothing for `None` or a scalar.
   */
  function TargetSet(targets: Value): (r: set<string>)
    ensures targets.VNone? ==> r == {}
  {
    match targets
    case VStr(s) => TextTargets(s)
    case VList(items) => ListTargets(items)
    case VDict(fields) => KeyTargets(fields.Keys)
    case _ => {}
  }

  /** The comma-separated pieces of a string, each stripped, the blank ones dropped. */
  function TextTargets(s: string): set<string>
  {
    ElementsOf(NonBlankStripped(Split(s, ',')))
  }

  /** The elements of a list rendered with `str`, each stripped, the blank ones dropped. */
  function ListTargets(items: seq<Value>): set<string>
  {
    ElementsOf(NonBlankStripped(Rendered(items)))
  }

  /** Iterating a dictionary yields its keys: each stripped, the blank ones dropped. */
  function KeyTargets(keys: set<string>): set<string>
  {
    CollectSet(keys, StrippedPart)
  }

  /** Every target is non-empty and has no surrounding whitespace. */
  lemma TargetsTrimmed(targets: Value)
    ensures forall t :: t in TargetSet(targets) ==> Trimmed(t)
  {
    match targets
    case VStr(s) =>
    case VList(items) =>
    case VDict(fields) =>
      forall t | t in KeyTargets(fields.Keys)
        ensures Trimmed(t)
      {
        var k :| k in fields.Keys && StrippedPart(k) == Some(t);
        StripIdempotent(k);
      }
    case _ =>
  }

  /** A comma-separated list of trimmed names without commas reads back as exactly those names. */
  lemma CommaListReadsBack(names: seq<string>)
    requires names != []
    requires forall t :: t in names ==> Trimmed(t) && ',' !in t
    ensures TargetSet(VStr(Join(",", names))) == ElementsOf(names)
  {
    SplitJoin(names, ',');
    NonBlankStrippedKeeps(names);
    TargetSetOfText(Join(",", names));
  }

  lemma TargetSetOfText(s: string)
    ensures TargetSet(VStr(s)) == ElementsOf(NonBlankStripped(Split(s, ',')))
  {
  }

  /** A list of trimmed names reads back as exactly those names. */
  lemma NameListReadsBack(items: seq<Value>, names: seq<string>)
    requires |items| == |names| && forall i :: 0 <= i < |items| ==> items[i] == VStr(names[i])
    requires forall t :: t in names ==> Trimmed(t)
    ensures TargetSet(VList(items)) == ElementsOf(names)
  {
    assert Rendered(items) == names;
    NonBlankStrippedKeeps(names);
    TargetSetOfList(items);
  }

  lemma TargetSetOfList(items: seq<Value>)
    ensures TargetSet(VList(items)) == ElementsOf(NonBlankStripped(Rendered(items)))
  {
  }

  /** `server.get(field)`. */
  function Field(server: ServerRecord, field: string): Value
  {
    if field in server then VStr(server[field]) else VNone
  }

  /** `{str(name or host).strip().lower(), str(host).strip().lower()}`; a missing field renders as "none". */
  function Candidates(server: ServerRecord): set<string>
  {
    {Lower(Strip(PyStr(Or(Field(server, "name"), Field(server, "host"))))), Lower(Strip(PyStr(Field(server, "host"))))}
  }

  /** `_matches_target(server, targets)`. */
  predicate MatchesTarget(server: ServerRecord, targets: set<string>)
  {
    exists t :: t in targets && Lower(t) in Candidates(server)
  }

  /** A target naming the server's name, in any letter case, selects it. */
  lemma NameSelects(server: ServerRecord, targets: set<string>, t: string)
    requires "name" in server && server["name"] != ""
    requires t in targets && Lower(t) == Lower(Strip(server["name"]))
    ensures MatchesTarget(server, targets)
  {
    assert Lower(t) in Candidates(server);
  }

  /** A target naming the server's host, in any letter case, selects it. */
  lemma HostSelects(server: ServerRecord, targets: set<string>, t: string)
    requires "host" in server
    requires t in targets && Lower(t) == Lower(Strip(server["host"]))
    ensures MatchesTarget(server, targets)
  {
    assert Lower(t) in Candidates(server);
  }

  function Targeted(targets: set<string>): ServerRecord -> bool
  {
    s => MatchesTarget(s, targets)
  }

  /** The records `run` works on: all of them, or those a non-empty target set names, in inventory order. */
  function Selected(servers: seq<ServerRecord>, targets: set<string>): (r: seq<ServerRecord>)
    ensures targets == {} ==> r == servers
  {
    if targets == {} then servers else Filter(servers, Targeted(targets))
  }

  /** A stage result that does not spoil the verdict: not a dictionary, no status, or Success or Skipped. */
  predicate StageOk(v: Value)
  {
    !v.VDict? || !Truthy(Get(v.fields, "status"))
    || Get(v.fields, "status") == VStr("Success") || Get(v.fields, "status") == VStr("Skipped")
  }

  /** `_is_success_result(result)`: the loop that returns False at the first failing stage. */
  method IsSuccessResult(result: Entries) returns (ok: bool)
    ensures ok <==> forall i :: 0 <= i < |result| ==> StageOk(result[i].1)
  {
    for i := 0 to |result|
      invariant forall j :: 0 <= j < i ==> StageOk(result[j].1)
    {
      var value := result[i].1;
      if value.VDict? {
        var status := Get(value.fields, "status");
        if Truthy(status) && status != VStr("Success") && status != VStr("Skipped") {
          return false;
        }
      }
    }
    return true;
  }

  predicate Succeeded(result: Entries)
  {
    forall i :: 0 <= i < |result| ==> StageOk(result[i].1)
  }

  /** `server.get("name", server.get("host", "unknown"))`. */
  function ErrorName(server: ServerRecord): Value
  {
    if "name" in server then VStr(server["name"])
    else if "host" in server then VStr(server["host"])
    else VStr("unknown")
  }

  /** The result recorded when `run_for_server` raises. */
  function ExecutionError(server: ServerRecord, message: string): (e: Entries)
    ensures !Succeeded(e)
  {
    var e := [("server", ErrorName(server)), ("error", VDict(map["status" := VStr("Failed"), "details" := VStr("Execution error: " + message)]))];
    assert !StageOk(e[1].1);
    e
  }

  /** The result one server contributes. */
  function ServerOutcome(settings: Value, server: ServerRecord, link: Link, stages: Stages): (e: Entries)
    ensures e != [] && e[0].0 == "server"
  {
    match Workflow(settings, server, link.connectError, stages)
    case Success(entries) => entries
    case Failure(message) => ExecutionError(server, message)
  }

  /** The results of the servers in order, one each. */
  function Outcomes(settings: Value, servers: seq<ServerRecord>, links: ServerRecord -> Link, stages: Stages): (r: seq<Entries>)
    ensures |r| == |servers|
  {
    if servers == [] then []
    else
      var last := servers[|servers| - 1];
      Outcomes(settings, servers[..|servers| - 1], links, stages) + [ServerOutcome(settings, last, links(last), stages)]
  }

  /** The results of a prefix one longer. */
  lemma OutcomesNext(settings: Value, servers: seq<ServerRecord>, links: ServerRecord -> Link, stages: Stages, i: nat)
    requires i < |servers|
    ensures Outcomes(settings, servers[..i + 1], links, stages) ==
      Outcomes(settings, servers[..i], links, stages) + [ServerOutcome(settings, servers[i], links(servers[i]), stages)]
  {
    assert servers[..i + 1][..i] == servers[..i];
  }

  predicate AllSucceeded(results: seq<Entries>)
  {
    forall i :: 0 <= i < |results| ==> Succeeded(results[i])
  }

  // ---------------------------------------------------------------------------
  // The summary text
  // ---------------------------------------------------------------------------

  /** The lines one entry contributes: its status (and details when truthy), or its value. */
  function ItemLines(key: string, value: Value): (lines: seq<string>)
    ensures 1 <= |lines| <= 2
  {
    if value.VDict? then
      ["  " + key + ": " + PyStr(GetOr(value.fields, "status", VStr("n/a")))]
      + if Truthy(Get(value.fields, "details")) then ["    details: " + PyStr(Get(value.fields, "details"))] else []
    else ["  " + key + ": " + PyStr(value)]
  }

  /** A details line appears exactly when the stage's details are truthy. */
  lemma DetailsShownIffTruthy(key: string, d: Dict)
    ensures |ItemLines(key, VDict(d))| == 2 <==> Truthy(Get(d, "details"))
  {
  }

  /** The indented lines of one result; the "server" entry is never listed. */
  function BodyLines(result: Entries): seq<string>
  {
    if result == [] then []
    else
      var last := result[|result| - 1];
      BodyLines(result[..|result| - 1]) + if last.0 == "server" then [] else ItemLines(last.0, last.1)
  }

  function Header(result: Entries): string
  {
    "Server: " + PyStr(Lookup(result, "server").GetOr(VStr("<unknown>")))
  }

  lemma HeaderIsHeader(result: Entries)
    ensures IsHeader(Header(result))
  {
    var name := PyStr(Lookup(result, "server").GetOr(VStr("<unknown>")));
    assert ("Server: " + name)[..8] == "Server: ";
  }

  /** One result: its header, its entries, then a blank line. */
  function ResultLines(result: Entries): seq<string>
  {
    [Header(result)] + BodyLines(result) + [""]
  }

  function SummaryLines(results: seq<Entries>): seq<string>
  {
    if results == [] then [] else SummaryLines(results[..|results| - 1]) + ResultLines(results[|results| - 1])
  }

  /** `_format_summary(results)`. */
  function Summary(results: seq<Entries>): string
  {
    if results == [] then "No servers processed." else Strip(Join("\n", SummaryLines(results)))
  }

  /** A result holding only its server name lists nothing under its header. */
  lemma ServerOnlyResult(name: Value)
    ensures ResultLines([("server", name)]) == [Header([("server", name)]), ""]
  {
    assert [("server", name)][..0] == [];
    assert BodyLines([("server", name)]) == [];
  }

  predicate IsHeader(line: string)
  {
    StartsWith(line, "Server: ")
  }

  lemma {:induction false} BodyLinesIndented(result: Entries)
    ensures forall l :: l in BodyLines(result) ==> |l| >= 1 && l[0] == ' '
    decreases |result|
  {
    if result != [] {
      BodyLinesIndented(result[..|result| - 1]);
      var last := result[|result| - 1];
      ItemLinesIndented(last.0, last.1);
    }
  }

  lemma ItemLinesIndented(key: string, value: Value)
    ensures forall l :: l in ItemLines(key, value) ==> |l| >= 1 && l[0] == ' '
  {
  }

  lemma IndentedIsNoHeader(l: string)
    requires |l| >= 1 && l[0] == ' '
    ensures !IsHeader(l)
  {
    if |l| >= 8 {
      assert l[..8][0] == ' ';
    }
  }

  /** Of one result's lines only the first is a header. */
  lemma ResultHeaders(result: Entries)
    ensures Filter(ResultLines(result), IsHeader) == [Header(result)]
  {
    assert ResultLines(result) == [Header(result)] + BodyLines(result) + [""];
    BodyLinesIndented(result);
    assert Filter(BodyLines(result), IsHeader) == [] by {
      forall l | l in BodyLines(result)
        ensures !IsHeader(l)
      {
        IndentedIsNoHeader(l);
      }
      FilterNone(BodyLines(result), IsHeader);
    }
    assert Filter([""], IsHeader) == [] by {
      assert !IsHeader("");
    }
    assert Filter([Header(result)], IsHeader) == [Header(result)] by {
      HeaderIsHeader(result);
      FilterSnoc([], Header(result), IsHeader);
      assert [] + [Header(result)] == [Header(result)];
    }
    FilterAppend([Header(result)], BodyLines(result), IsHeader);
    FilterAppend([Header(result)] + BodyLines(result), [""], IsHeader);
  }

  /** Every result contributes exactly one header line to the summary. */
  lemma {:induction false} OneHeaderPerResult(results: seq<Entries>)
    ensures |Filter(SummaryLines(results), IsHeader)| == |results|
    decreases |results|
  {
    if results != [] {
      var init, last := results[..|results| - 1], results[|results| - 1];
      OneHeaderPerResult(init);
      ResultHeaders(last);
      FilterAppend(SummaryLines(init), ResultLines(last), IsHeader);
    }
  }

  lemma BodyLinesSnoc(result: Entries, j: nat)
    requires j < |result|
    ensures BodyLines(result[..j + 1]) ==
      BodyLines(result[..j]) + if result[j].0 == "server" then [] else ItemLines(result[j].0, result[j].1)
  {
    assert result[..j + 1][..j] == result[..j];
  }

  /** The inner loop of `_format_summary` over one result's entries. */
  method AppendResultLines(lines: seq<string>, result: Entries) returns (out: seq<string>)
    ensures out == lines + ResultLines(result)
  {
    out := AppendHeader(lines, result);
    out := AppendBody(out, result);
    out := out + [""];
    AppendThree(lines, [Header(result)], BodyLines(result), [""]);
  }

  /** The entries of one result, in order. */
  method AppendBody(lines: seq<string>, result: Entries) returns (out: seq<string>)
    ensures out == lines + BodyLines(result)
  {
    out := lines;
    assert result[..0] == [];
    for j := 0 to |result|
      invariant out == lines + BodyLines(result[..j])
    {
      BodyLinesSnoc(result, j);
      out := AppendEntry(out, result[j].0, result[j].1);
    }
    assert result[..|result|] == result;
  }

  /** The header line: the result's server name, or `<unknown>`. */
  method AppendHeader(lines: seq<string>, result: Entries) returns (out: seq<string>)
    ensures out == lines + [Header(result)]
  {
    var name := Lookup(result, "server").GetOr(VStr("<unknown>"));
    out := lines + ["Server: " + PyStr(name)];
  }

  /** One entry of a result: the "server" entry is skipped, every other one is listed. */
  method AppendEntry(lines: seq<string>, key: string, value: Value) returns (out: seq<string>)
    ensures out == lines + if key == "server" then [] else ItemLines(key, value)
  {
    out := lines;
    if key != "server" {
      out := AppendItem(out, key, value);
    }
  }

  /** The lines of one entry: the status and the details of a stage, or the value itself. */
  method AppendItem(lines: seq<string>, key: string, value: Value) returns (out: seq<string>)
    ensures out == lines + ItemLines(key, value)
  {
    if value.VDict? {
      out := lines + ["  " + key + ": " + PyStr(GetOr(value.fields, "status", VStr("n/a")))];
      var details := Get(value.fields, "details");
      if Truthy(details) {
        out := out + ["    details: " + PyStr(details)];
      }
    } else {
      out := lines + ["  " + key + ": " + PyStr(value)];
    }
  }

  /** `_format_summary(results)`: appends each result's lines, then joins and strips. */
  method FormatSummary(results: seq<Entries>) returns (text: string)
    ensures text == Summary(results)
  {
    if results == [] {
      return "No servers processed.";
    }
    var lines: seq<string> := [];
    for i := 0 to |results|
      invariant lines == SummaryLines(results[..i])
    {
      assert results[..i + 1][..i] == results[..i];
      lines := AppendResultLines(lines, results[i]);
    }
    assert results[..|results|] == results;
    return Strip(Join("\n", lines));
  }

  // ---------------------------------------------------------------------------
  // The tool
  // ---------------------------------------------------------------------------

  function Command(settingsPath: string, serversPath: string): string
  {
    "remote_workflow(settings=" + settingsPath + ", servers=" + serversPath + ")"
  }

  /** `_failure(message, command)`. */
  function FailureReport(message: string, command: string): Dict
  {
    map["status" := VStr("Failed"), "command" := VStr(command), "output" := VStr(message), "details" := VStr(message)]
  }

  const NoMatch := "No servers matched the requested target list."

  function ResultValues(results: seq<Entries>): seq<Value>
  {
    seq(|results|, i requires 0 <= i < |results| => VDict(EntriesDict(results[i])))
  }

  function Details(count: nat): string
  {
    if count > 0 then "Remote workflow executed for " + NatToString(count) + " server(s)."
    else "Remote workflow executed with no matching servers."
  }

  /**
   * `run(settings_path, servers_path, target_servers)`, the configuration
   * files given already loaded (or the reason they could not be).
   */
  function WorkflowReport(settingsPath: string, serversPath: string, loaded: Result<(Value, seq<ServerRecord>)>,
                          targetServers: Value, links: ServerRecord -> Link, stages: Stages): Dict
  {
    var command := Command(settingsPath, serversPath);
    match loaded
    case Failure(e) => FailureReport("Unable to load configuration: " + e, command)
    case Success(config) => LoadedReport(command, config.0, config.1, targetServers, links, stages)
  }

  /** What `run` reports once the configuration is loaded: a failure when the targets name no server. */
  function LoadedReport(command: string, settings: Value, servers: seq<ServerRecord>,
                        targetServers: Value, links: ServerRecord -> Link, stages: Stages): Dict
  {
    TargetedReport(command, settings, servers, TargetSet(targetServers), links, stages)
  }

  /** What `run` reports once the targets are known: a failure when they name no server. */
  function TargetedReport(command: string, settings: Value, servers: seq<ServerRecord>,
                          targets: set<string>, links: ServerRecord -> Link, stages: Stages): Dict
  {
    if targets != {} && Selected(servers, targets) == [] then FailureReport(NoMatch, command)
    else SuccessReport(command, Outcomes(settings, Selected(servers, targets), links, stages))
  }

  /** The dictionary `run` returns once the servers ran. */
  function SuccessReport(command: string, results: seq<Entries>): Dict
  {
    map["status" := VStr(if AllSucceeded(results) then "Success" else "Failed"),
        "command" := VStr(command),
        "output" := VStr(Summary(results)),
        "details" := VStr(Details(|results|)),
        "results" := VList(ResultValues(results))]
  }

  /** The i-th result is the i-th server's. */
  lemma {:induction false} OutcomeAt(settings: Value, servers: seq<ServerRecord>, links: ServerRecord -> Link, stages: Stages, i: nat)
    requires i < |servers|
    ensures Outcomes(settings, servers, links, stages)[i] == ServerOutcome(settings, servers[i], links(servers[i]), stages)
    decreases |servers|
  {
    if i < |servers| - 1 {
      OutcomeAt(settings, servers[..|servers| - 1], links, stages, i);
    }
  }

  /**
   * Once servers are selected, the run reports one result per selected
   * server, in inventory order.
   */
  lemma ReportFollowsSelection(settingsPath: string, serversPath: string, settings: Value, servers: seq<ServerRecord>,
                               targetServers: Value, links: ServerRecord -> Link, stages: Stages)
    requires TargetSet(targetServers) == {} || Selected(servers, TargetSet(targetServers)) != []
    ensures WorkflowReport(settingsPath, serversPath, Success((settings, servers)), targetServers, links, stages) ==
      SuccessReport(Command(settingsPath, serversPath), Outcomes(settings, Selected(servers, TargetSet(targetServers)), links, stages))
  {
  }

  /** The report lists every result and succeeds exactly when each server's result does. */
  lemma SuccessReportVerdict(command: string, results: seq<Entries>)
    ensures var report := SuccessReport(command, results);
      && "results" in report && "status" in report
      && |report["results"].items| == |results|
      && (forall i :: 0 <= i < |results| ==> report["results"].items[i] == VDict(EntriesDict(results[i])))
      && (report["status"] == VStr("Success") <==> forall i :: 0 <= i < |results| ==> Succeeded(results[i]))
  {
  }

  /** Targets that name no inventory record fail the run before any server is contacted. */
  lemma NoMatchFails(command: string, settings: Value, servers: seq<ServerRecord>,
                     targets: set<string>, links: ServerRecord -> Link, stages: Stages)
    requires targets != {}
    requires forall s :: s in servers ==> !MatchesTarget(s, targets)
    ensures TargetedReport(command, settings, servers, targets, links, stages) == FailureReport(NoMatch, command)
  {
    NothingInIsEmpty(Selected(servers, targets));
  }

  /** `run`: selects the servers, runs each one's workflow and folds the verdict. */
  method Run(settingsPath: string, serversPath: string, loaded: Result<(Value, seq<ServerRecord>)>,
             targetServers: Value, links: ServerRecord -> Link, stages: Stages) returns (report: Dict)
    ensures report == WorkflowReport(settingsPath, serversPath, loaded, targetServers, links, stages)
  {
    var command := Command(settingsPath, serversPath);
    if loaded.Failure? {
      return FailureReport("Unable to load configuration: " + loaded.error, command);
    }
    report := RunLoaded(command, loaded.value.0, loaded.value.1, targetServers, links, stages);
  }

  /** `run` once the configuration is loaded: select the targeted servers, then run them. */
  method RunLoaded(command: string, settings: Value, servers: seq<ServerRecord>,
                   targetServers: Value, links: ServerRecord -> Link, stages: Stages) returns (report: Dict)
    ensures report == LoadedReport(command, settings, servers, targetServers, links, stages)
  {
    var targets := TargetSet(targetServers);
    report := RunTargeted(command, settings, servers, targets, links, stages);
  }

  /** `run` once the targets are known: select the servers they name, then run them. */
  method RunTargeted(command: string, settings: Value, servers: seq<ServerRecord>,
                     targets: set<string>, links: ServerRecord -> Link, stages: Stages) returns (report: Dict)
    ensures report == TargetedReport(command, settings, servers, targets, links, stages)
  {
    var selected := SelectTargets(servers, targets);
    if targets != {} && selected == [] {
      return FailureReport(NoMatch, command);
    }
    report := RunSelected(command, settings, selected, links, stages);
  }

  /** `servers = [s for s in servers if self._matches_target(s, targets)]` when there are targets. */
  method SelectTargets(servers: seq<ServerRecord>, targets: set<string>) returns (selected: seq<ServerRecord>)
    ensures selected == Selected(servers, targets)
  {
    selected := servers;
    if targets != {} {
      selected := Select(servers, Targeted(targets));
    }
  }

  /** The part of `run` after the selection: run each server, summarise, and report. */
  method RunSelected(command: string, settings: Value, servers: seq<ServerRecord>, links: ServerRecord -> Link, stages: Stages)
    returns (report: Dict)
    ensures report == SuccessReport(command, Outcomes(settings, servers, links, stages))
  {
    var aggregated, overallSuccess := RunEach(settings, servers, links, stages);
    var output := FormatSummary(aggregated);
    report := map["status" := VStr(if overallSuccess then "Success" else "Failed"),
                  "command" := VStr(command),
                  "output" := VStr(output),
                  "details" := VStr(Details(|aggregated|)),
                  "results" := VList(ResultValues(aggregated))];
  }

  /** The loop of `run`: one result per server, and the flag that any of them failed clears. */
  method RunEach(settings: Value, servers: seq<ServerRecord>, links: ServerRecord -> Link, stages: Stages)
    returns (aggregated: seq<Entries>, overallSuccess: bool)
    ensures aggregated == Outcomes(settings, servers, links, stages)
    ensures overallSuccess <==> AllSucceeded(aggregated)
  {
    aggregated := [];
    overallSuccess := true;
    for i := 0 to |servers|
      invariant aggregated == Outcomes(settings, servers[..i], links, stages)
      invariant overallSuccess <==> AllSucceeded(aggregated)
    {
      var result, ok := RunOne(settings, servers[i], links(servers[i]), stages);
      AllSucceededSnoc(aggregated, result);
      OutcomesNext(settings, servers, links, stages, i);
      aggregated := aggregated + [result];
      if !ok {
        overallSuccess := false;
      }
    }
    assert servers[..|servers|] == servers;
  }

  lemma AllSucceededSnoc(results: seq<Entries>, result: Entries)
    ensures AllSucceeded(results + [result]) <==> AllSucceeded(results) && Succeeded(result)
  {
    assert (results + [result])[|results|] == result;
    assert forall j :: 0 <= j < |results| ==> (results + [result])[j] == results[j];
  }

  /** One pass of the loop body: the server's workflow, an exception turned into an error result, and its verdict. */
  method RunOne(settings: Value, server: ServerRecord, link: Link, stages: Stages) returns (result: Entries, ok: bool)
    ensures result == ServerOutcome(settings, server, link, stages)
    ensures ok <==> Succeeded(result)
  {
    var r: Result<Entries>;
    ghost var session: Option<Executor>;
    r, session := RunForServer(settings, server, link, stages);
    result := if r.Success? then r.value else ExecutionError(server, r.error);
    ok := IsSuccessResult(result);
  }
}
