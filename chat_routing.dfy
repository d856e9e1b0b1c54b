/**
 * The deterministic routing of the remote workflow chatbot
 * (RemoteAgent/chatbot.py): the keyword-to-tool plan table, whole-word
 * keyword matching, task target resolution, and server selection by number,
 * name or mention.
 */
module ChatRouting {
  import opened Wrappers
  import opened Text
  import opened Values
  import opened Sequences

  const MaxHistoryMessages: nat := 12
  const MaxSelectionAttempts: nat := 3
  const AllKeywords: seq<string> := ["all", "every", "entire", "both"]

  /** One row of the plan table: if any keyword matches, these tools run in this order. */
  datatype KeywordRow = KeywordRow(keywords: seq<string>, tools: seq<string>)

  const KeywordToolSequences: seq<KeywordRow> := [
    KeywordRow(["disk", "storage"], ["remote_disk_check"]),
    KeywordRow(["ram", "memory"], ["remote_ram_check"]),
    KeywordRow(["port", "ports"], ["remote_port_check"]),
    KeywordRow(["prereq", "prerequisite", "pre-req"],
      ["remote_disk_check", "remote_ram_check", "remote_java_install", "remote_port_check"]),
    KeywordRow(["java"], ["remote_java_install"]),
    KeywordRow(["uninstall", "remove"], ["remote_tomcat_stop", "remote_tomcat_uninstall"]),
    KeywordRow(["start"], ["remote_tomcat_start"]),
    KeywordRow(["stop", "shutdown"], ["remote_tomcat_stop"]),
    KeywordRow(["validate", "validation", "health"], ["remote_tomcat_validation"]),
    KeywordRow(["workflow"], ["remote_workflow"]),
    KeywordRow(["install", "setup", "deploy"],
      ["remote_disk_check", "remote_ram_check", "remote_java_install", "remote_port_check",
       "remote_tomcat_install", "remote_tomcat_start", "remote_tomcat_validation"])
  ]

  // ---------------------------------------------------------------------------
  // Keyword matching

  /** A regular-expression word character (taken as ASCII). */
  predicate IsWordChar(c: char)
  {
    ('a' <= c <= 'z') || ('A' <= c <= 'Z') || ('0' <= c <= '9') || c == '_'
  }

  /** `token` occurs at `i` with a word boundary on both sides. */
  predicate WholeWordAt(text: string, token: string, i: int)
  {
    OccursAt(text, token, i)
    && (i == 0 || !IsWordChar(text[i - 1]))
    && (i + |token| == |text| || !IsWordChar(text[i + |token|]))
  }

  /** `re.search(rf"\b{token}\b", text)` for a token made of word characters. */
  predicate ContainsWord(text: string, token: string)
  {
    exists i :: 0 <= i <= |text| - |token| && WholeWordAt(text, token, i)
  }

  /** `re.fullmatch(r"[a-z0-9]+", token)`. */
  predicate IsPlainToken(token: string)
  {
    |token| > 0 && forall i :: 0 <= i < |token| ==> ('a' <= token[i] <= 'z') || ('0' <= token[i] <= '9')
  }

  /** `_keyword_matches(text, keyword)`. */
  predicate KeywordMatches(text: string, keyword: string)
  {
    var token := Lower(Strip(keyword));
    if token == [] then false
    else if IsPlainToken(token) then ContainsWord(text, token)
    else Contains(text, token)
  }

  /** Whole-word matching is the stricter rule: a keyword that matches also occurs as a substring. */
  lemma KeywordMatchIsSubstring(text: string, keyword: string)
    requires KeywordMatches(text, keyword)
    ensures Contains(text, Lower(Strip(keyword)))
  {
    var token := Lower(Strip(keyword));
    if IsPlainToken(token) {
      var i :| 0 <= i <= |text| - |token| && WholeWordAt(text, token, i);
      assert OccursAt(text, token, i);
    }
  }

  /** A plain token is its own normal form, so it is matched as written. */
  lemma PlainTokenNormal(token: string)
    requires IsPlainToken(token)
    ensures Lower(Strip(token)) == token
  {
    assert !IsSpace(token[0]) && !IsSpace(token[|token| - 1]);
    StripUntrimmed(token);
    assert forall i :: 0 <= i < |token| ==> LowerChar(token[i]) == token[i];
  }

  /** The boundary rule in action: "uninstall" does not trigger the `install` row. */
  lemma UninstallIsNotInstall()
    ensures !KeywordMatches("uninstall", "install")
  {
    assert IsPlainToken("install");
    PlainTokenNormal("install");
    NoWholeWordInstall();
  }

  lemma NoWholeWordInstall()
    ensures !ContainsWord("uninstall", "install")
  {
    var text, token := "uninstall", "install";
    assert !WholeWordAt(text, token, 0) by { assert text[0] != token[0]; }
    assert !WholeWordAt(text, token, 1) by { assert text[1] != token[0]; }
    assert !WholeWordAt(text, token, 2) by { assert IsWordChar(text[1]); }
  }


  /** `_mentions_all(text)`: one of the "all" words appears as a whole word. */
  predicate MentionsAll(text: string)
  {
    exists k :: 0 <= k < |AllKeywords| && ContainsWord(text, AllKeywords[k])
  }

  // ---------------------------------------------------------------------------
  // The keyword plan

  predicate RowMatches(text: string, row: KeywordRow)
  {
    exists k :: 0 <= k < |row.keywords| && KeywordMatches(text, row.keywords[k])
  }

  /** Whether a row of the table fires for the given normalized request. */
  function RowHit(text: string): KeywordRow -> bool
  {
    row => RowMatches(text, row)
  }

  /** The tools of the rows that fire, concatenated in table order (duplicates kept). */
  function MatchedRowTools(rows: seq<KeywordRow>, hit: KeywordRow -> bool): seq<string>
    decreases |rows|
  {
    if rows == [] then []
    else
      var last := rows[|rows| - 1];
      MatchedRowTools(rows[..|rows| - 1], hit) + (if hit(last) then last.tools else [])
  }

  /** A tool is listed exactly when some row that fires names it. */
  lemma {:induction false} MatchedRowToolsExact(rows: seq<KeywordRow>, hit: KeywordRow -> bool, tool: string)
    ensures tool in MatchedRowTools(rows, hit) <==> exists r :: r in rows && hit(r) && tool in r.tools
    decreases |rows|
  {
    if rows != [] {
      var init := rows[..|rows| - 1];
      MatchedRowToolsExact(init, hit, tool);
      assert rows == init + [rows[|rows| - 1]];
      assert forall r :: r in rows <==> r in init || r == rows[|rows| - 1];
    }
  }

  function Identity(s: string): string
  {
    s
  }

  /** The tools a request selects: each once, in table order of first appearance. */
  function MatchedTools(text: string): (tools: seq<string>)
    ensures forall i, j :: 0 <= i < j < |tools| ==> tools[i] != tools[j]
  {
    DedupeBy(MatchedRowTools(KeywordToolSequences, RowHit(text)), Identity)
  }

  lemma InKeysOfIdentity(xs: seq<string>, x: string)
    ensures x in KeysOf(xs, Identity) <==> x in xs
  {
    if x in xs {
      assert Identity(x) in KeysOf(xs, Identity);
    }
  }

  /** One more name keeps the names seen so far, adding it when it is new. */
  lemma DedupeIdentitySnoc(xs: seq<string>, x: string, seen: seq<string>)
    requires seen == DedupeBy(xs, Identity)
    ensures DedupeBy(xs + [x], Identity) == if x in seen then seen else seen + [x]
  {
    DedupeSnoc(xs, x, Identity);
    DedupeKeepsEveryKey(xs, Identity);
    InKeysOfIdentity(xs, x);
    InKeysOfIdentity(seen, x);
  }

  /** A tool is planned exactly when a row naming it has a matching keyword. */
  lemma MatchedToolsExact(text: string, tool: string)
    ensures tool in MatchedTools(text) <==>
      exists r :: r in KeywordToolSequences && RowMatches(text, r) && tool in r.tools
  {
    var all := MatchedRowTools(KeywordToolSequences, RowHit(text));
    var planned := MatchedTools(text);
    DedupeKeepsEveryKey(all, Identity);
    InKeysOfIdentity(all, tool);
    InKeysOfIdentity(planned, tool);
    assert tool in planned <==> tool in all;
    MatchedRowToolsExact(KeywordToolSequences, RowHit(text), tool);
  }

  /** One task of a keyword plan: the tool on every selected server with no parameters. */
  function KeywordTask(tool: string): Value
  {
    VDict(map["tool" := VStr(tool), "server" := VStr("all"), "params" := VDict(map[])])
  }

  function KeywordTasks(tools: seq<string>): (tasks: seq<Value>)
    ensures |tasks| == |tools|
    ensures forall i :: 0 <= i < |tools| ==> tasks[i] == KeywordTask(tools[i])
  {
    seq(|tools|, i requires 0 <= i < |tools| => KeywordTask(tools[i]))
  }

  /** `_keyword_plan(request)` as a value. */
  function KeywordPlanOf(request: string): (plan: Option<Value>)
    ensures Lower(request) == [] ==> plan.None?
    ensures plan.Some? ==> MatchedTools(Lower(request)) != []
    ensures plan.None? && Lower(request) != [] ==> MatchedTools(Lower(request)) == []
  {
    var normalized := Lower(request);
    if normalized == [] then None
    else
      var tools := MatchedTools(normalized);
      if tools == [] then None
      else Some(VDict(map["tasks" := VList(KeywordTasks(tools)), "notes" := VStr("keyword-plan")]))
  }

  /**
   * The loop of `_keyword_plan` over a table: every tool of every matching row,
   * appended unless already planned.
   */
  method CollectTools(rows: seq<KeywordRow>, hit: KeywordRow -> bool) returns (matched: seq<string>)
    ensures matched == DedupeBy(MatchedRowTools(rows, hit), Identity)
  {
    matched := [];
    var i := 0;
    while i < |rows|
      invariant 0 <= i <= |rows|
      invariant matched == DedupeBy(MatchedRowTools(rows[..i], hit), Identity)
    {
      var row := rows[i];
      assert rows[..i + 1] == rows[..i] + [row];
      MatchedRowToolsSnoc(rows[..i], row, hit);
      if hit(row) {
        matched := AddNewTools(matched, MatchedRowTools(rows[..i], hit), row.tools);
      } else {
        assert MatchedRowTools(rows[..i], hit) + [] == MatchedRowTools(rows[..i], hit);
      }
      i := i + 1;
    }
    assert rows[..i] == rows;
  }

  lemma MatchedRowToolsSnoc(rows: seq<KeywordRow>, row: KeywordRow, hit: KeywordRow -> bool)
    ensures MatchedRowTools(rows + [row], hit) == MatchedRowTools(rows, hit) + (if hit(row) then row.tools else [])
  {
    assert (rows + [row])[..|rows|] == rows;
  }

  /** The inner loop: append each tool not already in the plan. */
  method AddNewTools(matched: seq<string>, ghost before: seq<string>, tools: seq<string>) returns (r: seq<string>)
    requires matched == DedupeBy(before, Identity)
    ensures r == DedupeBy(before + tools, Identity)
  {
    r := matched;
    ghost var seen := before;
    var j := 0;
    while j < |tools|
      invariant 0 <= j <= |tools|
      invariant seen == before + tools[..j]
      invariant r == DedupeBy(seen, Identity)
    {
      var tool := tools[j];
      DedupeIdentitySnoc(seen, tool, r);
      PrefixSnoc(tools, j);
      AppendAssoc(before, tools[..j], [tool]);
      seen := seen + [tool];
      if tool !in r {
        r := r + [tool];
      }
      j := j + 1;
    }
    assert tools[..j] == tools;
  }


  /** `_keyword_plan`: the matched tools of the table as a plan, or nothing. */
  method KeywordPlan(request: string) returns (plan: Option<Value>)
    ensures plan == KeywordPlanOf(request)
  {
    var normalized := Lower(request);
    if normalized == [] {
      return None;
    }
    var matched := CollectTools(KeywordToolSequences, RowHit(normalized));
    if matched == [] {
      return None;
    }
    plan := Some(VDict(map["tasks" := VList(KeywordTasks(matched)), "notes" := VStr("keyword-plan")]));
  }

  // ---------------------------------------------------------------------------
  // Server identity

  /** `str(server.get(field) or "").strip()`. */
  function FieldText(server: Dict, field: string): string
  {
    Strip(PyStr(Or(Get(server, field), VStr(""))))
  }

  /** `_server_identifier`: the name, else the host, else "unknown"; never blank. */
  function ServerIdentifier(server: Dict): (id: string)
    ensures id != []
    ensures FieldText(server, "name") != [] ==> id == FieldText(server, "name")
    ensures FieldText(server, "name") == [] && FieldText(server, "host") != [] ==> id == FieldText(server, "host")
  {
    var name := FieldText(server, "name");
    var host := FieldText(server, "host");
    if name != [] then name else if host != [] then host else "unknown"
  }

  /** The non-blank of two identifiers, the second only when it differs from the first. */
  function NonBlankPair(first: string, second: string): (ids: seq<string>)
    ensures forall i :: 0 <= i < |ids| ==> ids[i] != []
    ensures |ids| <= 2 && (|ids| == 2 ==> ids[0] != ids[1])
    ensures forall x :: x in ids <==> x != [] && (x == first || x == second)
    ensures first != [] ==> |ids| > 0 && ids[0] == first
  {
    if first == [] then (if second != [] then [second] else [])
    else if second != [] && second != first then [first, second]
    else [first]
  }

  /** `_server_identifiers`: the lower-cased name and host, both non-blank, without repeats. */
  function ServerIdentifiers(server: Dict): (ids: seq<string>)
    ensures forall i :: 0 <= i < |ids| ==> ids[i] != []
    ensures |ids| <= 2 && (|ids| == 2 ==> ids[0] != ids[1])
    ensures forall x :: x in ids <==>
      x != [] && (x == Lower(FieldText(server, "name")) || x == Lower(FieldText(server, "host")))
    ensures Lower(FieldText(server, "name")) != [] ==> |ids| > 0 && ids[0] == Lower(FieldText(server, "name"))
  {
    NonBlankPair(Lower(FieldText(server, "name")), Lower(FieldText(server, "host")))
  }

  // ---------------------------------------------------------------------------
  // Task targets

  /** Whether an identifier equals `token` ignoring case. */
  function SameIgnoringCase(token: string): string -> bool
  {
    id => Lower(id) == Lower(token)
  }

  /** The first identifier equal to `token` ignoring case. */
  function FirstIdentifierMatching(token: string, identifiers: seq<string>): (r: Option<string>)
    ensures r.Some? ==> r.value in identifiers && Lower(r.value) == Lower(token)
    ensures r.None? <==> forall i :: 0 <= i < |identifiers| ==> Lower(identifiers[i]) != Lower(token)
    ensures r.Some? ==>
      exists i :: 0 <= i < |identifiers| && identifiers[i] == r.value &&
        (forall j :: 0 <= j < i ==> Lower(identifiers[j]) != Lower(token))
  {
    First(identifiers, SameIgnoringCase(token))
  }

  /** The stripped non-blank entries of a comma-separated descriptor or a list descriptor. */
  function DescriptorTokens(descriptor: Value): (tokens: seq<string>)
    ensures forall t :: t in tokens ==> t != [] && t == Strip(t)
  {
    if descriptor.VStr? then NonBlankStripped(Split(descriptor.s, ','))
    else if descriptor.VList? then NonBlankStripped(StrAll(descriptor.items))
    else []
  }

  function StrAll(items: seq<Value>): (r: seq<string>)
    ensures |r| == |items|
  {
    seq(|items|, i requires 0 <= i < |items| => PyStr(items[i]))
  }

  /** The first identifier a token names, if any. */
  function TargetOf(identifiers: seq<string>): string -> Option<string>
  {
    token => FirstIdentifierMatching(token, identifiers)
  }

  /** For each token, in order, the first identifier it names. */
  function TokenTargets(tokens: seq<string>, identifiers: seq<string>): (targets: seq<string>)
    ensures forall t :: t in targets <==>
      exists k :: 0 <= k < |tokens| && FirstIdentifierMatching(tokens[k], identifiers) == Some(t)
    ensures forall t :: t in targets ==> t in identifiers
    ensures |targets| <= |tokens|
  {
    CollectMembers(tokens, TargetOf(identifiers));
    Collect(tokens, TargetOf(identifiers))
  }

  /** One more token adds the first identifier it names, after the targets of the earlier tokens. */
  lemma TokenTargetsSnoc(tokens: seq<string>, token: string, identifiers: seq<string>)
    ensures TokenTargets(tokens + [token], identifiers) ==
      TokenTargets(tokens, identifiers) + match FirstIdentifierMatching(token, identifiers) case Some(id) => [id] case None => []
  {
    CollectSnoc(tokens, token, TargetOf(identifiers));
  }

  /** Whether a descriptor stands for every selected server. */
  predicate MeansEveryServer(descriptor: Value)
  {
    !Truthy(descriptor) || (descriptor.VStr? && Lower(Strip(descriptor.s)) in {"all", "*"})
  }

  /** `_resolve_task_targets(descriptor, selection_map)` with the map's identifiers. */
  function TaskTargets(descriptor: Value, identifiers: seq<string>): (targets: seq<string>)
    ensures MeansEveryServer(descriptor) ==> targets == identifiers
    ensures !descriptor.VStr? && !descriptor.VList? ==> targets == identifiers
    ensures forall t :: t in targets ==> t in identifiers
    ensures targets == [] ==> identifiers == []
    ensures !MeansEveryServer(descriptor) && TokenTargets(DescriptorTokens(descriptor), identifiers) == [] ==>
      targets == identifiers
    ensures !MeansEveryServer(descriptor) && TokenTargets(DescriptorTokens(descriptor), identifiers) != [] ==>
      targets == TokenTargets(DescriptorTokens(descriptor), identifiers)
  {
    if MeansEveryServer(descriptor) then identifiers
    else
      var targets := TokenTargets(DescriptorTokens(descriptor), identifiers);
      if targets == [] then identifiers else targets
  }

  /** A token equal to an identifier ignoring case makes the first such identifier a target. */
  lemma TokenSelectsIdentifier(descriptor: Value, identifiers: seq<string>, k: nat, i: nat)
    requires !MeansEveryServer(descriptor)
    requires k < |DescriptorTokens(descriptor)| && i < |identifiers|
    requires Lower(identifiers[i]) == Lower(DescriptorTokens(descriptor)[k])
    ensures FirstIdentifierMatching(DescriptorTokens(descriptor)[k], identifiers).Some?
    ensures FirstIdentifierMatching(DescriptorTokens(descriptor)[k], identifiers).value in TaskTargets(descriptor, identifiers)
  {
    var tokens := DescriptorTokens(descriptor);
    var first := FirstIdentifierMatching(tokens[k], identifiers);
    assert first.Some?;
    assert first.value in TokenTargets(tokens, identifiers);
  }

  /** A target that is not the fall-back is named by some token of the descriptor, ignoring case. */
  lemma TargetNamedByToken(descriptor: Value, identifiers: seq<string>, t: string)
    requires !MeansEveryServer(descriptor) && TaskTargets(descriptor, identifiers) != identifiers
    requires t in TaskTargets(descriptor, identifiers)
    ensures exists k :: 0 <= k < |DescriptorTokens(descriptor)| && Lower(DescriptorTokens(descriptor)[k]) == Lower(t)
  {
    var tokens := DescriptorTokens(descriptor);
    var k :| 0 <= k < |tokens| && FirstIdentifierMatching(tokens[k], identifiers) == Some(t);
    assert Lower(tokens[k]) == Lower(t);
  }

  /** `_resolve_task_targets`: one pass over the tokens, each scanning the identifiers until the first match. */
  method ResolveTaskTargets(descriptor: Value, identifiers: seq<string>) returns (targets: seq<string>)
    ensures targets == TaskTargets(descriptor, identifiers)
  {
    if MeansEveryServer(descriptor) {
      return identifiers;
    }
    targets := CollectTargets(DescriptorTokens(descriptor), identifiers);
    if targets == [] {
      targets := identifiers;
    }
  }

  /** The token loop of `_resolve_task_targets`: each token adds the first identifier it names. */
  method CollectTargets(tokens: seq<string>, identifiers: seq<string>) returns (targets: seq<string>)
    ensures targets == TokenTargets(tokens, identifiers)
  {
    targets := [];
    var i := 0;
    while i < |tokens|
      invariant 0 <= i <= |tokens|
      invariant targets == TokenTargets(tokens[..i], identifiers)
    {
      PrefixSnoc(tokens, i);
      TokenTargetsSnoc(tokens[..i], tokens[i], identifiers);
      var found := FindIdentifier(tokens[i], identifiers);
      match found {
        case Some(id) => targets := targets + [id];
        case None =>
      }
      i := i + 1;
    }
    assert tokens[..i] == tokens;
  }

  /** The inner loop of `_resolve_task_targets`: scan the identifiers until one matches the token, ignoring case. */
  method FindIdentifier(token: string, identifiers: seq<string>) returns (found: Option<string>)
    ensures found == FirstIdentifierMatching(token, identifiers)
  {
    var lowered := Lower(token);
    var j := 0;
    found := None;
    while j < |identifiers| && found.None?
      invariant 0 <= j <= |identifiers|
      invariant found.None? ==> First(identifiers, SameIgnoringCase(token)) == First(identifiers[j..], SameIgnoringCase(token))
      invariant found.Some? ==> found == FirstIdentifierMatching(token, identifiers)
    {
      assert identifiers[j..][1..] == identifiers[j + 1..];
      if Lower(identifiers[j]) == lowered {
        found := Some(identifiers[j]);
      }
      j := j + 1;
    }
    if found.None? {
      assert identifiers[j..] == [];
    }
  }


  // ---------------------------------------------------------------------------
  // Server selection

  /** `[int(m) for m in runs]` for runs of decimal digits. */
  function RunNumbers(runs: seq<string>): seq<nat>
    requires forall k :: 0 <= k < |runs| ==> AllDigits(runs[k])
  {
    seq(|runs|, k requires 0 <= k < |runs| => DigitsValue(runs[k]))
  }

  /** The entry a 1-based number names, when the number is in range. */
  function EntryNumbered<T>(items: seq<T>): nat -> Option<T>
  {
    n => if 1 <= n <= |items| then Some(items[n - 1]) else None
  }

  /** Entries picked by 1-based number, in order: numbers out of range pick nothing. */
  function IndexMatches<T(!new)>(numbers: seq<nat>, items: seq<T>): (picked: seq<T>)
    ensures forall s :: s in picked <==>
      exists k :: 0 <= k < |numbers| && 1 <= numbers[k] <= |items| && items[numbers[k] - 1] == s
    ensures forall k :: 0 <= k < |numbers| && 1 <= numbers[k] <= |items| ==> items[numbers[k] - 1] in picked
    ensures forall s :: s in picked ==> s in items
  {
    var f := EntryNumbered(items);
    CollectMembers(numbers, f);
    assert forall k :: 0 <= k < |numbers| ==>
      (f(numbers[k]).Some? <==> 1 <= numbers[k] <= |items|) &&
      (f(numbers[k]).Some? ==> f(numbers[k]).value == items[numbers[k] - 1]);
    Collect(numbers, f)
  }

  /** One more number adds its entry when it is in range, and nothing when it is not. */
  lemma IndexMatchesSnoc<T(!new)>(numbers: seq<nat>, n: nat, items: seq<T>)
    ensures IndexMatches(numbers + [n], items) ==
      IndexMatches(numbers, items) + if 1 <= n <= |items| then [items[n - 1]] else []
  {
    var f := EntryNumbered(items);
    CollectSnoc(numbers, n, f);
    assert f(n) == if 1 <= n <= |items| then Some(items[n - 1]) else None;
    calc {
      IndexMatches(numbers + [n], items);
      Collect(numbers + [n], f);
      Collect(numbers, f) + if 1 <= n <= |items| then [items[n - 1]] else [];
      IndexMatches(numbers, items) + if 1 <= n <= |items| then [items[n - 1]] else [];
    }
  }

  /** Whether one of an entry's identifiers is exactly `token`. */
  function NamedBy<T>(token: string, ids: T -> seq<string>): T -> bool
  {
    s => token in ids(s)
  }

  /** The first entry one of whose identifiers is exactly `token`. */
  function FirstNamed<T>(token: string, items: seq<T>, ids: T -> seq<string>): (r: Option<T>)
    ensures r.Some? ==> r.value in items && token in ids(r.value)
    ensures r.None? <==> forall i :: 0 <= i < |items| ==> token !in ids(items[i])
    ensures r.Some? ==>
      exists i :: 0 <= i < |items| && items[i] == r.value &&
        (forall j :: 0 <= j < i ==> token !in ids(items[j]))
  {
    First(items, NamedBy(token, ids))
  }

  /** The first entry a token names, if any. */
  function PickOf<T>(items: seq<T>, ids: T -> seq<string>): string -> Option<T>
  {
    token => FirstNamed(token, items, ids)
  }

  /** Entries picked by exact identifier: for each token, in order, the first entry it names. */
  function TokenMatches<T(!new)>(tokens: seq<string>, items: seq<T>, ids: T -> seq<string>): (picked: seq<T>)
    ensures forall s :: s in picked <==> exists k :: 0 <= k < |tokens| && FirstNamed(tokens[k], items, ids) == Some(s)
    ensures forall s :: s in picked ==> s in items
    ensures |picked| <= |tokens|
  {
    CollectMembers(tokens, PickOf(items, ids));
    Collect(tokens, PickOf(items, ids))
  }

  /** One more token adds the first entry it names, after the entries of the earlier tokens. */
  lemma TokenMatchesSnoc<T(!new)>(tokens: seq<string>, token: string, items: seq<T>, ids: T -> seq<string>)
    ensures TokenMatches(tokens + [token], items, ids) ==
      TokenMatches(tokens, items, ids) + match FirstNamed(token, items, ids) case Some(s) => [s] case None => []
  {
    CollectSnoc(tokens, token, PickOf(items, ids));
  }

  /** `any(identifier and identifier in text for identifier in identifiers)`. */
  predicate Mentions(text: string, server: Dict)
  {
    exists id :: id in ServerIdentifiers(server) && Contains(text, id)
  }

  function MentionedIn(text: string): Dict -> bool
  {
    server => Mentions(text, server)
  }

  /** The separators of a selection reply: whitespace, commas and semicolons. */
  predicate IsSelectionSeparator(c: char)
  {
    IsSpace(c) || c == ',' || c == ';'
  }

  predicate IsSelectionChar(c: char)
  {
    !IsSelectionSeparator(c)
  }

  /**
   * The non-empty pieces of `re.split(r"[\s,;]+", text)`; the empty pieces the
   * split can produce at either end never equal an identifier.
   */
  function SelectionTokens(text: string): seq<string>
  {
    Runs(text, IsSelectionChar)
  }

  /** Entries picked by number or by exact identifier, in that order. */
  function DirectMatchesBy<T(!new)>(normalized: string, items: seq<T>, ids: T -> seq<string>): seq<T>
  {
    DigitRuns(normalized);
    IndexMatches(RunNumbers(Runs(normalized, IsDigit)), items) + TokenMatches(SelectionTokens(normalized), items, ids)
  }

  /** Servers picked by number or by exact name or host, in that order. */
  function DirectMatches(normalized: string, servers: seq<Dict>): seq<Dict>
  {
    DirectMatchesBy(normalized, servers, ServerIdentifiers)
  }

  /** `_parse_server_selection(text, servers)`. */
  function SelectionOf(text: string, servers: seq<Dict>): (sel: seq<Dict>)
    ensures servers == [] || IsBlank(text) ==> sel == []
    ensures servers != [] && !IsBlank(text) && MentionsAll(Lower(Strip(text))) ==> sel == servers
    ensures forall s :: s in sel ==> s in servers
    ensures !MentionsAll(Lower(Strip(text))) ==>
      forall i, j :: 0 <= i < j < |sel| ==> ServerIdentifier(sel[i]) != ServerIdentifier(sel[j])
  {
    var normalized := Lower(Strip(text));
    if servers == [] || normalized == [] then []
    else if MentionsAll(normalized) then servers
    else
      var direct := DirectMatches(normalized, servers);
      var matches := if direct != [] then direct else Filter(servers, MentionedIn(normalized));
      DedupeBy(matches, ServerIdentifier)
  }

  /** A mention picks servers only when no number or exact name picked one. */
  lemma MentionsOnlyAsFallback(text: string, servers: seq<Dict>)
    requires servers != [] && !IsBlank(text)
    requires !MentionsAll(Lower(Strip(text))) && DirectMatches(Lower(Strip(text)), servers) != []
    ensures SelectionOf(text, servers) == DedupeBy(DirectMatches(Lower(Strip(text)), servers), ServerIdentifier)
  {
  }

  /** A listed number among the digit runs puts its entry among the direct matches. */
  lemma NumberIsDirectMatch<T(!new)>(normalized: string, items: seq<T>, ids: T -> seq<string>, k: nat, n: nat)
    requires var runs := Runs(normalized, IsDigit); k < |runs| && DigitsValue(runs[k]) == n
    requires 1 <= n <= |items|
    ensures items[n - 1] in DirectMatchesBy(normalized, items, ids)
  {
    var runs := Runs(normalized, IsDigit);
    var byToken := TokenMatches(SelectionTokens(normalized), items, ids);
    DigitRuns(normalized);
    var numbers := RunNumbers(runs);
    assert numbers[k] == n;
    IndexPicks(numbers, items, k, n, byToken);
    assert DirectMatchesBy(normalized, items, ids) == IndexMatches(numbers, items) + byToken;
  }

  /** The entry a number in range names is among the entries picked by number, whatever follows them. */
  lemma IndexPicks<T(!new)>(numbers: seq<nat>, items: seq<T>, k: nat, n: nat, more: seq<T>)
    requires k < |numbers| && numbers[k] == n && 1 <= n <= |items|
    ensures items[n - 1] in IndexMatches(numbers, items) + more
  {
    assert items[n - 1] in IndexMatches(numbers, items);
  }

  /** Every digit run holds only digits. */
  lemma DigitRuns(s: string)
    ensures forall k :: 0 <= k < |Runs(s, IsDigit)| ==> AllDigits(Runs(s, IsDigit)[k])
  {
    var runs := Runs(s, IsDigit);
    forall k | 0 <= k < |runs|
      ensures AllDigits(runs[k])
    {
      forall j | 0 <= j < |runs[k]|
        ensures IsDigit(runs[k][j])
      {
      }
    }
  }

  /** A reply with a digit run is not blank. */
  lemma DigitRunNotBlank(text: string, k: nat)
    requires k < |Runs(Lower(Strip(text)), IsDigit)|
    ensures !IsBlank(text)
  {
    assert Lower(Strip(text)) != [];
  }

  /** A reply naming a listed number `n` picks that server, or one with the same identifier. */
  lemma NumberPicksServer(text: string, servers: seq<Dict>, k: nat, n: nat)
    requires !MentionsAll(Lower(Strip(text)))
    requires var runs := Runs(Lower(Strip(text)), IsDigit);
      k < |runs| && DigitsValue(runs[k]) == n
    requires 1 <= n <= |servers|
    ensures ServerIdentifier(servers[n - 1]) in KeysOf(SelectionOf(text, servers), ServerIdentifier)
  {
    var normalized := Lower(Strip(text));
    var direct := DirectMatches(normalized, servers);
    DigitRunNotBlank(text, k);
    NumberIsDirectMatch(normalized, servers, ServerIdentifiers, k, n);
    MentionsOnlyAsFallback(text, servers);
    DedupeCovers(direct, ServerIdentifier, servers[n - 1]);
  }

  /** A word of the reply equal to a server's name or host is among the direct matches, as the first server it names. */
  lemma TokenIsDirectMatch<T(!new)>(normalized: string, items: seq<T>, ids: T -> seq<string>, k: nat)
    requires k < |SelectionTokens(normalized)|
    requires FirstNamed(SelectionTokens(normalized)[k], items, ids).Some?
    ensures FirstNamed(SelectionTokens(normalized)[k], items, ids).value in DirectMatchesBy(normalized, items, ids)
  {
    var tokens := SelectionTokens(normalized);
    assert FirstNamed(tokens[k], items, ids).value in TokenMatches(tokens, items, ids);
  }

  /** A reply with a word is not blank. */
  lemma WordNotBlank(text: string, k: nat)
    requires k < |SelectionTokens(Lower(Strip(text)))|
    ensures !IsBlank(text)
  {
    assert Lower(Strip(text)) != [];
  }

  /**
   * A reply word equal to the name or host of a listed server selects the
   * first server it names exactly, or one with the same identifier.
   */
  lemma TokenPicksServer(text: string, servers: seq<Dict>, k: nat, i: nat)
    requires !MentionsAll(Lower(Strip(text)))
    requires k < |SelectionTokens(Lower(Strip(text)))|
    requires i < |servers| && SelectionTokens(Lower(Strip(text)))[k] in ServerIdentifiers(servers[i])
    ensures FirstNamed(SelectionTokens(Lower(Strip(text)))[k], servers, ServerIdentifiers).Some?
    ensures ServerIdentifier(FirstNamed(SelectionTokens(Lower(Strip(text)))[k], servers, ServerIdentifiers).value)
      in KeysOf(SelectionOf(text, servers), ServerIdentifier)
  {
    var normalized := Lower(Strip(text));
    var named := FirstNamed(SelectionTokens(normalized)[k], servers, ServerIdentifiers);
    assert named.Some?;
    WordNotBlank(text, k);
    TokenIsDirectMatch(normalized, servers, ServerIdentifiers, k);
    MentionsOnlyAsFallback(text, servers);
    DedupeCovers(DirectMatches(normalized, servers), ServerIdentifier, named.value);
  }

  /** The `re.findall(r"\d+")` loop: each number in range appends its server. */
  method PickByNumber<T(!new)>(runs: seq<string>, items: seq<T>) returns (picked: seq<T>)
    requires forall k :: 0 <= k < |runs| ==> AllDigits(runs[k])
    ensures picked == IndexMatches(RunNumbers(runs), items)
  {
    picked := [];
    var i := 0;
    while i < |runs|
      invariant 0 <= i <= |runs|
      invariant picked == IndexMatches(RunNumbers(runs[..i]), items)
    {
      var numbers := RunNumbers(runs[..i + 1]);
      assert numbers == RunNumbers(runs[..i]) + [DigitsValue(runs[i])];
      IndexMatchesSnoc(RunNumbers(runs[..i]), DigitsValue(runs[i]), items);
      var index := DigitsValue(runs[i]) as int - 1;
      if 0 <= index < |items| {
        picked := picked + [items[index]];
      }
      i := i + 1;
    }
    assert runs[..i] == runs;
  }


  /** The token loop: for each token, the first entry it names, then `break`. */
  method PickByToken<T(!new)>(tokens: seq<string>, items: seq<T>, ids: T -> seq<string>) returns (picked: seq<T>)
    ensures picked == TokenMatches(tokens, items, ids)
  {
    picked := [];
    var t := 0;
    while t < |tokens|
      invariant 0 <= t <= |tokens|
      invariant picked == TokenMatches(tokens[..t], items, ids)
    {
      PrefixSnoc(tokens, t);
      TokenMatchesSnoc(tokens[..t], tokens[t], items, ids);
      var j := 0;
      var found: Option<T> := None;
      while j < |items| && found.None?
        invariant 0 <= j <= |items|
        invariant found.None? ==> First(items, NamedBy(tokens[t], ids)) == First(items[j..], NamedBy(tokens[t], ids))
        invariant found.Some? ==> found == FirstNamed(tokens[t], items, ids)
      {
        assert items[j..][1..] == items[j + 1..];
        if tokens[t] in ids(items[j]) {
          found := Some(items[j]);
        }
        j := j + 1;
      }
      if found.None? {
        assert items[j..] == [];
      }
      match found {
        case Some(s) => picked := picked + [s];
        case None =>
      }
      t := t + 1;
    }
    assert tokens[..t] == tokens;
  }

  /** `_parse_server_selection`: numbers, then exact tokens, then mentions, then de-duplication. */
  method ParseServerSelection(text: string, servers: seq<Dict>) returns (selection: seq<Dict>)
    ensures selection == SelectionOf(text, servers)
  {
    if servers == [] {
      return [];
    }
    var normalized := Lower(Strip(text));
    if normalized == [] {
      return [];
    }
    if MentionsAll(normalized) {
      return servers;
    }
    DigitRuns(normalized);
    var byNumber := PickByNumber(Runs(normalized, IsDigit), servers);
    var byToken := PickByToken(SelectionTokens(normalized), servers, ServerIdentifiers);
    var matches := byNumber + byToken;
    if matches == [] {
      matches := Select(servers, MentionedIn(normalized));
    }
    selection := Dedupe(matches, ServerIdentifier);
  }

  /** `_detect_servers_in_text`: every server if an "all" word appears, else the mentioned ones, de-duplicated. */
  function DetectedServers(text: string, servers: seq<Dict>): (sel: seq<Dict>)
    ensures MentionsAll(Lower(text)) ==> sel == servers
    ensures forall s :: s in sel ==> s in servers
    ensures !MentionsAll(Lower(text)) ==> forall s :: s in sel ==> Mentions(Lower(text), s)
  {
    var normalized := Lower(text);
    if MentionsAll(normalized) then servers
    else DedupeBy(Filter(servers, MentionedIn(normalized)), ServerIdentifier)
  }

  /** A server the text mentions is detected, or one with the same identifier is. */
  lemma MentionedIsDetected(text: string, servers: seq<Dict>, s: Dict)
    requires s in servers && Mentions(Lower(text), s)
    ensures ServerIdentifier(s) in KeysOf(DetectedServers(text, servers), ServerIdentifier)
  {
    if !MentionsAll(Lower(text)) {
      assert s in Filter(servers, MentionedIn(Lower(text)));
      DedupeCovers(Filter(servers, MentionedIn(Lower(text))), ServerIdentifier, s);
    }
  }

  method DetectServersInText(text: string, servers: seq<Dict>) returns (selection: seq<Dict>)
    ensures selection == DetectedServers(text, servers)
  {
    var normalized := Lower(text);
    if MentionsAll(normalized) {
      return servers;
    }
    var matches := Select(servers, MentionedIn(normalized));
    selection := Dedupe(matches, ServerIdentifier);
  }

  /** Whether a server shares its identifier with one of `active`. */
  function SharesIdentifier(active: seq<Dict>): Dict -> bool
  {
    server => ServerIdentifier(server) in KeysOf(active, ServerIdentifier)
  }

  /** `_match_active_servers`: the servers whose identifier was among the last selection's. */
  function ActiveMatches(active: Option<seq<Dict>>, servers: seq<Dict>): (sel: seq<Dict>)
    ensures active.None? || active.value == [] ==> sel == []
    ensures forall s :: s in sel <==>
      s in servers && active.Some? && ServerIdentifier(s) in KeysOf(active.value, ServerIdentifier)
  {
    if active.None? || active.value == [] then []
    else Filter(servers, SharesIdentifier(active.value))
  }
}
