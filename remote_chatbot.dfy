/**
 * The helpers of the SSH chat front end (Remote/remote_chatbot.py): the
 * port-list override, Tomcat home resolution, the configuration section with
 * an inherited default Tomcat home, the validation overrides, and the server
 * record its tool adapter connects with.
 */
module RemoteChatbot {
  import opened Wrappers
  import opened Text
  import opened Values
  import opened Sequences
  import opened ConfigLoader
  import DynamicAdapter

  // ---------------------------------------------------------------------------
  // Port override

  /** `int(item)` for each candidate, skipping the ones that do not parse. */
  function ParsedPorts(candidates: seq<string>): (ports: seq<int>)
    ensures forall p :: p in ports ==> exists c :: c in candidates && ParseInt(c) == Some(p)
  {
    CollectMembers(candidates, ParseInt);
    forall p | p in Collect(candidates, ParseInt)
      ensures exists c :: c in candidates && ParseInt(c) == Some(p)
    {
      var i :| 0 <= i < |candidates| && ParseInt(candidates[i]) == Some(p);
      assert candidates[i] in candidates;
    }
    Collect(candidates, ParseInt)
  }

  /** `[int(item) for item in value]`, or `None` when any conversion raises. */
  function AllInts(items: seq<Value>): (r: Option<seq<int>>)
    ensures r.Some? ==> |r.value| == |items| && forall i :: 0 <= i < |items| ==> PyInt(items[i]) == Some(r.value[i])
    ensures r.None? ==> exists i :: 0 <= i < |items| && PyInt(items[i]).None?
    decreases |items|
  {
    if items == [] then Some([])
    else
      var init := items[..|items| - 1];
      match AllInts(init)
      case None => None
      case Some(ports) =>
        match PyInt(items[|items| - 1])
        case None => None
        case Some(p) => Some(ports + [p])
  }

  /**
   * `_normalize_port_override(value)`: `None` stays `None`; a string is read
   * as comma-separated integers, skipping the ones that do not parse, and
   * `None` when none does; a list converts every element or gives `None`.
   * Other values do not iterate and give `None`.
   */
  function NormalizedPortOverride(value: Value): (r: Option<seq<int>>)
    ensures value.VNone? ==> r.None?
    ensures value.VStr? && r.Some? ==> r.value != []
  {
    match value
    case VNone => None
    case VStr(s) =>
      var ports := ParsedPorts(NonBlankStripped(Split(s, ',')));
      if ports == [] then None else Some(ports)
    case VList(items) => AllInts(items)
    case _ => None
  }

  /** The decimal forms of `ports`. */
  function PortStrings(ports: seq<nat>): (strs: seq<string>)
    ensures |strs| == |ports| && forall i :: 0 <= i < |ports| ==> strs[i] == NatToString(ports[i])
  {
    seq(|ports|, i requires 0 <= i < |ports| => NatToString(ports[i]))
  }

  lemma NatStringTrimmed(n: nat)
    ensures Trimmed(NatToString(n)) && ',' !in NatToString(n)
  {
    var s := NatToString(n);
    DigitIsNotSpace(s[0]);
    DigitIsNotSpace(s[|s| - 1]);
    StripUntrimmed(s);
    assert forall i :: 0 <= i < |s| ==> s[i] != ',';
  }

  lemma ParsedPortStrings(ports: seq<nat>)
    ensures ParsedPorts(PortStrings(ports)) == ports
  {
    var strs := PortStrings(ports);
    forall i | 0 <= i < |strs|
      ensures ParseInt(strs[i]) == Some(ports[i] as int)
    {
      ParseIntOfNatString(ports[i]);
    }
    CollectAll(strs, ParseInt, ports);
  }

  /** A non-empty port list written as `"8080,8005"` reads back as the same list. */
  lemma PortListReadsBack(ports: seq<nat>)
    requires ports != []
    ensures NormalizedPortOverride(VStr(Join(",", PortStrings(ports)))) == Some(ports)
  {
    var strs := PortStrings(ports);
    forall k | 0 <= k < |strs| ensures ',' !in strs[k] && Trimmed(strs[k]) {
      NatStringTrimmed(ports[k]);
    }
    SplitJoin(strs, ',');
    NonBlankStrippedKeeps(strs);
    ParsedPortStrings(ports);
  }

  /** The string case: one pass over the stripped candidates, appending each one that parses. */
  method ParsePortList(candidates: seq<string>) returns (ports: seq<int>)
    ensures ports == ParsedPorts(candidates)
  {
    ports := [];
    var i := 0;
    while i < |candidates|
      invariant 0 <= i <= |candidates|
      invariant ports == ParsedPorts(candidates[..i])
    {
      CollectNext(candidates, i, ParseInt);
      match ParseInt(candidates[i]) {
        case Some(p) => ports := ports + [p];
        case None =>
      }
      i := i + 1;
    }
    assert candidates[..i] == candidates;
  }

  method NormalizePortOverride(value: Value) returns (r: Option<seq<int>>)
    ensures r == NormalizedPortOverride(value)
  {
    if value.VNone? {
      return None;
    }
    if value.VStr? {
      var candidates := NonBlankStripped(Split(value.s, ','));
      var ports := ParsePortList(candidates);
      return if ports == [] then None else Some(ports);
    }
    return NormalizedPortOverride(value);
  }

  // ---------------------------------------------------------------------------
  // Tomcat home

  /** `params.get("tomcat_home") or cfg.get("tomcat_home") or cfg.get("default_tomcat_home")`. */
  function TomcatHomeCandidate(cfg: Dict, params: Dict): Value
  {
    Or(Or(Get(params, "tomcat_home"), Get(cfg, "tomcat_home")), Get(cfg, "default_tomcat_home"))
  }

  /** `_resolve_tomcat_home(cfg, params, required=…, config_hint=…)`: the candidate, or the error a required home raises. */
  function ResolveTomcatHome(cfg: Dict, params: Dict, required: bool, hint: string): (r: Result<Value>)
    ensures r.Failure? <==> required && !Truthy(TomcatHomeCandidate(cfg, params))
    ensures r.Success? ==> r.value == TomcatHomeCandidate(cfg, params)
  {
    var candidate := TomcatHomeCandidate(cfg, params);
    if required && !Truthy(candidate) then
      Failure("Tomcat home not provided. Supply tomcat_home or configure " + hint + ".tomcat_home.")
    else Success(candidate)
  }

  /** The candidate is the first truthy one of the parameter, the section's home and its default home. */
  lemma TomcatHomePrecedence(cfg: Dict, params: Dict)
    ensures Truthy(Get(params, "tomcat_home")) ==> TomcatHomeCandidate(cfg, params) == Get(params, "tomcat_home")
    ensures !Truthy(Get(params, "tomcat_home")) && Truthy(Get(cfg, "tomcat_home")) ==>
      TomcatHomeCandidate(cfg, params) == Get(cfg, "tomcat_home")
    ensures !Truthy(Get(params, "tomcat_home")) && !Truthy(Get(cfg, "tomcat_home")) ==>
      TomcatHomeCandidate(cfg, params) == Get(cfg, "default_tomcat_home")
  {
  }

  // ---------------------------------------------------------------------------
  // Configuration section

  /**
   * Follows `path` from `cursor`, recording the dictionary each step leaves;
   * `None` once a step meets a non-dictionary.
   */
  function Trail(cursor: Value, path: seq<string>): (r: Option<(seq<Dict>, Value)>)
    ensures r.Some? ==> |r.value.0| == |path|
    decreases |path|
  {
    if path == [] then Some(([], cursor))
    else if !cursor.VDict? then None
    else
      match Trail(GetOr(cursor.fields, path[0], VDict(map[])), path[1..])
      case None => None
      case Some(t) => Some(([cursor.fields] + t.0, t.1))
  }

  /** The trail ends where `_resolve_config`'s walk ends. */
  lemma {:induction false} TrailEndsAtWalk(cursor: Value, path: seq<string>)
    ensures Trail(cursor, path).Some? <==> DynamicAdapter.Walk(cursor, path).Some?
    ensures Trail(cursor, path).Some? ==> Trail(cursor, path).value.1 == DynamicAdapter.Walk(cursor, path).value
    decreases |path|
  {
    if path != [] && cursor.VDict? {
      TrailEndsAtWalk(GetOr(cursor.fields, path[0], VDict(map[])), path[1..]);
    }
  }

  const HomeKey: string := "default_tomcat_home"

  /** The ancestor levels that define a default Tomcat home. */
  function DefinesHome(): Dict -> bool
  {
    level => HomeKey in level
  }

  /** The default Tomcat home of the innermost ancestor that defines one. */
  function NearestHome(ancestors: seq<Dict>): (r: Option<Value>)
    ensures r.None? <==> forall k :: 0 <= k < |ancestors| ==> HomeKey !in ancestors[k]
  {
    match LastIndexWhere(ancestors, DefinesHome())
    case Some(k) => Some(ancestors[k][HomeKey])
    case None => None
  }

  /**
   * `_extract_config(settings)`: a copy of the section at `path` (or `{}`),
   * given the default Tomcat home of its nearest enclosing level when it has
   * none of its own.
   */
  function ExtractedConfig(settings: Value, path: seq<string>): Dict
  {
    match Trail(settings, path)
    case Some((ancestors, VDict(section))) => WithInheritedHome(section, ancestors)
    case _ => map[]
  }

  /** The section, given the nearest ancestor's default home when it has none of its own. */
  function WithInheritedHome(section: Dict, ancestors: seq<Dict>): Dict
  {
    if HomeKey !in section && NearestHome(ancestors).Some? then section[HomeKey := NearestHome(ancestors).value]
    else section
  }

  /**
   * The extracted section is `_resolve_config`'s section with at most the
   * default home added, and only where the section lacks one.
   */
  lemma ExtractedIsResolvedPlusHome(settings: Value, path: seq<string>)
    ensures var section := DynamicAdapter.ResolvedConfig(settings, path);
      var r := ExtractedConfig(settings, path);
      (forall k :: k in section ==> k in r && r[k] == section[k]) &&
      r.Keys <= section.Keys + {HomeKey}
  {
    TrailEndsAtWalk(settings, path);
  }

  /** A section without its own default home inherits the innermost enclosing one. */
  lemma InheritsNearestHome(settings: Value, path: seq<string>)
    requires Trail(settings, path).Some? && Trail(settings, path).value.1.VDict?
    requires HomeKey !in Trail(settings, path).value.1.fields
    requires NearestHome(Trail(settings, path).value.0).Some?
    ensures HomeKey in ExtractedConfig(settings, path)
    ensures ExtractedConfig(settings, path)[HomeKey] == NearestHome(Trail(settings, path).value.0).value
  {
  }

  /** With `post_install` holding a default home and a `tomcat_start` section without one, the section inherits it. */
  lemma PostInstallHomeInherited(home: Value, start: Dict)
    requires HomeKey !in start
    ensures var settings := VDict(map["post_install" := VDict(map[HomeKey := home, "tomcat_start" := VDict(start)])]);
      var r := ExtractedConfig(settings, ["post_install", "tomcat_start"]);
      HomeKey in r && r[HomeKey] == home
  {
    var post := map[HomeKey := home, "tomcat_start" := VDict(start)];
    var settings := VDict(map["post_install" := VDict(post)]);
    var path := ["post_install", "tomcat_start"];
    assert path[1..] == ["tomcat_start"] && path[1..][1..] == [];
    assert GetOr(settings.fields, "post_install", VDict(map[])) == VDict(post);
    assert GetOr(post, "tomcat_start", VDict(map[])) == VDict(start);
    assert Trail(VDict(start), []) == Some(([], VDict(start)));
    assert Trail(VDict(post), path[1..]) == Some(([post] + [], VDict(start)));
    assert Trail(settings, path) == Some(([settings.fields] + ([post] + []), VDict(start)));
    var ancestors := [settings.fields] + ([post] + []);
    assert ancestors[|ancestors| - 1] == post;
    assert NearestHome(ancestors) == Some(home);
  }

  /** The cursor walk of `_extract_config`, pushing each dictionary it leaves, then the search back through them. */
  method ExtractConfig(settings: Value, path: seq<string>) returns (result: Dict)
    ensures result == ExtractedConfig(settings, path)
  {
    var trail := FollowPath(settings, path);
    if trail.None? || !trail.value.1.VDict? {
      return map[];
    }
    result := InheritHome(trail.value.1.fields, trail.value.0);
  }

  /** The cursor loop: pushes each dictionary it leaves, and stops at the first step that is not one. */
  method FollowPath(settings: Value, path: seq<string>) returns (trail: Option<(seq<Dict>, Value)>)
    ensures trail == Trail(settings, path)
  {
    var cursor := settings;
    var ancestors: seq<Dict> := [];
    var i := 0;
    assert path[i..] == path;
    match Trail(settings, path) {
      case None =>
      case Some(t) => assert ancestors + t.0 == t.0;
    }
    while i < |path|
      invariant 0 <= i <= |path|
      invariant Trail(settings, path) ==
        match Trail(cursor, path[i..])
        case None => None
        case Some(t) => Some((ancestors + t.0, t.1))
    {
      assert path[i..][1..] == path[i + 1..];
      if !cursor.VDict? {
        return None;
      }
      match Trail(GetOr(cursor.fields, path[i], VDict(map[])), path[i + 1..]) {
        case None =>
        case Some(t) => assert ancestors + ([cursor.fields] + t.0) == (ancestors + [cursor.fields]) + t.0;
      }
      ancestors := ancestors + [cursor.fields];
      cursor := GetOr(cursor.fields, path[i], VDict(map[]));
      i := i + 1;
    }
    assert Trail(cursor, path[i..]) == Some(([], cursor));
    assert ancestors + [] == ancestors;
    return Some((ancestors, cursor));
  }

  /** The search back through the ancestors, innermost first, stopping at the first that defines a default home. */
  method InheritHome(section: Dict, ancestors: seq<Dict>) returns (result: Dict)
    ensures result == WithInheritedHome(section, ancestors)
  {
    result := section;
    var j := |ancestors|;
    assert ancestors[..j] == ancestors;
    while j > 0
      invariant 0 <= j <= |ancestors|
      invariant result == section
      invariant HomeKey !in section ==> NearestHome(ancestors) == NearestHome(ancestors[..j])
    {
      var ancestor := ancestors[j - 1];
      assert ancestors[..j][..j - 1] == ancestors[..j - 1];
      assert ancestors[..j][j - 1] == ancestor;
      if HomeKey in ancestor && HomeKey !in result {
        result := result[HomeKey := ancestor[HomeKey]];
        return;
      }
      j := j - 1;
    }
  }

  // ---------------------------------------------------------------------------
  // Validation overrides

  const ValidationKeys: seq<string> := ["port", "host_template", "wait_seconds"]

  /** `cfg` with each of `keys` that the parameters set (not to `None`) overridden, in order. */
  function Overridden(cfg: Dict, params: Dict, keys: seq<string>): Dict
    decreases |keys|
  {
    if keys == [] then cfg
    else
      var r := Overridden(cfg, params, keys[..|keys| - 1]);
      var key := keys[|keys| - 1];
      if Get(params, key) != VNone then r[key := params[key]] else r
  }

  /** Every key the parameters set takes the parameter's value; every other entry of `cfg` is kept. */
  lemma {:induction false} OverriddenEntries(cfg: Dict, params: Dict, keys: seq<string>)
    ensures var r := Overridden(cfg, params, keys);
      (forall k :: k in keys && Get(params, k) != VNone ==> k in r && r[k] == params[k]) &&
      (forall k :: k in cfg && !(k in keys && Get(params, k) != VNone) ==> k in r && r[k] == cfg[k]) &&
      (forall k :: k in r ==> k in cfg || k in keys)
    decreases |keys|
  {
    if keys != [] {
      var init := keys[..|keys| - 1];
      OverriddenEntries(cfg, params, init);
      assert keys == init + [keys[|keys| - 1]];
    }
  }

  /** `effective_cfg` of `_invoke_tomcat_validation`. */
  function ValidationConfig(cfg: Dict, params: Dict): Dict
  {
    Overridden(cfg, params, ValidationKeys)
  }

  /** The loop over the three keys of `_invoke_tomcat_validation`; `cfg` itself is a value and stays as it was. */
  method EffectiveValidationConfig(cfg: Dict, params: Dict) returns (effective: Dict)
    ensures effective == ValidationConfig(cfg, params)
  {
    effective := cfg;
    var i := 0;
    while i < |ValidationKeys|
      invariant 0 <= i <= |ValidationKeys|
      invariant effective == Overridden(cfg, params, ValidationKeys[..i])
    {
      var key := ValidationKeys[i];
      assert ValidationKeys[..i + 1][..i] == ValidationKeys[..i];
      if Get(params, key) != VNone {
        effective := effective[key := params[key]];
      }
      i := i + 1;
    }
    assert ValidationKeys[..i] == ValidationKeys;
  }

  // ---------------------------------------------------------------------------
  // Server record of the tool adapter

  /**
   * `RemoteToolAdapter._select_server`: like the dynamic adapter's, but the
   * identifier is tried even when blank.
   */
  function SelectedServer(records: seq<ServerRecord>, identifier: string,
                          hostOverride: Option<string>, usernameOverride: Option<string>): (r: Option<ServerRecord>)
    ensures r.Some? ==> r.value in records
    ensures First(records, DynamicAdapter.NamedOrHosted(Lower(Strip(identifier)))).Some? ==>
      r == First(records, DynamicAdapter.NamedOrHosted(Lower(Strip(identifier))))
  {
    var byName := First(records, DynamicAdapter.NamedOrHosted(Lower(Strip(identifier))));
    if byName.Some? then byName
    else if DynamicAdapter.Given(hostOverride) && DynamicAdapter.Given(usernameOverride) then
      First(records, DynamicAdapter.HostedAt(Lower(Strip(hostOverride.value))))
    else None
  }

  /** On a non-blank identifier both adapters select the same record. */
  lemma AgreesWithDynamicAdapter(records: seq<ServerRecord>, identifier: string,
                                 hostOverride: Option<string>, usernameOverride: Option<string>)
    requires Lower(Strip(identifier)) != ""
    ensures SelectedServer(records, identifier, hostOverride, usernameOverride) ==
      DynamicAdapter.SelectedServer(records, Some(identifier), hostOverride, usernameOverride)
  {
  }

  /** The loop form: one pass by name or host, then, with both overrides, one pass by host. */
  method SelectServer(records: seq<ServerRecord>, identifier: string,
                      hostOverride: Option<string>, usernameOverride: Option<string>) returns (r: Option<ServerRecord>)
    ensures r == SelectedServer(records, identifier, hostOverride, usernameOverride)
  {
    var identNorm := Lower(Strip(identifier));
    r := FindFirst(records, DynamicAdapter.NamedOrHosted(identNorm));
    if r.None? && DynamicAdapter.Given(hostOverride) && DynamicAdapter.Given(usernameOverride) {
      var hostNorm := Lower(Strip(hostOverride.value));
      r := FindFirst(records, DynamicAdapter.HostedAt(hostNorm));
    }
  }

  const ServerNotFound: string := "Server not found; provide credentials via host/username or update servers.ini."

  /** The record `run` starts from: the selected one, or one named after the server argument (or the host when that is empty). */
  function BaseRecord(records: seq<ServerRecord>, server: string, o: DynamicAdapter.Overrides): Result<ServerRecord>
  {
    match SelectedServer(records, server, o.host, o.username)
    case Some(rec) => Success(rec)
    case None =>
      if DynamicAdapter.Given(o.host) && DynamicAdapter.Given(o.username) then
        Success(map["name" := if server != "" then server else o.host.value, "host" := o.host.value, "username" := o.username.value])
      else Failure(ServerNotFound)
  }

  /** The record `run` connects with, overrides applied as in the dynamic adapter. */
  function ConnectionTarget(records: seq<ServerRecord>, server: string, o: DynamicAdapter.Overrides): (r: Result<ServerRecord>)
    ensures r.Success? ==> !Lacks(r.value, "host") && !Lacks(r.value, "username")
    ensures r.Success? && DynamicAdapter.Given(o.host) ==> r.value["host"] == o.host.value
    ensures r.Success? && DynamicAdapter.Given(o.username) ==> r.value["username"] == o.username.value
  {
    match BaseRecord(records, server, o)
    case Failure(e) => Failure(e)
    case Success(rec) =>
      var info := DynamicAdapter.Overlaid(rec, o);
      if Lacks(info, "host") || Lacks(info, "username") then Failure(DynamicAdapter.MissingLogin) else Success(info)
  }

  /** With no inventory match the fallback record carries the server argument as its name. */
  lemma FallbackNamedAfterServer(records: seq<ServerRecord>, server: string, o: DynamicAdapter.Overrides)
    requires SelectedServer(records, server, o.host, o.username).None?
    requires DynamicAdapter.Given(o.host) && DynamicAdapter.Given(o.username)
    ensures ConnectionTarget(records, server, o).Success?
    ensures ConnectionTarget(records, server, o).value["name"] == if server != "" then server else o.host.value
  {
    var base := map["name" := if server != "" then server else o.host.value, "host" := o.host.value, "username" := o.username.value];
    assert BaseRecord(records, server, o) == Success(base);
    assert "name" in base && "name" !in {"host", "username", "password", "key_path"};
  }

  /** The first half of `run`'s record preparation: the selected record, or the fallback one. */
  method StartRecord(records: seq<ServerRecord>, server: string, o: DynamicAdapter.Overrides) returns (r: Result<ServerRecord>)
    ensures r == BaseRecord(records, server, o)
  {
    var found := SelectServer(records, server, o.host, o.username);
    if found.Some? {
      return Success(found.value);
    } else if DynamicAdapter.Given(o.host) && DynamicAdapter.Given(o.username) {
      return Success(map["name" := if server != "" then server else o.host.value, "host" := o.host.value, "username" := o.username.value]);
    }
    return Failure(ServerNotFound);
  }

  /** The imperative form: the starting record, then the overrides written into it. */
  method PrepareServer(records: seq<ServerRecord>, server: string, o: DynamicAdapter.Overrides) returns (r: Result<ServerRecord>)
    ensures r == ConnectionTarget(records, server, o)
  {
    var start := StartRecord(records, server, o);
    if start.Failure? {
      return Failure(start.error);
    }
    var info := DynamicAdapter.ApplyOverrides(start.value, o);
    if Lacks(info, "host") || Lacks(info, "username") {
      return Failure(DynamicAdapter.MissingLogin);
    }
    return Success(info);
  }
}
