/**
 * The adapter that exposes a remote tool to the chat agents
 * (RemoteAgent/dynamic_adapter.py): picking the server record, applying the
 * connection overrides, finding the tool's configuration section, and
 * coercing loosely typed parameters to the types the tool expects.
 */
module DynamicAdapter {
  import opened Wrappers
  import opened Text
  import opened Values
  import opened Sequences
  import opened ConfigLoader
  import opened RemoteExecutor

  // ---------------------------------------------------------------------------
  // Server selection

  /** `str(record.get(field, ""))` for a string-valued record. */
  function Field(rec: ServerRecord, field: string): string
  {
    if field in rec then rec[field] else ""
  }

  /** `ident in {name, host}` with name and host lower-cased (not stripped). */
  function NamedOrHosted(ident: string): ServerRecord -> bool
  {
    rec => ident == Lower(Field(rec, "name")) || ident == Lower(Field(rec, "host"))
  }

  /** The record's lower-cased host equals `hostNorm`. */
  function HostedAt(hostNorm: string): ServerRecord -> bool
  {
    rec => Lower(Field(rec, "host")) == hostNorm
  }

  /** `(identifier or "").strip().lower()`. */
  function IdentKey(identifier: Option<string>): string
  {
    Lower(Strip(identifier.GetOr("")))
  }

  /** A truthy string override. */
  predicate Given(o: Option<string>)
  {
    o.Some? && o.value != ""
  }

  /**
   * `_select_server(servers, identifier, host_override, username_override)`:
   * the first record named or hosted at the stripped, lower-cased identifier;
   * failing that, and only when both host and username overrides are given,
   * the first record whose host is the override's.
   */
  function SelectedServer(servers: seq<ServerRecord>, identifier: Option<string>,
                          hostOverride: Option<string>, usernameOverride: Option<string>): (r: Option<ServerRecord>)
    ensures r.Some? ==> r.value in servers
    ensures r.Some? && !(Given(hostOverride) && Given(usernameOverride)) ==>
      var ident := Lower(Strip(identifier.GetOr("")));
      ident != "" && (ident == Lower(Field(r.value, "name")) || ident == Lower(Field(r.value, "host")))
    ensures IsBlank(identifier.GetOr("")) && !(Given(hostOverride) && Given(usernameOverride)) ==> r.None?
    ensures r.None? <==>
      (IdentKey(identifier) == "" || forall j :: 0 <= j < |servers| ==> !NamedOrHosted(IdentKey(identifier))(servers[j]))
      && (!(Given(hostOverride) && Given(usernameOverride))
          || forall j :: 0 <= j < |servers| ==> !HostedAt(Lower(Strip(hostOverride.value)))(servers[j]))
  {
    var ident := Lower(Strip(identifier.GetOr("")));
    var byName := if ident == "" then None else First(servers, NamedOrHosted(ident));
    if byName.Some? then byName
    else if Given(hostOverride) && Given(usernameOverride) then First(servers, HostedAt(Lower(Strip(hostOverride.value))))
    else None
  }

  /** A non-blank identifier selects the first record it names, ahead of any host override. */
  lemma IdentifierWins(servers: seq<ServerRecord>, identifier: string, hostOverride: Option<string>,
                       usernameOverride: Option<string>, i: nat)
    requires i < |servers| && Lower(Strip(identifier)) != ""
    requires NamedOrHosted(Lower(Strip(identifier)))(servers[i])
    requires forall j :: 0 <= j < i ==> !NamedOrHosted(Lower(Strip(identifier)))(servers[j])
    ensures SelectedServer(servers, Some(identifier), hostOverride, usernameOverride) == Some(servers[i])
  {
    FirstAt(servers, NamedOrHosted(Lower(Strip(identifier))), i);
  }

  /**
   * With no record named by the identifier and both overrides given, the
   * first record whose lower-cased host is the stripped, lower-cased host
   * override is selected.
   */
  lemma HostFallback(servers: seq<ServerRecord>, identifier: Option<string>, hostOverride: Option<string>,
                     usernameOverride: Option<string>, i: nat)
    requires Given(hostOverride) && Given(usernameOverride)
    requires IdentKey(identifier) == "" || forall j :: 0 <= j < |servers| ==> !NamedOrHosted(IdentKey(identifier))(servers[j])
    requires i < |servers| && HostedAt(Lower(Strip(hostOverride.value)))(servers[i])
    requires forall j :: 0 <= j < i ==> !HostedAt(Lower(Strip(hostOverride.value)))(servers[j])
    ensures SelectedServer(servers, identifier, hostOverride, usernameOverride) == Some(servers[i])
  {
    FirstAt(servers, HostedAt(Lower(Strip(hostOverride.value))), i);
  }

  /** The loop form: one pass by name or host, then, with both overrides, one pass by host. */
  method SelectServer(servers: seq<ServerRecord>, identifier: Option<string>,
                      hostOverride: Option<string>, usernameOverride: Option<string>) returns (r: Option<ServerRecord>)
    ensures r == SelectedServer(servers, identifier, hostOverride, usernameOverride)
  {
    var ident := Lower(Strip(identifier.GetOr("")));
    if ident != "" {
      r := FindFirst(servers, NamedOrHosted(ident));
      if r.Some? {
        return;
      }
    }
    if Given(hostOverride) && Given(usernameOverride) {
      var hostNorm := Lower(Strip(hostOverride.value));
      r := FindFirst(servers, HostedAt(hostNorm));
      return;
    }
    return None;
  }

  // ---------------------------------------------------------------------------
  // Connection overrides

  /** The connection parameters `run` pops from its keyword arguments. */
  datatype Overrides = Overrides(
    server: Option<string>,
    host: Option<string>,
    username: Option<string>,
    password: Option<string>,
    keyPath: Option<string>)

  /** A string parameter, or `None` when it is absent. */
  function StringParam(params: Dict, key: string): Option<string>
  {
    if key in params && params[key].VStr? then Some(params[key].s) else None
  }

  function OverridesOf(params: Dict): Overrides
  {
    Overrides(StringParam(params, "server"), StringParam(params, "host"), StringParam(params, "username"),
              StringParam(params, "password"), StringParam(params, "key_path"))
  }

  const ServerNotFound: string := "Server not found. Provide host/username overrides or update servers.ini."
  const MissingLogin: string := "Missing host or username for remote connection."

  /** The record `run` starts from: the selected one, or one built from the host and username overrides. */
  function BaseRecord(servers: seq<ServerRecord>, o: Overrides): Result<ServerRecord>
  {
    match SelectedServer(servers, o.server, o.host, o.username)
    case Some(rec) => Success(rec)
    case None =>
      if Given(o.host) && Given(o.username) then
        Success(map["name" := o.host.value, "host" := o.host.value, "username" := o.username.value])
      else Failure(ServerNotFound)
  }

  /** Truthy host/username overrides, and password/key_path overrides that are not `None`, replace the record's values. */
  function Overlaid(rec: ServerRecord, o: Overrides): (r: ServerRecord)
    ensures Given(o.host) ==> "host" in r && r["host"] == o.host.value
    ensures Given(o.username) ==> "username" in r && r["username"] == o.username.value
    ensures o.password.Some? ==> "password" in r && r["password"] == o.password.value
    ensures o.keyPath.Some? ==> "key_path" in r && r["key_path"] == o.keyPath.value
    ensures forall k :: k in rec && k !in {"host", "username", "password", "key_path"} ==> k in r && r[k] == rec[k]
    ensures forall k :: k in rec && k == "host" && !Given(o.host) ==> k in r && r[k] == rec[k]
    ensures forall k :: k in rec && k == "username" && !Given(o.username) ==> k in r && r[k] == rec[k]
    ensures o.password.None? ==> ("password" in r <==> "password" in rec)
    ensures o.password.None? && "password" in rec ==> r["password"] == rec["password"]
    ensures o.keyPath.None? ==> ("key_path" in r <==> "key_path" in rec)
    ensures o.keyPath.None? && "key_path" in rec ==> r["key_path"] == rec["key_path"]
    ensures forall k :: k in r ==>
      k in rec || (k == "host" && Given(o.host)) || (k == "username" && Given(o.username)) ||
      (k == "password" && o.password.Some?) || (k == "key_path" && o.keyPath.Some?)
  {
    var r1 := if Given(o.host) then rec["host" := o.host.value] else rec;
    var r2 := if Given(o.username) then r1["username" := o.username.value] else r1;
    var r3 := if o.password.Some? then r2["password" := o.password.value] else r2;
    if o.keyPath.Some? then r3["key_path" := o.keyPath.value] else r3
  }

  /** The record `run` connects with, or the failure it reports. */
  function ConnectionTarget(servers: seq<ServerRecord>, o: Overrides): (r: Result<ServerRecord>)
    ensures r.Success? ==> !Lacks(r.value, "host") && !Lacks(r.value, "username")
  {
    match BaseRecord(servers, o)
    case Failure(e) => Failure(e)
    case Success(rec) =>
      var info := Overlaid(rec, o);
      if Lacks(info, "host") || Lacks(info, "username") then Failure(MissingLogin) else Success(info)
  }

  /** Without a matching record, a truthy host and username override still connect, to a record named after the host. */
  lemma FallbackRecord(servers: seq<ServerRecord>, o: Overrides)
    requires SelectedServer(servers, o.server, o.host, o.username).None?
    requires Given(o.host) && Given(o.username)
    ensures ConnectionTarget(servers, o).Success?
    ensures ConnectionTarget(servers, o).value["name"] == o.host.value
    ensures ConnectionTarget(servers, o).value["host"] == o.host.value
    ensures ConnectionTarget(servers, o).value["username"] == o.username.value
  {
    var base := map["name" := o.host.value, "host" := o.host.value, "username" := o.username.value];
    assert BaseRecord(servers, o) == Success(base);
    var info := Overlaid(base, o);
    assert "name" in base && "name" !in {"host", "username", "password", "key_path"};
  }

  /** Without a matching record and without both overrides, `run` reports the server as not found. */
  lemma NoRecordNoOverrides(servers: seq<ServerRecord>, o: Overrides)
    requires SelectedServer(servers, o.server, o.host, o.username).None?
    requires !(Given(o.host) && Given(o.username))
    ensures ConnectionTarget(servers, o) == Failure(ServerNotFound)
  {
  }

  /** The assignments of `run` that write the overrides into the record, one field at a time. */
  method ApplyOverrides(rec: ServerRecord, o: Overrides) returns (info: ServerRecord)
    ensures info == Overlaid(rec, o)
  {
    info := rec;
    if Given(o.host) {
      info := info["host" := o.host.value];
    }
    if Given(o.username) {
      info := info["username" := o.username.value];
    }
    if o.password.Some? {
      info := info["password" := o.password.value];
    }
    if o.keyPath.Some? {
      info := info["key_path" := o.keyPath.value];
    }
  }

  /** The imperative form: the starting record, then the overrides written into it. */
  method PrepareServer(servers: seq<ServerRecord>, o: Overrides) returns (r: Result<ServerRecord>)
    ensures r == ConnectionTarget(servers, o)
  {
    var found := SelectServer(servers, o.server, o.host, o.username);
    var info: ServerRecord;
    if found.Some? {
      info := found.value;
    } else if Given(o.host) && Given(o.username) {
      info := map["name" := o.host.value, "host" := o.host.value, "username" := o.username.value];
    } else {
      return Failure(ServerNotFound);
    }
    info := ApplyOverrides(info, o);
    if Lacks(info, "host") || Lacks(info, "username") {
      return Failure(MissingLogin);
    }
    return Success(info);
  }

  // ---------------------------------------------------------------------------
  // Configuration section

  /** Follows `path` from `cursor` with `cursor.get(key, {})`; `None` once a step meets a non-dictionary. */
  function Walk(cursor: Value, path: seq<string>): Option<Value>
    decreases |path|
  {
    if path == [] then Some(cursor)
    else if !cursor.VDict? then None
    else Walk(GetOr(cursor.fields, path[0], VDict(map[])), path[1..])
  }

  /** `_resolve_config(settings, path)`: the dictionary at `path`, or `{}`. */
  function ResolvedConfig(settings: Value, path: seq<string>): Dict
  {
    match Walk(settings, path)
    case Some(VDict(fields)) => fields
    case _ => map[]
  }

  lemma {:induction false} WalkSnoc(cursor: Value, path: seq<string>, key: string)
    ensures Walk(cursor, path + [key]) ==
      match Walk(cursor, path)
      case None => None
      case Some(v) => if v.VDict? then Some(GetOr(v.fields, key, VDict(map[]))) else None
    decreases |path|
  {
    if path != [] {
      assert (path + [key])[1..] == path[1..] + [key];
      if cursor.VDict? {
        WalkSnoc(GetOr(cursor.fields, path[0], VDict(map[])), path[1..], key);
      }
    }
  }

  /**
   * One more step of the path looks the key up in the section found so far,
   * `{}` standing for a missing or non-dictionary step.
   */
  lemma ResolveOneMore(settings: Value, path: seq<string>, key: string)
    ensures ResolvedConfig(settings, path + [key]) == AsDict(GetOr(ResolvedConfig(settings, path), key, VDict(map[])))
  {
    WalkSnoc(settings, path, key);
  }

  /** A section nested under `path`. */
  function Nest(path: seq<string>, section: Dict): Value
  {
    if path == [] then VDict(section) else VDict(map[path[0] := Nest(path[1..], section)])
  }

  /** Resolving the path a section was nested under finds that section. */
  lemma {:induction false} ResolveNested(path: seq<string>, section: Dict)
    ensures ResolvedConfig(Nest(path, section), path) == section
    decreases |path|
  {
    if path != [] {
      ResolveNested(path[1..], section);
    }
  }

  /** The cursor loop of `_resolve_config`. */
  method ResolveConfig(settings: Value, path: seq<string>) returns (config: Dict)
    ensures config == ResolvedConfig(settings, path)
  {
    var cursor := settings;
    var i := 0;
    while i < |path|
      invariant 0 <= i <= |path|
      invariant Walk(settings, path) == Walk(cursor, path[i..])
    {
      assert path[i..][1..] == path[i + 1..];
      if !cursor.VDict? {
        return map[];
      }
      cursor := GetOr(cursor.fields, path[i], VDict(map[]));
      i := i + 1;
    }
    if cursor.VDict? {
      config := cursor.fields;
    } else {
      config := map[];
    }
  }

  // ---------------------------------------------------------------------------
  // Coercion

  /** The primitive type a parameter annotation resolves to (`_resolve_primitive`, which reads annotations, is not modelled). */
  datatype Primitive = PBool | PInt | PFloat | PStr

  predicate IsTrueWord(s: string)
  {
    var w := Lower(Strip(s));
    w == "true" || w == "yes" || w == "1"
  }

  predicate IsFalseWord(s: string)
  {
    var w := Lower(Strip(s));
    w == "false" || w == "no" || w == "0"
  }

  /**
   * `_coerce_value(value, annotation)`: converts to the resolved primitive,
   * reading yes/no words for booleans, and leaves the value as it is when no
   * primitive applies or the conversion raises.
   */
  function CoerceValue(v: Value, target: Option<Primitive>): (r: Value)
    ensures target.None? ==> r == v
    ensures target == Some(PBool) ==> r.VBool?
  {
    match target
    case None => v
    case Some(PBool) =>
      if v.VBool? then v
      else if v.VStr? && IsTrueWord(v.s) then VBool(true)
      else if v.VStr? && IsFalseWord(v.s) then VBool(false)
      else VBool(Truthy(v))
    case Some(PInt) =>
      (match PyInt(v) case Some(i) => VInt(i) case None => v)
    case Some(PFloat) =>
      (match PyFloat(v) case Some(x) => VReal(x) case None => v)
    case Some(PStr) => VStr(PyStr(v))
  }

  /** Coercing a coerced value again changes nothing. */
  lemma CoerceIdempotent(v: Value, target: Option<Primitive>)
    ensures CoerceValue(CoerceValue(v, target), target) == CoerceValue(v, target)
  {
  }

  lemma TrueWords()
    ensures IsTrueWord("True") && !IsFalseWord("True")
  {
    StripUntrimmed("True");
    assert Lower("True") == "true";
  }

  lemma FalseWords()
    ensures IsFalseWord("False") && !IsTrueWord("False")
  {
    StripUntrimmed("False");
    assert Lower("False") == "false";
  }

  /** A boolean written out by `str()` reads back as the same boolean. */
  lemma CoerceBoolReadsBack(b: bool)
    ensures CoerceValue(VStr(PyStr(VBool(b))), Some(PBool)) == VBool(b)
  {
    if b {
      CoerceTrue();
    } else {
      CoerceFalse();
    }
  }

  lemma CoerceTrue()
    ensures CoerceValue(VStr("True"), Some(PBool)) == VBool(true)
  {
    TrueWords();
  }

  lemma CoerceFalse()
    ensures CoerceValue(VStr("False"), Some(PBool)) == VBool(false)
  {
    FalseWords();
  }

  /** An integer written out by `str()` reads back as the same integer. */
  lemma CoerceIntReadsBack(i: int)
    ensures CoerceValue(VStr(PyStr(VInt(i))), Some(PInt)) == VInt(i)
  {
    PyIntOfPyStr(i);
  }

  /** The primitive type of a reference value, when it has one. */
  function TypeOf(reference: Value): Option<Primitive>
  {
    match reference
    case VBool(_) => Some(PBool)
    case VInt(_) => Some(PInt)
    case VReal(_) => Some(PFloat)
    case VStr(_) => Some(PStr)
    case _ => None
  }

  /** `_coerce_like(reference, value)`: coerces to the reference's type; a bool reference is read as bool, never as int. */
  function CoerceLike(reference: Value, value: Value): (r: Value)
    ensures reference.VBool? ==> r.VBool?
    ensures reference.VInt? ==> r.VInt? || r == value
    ensures reference.VReal? ==> r.VReal? || r == value
    ensures reference.VStr? ==> r == VStr(PyStr(value))
    ensures TypeOf(reference).None? ==> r == value
  {
    if reference.VBool? then CoerceValue(value, Some(PBool))
    else if reference.VInt? then CoerceValue(value, Some(PInt))
    else if reference.VReal? then CoerceValue(value, Some(PFloat))
    else if reference.VStr? then VStr(PyStr(value))
    else value
  }

  /** `_coerce_like` is `_coerce_value` with the reference's own type as the target. */
  lemma CoerceLikeIsCoerceValue(reference: Value, value: Value)
    ensures CoerceLike(reference, value) == CoerceValue(value, TypeOf(reference))
  {
  }

  /** A value already of the reference's type is kept as it is. */
  lemma CoerceLikeKeepsSameType(reference: Value, value: Value)
    requires TypeOf(reference).Some? && TypeOf(reference) == TypeOf(value)
    ensures CoerceLike(reference, value) == value
  {
    if value.VStr? {
      CoerceIdempotent(value, Some(PStr));
    }
  }

  // ---------------------------------------------------------------------------
  // Leftover parameters

  /** The keyword arguments `run` pops before binding the tool's own parameters. */
  const ConnectionKeys: set<string> := {"settings_path", "servers_path", "server", "host", "username", "password", "key_path"}

  /** The names `_build_call_kwargs` fills without consuming a parameter. */
  const InjectedNames: set<string> := {"executor", "config", "server"}

  /**
   * The parameters left over once the tool's signature has taken its own:
   * every popped-by-name parameter of the signature is consumed, the injected
   * ones are not.
   */
  function Remaining(params: Dict, signature: set<string>): (rest: Dict)
    ensures rest.Keys <= params.Keys
    ensures forall k :: k in rest ==> k !in ConnectionKeys && rest[k] == params[k]
    ensures forall k :: k in signature && k !in InjectedNames ==> k !in rest
    ensures forall k :: k in params && k !in ConnectionKeys && (k !in signature || k in InjectedNames) ==> k in rest
  {
    map k | k in params && k !in ConnectionKeys && (k !in signature || k in InjectedNames) :: params[k]
  }

  /** The value a leftover parameter is stored as: coerced like a non-`None` configured value, else raw. */
  function Folded(config: Dict, key: string, value: Value): Value
  {
    if key in config && config[key] != VNone then CoerceLike(config[key], value) else value
  }

  /** `config` after every leftover parameter has been written into it. */
  function FoldLeftovers(config: Dict, remaining: Dict): (r: Dict)
    ensures r.Keys == config.Keys + remaining.Keys
    ensures forall k :: k in config && k !in remaining ==> r[k] == config[k]
  {
    map k | k in config.Keys + remaining.Keys :: if k in remaining then Folded(config, k, remaining[k]) else config[k]
  }

  /** A leftover whose configured value is a string ends up as its `str()`; one with no configured value is kept raw. */
  lemma LeftoverTyping(config: Dict, remaining: Dict, key: string)
    requires key in remaining
    ensures key in config && config[key].VStr? ==> FoldLeftovers(config, remaining)[key] == VStr(PyStr(remaining[key]))
    ensures (key !in config || config[key] == VNone) ==> FoldLeftovers(config, remaining)[key] == remaining[key]
  {
  }

  /**
   * The loop of `_build_call_kwargs` that writes the leftovers into `config`.
   * Whatever order the keys are visited in, each reference is the value
   * configured before the loop, so the outcome is the same.
   */
  method WriteLeftovers(config: Dict, remaining: Dict) returns (updated: Dict)
    ensures updated == FoldLeftovers(config, remaining)
  {
    updated := config;
    var todo := remaining.Keys;
    while todo != {}
      invariant todo <= remaining.Keys
      invariant updated.Keys == config.Keys + (remaining.Keys - todo)
      invariant forall k :: k in updated ==> updated[k] == if k in remaining && k !in todo then Folded(config, k, remaining[k]) else config[k]
      decreases todo
    {
      var key :| key in todo;
      var value := remaining[key];
      var reference := if key in config then config[key] else VNone;
      if reference != VNone {
        updated := updated[key := CoerceLike(reference, value)];
      } else {
        updated := updated[key := value];
      }
      todo := todo - {key};
    }
  }

  // ---------------------------------------------------------------------------
  // Binding the tool's parameters

  /** One parameter of the tool's `run` as `inspect.signature` lists it: its name, and whether it has no default. */
  datatype Parameter = Parameter(name: string, required: bool)

  /** The names of a signature's parameters. */
  function Names(sig: seq<Parameter>): set<string>
  {
    set i | 0 <= i < |sig| :: sig[i].name
  }

  const HomeNotProvided: string :=
    "tomcat_home not provided. Supply via parameters or settings under post_install.tomcat_* or post_install.default_tomcat_home."

  /** The ValueError for a required parameter that neither the caller nor the configuration supplies. */
  function MissingRequired(parameter: string, tool: string): string
  {
    "Missing required parameter '" + parameter + "' for tool '" + tool + "'"
  }

  /**
   * The home a `tomcat_home` parameter receives: the caller's unless it is
   * `None`, else `config.get("tomcat_home") or config.get("default_tomcat_home")`.
   */
  function HomeFound(remaining: Dict, config: Dict): Value
  {
    if Get(remaining, "tomcat_home") != VNone then remaining["tomcat_home"]
    else Or(Get(config, "tomcat_home"), Get(config, "default_tomcat_home"))
  }

  /**
   * Whether `_build_call_kwargs` passes the parameter `p`: the injected names
   * always, `tomcat_home` unless it is required and no home is found, and any
   * other name the caller or the configuration supplies. A required parameter
   * with no value raises a ValueError, whose message the `Failure` carries.
   */
  function Binds(p: Parameter, remaining: Dict, config: Dict, tool: string): (r: Result<bool>)
    ensures r.Success? && (p.required || p.name in InjectedNames) ==> r.value
    ensures r.Failure? ==> p.required && p.name !in InjectedNames
  {
    if p.name in InjectedNames then Success(true)
    else if p.name == "tomcat_home" then
      if HomeFound(remaining, config) == VNone && p.required then Failure(HomeNotProvided) else Success(true)
    else if p.name in remaining || p.name in config then Success(true)
    else if p.required then Failure(MissingRequired(p.name, tool))
    else Success(false)
  }

  /** The caller's parameters once `p` has been bound: every name but an injected one is popped. */
  function Popped(p: Parameter, remaining: Dict): Dict
  {
    if p.name in InjectedNames then remaining else remaining - {p.name}
  }

  /**
   * The names `_build_call_kwargs` passes while visiting `visited` in order,
   * or the message of the first ValueError. Only visited names are passed, and
   * every visited parameter that is required or injected is passed.
   */
  function PassedNames(visited: seq<Parameter>, remaining: Dict, config: Dict, tool: string): (r: Result<set<string>>)
    ensures r.Success? ==> r.value <= Names(visited)
    ensures r.Success? ==> forall i :: 0 <= i < |visited| && (visited[i].required || visited[i].name in InjectedNames) ==>
                                         visited[i].name in r.value
    decreases |visited|
  {
    if visited == [] then Success({})
    else
      match Binds(visited[0], remaining, config, tool)
      case Failure(e) => Failure(e)
      case Success(b) =>
        match PassedNames(visited[1..], Popped(visited[0], remaining), config, tool)
        case Failure(e) => Failure(e)
        case Success(later) =>
          assert forall i :: 1 <= i < |visited| ==> visited[i] == visited[1..][i - 1];
          assert Names(visited) == {visited[0].name} + Names(visited[1..]) by { NamesCons(visited); }
          Success(if b then {visited[0].name} + later else later)
  }

  lemma NamesCons(sig: seq<Parameter>)
    requires sig != []
    ensures Names(sig) == {sig[0].name} + Names(sig[1..])
  {
    forall n | n in Names(sig)
      ensures n in {sig[0].name} + Names(sig[1..])
    {
      var i :| 0 <= i < |sig| && sig[i].name == n;
      if i > 0 {
        assert sig[1..][i - 1] == sig[i];
      }
    }
    forall n | n in Names(sig[1..])
      ensures n in Names(sig)
    {
      var i :| 0 <= i < |sig[1..]| && sig[1..][i].name == n;
      assert sig[i + 1] == sig[1..][i];
    }
  }

  /** `passed` added to the names of an outcome that succeeded. */
  function Including(passed: set<string>, outcome: Result<set<string>>): Result<set<string>>
  {
    match outcome
    case Failure(e) => Failure(e)
    case Success(later) => Success(passed + later)
  }

  lemma IncludingNothing(outcome: Result<set<string>>)
    ensures Including({}, outcome) == outcome
  {
    if outcome.Success? {
      assert {} + outcome.value == outcome.value;
    }
  }

  lemma IncludingTwice(first: set<string>, second: set<string>, outcome: Result<set<string>>)
    ensures Including(first, Including(second, outcome)) == Including(first + second, outcome)
  {
    if outcome.Success? {
      assert first + (second + outcome.value) == (first + second) + outcome.value;
    }
  }

  /** One parameter's step: its own binding, then the rest with its name popped. */
  lemma PassedStep(visited: seq<Parameter>, remaining: Dict, config: Dict, tool: string)
    requires visited != []
    ensures Binds(visited[0], remaining, config, tool).Failure? ==>
              PassedNames(visited, remaining, config, tool) == Failure(Binds(visited[0], remaining, config, tool).error)
    ensures Binds(visited[0], remaining, config, tool).Success? ==>
              PassedNames(visited, remaining, config, tool) ==
              Including(if Binds(visited[0], remaining, config, tool).value then {visited[0].name} else {},
                        PassedNames(visited[1..], Popped(visited[0], remaining), config, tool))
  {
    var later := PassedNames(visited[1..], Popped(visited[0], remaining), config, tool);
    if Binds(visited[0], remaining, config, tool).Success? && later.Success? && !Binds(visited[0], remaining, config, tool).value {
      assert {} + later.value == later.value;
    }
  }

  /** The loop of `_build_call_kwargs` over the parameters it visits. */
  method BindParameters(visited: seq<Parameter>, remaining: Dict, config: Dict, tool: string)
    returns (r: Result<set<string>>)
    ensures r == PassedNames(visited, remaining, config, tool)
  {
    var passed: set<string> := {};
    var rest := remaining;
    var i := 0;
    assert visited[i..] == visited;
    IncludingNothing(PassedNames(visited, remaining, config, tool));
    while i < |visited|
      invariant 0 <= i <= |visited|
      invariant PassedNames(visited, remaining, config, tool) == Including(passed, PassedNames(visited[i..], rest, config, tool))
    {
      var p := visited[i];
      assert visited[i..][0] == p && visited[i..][1..] == visited[i + 1..];
      var bound := Binds(p, rest, config, tool);
      PassedStep(visited[i..], rest, config, tool);
      if bound.Failure? {
        return Failure(bound.error);
      }
      IncludingTwice(passed, if bound.value then {p.name} else {}, PassedNames(visited[i + 1..], Popped(p, rest), config, tool));
      if bound.value {
        passed := passed + {p.name};
      }
      rest := Popped(p, rest);
      i := i + 1;
    }
    assert visited[i..] == [];
    r := Success(passed);
  }

  /** The TypeError `tool.run(**kwargs)` raises for a required parameter it is not given. */
  function MissingArgument(parameter: string): string
  {
    "run() missing 1 required positional argument: '" + parameter + "'"
  }

  /** The first required parameter of `sig` whose name is not among `passed`. */
  function FirstUnpassed(sig: seq<Parameter>, passed: set<string>): (r: Option<string>)
    ensures r.None? <==> forall i :: 0 <= i < |sig| && sig[i].required ==> sig[i].name in passed
    ensures r.Some? ==> r.value !in passed
    ensures sig != [] && sig[0].required && sig[0].name !in passed ==> r == Some(sig[0].name)
    decreases |sig|
  {
    if sig == [] then None
    else if sig[0].required && sig[0].name !in passed then Some(sig[0].name)
    else
      assert forall i :: 1 <= i < |sig| ==> sig[i] == sig[1..][i - 1];
      FirstUnpassed(sig[1..], passed)
  }

  /**
   * Building the keyword arguments from the parameters `visited` and calling
   * the tool, whose `run` has the signature `sig` (without `self`): the names
   * passed, or the message of the ValueError or TypeError raised.
   */
  function Call(sig: seq<Parameter>, visited: seq<Parameter>, remaining: Dict, config: Dict, tool: string): Result<set<string>>
  {
    match PassedNames(visited, remaining, config, tool)
    case Failure(e) => Failure(e)
    case Success(passed) =>
      match FirstUnpassed(sig, passed)
      case Some(n) => Failure(MissingArgument(n))
      case None => Success(passed)
  }

  /**
   * The parameters visited as written: `list(sig.parameters.items())[1:]`.
   * The signature of a bound method already leaves `self` out, so this drops
   * the first real parameter.
   */
  function VisitedAsWritten(sig: seq<Parameter>): seq<Parameter>
  {
    if sig == [] then [] else sig[1..]
  }

  /**
   * As written, a tool whose first parameter is required is never given it:
   * when the other parameters bind, the call raises the TypeError for it.
   */
  lemma AsWrittenCallFails(sig: seq<Parameter>, remaining: Dict, config: Dict, tool: string)
    requires sig != [] && sig[0].required
    requires forall i :: 1 <= i < |sig| ==> sig[i].name != sig[0].name
    ensures Call(sig, VisitedAsWritten(sig), remaining, config, tool).Failure?
    ensures PassedNames(sig[1..], remaining, config, tool).Success? ==>
              Call(sig, VisitedAsWritten(sig), remaining, config, tool) == Failure(MissingArgument(sig[0].name))
  {
    var passed := PassedNames(sig[1..], remaining, config, tool);
    if passed.Success? {
      assert sig[0].name !in Names(sig[1..]);
      assert sig[0].name !in passed.value;
    }
  }

  /** Visiting the whole signature, the call never lacks a required parameter: it fails only with a ValueError of the binding. */
  lemma FullSignatureBinds(sig: seq<Parameter>, remaining: Dict, config: Dict, tool: string)
    ensures Call(sig, sig, remaining, config, tool) == PassedNames(sig, remaining, config, tool)
    ensures Call(sig, sig, remaining, config, tool).Success? ==>
              forall i :: 0 <= i < |sig| && sig[i].name in InjectedNames ==> sig[i].name in Call(sig, sig, remaining, config, tool).value
  {
  }

  // ---------------------------------------------------------------------------
  // run

  /** `_failure(message)`. */
  function FailureResult(name: string, message: string): (r: Dict)
    ensures "status" in r && r["status"] == VStr("Failed")
    ensures "details" in r && r["details"] == VStr(message)
  {
    map["name" := VStr(name), "status" := VStr("Failed"), "command" := VStr(name), "details" := VStr(message)]
  }

  /** `result.setdefault(key, value)`. */
  function SetDefault(d: Dict, key: string, value: Value): (r: Dict)
    ensures key in r && (key in d ==> r == d)
  {
    if key in d then d else d[key := value]
  }

  /** `server_info.get("name", server_info.get("host"))`. */
  function TargetName(rec: ServerRecord): string
  {
    if "name" in rec then rec["name"] else Field(rec, "host")
  }

  /** `server_info.get(field) or None`. */
  function Credential(rec: ServerRecord, field: string): Option<string>
  {
    if Lacks(rec, field) then None else Some(rec[field])
  }

  /** The server records `run` works from; a missing inventory file counts as an empty one. */
  function Inventory(file: Option<seq<Section>>): Result<seq<ServerRecord>>
  {
    match file
    case None => Success([])
    case Some(sections) => Records(Defaults(sections), sections)
  }

  /**
   * The tool itself, given the connected record and its configuration
   * section (leftovers written in); `Failure` when it raises.
   */
  type ToolRun = (ServerRecord, Dict) -> Result<Dict>

  /**
   * What `run` returns once the connection record is settled: connect, build
   * the keyword arguments (`call`), run the tool, name the target.
   */
  function Connected(name: string, rec: ServerRecord, config: Dict, connectError: Option<string>,
                     call: Result<set<string>>, tool: ToolRun): Dict
    requires "host" in rec
  {
    match connectError
    case Some(e) => FailureResult(name, "Unable to connect to " + rec["host"] + ": " + e)
    case None =>
      match call
      case Failure(e) => FailureResult(name, "Execution error: " + e)
      case Success(_) =>
        match tool(rec, config)
        case Failure(e) => FailureResult(name, "Execution error: " + e)
        case Success(out) => SetDefault(out, "target_server", VStr(TargetName(rec)))
  }

  /**
   * As written, a remote tool, whose `run` starts with the required
   * `executor`, always ends in `Execution error` once connected.
   */
  lemma AsWrittenExecutionError(name: string, rec: ServerRecord, config: Dict, sig: seq<Parameter>,
                                remaining: Dict, tool: ToolRun)
    requires "host" in rec
    requires sig != [] && sig[0] == Parameter("executor", true)
    requires forall i :: 1 <= i < |sig| ==> sig[i].name != "executor"
    ensures Call(sig, VisitedAsWritten(sig), remaining, config, name).Failure?
    ensures Connected(name, rec, config, None, Call(sig, VisitedAsWritten(sig), remaining, config, name), tool) ==
              FailureResult(name, "Execution error: " + Call(sig, VisitedAsWritten(sig), remaining, config, name).error)
  {
    AsWrittenCallFails(sig, remaining, config, name);
  }

  /** What `run` returns. */
  function RunResult(name: string, settings: Result<Value>, file: Option<seq<Section>>, params: Dict,
                     configPath: seq<string>, signature: seq<Parameter>, connectError: Option<string>,
                     tool: ToolRun): (r: Dict)
  {
    match settings
    case Failure(e) => FailureResult(name, "Unable to load settings YAML: " + e)
    case Success(s) =>
      match Inventory(file)
      case Failure(e) => FailureResult(name, "Unable to load server inventory: " + e)
      case Success(servers) => ServersResult(name, s, servers, params, configPath, signature, connectError, tool)
  }

  /** What `run` returns once the settings and the inventory `servers` are loaded. */
  function ServersResult(name: string, settings: Value, servers: seq<ServerRecord>, params: Dict,
                         configPath: seq<string>, signature: seq<Parameter>, connectError: Option<string>,
                         tool: ToolRun): Dict
  {
    match ConnectionTarget(servers, OverridesOf(params))
    case Failure(e) => FailureResult(name, e)
    case Success(rec) =>
      Connected(name, rec, FoldLeftovers(ResolvedConfig(settings, configPath), Remaining(params, Names(signature))), connectError,
                Call(signature, signature, Remaining(params, {}), ResolvedConfig(settings, configPath), name), tool)
  }

  /**
   * `run`: loads the inputs, settles the connection record, connects, runs the
   * tool, and closes the session on the way out of the tool call.
   */
  method Run(name: string, settings: Result<Value>, file: Option<seq<Section>>, params: Dict,
             configPath: seq<string>, signature: seq<Parameter>, link: Link, tool: ToolRun)
    returns (result: Dict, ghost session: Option<Executor>)
    ensures result == RunResult(name, settings, file, params, configPath, signature, link.connectError, tool)
    ensures session.Some? ==> fresh(session.value) && (link.connectError.None? ==> session.value.closed)
  {
    session := None;
    if settings.Failure? {
      return FailureResult(name, "Unable to load settings YAML: " + settings.error), session;
    }
    var servers := Inventory(file);
    if servers.Failure? {
      return FailureResult(name, "Unable to load server inventory: " + servers.error), session;
    }
    result, session := RunOnServers(name, settings.value, servers.value, params, configPath, signature, link, tool);
  }

  /** `run` once the settings and the server inventory are loaded. */
  method RunOnServers(name: string, settings: Value, servers: seq<ServerRecord>, params: Dict,
                      configPath: seq<string>, signature: seq<Parameter>, link: Link, tool: ToolRun)
    returns (result: Dict, ghost session: Option<Executor>)
    ensures result == ServersResult(name, settings, servers, params, configPath, signature, link.connectError, tool)
    ensures session.Some? ==> fresh(session.value) && (link.connectError.None? ==> session.value.closed)
  {
    session := None;
    var target := PrepareServer(servers, OverridesOf(params));
    if target.Failure? {
      return FailureResult(name, target.error), session;
    }
    var config := ResolveConfig(settings, configPath);
    result, session := Connect(name, target.value, config, params, signature, link, tool);
  }

  /**
   * The part of `run` that holds the session: the keyword arguments are built
   * from the whole signature, and the session is closed once the tool has run
   * or raised, whatever it did.
   */
  method Connect(name: string, info: ServerRecord, config: Dict, params: Dict, signature: seq<Parameter>, link: Link, tool: ToolRun)
    returns (result: Dict, ghost session: Option<Executor>)
    requires !Lacks(info, "host") && !Lacks(info, "username")
    ensures result == Connected(name, info, FoldLeftovers(config, Remaining(params, Names(signature))), link.connectError,
                                Call(signature, signature, Remaining(params, {}), config, name), tool)
    ensures session.Some? ==> fresh(session.value) && (link.connectError.None? ==> session.value.closed)
  {
    var executor := new Executor(info["host"], info["username"], Credential(info, "password"), Credential(info, "key_path"), link);
    session := Some(executor);
    var error := executor.Connect();
    if error.Some? {
      return FailureResult(name, "Unable to connect to " + info["host"] + ": " + error.value), session;
    }
    var passed := BindParameters(signature, Remaining(params, {}), config, name);
    if passed.Failure? {
      executor.Close();
      return FailureResult(name, "Execution error: " + passed.error), session;
    }
    FullSignatureBinds(signature, Remaining(params, {}), config, name);
    var folded := WriteLeftovers(config, Remaining(params, Names(signature)));
    var outcome := tool(info, folded);
    executor.Close();
    match outcome {
      case Failure(e) => result := FailureResult(name, "Execution error: " + e);
      case Success(out) => result := SetDefault(out, "target_server", VStr(TargetName(info)));
    }
  }
}
