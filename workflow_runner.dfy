/**
 * The per-server provisioning sequence (Remote/run_remote_workflow.py,
 * `RemoteWorkflowRunner.run_for_server`): connect, install Java, install
 * Tomcat, then start, validate and stop it, each stage only when the settings
 * configure it, stopping early when an install stage fails, and closing the
 * session on every way out.
 *
 * The stage tools are given as functions from their configuration to their
 * result dictionary; their own decisions are modelled in their own modules.
 */
module WorkflowRunner {
  import opened Wrappers
  import opened Values
  import opened ConfigLoader
  import opened RemoteExecutor
  import opened Sequences

  /**
   * A dictionary that remembers insertion order, as the per-server result
   * does: its summary lists the stages in the order they ran.
   */
  type Entries = seq<(string, Value)>

  function Keys(e: Entries): (ks: seq<string>)
    ensures |ks| == |e| && forall i :: 0 <= i < |e| ==> ks[i] == e[i].0
  {
    if e == [] then [] else [e[0].0] + Keys(e[1..])
  }

  /** The dictionary an ordered result stands for. */
  function EntriesDict(e: Entries): Dict
  {
    if e == [] then map[] else EntriesDict(e[..|e| - 1])[e[|e| - 1].0 := e[|e| - 1].1]
  }

  /** `container.get(key, default)`, which raises unless the container is a dictionary. */
  function PyGet(container: Value, key: string, default: Value): (r: Result<Value>)
    ensures r.Success? <==> container.VDict?
  {
    if container.VDict? then Success(GetOr(container.fields, key, default))
    else Failure("AttributeError: " + NoGet(container))
  }

  /** The stage tools, each from its configuration (and the Tomcat home or server it is handed) to its result. */
  datatype Stages = Stages(
    java: Value -> Dict,
    install: Value -> Dict,
    start: (Value, Value) -> Dict,
    validation: (Value, ServerRecord, Value) -> Dict,
    stop: (Value, Value) -> Dict)

  /** `server.get("name", server.get("host"))`. */
  function ServerName(server: ServerRecord): (v: Value)
    ensures "name" in server ==> v == VStr(server["name"])
    ensures "name" !in server && "host" in server ==> v == VStr(server["host"])
    ensures "name" !in server && "host" !in server ==> v == VNone
  {
    if "name" in server then VStr(server["name"])
    else if "host" in server then VStr(server["host"])
    else VNone
  }

  /** `server.get(field) or None`. */
  function Credential(server: ServerRecord, field: string): (r: Option<string>)
    ensures r.Some? <==> field in server && server[field] != ""
  {
    if field in server && server[field] != "" then Some(server[field]) else None
  }

  function ConnectionFailed(message: string): Dict
  {
    map["status" := VStr("Failed"), "details" := VStr("Unable to connect: " + message)]
  }

  const ValidationSkipped: Dict := map["status" := VStr("Skipped"), "details" := VStr("Tomcat home not available for validation")]

  /** `(cfg or {}).get("tomcat_home")`. */
  function HomeOf(cfg: Value): Result<Value>
  {
    PyGet(Or(cfg, VDict(map[])), "tomcat_home", VNone)
  }

  /** The first truthy value, or the last value when none is (Python's chained `or`). */
  function FirstTruthy(vs: seq<Value>): Value
    requires vs != []
  {
    if |vs| == 1 || Truthy(vs[0]) then vs[0] else FirstTruthy(vs[1..])
  }

  /**
   * The effective Tomcat home: the install result's, the post-install
   * default, then the start, validation and stop configurations', evaluated
   * lazily, so a stage configuration is only asked once every earlier
   * candidate was falsy.
   */
  function EffectiveHome(installed: Value, defaultHome: Value, startCfg: Value, validationCfg: Value, stopCfg: Value): Result<Value>
  {
    if Truthy(installed) then Success(installed)
    else if Truthy(defaultHome) then Success(defaultHome)
    else StageHome(startCfg, validationCfg, stopCfg)
  }

  /** The part of the precedence that asks the stage configurations. */
  function StageHome(startCfg: Value, validationCfg: Value, stopCfg: Value): Result<Value>
  {
    var fromStart :- HomeOf(startCfg);
    if Truthy(fromStart) then Success(fromStart)
    else
      var fromValidation :- HomeOf(validationCfg);
      if Truthy(fromValidation) then Success(fromValidation)
      else HomeOf(stopCfg)
  }

  /** A stage configuration that is a dictionary or falsy never makes the lookup raise. */
  predicate Lookupable(cfg: Value)
  {
    !Truthy(cfg) || cfg.VDict?
  }

  lemma HomeOfLookupable(cfg: Value)
    requires Lookupable(cfg)
    ensures HomeOf(cfg) == Success(Get(AsDict(cfg), "tomcat_home"))
  {
    if !Truthy(cfg) {
      assert Or(cfg, VDict(map[])) == VDict(map[]);
      if cfg.VDict? {
        assert cfg.fields == map[];
      }
    }
  }

  /** With well-formed stage configurations the home is the first truthy candidate in precedence order. */
  lemma HomePrecedence(installed: Value, defaultHome: Value, startCfg: Value, validationCfg: Value, stopCfg: Value)
    requires Lookupable(startCfg) && Lookupable(validationCfg) && Lookupable(stopCfg)
    ensures EffectiveHome(installed, defaultHome, startCfg, validationCfg, stopCfg) ==
      Success(FirstTruthy([installed, defaultHome, Get(AsDict(startCfg), "tomcat_home"),
                           Get(AsDict(validationCfg), "tomcat_home"), Get(AsDict(stopCfg), "tomcat_home")]))
  {
    var fromStart, fromValidation, fromStop :=
      Get(AsDict(startCfg), "tomcat_home"), Get(AsDict(validationCfg), "tomcat_home"), Get(AsDict(stopCfg), "tomcat_home");
    FirstOfFive(installed, defaultHome, fromStart, fromValidation, fromStop);
    FirstOfThree(fromStart, fromValidation, fromStop);
    StageHomePrecedence(startCfg, validationCfg, stopCfg);
  }

  lemma FirstOfThree(a: Value, b: Value, c: Value)
    ensures FirstTruthy([a, b, c]) == if Truthy(a) then a else if Truthy(b) then b else c
  {
    assert [a, b, c][1..] == [b, c];
    assert [b, c][1..] == [c];
    assert FirstTruthy([c]) == c;
  }

  lemma FirstOfFive(a: Value, b: Value, c: Value, d: Value, e: Value)
    ensures FirstTruthy([a, b, c, d, e]) ==
      if Truthy(a) then a else if Truthy(b) then b else FirstTruthy([c, d, e])
  {
    assert [a, b, c, d, e][1..] == [b, c, d, e];
    assert [b, c, d, e][1..] == [c, d, e];
  }

  lemma StageHomePrecedence(startCfg: Value, validationCfg: Value, stopCfg: Value)
    requires Lookupable(startCfg) && Lookupable(validationCfg) && Lookupable(stopCfg)
    ensures StageHome(startCfg, validationCfg, stopCfg) ==
      Success(FirstTruthy([Get(AsDict(startCfg), "tomcat_home"), Get(AsDict(validationCfg), "tomcat_home"), Get(AsDict(stopCfg), "tomcat_home")]))
  {
    HomeOfLookupable(startCfg);
    HomeOfLookupable(validationCfg);
    HomeOfLookupable(stopCfg);
    FirstOfThree(Get(AsDict(startCfg), "tomcat_home"), Get(AsDict(validationCfg), "tomcat_home"), Get(AsDict(stopCfg), "tomcat_home"));
  }

  /** `results.get(key)` on an ordered result: the value of the first entry with that key. */
  function Lookup(e: Entries, key: string): (r: Option<Value>)
    ensures r.None? <==> key !in Keys(e)
  {
    if e == [] then None
    else if e[0].0 == key then Some(e[0].1)
    else Lookup(e[1..], key)
  }

  lemma {:induction false} KeysAppend(a: Entries, b: Entries)
    ensures Keys(a + b) == Keys(a) + Keys(b)
  {
    if a != [] {
      assert (a + b)[1..] == a[1..] + b;
      KeysAppend(a[1..], b);
    }
  }

  lemma {:induction false} LookupAppend(a: Entries, b: Entries, key: string)
    ensures Lookup(a + b, key) == if key in Keys(a) then Lookup(a, key) else Lookup(b, key)
  {
    if a == [] {
      assert a + b == b;
    } else {
      assert (a + b)[1..] == a[1..] + b;
      LookupAppend(a[1..], b, key);
      assert Keys(a) == [a[0].0] + Keys(a[1..]);
    }
  }

  const StartKey := "post_install_tomcat_start"
  const ValidationKey := "post_install_tomcat_validation"
  const StopKey := "post_install_tomcat_stop"

  /**
   * The three post-install stages in order: start and stop when configured,
   * validation when configured and recorded as skipped when no Tomcat home is known.
   */
  function PostStages(done: Entries, server: ServerRecord, stages: Stages,
                      startCfg: Value, validationCfg: Value, stopCfg: Value, home: Value): (r: Entries)
    ensures |r| >= |done| && r[..|done|] == done
  {
    done + StageEntries(server, stages, startCfg, validationCfg, stopCfg, home)
  }

  function StageEntries(server: ServerRecord, stages: Stages,
                        startCfg: Value, validationCfg: Value, stopCfg: Value, home: Value): Entries
  {
    StartEntry(stages, startCfg, home) + (ValidationEntry(server, stages, validationCfg, home) + StopEntry(stages, stopCfg, home))
  }

  function StartEntry(stages: Stages, startCfg: Value, home: Value): Entries
  {
    if Truthy(startCfg) then [(StartKey, VDict(stages.start(startCfg, home)))] else []
  }

  function ValidationEntry(server: ServerRecord, stages: Stages, validationCfg: Value, home: Value): Entries
  {
    if !Truthy(validationCfg) then []
    else if Truthy(home) then [(ValidationKey, VDict(stages.validation(validationCfg, server, home)))]
    else [(ValidationKey, VDict(ValidationSkipped))]
  }

  function StopEntry(stages: Stages, stopCfg: Value, home: Value): Entries
  {
    if Truthy(stopCfg) then [(StopKey, VDict(stages.stop(stopCfg, home)))] else []
  }

  /** Start runs exactly when configured, and is handed the effective home. */
  lemma StartRecorded(done: Entries, server: ServerRecord, stages: Stages,
                      startCfg: Value, validationCfg: Value, stopCfg: Value, home: Value)
    requires StartKey !in Keys(done)
    ensures Lookup(PostStages(done, server, stages, startCfg, validationCfg, stopCfg, home), StartKey) ==
      if Truthy(startCfg) then Some(VDict(stages.start(startCfg, home))) else None
  {
    var later := ValidationEntry(server, stages, validationCfg, home) + StopEntry(stages, stopCfg, home);
    LookupAppend(done, StartEntry(stages, startCfg, home) + later, StartKey);
    LookupAppend(StartEntry(stages, startCfg, home), later, StartKey);
    LookupAppend(ValidationEntry(server, stages, validationCfg, home), StopEntry(stages, stopCfg, home), StartKey);
  }

  /**
   * Validation runs when configured and a home is known, and is recorded as
   * skipped when it is configured but no home is known.
   */
  lemma ValidationRecorded(done: Entries, server: ServerRecord, stages: Stages,
                           startCfg: Value, validationCfg: Value, stopCfg: Value, home: Value)
    requires ValidationKey !in Keys(done)
    ensures Lookup(PostStages(done, server, stages, startCfg, validationCfg, stopCfg, home), ValidationKey) ==
      if !Truthy(validationCfg) then None
      else if Truthy(home) then Some(VDict(stages.validation(validationCfg, server, home)))
      else Some(VDict(ValidationSkipped))
  {
    var later := ValidationEntry(server, stages, validationCfg, home) + StopEntry(stages, stopCfg, home);
    LookupAppend(done, StartEntry(stages, startCfg, home) + later, ValidationKey);
    LookupAppend(StartEntry(stages, startCfg, home), later, ValidationKey);
    LookupAppend(ValidationEntry(server, stages, validationCfg, home), StopEntry(stages, stopCfg, home), ValidationKey);
  }

  /** Stop runs exactly when configured, and is handed the effective home. */
  lemma StopRecorded(done: Entries, server: ServerRecord, stages: Stages,
                     startCfg: Value, validationCfg: Value, stopCfg: Value, home: Value)
    requires StopKey !in Keys(done)
    ensures Lookup(PostStages(done, server, stages, startCfg, validationCfg, stopCfg, home), StopKey) ==
      if Truthy(stopCfg) then Some(VDict(stages.stop(stopCfg, home))) else None
  {
    var later := ValidationEntry(server, stages, validationCfg, home) + StopEntry(stages, stopCfg, home);
    LookupAppend(done, StartEntry(stages, startCfg, home) + later, StopKey);
    LookupAppend(StartEntry(stages, startCfg, home), later, StopKey);
    LookupAppend(ValidationEntry(server, stages, validationCfg, home), StopEntry(stages, stopCfg, home), StopKey);
  }

  /** The post-install stages, run on what the earlier stages recorded. */
  function PostInstall(settings: Value, server: ServerRecord, stages: Stages, done: Entries, installedHome: Value): (r: Result<Entries>)
    requires StartKey !in Keys(done) && ValidationKey !in Keys(done) && StopKey !in Keys(done)
    ensures r.Success? ==> |r.value| >= |done| && r.value[..|done|] == done
  {
    var post :- PyGet(settings, "post_install", VDict(map[]));
    var startCfg :- PyGet(post, "tomcat_start", VNone);
    var validationCfg := Get(post.fields, "tomcat_validation");
    var stopCfg := Get(post.fields, "tomcat_stop");
    var home :- EffectiveHome(installedHome, Get(post.fields, "default_tomcat_home"), startCfg, validationCfg, stopCfg);
    Success(PostStages(done, server, stages, startCfg, validationCfg, stopCfg, home))
  }

  /** `settings.get("pre_install", {}).get("java")`. */
  function JavaConfig(settings: Value): (r: Result<Value>)
    ensures r.Success? ==> settings.VDict?
  {
    var pre :- PyGet(settings, "pre_install", VDict(map[]));
    PyGet(pre, "java", VNone)
  }

  /** `settings.get("install", {}).get("tomcat")`. */
  function InstallConfig(settings: Value): Result<Value>
  {
    var install :- PyGet(settings, "install", VDict(map[]));
    PyGet(install, "tomcat", VNone)
  }

  /** Everything after a successful connect: Java, Tomcat, then post-install. */
  function Provision(settings: Value, server: ServerRecord, stages: Stages, head: Entries): (r: Result<Entries>)
    requires Keys(head) == ["server"]
    ensures r.Success? ==> |r.value| >= |head| && r.value[..|head|] == head
  {
    var javaCfg :- JavaConfig(settings);
    var javaResult := stages.java(javaCfg);
    if Truthy(javaCfg) && Get(javaResult, "status") != VStr("Success") then
      Success(head + [("pre_install_java", VDict(javaResult))])
    else
      var javaPart := if Truthy(javaCfg) then [("pre_install_java", VDict(javaResult))] else [];
      KeysAppend(head, javaPart);
      var r := InstallThenPost(settings, server, stages, head + javaPart);
      assert r.Success? ==> r.value[..|head|] == (head + javaPart)[..|head|];
      r
  }

  /** The Tomcat install stage, then post-install, after the Java stage left `done`. */
  function InstallThenPost(settings: Value, server: ServerRecord, stages: Stages, done: Entries): (r: Result<Entries>)
    requires StartKey !in Keys(done) && ValidationKey !in Keys(done) && StopKey !in Keys(done)
    ensures r.Success? ==> |r.value| >= |done| && r.value[..|done|] == done
  {
    var installCfg :- InstallConfig(settings);
    var installResult := stages.install(installCfg);
    if Truthy(installCfg) && Get(installResult, "status") != VStr("Success") then
      Success(done + [("install_tomcat", VDict(installResult))])
    else
      var installPart := if Truthy(installCfg) then [("install_tomcat", VDict(installResult))] else [];
      KeysAppend(done, installPart);
      var r := PostInstall(settings, server, stages, done + installPart, if Truthy(installCfg) then Get(installResult, "tomcat_home") else VNone);
      assert r.Success? ==> r.value[..|done|] == (done + installPart)[..|done|];
      r
  }

  /**
   * `run_for_server(server)`: the ordered result, or the exception it raises
   * (a record without host or username, or settings that are not nested
   * dictionaries where a stage looks them up).
   */
  function Workflow(settings: Value, server: ServerRecord, connectError: Option<string>, stages: Stages): (r: Result<Entries>)
    ensures ("host" !in server || "username" !in server) ==> r.Failure?
    ensures r.Success? ==> |r.value| >= 1 && r.value[0] == ("server", ServerName(server))
    ensures connectError.Some? && "host" in server && "username" in server ==>
      r == Success([("server", ServerName(server)), ("connection", VDict(ConnectionFailed(connectError.value)))])
  {
    if "host" !in server then Failure("KeyError: 'host'")
    else if "username" !in server then Failure("KeyError: 'username'")
    else
      var head := [("server", ServerName(server))];
      match connectError
      case Some(e) =>
        assert head + [("connection", VDict(ConnectionFailed(e)))] == [head[0], ("connection", VDict(ConnectionFailed(e)))];
        Success(head + [("connection", VDict(ConnectionFailed(e)))])
      case None =>
        var r := Provision(settings, server, stages, head);
        assert r.Success? ==> r.value[0] == r.value[..1][0];
        r
  }

  /** A configured Java install that does not succeed ends the run: Tomcat is not installed and no post-install stage runs. */
  lemma JavaFailureStops(settings: Value, server: ServerRecord, stages: Stages)
    requires "host" in server && "username" in server
    requires JavaConfig(settings).Success? && Truthy(JavaConfig(settings).value)
    requires Get(stages.java(JavaConfig(settings).value), "status") != VStr("Success")
    ensures Workflow(settings, server, None, stages) ==
      Success([("server", ServerName(server)), ("pre_install_java", VDict(stages.java(JavaConfig(settings).value)))])
  {
    var head := [("server", ServerName(server))];
    var javaEntry := ("pre_install_java", VDict(stages.java(JavaConfig(settings).value)));
    assert Workflow(settings, server, None, stages) == Provision(settings, server, stages, head);
    assert Provision(settings, server, stages, head) == Success(head + [javaEntry]);
    assert head + [javaEntry] == [head[0], javaEntry];
  }

  /** A configured Tomcat install that does not succeed ends the run before any post-install stage. */
  lemma InstallFailureStops(settings: Value, server: ServerRecord, stages: Stages)
    requires "host" in server && "username" in server
    requires JavaConfig(settings).Success?
    requires !Truthy(JavaConfig(settings).value) || Get(stages.java(JavaConfig(settings).value), "status") == VStr("Success")
    requires InstallConfig(settings).Success? && Truthy(InstallConfig(settings).value)
    requires Get(stages.install(InstallConfig(settings).value), "status") != VStr("Success")
    ensures Workflow(settings, server, None, stages) ==
      Success([("server", ServerName(server))] +
              (if Truthy(JavaConfig(settings).value) then [("pre_install_java", VDict(stages.java(JavaConfig(settings).value)))] else []) +
              [("install_tomcat", VDict(stages.install(InstallConfig(settings).value)))])
  {
    var head := [("server", ServerName(server))];
    var javaCfg := JavaConfig(settings).value;
    var afterJava := head + if Truthy(javaCfg) then [("pre_install_java", VDict(stages.java(javaCfg)))] else [];
    assert Workflow(settings, server, None, stages) == Provision(settings, server, stages, head);
    assert Provision(settings, server, stages, head) == Success(afterJava + [("install_tomcat", VDict(stages.install(InstallConfig(settings).value)))]);
  }

  /**
   * `run_for_server(server)`: opens a session with the record's credentials,
   * runs the configured stages and closes the session on every way out,
   * including the early returns.
   */
  method RunForServer(settings: Value, server: ServerRecord, link: Link, stages: Stages)
    returns (r: Result<Entries>, ghost session: Option<Executor>)
    ensures r == Workflow(settings, server, link.connectError, stages)
    ensures session.Some? <==> "host" in server && "username" in server
    ensures session.Some? ==> fresh(session.value) && session.value.closed && !session.value.connected
    ensures session.Some? ==> session.value.host == server["host"] && session.value.username == server["username"]
  {
    var results: Entries := [("server", ServerName(server))];
    if "host" !in server {
      return Failure("KeyError: 'host'"), None;
    }
    if "username" !in server {
      return Failure("KeyError: 'username'"), None;
    }
    var executor := new Executor(server["host"], server["username"], Credential(server, "password"),
                                 Credential(server, "key_path"), link);
    session := Some(executor);
    var error := executor.Connect();
    if error.Some? {
      results := results + [("connection", VDict(ConnectionFailed(error.value)))];
      r := Success(results);
    } else {
      r := ProvisionStages(settings, server, stages, results);
    }
    executor.Close();
  }

  /** The Java and Tomcat install stages, each returning early when it does not succeed. */
  method ProvisionStages(settings: Value, server: ServerRecord, stages: Stages, head: Entries) returns (r: Result<Entries>)
    requires Keys(head) == ["server"]
    ensures r == Provision(settings, server, stages, head)
  {
    var results := head;
    var javaCfg := JavaConfig(settings);
    if javaCfg.Failure? {
      return Failure(javaCfg.error);
    }
    if Truthy(javaCfg.value) {
      var javaResult := stages.java(javaCfg.value);
      results := results + [("pre_install_java", VDict(javaResult))];
      if Get(javaResult, "status") != VStr("Success") {
        return Success(results);
      }
    }
    assert results == head + if Truthy(javaCfg.value) then [("pre_install_java", VDict(stages.java(javaCfg.value)))] else [];
    var installCfg := InstallConfig(settings);
    if installCfg.Failure? {
      return Failure(installCfg.error);
    }
    var tomcatHome := VNone;
    if Truthy(installCfg.value) {
      var installResult := stages.install(installCfg.value);
      results := results + [("install_tomcat", VDict(installResult))];
      if Get(installResult, "status") != VStr("Success") {
        return Success(results);
      }
      tomcatHome := Get(installResult, "tomcat_home");
    }
    KeysAppend(head, results[|head|..]);
    assert results == head + results[|head|..];
    assert tomcatHome == if Truthy(installCfg.value) then Get(stages.install(installCfg.value), "tomcat_home") else VNone;
    ghost var afterJava := head + if Truthy(javaCfg.value) then [("pre_install_java", VDict(stages.java(javaCfg.value)))] else [];
    assert results == afterJava + if Truthy(installCfg.value) then [("install_tomcat", VDict(stages.install(installCfg.value)))] else [];
    assert !(Truthy(javaCfg.value) && Get(stages.java(javaCfg.value), "status") != VStr("Success"));
    assert !(Truthy(installCfg.value) && Get(stages.install(installCfg.value), "status") != VStr("Success"));
    assert Provision(settings, server, stages, head) == PostInstall(settings, server, stages, results, tomcatHome);
    r := RunPostInstall(settings, server, stages, results, tomcatHome);
  }

  /** The post-install stages, each appended to the result when its configuration is present. */
  method RunPostInstall(settings: Value, server: ServerRecord, stages: Stages, done: Entries, installedHome: Value)
    returns (r: Result<Entries>)
    requires StartKey !in Keys(done) && ValidationKey !in Keys(done) && StopKey !in Keys(done)
    ensures r == PostInstall(settings, server, stages, done, installedHome)
  {
    var post := PyGet(settings, "post_install", VDict(map[]));
    if post.Failure? {
      return Failure(post.error);
    }
    var startCfg := PyGet(post.value, "tomcat_start", VNone);
    if startCfg.Failure? {
      return Failure(startCfg.error);
    }
    var validationCfg := Get(post.value.fields, "tomcat_validation");
    var stopCfg := Get(post.value.fields, "tomcat_stop");
    var home := EffectiveHome(installedHome, Get(post.value.fields, "default_tomcat_home"), startCfg.value, validationCfg, stopCfg);
    if home.Failure? {
      return Failure(home.error);
    }
    var results := AppendStages(done, server, stages, startCfg.value, validationCfg, stopCfg, home.value);
    r := Success(results);
  }

  /** The three post-install stage blocks, each appending its result when its configuration is present. */
  method AppendStages(done: Entries, server: ServerRecord, stages: Stages,
                      startCfg: Value, validationCfg: Value, stopCfg: Value, home: Value) returns (results: Entries)
    ensures results == PostStages(done, server, stages, startCfg, validationCfg, stopCfg, home)
  {
    results := done;
    if Truthy(startCfg) {
      results := results + [(StartKey, VDict(stages.start(startCfg, home)))];
    }
    assert results == done + StartEntry(stages, startCfg, home);
    ghost var started := results;
    if Truthy(validationCfg) {
      if Truthy(home) {
        results := results + [(ValidationKey, VDict(stages.validation(validationCfg, server, home)))];
      } else {
        results := results + [(ValidationKey, VDict(ValidationSkipped))];
      }
    }
    assert results == started + ValidationEntry(server, stages, validationCfg, home);
    ghost var validated := results;
    if Truthy(stopCfg) {
      results := results + [(StopKey, VDict(stages.stop(stopCfg, home)))];
    }
    assert results == validated + StopEntry(stages, stopCfg, home);
    AppendAssoc(done + StartEntry(stages, startCfg, home), ValidationEntry(server, stages, validationCfg, home), StopEntry(stages, stopCfg, home));
    AppendAssoc(done, StartEntry(stages, startCfg, home), ValidationEntry(server, stages, validationCfg, home) + StopEntry(stages, stopCfg, home));
  }
}
