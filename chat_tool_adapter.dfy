/**
 * The helpers of the chat bot's tool adapter (RemoteAgent/chatbot.py,
 * `RemoteToolAdapter`): finding the inventory record a server identifier
 * names, and the default Tomcat home the settings supply. Its configuration
 * lookup is the same walk as `DynamicAdapter.ResolveConfig`.
 */
module ChatToolAdapter {
  import opened Wrappers
  import opened Text
  import opened Values
  import opened Sequences
  import opened ConfigLoader
  import DynamicAdapter

  /** `str(record.get(field, "")).strip().lower()`. */
  function Normalized(rec: ServerRecord, field: string): string
  {
    Lower(Strip(DynamicAdapter.Field(rec, field)))
  }

  /** `normalized in {name, host}`, both stripped and lower-cased. */
  function IdentifiedBy(normalized: string): ServerRecord -> bool
  {
    rec => normalized == Normalized(rec, "name") || normalized == Normalized(rec, "host")
  }

  /**
   * `_select_server(servers, identifier)`: the first record whose stripped,
   * lower-cased name or host is the stripped, lower-cased identifier.
   */
  function SelectedServer(servers: seq<ServerRecord>, identifier: string): (r: Option<ServerRecord>)
    ensures r.None? <==> forall i :: 0 <= i < |servers| ==> !IdentifiedBy(Lower(Strip(identifier)))(servers[i])
    ensures r.Some? ==> r.value in servers
    ensures r.Some? ==>
      Lower(Strip(identifier)) == Normalized(r.value, "name") || Lower(Strip(identifier)) == Normalized(r.value, "host")
  {
    First(servers, IdentifiedBy(Lower(Strip(identifier))))
  }

  /** Among several records an identifier names, the earliest one wins. */
  lemma EarliestNamedWins(servers: seq<ServerRecord>, identifier: string, i: nat)
    requires i < |servers| && IdentifiedBy(Lower(Strip(identifier)))(servers[i])
    requires forall j :: 0 <= j < i ==> !IdentifiedBy(Lower(Strip(identifier)))(servers[j])
    ensures SelectedServer(servers, identifier) == Some(servers[i])
  {
    FirstAt(servers, IdentifiedBy(Lower(Strip(identifier))), i);
  }

  /**
   * The membership test is not guarded against a blank identifier: one made
   * of whitespace picks a record that has no name, since both normalise to "".
   */
  lemma BlankIdentifierPicksUnnamed(servers: seq<ServerRecord>, identifier: string, i: nat)
    requires IsBlank(identifier) && i < |servers| && "name" !in servers[i]
    ensures SelectedServer(servers, identifier).Some?
  {
    assert Strip("") == "";
    assert IdentifiedBy(Lower(Strip(identifier)))(servers[i]);
  }

  /** The loop of `_select_server`: returns a copy of the first matching record. */
  method SelectServer(servers: seq<ServerRecord>, identifier: string) returns (r: Option<ServerRecord>)
    ensures r == SelectedServer(servers, identifier)
  {
    var normalized := Lower(Strip(identifier));
    r := FindFirst(servers, IdentifiedBy(normalized));
  }

  /** A string value that is not blank, stripped. */
  function NonBlankText(v: Value): (r: Option<string>)
    ensures r.Some? ==> !IsBlank(r.value) && Strip(r.value) == r.value
    ensures r.Some? <==> v.VStr? && !IsBlank(v.s)
  {
    if v.VStr? && !IsBlank(v.s) then
      StripIdempotent(v.s);
      Some(Strip(v.s))
    else None
  }

  /**
   * `_lookup_default_tomcat_home(settings)`: `post_install.default_tomcat_home`
   * when it is a non-blank string, else `install.tomcat.windows.install_root`
   * under the same condition, each stripped; every step must be a dictionary.
   */
  function DefaultTomcatHome(settings: Value): (r: Option<string>)
    ensures r.Some? ==> !IsBlank(r.value) && Strip(r.value) == r.value
  {
    var postInstall := if settings.VDict? then Get(settings.fields, "post_install") else VNone;
    var fromPost := if postInstall.VDict? then NonBlankText(Get(postInstall.fields, "default_tomcat_home")) else None;
    if fromPost.Some? then fromPost
    else
      var install := if settings.VDict? then Get(settings.fields, "install") else VNone;
      if !install.VDict? then None
      else
        var tomcat := Get(install.fields, "tomcat");
        if !tomcat.VDict? then None
        else
          var windows := Get(tomcat.fields, "windows");
          if !windows.VDict? then None
          else NonBlankText(Get(windows.fields, "install_root"))
  }

  lemma ResolvePostInstall(settings: Value)
    ensures DynamicAdapter.ResolvedConfig(settings, ["post_install"]) ==
      if settings.VDict? && Get(settings.fields, "post_install").VDict? then Get(settings.fields, "post_install").fields else map[]
  {
    assert DynamicAdapter.Walk(settings, ["post_install"]) ==
      if settings.VDict? then DynamicAdapter.Walk(GetOr(settings.fields, "post_install", VDict(map[])), []) else None;
  }

  lemma ResolveWindowsInstall(settings: Value)
    ensures var install := if settings.VDict? then Get(settings.fields, "install") else VNone;
      var tomcat := if install.VDict? then Get(install.fields, "tomcat") else VNone;
      var windows := if tomcat.VDict? then Get(tomcat.fields, "windows") else VNone;
      DynamicAdapter.ResolvedConfig(settings, ["install", "tomcat", "windows"]) == AsDict(windows)
  {
    var path := ["install", "tomcat", "windows"];
    assert path == ["install"] + ["tomcat"] + ["windows"];
    assert ["install"] == [] + ["install"];
    DynamicAdapter.ResolveOneMore(settings, [], "install");
    DynamicAdapter.ResolveOneMore(settings, ["install"], "tomcat");
    DynamicAdapter.ResolveOneMore(settings, ["install", "tomcat"], "windows");
  }

  /**
   * The nested lookups read the same two settings sections as the
   * configuration walk does: the post-install section first, then the
   * Windows install section.
   */
  lemma DefaultHomeFromSections(settings: Value)
    ensures DefaultTomcatHome(settings) ==
      match NonBlankText(Get(DynamicAdapter.ResolvedConfig(settings, ["post_install"]), "default_tomcat_home"))
      case Some(home) => Some(home)
      case None => NonBlankText(Get(DynamicAdapter.ResolvedConfig(settings, ["install", "tomcat", "windows"]), "install_root"))
  {
    ResolvePostInstall(settings);
    ResolveWindowsInstall(settings);
  }
}
