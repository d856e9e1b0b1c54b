/**
 * `list_servers`: reads the server inventory INI file and lists one line per
 * server. The path a caller gives is tidied first: a blank path, or one that
 * still begins with the documentation's placeholder, means the default
 * inventory; a relative path gets the system's separator throughout. Paths
 * follow POSIX rules: the separator is `/` and an absolute path begins with
 * `/`.
 */
module InventoryTool {
  import opened Wrappers
  import opened Text
  import ConfigLoader

  const ToolName: string := "list_servers"
  const DefaultServersPath: string := "Remote/config/servers.ini"
  const NoServers: string := "No servers defined."
  /** `os.sep` under POSIX. */
  const Sep: string := "/"

  /** The tool's answer; `servers` is present only when the inventory loaded. */
  datatype Listing = Listing(status: string, details: string, command: string, servers: Option<seq<ConfigLoader.ServerRecord>>)

  // ---------------------------------------------------------------------------
  // The path

  /** `path.lower().startswith(prefix)` for one of the two placeholder prefixes. */
  predicate IsPlaceholder(path: string)
  {
    StartsWith(Lower(path), "/path/to") || StartsWith(Lower(path), "\\path\\to")
  }

  /** `os.path.isabs(path)` under POSIX rules. */
  predicate IsAbsolute(path: string)
  {
    |path| > 0 && path[0] == '/'
  }

  /** `_normalize_path(raw_path)`; `None` stands for a `None` argument. */
  function NormalizePath(raw: Option<string>): string
  {
    var given := Strip(if raw.Some? then raw.value else "");
    var path := if given == [] || IsPlaceholder(given) then DefaultServersPath else given;
    if IsAbsolute(path) then path else Replace(Replace(path, "\\", Sep), "/", Sep)
  }

  /** The default path holds no backslash and is relative, so tidying it leaves it as it is. */
  lemma DefaultPathUnchanged()
    ensures Replace(Replace(DefaultServersPath, "\\", Sep), "/", Sep) == DefaultServersPath
  {
    assert !Contains(DefaultServersPath, "\\") by {
      forall i | 0 <= i <= |DefaultServersPath| - 1
        ensures !OccursAt(DefaultServersPath, "\\", i)
      {
        assert DefaultServersPath[i] != '\\';
      }
    }
    ReplaceAbsent(DefaultServersPath, "\\", "/");
    ReplaceSame(DefaultServersPath, '/');
  }

  /** Replacing a character by itself changes nothing. */
  lemma {:induction false} ReplaceSame(s: string, c: char)
    ensures Replace(s, [c], [c]) == s
    decreases |s|
  {
    if |s| >= 1 {
      ReplaceSame(s[1..], c);
      if s[..1] == [c] {
        assert [c] + s[1..] == s;
      } else {
        assert [s[0]] + s[1..] == s;
      }
    }
  }

  /** A blank path, or one starting with a placeholder in any letter case, means the default inventory. */
  lemma PlaceholderMeansDefault(raw: Option<string>)
    requires var given := Strip(if raw.Some? then raw.value else ""); given == [] || IsPlaceholder(given)
    ensures NormalizePath(raw) == DefaultServersPath
  {
    DefaultPathUnchanged();
  }

  /** Any other absolute path is kept as given, less surrounding whitespace. */
  lemma AbsoluteKept(raw: string)
    requires Strip(raw) != [] && !IsPlaceholder(Strip(raw)) && IsAbsolute(Strip(raw))
    ensures NormalizePath(Some(raw)) == Strip(raw)
  {
  }

  /** Any other relative path comes back with every backslash turned into `/` and nothing else changed. */
  lemma RelativeSeparators(raw: string)
    requires Strip(raw) != [] && !IsPlaceholder(Strip(raw)) && !IsAbsolute(Strip(raw))
    ensures NormalizePath(Some(raw)) == Replace(Strip(raw), "\\", "/")
    ensures '\\' !in NormalizePath(Some(raw))
  {
    ReplaceSame(Replace(Strip(raw), "\\", "/"), '/');
    ReplaceCharRemoves(Strip(raw), '\\', "/");
  }

  // ---------------------------------------------------------------------------
  // The summary

  /** `server.get(key, fallback)`. */
  function Field(server: ConfigLoader.ServerRecord, key: string, fallback: string): string
  {
    if key in server then server[key] else fallback
  }

  /** `f"{name} ({host}) as {username}"`, with the placeholders for missing fields. */
  function Line(server: ConfigLoader.ServerRecord): (line: string)
    ensures var name := Field(server, "name", "<unnamed>");
      |line| > |name| + 1 && line[..|name|] == name && line[|name|..|name| + 2] == " ("
  {
    var name := Field(server, "name", "<unnamed>");
    var line := name + " (" + Field(server, "host", "<unknown>") + ") as " + Field(server, "username", "<unknown>");
    assert line[..|name|] == name;
    assert line[|name|..|name| + 2] == " (";
    line
  }

  /** One line per server, in inventory order. */
  function Entries(servers: seq<ConfigLoader.ServerRecord>): (entries: seq<string>)
    ensures |entries| == |servers|
    ensures forall i :: 0 <= i < |servers| ==> entries[i] == Line(servers[i])
  {
    seq(|servers|, i requires 0 <= i < |servers| => Line(servers[i]))
  }

  /** The lines joined by newlines, or the fixed message when there are none. */
  function Summary(servers: seq<ConfigLoader.ServerRecord>): string
  {
    if Entries(servers) == [] then NoServers else Join("\n", Entries(servers))
  }

  /** A joined text begins with its first part. */
  lemma {:induction false} JoinBegins(sep: string, parts: seq<string>)
    requires |parts| >= 1
    ensures |Join(sep, parts)| >= |parts[0]| && Join(sep, parts)[..|parts[0]|] == parts[0]
  {
    if |parts| > 1 {
      assert Join(sep, parts) == parts[0] + (sep + Join(sep, parts[1..]));
    }
  }

  /** The summary is the fixed message exactly when there are no servers. */
  lemma SummaryEmptyIff(servers: seq<ConfigLoader.ServerRecord>)
    ensures Summary(servers) == NoServers <==> servers == []
  {
    if servers != [] {
      var entries := Entries(servers);
      var name := Field(servers[0], "name", "<unnamed>");
      JoinBegins("\n", entries);
      var s := Join("\n", entries);
      assert s[..|entries[0]|] == entries[0];
      assert s[|name| + 1] == entries[0][|name| + 1] == '(';
      assert forall k :: 0 <= k < |NoServers| ==> NoServers[k] != '(';
    }
  }

  /** No field of the record holds a line break. */
  predicate SingleLineFields(server: ConfigLoader.ServerRecord)
  {
    forall k :: k in server ==> '\n' !in server[k]
  }

  lemma LineSingle(server: ConfigLoader.ServerRecord)
    requires SingleLineFields(server)
    ensures '\n' !in Line(server)
  {
    var name := Field(server, "name", "<unnamed>");
    var host := Field(server, "host", "<unknown>");
    var user := Field(server, "username", "<unknown>");
    assert '\n' !in name && '\n' !in host && '\n' !in user;
    assert Line(server) == name + " (" + host + ") as " + user;
  }

  /** With servers whose fields hold no line break, the summary splits back into their lines, one per server, in order. */
  lemma SummarySplits(servers: seq<ConfigLoader.ServerRecord>)
    requires servers != []
    requires forall i :: 0 <= i < |servers| ==> SingleLineFields(servers[i])
    ensures Split(Summary(servers), '\n') == Entries(servers)
  {
    var entries := Entries(servers);
    forall i | 0 <= i < |entries|
      ensures '\n' !in entries[i]
    {
      LineSingle(servers[i]);
    }
    SplitJoin(entries, '\n');
  }

  // ---------------------------------------------------------------------------
  // The run

  /** `f"load_server_ini({path})"`. */
  function LoadCommand(path: string): string
  {
    "load_server_ini(" + path + ")"
  }

  /**
   * `run(servers_path)`, where `file` is what the normalised path names: the
   * sections of an INI file, or `None` when there is no such file.
   */
  function Inventory(raw: Option<string>, file: Option<seq<ConfigLoader.Section>>): Listing
  {
    var path := NormalizePath(raw);
    match file
    case None => Listing("Failed", "Server inventory not found at " + path, LoadCommand(path), None)
    case Some(_) =>
      match ConfigLoader.LoadServers(file, path)
      case Failure(e) => Listing("Failed", "Unable to parse inventory: " + e, LoadCommand(path), None)
      case Success(servers) => Listing("Success", Summary(servers), LoadCommand(path), Some(servers))
  }

  /** A missing file and a file that does not parse fail with different details, and neither lists servers. */
  lemma FailuresDistinct(raw: Option<string>, sections: seq<ConfigLoader.Section>)
    requires ConfigLoader.LoadServers(Some(sections), NormalizePath(raw)).Failure?
    ensures var missing := Inventory(raw, None);
      var broken := Inventory(raw, Some(sections));
      && missing.status == "Failed" && broken.status == "Failed"
      && missing.servers.None? && broken.servers.None?
      && missing.details != broken.details
      && missing.command == broken.command == LoadCommand(NormalizePath(raw))
  {
    var path := NormalizePath(raw);
    var m := "Server inventory not found at " + path;
    var b := "Unable to parse inventory: " + ConfigLoader.LoadServers(Some(sections), path).error;
    assert m[0] == 'S' && b[0] == 'U';
  }

  /** A file that loads lists its servers, in order, and summarises them. */
  lemma LoadedLists(raw: Option<string>, sections: seq<ConfigLoader.Section>)
    requires ConfigLoader.LoadServers(Some(sections), NormalizePath(raw)).Success?
    ensures var servers := ConfigLoader.LoadServers(Some(sections), NormalizePath(raw)).value;
      var r := Inventory(raw, Some(sections));
      && r.status == "Success" && r.servers == Some(servers)
      && (r.details == NoServers <==> servers == [])
      && r.command == LoadCommand(NormalizePath(raw))
  {
    SummaryEmptyIff(ConfigLoader.LoadServers(Some(sections), NormalizePath(raw)).value);
  }

  // ---------------------------------------------------------------------------
  // The tool

  /** The loop of `run` that builds one entry per server. */
  method BuildEntries(servers: seq<ConfigLoader.ServerRecord>) returns (entries: seq<string>)
    ensures entries == Entries(servers)
  {
    entries := [];
    var i := 0;
    while i < |servers|
      invariant 0 <= i <= |servers|
      invariant entries == Entries(servers[..i])
    {
      assert Entries(servers[..i + 1]) == Entries(servers[..i]) + [Line(servers[i])];
      entries := entries + [Line(servers[i])];
      i := i + 1;
    }
    assert servers[..i] == servers;
  }

  /** `run(servers_path)`. */
  method Run(raw: Option<string>, file: Option<seq<ConfigLoader.Section>>) returns (r: Listing)
    ensures r == Inventory(raw, file)
  {
    var path := NormalizePath(raw);
    if file.None? {
      return Listing("Failed", "Server inventory not found at " + path, LoadCommand(path), None);
    }
    var loaded := ConfigLoader.LoadServerIni(file, path);
    if loaded.Failure? {
      return Listing("Failed", "Unable to parse inventory: " + loaded.error, LoadCommand(path), None);
    }
    var entries := BuildEntries(loaded.value);
    var summary := if entries != [] then Join("\n", entries) else NoServers;
    r := Listing("Success", summary, LoadCommand(path), Some(loaded.value));
  }
}
