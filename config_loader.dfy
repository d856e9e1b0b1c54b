/**
 * Configuration shaping (Remote/utilities/config_loader.py): layered deep
 * merge of settings dictionaries, and turning a parsed server INI file into
 * server records with a `[defaults]` overlay and required-field checks.
 * Reading YAML and INI text is not modelled: both start from parsed maps.
 */
module ConfigLoader {
  import opened Wrappers
  import opened Text
  import opened Values

  // ---------------------------------------------------------------------------
  // Deep merge

  /** `_deep_merge(base, overrides)`: a new dictionary; neither argument is touched (values are immutable). */
  function DeepMerge(base: Dict, overrides: Dict): (merged: Dict)
    ensures merged.Keys == base.Keys + overrides.Keys
    ensures forall k :: k in base && k !in overrides ==> merged[k] == base[k]
    ensures forall k :: k in overrides && !(k in base && base[k].VDict? && overrides[k].VDict?) ==> merged[k] == overrides[k]
    ensures forall k :: k in overrides && k in base && base[k].VDict? && overrides[k].VDict? ==>
      merged[k].VDict? && merged[k].fields.Keys == base[k].fields.Keys + overrides[k].fields.Keys
    decreases VDict(overrides)
  {
    map k | k in base.Keys + overrides.Keys ::
      if k in overrides then
        if k in base && base[k].VDict? && overrides[k].VDict? then
          assert overrides[k] in VDict(overrides).fields.Values;
          VDict(DeepMerge(base[k].fields, overrides[k].fields))
        else overrides[k]
      else base[k]
  }

  /** Merging nothing in changes nothing. */
  lemma MergeEmptyOverrides(base: Dict)
    ensures DeepMerge(base, map[]) == base
  {
  }

  /** Merging into an empty base gives the overrides back. */
  lemma MergeIntoEmpty(overrides: Dict)
    ensures DeepMerge(map[], overrides) == overrides
  {
  }

  /** A dictionary merged with itself is unchanged, at every depth. */
  lemma {:induction false} MergeSelf(d: Dict)
    ensures DeepMerge(d, d) == d
    decreases VDict(d)
  {
    forall k | k in d && d[k].VDict?
      ensures DeepMerge(d[k].fields, d[k].fields) == d[k].fields
    {
      assert d[k] in VDict(d).fields.Values;
      MergeSelf(d[k].fields);
    }
  }

  /** Applying the same override layer twice is the same as applying it once. */
  lemma {:induction false} MergeTwice(base: Dict, overrides: Dict)
    ensures DeepMerge(DeepMerge(base, overrides), overrides) == DeepMerge(base, overrides)
    decreases VDict(overrides)
  {
    var once := DeepMerge(base, overrides);
    forall k | k in overrides && k in base && base[k].VDict? && overrides[k].VDict?
      ensures DeepMerge(once[k].fields, overrides[k].fields) == once[k].fields
    {
      assert overrides[k] in VDict(overrides).fields.Values;
      MergeTwice(base[k].fields, overrides[k].fields);
    }
    forall k | k in overrides && !(k in base && base[k].VDict? && overrides[k].VDict?) && overrides[k].VDict?
      ensures DeepMerge(once[k].fields, overrides[k].fields) == once[k].fields
    {
      MergeSelf(overrides[k].fields);
    }
  }

  /** `merge_dict(base, overrides)`: the layers applied left to right. */
  function MergeAll(base: Dict, layers: seq<Dict>): Dict
    decreases |layers|
  {
    if layers == [] then base else MergeAll(DeepMerge(base, layers[0]), layers[1..])
  }

  /** Adding a layer at the end merges it over everything before it: later layers win. */
  lemma {:induction false} MergeAllSnoc(base: Dict, layers: seq<Dict>, last: Dict)
    ensures MergeAll(base, layers + [last]) == DeepMerge(MergeAll(base, layers), last)
    decreases |layers|
  {
    if layers != [] {
      assert (layers + [last])[1..] == layers[1..] + [last];
      MergeAllSnoc(DeepMerge(base, layers[0]), layers[1..], last);
    }
  }

  /** `merge_dict`: a copy of `base`, then each layer deep-merged over the result in turn. */
  method MergeDict(base: Dict, overrides: seq<Dict>) returns (result: Dict)
    ensures result == MergeAll(base, overrides)
    ensures overrides == [] ==> result == base
    ensures overrides != [] ==> result.Keys >= overrides[|overrides| - 1].Keys
  {
    result := base;
    var i := 0;
    while i < |overrides|
      invariant 0 <= i <= |overrides|
      invariant MergeAll(result, overrides[i..]) == MergeAll(base, overrides)
      invariant i > 0 ==> result.Keys >= overrides[i - 1].Keys
    {
      assert overrides[i..][1..] == overrides[i + 1..];
      result := DeepMerge(result, overrides[i]);
      i := i + 1;
    }
  }

  // ---------------------------------------------------------------------------
  // Server INI

  /** One INI section as `configparser` returns it: its name and its key/value items. */
  datatype Section = Section(name: string, items: map<string, string>)

  /** A server record: INI values are strings. */
  type ServerRecord = map<string, string>

  /** The items of the section named exactly `defaults`, or none. */
  function Defaults(sections: seq<Section>): map<string, string>
  {
    if sections == [] then map[]
    else if sections[0].name == "defaults" then sections[0].items
    else Defaults(sections[1..])
  }

  /** A section that is not a server: its lower-cased name is `defaults`. */
  predicate IsDefaultsSection(s: Section)
  {
    Lower(s.name) == "defaults"
  }

  /** The record for one server section: defaults overlaid by the section, `name` defaulting to the section name. */
  function Overlay(defaults: map<string, string>, s: Section): (rec: ServerRecord)
    ensures forall k :: k in s.items ==> k in rec && rec[k] == s.items[k]
    ensures forall k :: k in defaults && k !in s.items && k != "name" ==> k in rec && rec[k] == defaults[k]
    ensures "name" in rec
    ensures "name" !in defaults && "name" !in s.items ==> rec["name"] == s.name
    ensures rec.Keys == defaults.Keys + s.items.Keys + {"name"}
  {
    var data := defaults + s.items;
    if "name" in data then data else data["name" := s.name]
  }

  /** `not data.get(field)` for a string-valued record. */
  predicate Lacks(rec: ServerRecord, field: string)
  {
    field !in rec || rec[field] == ""
  }

  /** The required fields a record lacks, in the order host, username. */
  function MissingFields(rec: ServerRecord): (missing: seq<string>)
    ensures "host" in missing <==> Lacks(rec, "host")
    ensures "username" in missing <==> Lacks(rec, "username")
    ensures |missing| <= 2
  {
    (if Lacks(rec, "host") then ["host"] else []) + (if Lacks(rec, "username") then ["username"] else [])
  }

  function MissingMessage(section: string, missing: seq<string>): string
  {
    "Section '" + section + "' missing required fields: " + Join(", ", missing)
  }

  /** The server records of `sections`, in order, or the error for the first incomplete one. */
  function Records(defaults: map<string, string>, sections: seq<Section>): (r: Result<seq<ServerRecord>>)
    ensures r.Success? ==> forall rec :: rec in r.value ==> !Lacks(rec, "host") && !Lacks(rec, "username")
    ensures r.Success? ==> |r.value| <= |sections|
    decreases |sections|
  {
    if sections == [] then Success([])
    else if IsDefaultsSection(sections[0]) then Records(defaults, sections[1..])
    else
      var rec := Overlay(defaults, sections[0]);
      var missing := MissingFields(rec);
      if missing != [] then Failure(MissingMessage(sections[0].name, missing))
      else
        match Records(defaults, sections[1..])
        case Success(rest) => Success([rec] + rest)
        case Failure(e) => Failure(e)
  }

  /** The server sections, in file order. */
  function ServerSections(sections: seq<Section>): (servers: seq<Section>)
    ensures forall s :: s in servers ==> s in sections && !IsDefaultsSection(s)
  {
    if sections == [] then []
    else if IsDefaultsSection(sections[0]) then ServerSections(sections[1..])
    else [sections[0]] + ServerSections(sections[1..])
  }

  /** On success, the records are exactly the overlays of the server sections, in order. */
  lemma {:induction false} RecordsAreOverlays(defaults: map<string, string>, sections: seq<Section>)
    requires Records(defaults, sections).Success?
    ensures var recs := Records(defaults, sections).value;
      var servers := ServerSections(sections);
      |recs| == |servers| && forall i :: 0 <= i < |recs| ==> recs[i] == Overlay(defaults, servers[i])
    decreases |sections|
  {
    if sections != [] {
      RecordsAreOverlays(defaults, sections[1..]);
    }
  }

  /** Loading fails exactly when some server section lacks a host or username. */
  lemma {:induction false} RecordsFailIffIncomplete(defaults: map<string, string>, sections: seq<Section>)
    ensures Records(defaults, sections).Failure? <==>
      exists s :: s in ServerSections(sections) && MissingFields(Overlay(defaults, s)) != []
    decreases |sections|
  {
    if sections != [] {
      RecordsFailIffIncomplete(defaults, sections[1..]);
      var rest := ServerSections(sections[1..]);
      if !IsDefaultsSection(sections[0]) {
        assert ServerSections(sections) == [sections[0]] + rest;
      }
    }
  }

  /** A parsed INI file; `None` when the path does not name a file. */
  function LoadServers(file: Option<seq<Section>>, path: string): Result<seq<ServerRecord>>
  {
    match file
    case None => Failure("Server INI file not found: " + path)
    case Some(sections) => Records(Defaults(sections), sections)
  }

  /** The records `servers` already gathered, followed by those of the remaining sections. */
  function Prepend(servers: seq<ServerRecord>, rest: Result<seq<ServerRecord>>): (r: Result<seq<ServerRecord>>)
    ensures r.Failure? <==> rest.Failure?
  {
    match rest
    case Success(recs) => Success(servers + recs)
    case Failure(e) => Failure(e)
  }

  lemma PrependSnoc(servers: seq<ServerRecord>, rec: ServerRecord, rest: Result<seq<ServerRecord>>)
    ensures Prepend(servers, Prepend([rec], rest)) == Prepend(servers + [rec], rest)
  {
    if rest.Success? {
      assert servers + ([rec] + rest.value) == servers + [rec] + rest.value;
    }
  }

  /** The records of the sections from `i` on: those of section `i` and then the rest. */
  lemma RecordsFrom(defaults: map<string, string>, sections: seq<Section>, i: nat)
    requires i < |sections|
    ensures Records(defaults, sections[i..]) ==
      if IsDefaultsSection(sections[i]) then Records(defaults, sections[i + 1..])
      else if MissingFields(Overlay(defaults, sections[i])) != [] then
        Failure(MissingMessage(sections[i].name, MissingFields(Overlay(defaults, sections[i]))))
      else Prepend([Overlay(defaults, sections[i])], Records(defaults, sections[i + 1..]))
  {
    assert sections[i..][1..] == sections[i + 1..];
  }

  /** `load_server_ini`: walks the sections, appending each server's record or stopping at the first incomplete one. */
  method LoadServerIni(file: Option<seq<Section>>, path: string) returns (r: Result<seq<ServerRecord>>)
    ensures r == LoadServers(file, path)
  {
    if file.None? {
      return Failure("Server INI file not found: " + path);
    }
    var sections := file.value;
    var defaults := Defaults(sections);
    var servers: seq<ServerRecord> := [];
    var i := 0;
    assert sections[i..] == sections;
    if Records(defaults, sections).Success? {
      assert servers + Records(defaults, sections).value == Records(defaults, sections).value;
    }
    while i < |sections|
      invariant 0 <= i <= |sections|
      invariant Records(defaults, sections) == Prepend(servers, Records(defaults, sections[i..]))
    {
      RecordsFrom(defaults, sections, i);
      var section := sections[i];
      if IsDefaultsSection(section) {
        i := i + 1;
        continue;
      }
      var data := Overlay(defaults, section);
      var missing := MissingFields(data);
      if missing != [] {
        return Failure(MissingMessage(section.name, missing));
      }
      PrependSnoc(servers, data, Records(defaults, sections[i + 1..]));
      servers := servers + [data];
      i := i + 1;
    }
    assert sections[i..] == [];
    assert servers + [] == servers;
    r := Success(servers);
  }
}
