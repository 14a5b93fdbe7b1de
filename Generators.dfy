/**
 * Generator resolution: `readGeneratorsJson`, `readGenerator` and
 * `isNxGenerator`. A collection's generators manifest is searched key by key,
 * in `Object.keys` order, for the first key that is the requested name or lists it
 * among its aliases; when none does, the collections named in `extends` are
 * searched in order, and the first one that resolves wins.
 *
 * The source recurses through `extends` without a cycle guard. Here `fuel` is
 * the remaining call depth: a call made with none left fails with
 * `CallStackExceeded`, which the calling loop swallows like any other failure
 * of a parent, as the `catch` at line 181 does with a stack overflow.
 */
module Generators {
  import opened Wrappers
  import opened Paths
  import opened Json
  import opened Errors
  import opened Manifests

  /** `generatorsJson.generators || generatorsJson.schematics`. */
  function EntriesOf(json: GeneratorsJson): Option<Dict<GeneratorEntry>> {
    if json.generators.Some? then json.generators else json.schematics
  }

  /** `generatorsJson.extends || []`. */
  function ParentsOf(json: GeneratorsJson): seq<string> {
    if json.parents.Some? then json.parents.value else []
  }

  /** Lines 167-174: key `k` answers to `name` when it is `name` or its entry's aliases contain `name`. */
  predicate Answers(gens: Dict<GeneratorEntry>, k: string, name: string) {
    || k == name
    || (Get(gens, k).Some? && Get(gens, k).value.aliases.Some? && name in Get(gens, k).value.aliases.value)
  }

  /** The first key from position `i` on that answers to `name`. */
  function LocalMatchFrom(gens: Dict<GeneratorEntry>, name: string, i: nat): (r: Option<string>)
    ensures r.Some? ==> r.value in Keys(gens) && Get(gens, r.value).Some? && Answers(gens, r.value, name)
    decreases |gens| - i
  {
    if i >= |gens| then None
    else if Answers(gens, gens[i].0, name) then
      KeyHasValue(gens, i);
      assert Keys(gens)[i] == gens[i].0;
      Some(gens[i].0)
    else LocalMatchFrom(gens, name, i + 1)
  }

  /** The key that `name` designates in one manifest, if any: the first key, in `Object.keys` order, that answers to it. */
  function LocalMatch(gens: Dict<GeneratorEntry>, name: string): (r: Option<string>)
    ensures r.Some? ==> r.value in Keys(gens) && Get(gens, r.value).Some? && Answers(gens, r.value, name)
  {
    LocalMatchFrom(gens, name, 0)
  }

  lemma {:induction false} LocalMatchFromFirst(gens: Dict<GeneratorEntry>, name: string, i: nat, j: nat)
    requires i <= j < |gens| && Answers(gens, gens[j].0, name)
    requires forall l :: i <= l < j ==> !Answers(gens, gens[l].0, name)
    ensures LocalMatchFrom(gens, name, i) == Some(gens[j].0)
    decreases j - i
  {
    if i < j {
      LocalMatchFromFirst(gens, name, i + 1, j);
    }
  }

  lemma {:induction false} LocalMatchFromNone(gens: Dict<GeneratorEntry>, name: string, i: nat)
    requires i <= |gens|
    ensures LocalMatchFrom(gens, name, i).None? <==> forall l :: i <= l < |gens| ==> !Answers(gens, gens[l].0, name)
    decreases |gens| - i
  {
    if i < |gens| {
      LocalMatchFromNone(gens, name, i + 1);
    }
  }

  /** The key found is the key at the first position whose key answers to `name`. */
  lemma LocalMatchIsFirstAnswer(gens: Dict<GeneratorEntry>, name: string, i: nat)
    requires i < |gens| && Answers(gens, gens[i].0, name)
    requires forall l :: 0 <= l < i ==> !Answers(gens, gens[l].0, name)
    ensures LocalMatch(gens, name) == Some(gens[i].0)
  {
    LocalMatchFromFirst(gens, name, 0, i);
  }

  /** Nothing is found locally exactly when no key answers to `name`. */
  lemma LocalMatchNone(gens: Dict<GeneratorEntry>, name: string)
    ensures LocalMatch(gens, name).None? <==> forall l :: 0 <= l < |gens| ==> !Answers(gens, gens[l].0, name)
  {
    LocalMatchFromNone(gens, name, 0);
  }

  /**
   * The test is made key by key: an earlier key whose aliases contain `name`
   * beats a later key that is `name` itself.
   */
  lemma EarlierAliasBeatsLaterKey(gens: Dict<GeneratorEntry>, name: string, i: nat, j: nat)
    requires i < j < |gens| && gens[j].0 == name && gens[i].0 != name
    requires Get(gens, gens[i].0).Some? && Get(gens, gens[i].0).value.aliases.Some?
    requires name in Get(gens, gens[i].0).value.aliases.value
    requires forall l :: 0 <= l < i ==> !Answers(gens, gens[l].0, name)
    ensures LocalMatch(gens, name) == Some(gens[i].0) != Some(name)
  {
    LocalMatchIsFirstAnswer(gens, name, i);
  }

  /** A key and each of its aliases designate that key, unless an earlier key answers to them. */
  lemma AliasesDesignateTheirKey(gens: Dict<GeneratorEntry>, i: nat, alias: string)
    requires i < |gens|
    requires Get(gens, gens[i].0).Some? && Get(gens, gens[i].0).value.aliases.Some?
    requires alias in Get(gens, gens[i].0).value.aliases.value
    requires forall l :: 0 <= l < i ==> !Answers(gens, gens[l].0, gens[i].0) && !Answers(gens, gens[l].0, alias)
    ensures LocalMatch(gens, alias) == LocalMatch(gens, gens[i].0) == Some(gens[i].0)
  {
    LocalMatchIsFirstAnswer(gens, alias, i);
    LocalMatchIsFirstAnswer(gens, gens[i].0, i);
  }

  /** `s.endsWith('.json')`. */
  predicate EndsWithJson(s: string) {
    |s| >= 5 && s[|s| - 5..] == ".json"
  }

  /** Lines 153-155: the package's `generators` field, or the legacy `schematics` field when it is falsy. */
  function ManifestField(pkg: PackageJson): (r: Option<string>)
    ensures Truthy(pkg.generators) ==> r == pkg.generators
    ensures !Truthy(pkg.generators) ==> r == pkg.schematics
  {
    if Truthy(pkg.generators) then pkg.generators else pkg.schematics
  }

  /**
   * Lines 146-159: where the generators manifest of collection `c` is. A
   * collection ending in `.json` is resolved as it is; otherwise its
   * package's `generators` field, or the legacy `schematics` field when that
   * is not set, is resolved next to its `package.json`.
   */
  function LocateGeneratorsFile(host: Host, c: string): (r: Result<Path, Failure>)
    ensures EndsWithJson(c) ==> (r.Ok? <==> c in host.collections)
    ensures EndsWithJson(c) && r.Ok? ==> r.value == host.collections[c]
    ensures !EndsWithJson(c) ==> (r.Ok? <==>
      c in host.packages && ManifestField(host.packages[c]).Some? &&
      Join(Dirname(host.packages[c].path), ManifestField(host.packages[c]).value) in host.resolve)
    ensures !EndsWithJson(c) && r.Ok? ==>
      r.value == host.resolve[Join(Dirname(host.packages[c].path), ManifestField(host.packages[c]).value)]
  {
    if EndsWithJson(c) then
      if c in host.collections then Ok(host.collections[c]) else Err(CollectionNotFound(c))
    else if c !in host.packages then Err(PackageNotFound(c))
    else
      var pkg := host.packages[c];
      var file := ManifestField(pkg);
      if file.None? then Err(TypeError("The \"path\" argument must be of type string"))
      else
        var request := Join(Dirname(pkg.path), file.value);
        if request in host.resolve then Ok(host.resolve[request]) else Err(ModuleNotFound(request))
  }

  /** What `readGeneratorsJson` returns: the manifest's path, the manifest, and the key found. */
  datatype GeneratorsFound = GeneratorsFound(path: Path, json: GeneratorsJson, name: string)

  /** `f` names a manifest of the host and a key of it that the local lookup of `name` finds. */
  predicate MatchedIn(host: Host, f: GeneratorsFound, name: string) {
    && f.path in host.generatorsFiles && host.generatorsFiles[f.path] == f.json
    && EntriesOf(f.json).Some? && f.name != ""
    && LocalMatch(EntriesOf(f.json).value, name) == Some(f.name)
  }

  /**
   * `readGeneratorsJson` with `fuel` levels of call depth left: the local
   * lookup, and only when it finds nothing (or finds the key ""), the
   * parents in `extends`. The result always names the manifest where the key
   * was actually found.
   */
  function ResolveGenerators(host: Host, c: string, name: string, fuel: nat): (r: Result<GeneratorsFound, Failure>)
    ensures r.Ok? ==> MatchedIn(host, r.value, name)
    ensures fuel == 0 ==> r == Err(CallStackExceeded)
    ensures fuel > 0 && LocateGeneratorsFile(host, c).Err? ==> r == Err(LocateGeneratorsFile(host, c).error)
    ensures fuel > 0 && LocateGeneratorsFile(host, c).Ok? && LocateGeneratorsFile(host, c).value !in host.generatorsFiles ==>
      r == Err(FileNotFound(LocateGeneratorsFile(host, c).value))
    ensures (fuel > 0 && LocateGeneratorsFile(host, c).Ok? && LocateGeneratorsFile(host, c).value in host.generatorsFiles &&
             EntriesOf(host.generatorsFiles[LocateGeneratorsFile(host, c).value]).None?) ==>
      r.Err? && r.error.TypeError?
    decreases fuel, 0
  {
    if fuel == 0 then Err(CallStackExceeded)
    else match LocateGeneratorsFile(host, c)
      case Err(e) => Err(e)
      case Ok(path) =>
        if path !in host.generatorsFiles then Err(FileNotFound(path))
        else
          var json := host.generatorsFiles[path];
          match EntriesOf(json)
          case None => Err(TypeError("Cannot convert undefined or null to object"))
          case Some(gens) =>
            var local := LocalMatch(gens, name);
            if local.Some? && local.value != "" then Ok(GeneratorsFound(path, json, local.value))
            else match FirstSuccess(host, ParentsOf(json), name, fuel - 1)
              case Some(f) => Ok(f)
              case None => Err(CannotFindGenerator(name, path))
  }

  /** Lines 178-182: the result of the first of `parents` that resolves; the failures of the others are dropped. */
  function FirstSuccess(host: Host, parents: seq<string>, name: string, fuel: nat): (r: Option<GeneratorsFound>)
    ensures r.Some? ==> MatchedIn(host, r.value, name)
    decreases fuel, |parents| + 1
  {
    if parents == [] then None
    else match ResolveGenerators(host, parents[0], name, fuel)
      case Ok(f) => Some(f)
      case Err(_) => FirstSuccess(host, parents[1..], name, fuel)
  }

  /**
   * `readGeneratorsJson` (lines 144-189): the scan of the keys with `break`,
   * then the loop over `extends` that returns the first parent's success.
   */
  method ReadGeneratorsJson(host: Host, c: string, name: string, fuel: nat) returns (r: Result<GeneratorsFound, Failure>)
    ensures r == ResolveGenerators(host, c, name, fuel)
    decreases fuel
  {
    if fuel == 0 {
      return Err(CallStackExceeded);
    }
    var located := LocateGeneratorsFile(host, c);
    if located.Err? {
      return Err(located.error);
    }
    var path := located.value;
    if path !in host.generatorsFiles {
      return Err(FileNotFound(path));
    }
    var json := host.generatorsFiles[path];
    var entries := EntriesOf(json);
    if entries.None? {
      return Err(TypeError("Cannot convert undefined or null to object"));
    }
    var gens := entries.value;

    var keys := Keys(gens);
    var normalized: Option<string> := None;
    var i := 0;
    while i < |keys|
      invariant 0 <= i <= |keys|
      invariant normalized == None
      invariant LocalMatchFrom(gens, name, i) == LocalMatch(gens, name)
    {
      var k := keys[i];
      if k == name {
        normalized := Some(k);
        break;
      }
      var entry := Get(gens, k);
      if entry.Some? && entry.value.aliases.Some? && name in entry.value.aliases.value {
        normalized := Some(k);
        break;
      }
      i := i + 1;
    }

    if normalized.None? || normalized.value == "" {
      var parents := ParentsOf(json);
      var j := 0;
      while j < |parents|
        invariant 0 <= j <= |parents|
        invariant FirstSuccess(host, parents[j..], name, fuel - 1) == FirstSuccess(host, parents, name, fuel - 1)
      {
        var attempt := ReadGeneratorsJson(host, parents[j], name, fuel - 1);
        if attempt.Ok? {
          return attempt;
        }
        assert parents[j..][1..] == parents[j + 1..];
        j := j + 1;
      }
      return Err(CannotFindGenerator(name, path));
    }
    return Ok(GeneratorsFound(path, json, normalized.value));
  }

  // ---------------------------------------------------------------------------
  // Properties of the search

  /** When the local lookup finds a key, it is the result and `extends` is not consulted. */
  lemma LocalMatchTakesPriority(host: Host, c: string, name: string, fuel: nat, path: Path)
    requires fuel > 0 && LocateGeneratorsFile(host, c) == Ok(path) && path in host.generatorsFiles
    requires EntriesOf(host.generatorsFiles[path]).Some?
    requires var m := LocalMatch(EntriesOf(host.generatorsFiles[path]).value, name); m.Some? && m.value != ""
    ensures ResolveGenerators(host, c, name, fuel) ==
      Ok(GeneratorsFound(path, host.generatorsFiles[path], LocalMatch(EntriesOf(host.generatorsFiles[path]).value, name).value))
  {
  }

  /** The first parent that resolves gives the result, whatever the parents before it failed with. */
  lemma {:induction false} FirstResolvingParentWins(host: Host, parents: seq<string>, name: string, fuel: nat, i: nat)
    requires i < |parents|
    requires forall l :: 0 <= l < i ==> ResolveGenerators(host, parents[l], name, fuel).Err?
    requires ResolveGenerators(host, parents[i], name, fuel).Ok?
    ensures FirstSuccess(host, parents, name, fuel) == Some(ResolveGenerators(host, parents[i], name, fuel).value)
  {
    if i > 0 {
      assert forall l :: 0 <= l < i - 1 ==> parents[1..][l] == parents[l + 1];
      FirstResolvingParentWins(host, parents[1..], name, fuel, i - 1);
    }
  }

  /** A parent in `extends` whose manifest cannot be located is skipped. */
  lemma MissingParentSkipped(host: Host, parents: seq<string>, name: string, fuel: nat)
    requires parents != [] && LocateGeneratorsFile(host, parents[0]).Err?
    ensures FirstSuccess(host, parents, name, fuel) == FirstSuccess(host, parents[1..], name, fuel)
  {
  }

  /** The search through the parents fails exactly when every parent fails. */
  lemma {:induction false} NoParentResolves(host: Host, parents: seq<string>, name: string, fuel: nat)
    ensures FirstSuccess(host, parents, name, fuel).None? <==>
      forall l :: 0 <= l < |parents| ==> ResolveGenerators(host, parents[l], name, fuel).Err?
  {
    if parents != [] {
      NoParentResolves(host, parents[1..], name, fuel);
      assert forall l :: 1 <= l < |parents| ==> parents[1..][l - 1] == parents[l];
    }
  }

  /** The manifest of `c` is found and parsed, and the local lookup of `name` finds nothing usable. */
  predicate NoLocalMatch(host: Host, c: string, name: string, path: Path) {
    && LocateGeneratorsFile(host, c) == Ok(path) && path in host.generatorsFiles
    && EntriesOf(host.generatorsFiles[path]).Some?
    && var m := LocalMatch(EntriesOf(host.generatorsFiles[path]).value, name); m.None? || m.value == ""
  }

  /**
   * A generator that `c` does not define is the one of the first parent in
   * `extends` that resolves it, found in that parent's manifest (or further
   * up), and it is loaded from there.
   */
  lemma InheritedFromFirstResolvingParent(host: Host, c: string, name: string, fuel: nat, path: Path, i: nat)
    requires fuel > 0 && NoLocalMatch(host, c, name, path)
    requires var ps := ParentsOf(host.generatorsFiles[path]);
      && i < |ps|
      && (forall l :: 0 <= l < i ==> ResolveGenerators(host, ps[l], name, fuel - 1).Err?)
      && ResolveGenerators(host, ps[i], name, fuel - 1).Ok?
    ensures var p := ParentsOf(host.generatorsFiles[path])[i];
      && ResolveGenerators(host, c, name, fuel) == ResolveGenerators(host, p, name, fuel - 1)
      && (ReadGenerator(host, c, name, fuel).Ok? <==> ReadGenerator(host, p, name, fuel - 1).Ok?)
      && (ReadGenerator(host, c, name, fuel).Ok? ==> ReadGenerator(host, c, name, fuel) == ReadGenerator(host, p, name, fuel - 1))
  {
    FirstResolvingParentWins(host, ParentsOf(host.generatorsFiles[path]), name, fuel - 1, i);
  }

  /**
   * Without a local match, and with no `extends`, an empty one, or only
   * parents that fail, resolution fails with `Cannot find generator` naming
   * the requested collection's manifest, and `readGenerator` wraps it.
   */
  lemma GeneratorNotFound(host: Host, c: string, name: string, fuel: nat, path: Path)
    requires fuel > 0 && NoLocalMatch(host, c, name, path)
    requires var ps := ParentsOf(host.generatorsFiles[path]);
      forall l :: 0 <= l < |ps| ==> ResolveGenerators(host, ps[l], name, fuel - 1).Err?
    ensures ResolveGenerators(host, c, name, fuel) == Err(CannotFindGenerator(name, path))
    ensures ReadGenerator(host, c, name, fuel) == Err(UnableToResolve(c + ":" + name, CannotFindGenerator(name, path)))
  {
    NoParentResolves(host, ParentsOf(host.generatorsFiles[path]), name, fuel - 1);
  }

  // ---------------------------------------------------------------------------
  // Loading the generator that was found

  /** Lines 112-114: `implementation` when it is set, else the legacy `factory`. */
  function ImplementationOf(e: GeneratorEntry): Option<string> {
    if Truthy(e.implementation) then e.implementation else e.factory
  }

  /** Lines 105-116: the entry's schema and implementation, relative to the directory of the manifest it was found in. */
  function LoadGenerator(host: Host, f: GeneratorsFound): (r: Result<Resolved, Failure>)
    ensures forall name :: MatchedIn(host, f, name) ==>
      var entry := Get(EntriesOf(f.json).value, f.name).value;
      r == LoadCapability(host, Dirname(f.path), entry.schema, ImplementationOf(entry))
  {
    match EntriesOf(f.json)
    case None => Err(TypeError("Cannot convert undefined or null to object"))
    case Some(gens) =>
      match Get(gens, f.name)
      case None => Err(TypeError("Cannot read properties of undefined (reading 'schema')"))
      case Some(entry) => LoadCapability(host, Dirname(f.path), entry.schema, ImplementationOf(entry))
  }

  /**
   * `readGenerator`: the schema and implementation of the generator that
   * `collection` designates by `name`. Every failure is wrapped as
   * `Unable to resolve <collection>:<name>`.
   */
  function ReadGenerator(host: Host, collection: string, name: string, fuel: nat): (r: Result<Resolved, Failure>)
    ensures r.Err? ==> r.error.UnableToResolve? && r.error.id == collection + ":" + name
    ensures ResolveGenerators(host, collection, name, fuel).Err? ==>
      r == Err(UnableToResolve(collection + ":" + name, ResolveGenerators(host, collection, name, fuel).error))
    ensures r.Ok? ==>
      ResolveGenerators(host, collection, name, fuel).Ok? &&
      var f := ResolveGenerators(host, collection, name, fuel).value;
      var entry := Get(EntriesOf(f.json).value, f.name).value;
      r == LoadCapability(host, Dirname(f.path), entry.schema, ImplementationOf(entry))
    ensures ResolveGenerators(host, collection, name, fuel).Ok? ==>
      var f := ResolveGenerators(host, collection, name, fuel).value;
      var entry := Get(EntriesOf(f.json).value, f.name).value;
      var loaded := LoadCapability(host, Dirname(f.path), entry.schema, ImplementationOf(entry));
      r == if loaded.Ok? then loaded else Err(UnableToResolve(collection + ":" + name, loaded.error))
  {
    match ResolveGenerators(host, collection, name, fuel)
    case Err(e) => Err(UnableToResolve(collection + ":" + name, e))
    case Ok(f) =>
      match LoadGenerator(host, f)
      case Err(e) => Err(UnableToResolve(collection + ":" + name, e))
      case Ok(resolved) => Ok(resolved)
  }

  /**
   * `isNxGenerator`: whether the resolved schema's `cli` is "nx"; a
   * resolution failure is passed on unchanged.
   */
  function IsNxGenerator(host: Host, collection: string, name: string, fuel: nat): (r: Result<bool, Failure>)
    ensures ReadGenerator(host, collection, name, fuel).Err? ==> r == Err(ReadGenerator(host, collection, name, fuel).error)
    ensures r == Ok(true) <==>
      ReadGenerator(host, collection, name, fuel).Ok? && CliIsNx(ReadGenerator(host, collection, name, fuel).value.schema)
    ensures r == Ok(false) <==>
      ReadGenerator(host, collection, name, fuel).Ok? && ReadGenerator(host, collection, name, fuel).value.schema != JNull &&
      !CliIsNx(ReadGenerator(host, collection, name, fuel).value.schema)
  {
    match ReadGenerator(host, collection, name, fuel)
    case Err(e) => Err(e)
    case Ok(resolved) => IsNx(resolved.schema)
  }
}
