/**
 * Executor resolution: `readExecutorsJson`, `readExecutor` and
 * `isNxExecutor`. An executor is named `<module>:<name>`; the module's
 * `package.json` locates its executors manifest, where the name is looked up
 * under `executors`, then under the legacy `builders`.
 */
module Executors {
  import opened Wrappers
  import opened Paths
  import opened Json
  import opened Errors
  import opened Manifests
  import opened WorkspaceConfig

  /** Index of the first ':' in `s`. */
  function ColonIndex(s: string): (r: Option<nat>)
    ensures r.Some? ==> r.value < |s| && s[r.value] == ':' && ':' !in s[..r.value]
    ensures r.None? ==> ':' !in s
  {
    if s == [] then None
    else if s[0] == ':' then Some(0)
    else match ColonIndex(s[1..])
      case None => None
      case Some(i) =>
        assert s[..i + 1] == [s[0]] + s[1..][..i];
        Some(i + 1)
  }

  /** The part of `s` before its first ':', or all of `s`. */
  function FirstField(s: string): (r: string)
    ensures ':' !in r
  {
    match ColonIndex(s)
    case None => s
    case Some(i) => s[..i]
  }

  /**
   * `const [nodeModule, executor] = id.split(':')`: the first two fields of
   * `id`. Without a ':' the second is `undefined`, which JavaScript turns
   * into the property key "undefined" when it is used as one.
   */
  function SplitExecutorId(id: string): (r: (string, string))
    ensures ':' !in r.0
    ensures ':' !in id ==> r == (id, "undefined")
  {
    match ColonIndex(id)
    case None => (id, "undefined")
    case Some(i) => (id[..i], FirstField(id[i + 1..]))
  }

  lemma {:induction false} ColonIndexOfJoined(m: string, n: string)
    requires ':' !in m
    ensures ColonIndex(m + ":" + n) == Some(|m|)
  {
    if m != [] {
      assert (m + ":" + n)[1..] == m[1..] + ":" + n;
      ColonIndexOfJoined(m[1..], n);
    }
  }

  /** Splitting `<module>:<name>` gives back the module and the name. */
  lemma SplitExecutorIdRoundTrip(m: string, n: string)
    requires ':' !in m && ':' !in n
    ensures SplitExecutorId(m + ":" + n) == (m, n)
  {
    ColonIndexOfJoined(m, n);
    var s := m + ":" + n;
    assert s[..|m|] == m;
    assert s[|m| + 1..] == n;
  }

  /** Only the field between the first and second ':' names the executor. */
  lemma SplitExecutorIdDropsLaterFields(m: string, n: string, more: string)
    requires ':' !in m && ':' !in n
    ensures SplitExecutorId(m + ":" + n + ":" + more) == (m, n)
  {
    var s := m + ":" + n + ":" + more;
    ColonIndexOfJoined(m, n + ":" + more);
    assert s == m + ":" + (n + ":" + more);
    ColonIndexOfJoined(n, more);
    assert s[..|m|] == m;
    assert s[|m| + 1..] == n + ":" + more;
    assert (n + ":" + more)[..|n|] == n;
  }

  /**
   * Lines 136-140 and 87: the entry under `executors[name]`, else under
   * `builders[name]`. Reading a key of a missing map throws.
   */
  function LookupExecutor(json: ExecutorsJson, name: string, file: Path): (r: Result<ExecutorEntry, Failure>)
    ensures r.Ok? <==>
      json.executors.Some? && (name in json.executors.value || (json.builders.Some? && name in json.builders.value))
    ensures r.Ok? ==>
      r.value == if name in json.executors.value then json.executors.value[name] else json.builders.value[name]
    ensures r.Err? && json.executors.Some? && json.builders.Some? ==> r.error == CannotFindExecutor(name, file)
    ensures r.Err? && !(json.executors.Some? && json.builders.Some?) ==> r.error.TypeError?
  {
    if json.executors.None? then Err(TypeError("Cannot read properties of undefined"))
    else if name in json.executors.value then Ok(json.executors.value[name])
    else if json.builders.None? then Err(TypeError("Cannot read properties of undefined"))
    else if name in json.builders.value then Ok(json.builders.value[name])
    else Err(CannotFindExecutor(name, file))
  }

  /** What `readExecutorsJson` returns. */
  datatype ExecutorsFound = ExecutorsFound(executor: string, path: Path, json: ExecutorsJson)

  /** Lines 127-132: where the executors manifest of package `m` is. There is no legacy fallback. */
  function LocateExecutorsFile(host: Host, m: string): (r: Result<Path, Failure>)
    ensures r.Ok? <==>
      m in host.packages && host.packages[m].executors.Some? &&
      Join(Dirname(host.packages[m].path), host.packages[m].executors.value) in host.resolve
    ensures r.Ok? ==>
      r.value == host.resolve[Join(Dirname(host.packages[m].path), host.packages[m].executors.value)]
    ensures m !in host.packages ==> r == Err(PackageNotFound(m))
  {
    if m !in host.packages then Err(PackageNotFound(m))
    else
      var pkg := host.packages[m];
      if pkg.executors.None? then Err(TypeError("The \"path\" argument must be of type string"))
      else
        var request := Join(Dirname(pkg.path), pkg.executors.value);
        if request !in host.resolve then Err(ModuleNotFound(request))
        else Ok(host.resolve[request])
  }

  /** `readExecutorsJson`: the executor's name, the manifest's path and the parsed manifest. */
  function ReadExecutorsJson(host: Host, id: string): (r: Result<ExecutorsFound, Failure>)
    ensures r.Ok? ==>
      var (m, name) := SplitExecutorId(id);
      && r.value.executor == name
      && LocateExecutorsFile(host, m) == Ok(r.value.path)
      && r.value.path in host.executorsFiles && host.executorsFiles[r.value.path] == r.value.json
      && LookupExecutor(r.value.json, name, r.value.path).Ok?
    ensures r.Err? ==>
      var (m, name) := SplitExecutorId(id);
      || LocateExecutorsFile(host, m).Err?
      || LocateExecutorsFile(host, m).value !in host.executorsFiles
      || LookupExecutor(host.executorsFiles[LocateExecutorsFile(host, m).value], name, LocateExecutorsFile(host, m).value).Err?
    ensures r.Err? ==>
      var (m, name) := SplitExecutorId(id);
      var located := LocateExecutorsFile(host, m);
      r.error ==
        if located.Err? then located.error
        else if located.value !in host.executorsFiles then FileNotFound(located.value)
        else LookupExecutor(host.executorsFiles[located.value], name, located.value).error
  {
    var (m, name) := SplitExecutorId(id);
    match LocateExecutorsFile(host, m)
    case Err(e) => Err(e)
    case Ok(path) =>
      if path !in host.executorsFiles then Err(FileNotFound(path))
      else
        var json := host.executorsFiles[path];
        match LookupExecutor(json, name, path)
        case Err(e) => Err(e)
        case Ok(_) => Ok(ExecutorsFound(name, path, json))
  }

  /** `target.executor` as a string, as the template literal at line 94 shows it. */
  function ExecutorText(target: TargetDefinition): string {
    if target.executor.Some? then target.executor.value else "undefined"
  }

  /**
   * `readExecutor`: the schema and implementation of the entry, both
   * relative to the manifest's directory. Every failure is wrapped as
   * `Unable to resolve <target.executor>`.
   */
  function ReadExecutor(host: Host, target: TargetDefinition): (r: Result<Resolved, Failure>)
    ensures r.Err? ==> r.error.UnableToResolve? && r.error.id == ExecutorText(target)
    ensures target.executor.Some? && ReadExecutorsJson(host, target.executor.value).Err? ==>
      r == Err(UnableToResolve(target.executor.value, ReadExecutorsJson(host, target.executor.value).error))
    ensures r.Ok? ==>
      target.executor.Some? && ReadExecutorsJson(host, target.executor.value).Ok? &&
      var found := ReadExecutorsJson(host, target.executor.value).value;
      var entry := LookupExecutor(found.json, found.executor, found.path).value;
      LoadCapability(host, Dirname(found.path), entry.schema, entry.implementation) == r
    ensures target.executor.Some? && ReadExecutorsJson(host, target.executor.value).Ok? ==>
      var found := ReadExecutorsJson(host, target.executor.value).value;
      var entry := LookupExecutor(found.json, found.executor, found.path).value;
      var loaded := LoadCapability(host, Dirname(found.path), entry.schema, entry.implementation);
      r == if loaded.Ok? then loaded else Err(UnableToResolve(target.executor.value, loaded.error))
  {
    if target.executor.None? then
      Err(UnableToResolve("undefined", TypeError("Cannot read properties of undefined (reading 'split')")))
    else
      var id := target.executor.value;
      match ReadExecutorsJson(host, id)
      case Err(e) => Err(UnableToResolve(id, e))
      case Ok(found) =>
        var entry := LookupExecutor(found.json, found.executor, found.path).value;
        match LoadCapability(host, Dirname(found.path), entry.schema, entry.implementation)
        case Err(e) => Err(UnableToResolve(id, e))
        case Ok(resolved) => Ok(resolved)
  }

  /**
   * `isNxExecutor`: whether the resolved schema's `cli` is "nx"; a
   * resolution failure is passed on unchanged.
   */
  function IsNxExecutor(host: Host, target: TargetDefinition): (r: Result<bool, Failure>)
    ensures ReadExecutor(host, target).Err? ==> r == Err(ReadExecutor(host, target).error)
    ensures r == Ok(true) <==> ReadExecutor(host, target).Ok? && CliIsNx(ReadExecutor(host, target).value.schema)
    ensures r == Ok(false) <==>
      ReadExecutor(host, target).Ok? && ReadExecutor(host, target).value.schema != JNull &&
      !CliIsNx(ReadExecutor(host, target).value.schema)
  {
    match ReadExecutor(host, target)
    case Err(e) => Err(e)
    case Ok(resolved) => IsNx(resolved.schema)
  }

  /**
   * An executor whose name is under neither map of a manifest that has both
   * fails with `Cannot find executor '<name>' in <manifest>`, wrapped as
   * `Unable to resolve <module>:<name>`.
   */
  lemma ExecutorNotFound(host: Host, m: string, name: string)
    requires ':' !in m && ':' !in name
    requires LocateExecutorsFile(host, m).Ok?
    requires var path := LocateExecutorsFile(host, m).value;
      && path in host.executorsFiles
      && host.executorsFiles[path].executors.Some? && host.executorsFiles[path].builders.Some?
      && name !in host.executorsFiles[path].executors.value
      && name !in host.executorsFiles[path].builders.value
    ensures ReadExecutor(host, TargetDefinition(Some(m + ":" + name), None, JNull)) ==
      Err(UnableToResolve(m + ":" + name, CannotFindExecutor(name, LocateExecutorsFile(host, m).value)))
  {
    SplitExecutorIdRoundTrip(m, name);
  }

  /**
   * An executor resolves exactly when its name is in the manifest (under
   * `executors` or `builders`) and the entry's schema and implementation load.
   */
  lemma ReadExecutorSucceeds(host: Host, m: string, name: string)
    requires ':' !in m && ':' !in name
    requires LocateExecutorsFile(host, m).Ok?
    requires LocateExecutorsFile(host, m).value in host.executorsFiles
    ensures
      var target := TargetDefinition(Some(m + ":" + name), None, JNull);
      var path := LocateExecutorsFile(host, m).value;
      var entry := LookupExecutor(host.executorsFiles[path], name, path);
      ReadExecutor(host, target).Ok? <==>
        entry.Ok? && LoadCapability(host, Dirname(path), entry.value.schema, entry.value.implementation).Ok?
  {
    SplitExecutorIdRoundTrip(m, name);
  }
}
