/**
 * The parsed files the resolver reads and the host environment it reads them
 * from. `require.resolve`, `fs.readFileSync` + `JSON.parse` and `require` are
 * replaced by lookups in the immutable maps of a `Host`; a missing key is the
 * corresponding failure.
 */
module Manifests {
  import opened Wrappers
  import opened Paths
  import opened Json
  import opened Errors

  /** The fields of a package's `package.json` that locate its manifests. */
  datatype PackageJson = PackageJson(
    path: Path,                  // where `<name>/package.json` resolved to
    executors: Option<string>,   // relative path of the executors manifest
    generators: Option<string>,  // relative path of the generators manifest
    schematics: Option<string>)  // legacy name of `generators`

  /** One entry of an executors manifest. */
  datatype ExecutorEntry = ExecutorEntry(implementation: Option<string>, schema: Option<string>)

  /** An executors manifest: entries under `executors`, or under the legacy `builders`. */
  datatype ExecutorsJson = ExecutorsJson(
    executors: Option<map<string, ExecutorEntry>>,
    builders: Option<map<string, ExecutorEntry>>)

  /** One entry of a generators manifest; `factory` is the legacy name of `implementation`. */
  datatype GeneratorEntry = GeneratorEntry(
    implementation: Option<string>,
    factory: Option<string>,
    schema: Option<string>,
    aliases: Option<seq<string>>)

  /** A generators manifest: entries in `Object.keys` order, and (`extends`) the collections it falls back to. */
  datatype GeneratorsJson = GeneratorsJson(
    generators: Option<Dict<GeneratorEntry>>,
    schematics: Option<Dict<GeneratorEntry>>,
    parents: Option<seq<string>>)  // the `extends` property

  /** The exports of a loaded module; `default` is the implementation handle. */
  type Handle = nat

  /** What the resolver reads from the environment. */
  datatype Host = Host(
    packages: map<string, PackageJson>,           // `<name>/package.json`, resolved and parsed
    collections: map<string, Path>,               // `require.resolve(c)` for a collection `c` ending in `.json`
    resolve: map<Path, Path>,                     // `require.resolve(p)` for a joined path `p`
    executorsFiles: map<Path, ExecutorsJson>,     // parsed executors manifests
    generatorsFiles: map<Path, GeneratorsJson>,   // parsed generators manifests
    schemaFiles: map<Path, Json>,                 // parsed schema files
    modules: map<Path, Option<Handle>>)           // `require(p).default`

  /** A resolved executor or generator: its schema and its implementation. */
  datatype Resolved = Resolved(schema: Json, implementation: Option<Handle>)

  /**
   * Reads the schema and loads the implementation of a manifest entry, both
   * relative to the manifest's directory `dir`: the schema first, then the
   * implementation module, whose default export is the implementation.
   */
  function LoadCapability(host: Host, dir: Path, schema: Option<string>, implementation: Option<string>)
    : (r: Result<Resolved, Failure>)
    ensures r.Ok? <==>
      Join(dir, OrEmpty(schema)) in host.schemaFiles && implementation.Some? &&
      Join(dir, implementation.value) in host.modules
    ensures r.Ok? ==>
      r.value.schema == host.schemaFiles[Join(dir, OrEmpty(schema))] &&
      r.value.implementation == host.modules[Join(dir, implementation.value)]
    ensures Join(dir, OrEmpty(schema)) !in host.schemaFiles ==> r == Err(FileNotFound(Join(dir, OrEmpty(schema))))
    ensures Join(dir, OrEmpty(schema)) in host.schemaFiles && implementation.None? ==> r.Err? && r.error.TypeError?
    ensures (Join(dir, OrEmpty(schema)) in host.schemaFiles && implementation.Some? &&
             Join(dir, implementation.value) !in host.modules) ==>
      r == Err(ModuleNotFound(Join(dir, implementation.value)))
  {
    var schemaPath := Join(dir, OrEmpty(schema));
    if schemaPath !in host.schemaFiles then Err(FileNotFound(schemaPath))
    else if implementation.None? then Err(TypeError("The \"path\" argument must be of type string"))
    else
      var modulePath := Join(dir, implementation.value);
      if modulePath !in host.modules then Err(ModuleNotFound(modulePath))
      else Ok(Resolved(host.schemaFiles[schemaPath], host.modules[modulePath]))
  }

  /** The schema opts into the Nx protocol: its `cli` property is the string "nx". */
  predicate CliIsNx(schema: Json) {
    schema.JObject? && "cli" in schema.fields && schema.fields["cli"] == JString("nx")
  }

  /**
   * `schema['cli'] === 'nx'`: reading a property of `null` throws, any other
   * value without a `cli` property equal to "nx" gives false.
   */
  function IsNx(schema: Json): (r: Result<bool, Failure>)
    ensures r.Err? <==> schema == JNull
    ensures r == Ok(true) <==> CliIsNx(schema)
  {
    if schema.JNull? then Err(TypeError("Cannot read properties of null (reading 'cli')"))
    else Ok(CliIsNx(schema))
  }
}
