# Capability resolution of the Nx `tao` workspace

This project models `packages/tao/src/shared/workspace.ts`, the part of Nx's
`tao` runner that turns the names used by a workspace into loadable
capabilities, and proves what it does.

- **Workspace file.** `workspaceConfigName` picks `angular.json` when it
  exists and `workspace.json` otherwise. `readWorkspaceConfiguration` then
  rewrites the parsed workspace in place, replacing the legacy Angular
  property names with the current ones:
  - `architect` becomes `targets`;
  - a target's `builder` becomes `executor`;
  - `schematics` becomes `generators`, for every project and for the
    workspace.

  Module `WorkspaceConfig` states the rewrite on values. Module
  `ParsedWorkspace` performs it on objects whose fields are reassigned,
  proves it equal to the value rewrite, and states what is left behind when
  the rewrite throws half way.
- **Executors.** An executor is named `<module>:<name>`. The package's
  `package.json` locates its executors manifest. The name is looked up under
  `executors`, then under the legacy `builders`. The entry's schema and
  implementation are loaded relative to the manifest's directory, and every
  failure is wrapped as `Unable to resolve <executor>` (module `Executors`).
- **Generators.** A collection is a `.json` path or a package, whose
  `generators` field (or legacy `schematics` field) locates the manifest.
  Within a manifest the keys are scanned in `Object.keys` order for the first key that is
  the requested name or lists it among its `aliases`. When no key matches,
  the collections in `extends` are searched in order. The first parent that
  resolves wins, and the others' failures are dropped. The entry is loaded
  relative to the manifest it was actually found in, with `factory` standing
  in for a missing `implementation` (module `Generators`).
- **Classification.** `isNxExecutor` and `isNxGenerator` say whether the
  resolved schema's `cli` property is `"nx"`.

The environment (installed packages, `require.resolve`, file contents,
loaded modules) is an immutable `Host` value of maps (module `Manifests`).
A missing key stands for the failure the real call would throw. The
unbounded recursion through `extends` carries `fuel`, the call depth left.
A call with no fuel left fails with `CallStackExceeded`, and the parent's
`catch` swallows that failure like any other.

Some behaviours of the code differ from what one might expect, and the
model follows the code:

- **Alias lookup is per key.** One might expect an exact key to win over an
  alias. The loop at lines 166-175 instead tests both per key, in
  `Object.keys` order, so an earlier key whose aliases contain the name
  beats a later key equal to it (`Generators.EarlierAliasBeatsLaterKey`).
- **Missing maps throw.** Line 136 reads `executors[executor]`
  unconditionally, and `builders[executor]` whenever the name is not under
  `executors`. A missing map is therefore a `TypeError`, not "Cannot find
  executor" (`Executors.LookupExecutor`).
- **An empty key is not found.** A generator key `""` that matches is
  rejected by the truthiness test at line 177, which sends the search on to
  `extends`.
- **No location fallback for executors.** Line 129 is a no-op, so the
  executors manifest is located only through `package.json`'s `executors`
  field. There is no legacy field.

## Model

| member | source | states |
|---|---|---|
| Manifests.LoadCapability | packages/tao/src/shared/workspace.ts:88-92 | loading succeeds exactly when the schema file (relative path `schema || ''`) exists, the implementation is set and its module loads; both are joined to the manifest's directory; the schema is read first, so a missing schema file is the failure even when the module is missing too, then an unset implementation is a `TypeError`, then a missing module is `ModuleNotFound` |
| Manifests.IsNx | packages/tao/src/shared/workspace.ts:70-71 | `schema['cli'] === 'nx'` throws exactly for a `null` schema and is true exactly when `cli` is the string "nx" |
| WorkspaceConfig.WorkspaceConfigName | packages/tao/src/shared/workspace.ts:27-34 | the name is `angular.json` exactly when that file exists in the root, and `workspace.json` exactly when it does not |
| WorkspaceConfig.NormalizeTarget | packages/tao/src/shared/workspace.ts:49-52 | a target with a falsy `executor` and a truthy `builder` gets `executor` from `builder` and `builder` cleared; any other target is unchanged; so the target ends with the executor it designates, other properties are kept, and a truthy `builder` that survives implies a truthy `executor` |
| WorkspaceConfig.NormalizeTargetMap | packages/tao/src/shared/workspace.ts:48-53 | the target names and their order are kept and every target is normalised |
| WorkspaceConfig.NormalizeProject | packages/tao/src/shared/workspace.ts:43-58 | other properties are kept; a project without `targets` and `architect` is unchanged; otherwise it ends with `targets` set |
| WorkspaceConfig.FirstWithoutTargets | packages/tao/src/shared/workspace.ts:42-59 | the index of the first project with neither `targets` nor `architect`, where the `forEach` throws, or the number of projects |
| WorkspaceConfig.NormalizeProjectsBefore | packages/tao/src/shared/workspace.ts:42-59 | the project names and order are kept; the first `k` projects are rewritten and the rest are untouched |
| WorkspaceConfig.NormalizeProjectsStep | packages/tao/src/shared/workspace.ts:42-59 | rewriting project `k` after the first `k` gives the state after the first `k + 1` |
| WorkspaceConfig.MoveSchematics | packages/tao/src/shared/workspace.ts:61-64 | the workspace's `schematics` moves to `generators` when `generators` is falsy and `schematics` truthy; otherwise nothing changes; projects and other properties are kept |
| WorkspaceConfig.NormalizeWorkspace | packages/tao/src/shared/workspace.ts:42-64 | the rewrite succeeds exactly when every project has `targets` or `architect`, and then keeps the project names, their order and the other properties, and every project becomes `NormalizeProject` of itself |
| WorkspaceConfig.ArchitectRule | packages/tao/src/shared/workspace.ts:43-53 | `architect` becomes `targets` and is cleared only when `targets` is unset; a project with `targets` keeps its `architect`; the targets kept are normalised |
| WorkspaceConfig.ProjectSchematicsRule | packages/tao/src/shared/workspace.ts:55-58 | a project's `schematics` moves to `generators` and is cleared exactly when `generators` is falsy and `schematics` truthy; otherwise both are kept |
| WorkspaceConfig.WorkspaceSchematicsRule | packages/tao/src/shared/workspace.ts:61-64 | the workspace's `schematics` moves to `generators` and is cleared exactly when `generators` is falsy and `schematics` truthy; otherwise both are kept |
| WorkspaceConfig.NormalizeTargetIdempotent | packages/tao/src/shared/workspace.ts:49-52 | normalising a target twice is normalising it once |
| WorkspaceConfig.NormalizeProjectIdempotent | packages/tao/src/shared/workspace.ts:43-58 | rewriting a project twice is rewriting it once |
| WorkspaceConfig.NormalizeWorkspaceIdempotent | packages/tao/src/shared/workspace.ts:42-64 | rewriting a rewritten workspace succeeds and changes nothing |
| WorkspaceConfig.LegacyProjectNormalizes | packages/tao/src/shared/workspace.ts:43-58 | a project in the current vocabulary is left alone, and the same project written with `architect`, `builder` and `schematics` is rewritten into it |
| WorkspaceConfig.LegacySynonyms | packages/tao/src/shared/workspace.ts:42-64 | a workspace in the current vocabulary is left alone, and the same workspace written in the legacy vocabulary is rewritten into exactly it |
| ParsedWorkspace.TargetNode.Normalize | packages/tao/src/shared/workspace.ts:49-52 | the target object ends holding `NormalizeTarget` of what it held |
| ParsedWorkspace.NormalizeTargets | packages/tao/src/shared/workspace.ts:48-53 | the loop over the target objects leaves them holding `NormalizeTargetMap` of the map they held |
| ParsedWorkspace.ProjectNode.Normalize | packages/tao/src/shared/workspace.ts:43-58 | reports whether the project can be rewritten and leaves the project object holding `NormalizeProject` of what it held |
| ParsedWorkspace.WorkspaceNode.MoveSchematics | packages/tao/src/shared/workspace.ts:61-64 | the workspace object ends holding `MoveSchematics` of what it held; the projects are not touched |
| ParsedWorkspace.NormalizeProjectAt | packages/tao/src/shared/workspace.ts:43-58 | one iteration of the `forEach`: only the `i`-th project changes, to `NormalizeProject` of what it held |
| ParsedWorkspace.NormalizeProjects | packages/tao/src/shared/workspace.ts:42-59 | the `forEach` rewrites the projects in order and stops at the first project without target maps; the objects then hold the first `FirstWithoutTargets` projects rewritten |
| ParsedWorkspace.ReadWorkspaceConfiguration | packages/tao/src/shared/workspace.ts:37-67 | the call succeeds exactly when `NormalizeWorkspace` does, returns the same object, and leaves it holding `NormalizeWorkspace`'s result; on failure it gives that error and leaves the projects before the failing one rewritten |
| Executors.ColonIndex | packages/tao/src/shared/workspace.ts:126 | the position of the first ':' of the string, or none when it has no ':' |
| Executors.SplitExecutorId | packages/tao/src/shared/workspace.ts:126 | the module part of `split(':')` contains no ':'; an id without ':' gives the whole id as module and `undefined` as the name, so the lookup that follows is of the key "undefined" |
| Executors.ColonIndexOfJoined | packages/tao/src/shared/workspace.ts:126 | in `<m>:<n>` with no ':' in `m`, the first ':' follows `m` |
| Executors.SplitExecutorIdRoundTrip | packages/tao/src/shared/workspace.ts:126 | splitting `<m>:<n>` gives back `m` and `n` |
| Executors.SplitExecutorIdDropsLaterFields | packages/tao/src/shared/workspace.ts:126 | in `<m>:<n>:<more>` only `n` names the executor |
| Executors.LookupExecutor | packages/tao/src/shared/workspace.ts:136-140 | the entry is found exactly when `executors` exists and the name is under it, or `builders` exists and has it; it is the `executors` entry when there is one, else the `builders` one; with both maps present a miss is `Cannot find executor '<name>' in <manifest>`, otherwise a `TypeError` |
| Executors.LocateExecutorsFile | packages/tao/src/shared/workspace.ts:127-132 | the manifest is found exactly when the package is installed, has an `executors` field, and that field joined to the directory of its `package.json` resolves; the path is what it resolves to; an uninstalled package is `PackageNotFound` |
| Executors.ReadExecutorsJson | packages/tao/src/shared/workspace.ts:125-142 | on success the name is the second field of the id, the path is where the manifest was located, the manifest is that file and holds the name; a failure is exactly the error of locating the manifest, else `FileNotFound` for a manifest that cannot be read, else the lookup's error (`Cannot find executor '<name>' in <manifest>` or a `TypeError`) |
| Executors.ReadExecutor | packages/tao/src/shared/workspace.ts:79-96 | every failure is `Unable to resolve <target.executor>` with its cause: the failure of `readExecutorsJson`, or else the failure of loading the entry's schema and implementation from the manifest's directory; a success is that load |
| Executors.ExecutorNotFound | packages/tao/src/shared/workspace.ts:136-140 | a name under neither `executors` nor `builders` of a manifest that has both fails `readExecutor` with `Unable to resolve <module>:<name>` wrapping `Cannot find executor '<name>' in <manifest>` |
| Executors.ReadExecutorSucceeds | packages/tao/src/shared/workspace.ts:79-96 | for `<m>:<name>`, resolution succeeds exactly when the manifest has the name and its entry loads |
| Executors.IsNxExecutor | packages/tao/src/shared/workspace.ts:69-72 | a resolution failure is passed on unchanged; the answer is true exactly when the schema's `cli` is "nx", and false exactly for another non-null schema |
| Generators.LocalMatchFrom | packages/tao/src/shared/workspace.ts:166-175 | a key found from position `i` on is a key of the entries, has an entry, and answers to the name |
| Generators.LocalMatch | packages/tao/src/shared/workspace.ts:164-175 | the key found is a key of the entries map, has an entry, and is the name or lists it among its aliases |
| Generators.LocalMatchIsFirstAnswer | packages/tao/src/shared/workspace.ts:166-175 | the key found is the first key, in `Object.keys` order, that is the name or has it among its aliases |
| Generators.LocalMatchNone | packages/tao/src/shared/workspace.ts:166-175 | nothing is found exactly when no key answers to the name |
| Generators.EarlierAliasBeatsLaterKey | packages/tao/src/shared/workspace.ts:166-175 | an earlier key whose aliases contain the name is found instead of a later key equal to the name |
| Generators.AliasesDesignateTheirKey | packages/tao/src/shared/workspace.ts:166-175 | a key and each of its aliases find that key, unless an earlier key answers to them |
| Generators.LocateGeneratorsFile | packages/tao/src/shared/workspace.ts:146-159 | a collection ending in `.json` is resolved as given, and is found exactly when it resolves; otherwise the package's `generators` field, or `schematics` when `generators` is falsy, is joined to the directory of its `package.json`, and the manifest is found exactly when the package is installed, the field is set and the joined path resolves, the path being what it resolves to |
| Generators.ResolveGenerators | packages/tao/src/shared/workspace.ts:144-189 | a success names a manifest of the host, with a non-empty key that its local lookup finds; with no call depth left it fails with `CallStackExceeded`; a manifest that cannot be located fails with the locating error, one that cannot be read with `FileNotFound`, and one with neither `generators` nor `schematics` with a `TypeError` (`Object.keys(undefined)`) |
| Generators.FirstSuccess | packages/tao/src/shared/workspace.ts:178-182 | a parent's success names a manifest and a key that its local lookup finds |
| Generators.ReadGeneratorsJson | packages/tao/src/shared/workspace.ts:144-189 | the key loop with `break` and the loop over `extends` compute `ResolveGenerators` |
| Generators.LocalMatchTakesPriority | packages/tao/src/shared/workspace.ts:177-188 | a local match is the result, found in the requested collection's manifest, and `extends` is not consulted |
| Generators.FirstResolvingParentWins | packages/tao/src/shared/workspace.ts:178-182 | the first parent that resolves gives the result, whatever the parents before it failed with |
| Generators.MissingParentSkipped | packages/tao/src/shared/workspace.ts:178-182 | a parent whose manifest cannot be located is skipped: the search goes on with the next parent |
| Generators.NoParentResolves | packages/tao/src/shared/workspace.ts:178-182 | the search of the parents fails exactly when every parent fails |
| Generators.InheritedFromFirstResolvingParent | packages/tao/src/shared/workspace.ts:177-182 | without a local match, the collection resolves to what its first resolving parent resolves to, with that parent's manifest path, and `readGenerator` loads the same generator |
| Generators.GeneratorNotFound | packages/tao/src/shared/workspace.ts:184-186 | without a local match and with no parent that resolves, the result is `Cannot find generator` naming the requested collection's manifest, and `readGenerator` wraps it as `Unable to resolve <collection>:<name>` |
| Generators.LoadGenerator | packages/tao/src/shared/workspace.ts:105-116 | the entry found is loaded with its schema and its `implementation` (or `factory` when `implementation` is falsy), relative to the directory of the manifest it was found in |
| Generators.ReadGenerator | packages/tao/src/shared/workspace.ts:98-123 | every failure is `Unable to resolve <collection>:<name>` with its cause: the failure of `readGeneratorsJson`, or else the failure of loading the entry from the directory of the manifest where it was found, which may be an ancestor's; a success is that load |
| Generators.IsNxGenerator | packages/tao/src/shared/workspace.ts:74-77 | a resolution failure is passed on unchanged; the answer is true exactly when the schema's `cli` is "nx", and false exactly for another non-null schema |

## Left out

- File reads (`fs.readFileSync`, `fs.statSync`) are lookups in the maps of a `Host` value or in a set of existing paths. `JSON.parse` is not modelled: files are already parsed, and a file that does not parse counts as missing.
- `require.resolve` and `require` are lookups in `Host` maps. The module's default export is an opaque handle.
- `path.join` and `path.dirname` act on sequences of segments. Normalisation of `.`, `..` and separators is not modelled.
- The side-effect import `../compat/compat` is not part of this model.
- ParsedWorkspace.ReadWorkspaceConfiguration takes the parsed workspace as its argument. Reading and parsing the file (lines 38-40) are left out, and so is a workspace with no `projects` object.
- Generators.ResolveGenerators carries `fuel` for the recursion through `extends`, which the source does not bound. A cyclic chain ends in `CallStackExceeded` once the fuel runs out. The real stack depth at which JavaScript overflows is not modelled.
- JSON objects with a meaningful key order are sequences of pairs taken to be already in `Object.keys` order (integer-like keys first, ascending, then the rest in file order). The reordering that JavaScript applies to integer-like keys is not computed from the file.
- Such sequences are looked up by first match. Parsed objects have no duplicate keys, so this agrees with property lookup. Lookup through the JavaScript prototype chain (keys such as `constructor`) is not modelled.
- Manifest and package fields have the types the source expects. A field of another JSON type (an `aliases` that is a string, a `targets` that is a number) is not modelled. JSON numbers are integers.
- The in-place rewrite assumes that no target object is shared between target maps or projects, which holds for objects built by `JSON.parse`.
- Error values keep their kind and cause but not the exact text of Node's messages.
