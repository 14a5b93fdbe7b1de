/** Optional values and results with an error. */
module Wrappers {

  datatype Option<+T> = None | Some(value: T)

  datatype Result<+T, +E> = Ok(value: T) | Err(error: E)
}

/**
 * File-system paths as sequences of segments. Only the two operations of
 * Node's `path` module that the resolver uses are modelled, and only their
 * effect on segments: `dirname` drops the last segment, `join` appends one
 * (an empty relative part leaves the directory as it is).
 */
module Paths {

  type Path = seq<string>

  function Dirname(p: Path): Path {
    if p == [] then [] else p[..|p| - 1]
  }

  function Join(dir: Path, rel: string): Path {
    if rel == "" then dir else dir + [rel]
  }
}

/** Parsed JSON values and JavaScript truthiness. */
module Json {
  import opened Wrappers

  /** A parsed JSON value (numbers are kept as integers). */
  datatype Json =
    | JNull
    | JBool(b: bool)
    | JNumber(n: int)
    | JString(s: string)
    | JArray(items: seq<Json>)
    | JObject(fields: map<string, Json>)

  /**
   * A JSON object whose key order is observable. The pairs are listed in
   * `Object.keys` order: integer-like keys first, in ascending numeric order,
   * then the other keys in the order the file gives them.
   */
  type Dict<E> = seq<(string, E)>

  /** `Object.keys(d)`. */
  function Keys<E>(d: Dict<E>): seq<string> {
    seq(|d|, i requires 0 <= i < |d| => d[i].0)
  }

  /** `d[k]`: the value stored under key `k`, if any. */
  function Get<E>(d: Dict<E>, k: string): Option<E> {
    if d == [] then None
    else if d[0].0 == k then Some(d[0].1)
    else Get(d[1..], k)
  }

  /** Every key of `d` has a value. */
  lemma {:induction false} KeyHasValue<E>(d: Dict<E>, i: nat)
    requires i < |d|
    ensures Get(d, d[i].0).Some?
  {
    if i > 0 && d[0].0 != d[i].0 {
      KeyHasValue(d[1..], i - 1);
    }
  }

  /** JavaScript truthiness of a JSON value. */
  predicate JsonTruthy(j: Json) {
    match j
    case JNull => false
    case JBool(b) => b
    case JNumber(n) => n != 0
    case JString(s) => s != ""
    case JArray(_) => true
    case JObject(_) => true
  }

  /** Truthiness of an optional JSON property (`undefined` is falsy). */
  predicate Present(o: Option<Json>) {
    o.Some? && JsonTruthy(o.value)
  }

  /** Truthiness of an optional string property. */
  predicate Truthy(o: Option<string>) {
    o.Some? && o.value != ""
  }

  /** `o || ''` for an optional string property. */
  function OrEmpty(o: Option<string>): string {
    if o.Some? then o.value else ""
  }
}

/** The errors the resolver throws, with their causes kept. */
module Errors {
  import opened Paths

  datatype Failure =
      /** A property read, `Object.values` or `path.join` on `undefined` or `null`. */
    | TypeError(message: string)
      /** `require.resolve` of `<name>/package.json` found no installed package. */
    | PackageNotFound(name: string)
      /** `require.resolve` of a collection given as a path to a `.json` file failed. */
    | CollectionNotFound(request: string)
      /** `require.resolve` or `require` of a joined path failed. */
    | ModuleNotFound(path: Path)
      /** `fs.readFileSync` failed, or the file did not parse to the expected shape. */
    | FileNotFound(path: Path)
      /** `Cannot find executor '<executor>' in <manifest>.` */
    | CannotFindExecutor(executor: string, manifest: Path)
      /** `Cannot find generator '<generator>' in <manifest>.` */
    | CannotFindGenerator(generator: string, manifest: Path)
      /** The recursion through `extends` went deeper than the call stack allows. */
    | CallStackExceeded
      /** `Unable to resolve <id>.` followed by the message of the cause. */
    | UnableToResolve(id: string, cause: Failure)
}
