/**
 * The read-through/write-through cache of lib/cache.js (`simpleCache`).
 *
 * The cache directory is a `FileStore` whose `files` map takes a path to
 * the text stored there; the wrapped function `fn`, the optional
 * `transformFromFile` and `fileNameGenerator`, and the runtime's JSON
 * functions are values handed in by the caller.
 */
module Cache {
  import opened Wrappers
  import opened JsValues
  import opened FileNames

  /** How the promise returned by `fn` settles. */
  datatype Settled = Resolved(value: Value) | Rejected(reason: Value)

  /**
   * The runtime's `JSON.stringify`, the `isJsonString` test and `JSON.parse`,
   * left abstract.
   */
  datatype JsonCodec = JsonCodec(stringify: Value -> string, isJsonString: string -> bool, parse: string -> Value)

  /**
   * The property of JSON the cache relies on: an array or object that is
   * `JsonSafe` (no `undefined` in it, and its objects' members distinct and
   * in enumeration order) is stringified to JSON text that parses back to it.
   */
  ghost predicate RoundTrips(json: JsonCodec)
  {
    forall v :: IsObject(v) && JsonSafe(v) ==>
      json.isJsonString(json.stringify(v)) && json.parse(json.stringify(v)) == v
  }

  /**
   * The named parameters of `simpleCache`; `None` stands for a parameter
   * that is absent or, for `fn`, `transformFromFile` and
   * `fileNameGenerator`, not a function.
   */
  datatype CacheOptions = CacheOptions(
    fn: Option<seq<Value> -> Settled>,
    transformFromFile: Option<string -> Value>,
    fileNameGenerator: Option<seq<Value> -> string>,
    cacheDirectoryPath: Option<string>,
    uuidFileName: Option<Value>)

  /** What a cached function is configured with once `fn` is known to be a function. */
  datatype CacheConfig = CacheConfig(
    fn: seq<Value> -> Settled,
    transformFromFile: Option<string -> Value>,
    naming: NameStrategy,
    directory: string)

  /** The directory used when `cacheDirectoryPath` is not given. */
  const DefaultDirectory: string := "cache"

  /**
   * `simpleCache`'s decision: no configuration (the source returns `null`)
   * when `fn` is not a function; otherwise the parameters with their
   * defaults filled in.
   */
  function Configure(opts: CacheOptions): (r: Option<CacheConfig>)
    ensures r.None? <==> opts.fn.None?
    ensures r.Some? ==>
      && r.value.fn == opts.fn.value
      && r.value.transformFromFile == opts.transformFromFile
      && r.value.naming.fileNameGenerator == opts.fileNameGenerator
      && r.value.directory == (if opts.cacheDirectoryPath.Some? then opts.cacheDirectoryPath.value else "cache")
      && Truthy(r.value.naming.uuidFileName) == (opts.uuidFileName.Some? && Truthy(opts.uuidFileName.value))
  {
    match opts.fn
    case None => None
    case Some(fn) =>
      Some(CacheConfig(fn, opts.transformFromFile,
                       NameStrategy(opts.fileNameGenerator, opts.uuidFileName.GetOr(Prim(Bool(false)))),
                       opts.cacheDirectoryPath.GetOr(DefaultDirectory)))
  }

  /** `path.join(directory, name)`, without normalisation. */
  function JoinPath(directory: string, name: string): string
  {
    directory + "/" + name
  }

  /** The file a call with `args` reads or writes; `freshName` is this call's uuid. */
  function CachePath(config: CacheConfig, args: seq<Value>, freshName: string): string
  {
    JoinPath(config.directory, FileNameFor(config.naming, args, freshName))
  }

  /** What is written for a response: JSON text for arrays and objects, `String(x)` otherwise. */
  function FileContents(json: JsonCodec, response: Value): string
  {
    if IsObject(response) then json.stringify(response) else PrimitiveToString(response.p)
  }

  /**
   * What a hit returns for the stored text: `transformFromFile(contents)`
   * when given, else the parsed JSON when the text is JSON, else the text.
   */
  function FromFile(transformFromFile: Option<string -> Value>, json: JsonCodec, contents: string): Value
  {
    if transformFromFile.Some? then transformFromFile.value(contents)
    else if json.isJsonString(contents) then json.parse(contents)
    else Prim(Str(contents))
  }

  /** The result of one call of the cached function and the files afterwards. */
  datatype Outcome = Outcome(result: Settled, files: map<string, string>, invoked: bool)

  /** One call of the cached function with `args`, on the files `files`. */
  function Call(config: CacheConfig, json: JsonCodec, files: map<string, string>,
                args: seq<Value>, freshName: string): Outcome
  {
    var path := CachePath(config, args, freshName);
    if path in files then
      Outcome(Resolved(FromFile(config.transformFromFile, json, files[path])), files, false)
    else
      match config.fn(args)
      case Resolved(response) => Outcome(Resolved(response), files[path := FileContents(json, response)], true)
      case Rejected(reason) => Outcome(Rejected(reason), files, true)
  }

  /**
   * A hit: `fn` is not called, no file changes, and the stored text comes
   * back through `transformFromFile` or the JSON test.
   */
  lemma HitReadsStoredFile(config: CacheConfig, json: JsonCodec, files: map<string, string>,
                           args: seq<Value>, freshName: string)
    requires CachePath(config, args, freshName) in files
    ensures var o := Call(config, json, files, args, freshName);
      && !o.invoked
      && o.files == files
      && o.result == Resolved(FromFile(config.transformFromFile, json, files[CachePath(config, args, freshName)]))
  {
  }

  /**
   * A miss: `fn` is called with the arguments and its settlement is
   * returned as it is (never passed through `transformFromFile`); a
   * resolved response is written to exactly one path, every other file
   * staying as it was, and a rejection writes nothing.
   */
  lemma MissCallsFnAndWritesOnePath(config: CacheConfig, json: JsonCodec, files: map<string, string>,
                                    args: seq<Value>, freshName: string)
    requires CachePath(config, args, freshName) !in files
    ensures var o := Call(config, json, files, args, freshName);
      var path := CachePath(config, args, freshName);
      && o.invoked
      && o.result == config.fn(args)
      && (o.result.Resolved? ==> o.files == files[path := FileContents(json, o.result.value)])
      && (o.result.Rejected? ==> o.files == files)
      && o.files.Keys <= files.Keys + {path}
      && forall p :: p in files && p != path ==> p in o.files && o.files[p] == files[p]
  {
  }

  /**
   * Two calls in a row with the same arguments and a deterministic name:
   * if the first resolves, the second finds the file the first wrote,
   * does not call `fn`, changes nothing, and returns what `FromFile` makes
   * of the stored text.
   */
  lemma SecondCallIsServedFromFile(config: CacheConfig, json: JsonCodec, files: map<string, string>,
                                   args: seq<Value>, u1: string, u2: string)
    requires !Truthy(config.naming.uuidFileName)
    requires Call(config, json, files, args, u1).result.Resolved?
    ensures var first := Call(config, json, files, args, u1);
      var second := Call(config, json, first.files, args, u2);
      && !second.invoked
      && second.files == first.files
      && second.result == Resolved(FromFile(config.transformFromFile, json,
                                            first.files[CachePath(config, args, u1)]))
  {
    FileNamePrecedence(config.naming, args, args, u1);
    FileNamePrecedence(config.naming, args, args, u2);
  }

  /**
   * Without `transformFromFile`, a JSON-safe array or object comes back
   * from the file equal to what `fn` returned.
   */
  lemma ContainerResponseRoundTrips(config: CacheConfig, json: JsonCodec, files: map<string, string>,
                                    args: seq<Value>, u1: string, u2: string)
    requires !Truthy(config.naming.uuidFileName)
    requires config.transformFromFile.None?
    requires RoundTrips(json)
    requires config.fn(args).Resolved? && IsObject(config.fn(args).value) && JsonSafe(config.fn(args).value)
    ensures var first := Call(config, json, files, args, u1);
      var second := Call(config, json, first.files, args, u2);
      second.result == first.result && !second.invoked
  {
    var first := Call(config, json, files, args, u1);
    var path := CachePath(config, args, u1);
    FileNamePrecedence(config.naming, args, args, u1);
    FileNamePrecedence(config.naming, args, args, u2);
    if path !in files {
      SecondCallIsServedFromFile(config, json, files, args, u1, u2);
    }
  }

  /**
   * A string response is written as it is and, when the JSON test rejects
   * it, read back unchanged; when the JSON test accepts it, the second call
   * returns the parsed value instead of the string.
   */
  lemma StringResponseReadBack(config: CacheConfig, json: JsonCodec, files: map<string, string>,
                               args: seq<Value>, u1: string, u2: string, s: string)
    requires !Truthy(config.naming.uuidFileName)
    requires config.transformFromFile.None?
    requires config.fn(args) == Resolved(Prim(Str(s)))
    requires CachePath(config, args, u1) !in files
    ensures var first := Call(config, json, files, args, u1);
      var second := Call(config, json, first.files, args, u2);
      && first.files[CachePath(config, args, u1)] == s
      && (!json.isJsonString(s) ==> second.result == first.result)
      && (json.isJsonString(s) ==> second.result == Resolved(json.parse(s)))
  {
    SecondCallIsServedFromFile(config, json, files, args, u1, u2);
  }

  /** With `uuidFileName` truthy, a fresh name always misses, so `fn` is called. */
  lemma UuidNamesAlwaysMiss(config: CacheConfig, json: JsonCodec, files: map<string, string>,
                            args: seq<Value>, freshName: string)
    requires Truthy(config.naming.uuidFileName)
    requires JoinPath(config.directory, freshName) !in files
    ensures Call(config, json, files, args, freshName).invoked
  {
  }

  /** The cache directory: a map from paths to stored text that calls update in place. */
  class FileStore {
    var files: map<string, string>

    constructor (files: map<string, string>)
      ensures this.files == files
    {
      this.files := files;
    }
  }

  /** The async function `simpleCache` returns. */
  class CachedFunction {
    const config: CacheConfig
    const json: JsonCodec
    const store: FileStore
    /** The argument lists `fn` has been called with, in order. */
    ghost var invocations: seq<seq<Value>>

    constructor (config: CacheConfig, json: JsonCodec, store: FileStore)
      ensures this.config == config && this.json == json && this.store == store
      ensures invocations == []
    {
      this.config := config;
      this.json := json;
      this.store := store;
      invocations := [];
    }

    /**
     * `cachedFn(...args)`: check the file, then either read it back or call
     * `fn`, write its response and return it. `freshName` is what
     * `uuid.v4()` returns during this call.
     */
    method Invoke(args: seq<Value>, freshName: string) returns (r: Settled)
      modifies this, store
      ensures var o := Call(config, json, old(store.files), args, freshName);
        && r == o.result
        && store.files == o.files
        && invocations == old(invocations) + (if o.invoked then [args] else [])
    {
      var name := FileNameFor(config.naming, args, freshName);
      var path := JoinPath(config.directory, name);
      if path in store.files {
        var contents := store.files[path];
        if config.transformFromFile.Some? {
          r := Resolved(config.transformFromFile.value(contents));
        } else if json.isJsonString(contents) {
          r := Resolved(json.parse(contents));
        } else {
          r := Resolved(Prim(Str(contents)));
        }
      } else {
        var response := config.fn(args);
        invocations := invocations + [args];
        if response.Resolved? {
          var v := response.value;
          store.files := store.files[path := if IsObject(v) then json.stringify(v) else PrimitiveToString(v.p)];
        }
        r := response;
      }
    }
  }

  /**
   * `simpleCache(opts)`: `null` when `fn` is not a function, otherwise a
   * new cached function over `store` that has not called `fn` yet.
   */
  method SimpleCache(opts: CacheOptions, json: JsonCodec, store: FileStore) returns (c: CachedFunction?)
    ensures c == null <==> opts.fn.None?
    ensures c != null ==>
      && fresh(c) && Configure(opts) == Some(c.config) && c.json == json && c.store == store
      && c.invocations == []
  {
    var config := Configure(opts);
    if config.Some? {
      c := new CachedFunction(config.value, json, store);
    } else {
      c := null;
    }
  }

  /**
   * Two calls with equal arguments (test/cache.spec.js:151-157): `fn` runs
   * once, the file it wrote is left alone, and the second result equals
   * the first.
   */
  method CallTwice(c: CachedFunction, args: seq<Value>, u1: string, u2: string) returns (first: Settled, second: Settled)
    requires !Truthy(c.config.naming.uuidFileName)
    requires c.config.transformFromFile.None?
    requires RoundTrips(c.json)
    requires CachePath(c.config, args, u1) !in c.store.files
    requires c.config.fn(args).Resolved? && IsObject(c.config.fn(args).value) && JsonSafe(c.config.fn(args).value)
    modifies c, c.store
    ensures c.invocations == old(c.invocations) + [args]
    ensures first == second == c.config.fn(args)
    ensures c.store.files == old(c.store.files)[CachePath(c.config, args, u1) := c.json.stringify(first.value)]
  {
    ghost var files := c.store.files;
    first := c.Invoke(args, u1);
    second := c.Invoke(args, u2);
    ContainerResponseRoundTrips(c.config, c.json, files, args, u1, u2);
    SecondCallIsServedFromFile(c.config, c.json, files, args, u1, u2);
  }
}
