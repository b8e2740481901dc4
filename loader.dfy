/**
 * `load` and `loadSync` of `UrlLoader`: the protocol gate, the choice between
 * reading the pointer as SDL and introspecting it, and the wrapping of the
 * schema with an executor.
 */
module Loader {
  import opened Wrappers
  import opened JsString
  import opened Protocols
  import opened LoaderOptions
  import opened Imports
  import opened Router

  /**
   * The schema of a loaded source, as the construction that produced it:
   * parsed from the SDL `handleSDL` fetched, introspected through a router,
   * or wrapped around one of those with a router as its executor.
   */
  datatype Schema =
    | SdlSchema(location: string, fetch: FetchFn, httpMethod: HttpMethod)
    | IntrospectedSchema(executor: ExecutorRouter)
    | WrappedSchema(schema: Schema, executor: ExecutorRouter, batch: Option<bool>)

  datatype Source = Source(location: string, schema: Schema)

  /** `getDefaultMethodFromOptions(method, defaultMethod)` */
  method GetDefaultMethodFromOptions(httpMethod: Option<HttpMethod>, defaultMethod: HttpMethod) returns (result: HttpMethod)
    ensures httpMethod.Some? ==> result == httpMethod.value
    ensures httpMethod.None? ==> result == defaultMethod
  {
    result := defaultMethod;
    if httpMethod.Some? {
      result := httpMethod.value;
    }
  }

  /** `options?.handleAsSDL || pointer.endsWith('.graphql') || pointer.endsWith('.graphqls')` */
  predicate HandledAsSdl(pointer: string, options: Options) {
    options.handleAsSDL || EndsWith(pointer, ".graphql") || EndsWith(pointer, ".graphqls")
  }

  /**
   * `handleSDL(pointer, fetch, options)`: the pointer is fetched with the
   * `method` option, `GET` by default, and its text parsed as SDL.
   */
  method HandleSdl(pointer: string, fetch: FetchFn, options: Options) returns (schema: Schema)
    ensures schema == SdlSchema(pointer, fetch, if options.httpMethod.Some? then options.httpMethod.value else GET)
  {
    var httpMethod := GetDefaultMethodFromOptions(options.httpMethod, GET);
    schema := SdlSchema(pointer, fetch, httpMethod);
  }

  /** `r` is the router `getExecutor(endpoint, importFn, options)` returned. */
  predicate RouterOf(r: ExecutorRouter, endpoint: string, importFn: ImportFn, options: Options) {
    r.endpoint == endpoint && r.importFn == importFn && r.options == options
  }

  /** The routers a schema holds, the introspection one and the wrapping one. */
  function Routers(schema: Schema): set<ExecutorRouter> {
    match schema
    case SdlSchema(_, _, _) => {}
    case IntrospectedSchema(executor) => {executor}
    case WrappedSchema(inner, executor, _) => {executor} + Routers(inner)
  }

  /**
   * The state the introspection query leaves a router in: it went to the
   * HTTP executor, so `fetch$` and `httpExecutor$` are both filled.
   */
  ghost predicate Introspected(r: ExecutorRouter)
    reads r
  {
    r.Valid() && r.fetchMemo.Some? && r.httpExecutorMemo.Some?
  }

  /** The schema before wrapping: SDL read with the default fetch rules, or introspected on the pointer. */
  predicate Unwrapped(schema: Schema, pointer: string, importFn: ImportFn, options: Options) {
    if HandledAsSdl(pointer, options) then
      schema == SdlSchema(pointer, GetFetch(options.customFetch, importFn),
                          if options.httpMethod.Some? then options.httpMethod.value else GET)
    else
      schema.IntrospectedSchema? && RouterOf(schema.executor, pointer, importFn, options)
  }

  /**
   * What `load` (with `asyncImport` and `batch`) and `loadSync` (with
   * `syncImport`, no `batch`) return for a compatible pointer: the schema is
   * wrapped exactly when it was introspected or an `endpoint` option is
   * truthy, and the wrapping executor is on that endpoint, else on the
   * pointer; without an endpoint option the introspection router is reused.
   */
  predicate Loaded(source: Source, pointer: string, importFn: ImportFn, options: Options, batch: Option<bool>) {
    var schema := source.schema;
    var wrap := !HandledAsSdl(pointer, options) || Truthy(options.endpoint);
    && source.location == pointer
    && schema.WrappedSchema? == wrap
    && (wrap ==>
          && Unwrapped(schema.schema, pointer, importFn, options)
          && RouterOf(schema.executor, if Truthy(options.endpoint) then options.endpoint.value else pointer, importFn, options)
          && schema.batch == batch
          && (!Truthy(options.endpoint) ==> schema.executor == schema.schema.executor))
    && (!wrap ==> Unwrapped(schema, pointer, importFn, options))
  }

  /** The steps `load` and `loadSync` share. */
  method LoadWith(pointer: string, options: Options, isUrl: string -> bool, importFn: ImportFn, batch: Option<bool>)
    returns (sources: seq<Source>)
    ensures sources == [] <==> !IsCompatibleUri(pointer, isUrl)
    ensures |sources| <= 1
    ensures sources != [] ==> Loaded(sources[0], pointer, importFn, options, batch)
    ensures sources != [] ==> forall r | r in Routers(sources[0].schema) :: fresh(r) && r.Valid()
    ensures sources != [] && !HandledAsSdl(pointer, options) ==> Introspected(sources[0].schema.schema.executor)
    ensures sources != [] && Truthy(options.endpoint) ==> sources[0].schema.executor.Unused()
  {
    if !IsCompatibleUri(pointer, isUrl) {
      return [];
    }
    var schema: Schema;
    var executor: Option<ExecutorRouter> := None;
    if HandledAsSdl(pointer, options) {
      var fetch := GetFetch(options.customFetch, importFn);
      schema := HandleSdl(pointer, fetch, options);
    } else {
      var router := new ExecutorRouter(pointer, importFn, options);
      // `schemaFromExecutor` sends the introspection query, a query, through the router.
      var introspection := new Request(None, Some(Query), false);
      var _ := router.Route(introspection);
      executor := Some(router);
      schema := IntrospectedSchema(router);
    }
    if Truthy(options.endpoint) {
      var router := new ExecutorRouter(options.endpoint.value, importFn, options);
      executor := Some(router);
    }
    if executor.Some? {
      schema := WrappedSchema(schema, executor.value, batch);
    }
    sources := [Source(pointer, schema)];
  }

  /** `load(pointer, options)` */
  method Load(pointer: string, options: Options, isUrl: string -> bool) returns (sources: seq<Source>)
    ensures sources == [] <==> !IsCompatibleUri(pointer, isUrl)
    ensures |sources| <= 1
    ensures sources != [] ==> Loaded(sources[0], pointer, AsyncImport, options, options.batch)
    ensures sources != [] ==> forall r | r in Routers(sources[0].schema) :: fresh(r) && r.Valid()
    ensures sources != [] && !HandledAsSdl(pointer, options) ==> Introspected(sources[0].schema.schema.executor)
    ensures sources != [] && Truthy(options.endpoint) ==> sources[0].schema.executor.Unused()
  {
    sources := LoadWith(pointer, options, isUrl, AsyncImport, options.batch);
  }

  /** `loadSync(pointer, options)` */
  method LoadSync(pointer: string, options: Options, isUrl: string -> bool) returns (sources: seq<Source>)
    ensures sources == [] <==> !IsCompatibleUri(pointer, isUrl)
    ensures |sources| <= 1
    ensures sources != [] ==> Loaded(sources[0], pointer, SyncImport, options, None)
    ensures sources != [] ==> forall r | r in Routers(sources[0].schema) :: fresh(r) && r.Valid()
    ensures sources != [] && !HandledAsSdl(pointer, options) ==> Introspected(sources[0].schema.schema.executor)
    ensures sources != [] && Truthy(options.endpoint) ==> sources[0].schema.executor.Unused()
  {
    sources := LoadWith(pointer, options, isUrl, SyncImport, None);
  }

  /** A pointer whose scheme is not `http`, `https`, `ws` or `wss` is never loaded. */
  lemma ForeignSchemeRejected(pointer: string, isUrl: string -> bool)
    requires SchemeOf(pointer) !in {Some("http"), Some("https"), Some("ws"), Some("wss")}
    ensures !IsCompatibleUri(pointer, isUrl)
  {
    AcceptableIffScheme(pointer);
  }

  /**
   * An SDL pointer needs no trick of the options: a `.graphql` or
   * `.graphqls` file name is read as SDL, and so is anything once
   * `handleAsSDL` is set.
   */
  lemma SdlByFileName(base: string, options: Options)
    ensures HandledAsSdl(base + ".graphql", options) && HandledAsSdl(base + ".graphqls", options)
    ensures options.handleAsSDL ==> HandledAsSdl(base, options)
  {
    EndsWithConcat(base, ".graphql");
    EndsWithConcat(base, ".graphqls");
  }
}
