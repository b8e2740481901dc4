/**
 * The executor builders of `UrlLoader`: which executor each one builds and
 * on which URL. The executors themselves are opaque tags.
 */
module Executors {
  import opened Wrappers
  import opened JsString
  import opened Protocols
  import opened LoaderOptions
  import opened Imports

  datatype Executor =
    | HttpExecutor(url: string, fetch: FetchFn)
    | GraphqlWsExecutor(url: string, webSocketImpl: WebSocketImpl)
    | LegacyWsExecutor(url: string, webSocketImpl: WebSocketImpl)

  /**
   * `buildHTTPExecutor(initialEndpoint, fetchFn, options)`: the endpoint is
   * switched to HTTP, but `{ endpoint: HTTP_URL, fetch, ...options }` lets an
   * `endpoint` option win over it.
   */
  function BuildHttpExecutor(initialEndpoint: string, fetch: FetchFn, options: Options): Executor {
    HttpExecutor(
      if options.endpoint.Some? then options.endpoint.value else SwitchProtocols(initialEndpoint, WsToHttp),
      fetch)
  }

  /** `buildWSExecutor(subscriptionsEndpoint, webSocketImpl)` */
  function BuildWsExecutor(subscriptionsEndpoint: string, webSocketImpl: WebSocketImpl): Executor {
    GraphqlWsExecutor(SwitchProtocols(subscriptionsEndpoint, HttpToWs), webSocketImpl)
  }

  /** `buildWSLegacyExecutor(subscriptionsEndpoint, WebSocketImpl, options)` */
  function BuildWsLegacyExecutor(subscriptionsEndpoint: string, webSocketImpl: WebSocketImpl): Executor {
    LegacyWsExecutor(SwitchProtocols(subscriptionsEndpoint, HttpToWs), webSocketImpl)
  }

  /** The endpoint `buildSubscriptionExecutor` builds on: `graphql-sse` defaults to `/stream`. */
  function SseEndpoint(subscriptionsEndpoint: string, options: Options): string {
    if options.subscriptionsProtocol == Some(GRAPHQL_SSE) && !Truthy(options.subscriptionsEndpoint)
    then subscriptionsEndpoint + "/stream"
    else subscriptionsEndpoint
  }

  /** The executor `buildSubscriptionExecutor` yields, by subscription protocol. */
  function SubscriptionExecutor(subscriptionsEndpoint: string, fetch: FetchFn, importFn: ImportFn, options: Options): Executor {
    match options.subscriptionsProtocol
    case Some(SSE) => BuildHttpExecutor(subscriptionsEndpoint, fetch, options)
    case Some(GRAPHQL_SSE) => BuildHttpExecutor(SseEndpoint(subscriptionsEndpoint, options), fetch, options)
    case Some(LEGACY_WS) => BuildWsLegacyExecutor(subscriptionsEndpoint, GetWebSocketImpl(importFn, options.webSocketImpl))
    case _ => BuildWsExecutor(subscriptionsEndpoint, GetWebSocketImpl(importFn, options.webSocketImpl))
  }

  /**
   * `buildSubscriptionExecutor(subscriptionsEndpoint, fetch, importFn, options)`.
   * For the WebSocket protocols the source returns a function that resolves
   * the implementation and builds the executor on each request; the result
   * here is the executor that function builds.
   */
  method BuildSubscriptionExecutor(subscriptionsEndpoint: string, fetch: FetchFn, importFn: ImportFn, options: Options)
    returns (executor: Executor)
    ensures executor == SubscriptionExecutor(subscriptionsEndpoint, fetch, importFn, options)
  {
    var endpoint := subscriptionsEndpoint;
    if options.subscriptionsProtocol == Some(SSE) {
      executor := BuildHttpExecutor(endpoint, fetch, options);
    } else if options.subscriptionsProtocol == Some(GRAPHQL_SSE) {
      if !Truthy(options.subscriptionsEndpoint) {
        endpoint := endpoint + "/stream";
      }
      assert endpoint == SseEndpoint(subscriptionsEndpoint, options);
      executor := BuildHttpExecutor(endpoint, fetch, options);
    } else {
      var webSocketImpl := GetWebSocketImpl(importFn, options.webSocketImpl);
      if options.subscriptionsProtocol == Some(LEGACY_WS) {
        executor := BuildWsLegacyExecutor(endpoint, webSocketImpl);
      } else {
        executor := BuildWsExecutor(endpoint, webSocketImpl);
      }
    }
  }

  /**
   * Which executor each protocol gets: HTTP for SSE and `graphql-sse`, the
   * legacy client for LEGACY_WS, `graphql-ws` for WS and for no protocol;
   * the HTTP ones carry the fetch given, the WebSocket ones the resolved
   * implementation.
   */
  lemma SubscriptionExecutorKind(subscriptionsEndpoint: string, fetch: FetchFn, importFn: ImportFn, options: Options)
    ensures var e := SubscriptionExecutor(subscriptionsEndpoint, fetch, importFn, options);
      var protocol := options.subscriptionsProtocol;
      (e.HttpExecutor? <==> protocol == Some(SSE) || protocol == Some(GRAPHQL_SSE)) &&
      (e.LegacyWsExecutor? <==> protocol == Some(LEGACY_WS)) &&
      (e.GraphqlWsExecutor? <==> protocol == None || protocol == Some(WS)) &&
      (e.HttpExecutor? ==> e.fetch == fetch) &&
      (!e.HttpExecutor? ==> e.webSocketImpl == GetWebSocketImpl(importFn, options.webSocketImpl))
  {
  }

  /**
   * Without an `endpoint` option the HTTP executor of a `scheme://rest`
   * endpoint is on the HTTP counterpart of the scheme, with `rest` kept when
   * it holds no ws pattern; with one, it is on that endpoint, whatever was
   * passed in.
   */
  lemma HttpExecutorUrl(scheme: WebScheme, rest: string, fetch: FetchFn, options: Options)
    ensures var e := BuildHttpExecutor(Url(scheme, rest), fetch, options);
      (options.endpoint.None? ==> StartsWith(e.url, SlashPattern(scheme.AsHttp().Name()))) &&
      (options.endpoint.None? && FreeOf(rest, WsToHttp) ==> e.url == Url(scheme.AsHttp(), rest)) &&
      (options.endpoint.Some? ==> e.url == options.endpoint.value)
  {
    SwitchToHttp(scheme, rest);
  }

  /** Both WebSocket executors sit on the WebSocket counterpart of the scheme. */
  lemma WsExecutorUrl(scheme: WebScheme, rest: string, webSocketImpl: WebSocketImpl)
    ensures StartsWith(BuildWsExecutor(Url(scheme, rest), webSocketImpl).url, SlashPattern(scheme.AsWs().Name()))
    ensures StartsWith(BuildWsLegacyExecutor(Url(scheme, rest), webSocketImpl).url, SlashPattern(scheme.AsWs().Name()))
    ensures FreeOf(rest, HttpToWs) ==>
      BuildWsExecutor(Url(scheme, rest), webSocketImpl).url == Url(scheme.AsWs(), rest) &&
      BuildWsLegacyExecutor(Url(scheme, rest), webSocketImpl).url == Url(scheme.AsWs(), rest)
  {
    SwitchToWs(scheme, rest);
  }

  /** `/stream` appended to `scheme://rest` survives the switch to HTTP at the end. */
  lemma StreamUrl(scheme: WebScheme, rest: string)
    requires FreeOf(rest + "/stream", WsToHttp)
    ensures var u := SwitchProtocols(Url(scheme, rest) + "/stream", WsToHttp);
      u == Url(scheme.AsHttp(), rest + "/stream") && EndsWith(u, "/stream")
  {
    var p, s := SlashPattern(scheme.Name()), "/stream";
    assert (p + rest) + s == p + (rest + s);
    SwitchToHttp(scheme, rest + s);
    var q := SlashPattern(scheme.AsHttp().Name());
    assert q + (rest + s) == (q + rest) + s;
    EndsWithConcat(q + rest, s);
  }

  /**
   * `graphql-sse` without a truthy `subscriptionsEndpoint` option and without
   * an `endpoint` option goes to `/stream` under the HTTP form of the
   * endpoint; with a truthy `subscriptionsEndpoint` no suffix is added.
   */
  lemma GraphqlSseStream(scheme: WebScheme, rest: string, fetch: FetchFn, importFn: ImportFn, options: Options)
    requires options.subscriptionsProtocol == Some(GRAPHQL_SSE) && options.endpoint.None?
    ensures var e := SubscriptionExecutor(Url(scheme, rest), fetch, importFn, options);
      (!Truthy(options.subscriptionsEndpoint) && FreeOf(rest + "/stream", WsToHttp) ==>
        e.url == Url(scheme.AsHttp(), rest + "/stream") && EndsWith(e.url, "/stream")) &&
      (Truthy(options.subscriptionsEndpoint) && FreeOf(rest, WsToHttp) ==>
        e.url == Url(scheme.AsHttp(), rest))
  {
    var e := SubscriptionExecutor(Url(scheme, rest), fetch, importFn, options);
    if Truthy(options.subscriptionsEndpoint) {
      assert e.url == SwitchProtocols(Url(scheme, rest), WsToHttp);
      SwitchToHttp(scheme, rest);
    } else {
      assert e.url == SwitchProtocols(Url(scheme, rest) + "/stream", WsToHttp);
      if FreeOf(rest + "/stream", WsToHttp) {
        StreamUrl(scheme, rest);
      }
    }
  }

  /**
   * With an `endpoint` option, both SSE protocols build on that endpoint:
   * the spread in `buildHTTPExecutor` overrides the subscriptions endpoint
   * and the `/stream` suffix.
   */
  lemma SseUnderEndpointOption(subscriptionsEndpoint: string, fetch: FetchFn, importFn: ImportFn, options: Options)
    requires options.endpoint.Some?
    requires options.subscriptionsProtocol == Some(SSE) || options.subscriptionsProtocol == Some(GRAPHQL_SSE)
    ensures SubscriptionExecutor(subscriptionsEndpoint, fetch, importFn, options) == HttpExecutor(options.endpoint.value, fetch)
  {
  }
}
