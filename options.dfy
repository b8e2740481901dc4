/**
 * `LoadFromUrlOptions` of the URL loader, reduced to the fields its
 * decision logic reads. An absent field is `None`.
 */
module LoaderOptions {
  import opened Wrappers

  /** `SubscriptionProtocol` */
  datatype SubscriptionProtocol = WS | LEGACY_WS | SSE | GRAPHQL_SSE

  /** The `method` option of `HTTPExecutorOptions`: `'GET' | 'POST'`. */
  datatype HttpMethod = GET | POST

  /** `customFetch?: FetchFn | string`; a function is an opaque `id`. */
  datatype CustomFetch = FetchFunction(id: nat) | FetchSpecifier(specifier: string)

  /** `webSocketImpl?: typeof WebSocket | string`; a class is an opaque `id`. */
  datatype WebSocketImplOption = WebSocketClass(id: nat) | WebSocketSpecifier(specifier: string)

  /** `httpMethod` is the `method` option (`method` is a Dafny keyword). */
  datatype Options = Options(
    customFetch: Option<CustomFetch>,
    webSocketImpl: Option<WebSocketImplOption>,
    handleAsSDL: bool,
    endpoint: Option<string>,
    subscriptionsEndpoint: Option<string>,
    subscriptionsProtocol: Option<SubscriptionProtocol>,
    httpMethod: Option<HttpMethod>,
    batch: Option<bool>)

  /** JavaScript truthiness of an optional string: present and not `""`. */
  predicate Truthy(s: Option<string>) {
    s.Some? && s.value != ""
  }
}
