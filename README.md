# URL loader decision logic, in Dafny

A model of the decision and string logic of the GraphQL Tools URL loader,
`packages/loaders/url/src/index.ts`. The loader is handed a pointer. It works
in these steps:

- It decides whether the pointer is its own: the pointer must have an
  `http:`, `https:`, `ws:` or `wss:` prefix, and a foreign `isUrl` check must
  accept it.
- It decides whether to read the pointer as SDL or to introspect it.
- It builds executors that route every request. Subscriptions go to an SSE,
  `graphql-sse`, `graphql-ws` or legacy WebSocket executor. Everything else
  goes to an HTTP executor.
- Along the way it rewrites URL schemes with `switchProtocols`, and it
  resolves `module#export` specifiers for custom `fetch` and WebSocket
  implementations.

Modules, one per file:

- `wrappers.dfy` (`Wrappers`): `Option`.
- `js_string.dfy` (`JsString`): the JavaScript string operations the loader
  relies on. `startsWith`, `endsWith`, `indexOf`, `replace` with a string
  pattern (first occurrence only) and `split` on one character.
- `protocols.dfy` (`Protocols`): `switchProtocols` as a left fold over the
  protocol map, the four web schemes, and `isCompatibleUri`.
- `options.dfy` (`LoaderOptions`): the fields of `LoadFromUrlOptions` that
  the decisions read.
- `imports.dfy` (`Imports`): `getFetch`, `getWebSocketImpl` and the `#`
  specifier split.
- `executors.dfy` (`Executors`): `buildHTTPExecutor`, `buildWSExecutor`,
  `buildWSLegacyExecutor` and `buildSubscriptionExecutor`. Executors,
  fetch functions and WebSocket implementations are opaque tags.
- `router.dfy` (`Router`): the executor `getExecutor` returns. It is a class
  holding the memo variables `fetch$` and `httpExecutor$`. Two ghost counters
  show that each memo is filled at most once. A `Request` class models the
  `operationType` field that routing overwrites.
- `loader.dfy` (`Loader`): `load`, `loadSync`, `handleSDL`'s method default
  and `getDefaultMethodFromOptions`.

How the model reads the code:

- **The `endpoint` option wins in `buildHTTPExecutor`.** That function passes
  `{ endpoint: HTTP_URL, fetch, ...options }`. Because `options` is spread
  last, a present `endpoint` option replaces the switched URL. `load` and
  `loadSync` pass their whole options object to `getExecutor*`, so this
  affects three things:
  - The HTTP executor used to introspect the pointer sits on the `endpoint`
    option rather than on the pointer.
  - SSE and `graphql-sse` subscription executors ignore
    `subscriptionsEndpoint` and the `/stream` suffix whenever the option is
    present.
  - `BuildHttpExecutor` models this as written. `SseUnderEndpointOption`
    states the consequence.
- **Truthiness differs between the checks**, and the model keeps each one as
  written:
  - `customFetch: ""` falls back to the default fetch.
  - `webSocketImpl: ""` imports the module named `""`.
  - `subscriptionsEndpoint: ""` still takes the routing branch, because
    `!= null` holds. It then falls back to `endpoint`, because `||` treats
    `""` as false.

## Model

| member | source | states |
|---|---|---|
| JsString.ReplaceFirst | packages/loaders/url/src/index.ts:490 | `replace` with a string pattern; its contract is the lemma `ReplaceFirstIndexOf` (the splice at the first index `indexOf` reports, the input itself when there is none), with `ReplaceFirstAfterPrefix` for screened prefixes |
| JsString.ReplaceFirstIndexOf | packages/loaders/url/src/index.ts:490 | `replace` with a string pattern splices the replacement in at the first index `indexOf` reports and keeps everything else; with no occurrence the string comes back unchanged |
| JsString.ReplaceFirstAfterPrefix | packages/loaders/url/src/index.ts:490 | a prefix in which no occurrence of the pattern can start is left alone, and the replacement happens in what follows |
| JsString.Split | packages/loaders/url/src/index.ts:200 | `split` never returns an empty list, no part holds the separator, and joining the parts with it gives the input back |
| JsString.SplitJoin | packages/loaders/url/src/index.ts:238 | `split` undoes joining separator-free parts |
| Protocols.SwitchProtocols | packages/loaders/url/src/index.ts:487-493 | `switchProtocols` as a left fold over the map entries in insertion order, each entry (`SwitchEntry`) rewriting the first `src://` and then the first `src:\`; its properties are the lemmas `SwitchProtocolsFree`, `SwitchProtocolsAppend`, `SwitchPairMiss`, `SwitchToHttp`, `SwitchToWs` and `SwitchRoundTrip` |
| Protocols.SwitchProtocolsFree | packages/loaders/url/src/index.ts:487-493 | a pointer holding none of the map's `src://` and `src:\` patterns is returned unchanged |
| Protocols.SwitchProtocolsAppend | packages/loaders/url/src/index.ts:487-493 | the fold applies the entries one after another in map order: folding over two maps in a row is folding over their concatenation |
| Protocols.SwitchPairMiss | packages/loaders/url/src/index.ts:487-493 | a prefix in which no pattern of either entry can start is kept in front of the fold's result |
| Protocols.SwitchToHttp | packages/loaders/url/src/index.ts:145-148 | with `{ wss: 'https', ws: 'http' }`, `wss://` comes out as `https://` and `ws://` as `http://`, whatever follows; `http(s)://` is kept; the rest is unchanged when it holds no pattern of the map |
| Protocols.SwitchToWs | packages/loaders/url/src/index.ts:162-165 | with `{ https: 'wss', http: 'ws' }`, `https://` comes out as `wss://` and `http://` as `ws://`; `ws(s)://` is kept; the rest is unchanged when it holds no pattern of the map |
| Protocols.SwitchRoundTrip | packages/loaders/url/src/index.ts:179-182 | when the rest of the URL holds no `src://` or `src:\` pattern of either map, switching to WebSocket and back gives what switching to HTTP directly gives, and restores an `http(s)://` URL exactly |
| Protocols.WebScheme.AsHttp | packages/loaders/url/src/index.ts:145-148 | the HTTP counterpart of a scheme is never a WebSocket scheme and keeps whether the scheme is secure |
| Protocols.WebScheme.AsWs | packages/loaders/url/src/index.ts:162-165 | the WebSocket counterpart of a scheme is a WebSocket scheme and keeps whether the scheme is secure |
| Protocols.AcceptableIffScheme | packages/loaders/url/src/index.ts:106-109 | the protocol gate holds exactly when the text before the first `:` is `http`, `https`, `ws` or `wss` |
| Protocols.IsCompatibleUri | packages/loaders/url/src/index.ts:108-113 | the prefix gate over `acceptableProtocols` (`HasAcceptableProtocol`, with `startsWith` as `StartsWith`), then `isUrl`; characterised by `AcceptableIffScheme` (the scheme before the first `:` is one of the four) and `UrlCompatible` (on `scheme://rest` only `isUrl` decides) |
| Protocols.UrlCompatible | packages/loaders/url/src/index.ts:108-113 | every `scheme://rest` passes the protocol gate, so only `isUrl` decides |
| Imports.ParseSpecifier | packages/loaders/url/src/index.ts:200-203 | the module name is the text before the first `#`, which is followed by a `#` whenever the specifier holds one, and it is the whole specifier exactly when there is no `#`; an export name is non-empty, `#`-free, follows the first `#` and runs to the next `#` or the end; there is none exactly when nothing or another `#` follows the first `#` |
| Imports.ParseModuleOnly | packages/loaders/url/src/index.ts:238-241 | a specifier without `#` names the whole module |
| Imports.ParseModuleEmptyExport | packages/loaders/url/src/index.ts:238-241 | `module#` and `module##…` have no truthy export and name the module before the first `#` |
| Imports.ParseModuleExport | packages/loaders/url/src/index.ts:238-241 | `module#export`, optionally followed by further `#` parts, names that export of that module |
| Imports.GetFetch | packages/loaders/url/src/index.ts:194-214 | a fetch is imported exactly when `customFetch` is a non-empty string, with the caller's import function and the target `ParseSpecifier` reads from that string; a function is used as given exactly when one is passed; otherwise the default matching the import function (`DefaultFetch`) is taken |
| Imports.GetWebSocketImpl | packages/loaders/url/src/index.ts:233-247 | an implementation is imported exactly when `webSocketImpl` is a string, even `""`, with the caller's import function and the target `ParseSpecifier` reads from that string; a class is used as given exactly when one is passed; `isomorphic-ws` exactly when the option is absent |
| Imports.SpecifierResolution | packages/loaders/url/src/index.ts:198-203 | `getFetch` and `getWebSocketImpl` import the same target for every non-empty specifier; for `""`, `getFetch` falls back to a default while `getWebSocketImpl` imports the module `""` |
| Imports.DefaultFetchFollowsImport | packages/loaders/url/src/index.ts:209-213 | without a usable custom fetch, the default is the async fetch exactly when the import function is `asyncImport`, and the sync fetch otherwise |
| Executors.SubscriptionExecutor | packages/loaders/url/src/index.ts:263-298 | the protocol table of `buildSubscriptionExecutor`; stated by `SubscriptionExecutorKind` (executor kind, fetch and implementation per protocol) and `GraphqlSseStream` (the `/stream` default, computed by `SseEndpoint`) |
| Executors.BuildSubscriptionExecutor | packages/loaders/url/src/index.ts:263-298 | the executor is the one the protocol table gives, with `/stream` appended when `graphql-sse` runs without a truthy `subscriptionsEndpoint` option |
| Executors.SubscriptionExecutorKind | packages/loaders/url/src/index.ts:269-298 | SSE and `graphql-sse` give an HTTP executor with the fetch given; LEGACY_WS gives the legacy client; WS or no protocol gives `graphql-ws`; both WebSocket clients get the implementation `getWebSocketImpl` resolves |
| Executors.BuildHttpExecutor | packages/loaders/url/src/index.ts:140-155 | an HTTP executor on the `WsToHttp`-switched endpoint, overridden by the `endpoint` option; its URL is stated by `HttpExecutorUrl` and `SseUnderEndpointOption` |
| Executors.HttpExecutorUrl | packages/loaders/url/src/index.ts:140-155 | without an `endpoint` option the HTTP executor sits on the HTTP counterpart of the endpoint's scheme, with the rest kept when it holds no ws pattern; with the option, on the option's value |
| Executors.BuildWsExecutor | packages/loaders/url/src/index.ts:157-172 | a `graphql-ws` executor on the `HttpToWs`-switched endpoint with the implementation given; its URL is stated by `WsExecutorUrl` |
| Executors.BuildWsLegacyExecutor | packages/loaders/url/src/index.ts:174-185 | a legacy WebSocket executor on the `HttpToWs`-switched endpoint with the implementation given; its URL is stated by `WsExecutorUrl` |
| Executors.WsExecutorUrl | packages/loaders/url/src/index.ts:157-185 | both WebSocket executors sit on the WebSocket counterpart of the endpoint's scheme, with the rest kept when it holds no http pattern |
| Executors.GraphqlSseStream | packages/loaders/url/src/index.ts:271-277 | without an `endpoint` option, `graphql-sse` without a truthy `subscriptionsEndpoint` goes to `<endpoint>/stream` switched to HTTP; with one, to the endpoint switched to HTTP and without a suffix |
| Executors.StreamUrl | packages/loaders/url/src/index.ts:275 | when the rest with `/stream` appended holds no pattern of the ws-to-http map, the appended `/stream` survives the switch to HTTP and ends the switched URL |
| Executors.SseUnderEndpointOption | packages/loaders/url/src/index.ts:150-154 | with an `endpoint` option, both SSE protocols build on that endpoint, whatever subscriptions endpoint they were given |
| Router.ExecutorRouter.constructor | packages/loaders/url/src/index.ts:313-340 | the routing branch eagerly fills `fetch$` and builds the subscription executor on `subscriptionsEndpoint \|\| endpoint`; the other branch fills nothing |
| Router.ExecutorRouter.Fetch | packages/loaders/url/src/index.ts:321 | the fetch is `getFetch`'s result, memoised, and computed again never |
| Router.ExecutorRouter.HttpExecutor | packages/loaders/url/src/index.ts:318-327 | the HTTP executor on `endpoint` is built at most once and returned from the memo afterwards |
| Router.ExecutorRouter.ExecutorByRequest | packages/loaders/url/src/index.ts:341-355 | the operation type is taken from the document when missing (the live-query branch leaves it so); a subscription gets the subscription executor and leaves the router unchanged; anything else gets the HTTP executor, which the memo then holds; a memo already filled keeps its value and its counter |
| Router.ExecutorRouter.Route | packages/loaders/url/src/index.ts:329-364 | the executor a request runs on is `ExecutorFor` of the router's inputs; only the routing branch writes the operation type; a subscription sent to the subscription executor leaves the router unchanged; a request not sent to the subscription executor leaves the HTTP memo holding its executor; a memo already filled keeps its value and its counter across requests |
| Router.ExecutorFor | packages/loaders/url/src/index.ts:329-364 | the executor the routed request runs on, in closed form, from the branch test (`RoutesSubscriptions`), the subscription endpoint `subscriptionsEndpoint || endpoint` (`SubscriptionsEndpoint`) and the operation type filled in from the document (`ResolvedOperation`); `Route` is proved equal to it, and `SseCollapse`, `RoutedRequests` and `WebSocketIff` characterise it |
| Router.SseCollapse | packages/loaders/url/src/index.ts:329-331 | with no `subscriptionsEndpoint` and protocol SSE every request, whatever its operation type, goes to the HTTP executor on `endpoint` |
| Router.SseCollapseTransparent | packages/loaders/url/src/index.ts:269-270 | in that case routing would have picked the same executor for subscriptions, so the collapse changes no request's executor |
| Router.RoutedRequests | packages/loaders/url/src/index.ts:336-355 | in the routing branch a request goes to the subscription executor on `subscriptionsEndpoint \|\| endpoint` exactly when its resolved operation type is `subscription`, and to HTTP on `endpoint` otherwise |
| Router.WebSocketIff | packages/loaders/url/src/index.ts:341-355 | a request runs over a WebSocket exactly when it resolves to a subscription and the protocol is neither SSE nor `graphql-sse` |
| Loader.GetDefaultMethodFromOptions | packages/loaders/url/src/index.ts:216-224 | a given `method` wins, otherwise the default |
| Loader.HandleSdl | packages/loaders/url/src/index.ts:380-381 | the SDL pointer is fetched with the `method` option, `GET` by default, through the fetch given |
| Loader.LoadWith | packages/loaders/url/src/index.ts:396-439 | the steps `load` and `loadSync` share, stated as `Loaded`; every router in the result is newly allocated and `Valid`, so it can route; the introspection router has had the introspection query routed through it, so its `fetch$` and `httpExecutor$` are filled (`Introspected`); the `endpoint` router is in the state `getExecutor` leaves (`Unused`) |
| Loader.Load | packages/loaders/url/src/index.ts:396-439 | empty exactly when the pointer is not compatible, else one source located at the pointer; SDL exactly when `handleAsSDL` or a `.graphql`/`.graphqls` ending; wrapped exactly when introspected or `endpoint` is truthy, on a router for that endpoint or else the pointer, reusing the introspection router, with the `batch` option; each router newly allocated and `Valid`, the introspection router with its memos filled by the introspection query, the `endpoint` router untouched |
| Loader.LoadSync | packages/loaders/url/src/index.ts:441-484 | as `load`, with `syncImport` and no `batch`; the same router states as `load` |
| Loader.HandledAsSdl | packages/loaders/url/src/index.ts:404 | the SDL test of `load` and `loadSync` (the same test at line 450), with `endsWith` as `EndsWith`; characterised by `SdlByFileName` |
| Loader.ForeignSchemeRejected | packages/loaders/url/src/index.ts:397-399 | a pointer whose scheme is not one of the four is never loaded |
| Loader.SdlByFileName | packages/loaders/url/src/index.ts:404 | any `.graphql` or `.graphqls` name is read as SDL, and any pointer is once `handleAsSDL` is set |

## Left out

- The merge engine of the repository (`mergeTypeDefs` and friends) is not part of this model; only the URL loader is.
- `isUrl` is a foreign check. It is a parameter `isUrl: string -> bool`, not a URL parser.
- The network, `fetch` itself, reading the response and `parseGraphQLSDL` are not modelled. `HandleSdl` records the pointer, the fetch and the HTTP method; the location of the parsed source is taken to be the pointer handed to `parseGraphQLSDL`.
- `schemaFromExecutor`, `wrapSchema`, `buildASTSchema` and `buildSchema` are not modelled. A schema is recorded as the construction that made it. Of `schemaFromExecutor`, only its effect on the router is kept: one query request routed through it.
- The two errors thrown after a remote answer, `Invalid SDL response` and `Invalid introspected schema`, are not modelled. The model always takes the success path.
- The internals of `buildHTTPExecutor`, `buildGraphQLWSExecutor` and `buildWSLegacyExecutor` from the executor packages are not modelled. Of the options these builders receive, only `endpoint` is modelled. `headers`, `connectionParams`, a `fetch` field among the spread options and the other `HTTPExecutorOptions` are not.
- `import()` and `require` are not modelled. An imported fetch or WebSocket implementation is the tag `(import function, module, export)`. A module whose export is missing or falsy is not modelled.
- Promises and `handleMaybePromise` sequencing are not modelled. Every step is taken as completed in program order.
- Executors.BuildSubscriptionExecutor: for the WebSocket protocols the source returns a function that resolves the implementation and builds a fresh client on every request. The model returns the client that function builds, and does not show that it is rebuilt per request.
- Protocols.SwitchToHttp: the scheme results are stated for the `://` separator only. `SwitchProtocols` itself also rewrites `src:\`.
- Protocols.SwitchToWs: stated for the `://` separator only, as for `SwitchToHttp`.
- JsString.ReplaceFirst: the `$&`, `$1` and similar sequences that `replace` interprets in its replacement string are not modelled. None of the replacements the loader passes contains `$`.
- `Object.entries` puts integer-like keys first. The protocol maps have none, so the model's insertion-order sequence is exact for them.
- An option key present with the value `undefined` is modelled like an absent one. A spread does copy such a key, so an explicit `endpoint: undefined` would blank the HTTP URL. That case is not modelled.
- A missing `options` object is modelled as options with every field absent.
- A `customFetch` that is truthy but is neither a string nor a function cannot be expressed in `CustomFetch`.
