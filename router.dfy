/**
 * `getExecutor` of `UrlLoader`: the executor it returns routes each request
 * either to the subscription executor or to a lazily built HTTP executor,
 * and memoises the fetch function and the HTTP executor (`fetch$ ||=`,
 * `httpExecutor$ ||=`).
 */
module Router {
  import opened Wrappers
  import opened LoaderOptions
  import opened Imports
  import opened Executors

  /** `OperationTypeNode` */
  datatype OperationType = Query | Mutation | Subscription

  /** The part of an `ExecutionRequest` the router reads and writes. */
  class Request {
    /** `request.operationType`, which the router overwrites. */
    var operationType: Option<OperationType>
    /** `getOperationASTFromRequest(request)?.operation` */
    const documentOperation: Option<OperationType>
    /** `isLiveQueryOperationDefinitionNode(getOperationASTFromRequest(request))` */
    const isLiveQuery: bool

    constructor(operationType: Option<OperationType>, documentOperation: Option<OperationType>, isLiveQuery: bool)
      ensures this.operationType == operationType
      ensures this.documentOperation == documentOperation
      ensures this.isLiveQuery == isLiveQuery
    {
      this.operationType := operationType;
      this.documentOperation := documentOperation;
      this.isLiveQuery := isLiveQuery;
    }
  }

  /**
   * The routing branch of `getExecutor` is taken unless there is no
   * `subscriptionsEndpoint` (`!= null`) and the protocol is SSE.
   */
  predicate RoutesSubscriptions(options: Options) {
    options.subscriptionsEndpoint.Some? || options.subscriptionsProtocol != Some(SSE)
  }

  /** `options?.subscriptionsEndpoint || endpoint` */
  function SubscriptionsEndpoint(endpoint: string, options: Options): string {
    if Truthy(options.subscriptionsEndpoint) then options.subscriptionsEndpoint.value else endpoint
  }

  /** `request.operationType || getOperationASTFromRequest(request)?.operation` */
  function ResolvedOperation(given: Option<OperationType>, documentOperation: Option<OperationType>): Option<OperationType> {
    if given.Some? then given else documentOperation
  }

  /**
   * The executor a request runs on, as a function of the router's inputs
   * and the request's operation type before routing.
   */
  function ExecutorFor(endpoint: string, importFn: ImportFn, options: Options,
                       given: Option<OperationType>, documentOperation: Option<OperationType>): Executor
  {
    var fetch := GetFetch(options.customFetch, importFn);
    if RoutesSubscriptions(options) && ResolvedOperation(given, documentOperation) == Some(Subscription)
    then SubscriptionExecutor(SubscriptionsEndpoint(endpoint, options), fetch, importFn, options)
    else BuildHttpExecutor(endpoint, fetch, options)
  }

  /** The executor `getExecutor(endpoint, importFn, options)` returns. */
  class ExecutorRouter {
    const endpoint: string
    const importFn: ImportFn
    const options: Options
    /** `subscriptionExecutor$`, built eagerly in the routing branch only. */
    const subscriptionExecutor: Option<Executor>
    /** `fetch$` */
    var fetchMemo: Option<FetchFn>
    /** `httpExecutor$` */
    var httpExecutorMemo: Option<Executor>
    /** How often `getFetch` and the HTTP executor builder have run. */
    ghost var fetchCalls: nat
    ghost var httpBuilds: nat

    /** Both memos are filled at most once, and hold what they memoise. */
    ghost predicate Valid()
      reads this
    {
      && fetchCalls <= 1 && httpBuilds <= 1
      && (fetchMemo.Some? <==> fetchCalls == 1)
      && (httpExecutorMemo.Some? <==> httpBuilds == 1)
      && (fetchMemo.Some? ==> fetchMemo.value == GetFetch(options.customFetch, importFn))
      && (httpExecutorMemo.Some? ==>
            fetchMemo.Some? && httpExecutorMemo.value == BuildHttpExecutor(endpoint, fetchMemo.value, options))
      && (subscriptionExecutor.Some? <==> RoutesSubscriptions(options))
      && (subscriptionExecutor.Some? ==>
            fetchMemo.Some? &&
            subscriptionExecutor.value ==
              SubscriptionExecutor(SubscriptionsEndpoint(endpoint, options), fetchMemo.value, importFn, options))
    }

    /**
     * The state `getExecutor` leaves: no HTTP executor built yet, and the
     * fetch function resolved exactly when the routing branch was taken.
     */
    ghost predicate Unused()
      reads this
    {
      Valid() && httpExecutorMemo == None && (fetchMemo.Some? <==> RoutesSubscriptions(options))
    }

    /** `getExecutor(endpoint, importFn, options)` */
    constructor(endpoint: string, importFn: ImportFn, options: Options)
      ensures Unused()
      ensures this.endpoint == endpoint && this.importFn == importFn && this.options == options
    {
      this.endpoint := endpoint;
      this.importFn := importFn;
      this.options := options;
      if RoutesSubscriptions(options) {
        var fetch := GetFetch(options.customFetch, importFn);
        var subscriptionsEndpoint := SubscriptionsEndpoint(endpoint, options);
        var executor := BuildSubscriptionExecutor(subscriptionsEndpoint, fetch, importFn, options);
        this.subscriptionExecutor := Some(executor);
        this.fetchMemo := Some(fetch);
        this.fetchCalls := 1;
      } else {
        this.subscriptionExecutor := None;
        this.fetchMemo := None;
        this.fetchCalls := 0;
      }
      this.httpExecutorMemo := None;
      this.httpBuilds := 0;
    }

    /** `fetch$ ||= this.getFetch(options?.customFetch, importFn)` */
    method Fetch() returns (fetch: FetchFn)
      requires Valid()
      modifies this
      ensures Valid()
      ensures fetch == GetFetch(options.customFetch, importFn) && fetchMemo == Some(fetch)
      ensures old(fetchMemo).Some? ==> fetchCalls == old(fetchCalls)
      ensures httpExecutorMemo == old(httpExecutorMemo) && httpBuilds == old(httpBuilds)
    {
      if fetchMemo.None? {
        fetchMemo := Some(GetFetch(options.customFetch, importFn));
        fetchCalls := fetchCalls + 1;
      }
      fetch := fetchMemo.value;
    }

    /** `getSetHttpExecutor$()`: `httpExecutor$ ||= getHttpExecutor()` */
    method HttpExecutor() returns (executor: Executor)
      requires Valid()
      modifies this
      ensures Valid()
      ensures executor == BuildHttpExecutor(endpoint, GetFetch(options.customFetch, importFn), options)
      ensures httpExecutorMemo == Some(executor) && fetchMemo.Some?
      ensures old(httpExecutorMemo).Some? ==>
        httpBuilds == old(httpBuilds) && fetchCalls == old(fetchCalls) && fetchMemo == old(fetchMemo)
    {
      if httpExecutorMemo.None? {
        var fetch := Fetch();
        httpExecutorMemo := Some(BuildHttpExecutor(endpoint, fetch, options));
        httpBuilds := httpBuilds + 1;
      }
      executor := httpExecutorMemo.value;
    }

    /**
     * `getExecutorByRequest(request)`: the operation type is filled in from
     * the document when missing, and a subscription goes to the
     * subscription executor; anything else to the HTTP executor.
     */
    method ExecutorByRequest(request: Request) returns (executor: Executor)
      requires Valid() && RoutesSubscriptions(options)
      modifies this, request
      ensures Valid()
      ensures request.operationType == ResolvedOperation(old(request.operationType), request.documentOperation)
      ensures request.operationType == Some(Subscription) ==> executor == subscriptionExecutor.value
      ensures request.operationType == Some(Subscription) ==> unchanged(this)
      ensures request.operationType != Some(Subscription) ==>
        executor == BuildHttpExecutor(endpoint, GetFetch(options.customFetch, importFn), options)
      ensures request.operationType != Some(Subscription) ==> httpExecutorMemo == Some(executor)
      ensures old(fetchMemo).Some? ==> fetchMemo == old(fetchMemo) && fetchCalls == old(fetchCalls)
      ensures old(httpExecutorMemo).Some? ==>
        httpExecutorMemo == old(httpExecutorMemo) && httpBuilds == old(httpBuilds)
    {
      if request.operationType.None? {
        request.operationType := request.documentOperation;
      }
      if request.operationType == Some(Subscription) && request.isLiveQuery {
        request.operationType := Some(Subscription);
      }
      if request.operationType == Some(Subscription) {
        executor := subscriptionExecutor.value;
      } else {
        executor := HttpExecutor();
      }
    }

    /**
     * The returned executor applied to a request: the executor the request
     * is run on. Only the routing branch looks at, and writes, the
     * request's operation type.
     */
    method Route(request: Request) returns (executor: Executor)
      requires Valid()
      modifies this, request
      ensures Valid()
      ensures executor == ExecutorFor(endpoint, importFn, options, old(request.operationType), request.documentOperation)
      ensures RoutesSubscriptions(options) ==>
        request.operationType == ResolvedOperation(old(request.operationType), request.documentOperation)
      ensures !RoutesSubscriptions(options) ==> request.operationType == old(request.operationType)
      ensures !(RoutesSubscriptions(options) && request.operationType == Some(Subscription)) ==>
        httpExecutorMemo == Some(executor)
      ensures RoutesSubscriptions(options) && request.operationType == Some(Subscription) ==> unchanged(this)
      ensures old(fetchMemo).Some? ==> fetchMemo == old(fetchMemo) && fetchCalls == old(fetchCalls)
      ensures old(httpExecutorMemo).Some? ==>
        httpExecutorMemo == old(httpExecutorMemo) && httpBuilds == old(httpBuilds)
    {
      if RoutesSubscriptions(options) {
        executor := ExecutorByRequest(request);
      } else {
        executor := HttpExecutor();
      }
    }
  }

  /**
   * Without a `subscriptionsEndpoint` and with SSE, every request goes to
   * the HTTP executor on `endpoint`, whatever its operation type.
   */
  lemma SseCollapse(endpoint: string, importFn: ImportFn, options: Options,
                    given: Option<OperationType>, documentOperation: Option<OperationType>)
    requires options.subscriptionsEndpoint.None? && options.subscriptionsProtocol == Some(SSE)
    ensures ExecutorFor(endpoint, importFn, options, given, documentOperation) ==
      BuildHttpExecutor(endpoint, GetFetch(options.customFetch, importFn), options)
  {
  }

  /**
   * The collapse changes no request's executor: had the router routed, a
   * subscription would have gone to an SSE executor on the same endpoint,
   * which is the HTTP executor.
   */
  lemma SseCollapseTransparent(endpoint: string, importFn: ImportFn, options: Options)
    requires !RoutesSubscriptions(options)
    ensures var fetch := GetFetch(options.customFetch, importFn);
      SubscriptionExecutor(SubscriptionsEndpoint(endpoint, options), fetch, importFn, options) ==
      BuildHttpExecutor(endpoint, fetch, options)
  {
  }

  /**
   * Otherwise a request is sent to the subscription executor on
   * `subscriptionsEndpoint || endpoint` exactly when its resolved operation
   * type is `subscription`; every other request goes to HTTP on `endpoint`.
   */
  lemma RoutedRequests(endpoint: string, importFn: ImportFn, options: Options,
                       given: Option<OperationType>, documentOperation: Option<OperationType>)
    requires RoutesSubscriptions(options)
    ensures var fetch := GetFetch(options.customFetch, importFn);
      var e := ExecutorFor(endpoint, importFn, options, given, documentOperation);
      var op := if given.Some? then given else documentOperation;
      (op == Some(Subscription) ==>
        e == SubscriptionExecutor(SubscriptionsEndpoint(endpoint, options), fetch, importFn, options)) &&
      (op != Some(Subscription) ==> e == BuildHttpExecutor(endpoint, fetch, options))
  {
  }

  /**
   * A request runs over a WebSocket exactly when it is a subscription routed
   * to a subscription executor whose protocol is neither SSE nor
   * `graphql-sse`; everything else runs over HTTP.
   */
  lemma WebSocketIff(endpoint: string, importFn: ImportFn, options: Options,
                     given: Option<OperationType>, documentOperation: Option<OperationType>)
    ensures var e := ExecutorFor(endpoint, importFn, options, given, documentOperation);
      var protocol := options.subscriptionsProtocol;
      !e.HttpExecutor? <==>
        ResolvedOperation(given, documentOperation) == Some(Subscription) &&
        protocol != Some(SSE) && protocol != Some(GRAPHQL_SSE)
  {
    var fetch := GetFetch(options.customFetch, importFn);
    SubscriptionExecutorKind(SubscriptionsEndpoint(endpoint, options), fetch, importFn, options);
  }
}
