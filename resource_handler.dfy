/** The resource routes of pkg/cloudwatch/resource_handler.go: the route table
    built into a ServeMux, and the simple adapter that drives a ResponseWriter
    for the four legacy endpoints. */
module ResourceHandler {
  import opened Errors
  import opened Models
  import CloudWatch
  import ExternalId

  // ---------------------------------------------------------------------------
  // The route table
  // ---------------------------------------------------------------------------

  /** The handlers served through the simple adapter. */
  datatype SimpleHandler = EbsVolumeIds | Ec2InstanceAttribute | ResourceArns | LegacyLogGroups

  /** The handlers served through the middleware adapter. */
  datatype RouteHandler =
    | LogGroupsHandler | MetricsHandler | DimensionValuesHandler | DimensionKeysHandler
    | AccountsHandler | NamespacesHandler | LogGroupFieldsHandler | ExternalIdHandler | RegionsHandler

  /** Which request-context factory a middleware route is given. */
  datatype FactoryKind = FullContext | SettingsOnly

  datatype Route = Simple(simpleHandler: SimpleHandler) | Middleware(routeHandler: RouteHandler, factory: FactoryKind)

  /** The paths served by the simple adapter. */
  const SimplePaths: set<string> := {"/ebs-volume-ids", "/ec2-instance-attribute", "/resource-arns", "/legacy-log-groups"}

  /** The paths served by the middleware adapter. */
  const MiddlewarePaths: set<string> :=
    {"/log-groups", "/metrics", "/dimension-values", "/dimension-keys", "/accounts",
     "/namespaces", "/log-group-fields", "/external-id", "/regions"}

  /** An http.ServeMux: a pattern table filled by HandleFunc. */
  class ServeMux {
    var routes: map<string, Route>

    constructor ()
      ensures routes == map[]
    {
      routes := map[];
    }

    /** HandleFunc; net/http panics when a pattern is registered twice. */
    method HandleFunc(pattern: string, route: Route)
      requires pattern !in routes
      modifies this
      ensures routes == old(routes)[pattern := route]
    {
      routes := routes[pattern := route];
    }
  }

  /** The table newResourceMux registers. */
  function RouteTable(): (m: map<string, Route>)
    ensures m.Keys == SimplePaths + MiddlewarePaths
    // the four legacy endpoints, and only they, use the simple adapter
    ensures forall p :: p in m ==> (m[p].Simple? <==> p in SimplePaths)
    // "/external-id" is the only route given the settings-only factory
    ensures forall p :: p in m && m[p].Middleware? ==> (m[p].factory == SettingsOnly <==> p == "/external-id")
    ensures m["/external-id"] == Middleware(ExternalIdHandler, SettingsOnly)
    ensures m["/accounts"] == Middleware(AccountsHandler, FullContext)
    ensures m["/dimension-values"] == Middleware(DimensionValuesHandler, FullContext)
  {
    map[
      "/ebs-volume-ids" := Simple(EbsVolumeIds),
      "/ec2-instance-attribute" := Simple(Ec2InstanceAttribute),
      "/resource-arns" := Simple(ResourceArns),
      "/log-groups" := Middleware(LogGroupsHandler, FullContext),
      "/metrics" := Middleware(MetricsHandler, FullContext),
      "/dimension-values" := Middleware(DimensionValuesHandler, FullContext),
      "/dimension-keys" := Middleware(DimensionKeysHandler, FullContext),
      "/accounts" := Middleware(AccountsHandler, FullContext),
      "/namespaces" := Middleware(NamespacesHandler, FullContext),
      "/log-group-fields" := Middleware(LogGroupFieldsHandler, FullContext),
      "/external-id" := Middleware(ExternalIdHandler, SettingsOnly),
      "/regions" := Middleware(RegionsHandler, FullContext),
      "/legacy-log-groups" := Simple(LegacyLogGroups)
    ]
  }

  /** newResourceMux: thirteen registrations, in the source's order. */
  method NewResourceMux() returns (mux: ServeMux)
    ensures fresh(mux)
    ensures mux.routes == RouteTable()
  {
    mux := new ServeMux();
    mux.HandleFunc("/ebs-volume-ids", Simple(EbsVolumeIds));
    mux.HandleFunc("/ec2-instance-attribute", Simple(Ec2InstanceAttribute));
    mux.HandleFunc("/resource-arns", Simple(ResourceArns));
    mux.HandleFunc("/log-groups", Middleware(LogGroupsHandler, FullContext));
    mux.HandleFunc("/metrics", Middleware(MetricsHandler, FullContext));
    mux.HandleFunc("/dimension-values", Middleware(DimensionValuesHandler, FullContext));
    mux.HandleFunc("/dimension-keys", Middleware(DimensionKeysHandler, FullContext));
    mux.HandleFunc("/accounts", Middleware(AccountsHandler, FullContext));
    mux.HandleFunc("/namespaces", Middleware(NamespacesHandler, FullContext));
    mux.HandleFunc("/log-group-fields", Middleware(LogGroupFieldsHandler, FullContext));
    mux.HandleFunc("/external-id", Middleware(ExternalIdHandler, SettingsOnly));
    mux.HandleFunc("/regions", Middleware(RegionsHandler, FullContext));
    mux.HandleFunc("/legacy-log-groups", Simple(LegacyLogGroups));
  }

  /** The factory a middleware route of the data source is given. */
  function FactoryFor(kind: FactoryKind, lookup: Result<CloudWatch.DataSource>, getConfig: CloudWatch.ConfigProvider)
    : ContextFactory
  {
    match kind
    case FullContext => CloudWatch.FullFactory(lookup, getConfig)
    case SettingsOnly => CloudWatch.SettingsOnlyFactory(lookup)
  }

  /** Served through its route, /external-id answers the instance's external ID
      without any config resolution, whatever the config provider would do. */
  lemma ExternalIdRouteUsesSettingsOnly(
    lookup: Result<CloudWatch.DataSource>, getConfig: CloudWatch.ConfigProvider,
    parameters: Values, marshal: ExternalId.ExternalIdResponse -> Result<string>)
    requires lookup.Ok?
    ensures CloudWatch.RequestContextOnlySettings(lookup, "").calls == []
    ensures var factory := FactoryFor(RouteTable()["/external-id"].factory, lookup, getConfig);
            var response := ExternalId.ExternalIdResponse(lookup.value.settings.grafanaSettings.externalId);
            ExternalId.ExternalIdHandler(parameters, factory, marshal).reply
              == match marshal(response)
                 case Ok(bytes) => Body(bytes)
                 case Err(e) => Failure(HttpError(ExternalId.HandlerMessage, StatusInternalServerError, e))
  {
  }

  // ---------------------------------------------------------------------------
  // The response writer and the simple adapter
  // ---------------------------------------------------------------------------

  /** An http.ResponseWriter for one request. The status is fixed by the first
      header write (an explicit WriteHeader, or the implicit 200 of a first
      Write); later WriteHeader calls are counted but change nothing. When the
      connection is gone (`writeError` is Some) a Write delivers nothing and
      returns that error. */
  class ResponseWriter {
    var status: int
    var body: string
    var headerWritten: bool
    var headerCalls: nat
    const writeError: Option<Error>

    constructor (writeError: Option<Error>)
      ensures this.writeError == writeError
      ensures !headerWritten && headerCalls == 0 && body == [] && status == 0
    {
      this.writeError := writeError;
      status, body, headerWritten, headerCalls := 0, [], false, 0;
    }

    /** A fresh writer: nothing sent yet. */
    predicate Untouched()
      reads this
    {
      !headerWritten && headerCalls == 0 && body == []
    }

    method WriteHeader(code: int)
      modifies this
      ensures headerWritten && headerCalls == old(headerCalls) + 1
      ensures status == if old(headerWritten) then old(status) else code
      ensures body == old(body)
    {
      if !headerWritten {
        status := code;
        headerWritten := true;
      }
      headerCalls := headerCalls + 1;
    }

    method Write(data: string) returns (err: Option<Error>)
      modifies this
      ensures headerWritten && headerCalls == old(headerCalls)
      ensures status == if old(headerWritten) then old(status) else StatusOK
      ensures err == writeError
      ensures body == if writeError.Some? then old(body) else old(body) + data
    {
      if !headerWritten {
        status := StatusOK;
        headerWritten := true;
      }
      err := writeError;
      if writeError.None? {
        body := body + data;
      }
    }
  }

  /** writeResponse: the status, then the message; a write error is only logged. */
  method WriteResponse(rw: ResponseWriter, code: int, msg: string)
    modifies rw
    ensures rw.headerWritten && rw.headerCalls == old(rw.headerCalls) + 1
    ensures rw.status == if old(rw.headerWritten) then old(rw.status) else code
    ensures rw.body == if rw.writeError.Some? then old(rw.body) else old(rw.body) + msg
  {
    rw.WriteHeader(code);
    var err := rw.Write(msg);
  }

  /** A suggestion item of the legacy endpoints. */
  datatype SuggestData = SuggestData(text: string, value: string, suggestLabel: string)

  /** The (status, body) of one response. */
  datatype Response = Response(status: int, body: string)

  const UnexpectedError := "unexpected error "

  /** What the simple adapter answers: 400 with "unexpected error <err>" for
      the first failing step (form parse, handler, JSON encoding), otherwise
      200 with the encoded suggestions. */
  function SimpleResponse(
    parseErr: Option<Error>,
    query: Values,
    handle: Values -> Result<seq<SuggestData>>,
    marshal: seq<SuggestData> -> Result<string>)
    : (r: Response)
    ensures r.status == StatusOK || r.status == StatusBadRequest
    ensures r.status == StatusOK <==>
              parseErr.None? && handle(query).Ok? && marshal(handle(query).value).Ok?
    ensures r.status == StatusOK ==> r.body == marshal(handle(query).value).value
    ensures parseErr.Some? ==> r == Response(StatusBadRequest, UnexpectedError + Text(parseErr.value))
    ensures parseErr.None? && handle(query).Err? ==>
              r == Response(StatusBadRequest, UnexpectedError + Text(handle(query).error))
    ensures parseErr.None? && handle(query).Ok? && marshal(handle(query).value).Err? ==>
              r == Response(StatusBadRequest, UnexpectedError + Text(marshal(handle(query).value).error))
  {
    match parseErr
    case Some(e) => Response(StatusBadRequest, UnexpectedError + Text(e))
    case None =>
      match handle(query)
      case Err(e) => Response(StatusBadRequest, UnexpectedError + Text(e))
      case Ok(data) =>
        match marshal(data)
        case Err(e) => Response(StatusBadRequest, UnexpectedError + Text(e))
        case Ok(body) => Response(StatusOK, body)
  }

  /** The handler closure of handleResourceReq for one request. `parseErr` is
      the outcome of ParseForm, `query` is req.URL.Query(). Returns the
      parameters the handler function was invoked with (none, or one call). */
  method HandleResourceReq(
    rw: ResponseWriter,
    parseErr: Option<Error>,
    query: Values,
    handle: Values -> Result<seq<SuggestData>>,
    marshal: seq<SuggestData> -> Result<string>)
    returns (handlerCalls: seq<Values>)
    requires rw.Untouched()
    modifies rw
    // exactly one status is written, and it is the adapter's
    ensures rw.headerWritten && rw.headerCalls == 1
    ensures rw.status == SimpleResponse(parseErr, query, handle, marshal).status
    // the body is the adapter's, unless the connection rejected it
    ensures rw.body == if rw.writeError.Some? then [] else SimpleResponse(parseErr, query, handle, marshal).body
    // the handler runs only once the form parsed
    ensures handlerCalls == if parseErr.None? then [query] else []
  {
    if parseErr.Some? {
      WriteResponse(rw, StatusBadRequest, UnexpectedError + Text(parseErr.value));
      return [];
    }
    handlerCalls := [query];
    var data := handle(query);
    if data.Err? {
      WriteResponse(rw, StatusBadRequest, UnexpectedError + Text(data.error));
      return;
    }
    var body := marshal(data.value);
    if body.Err? {
      WriteResponse(rw, StatusBadRequest, UnexpectedError + Text(body.error));
      return;
    }
    rw.WriteHeader(StatusOK);
    var err := rw.Write(body.value);
    if err.Some? {
      return;
    }
  }
}
