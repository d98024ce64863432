/** The /dimension-values route (pkg/cloudwatch/routes/dimension_values.go):
    parse the request, build a list-metrics service for the parsed region, ask
    it for the values of one dimension. Parsing, the service factory, the
    service call and JSON encoding are given as function parameters. */
module DimensionValues {
  import opened Errors
  import opened Models

  const HandlerMessage := "error in DimensionValuesHandler"

  /** resources.DimensionValuesRequest: the fields the handler reads and passes on. */
  datatype DimensionValuesRequest = DimensionValuesRequest(
    region: string,
    namespace: string,
    metricName: string,
    dimensionKey: string,
    accountId: string)

  /** One entry of the response: a dimension value and, optionally, its account. */
  datatype ResourceResponse = ResourceResponse(accountId: Option<string>, value: string)

  /** A list-metrics service over the metrics client of a request context. */
  datatype ListMetricsService = ListMetricsService(metricsClient: Option<Client>)

  /** DimensionValuesHandler. `parse` is resources.GetDimensionValuesRequest,
      `newService` is newListMetricsService (called with a region),
      `getValues` is GetDimensionValuesByDimensionFilter, `marshal` is json.Marshal. */
  function DimensionValuesHandler(
    parameters: Values,
    parse: Values -> Result<DimensionValuesRequest>,
    newService: string -> Result<ListMetricsService>,
    getValues: (ListMetricsService, DimensionValuesRequest) -> Result<seq<ResourceResponse>>,
    marshal: seq<ResourceResponse> -> Result<string>)
    : (out: HandlerOutcome)
    // a parse failure is a 400 and no service is built
    ensures parse(parameters).Err? <==> out.regions == []
    ensures parse(parameters).Err? ==>
              out.reply == Failure(HttpError(HandlerMessage, StatusBadRequest, parse(parameters).error))
    // otherwise the service is built once, for the parsed region
    ensures parse(parameters).Ok? ==> out.regions == [parse(parameters).value.region]
    // no path answers 403; every failure after parsing is a 500
    ensures Status(out.reply) in {StatusOK, StatusBadRequest, StatusInternalServerError}
    ensures Status(out.reply) == StatusBadRequest <==> parse(parameters).Err?
    ensures out.reply.Failure? ==> out.reply.error.message == HandlerMessage
    ensures out.reply.Failure? ==> Status(out.reply) != StatusOK
    ensures parse(parameters).Ok? && out.reply.Failure? ==> out.reply.error.statusCode == StatusInternalServerError
    ensures var req := parse(parameters);
            var service := if req.Ok? then newService(req.value.region) else Err(Plain(""));
            && (out.reply.Body? <==>
                  req.Ok? && service.Ok? && getValues(service.value, req.value).Ok?
                  && marshal(getValues(service.value, req.value).value).Ok?)
            && (out.reply.Body? ==> out.reply.bytes == marshal(getValues(service.value, req.value).value).value)
            && (req.Ok? && service.Err? ==> out.reply.error.cause == service.error)
            && (req.Ok? && service.Ok? && getValues(service.value, req.value).Err? ==>
                  out.reply.error.cause == getValues(service.value, req.value).error)
            && (req.Ok? && service.Ok? && getValues(service.value, req.value).Ok?
                && marshal(getValues(service.value, req.value).value).Err? ==>
                  out.reply.error.cause == marshal(getValues(service.value, req.value).value).error)
  {
    match parse(parameters)
    case Err(e) => HandlerOutcome(Failure(HttpError(HandlerMessage, StatusBadRequest, e)), [])
    case Ok(req) =>
      var reply :=
        match newService(req.region)
        case Err(e) => Failure(HttpError(HandlerMessage, StatusInternalServerError, e))
        case Ok(service) =>
          match getValues(service, req)
          case Err(e) => Failure(HttpError(HandlerMessage, StatusInternalServerError, e))
          case Ok(response) =>
            match marshal(response)
            case Err(e) => Failure(HttpError(HandlerMessage, StatusInternalServerError, e))
            case Ok(bytes) => Body(bytes);
      HandlerOutcome(reply, [req.region])
  }
}
