/** The /external-id route (pkg/cloudwatch/routes/external_id.go): answer the
    external ID from the settings alone, before any credentials are usable. */
module ExternalId {
  import opened Errors
  import opened Models

  const HandlerMessage := "error in ExternalIdHandler"

  /** The response body: a JSON object whose one key is "externalId". */
  datatype ExternalIdResponse = ExternalIdResponse(externalId: string)

  /** ExternalIdHandler: the pre-auth factory is asked for region "", and the
      answer is the settings' external ID. `marshal` is json.Marshal. */
  function ExternalIdHandler(
    parameters: Values,
    factory: ContextFactory,
    marshal: ExternalIdResponse -> Result<string>)
    : (out: HandlerOutcome)
    ensures out.regions == [""]
    ensures Status(out.reply) in {StatusOK, StatusInternalServerError}
    ensures factory("").Err? ==>
              out.reply == Failure(HttpError(HandlerMessage, StatusInternalServerError, factory("").error))
    ensures factory("").Ok? ==>
              var response := ExternalIdResponse(factory("").value.settings.grafanaSettings.externalId);
              out.reply == match marshal(response)
                           case Ok(bytes) => Body(bytes)
                           case Err(e) => Failure(HttpError(HandlerMessage, StatusInternalServerError, e))
  {
    match factory("")
    case Err(e) => HandlerOutcome(Failure(HttpError(HandlerMessage, StatusInternalServerError, e)), [""])
    case Ok(reqCtx) =>
      var response := ExternalIdResponse(reqCtx.settings.grafanaSettings.externalId);
      match marshal(response)
      case Err(e) => HandlerOutcome(Failure(HttpError(HandlerMessage, StatusInternalServerError, e)), [""])
      case Ok(bytes) => HandlerOutcome(Body(bytes), [""])
  }

  /** The answer depends on the settings only: not on the query parameters and
      not on any client in the context. */
  lemma DependsOnlyOnSettings(
    p1: Values, p2: Values,
    f1: ContextFactory, f2: ContextFactory,
    marshal: ExternalIdResponse -> Result<string>)
    requires f1("").Ok? && f2("").Ok?
    requires f1("").value.settings == f2("").value.settings
    ensures ExternalIdHandler(p1, f1, marshal) == ExternalIdHandler(p2, f2, marshal)
  {
  }
}
