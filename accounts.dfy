/** The /accounts route (pkg/cloudwatch/routes/accounts.go): list the accounts
    visible to the current principal, classifying each failure as 400, 403 or
    500. The context factory, the accounts call and JSON encoding are given as
    function parameters. */
module Accounts {
  import opened Errors
  import opened Models

  const HandlerMessage := "error in AccountsHandler"
  const ListMessage := "error getting accounts for current user or role"
  const RegionRequired := "region is required"

  /** An account as the OAM API reports it. */
  datatype Account = Account(id: string, arn: string, accountLabel: string, isMonitoringAccount: bool)

  /** The accounts service: it reads only the context's OAM client. */
  datatype AccountsService = AccountsService(oamApi: Option<Client>)

  /** newAccountsService: one factory call for the region, then a service over
      the context's OAM client; a factory error is passed on. */
  function NewAccountsService(factory: ContextFactory, region: string): (r: Result<AccountsService>)
    ensures r.Ok? <==> factory(region).Ok?
    ensures r.Ok? ==> r.value.oamApi == factory(region).value.oamApi
    ensures r.Err? ==> r.error == factory(region).error
  {
    match factory(region)
    case Err(e) => Err(e)
    case Ok(reqCtx) => Ok(AccountsService(reqCtx.oamApi))
  }

  /** AccountsHandler. `listAccounts` is GetAccountsForCurrentUserOrRole;
      `marshal` is json.Marshal of the account list. */
  function AccountsHandler(
    parameters: Values,
    factory: ContextFactory,
    listAccounts: AccountsService -> Result<seq<Account>>,
    marshal: seq<Account> -> Result<string>)
    : (out: HandlerOutcome)
    // the factory is asked once, for exactly the region parameter, and only when it is set
    ensures out.regions == if Get(parameters, "region") == "" then [] else [Get(parameters, "region")]
    ensures Get(parameters, "region") == "" ==>
              out.reply == Failure(HttpError(HandlerMessage, StatusBadRequest, Plain(RegionRequired)))
    ensures Status(out.reply) in {StatusOK, StatusBadRequest, StatusForbidden, StatusInternalServerError}
    ensures Status(out.reply) == StatusBadRequest <==> Get(parameters, "region") == ""
    // no failure is answered with 200
    ensures out.reply.Failure? ==> Status(out.reply) != StatusOK
    ensures var region := Get(parameters, "region");
            var service := NewAccountsService(factory, region);
            && (Status(out.reply) == StatusForbidden <==>
                  region != "" && service.Ok? && listAccounts(service.value).Err?
                  && Is(listAccounts(service.value).error, AccessDenied))
            && (region != "" && service.Err? ==>
                  out.reply == Failure(HttpError(HandlerMessage, StatusInternalServerError, service.error)))
            && (region != "" && service.Ok? && listAccounts(service.value).Err? ==>
                  out.reply.Failure? && out.reply.error.message == ListMessage
                  && out.reply.error.cause == listAccounts(service.value).error)
            // a listing error that is not access-denied is a 500
            && (region != "" && service.Ok? && listAccounts(service.value).Err?
                && !Is(listAccounts(service.value).error, AccessDenied) ==>
                  out.reply == Failure(HttpError(ListMessage, StatusInternalServerError, listAccounts(service.value).error)))
            // an encoding failure is a 500 carrying the encoder's error
            && (region != "" && service.Ok? && listAccounts(service.value).Ok?
                && marshal(listAccounts(service.value).value).Err? ==>
                  out.reply == Failure(HttpError(HandlerMessage, StatusInternalServerError,
                                                 marshal(listAccounts(service.value).value).error)))
            && (out.reply.Body? <==>
                  region != "" && service.Ok? && listAccounts(service.value).Ok?
                  && marshal(listAccounts(service.value).value).Ok?)
            && (out.reply.Body? ==> out.reply.bytes == marshal(listAccounts(service.value).value).value)
  {
    var region := Get(parameters, "region");
    if region == "" then
      HandlerOutcome(Failure(HttpError(HandlerMessage, StatusBadRequest, Plain(RegionRequired))), [])
    else
      var reply :=
        match NewAccountsService(factory, region)
        case Err(e) => Failure(HttpError(HandlerMessage, StatusInternalServerError, e))
        case Ok(service) =>
          match listAccounts(service)
          case Err(e) =>
            if Is(e, AccessDenied) then Failure(HttpError(ListMessage, StatusForbidden, e))
            else Failure(HttpError(ListMessage, StatusInternalServerError, e))
          case Ok(accounts) =>
            match marshal(accounts)
            case Err(e) => Failure(HttpError(HandlerMessage, StatusInternalServerError, e))
            case Ok(bytes) => Body(bytes);
      HandlerOutcome(reply, [region])
  }

  /** However deeply the service wraps the access-denied sentinel, the handler answers 403. */
  lemma WrappedAccessDeniedIsForbidden(
    parameters: Values,
    factory: ContextFactory,
    listAccounts: AccountsService -> Result<seq<Account>>,
    marshal: seq<Account> -> Result<string>,
    prefixes: seq<string>, text: string)
    requires Get(parameters, "region") != ""
    requires factory(Get(parameters, "region")).Ok?
    requires listAccounts(NewAccountsService(factory, Get(parameters, "region")).value)
          == Err(WrapAll(SentinelError(AccessDenied, text), prefixes))
    ensures Status(AccountsHandler(parameters, factory, listAccounts, marshal).reply) == StatusForbidden
  {
    WrapAllPreservesIs(SentinelError(AccessDenied, text), prefixes, AccessDenied);
  }
}
