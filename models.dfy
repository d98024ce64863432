/** The data the adapter passes around: instance settings, the auth settings
    handed to the AWS config provider, resolved configurations and the clients
    built from them, the per-request context, and the HTTP-facing error. */
module Models {
  import opened Errors

  const StatusOK := 200
  const StatusBadRequest := 400
  const StatusForbidden := 403
  const StatusInternalServerError := 500

  /** The host-provided part of the instance settings. */
  datatype GrafanaSettings = GrafanaSettings(
    externalId: string,
    secureSocksDSProxyEnabled: bool,
    listMetricsPageLimit: int)

  /** models.CloudWatchSettings: read-only per instance. `region` is the home region. */
  datatype CloudWatchSettings = CloudWatchSettings(
    region: string,
    profile: string,
    authType: string,
    assumeRoleArn: string,
    endpoint: string,
    accessKey: string,
    secretKey: string,
    secureSocksProxyEnabled: bool,
    grafanaSettings: GrafanaSettings)

  /** The secure-socks proxy options of the instance; their contents do not matter here. */
  datatype ProxyOptions = ProxyOptions(dialer: string)

  /** awsauth.Settings: what the config provider resolves into a configuration. */
  datatype AuthSettings = AuthSettings(
    credentialsProfile: string,
    legacyAuthType: string,
    assumeRoleArn: string,
    externalId: string,
    endpoint: string,
    region: string,
    accessKey: string,
    secretKey: string,
    proxyOptions: Option<ProxyOptions>)

  /** aws.Config as returned by the provider; opaque to this core. */
  datatype Config = Config(region: string, credentials: string)

  /** The capability clients; each records the configuration it was built from. */
  datatype Client =
    | OAMAPI(cfg: Config)
    | MetricsClient(cfg: Config, pageLimit: int)
    | LogsAPI(cfg: Config)
    | EC2API(cfg: Config)

  /** models.RequestContext without its logger: an absent client is Go's nil. */
  datatype RequestContext = RequestContext(
    oamApi: Option<Client>,
    metricsClient: Option<Client>,
    logsApi: Option<Client>,
    ec2Api: Option<Client>,
    settings: CloudWatchSettings)

  /** A request-context factory as the route handlers see it: region to context or error. */
  type ContextFactory = string -> Result<RequestContext>

  /** models.HttpError: message, status code and the wrapped cause. */
  datatype HttpError = HttpError(message: string, statusCode: int, cause: Error)

  /** What a middleware route handler returns: the body bytes, or an HttpError. */
  datatype Reply = Body(bytes: string) | Failure(error: HttpError)

  /** A handler's reply together with the regions, in call order, for which it
      asked the context factory (or a service built on it) for a context. */
  datatype HandlerOutcome = HandlerOutcome(reply: Reply, regions: seq<string>)

  /** The status the middleware adapter writes for a reply. */
  function Status(r: Reply): int
  {
    match r
    case Body(_) => StatusOK
    case Failure(e) => e.statusCode
  }

  /** url.Values. */
  type Values = map<string, seq<string>>

  /** `url.Values.Get`: the first value for the key, or "" when there is none. */
  function Get(v: Values, key: string): (r: string)
    ensures r != "" ==> key in v && |v[key]| > 0 && r == v[key][0]
    ensures key in v && |v[key]| > 0 ==> r == v[key][0]
  {
    if key in v && |v[key]| > 0 then v[key][0] else ""
  }
}
