/** The data source of pkg/cloudwatch/cloudwatch.go: AWS config resolution for
    a region, the two request-context factories, query dispatch, the health
    check, and the terminal-state test of a logs query.

    The AWS config provider is a function parameter `getConfig`; every call made
    to it is returned, in order, as a trace of the auth settings it was given.
    The instance-manager lookup is a given outcome `lookup`. */
module CloudWatch {
  import opened Errors
  import opened Models

  const DefaultRegion := "default"
  const LogsQueryMode := "Logs"
  const HeaderFromExpression := "X-Grafana-From-Expr"
  const HeaderFromAlert := "FromAlert"
  const AnnotationQuery := "annotationQuery"
  const LogAction := "logAction"
  const TimeSeriesQuery := "timeSeriesQuery"

  /** The fields of a DataSource instance that the core reads. */
  datatype DataSource = DataSource(settings: CloudWatchSettings, proxyOpts: Option<ProxyOptions>)

  /** awsauth.ConfigProvider.GetConfig. */
  type ConfigProvider = AuthSettings -> Result<Config>

  /** A result together with the auth settings passed to the config provider, in call order. */
  datatype Traced<T> = Traced(result: Result<T>, calls: seq<AuthSettings>)

  // ---------------------------------------------------------------------------
  // newAWSConfig
  // ---------------------------------------------------------------------------

  /** The region actually used for a requested one: the sentinel "default"
      stands for the home region. */
  function EffectiveRegion(home: string, region: string): (r: string)
    ensures region != DefaultRegion ==> r == region
    ensures region == DefaultRegion ==> r == home
  {
    if region == DefaultRegion then home else region
  }

  /** Both proxy switches are on: only then are proxy options passed on. */
  predicate ProxyEnabled(s: CloudWatchSettings)
  {
    s.grafanaSettings.secureSocksDSProxyEnabled && s.secureSocksProxyEnabled
  }

  /** The auth settings newAWSConfig builds for an already-resolved region. */
  function AuthSettingsFor(ds: DataSource, region: string): (a: AuthSettings)
    ensures a.region == region
    ensures a.externalId == ds.settings.grafanaSettings.externalId
    ensures a.assumeRoleArn == ds.settings.assumeRoleArn && a.endpoint == ds.settings.endpoint
    ensures a.credentialsProfile == ds.settings.profile && a.legacyAuthType == ds.settings.authType
    ensures a.accessKey == ds.settings.accessKey && a.secretKey == ds.settings.secretKey
    ensures a.proxyOptions.Some? ==> ProxyEnabled(ds.settings) && a.proxyOptions == ds.proxyOpts
    ensures ProxyEnabled(ds.settings) ==> a.proxyOptions == ds.proxyOpts
  {
    var s := ds.settings;
    AuthSettings(s.profile, s.authType, s.assumeRoleArn, s.grafanaSettings.externalId, s.endpoint,
                 region, s.accessKey, s.secretKey, if ProxyEnabled(s) then ds.proxyOpts else None)
  }

  /** What newAWSConfig does for `region`: fail with ErrMissingRegion before
      consulting the provider when "default" is asked for and there is no home
      region; otherwise one provider call for the effective region. */
  function ResolveAWSConfig(ds: DataSource, region: string, getConfig: ConfigProvider): (t: Traced<Config>)
    ensures |t.calls| <= 1
    ensures t.calls == [] <==> region == DefaultRegion && ds.settings.region == ""
    ensures t.calls == [] ==> t.result == Err(ErrMissingRegion)
    ensures t.calls != [] ==>
              && t.calls[0] == AuthSettingsFor(ds, EffectiveRegion(ds.settings.region, region))
              && t.result == getConfig(t.calls[0])
  {
    if region == DefaultRegion && |ds.settings.region| == 0 then
      Traced(Err(ErrMissingRegion), [])
    else
      var auth := AuthSettingsFor(ds, EffectiveRegion(ds.settings.region, region));
      Traced(getConfig(auth), [auth])
  }

  /** newAWSConfig, step by step as the source writes it. */
  method NewAWSConfig(ds: DataSource, region: string, getConfig: ConfigProvider)
    returns (cfg: Result<Config>, calls: seq<AuthSettings>)
    ensures Traced(cfg, calls) == ResolveAWSConfig(ds, region, getConfig)
  {
    var effective := region;
    if effective == DefaultRegion {
      if |ds.settings.region| == 0 {
        return Err(ErrMissingRegion), [];
      }
      effective := ds.settings.region;
    }
    var s := ds.settings;
    var auth := AuthSettings(s.profile, s.authType, s.assumeRoleArn, s.grafanaSettings.externalId,
                             s.endpoint, effective, s.accessKey, s.secretKey, None);
    if s.grafanaSettings.secureSocksDSProxyEnabled && s.secureSocksProxyEnabled {
      auth := auth.(proxyOptions := ds.proxyOpts);
    }
    cfg := getConfig(auth);
    calls := [auth];
  }

  // ---------------------------------------------------------------------------
  // getRequestContext / getRequestContextOnlySettings
  // ---------------------------------------------------------------------------

  /** The full context: EC2 from the home-region config, OAM, metrics and logs
      from the requested-region config. */
  function FullContext(instance: DataSource, home: Config, requested: Config): RequestContext
  {
    RequestContext(
      Some(OAMAPI(requested)),
      Some(MetricsClient(requested, instance.settings.grafanaSettings.listMetricsPageLimit)),
      Some(LogsAPI(requested)),
      Some(EC2API(home)),
      instance.settings)
  }

  /** What getRequestContext does: look the instance up, resolve the home
      region's config, then the requested region's, and fail on the first error. */
  function BuildRequestContext(lookup: Result<DataSource>, region: string, getConfig: ConfigProvider)
    : (t: Traced<RequestContext>)
    ensures lookup.Err? ==> t == Traced(Err(lookup.error), [])
    ensures |t.calls| <= 2
    // the provider is not called only when there is no home region
    ensures lookup.Ok? ==> (t.calls == [] <==> lookup.value.settings.region == "")
    // the first resolution is always for the home region
    ensures t.calls != [] ==> lookup.Ok? && t.calls[0] == AuthSettingsFor(lookup.value, lookup.value.settings.region)
    // the second happens only after the first succeeded, for the requested region
    ensures |t.calls| == 2 ==>
              && getConfig(t.calls[0]).Ok?
              && t.calls[1] == AuthSettingsFor(lookup.value, EffectiveRegion(lookup.value.settings.region, region))
    // success: both resolutions succeeded and every client is built, each from its own config
    ensures t.result.Ok? ==>
              && |t.calls| == 2
              && getConfig(t.calls[1]).Ok?
              && t.result.value == FullContext(lookup.value, getConfig(t.calls[0]).value, getConfig(t.calls[1]).value)
    // failure: the error of the failing step, with no context
    ensures t.result.Err? && lookup.Ok? ==>
              if t.calls == [] then t.result.error == ErrMissingRegion
              else getConfig(t.calls[|t.calls| - 1]) == Err(t.result.error)
  {
    match lookup
    case Err(e) => Traced(Err(e), [])
    case Ok(instance) =>
      var target := EffectiveRegion(instance.settings.region, region);
      var home := ResolveAWSConfig(instance, DefaultRegion, getConfig);
      if home.result.Err? then
        Traced(Err(home.result.error), home.calls)
      else
        var requested := ResolveAWSConfig(instance, target, getConfig);
        if requested.result.Err? then
          Traced(Err(requested.result.error), home.calls + requested.calls)
        else
          Traced(Ok(FullContext(instance, home.result.value, requested.result.value)), home.calls + requested.calls)
  }

  /** getRequestContext, step by step as the source writes it. */
  method GetRequestContext(lookup: Result<DataSource>, region: string, getConfig: ConfigProvider)
    returns (rc: Result<RequestContext>, calls: seq<AuthSettings>)
    ensures Traced(rc, calls) == BuildRequestContext(lookup, region, getConfig)
  {
    if lookup.Err? {
      return Err(lookup.error), [];
    }
    var instance := lookup.value;
    var target := region;
    if target == DefaultRegion {
      target := instance.settings.region;
    }
    var cfg, first := NewAWSConfig(instance, DefaultRegion, getConfig);
    calls := first;
    if cfg.Err? {
      return Err(cfg.error), calls;
    }
    var ec2 := EC2API(cfg.value);
    var second;
    cfg, second := NewAWSConfig(instance, target, getConfig);
    calls := calls + second;
    if cfg.Err? {
      return Err(cfg.error), calls;
    }
    rc := Ok(RequestContext(
      Some(OAMAPI(cfg.value)),
      Some(MetricsClient(cfg.value, instance.settings.grafanaSettings.listMetricsPageLimit)),
      Some(LogsAPI(cfg.value)),
      Some(ec2),
      instance.settings));
  }

  /** getRequestContextOnlySettings: the region is ignored and no config is
      resolved; the context carries the instance settings and no client. */
  function RequestContextOnlySettings(lookup: Result<DataSource>, region: string): (t: Traced<RequestContext>)
    ensures t.calls == []
    ensures t.result.Ok? <==> lookup.Ok?
    ensures lookup.Err? ==> t.result.error == lookup.error
    ensures t.result.Ok? ==>
              && t.result.value.settings == lookup.value.settings
              && t.result.value.oamApi.None? && t.result.value.metricsClient.None?
              && t.result.value.logsApi.None? && t.result.value.ec2Api.None?
  {
    match lookup
    case Err(e) => Traced(Err(e), [])
    case Ok(instance) => Traced(Ok(RequestContext(None, None, None, None, instance.settings)), [])
  }

  /** The two factories as handed to the route handlers. */
  function FullFactory(lookup: Result<DataSource>, getConfig: ConfigProvider): ContextFactory
  {
    region => BuildRequestContext(lookup, region, getConfig).result
  }

  function SettingsOnlyFactory(lookup: Result<DataSource>): ContextFactory
  {
    region => RequestContextOnlySettings(lookup, region).result
  }

  /** Asking for "default" is the same as asking for the home region, outcome
      and provider calls alike. */
  lemma DefaultMeansHome(lookup: Result<DataSource>, getConfig: ConfigProvider)
    requires lookup.Ok?
    ensures BuildRequestContext(lookup, DefaultRegion, getConfig)
         == BuildRequestContext(lookup, lookup.value.settings.region, getConfig)
  {
  }

  /** The EC2 client and the first provider call do not depend on the requested region. */
  lemma HomeClientsIgnoreRequestedRegion(lookup: Result<DataSource>, r1: string, r2: string, getConfig: ConfigProvider)
    requires BuildRequestContext(lookup, r1, getConfig).result.Ok?
    requires BuildRequestContext(lookup, r2, getConfig).result.Ok?
    ensures BuildRequestContext(lookup, r1, getConfig).result.value.ec2Api
         == BuildRequestContext(lookup, r2, getConfig).result.value.ec2Api
    ensures BuildRequestContext(lookup, r1, getConfig).calls[0]
         == BuildRequestContext(lookup, r2, getConfig).calls[0]
  {
  }

  /** Only the sentinel is checked against an empty home region: an empty
      requested region reaches the provider as it is. */
  lemma EmptyRegionReachesProvider(lookup: Result<DataSource>, getConfig: ConfigProvider)
    requires lookup.Ok? && lookup.value.settings.region != ""
    requires getConfig(AuthSettingsFor(lookup.value, lookup.value.settings.region)).Ok?
    ensures BuildRequestContext(lookup, "", getConfig).calls[1].region == ""
  {
  }

  // ---------------------------------------------------------------------------
  // QueryData dispatch
  // ---------------------------------------------------------------------------

  /** The fields of a decoded query (DataQueryJson) that decide its path. */
  datatype DataQueryJson = DataQueryJson(queryMode: string, queryType: string)

  /** A query request: its headers and, per query, the outcome of decoding its JSON. */
  datatype QueryDataRequest = QueryDataRequest(headers: map<string, string>, queries: seq<Result<DataQueryJson>>)

  datatype ExecutionPath = SyncLogQuery | Annotations | LogActions | TimeSeries

  /** A header's value, "" when absent. */
  function HeaderValue(headers: map<string, string>, key: string): string
  {
    if key in headers then headers[key] else ""
  }

  /** The path a decoded query takes, given the two header flags. */
  function SelectPath(fromAlert: bool, fromExpression: bool, model: DataQueryJson): (p: ExecutionPath)
    ensures p == SyncLogQuery <==>
              model.queryMode == LogsQueryMode && (fromAlert || fromExpression || model.queryType == "")
    ensures p != SyncLogQuery ==>
              && (p == Annotations <==> model.queryType == AnnotationQuery)
              && (p == LogActions <==> model.queryType == LogAction)
              && (p == TimeSeries <==> model.queryType != AnnotationQuery && model.queryType != LogAction)
  {
    var queryMode := if model.queryMode != "" then model.queryMode else "";
    var fromPublicDashboard := model.queryType == "" && queryMode == LogsQueryMode;
    var isSyncLogQuery := ((fromAlert || fromExpression) && queryMode == LogsQueryMode) || fromPublicDashboard;
    if isSyncLogQuery then SyncLogQuery
    else if model.queryType == AnnotationQuery then Annotations
    else if model.queryType == LogAction then LogActions
    else TimeSeries
  }

  /** QueryData's routing: the first query's JSON decides the path for the
      whole request; a decoding error is returned as it is. */
  function QueryData(req: QueryDataRequest): (r: Result<ExecutionPath>)
    requires |req.queries| > 0
    ensures r.Err? <==> req.queries[0].Err?
    ensures r.Err? ==> r.error == req.queries[0].error
    ensures r.Ok? ==> r.value == SelectPath(HeaderFromAlert in req.headers,
                                            HeaderValue(req.headers, HeaderFromExpression) != "",
                                            req.queries[0].value)
  {
    match req.queries[0]
    case Err(e) => Err(e)
    case Ok(model) =>
      var fromAlert := HeaderFromAlert in req.headers;
      var fromExpression := HeaderValue(req.headers, HeaderFromExpression) != "";
      Ok(SelectPath(fromAlert, fromExpression, model))
  }

  /** An alert query in logs mode is run synchronously whatever its type. */
  lemma AlertLogsQueryIsSync(req: QueryDataRequest)
    requires |req.queries| > 0 && req.queries[0].Ok?
    requires HeaderFromAlert in req.headers && req.queries[0].value.queryMode == LogsQueryMode
    ensures QueryData(req) == Ok(SyncLogQuery)
  {
  }

  /** The FromAlert header counts when present, even with an empty value; the
      expression header counts only when its value is not empty. */
  lemma HeaderPresenceAsymmetry(model: DataQueryJson)
    requires model.queryMode == LogsQueryMode && model.queryType == TimeSeriesQuery
    ensures QueryData(QueryDataRequest(map[HeaderFromAlert := ""], [Ok(model)])) == Ok(SyncLogQuery)
    ensures QueryData(QueryDataRequest(map[HeaderFromExpression := ""], [Ok(model)])) == Ok(TimeSeries)
  {
  }

  // ---------------------------------------------------------------------------
  // CheckHealth
  // ---------------------------------------------------------------------------

  datatype HealthStatus = HealthStatusOk | HealthStatusError

  datatype CheckHealthResult = CheckHealthResult(status: HealthStatus, message: string)

  // Each success sentence is its leading word followed by the rest, which keeps
  // explicit that it begins with 'S' while both failure lines begin with 'C'.
  const MetricsOkLine := "Successfully" + " queried the CloudWatch metrics API."
  const LogsOkLine := "Successfully" + " queried the CloudWatch logs API."
  const MetricsFailedPrefix := "CloudWatch metrics query failed: "
  const LogsFailedPrefix := "CloudWatch logs query failed: "

  /** The metrics line of the health message: the success sentence exactly
      when the sub-check passed, otherwise the failure prefix and the error. */
  function MetricsLine(err: Option<Error>): (line: string)
    ensures line == MetricsOkLine <==> err.None?
    ensures err.Some? ==> line == MetricsFailedPrefix + Text(err.value)
  {
    match err
    case None => MetricsOkLine
    case Some(e) =>
      var line := MetricsFailedPrefix + Text(e);
      assert line[0] == MetricsFailedPrefix[0] == 'C' != MetricsOkLine[0];
      line
  }

  /** The logs line of the health message, likewise. */
  function LogsLine(err: Option<Error>): (line: string)
    ensures line == LogsOkLine <==> err.None?
    ensures err.Some? ==> line == LogsFailedPrefix + Text(err.value)
  {
    match err
    case None => LogsOkLine
    case Some(e) =>
      var line := LogsFailedPrefix + Text(e);
      assert line[0] == LogsFailedPrefix[0] == 'C' != LogsOkLine[0];
      line
  }

  /** CheckHealth given the outcomes of checkHealthMetrics and checkHealthLogs
      (nil error is None). It never fails: the outcome is in the result. */
  method CheckHealth(metricsErr: Option<Error>, logsErr: Option<Error>) returns (r: CheckHealthResult)
    ensures r.status == HealthStatusOk <==> metricsErr.None? && logsErr.None?
    ensures r.message == "1. " + MetricsLine(metricsErr) + "\n2. " + LogsLine(logsErr)
  {
    var status := HealthStatusOk;
    var metricsTest := MetricsOkLine;
    var logsTest := LogsOkLine;

    if metricsErr.Some? {
      status := HealthStatusError;
      metricsTest := MetricsFailedPrefix + Text(metricsErr.value);
    }

    if logsErr.Some? {
      status := HealthStatusError;
      logsTest := LogsFailedPrefix + Text(logsErr.value);
    }

    r := CheckHealthResult(status, "1. " + metricsTest + "\n2. " + logsTest);
  }

  // ---------------------------------------------------------------------------
  // isTerminated
  // ---------------------------------------------------------------------------

  /** The cloudwatchlogs query states after which a logs query will not change. */
  const TerminatedStates: seq<string> := ["Complete", "Cancelled", "Failed", "Timeout"]

  /** slices.Contains: a front-to-back scan. */
  function Contains(xs: seq<string>, x: string): (r: bool)
    ensures r <==> x in xs
  {
    if xs == [] then false else xs[0] == x || Contains(xs[1..], x)
  }

  function IsTerminated(queryStatus: string): (r: bool)
    ensures r <==> queryStatus in {"Complete", "Cancelled", "Failed", "Timeout"}
  {
    Contains(TerminatedStates, queryStatus)
  }
}
