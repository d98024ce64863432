# CloudWatch data source: request context and resource routing

A Dafny model of the routing and decision logic of the Grafana CloudWatch
data source backend (package `pkg/cloudwatch` and its `routes` package):

- **AWS config resolution** (`newAWSConfig`). The sentinel region `"default"`
  stands for the instance's home region. A missing home region fails with
  `ErrMissingRegion` before the config provider is consulted. Proxy options
  are attached only when both secure-socks switches are on.
- **Request contexts** (`getRequestContext`, `getRequestContextOnlySettings`).
  The full context resolves the home-region config first and builds the EC2
  client from it. It then resolves the requested region's config and builds
  the OAM, metrics and logs clients from that one. It fails on the first
  error. The settings-only context ignores its region and resolves nothing.
- **Query dispatch** (`QueryData`). The synchronous-logs predicate over the
  `FromAlert` and `X-Grafana-From-Expr` headers, the query mode and the type
  comes first. Otherwise the query type decides, with time series as the
  default.
- **Health check** (`CheckHealth`). The status is OK only when both sub-checks
  pass. The message has two numbered lines.
- **The resource surface** (`resource_handler.go`). Thirteen routes are
  registered on a `ServeMux`. The simple adapter drives a `ResponseWriter`:
  400 with `"unexpected error <err>"` on any failure, 200 with the encoded
  suggestions on success.
- **Three middleware handlers** (`AccountsHandler`, `DimensionValuesHandler`,
  `ExternalIdHandler`). Each classifies every failure as 400, 403 or 500 and
  returns an `HttpError` (message, status code, cause).

Foreign calls are parameters of the model. This covers the AWS config
provider, the instance lookup, the service calls, JSON encoding and form
parsing. Each is a function from its input to a success value or an error, or
a given outcome. Every call made to the config provider is returned as a
trace of the auth settings it was given. Every region for which a handler
requests a context is returned as a list. Properties such as "the factory is
never called" and "the home region is resolved first" are stated on those
traces.

Files: `errors.dfy` (Option, Result, Go error values, `errors.Is`),
`models.dfy` (settings, clients, request context, `HttpError`, `url.Values`),
`cloudwatch.dfy`, `resource_handler.dfy`, `accounts.dfy`,
`dimension_values.dfy`, `external_id.dfy`.

Three behaviours of the code are worth noting:

- The OAM (account-discovery) client is built from the *requested* region's
  config, not the home region's (cloudwatch.go:137-146). Only the EC2 client
  uses the home-region config.
- `ExternalIdHandler` answers 500 on an encoding failure as well as on a
  factory failure (external_id.go:26-29).
- `getRequestContextOnlySettings` takes a region and ignores it
  (cloudwatch.go:153).

## Model

| member | source | states |
|---|---|---|
| `CloudWatch.EffectiveRegion` | pkg/cloudwatch/cloudwatch.go:59-64 | `"default"` is replaced by the home region; any other region passes through unchanged |
| `CloudWatch.AuthSettingsFor` | pkg/cloudwatch/cloudwatch.go:65-77 | the auth settings carry the given region and the instance's profile, auth type, role, external ID, endpoint, access key and secret key; proxy options are set only when both secure-socks switches are on, and then they are the instance's |
| `CloudWatch.ResolveAWSConfig` | pkg/cloudwatch/cloudwatch.go:58-83 | at most one provider call; no call exactly when `"default"` is asked for with an empty home region, and then the result is `ErrMissingRegion`; otherwise one call with the auth settings for the effective region, whose outcome is returned as it is |
| `CloudWatch.NewAWSConfig` | pkg/cloudwatch/cloudwatch.go:58-83 | the step-by-step method (region reassigned, proxy options set conditionally) returns exactly the result and provider calls of `ResolveAWSConfig` |
| `CloudWatch.BuildRequestContext` | pkg/cloudwatch/cloudwatch.go:121-150 | a failed lookup gives its error and no provider call; with a successful lookup the provider is called exactly when the home region is set, so an empty home region is the only cause of `ErrMissingRegion`; the first call is always for the home region; a second call happens only after the first succeeded and is for the requested region (`"default"` replaced); on success EC2 is built from the first config and OAM, metrics and logs from the second; on failure the error is that of the failing step and no context is returned |
| `CloudWatch.GetRequestContext` | pkg/cloudwatch/cloudwatch.go:121-150 | the step-by-step method (two sequential resolutions, early returns) returns exactly the result and provider calls of `BuildRequestContext` |
| `CloudWatch.RequestContextOnlySettings` | pkg/cloudwatch/cloudwatch.go:152-167 | no provider call for any region; succeeds exactly when the lookup does, with the instance settings unchanged and all four clients absent; a lookup error is passed on |
| `CloudWatch.DefaultMeansHome` | pkg/cloudwatch/cloudwatch.go:127-140 | asking for `"default"` gives the same context and the same provider calls as asking for the home region |
| `CloudWatch.HomeClientsIgnoreRequestedRegion` | pkg/cloudwatch/cloudwatch.go:131-135 | the EC2 client and the first provider call are the same whatever region is requested |
| `CloudWatch.EmptyRegionReachesProvider` | pkg/cloudwatch/cloudwatch.go:127-137 | an empty requested region is not rejected: it reaches the provider as `""` |
| `CloudWatch.SelectPath` | pkg/cloudwatch/cloudwatch.go:188-208 | sync-log path exactly when the mode is `Logs` and (alert or expression header, or empty type); otherwise annotations exactly for `annotationQuery`, log actions exactly for `logAction`, time series for every other type |
| `CloudWatch.QueryData` | pkg/cloudwatch/cloudwatch.go:174-211 | a decoding error of the first query is returned as it is; otherwise the path is `SelectPath` of the first query, with `FromAlert` counted when present and `X-Grafana-From-Expr` when non-empty |
| `CloudWatch.AlertLogsQueryIsSync` | pkg/cloudwatch/cloudwatch.go:183-196 | an alert query in `Logs` mode takes the sync-log path whatever its type |
| `CloudWatch.HeaderPresenceAsymmetry` | pkg/cloudwatch/cloudwatch.go:183-184 | an empty `FromAlert` header still makes a logs query synchronous; an empty `X-Grafana-From-Expr` header does not |
| `CloudWatch.MetricsLine` | pkg/cloudwatch/cloudwatch.go:216-223 | the metrics line is the success sentence exactly when the metrics check passed, otherwise the failure prefix followed by the error text |
| `CloudWatch.LogsLine` | pkg/cloudwatch/cloudwatch.go:217-229 | the logs line is the success sentence exactly when the logs check passed, otherwise the failure prefix followed by the error text |
| `CloudWatch.CheckHealth` | pkg/cloudwatch/cloudwatch.go:213-235 | status OK exactly when both sub-checks returned no error; the message is `"1. <metrics line>\n2. <logs line>"`; no error is returned |
| `CloudWatch.Contains` | pkg/cloudwatch/cloudwatch.go:333-335 | the linear scan of `slices.Contains` finds the value exactly when it is in the list |
| `CloudWatch.IsTerminated` | pkg/cloudwatch/cloudwatch.go:326-335 | terminated exactly for `Complete`, `Cancelled`, `Failed` and `Timeout` |
| `ResourceHandler.RouteTable` | pkg/cloudwatch/resource_handler.go:14-32 | thirteen paths; exactly the four legacy paths use the simple adapter; among middleware routes exactly `/external-id` gets the settings-only factory |
| `ResourceHandler.NewResourceMux` | pkg/cloudwatch/resource_handler.go:14-32 | thirteen successive registrations on a fresh mux, none a duplicate, leave exactly `RouteTable()` |
| `ResourceHandler.ExternalIdRouteUsesSettingsOnly` | pkg/cloudwatch/resource_handler.go:26 | served through its route, `/external-id` makes no provider call and answers the instance's external ID, whatever the provider would do |
| `ResourceHandler.ServeMux.HandleFunc` | pkg/cloudwatch/resource_handler.go:16-29 | registering a new pattern adds exactly that pattern and its route to the table and changes nothing else |
| `ResourceHandler.ResponseWriter.WriteHeader` | pkg/cloudwatch/resource_handler.go:63-64 | the first header write fixes the status; later calls are counted but change neither status nor body |
| `ResourceHandler.ResponseWriter.Write` | pkg/cloudwatch/resource_handler.go:63-65 | a first Write sends an implicit 200; the data is appended to the body unless the connection is gone, in which case the body is unchanged and the connection's error is returned |
| `ResourceHandler.WriteResponse` | pkg/cloudwatch/resource_handler.go:63-69 | one header write with the code, then the message; a write error leaves the status unchanged and is only logged |
| `ResourceHandler.SimpleResponse` | pkg/cloudwatch/resource_handler.go:36-61 | status is 200 or 400; 200 exactly when parsing, the handler and encoding all succeed, and then the body is the encoded list; each failure gives 400 with `"unexpected error "` and the text of the first failing step's error |
| `ResourceHandler.HandleResourceReq` | pkg/cloudwatch/resource_handler.go:36-61 | exactly one header write per request, which commits `SimpleResponse`'s status so that no later write changes it; the body is `SimpleResponse`'s unless the write failed; the handler runs once, and only when the form parsed |
| `Models.Get` | pkg/cloudwatch/routes/accounts.go:16 | `url.Values.Get`: a non-empty answer is the key's first value; when the key has a value the answer is the first one, otherwise `""` |
| `Accounts.NewAccountsService` | pkg/cloudwatch/routes/accounts.go:48-55 | one factory call for the region; succeeds exactly when the factory does, over the context's OAM client; a factory error is passed on |
| `Accounts.AccountsHandler` | pkg/cloudwatch/routes/accounts.go:15-43 | an empty `region` gives 400 with cause `"region is required"` and no factory call; otherwise exactly one call with that region; 403 exactly when listing fails with an error that `errors.Is` access-denied; a factory error is 500 with the handler message and the factory's error; any other listing error is 500 with the listing message and the listing error; an encoding error is 500 with the handler message and the encoder's error; no failure carries 200; success exactly when every step succeeds, with the encoded list as body |
| `Accounts.WrappedAccessDeniedIsForbidden` | pkg/cloudwatch/routes/accounts.go:26-31 | an access-denied sentinel wrapped any number of times still gives 403 |
| `DimensionValues.DimensionValuesHandler` | pkg/cloudwatch/routes/dimension_values.go:14-36 | a parse failure is 400 with no service built; otherwise the service is built once, for the parsed region; every later failure (service construction, lookup, encoding) is 500 with the handler message and that step's error as cause, and no path gives 403; success exactly when every step succeeds, with the encoded values as body |
| `ExternalId.ExternalIdHandler` | pkg/cloudwatch/routes/external_id.go:17-32 | the factory is called once, with region `""`; status is 200 or 500; a factory error gives 500 with `"error in ExternalIdHandler"`; otherwise the body encodes `{externalId: <settings external ID>}`, and an encoding error gives 500 |
| `ExternalId.DependsOnlyOnSettings` | pkg/cloudwatch/routes/external_id.go:17-31 | the answer is the same for any query parameters and any clients in the context, given the same settings |
| `Errors.Root` | pkg/cloudwatch/routes/accounts.go:30 | unwrapping a chain always ends at an error that is not a wrap |
| `Errors.IsIffRoot` | pkg/cloudwatch/routes/accounts.go:30 | `errors.Is` against a sentinel holds exactly when the innermost error of the wrap chain is that sentinel |
| `Errors.WrapAllPreservesIs` | pkg/cloudwatch/routes/accounts.go:30 | wrapping any number of times neither creates nor hides a sentinel match |

## Left out

- AWS SDK and `awsauth`: `AWSConfigProvider.GetConfig` is a function parameter from auth settings to a config or an error. The client constructors (`NewEC2API`, `NewCWClient`, `NewOAMAPI`, `NewLogsAPI`, `clients.NewMetricsClient`) cannot fail and become constructors that record the config they were built from. `NewCWLogsClient` and `NewRGTAClient` are used only by the thin wrappers below.
- The instance manager (`getInstance`, `ds.im.Get`): the lookup is a given outcome, an instance or an error.
- `getAWSConfig`, `getCWClient`, `getCWLogsClient`, `getEC2Client` and `getRGTAClient`: each is a one-line wrapper over the lookup and `newAWSConfig`.
- The zero `RequestContext` that Go returns beside an error is represented by the error case of a result, which carries no context.
- The text of `models.ErrMissingRegion` is not part of this model. A stand-in is used, and only the sentinel's identity matters.
- `NewDatasource`, the tag value cache, `instrumentContext`, the logger and `CallResource`: construction, time-based caching and logging only.
- `checkHealthMetrics` and `checkHealthLogs`: `CheckHealth` receives their outcomes as given. They are compositions of the lookup, `newAWSConfig` and a network call.
- The executors behind the dispatch (`executeSyncLogQuery`, `executeAnnotationQuery`, `executeLogActions`, `executeTimeSeriesQuery`): the model stops at the chosen path.
- JSON decoding of a query's model is a given outcome per query.
- `GetHTTPHeader` (plugin SDK) is modelled as a plain lookup in the header map. Its key handling is not modelled.
- CloudWatch.QueryData: requires a non-empty query list, because the source indexes `req.Queries[0]` and would panic on an empty one.
- `net/http` and `encoding/json`. A response is a status and a body. Bytes are modelled as strings. `ParseForm`, `json.Marshal` and `resources.GetDimensionValuesRequest` are given outcomes or function parameters.
- ResourceHandler.HandleResourceReq: requires a writer on which nothing has been written yet, as `net/http` gives each request.
- The `ServeMux` is modelled as a pattern table. Path matching and serving are not part of this model. HandleFunc's requirement that a pattern be new stands for `net/http`'s panic on a duplicate registration.
- `routes.ResourceRequestMiddleware` is not part of this model. The route table records only which handler and which factory each route gets.
- The other route handlers (log groups, metrics, dimension keys, namespaces, log group fields, regions) and the four simple handlers are not part of this model. They appear only as route-table entries or as function parameters.
- `newListMetricsService` is not part of this model. It is a function parameter called with the parsed region. The account and list-metrics services themselves are function parameters.
- `errors.Is` is modelled for chains of single `%w` wraps. Joined errors and custom `Is` methods are not modelled.
- Errors.Is: a stand-in for the library's `errors.Is` (used at accounts.go:30) with no contract of its own; what it means is stated by `Errors.IsIffRoot` and `Errors.WrapAllPreservesIs`.
- CloudWatch.HeaderValue: a stand-in for the plugin SDK's `GetHTTPHeader` (used at cloudwatch.go:184), a plain map lookup with `""` for a missing key.
- Models.Status: a stand-in for the status that `routes.ResourceRequestMiddleware` writes for a reply (200 for a body, the error's code otherwise); that adapter is not part of this model.
- Errors.Text: a stand-in for Go's `err.Error()`, with no contract of its own; a `%w` wrap's text is its prefix followed by its cause's text.
- CloudWatch.FullFactory: a stand-in for the method value `ds.getRequestContext` handed to the routes (resource_handler.go:19-25, 27); it is `BuildRequestContext` with the provider-call trace dropped, since a handler sees only the result.
- CloudWatch.SettingsOnlyFactory: a stand-in for the method value `ds.getRequestContextOnlySettings` handed to `/external-id` (resource_handler.go:26); it is `RequestContextOnlySettings` with the (empty) trace dropped.
- ResourceHandler.FactoryFor: the choice between those two method values that each registration makes (resource_handler.go:19-27); which route gets which is stated by `ResourceHandler.RouteTable`.
- Concurrency and request cancellation.
