# gorelic HTTP counter bookkeeping, in Dafny

gorelic is a New Relic plugin agent for Go programs. Once the agent has been
started (`Run`) with HTTP collection on, every response of a wrapped handler
function that returns normally updates a set of counters:

- a request total and a request-error total;
- one counter per status code from the `httpStatuses` table;
- one counter per error code from the `httpErrors` table;
- per registered path, one counter per error code.

At start-up (`Run`) the agent creates these counters. It then registers the
metrics that report them:

- the ten fixed HTTP metrics;
- one `http/all/error/<code>` metric per error counter;
- one `http/path/<path>/error/<code>` metric per per-path counter.

It also registers one metric per status counter (agent.go:187); that
registration is not part of this model (see "## Left out").

After each successful report the resettable component clears every counter.

This project models that bookkeeping functionally:

- counters are `nat` values in immutable maps;
- a nil Go counter or map is `None`;
- a nil-dereference panic is an explicit `Panicked` outcome. It keeps the increments made before the panic, because the HTTP server recovers handler panics and the counters live on.

The `httpStatuses` and `httpErrors` tables are defined in a file that is not
part of this model. They are parameters (`Tables`):

- the status table is a sequence;
- the error table is a code-to-bool map, since the code iterates its keys and tests its value.

Files:

- `common.dfy`: `Option`, an arbitrary-key picker standing for Go's unordered map walk, and two slice facts.
- `decimal.dfy`: `%d` rendering of an integer, proof that it reads back as the same integer, and so that it is injective.
- `map_sum.dfy`: the sum of a counter map.
- `counters.dfy`: the counter state, its transitions, the accounting invariants, and event traces.
- `response_capture.dfy`: the status-logging writer and the function-or-handler proxy.
- `http_metrics.dfy`: the ten fixed metrics and the error rate.
- `error_metrics.dfy`: the all-error and per-path error metrics.
- `agent.dfy`: agent defaults, custom metrics, the handler wrappers, start-up, and a worked scenario.

Three behaviours of the code that are easy to miss:

- **Registering a path does not create its per-code counters.** `registerHTTPPath` stores an empty map (agent.go:214-218). Only `initErrorCounters` fills the maps of paths registered so far (agent.go:261-265). So the first error response on a path wrapped after `Run` dereferences a missing counter and panics (agent.go:233-234). `HttpCounters.LateRegistrationPanics` states exactly that outcome.
- **`WrapHTTPHandler` never records responses.** It only switches collection on and times requests (agent.go:140-147). Only `WrapHTTPHandlerFunc` records responses.
- **The fixed metric names carry an `http/` prefix**, for example `http/throughput/1minute` (http_metrics.go:48-127).

## Model

| member | source | states |
|---|---|---|
| HttpCounters.RegisterHTTPPath | agent.go:214-218 | registering is idempotent: an already-registered path keeps its counter map; a new path gets an empty map; other paths and all other counters are untouched |
| HttpCounters.InitStatusCounters | agent.go:247-253 | afterwards the request total is 0 and there is a status counter exactly for the codes of the status table, all zero; nothing else changes |
| HttpCounters.InitErrorCounters | agent.go:256-267 | afterwards the error total is 0, there is a zero error counter exactly for each error-table key, and every registered path keeps its codes and gains a zero counter for every error code; nothing else changes |
| HttpCounters.RecordResponse | agent.go:221-237 | on created counters a response is recorded iff its code has a status counter and, for an error code, a global and (on a registered path) per-path counter; then exactly request total, status[code] and, for an error code, error total, error[code] and the path's counter rise by one. Otherwise the panic site is named, and the partial state holds exactly the increments made before it: the request total for an unknown status; also status[code] and the error total for a missing global error counter; also error[code] for a missing path counter. While the request total, status map and error total are still missing, a non-error response changes nothing and an error response panics on the missing error total, also changing nothing |
| HttpCounters.ClearSentData | agent.go:98-113 | after the reset every counter reads zero and every key set (status codes, error codes, paths, per-path codes) is unchanged |
| HttpCounters.InitEstablishesConsistent | agent.go:178-181 | the start-up sequence yields counters with the tables' key sets, error total ≤ request total, each total equal to the sum of its per-code counters, and every registered path covered |
| HttpCounters.RecordPreservesConsistent | agent.go:221-237 | a recorded response keeps the accounting invariants and path coverage |
| HttpCounters.ClearPreservesConsistent | agent.go:98-113 | a reset keeps the accounting invariants and path coverage |
| HttpCounters.CoveredNeverPanics | agent.go:226-235 | with table-shaped counters, every path covered and a known status, recording never panics |
| HttpCounters.RunPreservesConsistent | agent.go:214-237 | along any sequence of registrations, responses and resets that does not panic, the accounting invariants hold |
| HttpCounters.FromStartupConsistent | agent.go:178-181 | counters created by start-up satisfy the invariants after any non-panicking run |
| HttpCounters.OneError | agent.go:230-235 | one error response on a covered path is recorded without panicking, keeps the counters table-shaped and covered, and raises both totals and the code's status, global and path counters by one |
| HttpCounters.RepeatedErrors | agent.go:230-235 | n error responses of one code on a covered path raise both totals, the status counter, the global error counter and the path's counter by exactly n, without panicking |
| HttpCounters.LateRegistrationPanics | agent.go:214-234 | a path registered after start-up has no per-code counters: its first error response panics after bumping the request, status, error-total and global error counters |
| ResponseCapture.NewStatusWriter | agent.go:133 | the writer given to each request starts with status 200 and nothing forwarded; `CapturedStatus` shows what a handler's calls then make of it |
| ResponseCapture.WriteHeader | agent.go:120-123 | one call sets the reported status to its code and forwards that code after the earlier ones, which stay as they were; `PerformEffect` extends this to a series of calls |
| ResponseCapture.PerformEffect | agent.go:120-123 | after a series of `WriteHeader` calls the writer reports the last code, or its prior status if there were none, and every code reaches the inner writer unchanged and in order |
| ResponseCapture.CapturedStatus | agent.go:120-134 | the status recorded for a handler is 200 unless it calls `WriteHeader`, otherwise the last code it wrote; the inner writer sees exactly the handler's calls |
| ResponseCapture.NewHTTPHandlerFunc | http_metrics.go:21-26 | the proxy is marked as a function proxy and holds the function |
| ResponseCapture.NewHTTPHandler | http_metrics.go:27-32 | the proxy is marked as a handler proxy and holds the handler |
| ResponseCapture.ServeHTTP | http_metrics.go:34-43 | the function is invoked iff the proxy is a function proxy (and the handler iff not); the writer afterwards is the invoked original's effect |
| ResponseCapture.DispatchMatchesConstructor | http_metrics.go:21-43 | a proxy built from a function calls that function, and one built from a handler calls that handler |
| HttpMetrics.ErrorRate | http_metrics.go:145-150 | the rate is 0 with no requests (no division), and otherwise the number that multiplied by the request count gives the error count |
| HttpMetrics.ErrorRateInUnitInterval | http_metrics.go:145-150 | when errors do not outnumber requests, the rate lies in [0, 1] |
| HttpMetrics.AddHTTPMetrics | http_metrics.go:45-130 | exactly ten metrics are appended after the untouched existing ones, in this order: `http/throughput/1minute` (rps, the timer's one-minute rate), `http/throughput/rateMean` (rps, the timer's mean rate), `http/responseTime/mean`, `/max`, `/min`, `/percentile75`, `/percentile90`, `/percentile95` (ms, the matching timer reading), `http/requests` (count, the request counter) and `http/errorRate` (value, both counters); all ten names are distinct |
| HttpMetrics.Evaluate | http_metrics.go:145-150 | a metric's value for given counters: none for timer-backed and custom metrics; for a counter-backed metric, a value exactly when its counter (both counters, for the error rate) exists; never negative. `FixedMetricsRead`, `ErrorRateMetricValue` and the two `ReadsItsCounter` lemmas pin the values |
| HttpMetrics.FixedMetricsRead | http_metrics.go:118-150 | for created counters, the eight timer metrics have no counter value, `http/requests` reads the request total, and `http/errorRate` reads the ratio of error total to request total |
| HttpMetrics.ErrorRateMetricValue | http_metrics.go:124-150 | under the accounting invariants the registered error-rate metric always has a value, in [0, 1], equal to errors ÷ requests when there are requests |
| Decimal.IntToDecimal | http_error_metrics.go:15 | `%d` rendering is non-empty, starts with '-' exactly for negative numbers, is otherwise all digits, has no leading zero except for 0 itself, and never contains a slash |
| Decimal.NatToDecimalValue | http_error_metrics.go:15 | the digits of a natural number's rendering, read back in base ten, give that number |
| Decimal.IntToDecimalValue | http_error_metrics.go:15 | reading a rendering back as a signed decimal gives the integer it was rendered from |
| Decimal.IntToDecimalInjective | http_error_metrics.go:15 | two integers render the same iff they are equal, because each rendering reads back as its integer |
| ErrorMetrics.AllErrorName | http_error_metrics.go:15 | the name is "http/all/error/" followed by a slash-free code part |
| ErrorMetrics.PathErrorName | http_error_metrics.go:27 | the name is "http/path/", the path verbatim, "/error/", then a slash-free code part |
| ErrorMetrics.ErrorNameCodesReadBack | http_error_metrics.go:15-27 | the code part of an all-error or per-path name, read as a signed decimal, is the code the name was made from |
| ErrorMetrics.AllErrorNamesInjective | http_error_metrics.go:15 | two all-error names are equal iff their codes are |
| ErrorMetrics.PathErrorNamesInjective | http_error_metrics.go:27 | two per-path names are equal iff their paths and codes are, even for paths containing "/error/" |
| ErrorMetrics.ErrorNamesAvoidFixedNames | http_error_metrics.go:11-31 | no all-error or per-path error metric name equals the name of any of the ten fixed HTTP metrics |
| ErrorMetrics.AllErrorMetricReadsItsCounter | http_error_metrics.go:13-16 | an all-error metric is a count whose value is the global error counter of its own code |
| ErrorMetrics.PathErrorMetricReadsItsCounter | http_error_metrics.go:25-28 | a per-path metric is a count whose value is that path's error counter of its own code |
| ErrorMetrics.ErrorMetricsFollowRecord | http_error_metrics.go:11-31 | across a recorded response, the error metrics of the response's code (global, and for its path) rise by one when it is an error, and every other error metric stays put |
| ErrorMetrics.CollectErrorMetrics | http_error_metrics.go:12-18 | the map walk yields one metric per error counter, each named after and bound to its own code, every counter covered, names distinct, in whatever order the map is walked |
| ErrorMetrics.AddHTTPErrorMetrics | http_error_metrics.go:11-19 | the component's list keeps its entries and gains exactly one all-error metric per error counter |
| ErrorMetrics.CollectPathMetrics | http_error_metrics.go:24-30 | the inner walk yields one metric per counter of the path, each bound to that path and its own code |
| ErrorMetrics.CollectPathErrorMetrics | http_error_metrics.go:23-31 | the nested walk yields one metric per (path, code) pair, its count the sum of the per-path map sizes, each bound to its own pair, names distinct |
| ErrorMetrics.AddHTTPPathErrorMetrics | http_error_metrics.go:22-32 | the component's list keeps its entries and gains exactly one per-path metric per (path, code) counter |
| Agent.NewAgent | agent.go:69-85 | a new agent has the default name, poll intervals, GUID and version, GC and memory collection on, HTTP collection and verbosity off, no licence, no counters, no paths and no custom metrics |
| Agent.AddCustomMetric | agent.go:150-152 | the list grows by one, the earlier entries are unchanged, the new metric is last, and nothing else in the agent changes |
| Agent.WrapHTTPHandlerFunc | agent.go:126-129 | wrapping registers the path and switches HTTP collection on, nothing else |
| Agent.ServeWrapped | agent.go:130-136 | one request through the wrapper forwards the handler's writes unchanged and records the response with 200 or the last code the handler set, with the panic if recording panicked |
| Agent.WrappedBeforeRunServes | agent.go:126-136 | on an agent never started, a wrapped handler that sets no status serves without panic and without counting, provided 200 is not an error code |
| Agent.WrapHTTPHandler | agent.go:140-147 | wrapping a handler object switches HTTP collection on, changes nothing else, and the returned proxy calls that handler on every request |
| Agent.HTTPComponentMetrics | agent.go:183-191 | the HTTP part of the component is the ten fixed metrics, then one metric per global error counter, then one per per-path error counter |
| Agent.StartHTTP | agent.go:178-198 | starting HTTP collection leaves the counters exactly as the two pre-allocations make them (zeroed totals, status and error counters; each registered path gains a zeroed counter per error code and keeps its other codes), satisfying the invariants with every registered path covered, keeps the paths, and registers the HTTP metrics followed by the custom metrics in the order added |
| Agent.CustomsAfterHTTP | agent.go:183-198 | appending the custom metrics after the HTTP part leaves the fixed metrics, the all-error metrics and the per-path metrics where they were, and puts the custom metrics, in order, right after them |
| Agent.Run | agent.go:155-198 | without a licence it fails with "please, pass a valid newrelic license key" and registers nothing; otherwise only the custom metrics when HTTP collection is off, and when it is on the HTTP start-up of `StartHTTP`: counters exactly as the two pre-allocations make them, the HTTP metrics, then the custom metrics |
| Agent.LoginStartup | agent.go:247-267 | registering "/login" and starting creates zero counters for statuses 200, 404 and 500, errors 404 and 500, and "/login"'s two error codes |
| Agent.LoginScenario | agent.go:221-237 | three 200s, one 404 and one 500 on "/login" give 5 requests, 2 errors, the per-status, per-error and per-path counts, and an error rate of 0.4 |

## Left out

- Timers and every timer-backed value (rates, mean/min/max, percentiles, `UpdateSince`). They come from the go-metrics library, are floating point and depend on the clock. Only their names, units and binding to the timer are kept. `initTimer` has no other effect in the model.
- The `time.Now` latency measurement in `ServeHTTP`: clock I/O. Only the dispatch is modelled.
- Plugin construction, `AddComponent`, the background `plugin.Run` goroutine and the harvest gating: external newrelic_platform_go code and network I/O. A harvest is an explicit `Harvest` event that calls `ClearSentData`.
- The inner `IComponent.ClearSentData` call of the resettable component: it belongs to the plugin library.
- Runtime, GC and memory metric registration, and the `Tracer`: they are defined in files that are not part of this model.
- `addHTTPStatusMetricsToComponent` (agent.go:187): it is defined in a file that is not part of this model.
- Agent.HTTPComponentMetrics: the per-status metrics that agent.go:187 adds between the fixed metrics and the error metrics are not in the result, because their registration is not part of this model. The sections it describes are the modelled metrics, in their relative order.
- Agent.StartHTTP: for the same reason, `registered` omits the per-status metrics of agent.go:187, and its positions are relative to the modelled metrics only.
- Counter width: go-metrics counters are signed 64-bit integers, but they are modelled as unbounded `nat`. Wrap-around after 2^63 - 1 increments is not modelled.
- `counterByStatusMetrica`: not part of this model. A metric is bound to its counter by key, and `Evaluate` reads that counter.
- Agent.Run: `registered` lists only the modelled metrics. The runtime, GC, memory and status metrics the code registers are not in it, so positions in it are relative to the modelled metrics only.
- Concurrency: the atomicity of counter updates, and the unsynchronised map writes in `registerHTTPPath`. The model is sequential.
- `http.Client`, `debug` logging, and the literal contents of `httpStatuses` and `httpErrors`: plumbing, or tables that are not part of this model. The tables are parameters.
- HttpMetrics.ErrorRate: computed over the reals, not `float64`, so the rounding of the division is not modelled.
- A handler is abstracted to its sequence of `WriteHeader` calls. Body writes and request contents do not reach the counters.
- A handler that panics is not modelled: the panic leaves the proxy's `ServeHTTP` (agent.go:134) after its deferred timer update (http_metrics.go:36), so `recordResponse` (agent.go:135) is never reached and the request is timed but not counted. Every modelled handler returns normally.
- Agent.WrapHTTPHandler: the proxy's timer binding is not modelled, since timers are left out.
- A nil timer in the proxy (a proxy never given a timer) is not modelled, since timers are left out.
