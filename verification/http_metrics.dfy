/** The metrics the HTTP instrumentation reports (http_metrics.go): the ten
    fixed metrics over the shared timer and counters, the error-rate metric,
    and what each one reads. */
module HttpMetrics {
  import opened Common
  import opened HttpCounters

  /** The derived reads of the shared request timer. */
  datatype TimerRead =
    | Rate1Minute | RateMean | MeanTime | MaxTime | MinTime
    | Percentile75 | Percentile90 | Percentile95

  /** What a metric's value is computed from. */
  datatype Source =
    | TimerBacked(read: TimerRead)
    | RequestTotal                           // the request counter
    | ErrorRateOf                            // request and error counters together
    | AllErrorCounter(code: int)             // the global error counter for a code
    | PathErrorCounter(path: string, code: int) // a path's error counter for a code
    | Custom                                 // a probe supplied by the host program

  /** One entry of a component's metric list: reporting name, units, source. */
  datatype Metric = Metric(name: string, units: string, source: Source)

  /** The error-rate value: the share of requests that were errors, and 0
      (never a division error) while there are no requests. Computed over
      the reals. */
  function ErrorRate(requests: nat, errors: nat): (r: real)
    ensures requests == 0 ==> r == 0.0
    ensures requests > 0 ==> r * (requests as real) == errors as real
    ensures 0.0 <= r
  {
    if requests == 0 then 0.0 else (errors as real) / (requests as real)
  }

  /** While errors never outnumber requests, the rate lies in [0, 1]. */
  lemma ErrorRateInUnitInterval(requests: nat, errors: nat)
    requires errors <= requests
    ensures 0.0 <= ErrorRate(requests, errors) <= 1.0
  {
    if requests > 0 {
      var r := ErrorRate(requests, errors);
      assert r * (requests as real) == errors as real;
    }
  }

  /** The timer-backed metrics, in registration order. */
  const TimerMetrics: seq<Metric> := [
    Metric("http/throughput/1minute", "rps", TimerBacked(Rate1Minute)),
    Metric("http/throughput/rateMean", "rps", TimerBacked(RateMean)),
    Metric("http/responseTime/mean", "ms", TimerBacked(MeanTime)),
    Metric("http/responseTime/max", "ms", TimerBacked(MaxTime)),
    Metric("http/responseTime/min", "ms", TimerBacked(MinTime)),
    Metric("http/responseTime/percentile75", "ms", TimerBacked(Percentile75)),
    Metric("http/responseTime/percentile90", "ms", TimerBacked(Percentile90)),
    Metric("http/responseTime/percentile95", "ms", TimerBacked(Percentile95))
  ]

  /** The request-count metric, bound to the request counter. */
  const RequestsMetric: Metric := Metric("http/requests", "count", RequestTotal)

  /** The error-rate metric, bound to the request and error counters. */
  const ErrorRateMetric: Metric := Metric("http/errorRate", "value", ErrorRateOf)

  /** Registration of the fixed HTTP metrics, appended to a component's list
      in this order: two throughput rates (rps) and six response times (ms)
      read off the shared timer, the request count and the error rate. */
  function AddHTTPMetrics(component: seq<Metric>): (r: seq<Metric>)
    ensures |r| == |component| + 10
    ensures r[..|component|] == component
    ensures r[|component|] == Metric("http/throughput/1minute", "rps", TimerBacked(Rate1Minute))
    ensures r[|component| + 1] == Metric("http/throughput/rateMean", "rps", TimerBacked(RateMean))
    ensures r[|component| + 2] == Metric("http/responseTime/mean", "ms", TimerBacked(MeanTime))
    ensures r[|component| + 3] == Metric("http/responseTime/max", "ms", TimerBacked(MaxTime))
    ensures r[|component| + 4] == Metric("http/responseTime/min", "ms", TimerBacked(MinTime))
    ensures r[|component| + 5] == Metric("http/responseTime/percentile75", "ms", TimerBacked(Percentile75))
    ensures r[|component| + 6] == Metric("http/responseTime/percentile90", "ms", TimerBacked(Percentile90))
    ensures r[|component| + 7] == Metric("http/responseTime/percentile95", "ms", TimerBacked(Percentile95))
    ensures r[|component| + 8] == RequestsMetric
    ensures r[|component| + 9] == ErrorRateMetric
    ensures forall i, j | |component| <= i < j < |r| :: r[i].name != r[j].name
  {
    component + TimerMetrics + [RequestsMetric, ErrorRateMetric]
  }

  /** Every fixed metric name continues "http/" with 't', 'r' or 'e'. */
  lemma FixedNamesSixthChar(component: seq<Metric>)
    ensures forall i | |component| <= i < |component| + 10 ::
              |AddHTTPMetrics(component)[i].name| > 5 &&
              AddHTTPMetrics(component)[i].name[5] in {'t', 'r', 'e'}
  {
    var r := AddHTTPMetrics(component);
    forall i | |component| <= i < |component| + 10
      ensures |r[i].name| > 5 && r[i].name[5] in {'t', 'r', 'e'}
    {
      assert r[i] == (TimerMetrics + [RequestsMetric, ErrorRateMetric])[i - |component|];
    }
  }

  /** The value a metric reports for the given counters, when the counters
      determine it: `None` for timer-backed and custom metrics (their values
      are outside this model) and for a metric whose counter does not exist. */
  function Evaluate(m: Metric, s: Counters): (v: Option<real>)
    ensures m.source.TimerBacked? || m.source.Custom? ==> v.None?
    ensures m.source.RequestTotal? ==> (v.Some? <==> s.requests.Some?)
    ensures m.source.ErrorRateOf? ==> (v.Some? <==> s.requests.Some? && s.requestErrors.Some?)
    ensures m.source.AllErrorCounter? ==>
              (v.Some? <==> s.errors.Some? && m.source.code in s.errors.value)
    ensures m.source.PathErrorCounter? ==>
              (v.Some? <==> m.source.path in s.pathErrors && m.source.code in s.pathErrors[m.source.path])
    ensures v.Some? ==> 0.0 <= v.value
  {
    match m.source
    case TimerBacked(_) => None
    case Custom => None
    case RequestTotal =>
      if s.requests.Some? then Some(s.requests.value as real) else None
    case ErrorRateOf =>
      if s.requests.Some? && s.requestErrors.Some? then
        Some(ErrorRate(s.requests.value, s.requestErrors.value))
      else None
    case AllErrorCounter(code) =>
      if s.errors.Some? && code in s.errors.value then Some(s.errors.value[code] as real)
      else None
    case PathErrorCounter(path, code) =>
      if path in s.pathErrors && code in s.pathErrors[path] then
        Some(s.pathErrors[path][code] as real)
      else None
  }

  /** What the fixed metrics report for given counters: the timer-backed
      ones have no counter value, the request metric reads the request total
      and the error-rate metric reads the ratio of the two totals. */
  lemma FixedMetricsRead(component: seq<Metric>, s: Counters)
    requires s.requests.Some? && s.requestErrors.Some?
    ensures var r := AddHTTPMetrics(component);
            && (forall i | |component| <= i < |component| + 8 :: Evaluate(r[i], s) == None)
            && Evaluate(r[|component| + 8], s) == Some(s.requests.value as real)
            && Evaluate(r[|component| + 9], s) == Some(ErrorRate(s.requests.value, s.requestErrors.value))
  {
    var r := AddHTTPMetrics(component);
    forall i | |component| <= i < |component| + 8
      ensures Evaluate(r[i], s) == None
    {
      assert r[i] == TimerMetrics[i - |component|];
    }
  }

  /** Under the accounting invariants, the error-rate metric always has a
      value, it lies in [0, 1], and it is the ratio of the error total to
      the request total. */
  lemma ErrorRateMetricValue(t: Tables, s: Counters)
    requires Consistent(t, s)
    ensures Evaluate(ErrorRateMetric, s).Some?
    ensures 0.0 <= Evaluate(ErrorRateMetric, s).value <= 1.0
    ensures s.requests.value > 0 ==>
              Evaluate(ErrorRateMetric, s).value * (s.requests.value as real) ==
              s.requestErrors.value as real
  {
    ErrorRateInUnitInterval(s.requests.value, s.requestErrors.value);
  }
}
