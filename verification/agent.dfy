/** The agent itself (agent.go): its defaults, custom-metric registration,
    the start-up step that checks the licence and builds the HTTP part of the
    reporting component, and the two ways of wrapping an HTTP handler. */
module Agent {
  import opened Common
  import opened HttpCounters
  import opened ResponseCapture
  import opened HttpMetrics
  import opened ErrorMetrics

  const DefaultNewRelicPollInterval: int := 60
  const DefaultGcPollIntervalInSeconds: int := 10
  const DefaultMemoryAllocatorPollIntervalInSeconds: int := 60
  const DefaultAgentGuid: string := "com.github.earlonrails.GoRelic"
  const CurrentAgentVersion: string := "0.0.1"
  const DefaultAgentName: string := "Go daemon"

  /** The error `Run` returns when no licence key is set. */
  const LicenseError: string := "please, pass a valid newrelic license key"

  /** The agent's settings, its HTTP counters and its custom metrics. */
  datatype Agent = Agent(
    newrelicName: string,
    newrelicLicense: string,
    newrelicPollInterval: int,
    verbose: bool,
    collectGcStat: bool,
    collectMemoryStat: bool,
    collectHTTPStat: bool,
    gcPollInterval: int,
    memoryAllocatorPollInterval: int,
    agentGuid: string,
    agentVersion: string,
    http: Counters,
    customMetrics: seq<Metric>)

  /** A new agent: default name, intervals, identifiers and flags, no licence,
      no counters, no registered path and no custom metric. */
  function NewAgent(): (a: Agent)
    ensures a.newrelicName == "Go daemon" && a.newrelicLicense == ""
    ensures a.newrelicPollInterval == 60
    ensures a.gcPollInterval == 10 && a.memoryAllocatorPollInterval == 60
    ensures a.agentGuid == "com.github.earlonrails.GoRelic" && a.agentVersion == "0.0.1"
    ensures !a.verbose && a.collectGcStat && a.collectMemoryStat && !a.collectHTTPStat
    ensures a.http == Fresh() && a.customMetrics == []
  {
    Agent(DefaultAgentName, "", DefaultNewRelicPollInterval, false, true, true, false,
          DefaultGcPollIntervalInSeconds, DefaultMemoryAllocatorPollIntervalInSeconds,
          DefaultAgentGuid, CurrentAgentVersion, Fresh(), [])
  }

  /** Adds a metric to be reported with the others: it goes to the end of the
      list, the earlier ones stay as they were, and nothing else changes. */
  function AddCustomMetric(a: Agent, m: Metric): (r: Agent)
    ensures |r.customMetrics| == |a.customMetrics| + 1
    ensures r.customMetrics[..|a.customMetrics|] == a.customMetrics
    ensures r.customMetrics[|a.customMetrics|] == m
    ensures r.(customMetrics := a.customMetrics) == a
  {
    a.(customMetrics := a.customMetrics + [m])
  }

  /** Wrapping a handler function for `path`: the path is registered for
      per-path error counting and HTTP collection is switched on. */
  function WrapHTTPHandlerFunc(a: Agent, path: string): (r: Agent)
    ensures r.collectHTTPStat
    ensures r.http == RegisterHTTPPath(a.http, path)
    ensures r.(collectHTTPStat := a.collectHTTPStat, http := a.http) == a
  {
    a.(collectHTTPStat := true, http := RegisterHTTPPath(a.http, path))
  }

  /** One request through a wrapped handler function: what the agent looks
      like afterwards, the panic if recording the response panicked, and the
      status-logging writer the handler wrote through. */
  datatype Served = Served(agent: Agent, panic: Option<PanicSite>, writer: StatusWriter)

  /** Serving one request through the function returned by
      `WrapHTTPHandlerFunc(a, path)` for a handler that makes the header
      writes `h`. The inner writer sees exactly the handler's writes, and the
      response is recorded with status 200 when the handler sets none, or
      else with the last status it set. */
  function ServeWrapped(t: Tables, a: Agent, path: string, h: Behaviour): (r: Served)
    ensures r.writer.forwarded == h
    ensures var code := if h == [] then DefaultStatus else h[|h| - 1];
            match RecordResponse(t, a.http, path, code)
            case Done(s) => r.agent == a.(http := s) && r.panic == None
            case Panicked(s, site) => r.agent == a.(http := s) && r.panic == Some(site)
  {
    CapturedStatus(h);
    var w := ServeHTTP(NewHTTPHandlerFunc(h), NewStatusWriter()).writer;
    match RecordResponse(t, a.http, path, w.status)
    case Done(s) => Served(a.(http := s), None, w)
    case Panicked(s, site) => Served(a.(http := s), Some(site), w)
  }

  /** A handler function wrapped on an agent that was never started, and
      that sets no status, serves without panicking as long as 200 is not an
      error code: the response is not counted, since no counter exists. */
  lemma WrappedBeforeRunServes(t: Tables, path: string)
    requires !IsError(t, DefaultStatus)
    ensures var a := WrapHTTPHandlerFunc(NewAgent(), path);
            var r := ServeWrapped(t, a, path, []);
            && r.panic == None && r.agent == a && r.writer.forwarded == []
            && r.agent.http.requests == None
  {
  }

  /** Wrapping a handler object: HTTP collection is switched on and a proxy
      that dispatches to the handler is returned. Requests through it are
      timed only; no counter is touched, since the proxy never sees the
      agent's counters. */
  function WrapHTTPHandler(a: Agent, h: Behaviour): (r: (Agent, Proxy))
    ensures r.0.collectHTTPStat && r.0.(collectHTTPStat := a.collectHTTPStat) == a
    ensures forall w :: ServeHTTP(r.1, w) == CalledHandler(Perform(w, h))
  {
    (a.(collectHTTPStat := true), NewHTTPHandler(h))
  }

  /** How many HTTP metrics a component gets for counters `s`: the ten fixed
      ones, one per global error counter and one per per-path error counter. */
  ghost function HTTPMetricCount(s: Counters): (n: nat)
    requires s.errors.Some?
  {
    10 + |s.errors.value| + PairCount(s.pathErrors, s.pathErrors.Keys)
  }

  /** The HTTP part of the reporting component, for counters just created:
      the ten fixed metrics, then one metric per global error counter, then
      one per per-path error counter. */
  method HTTPComponentMetrics(s: Counters) returns (r: seq<Metric>)
    requires s.errors.Some?
    ensures |r| == HTTPMetricCount(s)
    ensures r[..10] == AddHTTPMetrics([])
    ensures DescribesErrors(r[10..10 + |s.errors.value|], s.errors.value)
    ensures DescribesPaths(r[10 + |s.errors.value|..], s.pathErrors)
  {
    var withFixed := AddHTTPMetrics([]);
    var withErrors := AddHTTPErrorMetrics(withFixed, s.errors.value);
    r := AddHTTPPathErrorMetrics(withErrors, s.pathErrors);
    assert r[..|withErrors|] == withErrors;
    assert r[..10] == withErrors[..10] == withFixed;
    assert r[10..|withErrors|] == withErrors[10..];
  }

  /** The HTTP part of starting the agent: the counters become exactly what
      the two pre-allocations make of them (zeroed totals, status and error
      counters; in every registered path a zeroed counter per error code,
      other codes kept), which satisfies the accounting invariants with every
      path covered; the HTTP metrics are registered, and the custom metrics
      come after them in the order they were added. */
  method StartHTTP(t: Tables, a: Agent) returns (a2: Agent, registered: seq<Metric>)
    ensures a2.(http := a.http) == a
    ensures a2.http == InitErrorCounters(InitStatusCounters(a.http, t), t)
    ensures Consistent(t, a2.http) && Covered(t, a2.http)
    ensures a2.http.requests == Some(0) && a2.http.requestErrors == Some(0)
    ensures a2.http.pathErrors.Keys == a.http.pathErrors.Keys
    ensures |registered| == HTTPMetricCount(a2.http) + |a.customMetrics|
    ensures registered[..10] == AddHTTPMetrics([])
    ensures DescribesErrors(registered[10..10 + |a2.http.errors.value|], a2.http.errors.value)
    ensures DescribesPaths(registered[10 + |a2.http.errors.value|..HTTPMetricCount(a2.http)],
                           a2.http.pathErrors)
    ensures registered[HTTPMetricCount(a2.http)..] == a.customMetrics
  {
    var s := InitErrorCounters(InitStatusCounters(a.http, t), t);
    InitEstablishesConsistent(t, a.http);
    a2 := a.(http := s);
    var http := HTTPComponentMetrics(s);
    registered := http + a.customMetrics;
    CustomsAfterHTTP(s, http, a.customMetrics);
  }

  /** Appending the custom metrics after the HTTP part leaves every section
      of the HTTP part where it was. */
  lemma CustomsAfterHTTP(s: Counters, http: seq<Metric>, customs: seq<Metric>)
    requires s.errors.Some?
    requires |http| == HTTPMetricCount(s)
    requires http[..10] == AddHTTPMetrics([])
    requires DescribesErrors(http[10..10 + |s.errors.value|], s.errors.value)
    requires DescribesPaths(http[10 + |s.errors.value|..], s.pathErrors)
    ensures |http + customs| == HTTPMetricCount(s) + |customs|
    ensures (http + customs)[..10] == AddHTTPMetrics([])
    ensures DescribesErrors((http + customs)[10..10 + |s.errors.value|], s.errors.value)
    ensures DescribesPaths((http + customs)[10 + |s.errors.value|..HTTPMetricCount(s)], s.pathErrors)
    ensures (http + customs)[HTTPMetricCount(s)..] == customs
  {
    var e := 10 + |s.errors.value|;
    assert e <= |http|;
    PrefixOfAppend(http, customs, 10);
    SliceOfAppend(http, customs, 10, e);
    SliceOfAppend(http, customs, e, |http|);
    assert (http + customs)[|http|..] == customs;
  }

  /** Starting the agent. Without a licence key it fails with `LicenseError`
      and changes nothing. With HTTP collection off only the custom metrics
      are registered; with it on, `StartHTTP` does the HTTP part. `registered`
      lists the metrics of the reporting component that this model covers. */
  method Run(t: Tables, a: Agent) returns (a2: Agent, registered: seq<Metric>, err: Option<string>)
    ensures err.Some? <==> a.newrelicLicense == ""
    ensures err.Some? ==> err.value == LicenseError && a2 == a && registered == []
    ensures err.None? && !a.collectHTTPStat ==> a2 == a && registered == a.customMetrics
    ensures err.None? && a.collectHTTPStat ==>
              && a2.(http := a.http) == a
              && a2.http == InitErrorCounters(InitStatusCounters(a.http, t), t)
              && Consistent(t, a2.http) && Covered(t, a2.http)
              && a2.http.requests == Some(0) && a2.http.requestErrors == Some(0)
              && a2.http.pathErrors.Keys == a.http.pathErrors.Keys
    ensures err.None? && a.collectHTTPStat ==>
              |registered| == HTTPMetricCount(a2.http) + |a.customMetrics|
    ensures err.None? && a.collectHTTPStat ==> registered[..10] == AddHTTPMetrics([])
    ensures err.None? && a.collectHTTPStat ==>
              DescribesErrors(registered[10..10 + |a2.http.errors.value|], a2.http.errors.value)
    ensures err.None? && a.collectHTTPStat ==>
              DescribesPaths(registered[10 + |a2.http.errors.value|..HTTPMetricCount(a2.http)],
                             a2.http.pathErrors)
    ensures err.None? && a.collectHTTPStat ==>
              registered[HTTPMetricCount(a2.http)..] == a.customMetrics
  {
    if a.newrelicLicense == "" {
      return a, [], Some(LicenseError);
    }
    err := None;
    if !a.collectHTTPStat {
      return a, a.customMetrics, None;
    }
    a2, registered := StartHTTP(t, a);
  }

  /** The tables of the scenario below: statuses 200, 404 and 500, of which
      404 and 500 are errors. */
  function LoginTables(): (t: Tables)
  {
    Tables([200, 404, 500], map[404 := true, 500 := true])
  }

  /** A counter state of the scenario's shape, written out. */
  function LoginCounters(ok: nat, notFound: nat, failed: nat): (s: Counters)
  {
    Counters(Some(ok + notFound + failed), Some(notFound + failed),
             Some(map[200 := ok, 404 := notFound, 500 := failed]),
             Some(map[404 := notFound, 500 := failed]),
             map["/login" := map[404 := notFound, 500 := failed]])
  }

  /** Registering "/login" on a new agent and starting it yields zeroed
      counters for every status, every error code and "/login". */
  lemma LoginStartup(t: Tables, registered: Counters)
    requires t == LoginTables() && registered == RegisterHTTPPath(Fresh(), "/login")
    ensures InitErrorCounters(InitStatusCounters(registered, t), t) == LoginCounters(0, 0, 0)
  {
    var s0 := InitErrorCounters(InitStatusCounters(registered, t), t);
    assert t.errors.Keys == {404, 500};
    assert registered.pathErrors == map["/login" := map[]];
    assert s0.status.value.Keys == {200, 404, 500} by {
      forall c ensures c in s0.status.value <==> c in {200, 404, 500} {
        assert c in t.statuses <==> c == 200 || c == 404 || c == 500;
      }
    }
    assert s0.status.value[200] == 0 && s0.status.value[404] == 0 && s0.status.value[500] == 0;
    assert s0.status.value == map[200 := 0, 404 := 0, 500 := 0];
    assert s0.errors.value[404] == 0 && s0.errors.value[500] == 0;
    assert s0.errors.value == map[404 := 0, 500 := 0];
    assert s0.pathErrors.Keys == {"/login"};
    assert s0.pathErrors["/login"].Keys == {404, 500};
    assert s0.pathErrors["/login"][404] == 0 && s0.pathErrors["/login"][500] == 0;
    assert s0.pathErrors["/login"] == map[404 := 0, 500 := 0];
  }

  /** A successful response moves only the request total and the 200 count. */
  lemma LoginSuccess(ok: nat)
    ensures RecordResponse(LoginTables(), LoginCounters(ok, 0, 0), "/login", 200) ==
              Done(LoginCounters(ok + 1, 0, 0))
  {
    assert !IsError(LoginTables(), 200);
    var m := map[200 := ok, 404 := 0, 500 := 0];
    assert Bump(m, 200) == map[200 := ok + 1, 404 := 0, 500 := 0];
  }

  /** A 404 moves the request and error totals and the 404 counters. */
  lemma LoginNotFound()
    ensures RecordResponse(LoginTables(), LoginCounters(3, 0, 0), "/login", 404) ==
              Done(LoginCounters(3, 1, 0))
  {
    assert IsError(LoginTables(), 404);
    assert Bump(map[200 := 3, 404 := 0, 500 := 0], 404) == map[200 := 3, 404 := 1, 500 := 0];
    assert Bump(map[404 := 0, 500 := 0], 404) == map[404 := 1, 500 := 0];
    var paths := map["/login" := map[404 := 0, 500 := 0]];
    assert paths["/login" := Bump(paths["/login"], 404)] == map["/login" := map[404 := 1, 500 := 0]];
  }

  /** A 500 moves the request and error totals and the 500 counters. */
  lemma LoginFailure()
    ensures RecordResponse(LoginTables(), LoginCounters(3, 1, 0), "/login", 500) ==
              Done(LoginCounters(3, 1, 1))
  {
    assert IsError(LoginTables(), 500);
    assert Bump(map[200 := 3, 404 := 1, 500 := 0], 500) == map[200 := 3, 404 := 1, 500 := 1];
    assert Bump(map[404 := 1, 500 := 0], 500) == map[404 := 1, 500 := 1];
    var paths := map["/login" := map[404 := 1, 500 := 0]];
    assert paths["/login" := Bump(paths["/login"], 500)] == map["/login" := map[404 := 1, 500 := 1]];
  }

  /** The scenario of three successful responses and two errors (404, 500)
      on a path registered before start-up: five requests, two errors, the
      per-status and per-path counts, and an error rate of 0.4. */
  lemma LoginScenario()
    ensures var t := LoginTables();
            var s0 := InitErrorCounters(InitStatusCounters(RegisterHTTPPath(Fresh(), "/login"), t), t);
            var r := RunEvents(t, s0, LoginEvents());
            && r.Done?
            && r.state.requests == Some(5)
            && r.state.requestErrors == Some(2)
            && r.state.status == Some(map[200 := 3, 404 := 1, 500 := 1])
            && r.state.errors == Some(map[404 := 1, 500 := 1])
            && r.state.pathErrors == map["/login" := map[404 := 1, 500 := 1]]
            && Evaluate(ErrorRateMetric, r.state) == Some(0.4)
  {
    LoginStartup(LoginTables(), RegisterHTTPPath(Fresh(), "/login"));
    LoginRunFrom(0);
    LoginErrorRate();
  }

  lemma LoginErrorRate()
    ensures Evaluate(ErrorRateMetric, LoginCounters(3, 1, 1)) == Some(0.4)
  {
    var s := LoginCounters(3, 1, 1);
    assert s.requests == Some(5) && s.requestErrors == Some(2);
    var r := ErrorRate(5, 2);
    assert r * 5.0 == 2.0;
  }

  /** The five responses of the scenario, from the zeroed start. */
  function LoginEvents(): (events: seq<Event>)
  {
    [Respond("/login", 200), Respond("/login", 200), Respond("/login", 200),
     Respond("/login", 404), Respond("/login", 500)]
  }

  /** The state of the scenario after its first `i` responses. */
  function LoginState(i: nat): (s: Counters)
    requires i <= 5
  {
    if i <= 3 then LoginCounters(i, 0, 0)
    else if i == 4 then LoginCounters(3, 1, 0)
    else LoginCounters(3, 1, 1)
  }

  /** Response `i` of the scenario takes its state `i` to state `i + 1`. */
  lemma LoginStep(i: nat)
    requires i < 5
    ensures Initialized(LoginState(i))
    ensures Step(LoginTables(), LoginState(i), LoginEvents()[i]) == Done(LoginState(i + 1))
  {
    if i < 3 {
      LoginSuccess(i);
    } else if i == 3 {
      LoginNotFound();
    } else {
      LoginFailure();
    }
  }

  /** From state `i`, the remaining responses lead to the final state. */
  lemma {:induction false} LoginRunFrom(i: nat)
    requires i <= 5
    ensures Initialized(LoginState(i))
    ensures RunEvents(LoginTables(), LoginState(i), LoginEvents()[i..]) == Done(LoginState(5))
    decreases 5 - i
  {
    var events := LoginEvents();
    if i == 5 {
      assert events[i..] == [];
    } else {
      LoginStep(i);
      LoginRunFrom(i + 1);
      RunFirstStep(LoginTables(), LoginState(i), events[i..]);
      assert events[i..][1..] == events[i + 1..];
    }
  }
}
