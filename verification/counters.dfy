/** The agent's HTTP counter bookkeeping (agent.go): which counters exist,
    how they are pre-allocated, how one response changes them and how a
    harvest resets them. Counters are plain natural numbers; `None` stands for
    a counter or map the agent has not created yet (a nil in the agent). */
module HttpCounters {
  import opened Common
  import opened MapSum

  /** The two package tables the bookkeeping is parameterised by: the status
      codes that get a counter each, and the error table, whose keys get an
      error counter each and whose `true` entries classify a code as an error. */
  datatype Tables = Tables(statuses: seq<int>, errors: map<int, bool>)

  predicate IsError(t: Tables, code: int)
  {
    code in t.errors && t.errors[code]
  }

  /** The HTTP counters of one agent. */
  datatype Counters = Counters(
    requests: Option<nat>,
    requestErrors: Option<nat>,
    status: Option<map<int, nat>>,
    errors: Option<map<int, nat>>,
    pathErrors: map<string, map<int, nat>>)

  /** Every counter and counter map has been created. */
  predicate Initialized(s: Counters)
  {
    s.requests.Some? && s.requestErrors.Some? && s.status.Some? && s.errors.Some?
  }

  /** Where a response that cannot be recorded dereferences a missing counter. */
  datatype PanicSite =
    | UnknownStatus    // the code has no status counter
    | NilErrorTotal    // the request-error total was never created
    | NilErrorCounter  // the code has no global error counter
    | NilPathCounter   // the registered path has no counter for the code

  /** The result of recording a response. A panic keeps the increments made
      before it: the HTTP server recovers the handler's panic and the
      counters live on. */
  datatype Outcome = Done(state: Counters) | Panicked(partial: Counters, site: PanicSite)

  /** Counters of a freshly built agent: nothing created, no path registered. */
  function Fresh(): (s: Counters)
    ensures !Initialized(s) && s.pathErrors == map[]
  {
    Counters(None, None, None, None, map[])
  }

  /** `m2` is `m` with exactly the counters named in `ks` one higher. */
  ghost predicate IncrementedOnly(m: map<int, nat>, m2: map<int, nat>, ks: set<int>)
  {
    && m2.Keys == m.Keys
    && forall k | k in m :: m2[k] == m[k] + (if k in ks then 1 else 0)
  }

  ghost predicate AllZero(m: map<int, nat>)
  {
    forall k | k in m :: m[k] == 0
  }

  /** Counter `k` of `m` one higher, every other counter as it was. */
  function Bump(m: map<int, nat>, k: int): (r: map<int, nat>)
    requires k in m
    ensures r.Keys == m.Keys && r[k] == m[k] + 1
    ensures forall j | j in m && j != k :: r[j] == m[j]
  {
    m[k := m[k] + 1]
  }

  /** Registration of a path for per-path error tracking. */
  function RegisterHTTPPath(s: Counters, path: string): (r: Counters)
    ensures path in r.pathErrors
    ensures path in s.pathErrors ==> r == s
    ensures path !in s.pathErrors ==> r.pathErrors[path] == map[]
    ensures r.pathErrors.Keys == s.pathErrors.Keys + {path}
    ensures forall p | p in s.pathErrors :: r.pathErrors[p] == s.pathErrors[p]
    ensures r.(pathErrors := s.pathErrors) == s
  {
    if path in s.pathErrors then s
    else s.(pathErrors := s.pathErrors[path := map[]])
  }

  /** Pre-allocation of one zeroed status counter per status-table code and a
      zeroed request total; any earlier status counts are dropped. */
  function InitStatusCounters(s: Counters, t: Tables): (r: Counters)
    ensures r.requests == Some(0)
    ensures r.status.Some?
    ensures forall c :: c in r.status.value <==> c in t.statuses
    ensures AllZero(r.status.value)
    ensures r.(requests := s.requests, status := s.status) == s
  {
    s.(requests := Some(0), status := Some(map c | c in t.statuses :: 0))
  }

  /** Pre-allocation of one zeroed error counter per error-table key, the
      same zeroed counters in every path registered so far, and a zeroed
      request-error total. */
  function InitErrorCounters(s: Counters, t: Tables): (r: Counters)
    ensures r.requestErrors == Some(0)
    ensures r.errors.Some? && r.errors.value.Keys == t.errors.Keys
    ensures AllZero(r.errors.value)
    ensures r.pathErrors.Keys == s.pathErrors.Keys
    ensures forall p | p in s.pathErrors ::
              && r.pathErrors[p].Keys == s.pathErrors[p].Keys + t.errors.Keys
              && (forall c | c in r.pathErrors[p] ::
                    r.pathErrors[p][c] == if c in t.errors then 0 else s.pathErrors[p][c])
    ensures r.(requestErrors := s.requestErrors, errors := s.errors, pathErrors := s.pathErrors) == s
  {
    var zeros := map c | c in t.errors :: 0;
    s.(requestErrors := Some(0),
       errors := Some(zeros),
       pathErrors := map p | p in s.pathErrors :: s.pathErrors[p] + zeros)
  }

  /** A response can be recorded without dereferencing a missing counter. */
  predicate Recordable(t: Tables, s: Counters, path: string, code: int)
    requires Initialized(s)
  {
    && code in s.status.value
    && (IsError(t, code) ==>
          && code in s.errors.value
          && (path in s.pathErrors ==> code in s.pathErrors[path]))
  }

  /** Exactly the counters one response of `code` on `path` must change,
      each by one, and nothing else. */
  ghost predicate Recorded(t: Tables, s: Counters, s2: Counters, path: string, code: int)
    requires Initialized(s)
  {
    var errs := if IsError(t, code) then {code} else {};
    && Initialized(s2)
    && s2.requests.value == s.requests.value + 1
    && IncrementedOnly(s.status.value, s2.status.value, {code})
    && s2.requestErrors.value == s.requestErrors.value + |errs|
    && IncrementedOnly(s.errors.value, s2.errors.value, errs)
    && s2.pathErrors.Keys == s.pathErrors.Keys
    && forall p | p in s.pathErrors ::
         IncrementedOnly(s.pathErrors[p], s2.pathErrors[p], if p == path then errs else {})
  }

  /** Accounting for one response with status `code` served under `path`. */
  function RecordResponse(t: Tables, s: Counters, path: string, code: int): (r: Outcome)
    // Once everything is created, the response is recorded exactly when it
    // can be, and then precisely the right counters move.
    ensures Initialized(s) ==> (r.Done? <==> Recordable(t, s, path, code))
    ensures Initialized(s) && r.Done? ==> Recorded(t, s, r.state, path, code)
    ensures Initialized(s) && r.Panicked? ==>
              r.site == (if code !in s.status.value then UnknownStatus
                         else if code !in s.errors.value then NilErrorCounter
                         else NilPathCounter)
    // A panic keeps what was counted before the missing counter: the request
    // total, then the status counter and the request-error total, then the
    // global error counter.
    ensures Initialized(s) && r.Panicked? && r.site == UnknownStatus ==>
              r.partial == s.(requests := Some(s.requests.value + 1))
    ensures Initialized(s) && r.Panicked? && r.site == NilErrorCounter ==>
              r.partial == s.(requests := Some(s.requests.value + 1),
                              status := Some(Bump(s.status.value, code)),
                              requestErrors := Some(s.requestErrors.value + 1))
    ensures Initialized(s) && r.Panicked? && r.site == NilPathCounter ==>
              r.partial == s.(requests := Some(s.requests.value + 1),
                              status := Some(Bump(s.status.value, code)),
                              requestErrors := Some(s.requestErrors.value + 1),
                              errors := Some(Bump(s.errors.value, code)))
    // Before the counters exist, a non-error response is silently ignored
    // and an error response panics on the missing request-error total.
    ensures s.requests.None? && s.status.None? && s.requestErrors.None? && !IsError(t, code) ==>
              r == Done(s)
    ensures s.requests.None? && s.status.None? && s.requestErrors.None? && IsError(t, code) ==>
              r == Panicked(s, NilErrorTotal)
  {
    var counted :=
      if s.requests.Some? then s.(requests := Some(s.requests.value + 1)) else s;
    if counted.status.Some? && code !in counted.status.value then
      Panicked(counted, UnknownStatus)
    else
      var byStatus :=
        if counted.status.Some? then counted.(status := Some(Bump(counted.status.value, code)))
        else counted;
      if !IsError(t, code) then Done(byStatus)
      else if byStatus.requestErrors.None? then Panicked(byStatus, NilErrorTotal)
      else
        var errorCounted := byStatus.(requestErrors := Some(byStatus.requestErrors.value + 1));
        if errorCounted.errors.None? || code !in errorCounted.errors.value then
          Panicked(errorCounted, NilErrorCounter)
        else
          var byError := errorCounted.(errors := Some(Bump(errorCounted.errors.value, code)));
          if path !in byError.pathErrors then Done(byError)
          else if code !in byError.pathErrors[path] then Panicked(byError, NilPathCounter)
          else Done(byError.(pathErrors := byError.pathErrors[path := Bump(byError.pathErrors[path], code)]))
  }

  /** The harvest reset of the resettable component: every counter it holds
      reads zero afterwards, and no counter is created or dropped. */
  function ClearSentData(s: Counters): (r: Counters)
    requires Initialized(s)
    ensures Initialized(r)
    ensures r.requests == Some(0) && r.requestErrors == Some(0)
    ensures r.status.value.Keys == s.status.value.Keys && AllZero(r.status.value)
    ensures r.errors.value.Keys == s.errors.value.Keys && AllZero(r.errors.value)
    ensures r.pathErrors.Keys == s.pathErrors.Keys
    ensures forall p | p in s.pathErrors ::
              r.pathErrors[p].Keys == s.pathErrors[p].Keys && AllZero(r.pathErrors[p])
  {
    Counters(
      Some(0),
      Some(0),
      Some(map c | c in s.status.value :: 0),
      Some(map c | c in s.errors.value :: 0),
      map p | p in s.pathErrors :: map c | c in s.pathErrors[p] :: 0)
  }

  // ---------------------------------------------------------------------
  // Invariants of initialised counters

  /** The counter maps have the key sets the tables give them. */
  ghost predicate Shaped(t: Tables, s: Counters)
  {
    && Initialized(s)
    && (forall c :: c in s.status.value <==> c in t.statuses)
    && s.errors.value.Keys == t.errors.Keys
  }

  /** Every registered path has a counter for every error code. Paths
      registered before the error counters are created have it; paths
      registered later do not. */
  ghost predicate Covered(t: Tables, s: Counters)
  {
    forall p | p in s.pathErrors :: t.errors.Keys <= s.pathErrors[p].Keys
  }

  /** The accounting invariants: errors never outnumber requests, each total
      is the sum of its per-code counters, and no path has seen more errors
      of a code than all paths together. */
  ghost predicate Consistent(t: Tables, s: Counters)
  {
    && Shaped(t, s)
    && s.requestErrors.value <= s.requests.value
    && s.requests.value == Sum(s.status.value)
    && s.requestErrors.value == Sum(s.errors.value)
    && forall p, c | p in s.pathErrors && c in s.pathErrors[p] && c in s.errors.value ::
         s.pathErrors[p][c] <= s.errors.value[c]
  }

  /** The agent's start-up sequence (status counters, then error counters)
      establishes the invariants whatever state it starts from. */
  lemma InitEstablishesConsistent(t: Tables, s: Counters)
    ensures Consistent(t, InitErrorCounters(InitStatusCounters(s, t), t))
    ensures Covered(t, InitErrorCounters(InitStatusCounters(s, t), t))
  {
    var r := InitErrorCounters(InitStatusCounters(s, t), t);
    SumZero(r.status.value);
    SumZero(r.errors.value);
  }

  lemma BumpedSum(m: map<int, nat>, m2: map<int, nat>, k: int)
    requires k in m && IncrementedOnly(m, m2, {k})
    ensures Sum(m2) == Sum(m) + 1
  {
    assert m2.Keys == m[k := m[k] + 1].Keys;
    assert forall j | j in m2 :: m2[j] == m[k := m[k] + 1][j];
    assert m2 == m[k := m[k] + 1];
    SumIncrement(m, k);
  }

  /** A recorded response preserves the accounting invariants. */
  lemma RecordPreservesConsistent(t: Tables, s: Counters, path: string, code: int)
    requires Consistent(t, s)
    requires RecordResponse(t, s, path, code).Done?
    ensures Consistent(t, RecordResponse(t, s, path, code).state)
    ensures Covered(t, s) ==> Covered(t, RecordResponse(t, s, path, code).state)
  {
    var s2 := RecordResponse(t, s, path, code).state;
    BumpedSum(s.status.value, s2.status.value, code);
    if IsError(t, code) {
      BumpedSum(s.errors.value, s2.errors.value, code);
    } else {
      assert s2.errors.value == s.errors.value;
    }
  }

  /** A harvest reset preserves the accounting invariants. */
  lemma ClearPreservesConsistent(t: Tables, s: Counters)
    requires Consistent(t, s)
    ensures Consistent(t, ClearSentData(s))
    ensures Covered(t, s) ==> Covered(t, ClearSentData(s))
  {
    var r := ClearSentData(s);
    SumZero(r.status.value);
    SumZero(r.errors.value);
  }

  /** With every path covered and a known status code, recording never
      panics. */
  lemma CoveredNeverPanics(t: Tables, s: Counters, path: string, code: int)
    requires Shaped(t, s) && Covered(t, s)
    requires code in t.statuses
    ensures RecordResponse(t, s, path, code).Done?
  {
  }

  // ---------------------------------------------------------------------
  // Traces of events on initialised counters

  datatype Event =
    | Register(path: string)          // wrapping a handler function for `path`
    | Respond(path: string, code: int) // one response through such a wrapper
    | Harvest                         // a successful report, then the reset

  function Step(t: Tables, s: Counters, e: Event): (r: Outcome)
    requires Initialized(s)
    ensures r.Done? ==> Initialized(r.state)
  {
    match e
    case Register(path) => Done(RegisterHTTPPath(s, path))
    case Respond(path, code) => RecordResponse(t, s, path, code)
    case Harvest => Done(ClearSentData(s))
  }

  /** Runs the events in order, stopping at the first panic. */
  function RunEvents(t: Tables, s: Counters, events: seq<Event>): (r: Outcome)
    requires Initialized(s)
    ensures r.Done? ==> Initialized(r.state)
    decreases |events|
  {
    if events == [] then Done(s)
    else
      match Step(t, s, events[0])
      case Done(s2) => RunEvents(t, s2, events[1..])
      case Panicked(p, site) => Panicked(p, site)
  }

  /** A run that starts with a step that does not panic continues from the
      state that step leaves. */
  lemma RunFirstStep(t: Tables, s: Counters, events: seq<Event>)
    requires Initialized(s) && events != [] && Step(t, s, events[0]).Done?
    ensures RunEvents(t, s, events) == RunEvents(t, Step(t, s, events[0]).state, events[1..])
  {
  }

  /** Along any run that does not panic, the accounting invariants hold. */
  lemma {:induction false} RunPreservesConsistent(t: Tables, s: Counters, events: seq<Event>)
    requires Consistent(t, s)
    requires RunEvents(t, s, events).Done?
    ensures Consistent(t, RunEvents(t, s, events).state)
    decreases |events|
  {
    if events != [] {
      var e := events[0];
      match e
      case Register(path) =>
        RunPreservesConsistent(t, RegisterHTTPPath(s, path), events[1..]);
      case Respond(path, code) =>
        RecordPreservesConsistent(t, s, path, code);
        RunPreservesConsistent(t, RecordResponse(t, s, path, code).state, events[1..]);
      case Harvest =>
        ClearPreservesConsistent(t, s);
        RunPreservesConsistent(t, ClearSentData(s), events[1..]);
    }
  }

  /** Counters freshly created by the start-up sequence satisfy the
      invariants after any run that does not panic. */
  lemma FromStartupConsistent(t: Tables, s: Counters, events: seq<Event>)
    requires RunEvents(t, InitErrorCounters(InitStatusCounters(s, t), t), events).Done?
    ensures Consistent(t, RunEvents(t, InitErrorCounters(InitStatusCounters(s, t), t), events).state)
  {
    InitEstablishesConsistent(t, s);
    RunPreservesConsistent(t, InitErrorCounters(InitStatusCounters(s, t), t), events);
  }

  function Repeat(e: Event, n: nat): (r: seq<Event>)
    ensures |r| == n && forall i | 0 <= i < n :: r[i] == e
  {
    if n == 0 then [] else [e] + Repeat(e, n - 1)
  }

  /** One error response on a covered path: it is recorded, the shape and
      coverage survive, and each counter of the code rises by one. */
  lemma OneError(t: Tables, s: Counters, path: string, code: int)
    requires Shaped(t, s) && Covered(t, s)
    requires code in t.statuses && IsError(t, code)
    requires path in s.pathErrors
    ensures RecordResponse(t, s, path, code).Done?
    ensures var s1 := RecordResponse(t, s, path, code).state;
            && Shaped(t, s1) && Covered(t, s1) && path in s1.pathErrors
            && s1.requests.value == s.requests.value + 1
            && s1.requestErrors.value == s.requestErrors.value + 1
            && s1.status.value[code] == s.status.value[code] + 1
            && s1.errors.value[code] == s.errors.value[code] + 1
            && s1.pathErrors[path][code] == s.pathErrors[path][code] + 1
  {
    CoveredNeverPanics(t, s, path, code);
    var s1 := RecordResponse(t, s, path, code).state;
    assert Recorded(t, s, s1, path, code);
  }

  /** `n` error responses of the same code on a path registered before the
      counters were created raise the path's counter and the global counter
      for that code by exactly `n` each, and both totals by `n`. */
  lemma {:induction false} RepeatedErrors(t: Tables, s: Counters, path: string, code: int, n: nat)
    requires Shaped(t, s) && Covered(t, s)
    requires code in t.statuses && IsError(t, code)
    requires path in s.pathErrors
    ensures RunEvents(t, s, Repeat(Respond(path, code), n)).Done?
    ensures var s2 := RunEvents(t, s, Repeat(Respond(path, code), n)).state;
            && Shaped(t, s2) && Covered(t, s2) && path in s2.pathErrors
            && s2.requests.value == s.requests.value + n
            && s2.requestErrors.value == s.requestErrors.value + n
            && s2.status.value[code] == s.status.value[code] + n
            && s2.errors.value[code] == s.errors.value[code] + n
            && s2.pathErrors[path][code] == s.pathErrors[path][code] + n
    decreases n
  {
    var e := Respond(path, code);
    var events := Repeat(e, n);
    if n == 0 {
      assert events == [];
    } else {
      assert events[0] == e && events[1..] == Repeat(e, n - 1);
      OneError(t, s, path, code);
      var s1 := RecordResponse(t, s, path, code).state;
      RepeatedErrors(t, s1, path, code, n - 1);
      assert RunEvents(t, s, events) == RunEvents(t, s1, events[1..]);
    }
  }

  /** A path registered after the counters were created has no per-code
      counters, so the first error response served under it panics. */
  lemma LateRegistrationPanics(t: Tables, s: Counters, path: string, code: int)
    requires Shaped(t, s)
    requires path !in s.pathErrors
    requires code in t.statuses && IsError(t, code)
    ensures RecordResponse(t, RegisterHTTPPath(s, path), path, code) ==
              Panicked(
                s.(requests := Some(s.requests.value + 1),
                   status := Some(Bump(s.status.value, code)),
                   requestErrors := Some(s.requestErrors.value + 1),
                   errors := Some(Bump(s.errors.value, code)),
                   pathErrors := s.pathErrors[path := map[]]),
                NilPathCounter)
  {
  }
}
