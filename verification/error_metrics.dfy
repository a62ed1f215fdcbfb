/** The error-count metrics (http_error_metrics.go): one metric per global
    error counter and one per (path, code) counter, each named after its key
    and bound to the counter under that key. Maps are walked in an order the
    runtime chooses, so the loops below pick their next key arbitrarily and
    the contracts fix only which metrics are added, not in what order. */
module ErrorMetrics {
  import opened Common
  import opened Decimal
  import opened MapSum
  import opened HttpCounters
  import opened HttpMetrics

  /** The name of the global error metric of `code`: a fixed prefix, then
      the code in decimal (slash-free, so the code can be read back off the
      end; see `ErrorNameCodesReadBack`). */
  function AllErrorName(code: int): (name: string)
    ensures |name| > 15 && name[..15] == "http/all/error/"
    ensures '/' !in name[15..]
  {
    "http/all/error/" + IntToDecimal(code)
  }

  /** The name of the error metric of `code` on `path`: the path verbatim
      between "http/path/" and "/error/", then the code in decimal. */
  function PathErrorName(path: string, code: int): (name: string)
    ensures |name| > |path| + 17
    ensures name[..10] == "http/path/" && name[10..|path| + 10] == path
    ensures name[|path| + 10..|path| + 17] == "/error/"
    ensures '/' !in name[|path| + 17..]
  {
    "http/path/" + path + "/error/" + IntToDecimal(code)
  }

  function AllErrorMetric(code: int): (m: Metric)
  {
    Metric(AllErrorName(code), "count", AllErrorCounter(code))
  }

  function PathErrorMetric(path: string, code: int): (m: Metric)
  {
    Metric(PathErrorName(path, code), "count", PathErrorCounter(path, code))
  }

  /** The code part of either error metric name reads back as the code. */
  lemma ErrorNameCodesReadBack(path: string, code: int)
    ensures DecimalValue(AllErrorName(code)[15..]) == code
    ensures DecimalValue(PathErrorName(path, code)[|path| + 17..]) == code
  {
    assert AllErrorName(code)[15..] == IntToDecimal(code);
    assert PathErrorName(path, code)[|path| + 17..] == IntToDecimal(code);
    IntToDecimalValue(code);
  }

  /** Distinct error codes give distinct all-error metric names. */
  lemma AllErrorNamesInjective(a: int, b: int)
    ensures AllErrorName(a) == AllErrorName(b) <==> a == b
  {
    if AllErrorName(a) == AllErrorName(b) {
      var prefix := "http/all/error/";
      assert IntToDecimal(a) == AllErrorName(a)[|prefix|..];
      assert IntToDecimal(b) == AllErrorName(b)[|prefix|..];
      IntToDecimalInjective(a, b);
    }
  }

  /** Two strings that end in a slash followed by a slash-free tail agree
      exactly when their heads and tails agree. */
  lemma SplitAtLastSlash(a1: string, d1: string, a2: string, d2: string)
    requires '/' !in d1 && '/' !in d2
    requires a1 + "/" + d1 == a2 + "/" + d2
    ensures a1 == a2 && d1 == d2
  {
    var s := a1 + "/" + d1;
    // The last slash of `s` sits just before the tail, whichever way `s`
    // is split, so the two tails have the same length.
    assert forall k | |s| - |d1| <= k < |s| :: s[k] == d1[k - (|s| - |d1|)];
    assert forall k | |s| - |d2| <= k < |s| :: s[k] == d2[k - (|s| - |d2|)];
    assert s[|s| - |d1| - 1] == '/' && s[|s| - |d2| - 1] == '/';
    assert |d1| == |d2|;
    assert d1 == s[|s| - |d1|..] == d2;
    assert a1 == s[..|a1|] == a2;
  }

  /** Distinct (path, code) pairs give distinct per-path metric names, even
      when a path itself contains "/error/". */
  lemma PathErrorNamesInjective(p1: string, c1: int, p2: string, c2: int)
    ensures PathErrorName(p1, c1) == PathErrorName(p2, c2) <==> p1 == p2 && c1 == c2
  {
    if PathErrorName(p1, c1) == PathErrorName(p2, c2) {
      var d1, d2 := IntToDecimal(c1), IntToDecimal(c2);
      var a1, a2 := "http/path/" + p1 + "/error", "http/path/" + p2 + "/error";
      assert PathErrorName(p1, c1) == a1 + "/" + d1;
      assert PathErrorName(p2, c2) == a2 + "/" + d2;
      SplitAtLastSlash(a1, d1, a2, d2);
      IntToDecimalInjective(c1, c2);
      assert p1 == a1[10..|a1| - 6] == a2[10..|a2| - 6] == p2;
    }
  }

  /** No error metric can take the name of one of the fixed HTTP metrics:
      they part ways at the sixth character ("all/" and "path/" against
      "throughput", "responseTime", "requests" and "errorRate"). */
  lemma ErrorNamesAvoidFixedNames(component: seq<Metric>, path: string, code: int)
    ensures forall i | |component| <= i < |component| + 10 ::
              && AddHTTPMetrics(component)[i].name != AllErrorName(code)
              && AddHTTPMetrics(component)[i].name != PathErrorName(path, code)
  {
    var all, byPath := AllErrorName(code), PathErrorName(path, code);
    assert all[5] == all[..15][5] == 'a';
    assert byPath[5] == byPath[..10][5] == 'p';
    FixedNamesSixthChar(component);
  }

  /** An all-error metric reads the global error counter of its own code. */
  lemma AllErrorMetricReadsItsCounter(code: int, s: Counters)
    requires s.errors.Some? && code in s.errors.value
    ensures Evaluate(AllErrorMetric(code), s) == Some(s.errors.value[code] as real)
    ensures AllErrorMetric(code).units == "count"
  {
  }

  /** A per-path metric reads that path's error counter of its own code. */
  lemma PathErrorMetricReadsItsCounter(path: string, code: int, s: Counters)
    requires path in s.pathErrors && code in s.pathErrors[path]
    ensures Evaluate(PathErrorMetric(path, code), s) == Some(s.pathErrors[path][code] as real)
    ensures PathErrorMetric(path, code).units == "count"
  {
  }

  /** The error metrics follow their counters through a recorded response:
      the metrics of the response's code (globally, and for its path) go up
      by one when the code is an error, and every other one stays put. */
  lemma ErrorMetricsFollowRecord(t: Tables, s: Counters, path: string, code: int)
    requires Initialized(s)
    requires RecordResponse(t, s, path, code).Done?
    ensures var s2 := RecordResponse(t, s, path, code).state;
            && (forall c | c in s.errors.value ::
                  Evaluate(AllErrorMetric(c), s2).value ==
                  Evaluate(AllErrorMetric(c), s).value +
                    (if c == code && IsError(t, code) then 1.0 else 0.0))
            && (forall p, c | p in s.pathErrors && c in s.pathErrors[p] ::
                  Evaluate(PathErrorMetric(p, c), s2).value ==
                  Evaluate(PathErrorMetric(p, c), s).value +
                    (if p == path && c == code && IsError(t, code) then 1.0 else 0.0))
  {
    var s2 := RecordResponse(t, s, path, code).state;
    assert Recorded(t, s, s2, path, code);
  }

  /** The all-error metrics describe `counters`: one per key, each named after
      and bound to its own code, all names distinct. */
  ghost predicate DescribesErrors(added: seq<Metric>, counters: map<int, nat>)
  {
    && |added| == |counters|
    && (forall i | 0 <= i < |added| ::
          added[i].source.AllErrorCounter?
          && added[i].source.code in counters
          && added[i] == AllErrorMetric(added[i].source.code))
    && (forall c | c in counters :: AllErrorMetric(c) in added)
    && (forall i, j | 0 <= i < j < |added| :: added[i].name != added[j].name)
  }

  /** `added` holds exactly the all-error metrics of the codes in `done`. */
  ghost predicate ErrorsSoFar(added: seq<Metric>, done: set<int>)
  {
    && |added| == |done|
    && (forall i | 0 <= i < |added| ::
          added[i].source.AllErrorCounter?
          && added[i].source.code in done
          && added[i] == AllErrorMetric(added[i].source.code))
    && (forall c | c in done :: AllErrorMetric(c) in added)
    && (forall i, j | 0 <= i < j < |added| :: added[i].name != added[j].name)
  }

  /** Appending the metric of a code not yet seen keeps `ErrorsSoFar`. */
  lemma ErrorsSoFarStep(added: seq<Metric>, done: set<int>, code: int)
    requires ErrorsSoFar(added, done) && code !in done
    ensures ErrorsSoFar(added + [AllErrorMetric(code)], done + {code})
  {
    forall i | 0 <= i < |added|
      ensures added[i].name != AllErrorName(code)
    {
      AllErrorNamesInjective(added[i].source.code, code);
    }
  }

  lemma ErrorsSoFarComplete(added: seq<Metric>, counters: map<int, nat>)
    requires ErrorsSoFar(added, counters.Keys)
    ensures DescribesErrors(added, counters)
  {
  }

  /** The loop of the all-error registration: one metric per counter, in
      whatever order the map is walked. */
  method CollectErrorMetrics(counters: map<int, nat>) returns (added: seq<Metric>)
    ensures DescribesErrors(added, counters)
  {
    added := [];
    var todo := counters.Keys;
    ghost var done: set<int> := {};
    while todo != {}
      invariant todo !! done && todo + done == counters.Keys
      invariant ErrorsSoFar(added, done)
      decreases |todo|
    {
      var code := NextKey(todo);
      ErrorsSoFarStep(added, done, code);
      added := added + [AllErrorMetric(code)];
      todo := todo - {code};
      done := done + {code};
    }
    ErrorsSoFarComplete(added, counters);
  }

  /** Registration of one "http/all/error/<code>" count metric per global
      error counter, appended to the component's list. */
  method AddHTTPErrorMetrics(component: seq<Metric>, counters: map<int, nat>)
    returns (r: seq<Metric>)
    ensures |r| == |component| + |counters| && r[..|component|] == component
    ensures DescribesErrors(r[|component|..], counters)
  {
    var added := CollectErrorMetrics(counters);
    r := component + added;
    assert r[|component|..] == added;
  }

  /** The per-path metrics of one path describe its counters. */
  ghost predicate DescribesPath(added: seq<Metric>, path: string, counters: map<int, nat>)
  {
    && |added| == |counters|
    && (forall i | 0 <= i < |added| ::
          added[i].source.PathErrorCounter?
          && added[i].source.path == path
          && added[i].source.code in counters
          && added[i] == PathErrorMetric(path, added[i].source.code))
    && (forall c | c in counters :: PathErrorMetric(path, c) in added)
    && (forall i, j | 0 <= i < j < |added| :: added[i].name != added[j].name)
  }

  /** `added` holds exactly the metrics of `path` for the codes in `done`. */
  ghost predicate PathSoFar(added: seq<Metric>, path: string, done: set<int>)
  {
    && |added| == |done|
    && (forall i | 0 <= i < |added| ::
          added[i].source.PathErrorCounter?
          && added[i].source.path == path
          && added[i].source.code in done
          && added[i] == PathErrorMetric(path, added[i].source.code))
    && (forall c | c in done :: PathErrorMetric(path, c) in added)
    && (forall i, j | 0 <= i < j < |added| :: added[i].name != added[j].name)
  }

  lemma PathSoFarStep(added: seq<Metric>, path: string, done: set<int>, code: int)
    requires PathSoFar(added, path, done) && code !in done
    ensures PathSoFar(added + [PathErrorMetric(path, code)], path, done + {code})
  {
    forall i | 0 <= i < |added|
      ensures added[i].name != PathErrorName(path, code)
    {
      PathErrorNamesInjective(path, added[i].source.code, path, code);
    }
  }

  lemma PathSoFarComplete(added: seq<Metric>, path: string, counters: map<int, nat>)
    requires PathSoFar(added, path, counters.Keys)
    ensures DescribesPath(added, path, counters)
  {
  }

  /** The inner loop of the per-path registration: the metrics of one path,
      in whatever order its map is walked. */
  method CollectPathMetrics(path: string, counters: map<int, nat>) returns (added: seq<Metric>)
    ensures DescribesPath(added, path, counters)
  {
    added := [];
    var todo := counters.Keys;
    ghost var done: set<int> := {};
    while todo != {}
      invariant todo !! done && todo + done == counters.Keys
      invariant PathSoFar(added, path, done)
      decreases |todo|
    {
      var code := NextKey(todo);
      PathSoFarStep(added, path, done, code);
      added := added + [PathErrorMetric(path, code)];
      todo := todo - {code};
      done := done + {code};
    }
    PathSoFarComplete(added, path, counters);
  }

  /** The number of (path, code) counters among the given paths: the sum of
      their map sizes. */
  ghost function PairCount(counters: map<string, map<int, nat>>, paths: set<string>): (n: nat)
    requires paths <= counters.Keys
  {
    Sum(map p | p in paths :: |counters[p]|)
  }

  lemma PairCountAdd(counters: map<string, map<int, nat>>, paths: set<string>, p: string)
    requires paths <= counters.Keys && p in counters && p !in paths
    ensures PairCount(counters, paths + {p}) == PairCount(counters, paths) + |counters[p]|
  {
    var m := map q | q in paths + {p} :: |counters[q]|;
    var m0 := map q | q in paths :: |counters[q]|;
    assert PairCount(counters, paths + {p}) == Sum(m);
    assert PairCount(counters, paths) == Sum(m0);
    SumRemove(m, p);
    var rest := m - {p};
    assert rest.Keys == paths;
    assert forall q | q in rest :: rest[q] == m0[q];
    assert rest == m0;
  }

  /** The per-path metrics describe `counters`: one per (path, code) pair,
      each named after and bound to its own pair, all names distinct. */
  ghost predicate DescribesPaths(added: seq<Metric>, counters: map<string, map<int, nat>>)
  {
    && |added| == PairCount(counters, counters.Keys)
    && (forall i | 0 <= i < |added| ::
          added[i].source.PathErrorCounter?
          && added[i].source.path in counters
          && added[i].source.code in counters[added[i].source.path]
          && added[i] == PathErrorMetric(added[i].source.path, added[i].source.code))
    && (forall p, c | p in counters && c in counters[p] :: PathErrorMetric(p, c) in added)
    && (forall i, j | 0 <= i < j < |added| :: added[i].name != added[j].name)
  }

  /** `added` holds exactly the metrics of the pairs whose path is in `done`. */
  ghost predicate PathsSoFar(added: seq<Metric>, counters: map<string, map<int, nat>>, done: set<string>)
  {
    && done <= counters.Keys
    && |added| == PairCount(counters, done)
    && (forall i | 0 <= i < |added| ::
          added[i].source.PathErrorCounter?
          && added[i].source.path in done
          && added[i].source.code in counters[added[i].source.path]
          && added[i] == PathErrorMetric(added[i].source.path, added[i].source.code))
    && (forall p, c | p in done && c in counters[p] :: PathErrorMetric(p, c) in added)
    && (forall i, j | 0 <= i < j < |added| :: added[i].name != added[j].name)
  }

  lemma PathsSoFarStep(added: seq<Metric>, counters: map<string, map<int, nat>>,
                       done: set<string>, path: string, more: seq<Metric>)
    requires PathsSoFar(added, counters, done)
    requires path in counters && path !in done
    requires DescribesPath(more, path, counters[path])
    ensures PathsSoFar(added + more, counters, done + {path})
  {
    var r := added + more;
    PairCountAdd(counters, done, path);
    forall i | 0 <= i < |r|
      ensures r[i].source.PathErrorCounter?
      ensures r[i].source.path in done + {path}
      ensures r[i].source.code in counters[r[i].source.path]
      ensures r[i] == PathErrorMetric(r[i].source.path, r[i].source.code)
    {
      if i >= |added| {
        assert r[i] == more[i - |added|];
      }
    }
    forall p, c | p in done + {path} && c in counters[p]
      ensures PathErrorMetric(p, c) in r
    {
      if p == path {
        assert PathErrorMetric(p, c) in more;
      } else {
        assert PathErrorMetric(p, c) in added;
      }
    }
    forall i, j | 0 <= i < j < |r|
      ensures r[i].name != r[j].name
    {
      if j >= |added| {
        assert r[j] == more[j - |added|];
        if i >= |added| {
          assert r[i] == more[i - |added|];
        } else {
          PathErrorNamesInjective(r[i].source.path, r[i].source.code, path, r[j].source.code);
        }
      }
    }
  }

  lemma NoPathsSoFar(counters: map<string, map<int, nat>>)
    ensures PathsSoFar([], counters, {})
  {
    assert PairCount(counters, {}) == 0;
  }

  lemma PathsSoFarComplete(added: seq<Metric>, counters: map<string, map<int, nat>>)
    requires PathsSoFar(added, counters, counters.Keys)
    ensures DescribesPaths(added, counters)
  {
  }

  /** One round of the outer loop: the metrics of one more path. */
  method AddPathMetrics(added: seq<Metric>, counters: map<string, map<int, nat>>,
                        ghost done: set<string>, path: string) returns (r: seq<Metric>)
    requires PathsSoFar(added, counters, done)
    requires path in counters && path !in done
    ensures PathsSoFar(r, counters, done + {path})
  {
    var more := CollectPathMetrics(path, counters[path]);
    PathsSoFarStep(added, counters, done, path, more);
    r := added + more;
  }

  /** The nested loops of the per-path registration. */
  method CollectPathErrorMetrics(counters: map<string, map<int, nat>>) returns (added: seq<Metric>)
    ensures DescribesPaths(added, counters)
  {
    added := [];
    var todo := counters.Keys;
    ghost var done: set<string> := {};
    NoPathsSoFar(counters);
    while todo != {}
      invariant todo !! done && todo + done == counters.Keys
      invariant PathsSoFar(added, counters, done)
      decreases |todo|
    {
      var path := NextKey(todo);
      added := AddPathMetrics(added, counters, done, path);
      todo := todo - {path};
      done := done + {path};
    }
    PathsSoFarComplete(added, counters);
  }

  /** Registration of one "http/path/<path>/error/<code>" count metric per
      per-path error counter, appended to the component's list. */
  method AddHTTPPathErrorMetrics(component: seq<Metric>, counters: map<string, map<int, nat>>)
    returns (r: seq<Metric>)
    ensures |r| == |component| + PairCount(counters, counters.Keys)
    ensures r[..|component|] == component
    ensures DescribesPaths(r[|component|..], counters)
  {
    var added := CollectPathErrorMetrics(counters);
    r := component + added;
    assert r[|component|..] == added;
  }
}
