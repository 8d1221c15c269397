/**
 Successive executions of the report activity against the one process-wide
 memory cache, one after another (concurrent misses are not modelled).
 */
module RepeatedRuns {
  import opened Requests
  import opened CacheKey
  import opened MemoryCache
  import opened Dispatcher

  datatype Batch = Batch(outcomes: seq<Outcome>, cache: Cache, serviceCalls: seq<ReportRequest>)

  /** Runs the activity on each request in turn, threading the cache through. */
  function RunAll(cache: Cache, service: ReportService, requests: seq<ReportRequest>): (b: Batch)
    ensures |b.outcomes| == |requests|
    decreases |requests|
  {
    if |requests| == 0 then Batch([], cache, [])
    else
      var first := GetReportsRun(cache, service, requests[0]);
      var rest := RunAll(first.cache, service, requests[1..]);
      Batch([first.outcome] + rest.outcomes, rest.cache, first.serviceCalls + rest.serviceCalls)
  }

  /** The keys of a list of requests. */
  function KeysOf(requests: seq<ReportRequest>): set<string>
  {
    set i | 0 <= i < |requests| :: Key(requests[i])
  }

  /**
   Across any sequence of activity runs, every outcome is what a direct service call
   would have given, provided the cache starts coherent and the service respects keys.
   */
  lemma {:induction false} RunAllAgreesWithDirect(cache: Cache, service: ReportService, requests: seq<ReportRequest>)
    requires Coherent(cache, service)
    requires RespectsKey(service)
    ensures var b := RunAll(cache, service, requests);
            && Coherent(b.cache, service)
            && forall i :: 0 <= i < |requests| ==> b.outcomes[i] == Direct(service(requests[i]))
    decreases |requests|
  {
    if |requests| > 0 {
      var first := GetReportsRun(cache, service, requests[0]);
      MemoisedAgreesWithDirect(cache, service, requests[0]);
      RunAllAgreesWithDirect(first.cache, service, requests[1..]);
      var b := RunAll(cache, service, requests);
      forall i | 0 <= i < |requests|
        ensures b.outcomes[i] == Direct(service(requests[i]))
      {
        if i > 0 {
          assert requests[1..][i - 1] == requests[i];
        }
      }
    }
  }

  /**
   When the service always succeeds with a non-empty result, it is called at most once
   per distinct key that was not already filled in the cache.
   */
  lemma {:induction false} ServiceCallsBoundedByFreshKeys(cache: Cache, service: ReportService, requests: seq<ReportRequest>)
    requires forall r :: service(r).Report? && service(r).file != ""
    ensures |RunAll(cache, service, requests).serviceCalls| <= |KeysOf(requests) - FilledKeys(cache)|
    decreases |requests|
  {
    if |requests| > 0 {
      var r, rest := requests[0], requests[1..];
      var first := GetReportsRun(cache, service, r);
      var b := RunAll(cache, service, requests);
      var tail := RunAll(first.cache, service, rest);
      assert |b.serviceCalls| == |first.serviceCalls| + |tail.serviceCalls|;
      ServiceCallsBoundedByFreshKeys(first.cache, service, rest);
      KeysOfCons(requests);
      var all := KeysOf(requests) - FilledKeys(cache);
      var later := KeysOf(rest) - FilledKeys(first.cache);
      if IsHit(cache, r) {
        assert later <= all;
        SubsetCardinality(later, all);
      } else {
        var k := Key(r);
        FilledAfterMiss(cache, service, r);
        assert later <= all - {k};
        SubsetCardinality(later, all - {k});
        assert |all - {k}| == |all| - 1;
      }
    }
  }

  /** The keys of a non-empty list: the head's key and the tail's keys. */
  lemma KeysOfCons(requests: seq<ReportRequest>)
    requires |requests| > 0
    ensures KeysOf(requests) == {Key(requests[0])} + KeysOf(requests[1..])
  {
    var rest := requests[1..];
    forall k | k in KeysOf(rest) ensures k in KeysOf(requests) {
      var i :| 0 <= i < |rest| && Key(rest[i]) == k;
      assert rest[i] == requests[i + 1];
    }
    forall k | k in KeysOf(requests) && k != Key(requests[0]) ensures k in KeysOf(rest) {
      var i :| 0 <= i < |requests| && Key(requests[i]) == k;
      assert requests[i] == rest[i - 1];
    }
  }

  /** A miss with a non-empty result adds exactly the request's key to the filled keys. */
  lemma FilledAfterMiss(cache: Cache, service: ReportService, request: ReportRequest)
    requires !IsHit(cache, request)
    requires service(request).Report? && service(request).file != ""
    ensures FilledKeys(GetReportsRun(cache, service, request).cache) == FilledKeys(cache) + {Key(request)}
    ensures Key(request) !in FilledKeys(cache)
  {
  }

  lemma SubsetCardinality<T>(a: set<T>, b: set<T>)
    requires a <= b
    ensures |a| <= |b|
  {
    assert b == a + (b - a);
  }

  /** Running the same request twice calls the service at most once, given a non-empty result. */
  lemma RepeatedRequestCallsServiceOnce(cache: Cache, service: ReportService, request: ReportRequest)
    requires forall r :: service(r).Report? && service(r).file != ""
    ensures |RunAll(cache, service, [request, request]).serviceCalls| <= 1
  {
    var first := GetReportsRun(cache, service, request);
    var second := GetReportsRun(first.cache, service, request);
    assert [request, request][1..] == [request];
    assert [request][1..] == [];
    assert RunAll(first.cache, service, [request]).serviceCalls == second.serviceCalls;
    if !IsHit(cache, request) {
      RepeatAfterFilledMissIsHit(cache, service, request);
    }
  }
}
