/**
 The memoising report activity `GetReportsRun`: look the request's key up in the
 memory cache, answer from the cache on a hit, otherwise call the report service
 once and store whatever it returned.
 */
module Dispatcher {
  import opened Wrappers
  import opened Requests
  import opened CacheKey
  import opened MemoryCache

  /** What the report service (behind the object mapper) gives back for a request. */
  datatype Produced = Report(file: string) | ProducerFailure

  /** The report service, mapper included: an uninterpreted, deterministic collaborator. */
  type ReportService = ReportRequest -> Produced

  /** How an activity ends: it returns a string or its awaited call throws. */
  datatype Outcome = Returned(value: string) | Faulted

  /** One activity execution: its outcome, the cache afterwards, and the requests the service was called with. */
  datatype Run = Run(outcome: Outcome, cache: Cache, serviceCalls: seq<ReportRequest>)

  /** Whether the request's key is a cache hit. */
  predicate IsHit(cache: Cache, request: ReportRequest)
  {
    !IsNullOrEmpty(Lookup(cache, Key(request)))
  }

  /** The outcome of calling the report service directly, with no cache in between. */
  function Direct(p: Produced): Outcome
  {
    match p
    case Report(f) => Returned(f)
    case ProducerFailure => Faulted
  }

  /** The activity body. */
  function GetReportsRun(cache: Cache, service: ReportService, request: ReportRequest): (run: Run)
    // hit: the cached string comes back, the service is not called, the cache is untouched
    ensures IsHit(cache, request) ==>
              && run.outcome == Returned(cache[Key(request)])
              && run.serviceCalls == []
              && run.cache == cache
    // miss (absent key or ""): exactly one service call, with this request
    ensures !IsHit(cache, request) ==> run.serviceCalls == [request] && run.outcome == Direct(service(request))
    // miss and success: the result is stored under the key, even when it is ""
    ensures !IsHit(cache, request) && service(request).Report? ==>
              run.cache == cache[Key(request) := service(request).file]
    // miss and failure: the failure propagates and nothing is cached
    ensures !IsHit(cache, request) && service(request).ProducerFailure? ==> run.cache == cache
  {
    var cacheKey := Key(request);
    var filename := Lookup(cache, cacheKey);
    if !IsNullOrEmpty(filename) then
      Run(Returned(filename.value), cache, [])
    else
      match service(request)
      case Report(outputs) => Run(Returned(outputs), Set(cache, cacheKey, outputs), [request])
      case ProducerFailure => Run(Faulted, cache, [request])
  }

  /**
   The activity never invents a value: what it returns is either the cached string
   or what the service produced for this call (the "failed" placeholder `GetReportsRun`
   assigns first is always overwritten before it can be returned).
   */
  lemma ReturnedValueHasASource(cache: Cache, service: ReportService, request: ReportRequest)
    ensures var run := GetReportsRun(cache, service, request);
            run.outcome.Returned? ==>
              || (Key(request) in cache && run.outcome.value == cache[Key(request)] != "")
              || service(request) == Report(run.outcome.value)
  {
  }

  /** Every cache entry holds what the service produces for each request with that key. */
  ghost predicate Coherent(cache: Cache, service: ReportService)
  {
    forall r :: Key(r) in cache && cache[Key(r)] != "" ==> service(r) == Report(cache[Key(r)])
  }

  /** The service gives the same answer to requests that share a cache key. */
  ghost predicate RespectsKey(service: ReportService)
  {
    forall a, b :: Key(a) == Key(b) ==> service(a) == service(b)
  }

  /**
   Memoisation is transparent: from a coherent cache the activity answers exactly as a
   direct service call would, and the cache it leaves is coherent again.
   */
  lemma MemoisedAgreesWithDirect(cache: Cache, service: ReportService, request: ReportRequest)
    requires Coherent(cache, service)
    requires RespectsKey(service)
    ensures GetReportsRun(cache, service, request).outcome == Direct(service(request))
    ensures Coherent(GetReportsRun(cache, service, request).cache, service)
  {
    var run := GetReportsRun(cache, service, request);
    var key := Key(request);
    if IsHit(cache, request) {
      assert service(request) == Report(cache[key]);
    } else if service(request).Report? {
      forall r | Key(r) in run.cache && run.cache[Key(r)] != ""
        ensures service(r) == Report(run.cache[Key(r)])
      {
        if Key(r) == key {
          assert service(r) == service(request);
        }
      }
    }
  }

  /**
   Without key-respecting service the memo can hand one request another's report:
   the name "ab" and the name "a" in region "b" share a key.
   */
  lemma CollisionServesForeignReport()
    ensures var service: ReportService := (r: ReportRequest) => Report(OrEmpty(r.name));
            var a := ReportRequest(Some("Species"), Some("ab"), None, None);
            var b := ReportRequest(Some("Species"), Some("a"), Some("b"), None);
            var first := GetReportsRun(map[], service, a);
            var second := GetReportsRun(first.cache, service, b);
            && second.serviceCalls == []
            && second.outcome == Returned("ab")
            && second.outcome != Direct(service(b))
  {
    var service: ReportService := (r: ReportRequest) => Report(OrEmpty(r.name));
    var a := ReportRequest(Some("Species"), Some("ab"), None, None);
    var b := ReportRequest(Some("Species"), Some("a"), Some("b"), None);
    BoundaryShiftCollides();
    var first := GetReportsRun(map[], service, a);
    assert first.cache == map[Key(a) := "ab"];
    assert IsHit(first.cache, b);
  }

  /** After a successful miss with a non-empty result, the same request is a hit. */
  lemma RepeatAfterFilledMissIsHit(cache: Cache, service: ReportService, request: ReportRequest)
    requires !IsHit(cache, request)
    requires service(request).Report? && service(request).file != ""
    ensures var first := GetReportsRun(cache, service, request);
            var second := GetReportsRun(first.cache, service, request);
            && second.serviceCalls == []
            && second.outcome == first.outcome
            && second.cache == first.cache
  {
  }

  /** An empty result is stored but does not count as a hit: the service is asked again. */
  lemma EmptyResultIsRecomputed(cache: Cache, service: ReportService, request: ReportRequest)
    requires service(request) == Report("")
    ensures var first := GetReportsRun(cache, service, request);
            var second := GetReportsRun(first.cache, service, request);
            !IsHit(cache, request) ==> second.serviceCalls == [request]
  {
  }

  /** A failed call leaves nothing behind, so resubmitting the request calls the service again. */
  lemma FailureIsRetried(cache: Cache, service: ReportService, request: ReportRequest)
    requires service(request) == ProducerFailure
    ensures var first := GetReportsRun(cache, service, request);
            first.outcome == Faulted ==>
              GetReportsRun(first.cache, service, request).serviceCalls == [request]
  {
  }
}
