/**
 End-to-end runs: an HTTP request through the gateway, then the scheduled
 orchestration executed against the shared memory cache.
 */
module Scenarios {
  import opened Wrappers
  import opened Requests
  import opened CacheKey
  import opened MemoryCache
  import opened Dispatcher
  import opened Orchestrator
  import opened Gateway

  /** The gateway's client and the activity's memory cache, side by side. */
  datatype System = System(client: DurableClient, cache: Cache)

  datatype Served = Served(response: Response, output: Option<Outcome>, serviceCalls: seq<ReportRequest>, system: System)

  /**
   Serves one species request and, when it was accepted, runs the orchestration it
   scheduled to completion before the next request arrives.
   */
  function ServeSpecies(sys: System, query: Query, validate: Validator, service: ReportService): (s: Served)
    ensures s.response.ValidationResponse? ==> s.system == sys && s.output.None? && s.serviceCalls == []
    ensures s.response.CheckStatusResponse? ==>
              && s.output.Some?
              && |s.system.client.scheduled| == |sys.client.scheduled| + 1
              && s.output.value == GetReportsRun(sys.cache, service, ParseQuery(query, SpeciesReport)).outcome
  {
    var g := GetSpeciesEnvImpact(sys.client, query, validate);
    match g.response
    case ValidationResponse(_) => Served(g.response, None, [], System(g.client, sys.cache))
    case CheckStatusResponse(_, _) =>
      var input := g.client.scheduled[|g.client.scheduled| - 1].input;
      var o := RunOrchestrator(sys.cache, service, input);
      Served(g.response, Some(o.output), o.activity.serviceCalls, System(g.client, o.activity.cache))
  }

  function LionQuery(): Query
  {
    map["name" := "Lion", "region" := "Africa", "percentage" := "10"]
  }

  /**
   A first Lion/Africa/10 request on an empty system is accepted, calls the report
   service once, returns its file and caches it under "filenameSpeciesLionAfrica10".
   A repeat of the same query is accepted under a new instance id and is answered
   from the cache without calling the service.
   */
  lemma LionRequestedTwice(validate: Validator, service: ReportService, file: string)
    requires validate(ParseQuery(LionQuery(), SpeciesReport)).isValid
    requires service(ParseQuery(LionQuery(), SpeciesReport)) == Report(file)
    requires file != ""
    ensures var first := ServeSpecies(System(DurableClient([]), map[]), LionQuery(), validate, service);
            var second := ServeSpecies(first.system, LionQuery(), validate, service);
            && first.response == CheckStatusResponse(Accepted, 0)
            && first.output == Some(Returned(file))
            && |first.serviceCalls| == 1
            && first.system.cache == map["filenameSpeciesLionAfrica10" := file]
            && second.response.CheckStatusResponse?
            && second.response.status == Accepted
            && second.response.instanceId != first.response.instanceId
            && second.output == Some(Returned(file))
            && second.serviceCalls == []
  {
    var request := ParseQuery(LionQuery(), SpeciesReport);
    assert Lookup(LionQuery(), "name") == Some("Lion");
    assert Lookup(LionQuery(), "region") == Some("Africa");
    assert Lookup(LionQuery(), "percentage") == Some("10");
    assert Key(request) == "filenameSpeciesLionAfrica10";
  }

  /**
   A resources request without `name` is turned away with the validation result and
   schedules nothing, for any validator that requires a name.
   */
  lemma ResourcesWithoutNameRejected(client: DurableClient, validate: Validator)
    requires forall r: ReportRequest :: r.name.None? ==> !validate(r).isValid
    ensures var g := GetResourcesEnvImpact(client, map["region" := "Asia"], validate);
            && g.response.ValidationResponse?
            && !g.response.validation.isValid
            && g.client == client
  {
    MissingNameSchedulesNothing(client, map["region" := "Asia"], ResourcesReport, validate);
  }
}
