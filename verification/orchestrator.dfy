/**
 The orchestration `EnvImpactDurableFunction`: it calls the `GetReportsRun`
 activity once with its input and returns whatever the activity returned.
 */
module Orchestrator {
  import opened Requests
  import opened MemoryCache
  import opened Dispatcher

  /** The activity name the orchestration calls (`nameof(GetReportsRun)`). */
  const ActivityName: string := "GetReportsRun"

  datatype ActivityCall = ActivityCall(name: string, input: ReportRequest)

  /** One orchestration execution: its output, the activities it called, and the activity's effects. */
  datatype Orchestration = Orchestration(output: Outcome, activityCalls: seq<ActivityCall>, activity: Run)

  function RunOrchestrator(cache: Cache, service: ReportService, request: ReportRequest): (o: Orchestration)
    ensures o.activityCalls == [ActivityCall(ActivityName, request)]
    ensures o.output == o.activity.outcome
    ensures o.activity == GetReportsRun(cache, service, request)
  {
    var outputs := GetReportsRun(cache, service, request);
    Orchestration(outputs.outcome, [ActivityCall(ActivityName, request)], outputs)
  }

  /**
   Seen from outside, an orchestration over a coherent cache answers like a direct call
   to the report service for the same request.
   */
  lemma OrchestrationAgreesWithDirect(cache: Cache, service: ReportService, request: ReportRequest)
    requires Coherent(cache, service)
    requires RespectsKey(service)
    ensures RunOrchestrator(cache, service, request).output == Direct(service(request))
  {
    MemoisedAgreesWithDirect(cache, service, request);
  }
}
