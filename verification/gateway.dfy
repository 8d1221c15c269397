/**
 The two HTTP endpoints `GetSpeciesEnvImpact` and `GetResourcesEnvImpact`: one flow,
 parameterised by the report name, that reads the query into a request, validates it,
 and either answers with the validation result or schedules one orchestration and
 answers 202 Accepted with the new instance id.
 */
module Gateway {
  import opened Wrappers
  import opened Requests

  /** The HTTP query dictionary. */
  type Query = map<string, string>

  const SpeciesReport: string := "Species"
  const ResourcesReport: string := "Resources"

  /** The orchestration the endpoints schedule (`nameof(EnvImpactDurableFunction)`). */
  const OrchestratorName: string := "EnvImpactDurableFunction"

  /** `HttpStatusCode.Accepted`. */
  const Accepted: nat := 202

  datatype ValidationError = ValidationError(field: string, message: string)
  datatype ValidationResult = ValidationResult(isValid: bool, errors: seq<ValidationError>)

  /** The request validator; its rules are not part of this model. */
  type Validator = ReportRequest -> ValidationResult

  datatype ScheduledOrchestration = ScheduledOrchestration(instanceId: nat, orchestrator: string, input: ReportRequest)

  /** The durable task client, reduced to the orchestrations it has scheduled so far. */
  datatype DurableClient = DurableClient(scheduled: seq<ScheduledOrchestration>)

  datatype Response =
    | ValidationResponse(validation: ValidationResult)
    | CheckStatusResponse(status: nat, instanceId: nat)

  datatype GatewayStep = GatewayStep(response: Response, client: DurableClient)

  /** The request built from the query (`GetBaseRequestAsync`, without the validation). */
  function ParseQuery(query: Query, reportName: string): (r: ReportRequest)
    ensures r.reportName == Some(reportName)
    ensures r.name.None? <==> "name" !in query
    ensures r.region.None? <==> "region" !in query
    ensures r.percentage.None? <==> "percentage" !in query
  {
    ReportRequest(
      Some(reportName),
      Lookup(query, "name"),
      Lookup(query, "region"),
      Lookup(query, "percentage"))
  }

  /** The query that carries exactly a request's non-null fields: the inverse of `ParseQuery`. */
  function ToQuery(r: ReportRequest): (q: Query)
    ensures q.Keys <= {"name", "region", "percentage"}
  {
    (if r.name.Some? then map["name" := r.name.value] else map[])
    + (if r.region.Some? then map["region" := r.region.value] else map[])
    + (if r.percentage.Some? then map["percentage" := r.percentage.value] else map[])
  }

  /** Parsing the query of a request gives the request back, under the endpoint's report name. */
  lemma ParseToQueryRoundTrip(r: ReportRequest, reportName: string)
    requires r.reportName == Some(reportName)
    ensures ParseQuery(ToQuery(r), reportName) == r
  {
  }

  /** Rebuilding the query from a parsed request keeps exactly the three keys the gateway reads. */
  lemma ToQueryParseRoundTrip(query: Query, reportName: string)
    ensures ToQuery(ParseQuery(query, reportName)) == query - (query.Keys - {"name", "region", "percentage"})
  {
  }

  /**
   `GetBaseRequestAsync`: the request read from the query, tagged with the endpoint's
   report name, together with the validator's verdict on that very request.
   */
  function GetBaseRequest(query: Query, reportName: string, validate: Validator): (p: (ReportRequest, ValidationResult))
    ensures p.0.reportName == Some(reportName)
    ensures p.0.name.None? <==> "name" !in query
    ensures p.0.region.None? <==> "region" !in query
    ensures p.0.percentage.None? <==> "percentage" !in query
    ensures "name" in query ==> p.0.name == Some(query["name"])
    ensures "region" in query ==> p.0.region == Some(query["region"])
    ensures "percentage" in query ==> p.0.percentage == Some(query["percentage"])
    ensures p.1 == validate(p.0)
  {
    var result := ParseQuery(query, reportName);
    (result, validate(result))
  }

  /** An instance id greater than every id already handed out. */
  function FreshInstanceId(scheduled: seq<ScheduledOrchestration>): (id: nat)
    ensures forall i :: 0 <= i < |scheduled| ==> scheduled[i].instanceId < id
  {
    if |scheduled| == 0 then 0
    else
      var before := FreshInstanceId(scheduled[..|scheduled| - 1]);
      var last := scheduled[|scheduled| - 1].instanceId + 1;
      if before < last then last else before
  }

  /** The validate-then-schedule flow shared by both endpoints. */
  function HandleReportRequest(client: DurableClient, query: Query, reportName: string, validate: Validator): (g: GatewayStep)
    ensures var (request, validation) := (ParseQuery(query, reportName), validate(ParseQuery(query, reportName)));
            && (g.response.CheckStatusResponse? <==> validation.isValid)
            && (!validation.isValid ==>
                  g.response == ValidationResponse(validation) && g.client == client)
            && (validation.isValid ==>
                  && g.response.status == Accepted
                  && g.client.scheduled ==
                       client.scheduled + [ScheduledOrchestration(g.response.instanceId, OrchestratorName, request)]
                  && forall i :: 0 <= i < |client.scheduled| ==>
                       client.scheduled[i].instanceId != g.response.instanceId)
  {
    var (reportRequest, validationResult) := GetBaseRequest(query, reportName, validate);
    if !validationResult.isValid then
      GatewayStep(ValidationResponse(validationResult), client)
    else
      var instanceId := FreshInstanceId(client.scheduled);
      var scheduled := ScheduledOrchestration(instanceId, OrchestratorName, reportRequest);
      GatewayStep(CheckStatusResponse(Accepted, instanceId), DurableClient(client.scheduled + [scheduled]))
  }

  /** `GET /species`. */
  function GetSpeciesEnvImpact(client: DurableClient, query: Query, validate: Validator): (g: GatewayStep)
    ensures |g.client.scheduled| == |client.scheduled| + (if g.response.CheckStatusResponse? then 1 else 0)
    ensures g.response.CheckStatusResponse? ==>
              && g.client.scheduled[|client.scheduled|].input.reportName == Some(SpeciesReport)
              && g.client.scheduled[|client.scheduled|].input.name == Lookup(query, "name")
  {
    HandleReportRequest(client, query, SpeciesReport, validate)
  }

  /** `GET /resources`. */
  function GetResourcesEnvImpact(client: DurableClient, query: Query, validate: Validator): (g: GatewayStep)
    ensures |g.client.scheduled| == |client.scheduled| + (if g.response.CheckStatusResponse? then 1 else 0)
    ensures g.response.CheckStatusResponse? ==>
              && g.client.scheduled[|client.scheduled|].input.reportName == Some(ResourcesReport)
              && g.client.scheduled[|client.scheduled|].input.name == Lookup(query, "name")
  {
    HandleReportRequest(client, query, ResourcesReport, validate)
  }

  /** Every instance id in the client is distinct. */
  predicate DistinctIds(client: DurableClient)
  {
    forall i, j :: 0 <= i < j < |client.scheduled| ==>
      client.scheduled[i].instanceId != client.scheduled[j].instanceId
  }

  /** Handling a request keeps instance ids distinct: every accepted call gets its own handle. */
  lemma HandlePreservesDistinctIds(client: DurableClient, query: Query, reportName: string, validate: Validator)
    requires DistinctIds(client)
    ensures DistinctIds(HandleReportRequest(client, query, reportName, validate).client)
  {
  }

  /**
   A validator that rejects a request without a name makes a query without `name`
   come back as a validation response with nothing scheduled.
   */
  lemma MissingNameSchedulesNothing(client: DurableClient, query: Query, reportName: string, validate: Validator)
    requires "name" !in query
    requires forall r: ReportRequest :: r.name.None? ==> !validate(r).isValid
    ensures var g := HandleReportRequest(client, query, reportName, validate);
            g.response.ValidationResponse? && g.client == client
  {
  }
}
