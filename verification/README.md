# Memoising report dispatch for the environmental-impact function app

This project models the core of `Functions/EnvImpactDurableFunction.cs`: two HTTP
endpoints (`GET /species`, `GET /resources`) that turn a query into a report
request, validate it and schedule a durable orchestration; the orchestration, which
calls one activity and returns its output; and that activity, `GetReportsRun`, which
memoises the report service in a process-wide memory cache keyed by a string built
from the request.

Modules follow the structure of the component:

- `Wrappers` (`wrappers.dfy`): `Option`, standing for a C# `null` or a present value, and `Lookup`, a dictionary read that yields `null` for a missing key.
- `Requests` (`requests.dfy`): the request record. All four fields are nullable strings.
- `CacheKey` (`cache_key.dfy`): the cache key. It is `string.Concat` over nullable arguments, with the literal `"filename"` first.
- `MemoryCache` (`memory_cache.dfy`): the cache as a `map<string, string>`, with no expiry.
- `Dispatcher` (`dispatcher.dfy`): the activity, with its hit/miss/failure behaviour. The report service is an uninterpreted function parameter.
- `RepeatedRuns` (`repeated_runs.dfy`): several activity runs one after another over the same cache.
- `Orchestrator` (`orchestrator.dfy`): the orchestration pass-through.
- `Gateway` (`gateway.dfy`): query parsing and the validate-then-schedule flow shared by both endpoints. The validator is an uninterpreted function parameter.
- `Scenarios` (`scenarios.dfy`): a request through the gateway followed by its orchestration, plus the worked end-to-end examples.

The central property is `Dispatcher.MemoisedAgreesWithDirect`. It assumes two things:

- every non-empty cache entry holds what the service produces for requests with that key (`Coherent`);
- the service answers alike for requests that share a key (`RespectsKey`).

Under those assumptions the memoised activity returns what a direct service call would return, and the cache stays coherent. `Dispatcher.CollisionServesForeignReport` shows that the second assumption cannot be dropped. Because the key has no separators, two different requests can share a key, and then the second request receives the first request's report.

Facts about the code that shape the model:

- The key starts with the literal `"filename"` (line 58). So the Lion example's key is `"filenameSpeciesLionAfrica10"`.
- `Percentage` is the raw query string (lines 138, 144). Nothing parses it as a number.
- Rejecting a request that has no `name` is up to the validator. Its rules are not part of this model. So that property is proved for any validator that rejects name-less requests.

## Model

| member | source | states |
|---|---|---|
| CacheKey.Key | Functions/EnvImpactDurableFunction.cs:58 | the `string.Concat` of `"filename"`, report name, name, region and percentage is exactly the five renderings in that order, with `null` as "", and its length is the sum of theirs |
| CacheKey.ConcatCongruent | Functions/EnvImpactDurableFunction.cs:58 | argument lists that render alike concatenate alike (a `null` argument is interchangeable with "") |
| CacheKey.ConcatSeparatesOnePosition | Functions/EnvImpactDurableFunction.cs:58 | changing a single argument to a differently rendered value always changes the concatenation |
| CacheKey.KeyDependsOnlyOnRendering | Functions/EnvImpactDurableFunction.cs:58 | the key is deterministic: requests whose fields render alike get the same key |
| CacheKey.AbsentFieldKeysLikeEmpty | Functions/EnvImpactDurableFunction.cs:58 | for every field, an absent (`null`) value and "" give the same key |
| CacheKey.KeySeparatesSingleField | Functions/EnvImpactDurableFunction.cs:58 | two requests whose renderings differ in exactly one field have different keys |
| CacheKey.BoundaryShiftCollides | Functions/EnvImpactDurableFunction.cs:58 | name "ab" with no region and name "a" with region "b" are different requests with the same key |
| MemoryCache.Set | Functions/EnvImpactDurableFunction.cs:67 | a cache write stores the value under the key and leaves every other entry unchanged |
| MemoryCache.FilledKeys | Functions/EnvImpactDurableFunction.cs:59-60 | the keys that count as hits are exactly those whose read is neither `null` nor "" |
| Dispatcher.GetReportsRun | Functions/EnvImpactDurableFunction.cs:54-70 | hit: returns the cached string with no service call and the cache unchanged. Miss, whether the key is absent or maps to "": exactly one service call, with this request. Miss with success: the result is stored under the key, even when it is "". Miss with failure: the failure propagates and the cache is unchanged |
| Dispatcher.ReturnedValueHasASource | Functions/EnvImpactDurableFunction.cs:59-69 | a returned value is either the non-empty cached entry or what the service produced for this call; the "failed" placeholder is never returned on its own account |
| Dispatcher.MemoisedAgreesWithDirect | Functions/EnvImpactDurableFunction.cs:54-70 | from a coherent cache, with a key-respecting service, the activity's outcome is the direct service outcome and the new cache is coherent |
| Dispatcher.CollisionServesForeignReport | Functions/EnvImpactDurableFunction.cs:58-63 | with colliding keys and a service that tells the two requests apart, the second request is served the first one's report with no service call, unlike a direct call |
| Dispatcher.RepeatAfterFilledMissIsHit | Functions/EnvImpactDurableFunction.cs:59-67 | after a miss whose result is non-empty, the same request is a hit: no service call, same outcome, same cache |
| Dispatcher.EmptyResultIsRecomputed | Functions/EnvImpactDurableFunction.cs:60-67 | an empty result is stored but still reads as a miss, so the service is called again |
| Dispatcher.FailureIsRetried | Functions/EnvImpactDurableFunction.cs:65-67 | after a failed call nothing is cached, so resubmitting calls the service again |
| RepeatedRuns.RunAllAgreesWithDirect | Functions/EnvImpactDurableFunction.cs:54-70 | across any sequence of runs from a coherent cache, each outcome is the direct service outcome and the final cache is coherent |
| RepeatedRuns.ServiceCallsBoundedByFreshKeys | Functions/EnvImpactDurableFunction.cs:59-67 | when the service always succeeds with a non-empty result, it is called at most once per distinct key that was not already filled |
| RepeatedRuns.FilledAfterMiss | Functions/EnvImpactDurableFunction.cs:60-67 | a miss with a non-empty result adds exactly that request's key to the hit keys |
| RepeatedRuns.RepeatedRequestCallsServiceOnce | Functions/EnvImpactDurableFunction.cs:59-67 | running the same request twice calls the service at most once, given non-empty results |
| Orchestrator.RunOrchestrator | Functions/EnvImpactDurableFunction.cs:44-51 | the orchestration calls the `GetReportsRun` activity exactly once with its own input and returns the activity's outcome unchanged |
| Orchestrator.OrchestrationAgreesWithDirect | Functions/EnvImpactDurableFunction.cs:44-51 | over a coherent cache, with a key-respecting service, the orchestration's output is the direct service outcome for its input |
| Wrappers.Lookup | Functions/EnvImpactDurableFunction.cs:136-138 | a dictionary read (`TryGetValue` on the query, and likewise the cache read at line 59) yields the value when the key is present and `null` exactly when it is missing |
| Gateway.ParseQuery | Functions/EnvImpactDurableFunction.cs:134-146 | the parsed request carries the endpoint's report name, and each of name, region and percentage is `null` exactly when its query key is missing |
| Gateway.ToQuery | Functions/EnvImpactDurableFunction.cs:136-138 | the inverse query of a request uses only the three keys the gateway reads |
| Gateway.ParseToQueryRoundTrip | Functions/EnvImpactDurableFunction.cs:136-146 | parsing the query built from a request gives that request back |
| Gateway.ToQueryParseRoundTrip | Functions/EnvImpactDurableFunction.cs:136-146 | rebuilding the query from a parsed request keeps exactly the name, region and percentage entries of the original query |
| Gateway.GetBaseRequest | Functions/EnvImpactDurableFunction.cs:134-152 | the request carries the endpoint's report name; each of name, region and percentage is `null` exactly when its query key is missing and otherwise holds the query's value; the verdict returned is the validator's verdict on that same request |
| Gateway.FreshInstanceId | Functions/EnvImpactDurableFunction.cs:94-95 | the new instance id differs from, and exceeds, every id already scheduled |
| Gateway.HandleReportRequest | Functions/EnvImpactDurableFunction.cs:85-101 | accepted exactly when valid. Invalid: a validation response and nothing scheduled. Valid: exactly one orchestration appended, carrying the parsed request under a fresh id, and a 202 response with that id |
| Gateway.GetSpeciesEnvImpact | Functions/EnvImpactDurableFunction.cs:77-102 | schedules one orchestration if accepted and none otherwise; the scheduled input has report name "Species" and the query's `name` |
| Gateway.GetResourcesEnvImpact | Functions/EnvImpactDurableFunction.cs:109-132 | schedules one orchestration if accepted and none otherwise; the scheduled input has report name "Resources" and the query's `name` |
| Gateway.HandlePreservesDistinctIds | Functions/EnvImpactDurableFunction.cs:94-101 | every scheduled orchestration keeps a distinct instance id |
| Gateway.MissingNameSchedulesNothing | Functions/EnvImpactDurableFunction.cs:85-90 | with a validator that rejects requests without a name, a query lacking `name` gets a validation response and schedules nothing |
| Scenarios.ServeSpecies | Functions/EnvImpactDurableFunction.cs:44-101 | a rejected request changes nothing and calls nothing; an accepted one schedules one orchestration whose output is the activity's outcome on the parsed request |
| Scenarios.LionRequestedTwice | Functions/EnvImpactDurableFunction.cs:44-101 | Lion/Africa/10 on an empty system is accepted as instance 0, calls the service once and caches its file under "filenameSpeciesLionAfrica10"; repeating the query gets a new instance id and is answered from the cache with no service call |
| Scenarios.ResourcesWithoutNameRejected | Functions/EnvImpactDurableFunction.cs:116-121 | a resources query with only a region gets an invalid validation response and schedules nothing, for any validator that requires a name |

## Left out

- Cache expiry and eviction: the TTL lives in `ServiceUtilities.GetCachedObject` and `SetCachedObject`. `Durable.Utilities` is not part of this model, so the cache is a plain map that never evicts.
- Concurrency: the race in which two concurrent misses for one key both call the service is not modelled. Activity runs are sequential.
- The validator's rules: `GetBaseRequestValidator` is not part of this model, so validation is an uninterpreted function parameter.
- The report service and the object mapper: these are foreign calls. Together they are one uninterpreted, deterministic function from request to result or failure.
- Durable Task internals: replay, persistence, status polling and real GUID instance ids are left out. An instance id is a natural number larger than every id issued before.
- HTTP response construction: `HandleValidationResponse` and `CreateCheckStatusResponseAsync` build the responses. They are reduced to the validation result and to status 202 with the instance id.
- OpenAPI attributes, logging, dependency injection (`Program.cs`) and constructor wiring carry no logic.
- The `(string)` cast of the cached object: the cache holds only strings here, so the cast cannot fail.
- A `null` report from the service: `GetReportAsync` is taken to return a non-null string. A `null` result would be cached (line 67) and returned (line 69), and a later read would count as a miss (line 60). The model has no value for it.
- A `null` query dictionary and `null` query values: the query is a map of strings. So `TryGetValue` (`Lookup`) yields `null` only for a missing key.
